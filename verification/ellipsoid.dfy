/**
 * The ellipsoid the encoder works with: MGRS_a, MGRS_f and
 * MGRS_Ellipsoid_Code (mgrs.h:51-54). The source keeps them in process-wide
 * globals; here they travel as one value.
 */
module Ellipsoids {

  datatype Ellipsoid = Ellipsoid(a: real, f: real, code: string)

  /** The default: WGS 84, code "WE". */
  const Wgs84: Ellipsoid := Ellipsoid(6378137.0, 1.0 / 298.257223563, "WE")
}
