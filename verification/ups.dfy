/**
 * ups.h: the UPS parameter state (UPS_a, UPS_f, UPS_Origin_Latitude) with
 * Set_UPS_Parameters (ups.h:29-58) and Convert_Geodetic_To_UPS
 * (ups.h:60-127). Angles are in degrees. The polar stereographic projection
 * (polarst.h) is not part of this model: it is a function handed in by the
 * caller.
 */
module Ups {
  import opened Errors
  import opened Optional

  /** MAX_ORIGIN_LAT (ups.h:15): the latitude of true scale, in degrees. */
  const MaxOriginLat: real := 81.114528
  /** MIN_NORTH_LAT and MIN_SOUTH_LAT (ups.h:16-17). */
  const MinNorthLat: real := 83.5
  const MinSouthLat: real := -79.5
  /** UPS_False_Easting, UPS_False_Northing and UPS_Origin_Longitude (ups.h:24-27). */
  const UpsFalseEasting: real := 2000000.0
  const UpsFalseNorthing: real := 2000000.0
  const UpsOriginLongitude: real := 0.0

  /** The arguments of Set_Polar_Stereographic_Parameters. */
  datatype PolarParams = PolarParams(
    a: real, f: real,
    originLatitude: real, originLongitude: real,
    falseEasting: real, falseNorthing: real)

  datatype PlanePoint = PlanePoint(easting: real, northing: real)

  /** Convert_Geodetic_To_Polar_Stereographic after its parameters are set (polarst.h, not part of this model). */
  type PolarProjection = (PolarParams, real, real) -> PlanePoint

  /** The three outputs Convert_Geodetic_To_UPS writes through its pointers on success. */
  datatype UpsPosition = UpsPosition(hemisphere: char, easting: real, northing: real)

  /**
   * `1 / f` outside [250, 350]. A zero flattening gives an infinite inverse
   * in C, which is above 350.
   */
  predicate InvFOutOfRange(f: real) {
    f == 0.0 || 1.0 / f < 250.0 || 1.0 / f > 350.0
  }

  /** The inverse flattening is accepted exactly when f lies in [1/350, 1/250]. */
  lemma InvFRange(f: real)
    ensures !InvFOutOfRange(f) <==> 1.0 / 350.0 <= f <= 1.0 / 250.0
  {
    if f > 0.0 {
      var g := 1.0 / f;
      assert f * g == 1.0;
      if 250.0 <= g <= 350.0 {
        assert f * 250.0 <= f * g == 1.0;
        assert f * 350.0 >= f * g == 1.0;
      }
      if 1.0 / 350.0 <= f <= 1.0 / 250.0 {
        assert g * (1.0 / 350.0) <= g * f;
        assert g * f <= g * (1.0 / 250.0);
      }
    } else if f < 0.0 {
      assert 1.0 / f < 0.0;
    }
  }

  /** The checks of Set_UPS_Parameters (ups.h:44-51): each sets its own flag. */
  function UpsParameterErrors(a: real, f: real): (r: set<UpsError>)
    ensures UpsAError in r <==> a <= 0.0
    ensures UpsInvFError in r <==> !(1.0 / 350.0 <= f <= 1.0 / 250.0)
    ensures r <= {UpsAError, UpsInvFError}
  {
    InvFRange(f);
    FlagIf(a <= 0.0, UpsAError) + FlagIf(InvFOutOfRange(f), UpsInvFError)
  }

  /** Both flags can be raised by one call. */
  lemma UpsParameterErrorsTogether()
    ensures UpsParameterErrors(0.0, 0.0) == {UpsAError, UpsInvFError}
  {
  }

  /** The latitude and longitude checks of Convert_Geodetic_To_UPS (ups.h:83-94). */
  function UpsLatLonErrors(lat: real, lon: real): (r: set<UpsError>)
    ensures UpsLatError in r <==> !(-90.0 <= lat <= MinSouthLat || MinNorthLat <= lat <= 90.0)
    ensures UpsLonError in r <==> !(-180.0 <= lon <= 360.0)
    ensures r <= {UpsLatError, UpsLonError}
  {
    FlagIf(lat < -90.0 || lat > 90.0, UpsLatError)
    + FlagIf(lat < 0.0 && lat > MinSouthLat, UpsLatError)
    + FlagIf(lat >= 0.0 && lat < MinNorthLat, UpsLatError)
    + FlagIf(lon < -180.0 || lon > 360.0, UpsLonError)
  }

  /** Both flags can be raised by one call. */
  lemma UpsLatLonErrorsTogether()
    ensures UpsLatLonErrors(45.0, 400.0) == {UpsLatError, UpsLonError}
  {
  }

  /** The hemisphere of a latitude: 'S' south of the equator, 'N' from it on (ups.h:98-107). */
  function UpsHemisphere(lat: real): (h: char)
    ensures (h == 'S' <==> lat < 0.0) && (h == 'N' <==> lat >= 0.0)
  {
    if lat < 0.0 then 'S' else 'N'
  }

  /** The origin latitude chosen with it: the latitude of true scale on the same side of the equator. */
  function PolarOrigin(lat: real): (o: real)
    ensures o == MaxOriginLat || o == -MaxOriginLat
    ensures (o < 0.0 <==> lat < 0.0) && (o < 0.0 <==> UpsHemisphere(lat) == 'S')
  {
    if lat < 0.0 then -MaxOriginLat else MaxOriginLat
  }

  /** The polar stereographic parameters a conversion uses. */
  function PolarParamsFor(a: real, f: real, lat: real): PolarParams {
    PolarParams(a, f, PolarOrigin(lat), UpsOriginLongitude, UpsFalseEasting, UpsFalseNorthing)
  }

  /** The state ups.h keeps between calls. */
  class UpsProjection {
    var a: real
    var f: real
    var originLatitude: real

    /** The defaults of ups.h:22-26: WGS 84, northern origin. */
    constructor ()
      ensures a == 6378137.0 && f == 1.0 / 298.257223563 && originLatitude == MaxOriginLat
    {
      a := 6378137.0;
      f := 1.0 / 298.257223563;
      originLatitude := MaxOriginLat;
    }

    /** Set_UPS_Parameters: the checks, and the new parameters stored only when both pass. */
    method SetParameters(newA: real, newF: real) returns (errorCode: set<UpsError>)
      modifies this
      ensures errorCode == UpsParameterErrors(newA, newF)
      ensures errorCode == {} ==> a == newA && f == newF
      ensures errorCode != {} ==> a == old(a) && f == old(f)
      ensures originLatitude == old(originLatitude)
    {
      errorCode := {};
      if newA <= 0.0 {
        errorCode := errorCode + {UpsAError};
      }
      if newF == 0.0 || 1.0 / newF < 250.0 || 1.0 / newF > 350.0 {
        errorCode := errorCode + {UpsInvFError};
      }
      if errorCode == {} {
        a := newA;
        f := newF;
      }
    }

    /**
     * Convert_Geodetic_To_UPS: the checks; on success the hemisphere and the
     * origin latitude follow the sign of the latitude and the position is the
     * polar projection with the stored ellipsoid. On error nothing is written.
     */
    method GeodeticToUps(lat: real, lon: real, polar: PolarProjection)
      returns (errorCode: set<UpsError>, position: Option<UpsPosition>)
      modifies this
      ensures errorCode == UpsLatLonErrors(lat, lon)
      ensures a == old(a) && f == old(f)
      ensures errorCode != {} ==> position.None? && originLatitude == old(originLatitude)
      ensures errorCode == {} ==>
        && originLatitude == PolarOrigin(lat)
        && var p := polar(PolarParamsFor(a, f, lat), lat, lon);
           position == Some(UpsPosition(UpsHemisphere(lat), p.easting, p.northing))
    {
      errorCode := {};
      if lat < -90.0 || lat > 90.0 {
        errorCode := errorCode + {UpsLatError};
      }
      if lat < 0.0 && lat > MinSouthLat {
        errorCode := errorCode + {UpsLatError};
      }
      if lat >= 0.0 && lat < MinNorthLat {
        errorCode := errorCode + {UpsLatError};
      }
      if lon < -180.0 || lon > 360.0 {
        errorCode := errorCode + {UpsLonError};
      }
      position := None;
      if errorCode == {} {
        var hemisphere: char;
        if lat < 0.0 {
          originLatitude := -MaxOriginLat;
          hemisphere := 'S';
        } else {
          originLatitude := MaxOriginLat;
          hemisphere := 'N';
        }
        var p := polar(PolarParams(a, f, originLatitude, UpsOriginLongitude, UpsFalseEasting, UpsFalseNorthing), lat, lon);
        position := Some(UpsPosition(hemisphere, p.easting, p.northing));
      }
    }
  }
}
