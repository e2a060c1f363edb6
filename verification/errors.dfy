/**
 * Error flags of the three namespaces involved. The source keeps each as a
 * bit mask combined with `|=`; here a mask is the set of its flags and `|=`
 * is set union. The comment on each flag gives its bit in the source.
 */
module Errors {

  /** MGRS_*_ERROR and MGRS_LAT_WARNING (mgrs.h:67-78). */
  datatype MgrsError =
    | MgrsLatError         // 0x0001
    | MgrsLonError         // 0x0002
    | MgrsStringError      // 0x0004
    | MgrsPrecisionError   // 0x0008
    | MgrsAError           // 0x0010
    | MgrsInvFError        // 0x0020
    | MgrsEastingError     // 0x0040
    | MgrsNorthingError    // 0x0080
    | MgrsZoneError        // 0x0100
    | MgrsHemisphereError  // 0x0200
    | MgrsLatWarning       // 0x0400

  /**
   * The UTM_*_ERROR flags that mgrs.h inspects; utm.h, which defines them,
   * is not part of this model, so every other flag it may raise is UtmOtherError.
   */
  datatype UtmError =
    | UtmLatError
    | UtmLonError
    | UtmEastingError
    | UtmNorthingError
    | UtmZoneOverrideError
    | UtmAError
    | UtmInvFError
    | UtmOtherError

  /** UPS_*_ERROR (ups.h:3-10). */
  datatype UpsError =
    | UpsLatError         // 0x0001
    | UpsLonError         // 0x0002
    | UpsHemisphereError  // 0x0004
    | UpsEastingError     // 0x0008
    | UpsNorthingError    // 0x0010
    | UpsAError           // 0x0020
    | UpsInvFError        // 0x0040

  /** `cond ? {e} : {}`, the effect of one `if (cond) error_code |= e;`. */
  function FlagIf<E>(cond: bool, e: E): (r: set<E>)
    ensures e in r <==> cond
    ensures r <= {e}
  {
    if cond then {e} else {}
  }

  /**
   * Translation of a failed UTM conversion (mgrs.h:305-314 and 536-545):
   * five flags carried over one to one, each to its namesake (the zone
   * override flag to MGRS_ZONE_ERROR), the rest dropped.
   */
  function FromUtmConversion(t: set<UtmError>): (r: set<MgrsError>)
    ensures r <= {MgrsLatError, MgrsLonError, MgrsZoneError, MgrsEastingError, MgrsNorthingError}
    ensures r == {} <==> t * {UtmLatError, UtmLonError, UtmZoneOverrideError, UtmEastingError, UtmNorthingError} == {}
    ensures MgrsLatError in r <==> UtmLatError in t
    ensures MgrsLonError in r <==> UtmLonError in t
    ensures MgrsZoneError in r <==> UtmZoneOverrideError in t
    ensures MgrsEastingError in r <==> UtmEastingError in t
    ensures MgrsNorthingError in r <==> UtmNorthingError in t
  {
    FlagIf(UtmLatError in t, MgrsLatError)
    + FlagIf(UtmLonError in t, MgrsLonError)
    + FlagIf(UtmZoneOverrideError in t, MgrsZoneError)
    + FlagIf(UtmEastingError in t, MgrsEastingError)
    + FlagIf(UtmNorthingError in t, MgrsNorthingError)
  }

  /** Translation of a failed UTM parameter set-up (mgrs.h:550-555). */
  function FromUtmSetup(t: set<UtmError>): (r: set<MgrsError>)
    ensures r <= {MgrsAError, MgrsInvFError, MgrsZoneError}
    ensures r == {} <==> t * {UtmAError, UtmInvFError, UtmZoneOverrideError} == {}
    ensures MgrsAError in r <==> UtmAError in t
    ensures MgrsInvFError in r <==> UtmInvFError in t
    ensures MgrsZoneError in r <==> UtmZoneOverrideError in t
  {
    FlagIf(UtmAError in t, MgrsAError)
    + FlagIf(UtmInvFError in t, MgrsInvFError)
    + FlagIf(UtmZoneOverrideError in t, MgrsZoneError)
  }

  /** Translation of a failed UPS parameter set-up (mgrs.h:520-523). */
  function FromUpsSetup(t: set<UpsError>): (r: set<MgrsError>)
    ensures r <= {MgrsAError, MgrsInvFError}
    ensures r == {} <==> t * {UpsAError, UpsInvFError} == {}
    ensures MgrsAError in r <==> UpsAError in t
    ensures MgrsInvFError in r <==> UpsInvFError in t
  {
    FlagIf(UpsAError in t, MgrsAError) + FlagIf(UpsInvFError in t, MgrsInvFError)
  }

  /** Translation of a failed UPS conversion (mgrs.h:512-515). */
  function FromUpsConversion(t: set<UpsError>): (r: set<MgrsError>)
    ensures r <= {MgrsLatError, MgrsLonError}
    ensures r == {} <==> t * {UpsLatError, UpsLonError} == {}
    ensures MgrsLatError in r <==> UpsLatError in t
    ensures MgrsLonError in r <==> UpsLonError in t
  {
    FlagIf(UpsLatError in t, MgrsLatError) + FlagIf(UpsLonError in t, MgrsLonError)
  }
}
