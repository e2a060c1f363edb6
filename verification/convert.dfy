/**
 * Convert_Geodetic_To_MGRS (mgrs.h:464-560): the input checks, the choice
 * between the UTM and the UPS path, and the translation of the projections'
 * error flags. Angles are in degrees.
 */
module MgrsConvert {
  import opened Errors
  import opened Optional
  import opened Ellipsoids
  import opened MgrsFormat
  import opened UtmGrid
  import opened UpsGrid
  import opened Ups
  import opened LatitudeBands

  /** The input checks (mgrs.h:488-499): each sets its own flag. */
  function GeodeticInputErrors(lat: real, lon: real, precision: int): (r: set<MgrsError>)
    ensures MgrsLatError in r <==> !(-90.0 <= lat <= 90.0)
    ensures MgrsLonError in r <==> !(-180.0 <= lon <= 360.0)
    ensures MgrsPrecisionError in r <==> !(0 <= precision <= 5)
    ensures r <= {MgrsLatError, MgrsLonError, MgrsPrecisionError}
  {
    FlagIf(lat < -90.0 || lat > 90.0, MgrsLatError)
    + FlagIf(lon < -180.0 || lon > 360.0, MgrsLonError)
    + FlagIf(precision < 0 || precision > 5, MgrsPrecisionError)
  }

  /** All three input flags can be raised by one call. */
  lemma GeodeticInputErrorsTogether()
    ensures GeodeticInputErrors(100.0, 400.0, 6) == {MgrsLatError, MgrsLonError, MgrsPrecisionError}
  {
  }

  /** Outside [MIN_UTM_LAT, MAX_UTM_LAT] (mgrs.h:46-47, 500) the UPS path is taken. */
  predicate RoutesToUps(lat: real) {
    lat < -80.0 || lat > 84.0
  }

  /**
   * Every latitude sent down the UPS path passes the latitude checks of
   * Convert_Geodetic_To_UPS, and its longitude passes too.
   */
  lemma UpsRoutedLatitudesPassUpsChecks(lat: real, lon: real, precision: int)
    requires GeodeticInputErrors(lat, lon, precision) == {} && RoutesToUps(lat)
    ensures UpsLatLonErrors(lat, lon) == {}
  {
  }

  /**
   * Every latitude sent down the UTM path lies in a latitude band, so the
   * band lookup of UTM_To_MGRS cannot fail there.
   */
  lemma UtmRoutedLatitudesHaveBands(lat: real)
    requires -90.0 <= lat <= 90.0 && !RoutesToUps(lat)
    ensures LatitudeLetter(lat).Some?
  {
  }

  /**
   * What the encoder needs of the polar projection at one position: when the
   * UPS path reaches Convert_UPS_To_MGRS and its range checks pass, the row
   * index of the projected point reads inside the alphabet table. Any other
   * row index reads before the table or past its terminating NUL, which C
   * leaves undefined. Points the checks reject need nothing: they are
   * reported as errors.
   */
  predicate UpsPathDefined(lat: real, lon: real, precision: int, ell: Ellipsoid, polar: PolarProjection) {
    var h := UpsHemisphere(lat);
    var p := polar(PolarParamsFor(ell.a, ell.f, lat), lat, lon);
    (&& GeodeticInputErrors(lat, lon, precision) == {}
     && RoutesToUps(lat)
     && UpsParameterErrors(ell.a, ell.f) == {}
     && UpsInputErrors(h, p.easting, p.northing, precision) == {})
    ==> UpsInDomain(h, p.easting, p.northing)
  }

  /** Set_UTM_Parameters (utm.h, not part of this model): its error flags for given arguments. */
  type UtmSetup = UtmParams -> set<UtmError>

  /** What Convert_Geodetic_To_MGRS returns and writes. */
  function GeodeticToMgrsResult(lat: real, lon: real, precision: int, ell: Ellipsoid,
                                utmSetup: UtmSetup, utm: UtmProjection, polar: PolarProjection): (r: Conversion)
    requires ProjectsIntoGrid(utm) && UpsPathDefined(lat, lon, precision, ell, polar)
    ensures r.text.Some? ==> r.errors == {}
  {
    var inputErrors := GeodeticInputErrors(lat, lon, precision);
    if inputErrors != {} then Conversion(inputErrors, None)
    else if RoutesToUps(lat) then
      var setup := UpsParameterErrors(ell.a, ell.f);
      if setup != {} then Conversion(FromUpsSetup(setup), None)
      else
        var conversion := UpsLatLonErrors(lat, lon);
        if conversion != {} then Conversion(FromUpsConversion(conversion), None)
        else
          var p := polar(PolarParamsFor(ell.a, ell.f, lat), lat, lon);
          UpsToMgrsResult(UpsHemisphere(lat), p.easting, p.northing, precision)
    else
      var setup := utmSetup(UtmParams(ell.a, ell.f, 0));
      if setup != {} then Conversion(FromUtmSetup(setup), None)
      else
        var o := utm(UtmParams(ell.a, ell.f, 0), lat, lon);
        if o.errors != {} then Conversion(FromUtmConversion(o.errors), None)
        else UtmToMgrsResult(o.zone, lon, lat, o.easting, o.northing, precision, ell, utm)
  }

  /** With a bad input no projection is consulted: the outcome is the input flags alone, whatever the projections. */
  lemma InputErrorsStopEarly(lat: real, lon: real, precision: int, ell: Ellipsoid,
                             utmSetup1: UtmSetup, utm1: UtmProjection, polar1: PolarProjection,
                             utmSetup2: UtmSetup, utm2: UtmProjection, polar2: PolarProjection)
    requires ProjectsIntoGrid(utm1) && UpsPathDefined(lat, lon, precision, ell, polar1)
    requires ProjectsIntoGrid(utm2) && UpsPathDefined(lat, lon, precision, ell, polar2)
    requires GeodeticInputErrors(lat, lon, precision) != {}
    ensures GeodeticToMgrsResult(lat, lon, precision, ell, utmSetup1, utm1, polar1)
      == GeodeticToMgrsResult(lat, lon, precision, ell, utmSetup2, utm2, polar2)
      == Conversion(GeodeticInputErrors(lat, lon, precision), None)
  {
  }

  /**
   * On the UPS path a rejected ellipsoid is reported through its translated
   * flags. Otherwise the flags are those of the range checks on the projected
   * point, easting and northing only; a reference is written exactly when
   * there is none, and its first letter names the hemisphere.
   */
  lemma UpsPathOutcome(lat: real, lon: real, precision: int, ell: Ellipsoid,
                       utmSetup: UtmSetup, utm: UtmProjection, polar: PolarProjection)
    requires ProjectsIntoGrid(utm) && UpsPathDefined(lat, lon, precision, ell, polar)
    requires GeodeticInputErrors(lat, lon, precision) == {} && RoutesToUps(lat)
    ensures var r := GeodeticToMgrsResult(lat, lon, precision, ell, utmSetup, utm, polar);
      var setup := UpsParameterErrors(ell.a, ell.f);
      var p := polar(PolarParamsFor(ell.a, ell.f, lat), lat, lon);
      && (setup != {} ==> r == Conversion(FromUpsSetup(setup), None))
      && (setup == {} ==>
            && r.errors == UpsInputErrors(UpsHemisphere(lat), p.easting, p.northing, precision)
            && r.errors <= {MgrsEastingError, MgrsNorthingError})
      && (r.text.Some? <==> r.errors == {})
      && (r.text.Some? ==>
            && |r.text.value| == 3 + 2 * precision
            && (lat < 0.0 ==> r.text.value[0] in "AB")
            && (lat > 0.0 ==> r.text.value[0] in "YZ"))
  {
    UpsRoutedLatitudesPassUpsChecks(lat, lon, precision);
    var setup := UpsParameterErrors(ell.a, ell.f);
    if setup == {} {
      var p := polar(PolarParamsFor(ell.a, ell.f, lat), lat, lon);
      var h := UpsHemisphere(lat);
      if UpsInputErrors(h, p.easting, p.northing, precision) == {} {
        UpsTextFields(h, p.easting, p.northing, precision);
      }
    }
  }

  /**
   * On the UTM path a rejected set-up or a failed projection is reported
   * through its translated flags. Otherwise a reference is always written,
   * unless the zone 31 re-projection fails; it is 5 + 2 * precision
   * characters long and starts with a zone number from 1 to 60.
   */
  lemma UtmPathOutcome(lat: real, lon: real, precision: int, ell: Ellipsoid,
                       utmSetup: UtmSetup, utm: UtmProjection, polar: PolarProjection)
    requires ProjectsIntoGrid(utm) && UpsPathDefined(lat, lon, precision, ell, polar)
    requires GeodeticInputErrors(lat, lon, precision) == {} && !RoutesToUps(lat)
    ensures var r := GeodeticToMgrsResult(lat, lon, precision, ell, utmSetup, utm, polar);
      var setup := utmSetup(UtmParams(ell.a, ell.f, 0));
      var o := utm(UtmParams(ell.a, ell.f, 0), lat, lon);
      && r.errors <= {MgrsAError, MgrsInvFError, MgrsZoneError, MgrsLatError, MgrsLonError,
                      MgrsEastingError, MgrsNorthingError}
      && (setup != {} ==> r == Conversion(FromUtmSetup(setup), None))
      && (setup == {} && o.errors != {} ==> r == Conversion(FromUtmConversion(o.errors), None))
      && (setup == {} && o.errors == {} ==>
            (r.text.Some? <==>
               !(Zone31Reprojects(o.zone, lat, lon, o.easting) && utm(UtmParams(ell.a, ell.f, 32), lat, lon).errors != {})))
      && (r.text.Some? ==>
            && |r.text.value| == 5 + 2 * precision
            && AllDigits(r.text.value[..2])
            && 1 <= ValueOf(r.text.value[..2]) <= 60)
  {
    var setup := utmSetup(UtmParams(ell.a, ell.f, 0));
    var o := utm(UtmParams(ell.a, ell.f, 0), lat, lon);
    if setup == {} && o.errors == {} {
      UtmRoutedLatitudesHaveBands(lat);
      UtmTextZoneAndLetters(o.zone, lon, lat, o.easting, o.northing, precision, ell, utm);
      if Zone31Reprojects(o.zone, lat, lon, o.easting) {
        var o32 := utm(UtmParams(ell.a, ell.f, 32), lat, lon);
        if o32.errors == {} {
          UtmRoutedLatitudesHaveBands(lat);
          assert LatitudeLetter(EquatorFix(lat, o32.northing).0).Some?;
        }
      } else {
        assert LatitudeLetter(EquatorFix(lat, o.northing).0).Some?;
      }
    }
  }

  /**
   * A reference Convert_Geodetic_To_MGRS writes never holds an O, and holds
   * an I only as its column letter: the second character of a UPS reference,
   * the fourth of a UTM one.
   */
  lemma GeodeticTextIOnlyAsColumn(lat: real, lon: real, precision: int, ell: Ellipsoid,
                                  utmSetup: UtmSetup, utm: UtmProjection, polar: PolarProjection)
    requires ProjectsIntoGrid(utm) && UpsPathDefined(lat, lon, precision, ell, polar)
    ensures var r := GeodeticToMgrsResult(lat, lon, precision, ell, utmSetup, utm, polar);
      r.text.Some? ==>
        forall k :: 0 <= k < |r.text.value| ==>
          && r.text.value[k] != 'O'
          && (r.text.value[k] == 'I' ==> k == if RoutesToUps(lat) then 1 else 3)
  {
    var r := GeodeticToMgrsResult(lat, lon, precision, ell, utmSetup, utm, polar);
    if r.text.Some? {
      if RoutesToUps(lat) {
        var p := polar(PolarParamsFor(ell.a, ell.f, lat), lat, lon);
        UpsTextIOnlyAsColumn(UpsHemisphere(lat), p.easting, p.northing, precision);
      } else {
        var o := utm(UtmParams(ell.a, ell.f, 0), lat, lon);
        UtmTextZoneAndLetters(o.zone, lon, lat, o.easting, o.northing, precision, ell, utm);
      }
    }
  }

  /**
   * Convert_Geodetic_To_MGRS. The UPS state is changed only on the UPS path:
   * its ellipsoid when the ellipsoid is accepted, its origin latitude when
   * the conversion goes ahead.
   */
  method ConvertGeodeticToMgrs(lat: real, lon: real, precision: int, mgrs: array<char>,
                               ups: UpsProjection, ell: Ellipsoid,
                               utmSetup: UtmSetup, utm: UtmProjection, polar: PolarProjection)
    returns (errorCode: set<MgrsError>)
    requires ProjectsIntoGrid(utm) && UpsPathDefined(lat, lon, precision, ell, polar)
    requires 0 <= precision <= 5 ==> 5 + 2 * precision < mgrs.Length
    modifies mgrs, ups
    ensures var r := GeodeticToMgrsResult(lat, lon, precision, ell, utmSetup, utm, polar);
      errorCode == r.errors && mgrs[..] == Applied(old(mgrs[..]), r.text)
    ensures var upsUpdated := GeodeticInputErrors(lat, lon, precision) == {} && RoutesToUps(lat)
        && UpsParameterErrors(ell.a, ell.f) == {};
      if upsUpdated then ups.a == ell.a && ups.f == ell.f && ups.originLatitude == PolarOrigin(lat)
      else ups.a == old(ups.a) && ups.f == old(ups.f) && ups.originLatitude == old(ups.originLatitude)
  {
    errorCode := {};
    if lat < -90.0 || lat > 90.0 {
      errorCode := errorCode + {MgrsLatError};
    }
    if lon < -180.0 || lon > 360.0 {
      errorCode := errorCode + {MgrsLonError};
    }
    if precision < 0 || precision > 5 {
      errorCode := errorCode + {MgrsPrecisionError};
    }
    assert errorCode == GeodeticInputErrors(lat, lon, precision);
    if errorCode == {} {
      if lat < -80.0 || lat > 84.0 {
        var temp := ups.SetParameters(ell.a, ell.f);
        if temp == {} {
          var position;
          temp, position := ups.GeodeticToUps(lat, lon, polar);
          if temp == {} {
            var r := UpsToMgrs(position.value.hemisphere, position.value.easting, position.value.northing, precision, mgrs);
            errorCode := errorCode + r;
          } else {
            errorCode := errorCode + FromUpsConversion(temp);
          }
        } else {
          errorCode := errorCode + FromUpsSetup(temp);
        }
      } else {
        var temp := utmSetup(UtmParams(ell.a, ell.f, 0));
        if temp == {} {
          var o := utm(UtmParams(ell.a, ell.f, 0), lat, lon);
          if o.errors == {} {
            var r := UtmToMgrs(o.zone, o.hemisphere, lon, lat, o.easting, o.northing, precision, mgrs, ell, utm);
            errorCode := errorCode + r;
          } else {
            errorCode := errorCode + FromUtmConversion(o.errors);
          }
        } else {
          errorCode := errorCode + FromUtmSetup(temp);
        }
      }
    }
  }
}
