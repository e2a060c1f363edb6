/**
 * The UTM half of the encoder: Get_Grid_Values (mgrs.h:175-236) and
 * UTM_To_MGRS (mgrs.h:266-360). Latitudes and longitudes are in degrees.
 * The UTM projection itself (utm.h) is not part of this model: it is a
 * function handed in by the caller, together with the guarantees on its
 * results that the encoder relies on.
 */
module UtmGrid {
  import opened Numeric
  import opened Letters
  import opened Errors
  import opened Optional
  import opened Ellipsoids
  import opened LatitudeBands
  import opened MgrsFormat

  /** The four ellipsoid codes (Clarke 1866, Clarke 1880, Bessel 1841, Bessel 1841 Namibia) that switch the row pattern (mgrs.h:60-63). */
  predicate UsesAlPattern(code: string) {
    code == "CC" || code == "CD" || code == "BR" || code == "BN"
  }

  /** The set number of a zone: `zone % 6`, with 0 read as 6. */
  function SetNumber(zone: int): (s: int)
    requires zone >= 0
    ensures 1 <= s <= 6 && s % 6 == zone % 6
  {
    if zone % 6 == 0 then 6 else zone % 6
  }

  /** The outputs of Get_Grid_Values: the column-letter range and the row pattern offset. */
  datatype GridValues = GridValues(low: int, high: int, patternOffset: real)

  /**
   * Get_Grid_Values. The three column sets split the grid alphabet into
   * consecutive blocks of eight letters; the row pattern starts 500 km later
   * in even zones, and 1000 km later again for the four older ellipsoids.
   */
  function GetGridValues(zone: int, code: string): (g: GridValues)
    requires zone >= 0
    ensures var block := 8 * ((SetNumber(zone) - 1) % 3);
      g.low == GridAlphabet[block] && g.high == GridAlphabet[block + 7]
    ensures g.patternOffset
      == (if UsesAlPattern(code) then 1000000.0 else 0.0) + (if zone % 2 == 0 then 500000.0 else 0.0)
  {
    var s := SetNumber(zone);
    var low := if s == 1 || s == 4 then LetterA else if s == 2 || s == 5 then LetterJ else LetterS;
    var high := if s == 1 || s == 4 then LetterH else if s == 2 || s == 5 then LetterR else LetterZ;
    var offset :=
      if !UsesAlPattern(code) then (if s % 2 == 0 then 500000.0 else 0.0)
      else (if s % 2 == 0 then 1500000.0 else 1000000.0);
    GridValues(low, high, offset)
  }

  /** Zones six apart share their grid values. */
  lemma GridValuesPeriodic(zone: int, code: string)
    requires zone >= 0
    ensures GetGridValues(zone + 6, code) == GetGridValues(zone, code)
  {
    assert SetNumber(zone + 6) == SetNumber(zone);
  }

  /** Northing folded into [0, 2000 km), as the subtraction loop of UTM_To_MGRS leaves it. */
  function FoldedNorthing(northing: real): (r: real)
    requires northing >= 0.0
    ensures 0.0 <= r < TwoMil
  {
    northing - TwoMil * (northing / TwoMil).Floor as real
  }

  /** The row index before the I/O skip (mgrs.h:334-341). */
  function UtmRowIndex(northing: real, patternOffset: real): (k: int)
    requires northing >= 0.0 && 0.0 <= patternOffset < TwoMil
    ensures 0 <= k < 20
  {
    var g := FoldedNorthing(northing) + patternOffset;
    var wrapped := if g >= TwoMil then g - TwoMil else g;
    Trunc(wrapped / OneHt)
  }

  /** The third letter of a UTM reference (mgrs.h:334-347): a grid letter from A to V. */
  function UtmRowLetter(northing: real, patternOffset: real): (l: int)
    requires northing >= 0.0 && 0.0 <= patternOffset < TwoMil
    ensures IsGridLetter(l) && LetterA <= l <= LetterV
  {
    SkipIO(UtmRowIndex(northing, patternOffset))
  }

  /**
   * The row letters cycle through the first twenty grid letters, one per
   * 100 km of northing, starting `rows` letters in.
   */
  lemma UtmRowLetterCycle(northing: real, rows: int)
    requires northing >= 0.0 && 0 <= rows < 20
    ensures UtmRowLetter(northing, rows as real * OneHt)
      == GridAlphabet[((northing / OneHt).Floor + rows) % 20]
  {
    var q := (northing / TwoMil).Floor;
    var r := FoldedNorthing(northing);
    assert r == northing - TwoMil * q as real;
    var f := (r / OneHt).Floor;
    assert 0 <= f < 20;
    assert northing / OneHt == r / OneHt + (20 * q) as real;
    FloorShift(r / OneHt, 20 * q);
    var g := r + rows as real * OneHt;
    var w := if g >= TwoMil then 1 else 0;
    assert w == 1 <==> f + rows >= 20;
    var wrapped := g - (w as real) * TwoMil;
    assert wrapped / OneHt == r / OneHt + (rows - 20 * w) as real;
    FloorShift(r / OneHt, rows - 20 * w);
    assert UtmRowIndex(northing, rows as real * OneHt) == f + rows - 20 * w;
    RemainderTwenty((northing / OneHt).Floor + rows, q + w, f + rows - 20 * w);
    SkipIOIsGridAlphabet(f + rows - 20 * w);
  }

  /** The remainder by twenty is the one m in [0, 20) that differs from x by a multiple of twenty. */
  lemma RemainderTwenty(x: int, k: int, m: int)
    requires x == 20 * k + m && 0 <= m < 20
    ensures x % 20 == m
  {
  }

  /** The row letter repeats every 2000 km of northing. */
  lemma UtmRowLetterPeriodic(northing: real, patternOffset: real)
    requires northing >= 0.0 && 0.0 <= patternOffset < TwoMil
    ensures UtmRowLetter(northing + TwoMil, patternOffset) == UtmRowLetter(northing, patternOffset)
  {
    assert (northing + TwoMil) / TwoMil == northing / TwoMil + 1.0;
    FloorShift(northing / TwoMil, 1);
    assert FoldedNorthing(northing + TwoMil) == FoldedNorthing(northing);
  }

  /**
   * The second letter (mgrs.h:353-355): the 100 km column counted from the
   * set's first letter, skipping O in the J set.
   */
  function UtmColumnLetter(low: int, gridEasting: real): (l: int)
    requires low == LetterA || low == LetterJ || low == LetterS
    requires 100000.0 <= gridEasting <= 900000.0
    ensures IsAlphabetIndex(l) && l != LetterO
    ensures low <= l <= low + 9
    ensures l == LetterI <==> low == LetterA && gridEasting == 900000.0
    ensures l == AlphabetEnd <==> low == LetterS && gridEasting == 900000.0
  {
    var c := Trunc(gridEasting / OneHt);
    assert 1 <= c <= 9 && (c == 9 <==> gridEasting == 900000.0);
    var l := low + (c - 1);
    if low == LetterJ && l > LetterN then l + 1 else l
  }

  /**
   * At an easting of exactly 900 km the count runs one column past the set's
   * eight letters: to I in sets 1 and 4, to S in sets 2 and 5, and in sets 3
   * and 6 to index 26, the NUL that ends the alphabet string.
   */
  lemma UtmColumnAtEastEdge(zone: int, code: string)
    requires zone >= 0
    ensures var s := SetNumber(zone) % 3;
      UtmColumnLetter(GetGridValues(zone, code).low, 900000.0)
        == (if s == 1 then LetterI else if s == 2 then LetterS else AlphabetEnd)
  {
    assert Trunc(900000.0 / OneHt) == 9;
  }

  /**
   * For an easting in [100 km, 900 km) the column letter is the easting's
   * 100 km column within the zone's block of the grid alphabet; so it lies
   * in the set's range and is never I or O.
   */
  lemma UtmColumnLetterInSet(zone: int, code: string, gridEasting: real)
    requires zone >= 0 && 100000.0 <= gridEasting < 900000.0
    ensures var g := GetGridValues(zone, code);
      var l := UtmColumnLetter(g.low, gridEasting);
      && l == GridAlphabet[8 * ((SetNumber(zone) - 1) % 3) + Trunc(gridEasting / OneHt) - 1]
      && g.low <= l <= g.high && IsGridLetter(l)
  {
    var block := 8 * ((SetNumber(zone) - 1) % 3);
    var c := Trunc(gridEasting / OneHt) - 1;
    ColumnInBlock(block, c);
    SkipIOIsGridAlphabet(block + c);
    SkipIOIsGridAlphabet(block + 7);
    if c < 7 {
      SkipIOStrictlyIncreasing(block + c, block + 7);
    }
    SkipIOIsGridAlphabet(block);
    if c > 0 {
      SkipIOStrictlyIncreasing(block, block + c);
    }
  }

  /** Counting c columns from the first letter of a block, with the J set's skip, is the two-step skip of block + c. */
  lemma ColumnInBlock(block: int, c: int)
    requires block == 0 || block == 8 || block == 16
    requires 0 <= c < 8
    ensures var l := GridAlphabet[block] + c;
      (if GridAlphabet[block] == LetterJ && l > LetterN then l + 1 else l) == SkipIO(block + c)
  {
  }

  /** The easting used for the column letter and the digits: 1 m less at the 31V edge of 500 km (mgrs.h:349-351). */
  function GridEasting(zone: int, band: int, easting: real): (e: real)
    ensures e == easting || e == easting - 1.0
    ensures e != easting <==> zone == 31 && band == LetterV && easting == 500000.0
  {
    if band == LetterV && zone == 31 && easting == 500000.0 then easting - 1.0 else easting
  }

  /** The guard of the zone 31 re-projection (mgrs.h:299). */
  predicate Zone31Reprojects(zone: int, lat: real, lon: real, easting: real) {
    zone == 31 && 56.0 <= lat < 64.0 && (lon >= 3.0 || easting >= 500000.0)
  }

  /** The arguments of Set_UTM_Parameters in force for a projection. */
  datatype UtmParams = UtmParams(a: real, f: real, zoneOverride: int)

  /** What Convert_Geodetic_To_UTM returns: its error flags and its four outputs. */
  datatype UtmOutcome = UtmOutcome(errors: set<UtmError>, zone: int, hemisphere: char, easting: real, northing: real)

  /** Convert_Geodetic_To_UTM after Set_UTM_Parameters (utm.h, not part of this model). */
  type UtmProjection = (UtmParams, real, real) -> UtmOutcome

  /** What the encoder needs of a UTM position: a zone, an easting inside the zone's columns, a northing, a precision. */
  predicate UtmInputs(zone: int, easting: real, northing: real, precision: int) {
    && 1 <= zone <= 60
    && 100000.0 <= easting <= 900000.0
    && 0.0 <= northing <= 10000000.0
    && 0 <= precision <= 5
  }

  /**
   * The guarantee the encoder relies on from utm.h: a projection that reports
   * no error yields a zone in 1..60 (the override when one is set), an
   * easting in [100 km, 900 km] and a northing in [0, 10000 km], the ranges
   * utm.h checks before it returns a position.
   */
  ghost predicate ProjectsIntoGrid(utm: UtmProjection) {
    forall p: UtmParams, lat: real, lon: real ::
      utm(p, lat, lon).errors == {} ==>
        && UtmInputs(utm(p, lat, lon).zone, utm(p, lat, lon).easting, utm(p, lat, lon).northing, 0)
        && (p.zoneOverride != 0 ==> utm(p, lat, lon).zone == p.zoneOverride)
  }

  /** The fix-up at the equator (mgrs.h:320-324): a southern northing of exactly 10000 km is read as 0 at latitude 0. */
  function EquatorFix(lat: real, northing: real): (r: (real, real))
    ensures r.1 <= northing
  {
    if lat <= 0.0 && northing == 10000000.0 then (0.0, 0.0) else (lat, northing)
  }

  /** The three letters of a UTM reference, once the band is known. */
  function UtmLetters(zone: int, band: int, easting: real, northing: real, code: string): (letters: seq<int>)
    requires UtmInputs(zone, easting, northing, 0)
    requires IsGridLetter(band)
    ensures |letters| == 3 && forall k :: 0 <= k < 3 ==> IsAlphabetIndex(letters[k])
    ensures letters[0] == band && IsGridLetter(letters[2])
    ensures easting < 900000.0 ==> IsGridLetter(letters[1])
    ensures letters[1] != LetterO
    ensures letters[1] == LetterI <==> easting == 900000.0 && SetNumber(zone) % 3 == 1
  {
    var g := GetGridValues(zone, code);
    var e := GridEasting(zone, band, easting);
    [band, UtmColumnLetter(g.low, e), UtmRowLetter(northing, g.patternOffset)]
  }

  /** UTM_To_MGRS after the re-projection check: the band, the letters and the text. */
  function UtmLettering(zone: int, lat: real, easting: real, northing: real, precision: int, code: string): (r: Conversion)
    requires UtmInputs(zone, easting, northing, precision)
    ensures r.errors == {} <==> r.text.Some?
    ensures r.text.Some? ==> |r.text.value| == 5 + 2 * precision
  {
    var (la, n) := EquatorFix(lat, northing);
    match LatitudeLetter(la)
    case None => Conversion({MgrsLatError}, None)
    case Some(band) =>
      var letters := UtmLetters(zone, band, easting, n, code);
      Conversion({}, Some(MgrsText(zone, letters, GridEasting(zone, band, easting), n, precision)))
  }

  /** What UTM_To_MGRS returns and writes (mgrs.h:266-360). */
  function UtmToMgrsResult(zone: int, lon: real, lat: real, easting: real, northing: real, precision: int,
                           ell: Ellipsoid, utm: UtmProjection): (r: Conversion)
    requires UtmInputs(zone, easting, northing, precision) && ProjectsIntoGrid(utm)
    ensures r.text.Some? ==> r.errors == {} && |r.text.value| == 5 + 2 * precision
    ensures r.errors <= {MgrsLatError, MgrsLonError, MgrsZoneError, MgrsEastingError, MgrsNorthingError}
  {
    if Zone31Reprojects(zone, lat, lon, easting) then
      var o := utm(UtmParams(ell.a, ell.f, 32), lat, lon);
      if o.errors != {} then Conversion(FromUtmConversion(o.errors), None)
      else UtmLettering(o.zone, lat, o.easting, o.northing, precision, ell.code)
    else UtmLettering(zone, lat, easting, northing, precision, ell.code)
  }

  /** A failed re-projection at the 31V edge writes nothing and reports only the five translated flags, each exactly when its UTM flag was raised. */
  lemma UtmReprojectionFailure(zone: int, lon: real, lat: real, easting: real, northing: real, precision: int,
                               ell: Ellipsoid, utm: UtmProjection)
    requires UtmInputs(zone, easting, northing, precision) && ProjectsIntoGrid(utm)
    requires Zone31Reprojects(zone, lat, lon, easting)
    requires utm(UtmParams(ell.a, ell.f, 32), lat, lon).errors != {}
    ensures var r := UtmToMgrsResult(zone, lon, lat, easting, northing, precision, ell, utm);
      var t := utm(UtmParams(ell.a, ell.f, 32), lat, lon).errors;
      && r.text.None?
      && (MgrsLatError in r.errors <==> UtmLatError in t)
      && (MgrsLonError in r.errors <==> UtmLonError in t)
      && (MgrsZoneError in r.errors <==> UtmZoneOverrideError in t)
      && (MgrsEastingError in r.errors <==> UtmEastingError in t)
      && (MgrsNorthingError in r.errors <==> UtmNorthingError in t)
  {
  }

  /** Outside the bands (after the equator fix-up) UTM_To_MGRS reports exactly MGRS_LAT_ERROR and writes nothing. */
  lemma UtmBandFailure(zone: int, lon: real, lat: real, easting: real, northing: real, precision: int,
                       ell: Ellipsoid, utm: UtmProjection)
    requires UtmInputs(zone, easting, northing, precision) && ProjectsIntoGrid(utm)
    requires !Zone31Reprojects(zone, lat, lon, easting)
    requires !(-80.5 < EquatorFix(lat, northing).0 < 84.5)
    ensures UtmToMgrsResult(zone, lon, lat, easting, northing, precision, ell, utm) == Conversion({MgrsLatError}, None)
  {
  }

  /** When the zone 31 guard fires and the re-projection succeeds, the reference is written in zone 32. */
  lemma UtmZone31Reroutes(zone: int, lon: real, lat: real, easting: real, northing: real, precision: int,
                          ell: Ellipsoid, utm: UtmProjection)
    requires UtmInputs(zone, easting, northing, precision) && ProjectsIntoGrid(utm)
    requires Zone31Reprojects(zone, lat, lon, easting)
    requires utm(UtmParams(ell.a, ell.f, 32), lat, lon).errors == {}
    ensures var r := UtmToMgrsResult(zone, lon, lat, easting, northing, precision, ell, utm);
      r.errors == {} && r.text.Some? && r.text.value[..2] == "32"
  {
    var o := utm(UtmParams(ell.a, ell.f, 32), lat, lon);
    assert o.zone == 32;
    var band := LatitudeLetter(lat).value;
    var n := EquatorFix(lat, o.northing).1;
    var letters := UtmLetters(32, band, o.easting, n, ell.code);
    var t := MgrsText(32, letters, GridEasting(32, band, o.easting), n, precision);
    assert Decimal(32) == "32" by {
      assert Decimal(3) == "3";
    }
    assert t == ZoneText(32) + LetterText(letters)
      + ZeroPadded(DigitGroup(GridEasting(32, band, o.easting), precision), precision)
      + ZeroPadded(DigitGroup(n, precision), precision);
  }

  /**
   * The 1 m nudge at the 31V edge applies only to latitudes within 8e-12
   * degrees south of 56: everywhere else in 31V the re-projection to zone
   * 32 has already happened.
   */
  lemma UtmNudgeOnlyJustSouthOf56(lon: real, lat: real)
    requires !Zone31Reprojects(31, lat, lon, 500000.0)
    requires LatitudeLetter(lat) == Some(LetterV)
    ensures 56.0 - 8.0 * BandNudge <= lat < 56.0
  {
    LatitudeLetterIsTableRow(lat, 17);
  }

  /**
   * The equator fix-up: a point at or south of the equator with northing
   * 10000 km is written in band N with a northing of zero.
   */
  lemma UtmEquatorFix(zone: int, lon: real, lat: real, easting: real, precision: int,
                      ell: Ellipsoid, utm: UtmProjection)
    requires UtmInputs(zone, easting, 10000000.0, precision) && ProjectsIntoGrid(utm)
    requires lat <= 0.0
    ensures var r := UtmToMgrsResult(zone, lon, lat, easting, 10000000.0, precision, ell, utm);
      && r.text.Some? && r.text.value[2] == 'N'
      && ValueOf(r.text.value[5 + precision..]) == 0
  {
    assert UtmToMgrsResult(zone, lon, lat, easting, 10000000.0, precision, ell, utm)
      == UtmLettering(zone, lat, easting, 10000000.0, precision, ell.code);
    EquatorLettering(zone, lat, easting, precision, ell.code);
  }

  /** The letter stage of the equator fix-up, apart from the projection. */
  lemma EquatorLettering(zone: int, lat: real, easting: real, precision: int, code: string)
    requires UtmInputs(zone, easting, 10000000.0, precision)
    requires lat <= 0.0
    ensures var r := UtmLettering(zone, lat, easting, 10000000.0, precision, code);
      && r.text.Some? && r.text.value[2] == 'N'
      && ValueOf(r.text.value[5 + precision..]) == 0
  {
    assert LatitudeLetter(0.0) == Some(LetterN) by {
      BandTableShape();
      assert BandIndex(0.0) == 10;
    }
    var letters := UtmLetters(zone, LetterN, easting, 0.0, code);
    var ge := GridEasting(zone, LetterN, easting);
    var t := MgrsText(zone, letters, ge, 0.0, precision);
    assert UtmLettering(zone, lat, easting, 10000000.0, precision, code) == Conversion({}, Some(t));
    MgrsTextFields(zone, letters, ge, 0.0, precision);
    assert t[2] == LetterChar(LetterN) == 'N';
    DigitGroupOfZero(precision);
  }

  /**
   * The text of the letter stage: the zone in two digits, then the letters.
   * O never appears; I appears only as the column letter, and exactly when a
   * set 1 or 4 zone meets the 900 km edge.
   */
  lemma UtmLetteringText(zone: int, lat: real, easting: real, northing: real, precision: int, code: string)
    requires UtmInputs(zone, easting, northing, precision)
    ensures var r := UtmLettering(zone, lat, easting, northing, precision, code);
      r.text.Some? ==>
        var t := r.text.value;
        && AllDigits(t[..2]) && ValueOf(t[..2]) == zone
        && (forall k :: 0 <= k < |t| ==> t[k] != 'O')
        && (forall k :: 0 <= k < |t| ==>
              (t[k] == 'I' <==> k == 3 && easting == 900000.0 && SetNumber(zone) % 3 == 1))
  {
    var r := UtmLettering(zone, lat, easting, northing, precision, code);
    if r.text.Some? {
      var (la, n) := EquatorFix(lat, northing);
      var band := LatitudeLetter(la).value;
      var letters := UtmLetters(zone, band, easting, n, code);
      var ge := GridEasting(zone, band, easting);
      var t := MgrsText(zone, letters, ge, n, precision);
      assert r.text.value == t;
      MgrsTextFields(zone, letters, ge, n, precision);
      MgrsTextHasNoIO(zone, letters, ge, n, precision);
      assert |ZoneText(zone)| == 2;
      forall k | 0 <= k < |t|
        ensures t[k] != 'O'
        ensures t[k] == 'I' <==> k == 3 && easting == 900000.0 && SetNumber(zone) % 3 == 1
      {
        if 2 <= k < 5 {
          assert t[k] == LetterChar(letters[k - 2]);
        }
      }
    }
  }

  /**
   * Whenever UTM_To_MGRS writes a reference, it is 5 + 2 * precision
   * characters long and starts with the zone it was written in: 32 after the
   * zone 31 re-projection, the given zone otherwise. It never holds an O,
   * and an I only as the column letter; without re-projection, exactly at
   * the 900 km edge of a set 1 or 4 zone.
   */
  lemma UtmTextZoneAndLetters(zone: int, lon: real, lat: real, easting: real, northing: real, precision: int,
                              ell: Ellipsoid, utm: UtmProjection)
    requires UtmInputs(zone, easting, northing, precision) && ProjectsIntoGrid(utm)
    ensures var r := UtmToMgrsResult(zone, lon, lat, easting, northing, precision, ell, utm);
      r.text.Some? ==>
        var t := r.text.value;
        && |t| == 5 + 2 * precision
        && AllDigits(t[..2])
        && ValueOf(t[..2]) == (if Zone31Reprojects(zone, lat, lon, easting) then 32 else zone)
        && (forall k :: 0 <= k < |t| ==> t[k] != 'O' && (t[k] == 'I' ==> k == 3))
        && (!Zone31Reprojects(zone, lat, lon, easting) ==>
              forall k :: 0 <= k < |t| ==>
                (t[k] == 'I' <==> k == 3 && easting == 900000.0 && SetNumber(zone) % 3 == 1))
  {
    if Zone31Reprojects(zone, lat, lon, easting) {
      var o := utm(UtmParams(ell.a, ell.f, 32), lat, lon);
      if o.errors == {} {
        assert o.zone == 32;
        UtmLetteringText(o.zone, lat, o.easting, o.northing, precision, ell.code);
      }
    } else {
      UtmLetteringText(zone, lat, easting, northing, precision, ell.code);
    }
  }

  /** The subtraction loop of UTM_To_MGRS (mgrs.h:334-337). */
  method FoldNorthing(northing: real) returns (gridNorthing: real)
    requires northing >= 0.0
    ensures gridNorthing == FoldedNorthing(northing)
  {
    gridNorthing := northing;
    ghost var folds := 0;
    while gridNorthing >= TwoMil
      invariant 0 <= folds && 0.0 <= gridNorthing == northing - TwoMil * folds as real
      decreases gridNorthing.Floor
    {
      gridNorthing := gridNorthing - TwoMil;
      folds := folds + 1;
    }
    FloorUnique(northing / TwoMil, folds);
  }

  /**
   * The letter steps of UTM_To_MGRS (mgrs.h:332-357): the row by folding the
   * northing, adding the pattern offset and skipping I and O; the column from
   * the easting, nudged at the 31V edge.
   */
  method LettersOf(zone: int, band: int, easting: real, northing: real, code: string, g: GridValues)
    returns (letters: seq<int>, gridEasting: real)
    requires UtmInputs(zone, easting, northing, 0) && IsGridLetter(band)
    requires g == GetGridValues(zone, code)
    ensures letters == UtmLetters(zone, band, easting, northing, code)
    ensures gridEasting == GridEasting(zone, band, easting)
  {
    var gridNorthing := FoldNorthing(northing);
    gridNorthing := gridNorthing + g.patternOffset;
    if gridNorthing >= TwoMil {
      gridNorthing := gridNorthing - TwoMil;
    }
    var row := Trunc(gridNorthing / OneHt);
    if row > LetterH {
      row := row + 1;
    }
    if row > LetterN {
      row := row + 1;
    }
    assert row == UtmRowLetter(northing, g.patternOffset);

    gridEasting := easting;
    if band == LetterV && zone == 31 && gridEasting == 500000.0 {
      gridEasting := gridEasting - 1.0;
    }
    var column := g.low + (Trunc(gridEasting / OneHt) - 1);
    if g.low == LetterJ && column > LetterN {
      column := column + 1;
    }
    assert column == UtmColumnLetter(g.low, gridEasting);
    letters := [band, column, row];
  }

  /**
   * UTM_To_MGRS: the zone 31 re-projection, the equator fix-up, the band,
   * the letters and the text. The hemisphere argument is only ever
   * overwritten by the source.
   */
  method UtmToMgrs(zone: int, hemisphere: char, lon: real, lat: real, easting: real, northing: real,
                   precision: int, mgrs: array<char>, ell: Ellipsoid, utm: UtmProjection)
    returns (errorCode: set<MgrsError>)
    requires UtmInputs(zone, easting, northing, precision) && ProjectsIntoGrid(utm)
    requires 5 + 2 * precision < mgrs.Length
    modifies mgrs
    ensures var r := UtmToMgrsResult(zone, lon, lat, easting, northing, precision, ell, utm);
      errorCode == r.errors && mgrs[..] == Applied(old(mgrs[..]), r.text)
  {
    var z, e, n, la := zone, easting, northing, lat;
    if Zone31Reprojects(z, la, lon, e) {
      var o := utm(UtmParams(ell.a, ell.f, 32), la, lon);
      if o.errors != {} {
        errorCode := FromUtmConversion(o.errors);
        return;
      }
      z, e, n := o.zone, o.easting, o.northing;
    }
    ghost var expected := UtmLettering(z, la, e, n, precision, ell.code);
    assert UtmToMgrsResult(zone, lon, lat, easting, northing, precision, ell, utm) == expected;
    if la <= 0.0 && n == 10000000.0 {
      la, n := 0.0, 0.0;
    }
    var g := GetGridValues(z, ell.code);
    var band := LatitudeLetter(la);
    if band.None? {
      errorCode := {MgrsLatError};
      return;
    }
    errorCode := {};
    var letters, gridEasting := LettersOf(z, band.value, e, n, ell.code, g);
    assert expected == Conversion({}, Some(MgrsText(z, letters, gridEasting, n, precision)));
    var _ := MakeMgrsString(mgrs, z, letters, gridEasting, n, precision);
  }
}
