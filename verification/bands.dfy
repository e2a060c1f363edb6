/**
 * Latitude bands (mgrs.h:80-109) and the band-letter classifier
 * Get_Latitude_Letter (mgrs.h:239-264). Latitudes are in degrees.
 */
module LatitudeBands {
  import opened Numeric
  import opened Letters
  import opened Optional

  /** One row of Latitude_Band_Table. */
  datatype LatitudeBand = LatitudeBand(
    letter: int,
    minNorthing: real,
    north: real,
    south: real,
    northingOffset: real)

  /** Latitude_Band_Table (mgrs.h:89-109), from C (south) to X (north). */
  const BandTable: seq<LatitudeBand> := [
    LatitudeBand(LetterC, 1100000.0, -72.0, -80.5, 0.0),
    LatitudeBand(LetterD, 2000000.0, -64.0, -72.0, 2000000.0),
    LatitudeBand(LetterE, 2800000.0, -56.0, -64.0, 2000000.0),
    LatitudeBand(LetterF, 3700000.0, -48.0, -56.0, 2000000.0),
    LatitudeBand(LetterG, 4600000.0, -40.0, -48.0, 4000000.0),
    LatitudeBand(LetterH, 5500000.0, -32.0, -40.0, 4000000.0),
    LatitudeBand(LetterJ, 6400000.0, -24.0, -32.0, 6000000.0),
    LatitudeBand(LetterK, 7300000.0, -16.0, -24.0, 6000000.0),
    LatitudeBand(LetterL, 8200000.0, -8.0, -16.0, 8000000.0),
    LatitudeBand(LetterM, 9100000.0, 0.0, -8.0, 8000000.0),
    LatitudeBand(LetterN, 0.0, 8.0, 0.0, 0.0),
    LatitudeBand(LetterP, 800000.0, 16.0, 8.0, 0.0),
    LatitudeBand(LetterQ, 1700000.0, 24.0, 16.0, 0.0),
    LatitudeBand(LetterR, 2600000.0, 32.0, 24.0, 2000000.0),
    LatitudeBand(LetterS, 3500000.0, 40.0, 32.0, 2000000.0),
    LatitudeBand(LetterT, 4400000.0, 48.0, 40.0, 4000000.0),
    LatitudeBand(LetterU, 5300000.0, 56.0, 48.0, 4000000.0),
    LatitudeBand(LetterV, 6200000.0, 64.0, 56.0, 6000000.0),
    LatitudeBand(LetterW, 7000000.0, 72.0, 64.0, 6000000.0),
    LatitudeBand(LetterX, 7900000.0, 84.5, 72.0, 6000000.0)]

  /** The 1e-12 added before truncating the band index (mgrs.h:257). */
  const BandNudge: real := 0.000000000001

  /** Row of a latitude in (-80.5, 72): `(int)((lat + 80) / 8 + 1e-12)`. */
  function BandIndex(lat: real): (i: int)
    requires -80.5 < lat < 72.0
    ensures 0 <= i < |BandTable|
  {
    Trunc((lat + 80.0) / 8.0 + BandNudge)
  }

  /**
   * Get_Latitude_Letter: X for [72, 84.5), the table row for (-80.5, 72),
   * no letter (MGRS_LAT_ERROR) otherwise.
   */
  function LatitudeLetter(lat: real): (r: Option<int>)
    ensures r.Some? <==> -80.5 < lat < 84.5
    ensures r.Some? ==> IsGridLetter(r.value) && LetterC <= r.value <= LetterX
    ensures 72.0 <= lat < 84.5 ==> r == Some(LetterX)
  {
    if 72.0 <= lat < 84.5 then Some(LetterX)
    else if -80.5 < lat < 72.0 then
      BandTableShape();
      Some(BandTable[BandIndex(lat)].letter)
    else None
  }

  /**
   * The table is a contiguous partition of [-80.5, 84.5) ordered by latitude:
   * every band but C and X is 8 degrees tall, and the letters increase.
   */
  lemma BandTableShape()
    ensures |BandTable| == 20
    ensures BandTable[0].south == -80.5 && BandTable[19].north == 84.5
    ensures forall i :: 1 <= i < 20 ==> BandTable[i].south == (8 * i - 80) as real
    ensures forall i :: 0 <= i < 19 ==> BandTable[i].north == BandTable[i + 1].south
    ensures forall i, j :: 0 <= i < j < 20 ==> BandTable[i].letter < BandTable[j].letter
    ensures forall i :: 0 <= i < 20 ==> IsGridLetter(BandTable[i].letter)
    ensures BandTable[0].letter == LetterC && BandTable[19].letter == LetterX
  {
  }

  /** Southern edge of a band as the classifier sees it: the nudge moves inner edges 8e-12 degrees south. */
  function BandLowerEdge(i: int): real
    requires 0 <= i < |BandTable|
  {
    if i == 0 then -80.5 else BandTable[i].south - 8.0 * BandNudge
  }

  /** Northern edge of a band as the classifier sees it. */
  function BandUpperEdge(i: int): real
    requires 0 <= i < |BandTable|
  {
    if i == |BandTable| - 1 then 84.5 else BandTable[i].north - 8.0 * BandNudge
  }

  /**
   * The classifier returns the letter of row i exactly when the latitude lies
   * in that row's band (edges moved south by the nudge).
   */
  lemma LatitudeLetterIsTableRow(lat: real, i: int)
    requires -80.5 < lat < 84.5
    requires 0 <= i < |BandTable|
    ensures LatitudeLetter(lat) == Some(BandTable[i].letter) <==> BandLowerEdge(i) <= lat < BandUpperEdge(i)
  {
    BandTableShape();
    if lat < 72.0 {
      var k := BandIndex(lat);
      assert LatitudeLetter(lat) == Some(BandTable[k].letter);
      assert k == i <==> BandLowerEdge(i) <= lat < BandUpperEdge(i);
    }
  }

  /**
   * The half degree south of -80 still lies in band C: there the index
   * `(lat + 80) / 8` is negative but above -1, and C's truncation toward
   * zero gives row 0 rather than -1.
   */
  lemma SouthernmostBandIsC(lat: real)
    requires -80.5 < lat < -80.0
    ensures LatitudeLetter(lat) == Some(LetterC)
  {
    var x := (lat + 80.0) / 8.0 + BandNudge;
    TruncOfSmallNegative(x);
    assert BandIndex(lat) == 0;
  }

  /** The band letter never decreases as the latitude increases. */
  lemma LatitudeLetterMonotone(lat1: real, lat2: real)
    requires -80.5 < lat1 <= lat2 < 84.5
    ensures LatitudeLetter(lat1).value <= LatitudeLetter(lat2).value
  {
    BandTableShape();
    if lat2 < 72.0 {
      TruncMonotone((lat1 + 80.0) / 8.0 + BandNudge, (lat2 + 80.0) / 8.0 + BandNudge);
    }
  }
}
