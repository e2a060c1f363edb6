/**
 * The polar half of the encoder: Convert_UPS_To_MGRS (mgrs.h:362-462) and
 * the UPS_Constant_Table it reads (mgrs.h:111-125). Eastings and northings
 * are in metres on the UPS plane.
 */
module UpsGrid {
  import opened Numeric
  import opened Letters
  import opened Errors
  import opened Optional
  import opened MgrsFormat

  /** One row of UPS_Constant_Table. */
  datatype UpsConstant = UpsConstant(
    letter: int,
    ltr2Low: int,
    ltr2High: int,
    ltr3High: int,
    falseEasting: real,
    falseNorthing: real)

  /** UPS_Constant_Table (mgrs.h:121-125): rows A and B serve the south, Y and Z the north. */
  const UpsTable: seq<UpsConstant> := [
    UpsConstant(LetterA, LetterJ, LetterZ, LetterZ, 800000.0, 800000.0),
    UpsConstant(LetterB, LetterA, LetterR, LetterZ, 2000000.0, 800000.0),
    UpsConstant(LetterY, LetterJ, LetterZ, LetterP, 800000.0, 1300000.0),
    UpsConstant(LetterZ, LetterA, LetterJ, LetterP, 2000000.0, 1300000.0)]

  /** The largest UPS easting and northing accepted (MAX_EAST_NORTH, mgrs.h:50). */
  const MaxEastNorth: real := 4000000.0

  predicate IsHemisphere(h: char) {
    h == 'N' || h == 'S'
  }

  /** The input checks of Convert_UPS_To_MGRS (mgrs.h:390-397): each sets its own flag. */
  function UpsInputErrors(hemisphere: char, easting: real, northing: real, precision: int): (r: set<MgrsError>)
    ensures MgrsHemisphereError in r <==> !IsHemisphere(hemisphere)
    ensures MgrsEastingError in r <==> !(0.0 <= easting <= MaxEastNorth)
    ensures MgrsNorthingError in r <==> !(0.0 <= northing <= MaxEastNorth)
    ensures MgrsPrecisionError in r <==> !(0 <= precision <= 5)
    ensures r <= {MgrsHemisphereError, MgrsEastingError, MgrsNorthingError, MgrsPrecisionError}
  {
    FlagIf(!IsHemisphere(hemisphere), MgrsHemisphereError)
    + FlagIf(easting < 0.0 || easting > MaxEastNorth, MgrsEastingError)
    + FlagIf(northing < 0.0 || northing > MaxEastNorth, MgrsNorthingError)
    + FlagIf(precision < 0 || precision > 5, MgrsPrecisionError)
  }

  /** All four input flags can be raised by one call. */
  lemma UpsInputErrorsTogether()
    ensures UpsInputErrors('E', -1.0, 5000000.0, 6)
      == {MgrsHemisphereError, MgrsEastingError, MgrsNorthingError, MgrsPrecisionError}
  {
  }

  /** The first letter (mgrs.h:400-422): Y or Z in the north, A or B in the south, the later one from 2000 km east on. */
  function UpsFirstLetter(hemisphere: char, easting: real): (l: int)
    ensures hemisphere == 'N' ==> (l == LetterZ <==> easting >= TwoMil) && (l == LetterY <==> easting < TwoMil)
    ensures hemisphere != 'N' ==> (l == LetterB <==> easting >= TwoMil) && (l == LetterA <==> easting < TwoMil)
  {
    if hemisphere == 'N' then (if easting >= TwoMil then LetterZ else LetterY)
    else (if easting >= TwoMil then LetterB else LetterA)
  }

  /** The table index the source computes: `letters[0] - 22` in the north, `letters[0]` in the south. */
  function UpsTableIndex(hemisphere: char, first: int): (i: int)
    ensures hemisphere == 'N' && (first == LetterY || first == LetterZ) ==>
      0 <= i < |UpsTable| && UpsTable[i].letter == first
    ensures hemisphere != 'N' && (first == LetterA || first == LetterB) ==>
      0 <= i < |UpsTable| && UpsTable[i].letter == first
  {
    if hemisphere == 'N' then first - 22 else first
  }

  /** The index the source computes picks the table row whose letter is the first letter. */
  function UpsTableRow(hemisphere: char, easting: real): (c: UpsConstant)
    ensures c.letter == UpsFirstLetter(hemisphere, easting)
    ensures c in UpsTable
  {
    UpsTable[UpsTableIndex(hemisphere, UpsFirstLetter(hemisphere, easting))]
  }

  /**
   * The row index before the I/O skip (mgrs.h:425-427). Over the northings
   * the checks accept it ranges from -13 to 32, well beyond the 25 rows
   * that the alphabet table can name.
   */
  function UpsRowIndex(hemisphere: char, easting: real, northing: real): (k: int)
    ensures 0.0 <= northing <= MaxEastNorth ==> -13 <= k <= 32
  {
    Trunc((northing - UpsTableRow(hemisphere, easting).falseNorthing) / OneHt)
  }

  /**
   * The column offset from the false easting (mgrs.h:435-437): -8 to 11 on
   * the western side, 0 to 20 on the eastern side, 20 only at 4000 km.
   */
  function UpsColumnIndex(hemisphere: char, easting: real): (c: int)
    ensures 0.0 <= easting < TwoMil ==> -8 <= c <= 11
    ensures TwoMil <= easting <= MaxEastNorth ==> 0 <= c <= 20 && (c == 20 <==> easting == MaxEastNorth)
  {
    Trunc((easting - UpsTableRow(hemisphere, easting).falseEasting) / OneHt)
  }

  /** The skips west of 2000 km (mgrs.h:439-445): past L add three, then past U add two. */
  function WestCascade(l: int): (r: int)
    ensures l <= r <= l + 5
    ensures l <= LetterL ==> r == l
  {
    var l1 := if l > LetterL then l + 3 else l;
    if l1 > LetterU then l1 + 2 else l1
  }

  /** The skips from 2000 km east on (mgrs.h:447-456): past C add two, past H one, past L three. */
  function EastCascade(l: int): (r: int)
    ensures l <= r <= l + 6
    ensures l <= LetterC ==> r == l
  {
    var l1 := if l > LetterC then l + 2 else l;
    var l2 := if l1 > LetterH then l1 + 1 else l1;
    if l2 > LetterL then l2 + 3 else l2
  }

  /** The twelve column letters west of 2000 km. */
  const WestColumns: seq<int> :=
    [LetterJ, LetterK, LetterL, LetterP, LetterQ, LetterR, LetterS, LetterT, LetterU, LetterX, LetterY, LetterZ]

  /** The twenty column letters east of 2000 km. */
  const EastColumns: seq<int> :=
    [LetterA, LetterB, LetterC, LetterF, LetterG, LetterH, LetterJ, LetterK, LetterL, LetterP,
     LetterQ, LetterR, LetterS, LetterT, LetterU, LetterV, LetterW, LetterX, LetterY, LetterZ]

  /**
   * West of 2000 km the c-th column from J is the c-th of J K L P Q R S T U
   * X Y Z: each threshold is tested on the already shifted letter, so the
   * cascade never lands on I, M, N, O, V or W.
   */
  lemma {:induction false} WestCascadeColumns(c: int)
    requires 0 <= c < |WestColumns|
    ensures WestCascade(LetterJ + c) == WestColumns[c]
    ensures var l := WestCascade(LetterJ + c);
      IsGridLetter(l) && l != LetterM && l != LetterN && l != LetterV && l != LetterW
  {
    if c < 3 {
    } else if c < 9 {
    } else {
    }
  }

  /**
   * From 2000 km east on the c-th column from A is the c-th of A B C F G H
   * J K L P .. Z: the cascade never lands on D, E, I, M, N or O.
   */
  lemma {:induction false} EastCascadeColumns(c: int)
    requires 0 <= c < |EastColumns|
    ensures EastCascade(LetterA + c) == EastColumns[c]
    ensures var l := EastCascade(LetterA + c);
      IsGridLetter(l) && l != LetterD && l != LetterE && l != LetterM && l != LetterN
  {
    if c < 3 {
    } else if c < 6 {
    } else if c < 9 {
    } else {
    }
  }

  /** Both column alphabets hold grid letters only. */
  lemma WestEastColumnsAreGridLetters()
    ensures forall k :: 0 <= k < |WestColumns| ==> IsGridLetter(WestColumns[k])
    ensures forall k :: 0 <= k < |EastColumns| ==> IsGridLetter(EastColumns[k])
  {
  }

  /** The second letter (mgrs.h:435-457). */
  function UpsColumnLetter(hemisphere: char, easting: real): int {
    var l := UpsTableRow(hemisphere, easting).ltr2Low + UpsColumnIndex(hemisphere, easting);
    if easting < TwoMil then WestCascade(l) else EastCascade(l)
  }

  /**
   * Up to 4000 km of easting the column index stays inside the alphabet
   * table and is never O. It is I exactly in the column just west of the
   * false easting on the western side, and the table's terminating NUL
   * exactly at 4000 km; otherwise, with a non-negative offset, it is the
   * matching entry of the western or eastern column alphabet.
   */
  lemma UpsColumnLetterRange(hemisphere: char, easting: real)
    requires IsHemisphere(hemisphere) && 0.0 <= easting <= MaxEastNorth
    ensures var l := UpsColumnLetter(hemisphere, easting);
      && IsAlphabetIndex(l) && l != LetterO
      && (l == AlphabetEnd <==> easting == MaxEastNorth)
      && (l == LetterI <==> easting < TwoMil && UpsColumnIndex(hemisphere, easting) == -1)
    ensures var c := UpsColumnIndex(hemisphere, easting);
      c >= 0 && easting < MaxEastNorth ==>
        UpsColumnLetter(hemisphere, easting) == (if easting < TwoMil then WestColumns[c] else EastColumns[c])
  {
    var c := UpsColumnIndex(hemisphere, easting);
    if easting < TwoMil {
      assert -8 <= c <= 11;
      if c >= 0 {
        WestCascadeColumns(c);
      }
    } else {
      assert 0 <= c <= 20 && (c == 20 <==> easting == MaxEastNorth);
      if c < 20 {
        EastCascadeColumns(c);
      }
    }
  }

  /**
   * Where Convert_UPS_To_MGRS is defined: the row index it computes reads
   * inside the alphabet table. The input checks alone do not ensure this:
   * northings far from the false northing give row indices below 0, a read
   * before the table, or above 24, a read past its terminating NUL.
   */
  predicate UpsInDomain(hemisphere: char, easting: real, northing: real) {
    0 <= UpsRowIndex(hemisphere, easting, northing) <= 24
  }

  /**
   * The three letters of a UPS reference: the quadrant letter, the column
   * and the row. Row index 24 and an easting of exactly 4000 km read the
   * alphabet's NUL; the column is I just west of the western false easting.
   */
  function UpsLetters(hemisphere: char, easting: real, northing: real): (letters: seq<int>)
    requires IsHemisphere(hemisphere) && 0.0 <= easting <= MaxEastNorth && UpsInDomain(hemisphere, easting, northing)
    ensures |letters| == 3 && forall k :: 0 <= k < 3 ==> IsAlphabetIndex(letters[k])
    ensures letters[0] == UpsFirstLetter(hemisphere, easting) && IsGridLetter(letters[0])
    ensures letters[1] != LetterO && letters[2] != LetterI && letters[2] != LetterO
    ensures letters[1] == LetterI <==> easting < TwoMil && UpsColumnIndex(hemisphere, easting) == -1
    ensures letters[1] == AlphabetEnd <==> easting == MaxEastNorth
    ensures UpsColumnIndex(hemisphere, easting) >= 0 && easting < MaxEastNorth ==> IsGridLetter(letters[1])
    ensures IsGridLetter(letters[2]) <==> UpsRowIndex(hemisphere, easting, northing) <= 23
  {
    WestEastColumnsAreGridLetters();
    UpsColumnLetterRange(hemisphere, easting);
    [UpsFirstLetter(hemisphere, easting), UpsColumnLetter(hemisphere, easting), SkipIO(UpsRowIndex(hemisphere, easting, northing))]
  }

  /** What Convert_UPS_To_MGRS returns and writes. */
  function UpsToMgrsResult(hemisphere: char, easting: real, northing: real, precision: int): (r: Conversion)
    requires UpsInputErrors(hemisphere, easting, northing, precision) == {} ==> UpsInDomain(hemisphere, easting, northing)
    ensures r.errors == UpsInputErrors(hemisphere, easting, northing, precision)
    ensures r.text.Some? <==> r.errors == {}
    ensures r.text.Some? ==> |r.text.value| == 3 + 2 * precision
  {
    var errors := UpsInputErrors(hemisphere, easting, northing, precision);
    if errors != {} then Conversion(errors, None)
    else Conversion({}, Some(MgrsText(0, UpsLetters(hemisphere, easting, northing), easting, northing, precision)))
  }

  /**
   * A UPS reference carries no zone: it starts with its three letters, the
   * first one naming the hemisphere and the side of the pole, and its digit
   * groups encode the position inside the 100 km square.
   */
  lemma UpsTextFields(hemisphere: char, easting: real, northing: real, precision: int)
    requires UpsInputErrors(hemisphere, easting, northing, precision) == {}
    requires UpsInDomain(hemisphere, easting, northing)
    ensures var t := UpsToMgrsResult(hemisphere, easting, northing, precision).text.value;
      && t[0] == LetterChar(UpsFirstLetter(hemisphere, easting))
      && (hemisphere == 'N' ==> t[0] == 'Y' || t[0] == 'Z')
      && (hemisphere == 'S' ==> t[0] == 'A' || t[0] == 'B')
      && ValueOf(t[3..3 + precision]) == DigitGroup(easting, precision)
      && ValueOf(t[3 + precision..]) == DigitGroup(northing, precision)
  {
    MgrsTextFields(0, UpsLetters(hemisphere, easting, northing), easting, northing, precision);
  }

  /**
   * Off the grid's columns the input checks still let letters through: in the
   * north an easting of 650 km gives the column letter I.
   */
  lemma UpsColumnCanBeI()
    ensures UpsInputErrors('N', 650000.0, 2000000.0, 5) == {}
    ensures UpsLetters('N', 650000.0, 2000000.0)[1] == LetterI
  {
    assert UpsColumnIndex('N', 650000.0) == -1;
  }

  /**
   * A UPS reference never holds an O, and it holds an I only as its column
   * letter, exactly in the column just west of the western false easting.
   */
  lemma UpsTextIOnlyAsColumn(hemisphere: char, easting: real, northing: real, precision: int)
    requires UpsInputErrors(hemisphere, easting, northing, precision) == {}
    requires UpsInDomain(hemisphere, easting, northing)
    ensures var t := UpsToMgrsResult(hemisphere, easting, northing, precision).text.value;
      forall k :: 0 <= k < |t| ==>
        && t[k] != 'O'
        && (t[k] == 'I' <==> k == 1 && easting < TwoMil && UpsColumnIndex(hemisphere, easting) == -1)
  {
    var letters := UpsLetters(hemisphere, easting, northing);
    var t := MgrsText(0, letters, easting, northing, precision);
    MgrsTextFields(0, letters, easting, northing, precision);
    MgrsTextHasNoIO(0, letters, easting, northing, precision);
    forall k | 0 <= k < |t|
      ensures t[k] != 'O'
      ensures t[k] == 'I' <==> k == 1 && easting < TwoMil && UpsColumnIndex(hemisphere, easting) == -1
    {
      if k < 3 {
        assert t[k] == LetterChar(letters[k]);
      }
    }
  }

  /**
   * Two inputs the checks accept whose letters reach the alphabet's
   * terminating NUL, so that the C string ends early: in the north an
   * easting of exactly 4000 km leaves only "Z", and a northing 2400 km past
   * the false northing of the Z quadrant leaves only "ZA".
   */
  lemma UpsEdgesReachNul()
    ensures UpsInputErrors('N', 4000000.0, 2000000.0, 5) == {}
    ensures var t := UpsToMgrsResult('N', 4000000.0, 2000000.0, 5).text.value;
      t[0] == 'Z' && t[1] == '\0'
    ensures UpsInputErrors('N', 2000000.0, 3700000.0, 5) == {}
    ensures var t := UpsToMgrsResult('N', 2000000.0, 3700000.0, 5).text.value;
      t[0] == 'Z' && t[1] == 'A' && t[2] == '\0'
  {
    assert UpsRowIndex('N', 4000000.0, 2000000.0) == 7;
    MgrsTextFields(0, UpsLetters('N', 4000000.0, 2000000.0), 4000000.0, 2000000.0, 5);
    assert UpsColumnIndex('N', 2000000.0) == 0;
    assert UpsRowIndex('N', 2000000.0, 3700000.0) == 24;
    MgrsTextFields(0, UpsLetters('N', 2000000.0, 3700000.0), 2000000.0, 3700000.0, 5);
  }

  /** The letter steps of Convert_UPS_To_MGRS (mgrs.h:398-457): table row, row letter, column cascade. */
  method UpsLettersOf(hemisphere: char, easting: real, northing: real) returns (letters: seq<int>)
    requires IsHemisphere(hemisphere) && 0.0 <= easting <= MaxEastNorth && UpsInDomain(hemisphere, easting, northing)
    ensures letters == UpsLetters(hemisphere, easting, northing)
  {
    var first: int;
    var row: UpsConstant;
    if hemisphere == 'N' {
      first := if easting >= TwoMil then LetterZ else LetterY;
      row := UpsTable[first - 22];
    } else {
      first := if easting >= TwoMil then LetterB else LetterA;
      row := UpsTable[first];
    }
    assert row == UpsTableRow(hemisphere, easting);
    var rowLetter := Trunc((northing - row.falseNorthing) / OneHt);
    if rowLetter > LetterH {
      rowLetter := rowLetter + 1;
    }
    if rowLetter > LetterN {
      rowLetter := rowLetter + 1;
    }
    assert rowLetter == SkipIO(UpsRowIndex(hemisphere, easting, northing));
    var column := row.ltr2Low + Trunc((easting - row.falseEasting) / OneHt);
    if easting < TwoMil {
      if column > LetterL {
        column := column + 3;
      }
      if column > LetterU {
        column := column + 2;
      }
    } else {
      if column > LetterC {
        column := column + 2;
      }
      if column > LetterH {
        column := column + 1;
      }
      if column > LetterL {
        column := column + 3;
      }
    }
    assert column == UpsColumnLetter(hemisphere, easting);
    letters := [first, column, rowLetter];
  }

  /** Convert_UPS_To_MGRS: the four checks, then the table row, the letters and the text. */
  method UpsToMgrs(hemisphere: char, easting: real, northing: real, precision: int, mgrs: array<char>)
    returns (errorCode: set<MgrsError>)
    requires UpsInputErrors(hemisphere, easting, northing, precision) == {} ==> UpsInDomain(hemisphere, easting, northing)
    requires 0 <= precision <= 5 ==> 3 + 2 * precision < mgrs.Length
    modifies mgrs
    ensures var r := UpsToMgrsResult(hemisphere, easting, northing, precision);
      errorCode == r.errors && mgrs[..] == Applied(old(mgrs[..]), r.text)
  {
    errorCode := {};
    if hemisphere != 'N' && hemisphere != 'S' {
      errorCode := errorCode + {MgrsHemisphereError};
    }
    if easting < 0.0 || easting > MaxEastNorth {
      errorCode := errorCode + {MgrsEastingError};
    }
    if northing < 0.0 || northing > MaxEastNorth {
      errorCode := errorCode + {MgrsNorthingError};
    }
    if precision < 0 || precision > 5 {
      errorCode := errorCode + {MgrsPrecisionError};
    }
    assert errorCode == UpsInputErrors(hemisphere, easting, northing, precision);
    if errorCode == {} {
      var letters := UpsLettersOf(hemisphere, easting, northing);
      var _ := MakeMgrsString(mgrs, 0, letters, easting, northing, precision);
    }
  }
}
