/**
 * The MGRS string formatter Make_MGRS_String (mgrs.h:127-173): zone, three
 * letters and two digit groups written into the caller's character buffer.
 * `sprintf`, `pow` and `fmod` are replaced by the definitions below.
 */
module MgrsFormat {
  import opened Numeric
  import opened Letters
  import opened Errors
  import opened Optional

  predicate IsDigitChar(c: char) {
    '0' <= c <= '9'
  }

  predicate AllDigits(s: string) {
    forall k :: 0 <= k < |s| ==> IsDigitChar(s[k])
  }

  function DigitChar(d: int): (c: char)
    requires 0 <= d < 10
    ensures IsDigitChar(c)
  {
    ('0' as int + d) as char
  }

  function DigitValue(c: char): (d: int)
    requires IsDigitChar(c)
    ensures 0 <= d < 10
  {
    c as int - '0' as int
  }

  /** The significant decimal digits of n; none at all for zero. */
  function Decimal(n: nat): (s: string)
    ensures AllDigits(s)
    ensures n > 0 ==> |s| > 0 && s[0] != '0'
  {
    if n < 10 then (if n == 0 then "" else [DigitChar(n)])
    else Decimal(n / 10) + [DigitChar(n % 10)]
  }

  function Zeros(k: nat): (s: string)
    ensures |s| == k && forall i :: 0 <= i < k ==> s[i] == '0'
  {
    if k == 0 then "" else Zeros(k - 1) + "0"
  }

  /**
   * `sprintf("%w.wld", n)` for n >= 0: the digits of n, padded with zeros to
   * at least w digits. Zero at width 0 prints nothing, as in C.
   */
  function ZeroPadded(n: nat, w: nat): (s: string)
    ensures AllDigits(s)
    ensures n < Pow10(w) ==> |s| == w
  {
    DecimalLength(if n < Pow10(w) then n else 0, w);
    var d := Decimal(n);
    if |d| < w then Zeros(w - |d|) + d else d
  }

  /** The number a reader of the string recovers from a digit string. */
  function ValueOf(s: string): nat
    requires AllDigits(s)
  {
    if s == [] then 0 else 10 * ValueOf(s[..|s| - 1]) + DigitValue(s[|s| - 1])
  }

  /** Reading back the digits of n gives n. */
  lemma {:induction false} DecimalRoundTrip(n: nat)
    ensures ValueOf(Decimal(n)) == n
  {
    if n >= 10 {
      DecimalRoundTrip(n / 10);
      var s := Decimal(n);
      assert s[..|s| - 1] == Decimal(n / 10);
    }
  }

  /** A number below 10^w needs at most w digits. */
  lemma {:induction false} DecimalLength(n: nat, w: nat)
    requires n < Pow10(w)
    ensures |Decimal(n)| <= w
  {
    if n >= 10 {
      DecimalLength(n / 10, w - 1);
    }
  }

  /** Leading zeros do not change the value read. */
  lemma {:induction false} LeadingZerosValue(k: nat, s: string)
    requires AllDigits(s)
    ensures AllDigits(Zeros(k) + s)
    ensures ValueOf(Zeros(k) + s) == ValueOf(s)
  {
    var z := Zeros(k) + s;
    if s == [] {
      assert z == Zeros(k);
      if k > 0 {
        assert z[..|z| - 1] == Zeros(k - 1) + [];
        LeadingZerosValue(k - 1, []);
      }
    } else {
      assert z[..|z| - 1] == Zeros(k) + s[..|s| - 1];
      LeadingZerosValue(k, s[..|s| - 1]);
    }
  }

  /** A value below 10^w is printed in exactly w digits, and reading them back gives it. */
  lemma ZeroPaddedRoundTrip(n: nat, w: nat)
    requires n < Pow10(w)
    ensures |ZeroPadded(n, w)| == w
    ensures ValueOf(ZeroPadded(n, w)) == n
  {
    DecimalLength(n, w);
    DecimalRoundTrip(n);
    var d := Decimal(n);
    if |d| < w {
      LeadingZerosValue(w - |d|, d);
    }
  }

  /** `pow(10.0, 5 - precision)` (mgrs.h:161). */
  function Divisor(precision: int): (d: nat)
    requires 0 <= precision <= 5
    ensures d * Pow10(precision) == 100000
  {
    Pow10(5 - precision)
  }

  /**
   * One digit group (mgrs.h:161-171): the offset inside the 100 km square,
   * clamped below 99999.5, divided by the divisor and truncated.
   */
  function DigitGroup(x: real, precision: int): (v: nat)
    requires x >= 0.0 && 0 <= precision <= 5
    ensures v < Pow10(precision)
  {
    var offset := RemHundredKm(x);
    var clamped := if offset >= 99999.5 then 99999.0 else offset;
    var d := Divisor(precision);
    assert clamped < d as real * Pow10(precision) as real;
    Trunc(clamped / d as real)
  }

  /** The clamp never changes the group: it is the truncated offset inside the square. */
  lemma DigitGroupIsTruncatedOffset(x: real, precision: int)
    requires x >= 0.0 && 0 <= precision <= 5
    ensures DigitGroup(x, precision) == (RemHundredKm(x) / Divisor(precision) as real).Floor
  {
    var offset := RemHundredKm(x);
    var d := Divisor(precision);
    if offset >= 99999.5 {
      var q := Pow10(precision) - 1;
      assert (q as real) * (d as real) <= 99999.0;
      assert offset < (q + 1) as real * (d as real);
    }
  }

  /** A value on a 100 km line has all-zero digit groups. */
  lemma DigitGroupOfZero(precision: int)
    requires 0 <= precision <= 5
    ensures DigitGroup(0.0, precision) == 0
  {
    assert RemHundredKm(0.0) == 0.0;
    DigitGroupIsTruncatedOffset(0.0, precision);
  }

  /** Inputs Make_MGRS_String handles: zone 0 (none) or positive, letters in range, values non-negative. */
  predicate FormatInputs(zone: int, letters: seq<int>, easting: real, northing: real, precision: int) {
    && zone >= 0
    && |letters| == 3 && (forall k :: 0 <= k < 3 ==> IsAlphabetIndex(letters[k]))
    && easting >= 0.0 && northing >= 0.0
    && 0 <= precision <= 5
  }

  /** `%2.2ld` of a zone, or nothing when the zone is 0 (the blanks are overwritten, mgrs.h:153-157). */
  function ZoneText(zone: int): (s: string)
    requires zone >= 0
    ensures zone == 0 ==> s == ""
    ensures 1 <= zone <= 99 ==> |s| == 2 && AllDigits(s) && ValueOf(s) == zone
  {
    if zone == 0 then ""
    else if zone <= 99 then (ZeroPaddedRoundTrip(zone, 2); ZeroPadded(zone, 2))
    else ZeroPadded(zone, 2)
  }

  function LetterText(letters: seq<int>): (s: string)
    requires |letters| == 3 && forall k :: 0 <= k < 3 ==> IsAlphabetIndex(letters[k])
    ensures |s| == 3 && forall k :: 0 <= k < 3 ==> s[k] == LetterChar(letters[k])
  {
    [LetterChar(letters[0]), LetterChar(letters[1]), LetterChar(letters[2])]
  }

  /** The text Make_MGRS_String leaves in the buffer, before its terminating NUL. */
  function MgrsText(zone: int, letters: seq<int>, easting: real, northing: real, precision: int): (t: string)
    requires FormatInputs(zone, letters, easting, northing, precision)
    ensures 1 <= zone <= 99 ==> |t| == 5 + 2 * precision
    ensures zone == 0 ==> |t| == 3 + 2 * precision
  {
    ZeroPaddedRoundTrip(DigitGroup(easting, precision), precision);
    ZeroPaddedRoundTrip(DigitGroup(northing, precision), precision);
    ZeroPaddedRoundTrip(if zone <= 99 then zone else 0, 2);
    ZoneText(zone)
      + LetterText(letters)
      + ZeroPadded(DigitGroup(easting, precision), precision)
      + ZeroPadded(DigitGroup(northing, precision), precision)
  }

  /**
   * Decoding the text recovers what was encoded: the zone, the three letters
   * and both digit groups, each group exactly `precision` digits long.
   */
  lemma MgrsTextFields(zone: int, letters: seq<int>, easting: real, northing: real, precision: int)
    requires FormatInputs(zone, letters, easting, northing, precision)
    requires zone <= 99
    ensures var t := MgrsText(zone, letters, easting, northing, precision);
      var o := if zone == 0 then 0 else 2;
      && |t| == o + 3 + 2 * precision
      && AllDigits(t[..o]) && (zone != 0 ==> ValueOf(t[..o]) == zone)
      && (forall k :: 0 <= k < 3 ==> t[o + k] == LetterChar(letters[k]))
      && AllDigits(t[o + 3..o + 3 + precision])
      && ValueOf(t[o + 3..o + 3 + precision]) == DigitGroup(easting, precision)
      && AllDigits(t[o + 3 + precision..])
      && ValueOf(t[o + 3 + precision..]) == DigitGroup(northing, precision)
  {
    var z := ZoneText(zone);
    var l := LetterText(letters);
    var e := ZeroPadded(DigitGroup(easting, precision), precision);
    var n := ZeroPadded(DigitGroup(northing, precision), precision);
    ZeroPaddedRoundTrip(DigitGroup(easting, precision), precision);
    ZeroPaddedRoundTrip(DigitGroup(northing, precision), precision);
    if zone != 0 {
      ZeroPaddedRoundTrip(zone, 2);
    }
    assert MgrsText(zone, letters, easting, northing, precision) == z + l + e + n;
    ConcatSlices(z, l, e, n);
  }

  /**
   * An I or an O in the text can only be one of the three letters: the zone
   * and the digit groups are digits.
   */
  lemma MgrsTextHasNoIO(zone: int, letters: seq<int>, easting: real, northing: real, precision: int)
    requires FormatInputs(zone, letters, easting, northing, precision)
    ensures var t := MgrsText(zone, letters, easting, northing, precision);
      var o := |ZoneText(zone)|;
      forall k :: 0 <= k < |t| && (t[k] == 'I' || t[k] == 'O') ==>
        o <= k < o + 3 && (letters[k - o] == LetterI || letters[k - o] == LetterO)
  {
    var t := MgrsText(zone, letters, easting, northing, precision);
    var z := ZoneText(zone);
    var l := LetterText(letters);
    var e := ZeroPadded(DigitGroup(easting, precision), precision);
    var n := ZeroPadded(DigitGroup(northing, precision), precision);
    assert t == z + l + e + n;
    forall k | 0 <= k < |t| && !(|z| <= k < |z| + 3)
      ensures IsDigitChar(t[k])
    {
      if k < |z| {
        assert t[k] == z[k];
      } else if k < |z| + 3 + |e| {
        assert t[k] == e[k - |z| - 3];
      } else {
        assert t[k] == n[k - |z| - 3 - |e|];
      }
    }
    forall k | |z| <= k < |z| + 3
      ensures t[k] == LetterChar(letters[k - |z|])
    {
      assert t[k] == l[k - |z|];
    }
  }

  /** The four pieces of a concatenation can be sliced back out of it. */
  lemma ConcatSlices(a: string, b: string, c: string, d: string)
    ensures var t := a + b + c + d;
      && t[..|a|] == a
      && (forall k :: 0 <= k < |b| ==> t[|a| + k] == b[k])
      && t[|a| + |b|..|a| + |b| + |c|] == c
      && t[|a| + |b| + |c|..] == d
  {
  }

  /** The buffer after a NUL-terminated write of t at its start. */
  function Written(buf: seq<char>, t: string): (r: seq<char>)
    requires |t| < |buf|
    ensures |r| == |buf| && r[..|t|] == t && r[|t|] == '\0'
  {
    t + ['\0'] + buf[|t| + 1..]
  }

  /**
   * The outcome of an encoder: its error flags and, when it reached
   * Make_MGRS_String, the text it wrote.
   */
  datatype Conversion = Conversion(errors: set<MgrsError>, text: Option<string>)

  /** The caller's buffer after an encoder: the text and its NUL if one was written, else as it was. */
  function Applied(buf: seq<char>, text: Option<string>): (r: seq<char>)
    requires text.Some? ==> |text.value| < |buf|
    ensures |r| == |buf|
    ensures text.None? ==> r == buf
  {
    if text.Some? then Written(buf, text.value) else buf
  }

  /** The buffer after `sprintf(buf + at, "%s", s)`: the characters of s, then a NUL. */
  function Put(buf: seq<char>, at: nat, s: string): (r: seq<char>)
    requires at + |s| < |buf|
    ensures |r| == |buf|
    ensures forall k :: 0 <= k < at ==> r[k] == buf[k]
    ensures forall k :: 0 <= k < |s| ==> r[at + k] == s[k]
    ensures r[at + |s|] == '\0'
    ensures forall k :: at + |s| < k < |buf| ==> r[k] == buf[k]
  {
    buf[..at] + s + ['\0'] + buf[at + |s| + 1..]
  }

  /** Letters at `at`, then two NUL-terminated groups: the buffer holds their concatenation. */
  lemma PutsCompose(m0: seq<char>, m1: seq<char>, head: string, lt: string, es: string, ns: string)
    requires |head + lt + es + ns| < |m0| == |m1|
    requires m1[..|head + lt|] == head + lt && m1[|head + lt|..] == m0[|head + lt|..]
    ensures Put(Put(m1, |head + lt|, es), |head + lt + es|, ns) == Written(m0, head + lt + es + ns)
  {
    var m2 := Put(m1, |head + lt|, es);
    var m3 := Put(m2, |head + lt + es|, ns);
    var t := head + lt + es + ns;
    assert m2[..|head + lt + es|] == head + lt + es;
    forall k | |t| < k < |m0|
      ensures m3[k] == m0[k]
    {
      assert m3[k] == m2[k];
      if k > |head + lt + es| {
        assert m2[k] == m1[k];
      }
    }
    assert m3 == Written(m0, t);
  }

  /** `sprintf(buf + at, "%s", s)`: the characters of s, then a NUL; nothing else changes. */
  method PutString(buf: array<char>, at: nat, s: string)
    requires at + |s| < buf.Length
    modifies buf
    ensures buf[..] == Put(old(buf[..]), at, s)
  {
    forall k | 0 <= k < |s| {
      buf[at + k] := s[k];
    }
    buf[at + |s|] := '\0';
  }

  /** The letter loop of Make_MGRS_String (mgrs.h:159-160): three characters from `at` on. */
  method PutLetters(buf: array<char>, at: nat, letters: seq<int>)
    requires |letters| == 3 && forall k :: 0 <= k < 3 ==> IsAlphabetIndex(letters[k])
    requires at + 3 <= buf.Length
    modifies buf
    ensures buf[..] == old(buf[..])[..at] + LetterText(letters) + old(buf[..])[at + 3..]
  {
    ghost var lt := LetterText(letters);
    var i := at;
    for j := 0 to 3
      invariant i == at + j
      invariant forall k :: 0 <= k < at ==> buf[k] == old(buf[k])
      invariant forall k :: 0 <= k < j ==> buf[at + k] == lt[k]
      invariant forall k :: at + j <= k < buf.Length ==> buf[k] == old(buf[k])
    {
      LetterCharIsAlphabet(letters[j]);
      buf[i] := Alphabet[letters[j]];
      i := i + 1;
    }
    assert buf[..] == old(buf[..])[..at] + lt + old(buf[..])[at + 3..];
  }

  /**
   * One digit group of Make_MGRS_String (mgrs.h:161-166, and 167-171 alike):
   * `fmod`, the clamp, the truncating division and the `sprintf`.
   */
  method PutDigitGroup(buf: array<char>, at: nat, x: real, precision: int) returns (written: nat)
    requires x >= 0.0 && 0 <= precision <= 5
    requires at + precision < buf.Length
    modifies buf
    ensures written == precision
    ensures buf[..] == Put(old(buf[..]), at, ZeroPadded(DigitGroup(x, precision), precision))
  {
    var divisor := Pow10(5 - precision) as real;
    var v := RemHundredKm(x);
    if v >= 99999.5 {
      v := 99999.0;
    }
    var group := Trunc(v / divisor);
    assert group == DigitGroup(x, precision);
    ZeroPaddedRoundTrip(group, precision);
    var text := ZeroPadded(group, precision);
    PutString(buf, at, text);
    written := |text|;
  }

  /** Make_MGRS_String: writes the text and its NUL, touches nothing after them, reports no error. */
  method MakeMgrsString(mgrs: array<char>, zone: int, letters: seq<int>, easting: real, northing: real, precision: int)
    returns (errorCode: set<MgrsError>)
    requires FormatInputs(zone, letters, easting, northing, precision)
    requires |MgrsText(zone, letters, easting, northing, precision)| < mgrs.Length
    modifies mgrs
    ensures errorCode == {}
    ensures mgrs[..] == Written(old(mgrs[..]), MgrsText(zone, letters, easting, northing, precision))
  {
    errorCode := {};
    ghost var head := ZoneText(zone);
    ghost var letterText := LetterText(letters);
    ghost var eastText := ZeroPadded(DigitGroup(easting, precision), precision);
    ghost var northText := ZeroPadded(DigitGroup(northing, precision), precision);
    assert MgrsText(zone, letters, easting, northing, precision) == head + letterText + eastText + northText;
    var i := 0;
    if zone != 0 {
      var z := ZeroPadded(zone, 2);
      PutString(mgrs, 0, z);
      i := |z|;
      forall k | i < k < mgrs.Length
        ensures mgrs[k] == old(mgrs[k])
      {
        assert mgrs[..][k] == old(mgrs[..])[k];
      }
    } else {
      mgrs[0], mgrs[1] := ' ', ' ';
    }
    assert i == |head|;
    assert mgrs[..i] == head;
    PutLetters(mgrs, i, letters);
    i := i + 3;
    ghost var m1 := mgrs[..];
    assert m1[..i] == head + letterText;
    assert m1[i..] == old(mgrs[..])[i..];
    var written := PutDigitGroup(mgrs, i, easting, precision);
    i := i + written;
    assert |eastText| == precision;
    assert i == |head + letterText + eastText|;
    written := PutDigitGroup(mgrs, i, northing, precision);
    PutsCompose(old(mgrs[..]), m1, head, letterText, eastText, northText);
  }
}
