/**
 * Letters are indices 0..25 into the Latin alphabet (LETTER_A .. LETTER_Z in
 * mgrs.h). MGRS never uses I and O, so its letters come from a 24-letter
 * alphabet; the source reaches it by shifting a plain index past I and O.
 * The formatter's table has one more entry, index 26, its terminating NUL,
 * which a few edge inputs do reach.
 */
module Letters {

  const LetterA := 0
  const LetterB := 1
  const LetterC := 2
  const LetterD := 3
  const LetterE := 4
  const LetterF := 5
  const LetterG := 6
  const LetterH := 7
  const LetterI := 8
  const LetterJ := 9
  const LetterK := 10
  const LetterL := 11
  const LetterM := 12
  const LetterN := 13
  const LetterO := 14
  const LetterP := 15
  const LetterQ := 16
  const LetterR := 17
  const LetterS := 18
  const LetterT := 19
  const LetterU := 20
  const LetterV := 21
  const LetterW := 22
  const LetterX := 23
  const LetterY := 24
  const LetterZ := 25

  /**
   * The character table the formatter indexes with a letter: a C string
   * literal, so its 27th entry (index 26) is the terminating NUL.
   */
  const Alphabet: string := "ABCDEFGHIJKLMNOPQRSTUVWXYZ\0"

  /** The index of the alphabet's terminating NUL. */
  const AlphabetEnd := 26

  predicate IsLetter(l: int) {
    0 <= l < 26
  }

  /** An index the formatter can read from its alphabet: a letter or the terminating NUL. */
  predicate IsAlphabetIndex(l: int) {
    0 <= l <= AlphabetEnd
  }

  /** A letter that MGRS may print: anything but I and O. */
  predicate IsGridLetter(l: int) {
    IsLetter(l) && l != LetterI && l != LetterO
  }

  /** The 24 grid letters in alphabetical order: an independent description of the skip rule. */
  const GridAlphabet: seq<int> :=
    [LetterA, LetterB, LetterC, LetterD, LetterE, LetterF, LetterG, LetterH,
     LetterJ, LetterK, LetterL, LetterM, LetterN,
     LetterP, LetterQ, LetterR, LetterS, LetterT, LetterU, LetterV, LetterW, LetterX, LetterY, LetterZ]

  /**
   * The two-step skip used for row letters in both UTM and UPS
   * (mgrs.h:342-347 and 427-433): past H add one, then past N add one more.
   */
  function SkipIO(k: int): (r: int)
    ensures 0 <= k <= 23 ==> IsGridLetter(r) && k <= r <= k + 2
    ensures k == 24 ==> r == AlphabetEnd
    ensures k < LetterI ==> r == k
  {
    var k1 := if k > LetterH then k + 1 else k;
    if k1 > LetterN then k1 + 1 else k1
  }

  /** Distinct row indices give distinct letters, in the same order. */
  lemma SkipIOStrictlyIncreasing(j: int, k: int)
    requires j < k
    ensures SkipIO(j) < SkipIO(k)
  {
  }

  /** The k-th index is mapped to the k-th letter of the 24-letter grid alphabet. */
  lemma {:induction false} SkipIOIsGridAlphabet(k: int)
    requires 0 <= k < |GridAlphabet|
    ensures SkipIO(k) == GridAlphabet[k]
  {
    if k < 8 {
    } else if k < 13 {
    } else {
    }
  }

  /** The grid alphabet holds exactly the grid letters. */
  lemma GridAlphabetComplete(l: int)
    ensures IsGridLetter(l) <==> l in GridAlphabet
  {
    if IsGridLetter(l) {
      var k := if l < LetterI then l else if l < LetterO then l - 1 else l - 2;
      SkipIOIsGridAlphabet(k);
    }
  }

  /** The printed character of a letter: `alphabet[l]` in Make_MGRS_String (mgrs.h:150, 160). */
  function LetterChar(l: int): (c: char)
    requires IsAlphabetIndex(l)
    ensures IsLetter(l) ==> 'A' <= c <= 'Z'
    ensures (c == '\0') <==> l == AlphabetEnd
    ensures (c == 'I') <==> l == LetterI
    ensures (c == 'O') <==> l == LetterO
  {
    if l == AlphabetEnd then '\0' else ('A' as int + l) as char
  }

  /** The character is the one the source's alphabet table holds at that index. */
  lemma LetterCharIsAlphabet(l: int)
    requires IsAlphabetIndex(l)
    ensures LetterChar(l) == Alphabet[l]
  {
    assert forall k :: 0 <= k < AlphabetEnd ==> Alphabet[k] as int == 'A' as int + k;
  }
}
