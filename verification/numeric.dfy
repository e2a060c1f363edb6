/** Numeric helpers standing in for the C library and for C's casts. */
module Numeric {

  /** One hundred kilometres: the side of an MGRS 100 km square (ONEHT). */
  const OneHt: real := 100000.0
  /** Two thousand kilometres: the period of the UTM row letters (TWOMIL). */
  const TwoMil: real := 2000000.0

  /** C's `(long)` conversion of a double: truncation toward zero. */
  function Trunc(x: real): (r: int)
    ensures x >= 0.0 ==> r >= 0 && r as real <= x < r as real + 1.0
    ensures x <= 0.0 ==> r <= 0 && r as real - 1.0 < x <= r as real
  {
    if x >= 0.0 then x.Floor else -((-x).Floor)
  }

  /** Truncation agrees with the floor on non-negative values and on values above -1. */
  lemma TruncOfSmallNegative(x: real)
    requires -1.0 < x
    ensures Trunc(x) == if x < 0.0 then 0 else x.Floor
  {
  }

  /** Truncation never decreases when its argument grows. */
  lemma TruncMonotone(x: real, y: real)
    requires x <= y
    ensures Trunc(x) <= Trunc(y)
  {
  }

  /** The floor is the one integer k with k <= x < k + 1. */
  lemma FloorUnique(x: real, k: int)
    requires k as real <= x < k as real + 1.0
    ensures x.Floor == k
  {
  }

  /** Adding a whole number moves the floor by that number. */
  lemma FloorShift(x: real, m: int)
    ensures (x + m as real).Floor == x.Floor + m
  {
    FloorUnique(x + m as real, x.Floor + m);
  }

  /** `pow(10.0, n)` for a natural exponent. */
  function Pow10(n: nat): (r: nat)
    ensures r >= 1
  {
    if n == 0 then 1 else 10 * Pow10(n - 1)
  }

  /** `fmod(x, 100000.0)`: the remainder of a truncating division, signed like `x`. */
  function RemHundredKm(x: real): (r: real)
    ensures x >= 0.0 ==> 0.0 <= r < OneHt
    ensures x >= 0.0 ==> (x - r) / OneHt == ((x / OneHt).Floor) as real
  {
    x - OneHt * Trunc(x / OneHt) as real
  }
}
