/**
 * Kotlin's `Double.toInt()` and the fractional-part helpers of Wireframe3D's
 * companion object, over exact reals.
 */
module Numbers {

  const INT_MAX: int := 0x7fff_ffff
  const INT_MIN: int := -0x8000_0000

  /** `Math.PI`, the double nearest to pi. */
  const PI: real := 3.141592653589793

  /**
   * Division with remainder by 2^8, 2^16 and 2^24 is unique: a quotient and a
   * remainder in range are the ones `/` and `%` give.
   */
  lemma Split8(x: int, q: int, m: int)
    requires 0 <= m < 0x100 && x == q * 0x100 + m
    ensures x / 0x100 == q && x % 0x100 == m
  {
  }

  lemma Split16(x: int, q: int, m: int)
    requires 0 <= m < 0x1_0000 && x == q * 0x1_0000 + m
    ensures x / 0x1_0000 == q && x % 0x1_0000 == m
  {
  }

  lemma Split24(x: int, q: int, m: int)
    requires 0 <= m < 0x100_0000 && x == q * 0x100_0000 + m
    ensures x / 0x100_0000 == q && x % 0x100_0000 == m
  {
  }

  /** Truncation toward zero, saturating at the bounds of a 32-bit Int. */
  function ToInt(x: real): (r: int)
    ensures INT_MIN <= r <= INT_MAX
  {
    if x >= INT_MAX as real then INT_MAX
    else if x <= INT_MIN as real then INT_MIN
    else if x >= 0.0 then x.Floor
    else -((-x).Floor)
  }

  /** `fPart`: the distance from x to its truncation, which is never negative. */
  function FPart(x: real): real {
    if x < 0.0 then ToInt(x) as real - x else x - ToInt(x) as real
  }

  /** `rfPart`. */
  function RfPart(x: real): real {
    1.0 - FPart(x)
  }

  /** Within the Int range, ToInt truncates: it keeps the sign and drops less than one. */
  lemma ToIntTruncates(x: real)
    requires INT_MIN as real < x < INT_MAX as real
    ensures 0.0 <= x ==> 0 <= ToInt(x) && ToInt(x) as real <= x < ToInt(x) as real + 1.0
    ensures x < 0.0 ==> ToInt(x) <= 0 && ToInt(x) as real - 1.0 < x <= ToInt(x) as real
  {
  }

  /** Out of range, ToInt saturates. */
  lemma ToIntSaturates(x: real)
    ensures x >= INT_MAX as real ==> ToInt(x) == INT_MAX
    ensures x <= INT_MIN as real ==> ToInt(x) == INT_MIN
  {
  }

  /** ToInt is the identity on the Int range's whole numbers. */
  lemma ToIntOfWhole(n: int)
    requires INT_MIN <= n <= INT_MAX
    ensures ToInt(n as real) == n
  {
  }

  /** ToInt never decreases as its argument grows. */
  lemma ToIntMonotonic(x: real, y: real)
    requires x <= y
    ensures ToInt(x) <= ToInt(y)
  {
  }

  /** Within the Int range both fractional parts lie in the unit interval and sum to one. */
  lemma FractionalParts(x: real)
    requires INT_MIN as real < x < INT_MAX as real
    ensures 0.0 <= FPart(x) < 1.0
    ensures 0.0 < RfPart(x) <= 1.0
    ensures FPart(x) + RfPart(x) == 1.0
  {
    ToIntTruncates(x);
  }

  /** A value in (-1, n + 1) with n a whole number truncates into [0, n]. */
  lemma TruncatesInto(x: real, n: int)
    requires 0 <= n <= INT_MAX - 1
    requires -1.0 < x < n as real + 1.0
    ensures 0 <= ToInt(x) <= n
  {
    ToIntTruncates(x);
  }

  /** Rounding by `(x + 0.5).toInt()` moves a nonnegative x by at most one half. */
  lemma RoundHalfUp(x: real)
    requires 0.0 <= x < INT_MAX as real - 1.0
    ensures 0 <= ToInt(x + 0.5)
    ensures x - 0.5 < ToInt(x + 0.5) as real <= x + 0.5
  {
    ToIntTruncates(x + 0.5);
  }

  /** A value whose truncation lies strictly inside the Int range is itself inside it. */
  lemma ToIntUnsaturated(x: real)
    requires INT_MIN < ToInt(x) < INT_MAX
    ensures INT_MIN as real < x < INT_MAX as real
  {
  }

  /** The product of two nonnegative integers is nonnegative. */
  lemma MulNonneg(a: int, b: int)
    requires 0 <= a && 0 <= b
    ensures 0 <= a * b
  {
  }

  /** Euclidean division of a nonnegative number leaves a remainder in [0, b). */
  lemma DivBounds(a: int, b: int)
    requires 0 <= a && 0 < b
    ensures (a / b) * b <= a < (a / b) * b + b
  {
    var q, r := a / b, a % b;
    assert a == q * b + r;
  }
}
