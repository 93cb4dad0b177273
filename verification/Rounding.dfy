/** Decimal rounding to the smallest unit. Money is counted in piastres throughout, so a rounded amount is an
    integer and an amount that still has to be rounded is a real number of piastres. */
module Rounding {

  /** The nearest integer; of two that are equally near, the one further from zero. */
  ghost predicate Nearest(n: int, x: real) {
    -0.5 <= x - n as real <= 0.5 && (x >= 0.0 ==> x - (n as real) < 0.5) && (x < 0.0 ==> x - (n as real) > -0.5)
  }

  /** Half-up rounding of magnitudes: a tie goes away from zero. */
  function RoundHalfUp(x: real): (n: int)
    ensures Nearest(n, x)
    ensures x >= 0.0 ==> n >= 0
    ensures x < 0.0 ==> n <= 0
  {
    if x >= 0.0 then (x + 0.5).Floor else -((-x + 0.5).Floor)
  }

  /** The value a non-negative amount rounds to is the one it lies within half of, counting its lower end. */
  lemma RoundsTo(x: real, n: int)
    requires x >= 0.0 && n as real - 0.5 <= x < n as real + 0.5
    ensures RoundHalfUp(x) == n
  {
  }

  lemma RoundOfInteger(n: int)
    ensures RoundHalfUp(n as real) == n
  {
  }

  lemma RoundMonotone(x: real, y: real)
    requires x <= y
    ensures RoundHalfUp(x) <= RoundHalfUp(y)
  {
  }

  /** Subtracting whole piastres commutes with rounding as long as the difference does not become negative. */
  lemma RoundOfDifference(x: real, d: int)
    requires x >= 0.0 && d >= 0 && x >= d as real
    ensures RoundHalfUp(x - d as real) == RoundHalfUp(x) - d
  {
  }

  lemma {:induction false} ProductNonNegative(a: real, b: real)
    requires a >= 0.0 && b >= 0.0
    ensures a * b >= 0.0
  {
  }
}
