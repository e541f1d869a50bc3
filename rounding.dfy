/** `Math.Round(x, 0, MidpointRounding.AwayFromZero)` on a C# `decimal`.
    A decimal is exact base-10, so it is modelled as a `real`. */
module Rounding {

  /** Nearest integer to `x`, ties going away from zero. */
  function RoundHalfAway(x: real): (n: int)
    ensures x - 0.5 <= n as real <= x + 0.5
    ensures n as real == x + 0.5 ==> x > 0.0
    ensures n as real == x - 0.5 ==> x < 0.0
    ensures x >= 0.0 ==> n >= 0
    ensures x <= 0.0 ==> n <= 0
  {
    if x >= 0.0 then (x + 0.5).Floor else -((-x + 0.5).Floor)
  }

  /** Rounding an integer gives it back. */
  lemma RoundHalfAwayOfInteger(n: int)
    ensures RoundHalfAway(n as real) == n
  {
  }

  /** Rounding commutes with negation: midpoints go the same distance from zero on both sides. */
  lemma RoundHalfAwayIsOdd(x: real)
    ensures RoundHalfAway(-x) == -RoundHalfAway(x)
  {
  }

  /** The result is the unique integer within half a unit of `x` that breaks ties away from zero. */
  lemma RoundHalfAwayUnique(x: real, m: int)
    requires x - 0.5 <= m as real <= x + 0.5
    requires m as real == x + 0.5 ==> x > 0.0
    requires m as real == x - 0.5 ==> x < 0.0
    ensures m == RoundHalfAway(x)
  {
  }
}
