/** Python's built-in round() on one argument, taken on exact reals: the nearest integer,
    a tie going to the even neighbour. */
module Rounding {
  /** `k` is the integer nearest `x`, and when `x` lies halfway between two integers, the
      even one. */
  ghost predicate IsRoundHalfEven(x: real, k: int) {
    && x - 0.5 <= k as real <= x + 0.5
    && ((k as real - x == 0.5 || x - k as real == 0.5) ==> k % 2 == 0)
  }

  function RoundHalfEven(x: real): (k: int)
    ensures IsRoundHalfEven(x, k)
  {
    var f := x.Floor;
    var frac := x - f as real;
    if frac < 0.5 then f
    else if frac > 0.5 then f + 1
    else if f % 2 == 0 then f
    else f + 1
  }

  /** The two conditions of IsRoundHalfEven pin the result down: no other integer meets them. */
  lemma RoundHalfEvenUnique(x: real, k: int)
    requires IsRoundHalfEven(x, k)
    ensures k == RoundHalfEven(x)
  {
  }

  /** Rounding a value in [0, n] gives an integer in [0, n]. */
  lemma RoundWithin(x: real, n: int)
    requires 0.0 <= x <= n as real
    ensures 0 <= RoundHalfEven(x) <= n
  {
  }
}
