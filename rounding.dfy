/**
 * Python's built-in `round(x, 2)`, applied to the exact value of `x`.
 *
 * A rounded quantity is represented in integer hundredths, so `round(19.53125, 2)`
 * (which Python prints as 19.53) is the integer 1953. Python rounds to the nearest
 * multiple of 0.01 and, when two multiples are equally close, to the even one.
 */
module Rounding {

  /** Rounds `y` to the nearest integer, breaking ties towards the even integer. */
  function RoundHalfEven(y: real): (n: int)
    ensures -0.5 <= y - n as real <= 0.5
    ensures (y - n as real == 0.5 || n as real - y == 0.5) ==> n % 2 == 0
  {
    var f := y.Floor;
    var frac := y - f as real;
    if frac < 0.5 then f
    else if frac > 0.5 then f + 1
    else if f % 2 == 0 then f else f + 1
  }

  /** `round(x, 2)`, expressed in hundredths: the nearest multiple of 0.01, ties to even. */
  function RoundHundredths(x: real): (h: int)
    ensures -0.005 <= x - h as real / 100.0 <= 0.005
    ensures (x * 100.0 - h as real == 0.5 || h as real - x * 100.0 == 0.5) ==> h % 2 == 0
  {
    RoundHalfEven(x * 100.0)
  }

  /** The two properties of RoundHalfEven single out one integer: rounding is well defined. */
  lemma RoundHalfEvenUnique(y: real, m: int)
    requires -0.5 <= y - m as real <= 0.5
    requires (y - m as real == 0.5 || m as real - y == 0.5) ==> m % 2 == 0
    ensures m == RoundHalfEven(y)
  {
  }

  /** Rounding never reverses the order of two values. */
  lemma RoundHundredthsMonotone(x: real, y: real)
    requires x <= y
    ensures RoundHundredths(x) <= RoundHundredths(y)
  {
  }
}
