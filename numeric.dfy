/**
 * Exact arithmetic standing in for the Python floats of the scripts:
 * `abs()` and `int()`, which truncates toward zero.
 */
module Numeric {

  function Abs(x: real): (r: real)
    ensures r >= 0.0 && (r == x || r == -x)
  {
    if x < 0.0 then -x else x
  }

  /** Python's `int(x)` on a float: the integer part, rounding toward zero. */
  function Trunc(x: real): (r: int)
    ensures 0.0 <= x ==> r as real <= x < r as real + 1.0
    ensures x <= 0.0 ==> r as real - 1.0 < x <= r as real
  {
    if x >= 0.0 then x.Floor else -((-x).Floor)
  }

  /** Truncation is odd: it commutes with negation. */
  lemma TruncOdd(x: real)
    ensures Trunc(-x) == -Trunc(x)
  {
  }

  /** `int()` leaves integers alone, so truncating twice is truncating once. */
  lemma TruncOfInt(n: int)
    ensures Trunc(n as real) == n
  {
  }
}
