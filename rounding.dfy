/**
 Python's built-in `round` applied to a number with no digit count: the
 nearest integer, with a value exactly halfway between two integers going to
 the even one ("banker's rounding"). Floats are modelled as exact reals.
 */
module Rounding {

  function Abs(x: real): (r: real)
    ensures r >= 0.0 && (r == x || r == -x)
  {
    if x < 0.0 then -x else x
  }

  /** Round to the nearest integer, ties to even. */
  function RoundHalfEven(x: real): (n: int)
    ensures Abs(n as real - x) <= 0.5
    ensures Abs(n as real - x) == 0.5 ==> n % 2 == 0
  {
    var f := x.Floor;
    var frac := x - f as real;
    if frac < 0.5 then f
    else if frac > 0.5 then f + 1
    else if f % 2 == 0 then f
    else f + 1
  }

  /** No integer is closer to `x` than the rounded value. */
  lemma RoundIsNearest(x: real, m: int)
    ensures Abs(RoundHalfEven(x) as real - x) <= Abs(m as real - x)
  {
    var n := RoundHalfEven(x);
    if m < n {
      assert m as real <= n as real - 1.0;
    } else if m > n {
      assert m as real >= n as real + 1.0;
    }
  }

  /**
   Nearest-with-ties-to-even determines the result: any integer within 1/2 of
   `x`, and even when it is exactly 1/2 away, is the rounded value.
   */
  lemma RoundIsUnique(x: real, m: int)
    requires Abs(m as real - x) <= 0.5
    requires Abs(m as real - x) == 0.5 ==> m % 2 == 0
    ensures RoundHalfEven(x) == m
  {
    var n := RoundHalfEven(x);
    // Both lie within 1/2 of x, so they are at most 1 apart, and 1 apart
    // only if both are exactly 1/2 away, in which case both are even.
    assert -1 <= m - n <= 1;
    if m != n {
      assert false;
    }
  }

  /** Rounding leaves a whole number as it is. */
  lemma RoundOfWhole(m: int)
    ensures RoundHalfEven(m as real) == m
  {
    RoundIsUnique(m as real, m);
  }
}
