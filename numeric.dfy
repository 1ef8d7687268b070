/**
 * Numeric helpers used by the synthetic-data generator: numpy's clip and the
 * round-half-to-even rounding behind round(x, 2).
 */
module Numeric {

  /** np.clip(x, lo, hi) for a scalar: min(max(x, lo), hi). */
  function Clip(x: real, lo: real, hi: real): (r: real)
    requires lo <= hi
    ensures lo <= r <= hi
    ensures lo <= x <= hi ==> r == x
    ensures x < lo ==> r == lo
    ensures hi < x ==> r == hi
  {
    if x < lo then lo else if hi < x then hi else x
  }

  /** Integer clip, as used for the Poisson item count. */
  function ClipInt(x: int, lo: int, hi: int): (r: int)
    requires lo <= hi
    ensures lo <= r <= hi
    ensures lo <= x <= hi ==> r == x
    ensures x < lo ==> r == lo
    ensures hi < x ==> r == hi
  {
    if x < lo then lo else if hi < x then hi else x
  }

  predicate IsEven(n: int) {
    n % 2 == 0
  }

  /**
   * Round to the nearest integer, ties to the even neighbour (numpy's rint,
   * which pandas' round(2) applies to 100 * x).
   */
  function RoundHalfEven(x: real): (r: int)
    ensures (r as real) - x <= 1.0 / 2.0 && x - (r as real) <= 1.0 / 2.0
    ensures r as real - x == 1.0 / 2.0 || x - r as real == 1.0 / 2.0 ==> IsEven(r)
  {
    var f := x.Floor;
    var frac := x - f as real;
    if frac < 1.0 / 2.0 then f
    else if frac > 1.0 / 2.0 then f + 1
    else if IsEven(f) then f
    else f + 1
  }

  /** Rounding never goes below an integer that the value already reaches. */
  lemma RoundAtLeast(x: real, n: int)
    requires n as real <= x
    ensures n <= RoundHalfEven(x)
  {
    assert n <= x.Floor;
  }

  /** An integer is its own rounding. */
  lemma RoundOfInteger(n: int)
    ensures RoundHalfEven(n as real) == n
  {
    assert (n as real).Floor == n;
  }

  /** Two decimals, as integer cents: round(x, 2) == RoundHalfEven(100 * x) / 100. */
  function ToCents(x: real): (c: int)
    ensures (c as real) - 100.0 * x <= 1.0 / 2.0 && 100.0 * x - (c as real) <= 1.0 / 2.0
  {
    RoundHalfEven(100.0 * x)
  }
}
