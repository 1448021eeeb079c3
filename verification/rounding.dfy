/** Rounding to the nearest integer with ties away from zero: Swift's
    `Double.rounded()` (default rule `.toNearestOrAwayFromZero`) and C's
    `round`, over exact reals. */
module Rounding {

  /** The integer nearest to `x`; a tie (`x` exactly halfway) goes to the
      integer farther from zero. */
  function RoundHalfAway(x: real): (n: int)
    ensures x >= 0.0 ==> x - 0.5 < n as real <= x + 0.5
    ensures x < 0.0 ==> x - 0.5 <= n as real < x + 0.5
  {
    if x >= 0.0 then (x + 0.5).Floor else -((-x + 0.5).Floor)
  }

  /** `x` rounded to a whole number of hundredths (`round(x * 100) / 100`),
      ties away from zero. */
  function RoundToCents(x: real): (r: real)
    ensures r * 100.0 == (r * 100.0).Floor as real
    ensures x >= 0.0 ==> x - 0.005 < r <= x + 0.005
    ensures x < 0.0 ==> x - 0.005 <= r < x + 0.005
  {
    var n := RoundHalfAway(x * 100.0);
    assert n as real / 100.0 * 100.0 == n as real;
    n as real / 100.0
  }

  /** The contract of `RoundHalfAway` pins the result down: any integer
      within the same half-open interval is that result. */
  lemma RoundHalfAwayUnique(x: real, m: int)
    requires x >= 0.0 ==> x - 0.5 < m as real <= x + 0.5
    requires x < 0.0 ==> x - 0.5 <= m as real < x + 0.5
    ensures m == RoundHalfAway(x)
  {
  }

  /** Whole numbers are left alone. */
  lemma RoundWhole(n: int)
    ensures RoundHalfAway(n as real) == n
  {
  }

  /** Rounding is symmetric about zero, which is what "ties away from zero"
      means for negative inputs. */
  lemma RoundOdd(x: real)
    ensures RoundHalfAway(-x) == -RoundHalfAway(x)
  {
  }

  /** Rounding never moves a value across zero. */
  lemma RoundKeepsSign(x: real)
    ensures x >= 0.0 ==> RoundHalfAway(x) >= 0
    ensures x <= 0.0 ==> RoundHalfAway(x) <= 0
  {
  }
}
