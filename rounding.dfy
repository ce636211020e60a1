/** `Math.round(s / n)` for an integer sum `s` and a positive count `n`.
    `Math.round` rounds half up (towards +infinity), so the result is
    floor(s/n + 1/2) = floor((2s + n) / 2n); Dafny's `/` on a positive divisor
    is floor division, which makes the formula exact for every integer `s`. */
module Rounding {

  function RoundDiv(s: int, n: int): (r: int)
    requires n > 0
    ensures 2 * n * r - n <= 2 * s < 2 * n * r + n
  {
    var q := (2 * s + n) / (2 * n);
    assert (2 * n) * q <= 2 * s + n < (2 * n) * q + 2 * n;
    q
  }

  /** Scaling a gap of at least one by a positive factor m gives a gap of at
      least m. */
  lemma GapScales(m: int, a: int, b: int)
    requires m > 0 && a < b
    ensures m * a + m <= m * b
  {
    var d := b - a;
    assert m * b == m * a + m * d;
    assert m * d >= m by {
      assert m * d == m + m * (d - 1);
      assert m * (d - 1) >= 0;
    }
  }

  /** The rounding bounds pin the result down: it is the one integer whose
      distance to s/n is below one half (ties going up). */
  lemma RoundDivUnique(s: int, n: int, r: int)
    requires n > 0
    requires 2 * n * r - n <= 2 * s < 2 * n * r + n
    ensures r == RoundDiv(s, n)
  {
    var q := RoundDiv(s, n);
    if r < q {
      GapScales(2 * n, r, q);
    } else if r > q {
      GapScales(2 * n, q, r);
    }
  }

  /** A rounded mean of n values that all lie in [lo, hi] lies in [lo, hi]. */
  lemma RoundDivWithin(s: int, n: int, lo: int, hi: int)
    requires n > 0
    requires n * lo <= s <= n * hi
    ensures lo <= RoundDiv(s, n) <= hi
  {
    var r := RoundDiv(s, n);
    if r > hi {
      GapScales(2 * n, hi, r);
    }
    if r < lo {
      GapScales(2 * n, r, lo);
    }
  }

  /** Rounding an exact quotient gives the quotient back. */
  lemma RoundDivExact(q: int, n: int)
    requires n > 0
    ensures RoundDiv(q * n, n) == q
  {
    RoundDivUnique(q * n, n, q);
  }
}
