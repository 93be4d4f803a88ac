/**
 * `Math.round(a / b)` for integers `a` and `b > 0`, computed exactly.
 * JavaScript rounds half-way cases up (towards +infinity), which is
 * `floor(a / b + 1/2)`, i.e. `floor((2a + b) / 2b)`.
 */
module JsMath {

  /** The integer nearest to `a / b`, halves rounded up. */
  function RoundDiv(a: int, b: int): (r: int)
    requires b > 0
    ensures 2 * b * r - b <= 2 * a < 2 * b * r + b
  {
    var q := (2 * a + b) / (2 * b);
    assert 2 * a + b == 2 * b * q + (2 * a + b) % (2 * b);
    q
  }

  /** Only one integer satisfies the rounding bounds, so they define `RoundDiv`. */
  lemma RoundDivUnique(a: int, b: int, r: int)
    requires b > 0
    requires 2 * b * r - b <= 2 * a < 2 * b * r + b
    ensures r == RoundDiv(a, b)
  {
    var q := RoundDiv(a, b);
    if r < q {
      MulMonotone(2 * b, r + 1, q);
    } else if r > q {
      MulMonotone(2 * b, q + 1, r);
    }
  }

  lemma MulMonotone(c: int, x: int, y: int)
    requires c > 0 && x <= y
    ensures c * x <= c * y
  {
    assert c * y - c * x == c * (y - x);
  }

  /** A mean of values in `[lo, hi]` rounds into `[lo, hi]`. */
  lemma RoundDivBetween(a: int, b: int, lo: int, hi: int)
    requires b > 0
    requires b * lo <= a <= b * hi
    ensures lo <= RoundDiv(a, b) <= hi
  {
    var r := RoundDiv(a, b);
    if r > hi {
      MulMonotone(2 * b, hi + 1, r);
    }
    if r < lo {
      MulMonotone(2 * b, r, lo - 1);
    }
  }

  /** An exact quotient is returned unchanged. */
  lemma RoundDivExact(k: int, b: int)
    requires b > 0
    ensures RoundDiv(k * b, b) == k
  {
    RoundDivUnique(k * b, b, k);
  }
}
