/** Rounding a ratio of integers to the nearest integer, halves rounded
    up, as `Math.round(p / q)` does for a positive `q`. */
module Rounding {

  /** `Math.round(p / q)` for a positive `q`: the nearest integer, halves
      rounded up. */
  function RoundDiv(p: int, q: int): (r: int)
    requires q > 0
    ensures 2 * q * r - q <= 2 * p < 2 * q * r + q
  {
    var r := (2 * p + q) / (2 * q);
    assert 2 * q * r <= 2 * p + q < 2 * q * r + 2 * q;
    r
  }

  /** With a positive factor `q`, the product `q * x` has the sign of `x`. */
  lemma MulSign(q: int, x: int)
    requires q > 0
    ensures q * x > 0 <==> x > 0
    ensures q * x < 0 <==> x < 0
  {
  }

  /** Rounding a ratio in [0, 1] of `q`, scaled by 100, stays in [0, 100]. */
  lemma RoundDivBounds(p: int, q: int)
    requires q > 0 && 0 <= p <= 100 * q
    ensures 0 <= RoundDiv(p, q) <= 100
  {
    var r := RoundDiv(p, q);
    assert q * (2 * r + 1) > 0;
    MulSign(q, 2 * r + 1);
    assert q * (2 * r - 201) <= 0;
    MulSign(q, 2 * r - 201);
  }

  /** An exact multiple rounds to its own quotient. */
  lemma RoundDivExact(k: int, q: int)
    requires q > 0
    ensures RoundDiv(k * q, q) == k
  {
    var r := RoundDiv(k * q, q);
    assert q * (2 * (r - k) + 1) > 0;
    MulSign(q, 2 * (r - k) + 1);
    assert q * (2 * (r - k) - 1) <= 0;
    MulSign(q, 2 * (r - k) - 1);
  }
}
