/** Small facts about multiplication and Euclidean division used by the layout proofs. */
module Arith {

  lemma MulAtLeast(k: int, d: int)
    requires k >= 1 && d > 0
    ensures k * d >= d
  {
    assert k * d == (k - 1) * d + d;
  }

  lemma MulMonotone(c: int, a: int, b: int)
    requires c >= 0 && a <= b
    ensures c * a <= c * b
  {
    assert c * b - c * a == c * (b - a);
  }

  lemma MulNonneg(a: int, b: int)
    requires a >= 0 && b >= 0
    ensures a * b >= 0
  {
    if a > 0 && b > 0 {
      MulAtLeast(a, b);
    }
  }

  lemma MulPositive(a: int, b: int)
    requires a > 0 && b > 0
    ensures a * b > 0
  {
    MulAtLeast(a, b);
  }

  /** `q * d + r` with `0 <= r < d` has quotient q and remainder r. */
  lemma DivModUnique(a: int, d: int, q: int, r: int)
    requires d > 0 && 0 <= r < d && a == q * d + r
    ensures a / d == q && a % d == r
  {
    var q', r' := a / d, a % d;
    assert a == q' * d + r';
    assert q * d - q' * d == r' - r;
    assert (q - q') * d == q * d - q' * d;
    assert (q' - q) * d == q' * d - q * d;
    if q > q' {
      MulAtLeast(q - q', d);
      assert false;
    } else if q < q' {
      MulAtLeast(q' - q, d);
      assert false;
    }
  }
}
