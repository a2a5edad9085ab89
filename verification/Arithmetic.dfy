/** Division with remainder. */
module Arithmetic {

  lemma Distribute(x: int, y: int, d: int)
    ensures (x - y) * d == x * d - y * d
  {
  }

  lemma {:induction false} AtLeastOnce(x: int, d: int)
    requires x >= 1 && d > 0
    ensures x * d >= d
  {
    if x > 1 {
      AtLeastOnce(x - 1, d);
      Distribute(x, 1, d);
    }
  }

  /** Quotient and remainder are determined by the division. */
  lemma QuotientIs(a: int, d: int, q: int, r: int)
    requires d > 0 && a == q * d + r && 0 <= r < d
    ensures a / d == q && a % d == r
  {
    var p := a / d;
    assert a == p * d + a % d;
    Distribute(p, q, d);
    Distribute(q, p, d);
    if p > q {
      AtLeastOnce(p - q, d);
    } else if p < q {
      AtLeastOnce(q - p, d);
    }
  }

  lemma NextMultiple(m: int, t: int)
    ensures m * (t - 1) + m == m * t
  {
  }
}
