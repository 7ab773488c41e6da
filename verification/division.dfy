/** Two facts about division by a variable. */
module Division {
  lemma {:induction false} SmallMultiple(d: int, x: int)
    requires d > 0 && -d < d * x < d
    ensures x == 0
  {
    assert x >= 1 ==> d * (x - 1) >= 0;
    assert x <= -1 ==> d * (-x - 1) >= 0;
    assert d * (x - 1) == d * x - d && d * (-x - 1) == -(d * x) - d;
  }

  /** A quotient is determined by leaving a remainder below the divisor. */
  lemma {:induction false} QuotientIs(x: int, d: int, q: int, r: int)
    requires x == d * q + r && 0 <= r < d
    ensures x / d == q
  {
    var p, s := x / d, x % d;
    assert x == d * p + s;
    assert d * (p - q) == d * p - d * q;
    SmallMultiple(d, p - q);
  }
}
