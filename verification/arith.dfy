/** Integer division facts shared by the stages (operands non-negative, so Python's `//` and `%` agree with Dafny's). */
module Arith {

  lemma MulAtLeast(d: int, k: int)
    requires d > 0 && k >= 1
    ensures d * k >= d
  {
    var e := k - 1;
    assert d * k == d * e + d;
    assert d * e >= 0;
  }

  /** A quotient and remainder in range are the quotient and the remainder. */
  lemma DivUnique(a: int, d: int, q: int, r: int)
    requires d > 0 && a == d * q + r && 0 <= r < d
    ensures a / d == q && a % d == r
  {
    var q', r' := a / d, a % d;
    assert a == d * q' + r';
    assert d * q - d * q' == r' - r;
    if q > q' {
      assert d * (q - q') == d * q - d * q';
      MulAtLeast(d, q - q');
    } else if q < q' {
      assert d * (q' - q) == d * q' - d * q;
      MulAtLeast(d, q' - q);
    }
  }

  /** A quotient of non-negative operands never exceeds the dividend. */
  lemma DivAtMost(a: int, d: int)
    requires a >= 0 && d > 0
    ensures a / d <= a
  {
    var q, r := a / d, a % d;
    assert a == d * q + r && 0 <= r;
    assert d * q == q + (d - 1) * q;
    if q > 0 {
      assert (d - 1) * q >= 0;
    }
  }
}
