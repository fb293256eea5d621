/** Facts about integer division by a positive divisor that the proofs use. */
module Arithmetic {

  lemma DivModUnique(x: int, k: int, q: int, r: int)
    requires k > 0 && 0 <= r < k && x == k * q + r
    ensures x / k == q && x % k == r
  {
    var q0, r0 := x / k, x % k;
    assert x == k * q0 + r0;
    if q0 < q {
      MulMonotone(k, q0 + 1, q);
      assert false;
    } else if q < q0 {
      MulMonotone(k, q + 1, q0);
      assert false;
    }
  }

  lemma MulMonotone(k: int, a: int, b: int)
    requires k > 0 && a <= b
    ensures k * a <= k * b
  {
    assert k * b - k * a == k * (b - a);
  }

  lemma DivMonotone(a: int, b: int, k: int)
    requires 0 <= a <= b && k > 0
    ensures a / k <= b / k
  {
    if a / k > b / k {
      MulMonotone(k, b / k + 1, a / k);
      assert false;
    }
  }
}
