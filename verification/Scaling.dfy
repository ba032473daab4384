/** Multiplying a bound by a weight. */
module Scaling {

  lemma ScaledSum(w: int, a: int, b: int, total: int)
    requires w >= 1 && a >= 0 && a + b <= total
    ensures a + w * b <= w * total
  {
    assert w * (a + b) == w * a + w * b;
    assert w * (total - (a + b)) >= 0;
    assert (w - 1) * a >= 0;
  }

  lemma Scaled(w: nat, a: int, b: int)
    requires a <= b
    ensures w * a <= w * b
  {
  }
}
