/** Signs and orders of real products, one small fact at a time. */
module Reals {
  lemma {:induction false} ProductNonNegative(x: real, y: real)
    requires x >= 0.0 && y >= 0.0
    ensures x * y >= 0.0
  {}

  lemma {:induction false} PositiveProduct(x: real, y: real)
    requires x > 0.0 && y > 0.0
    ensures x * y > 0.0
  {}

  lemma {:induction false} NonNegativeFactor(x: real, y: real)
    requires y > 0.0 && x * y >= 0.0
    ensures x >= 0.0
  {}

  lemma {:induction false} ZeroFactor(x: real, y: real)
    requires x * y == 0.0 && y != 0.0
    ensures x == 0.0
  {}

  lemma {:induction false} Distribute(c: real, x: real, y: real)
    ensures c * (x + y) == c * x + c * y
  {}

  /** A positive factor keeps the order. */
  lemma {:induction false} Scaled(x: real, y: real, k: real)
    requires k > 0.0
    ensures x < y <==> x * k < y * k
    ensures x <= y <==> x * k <= y * k
  {
    var d := y - x;
    assert y * k - x * k == d * k;
  }
}
