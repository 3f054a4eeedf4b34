/** Sign facts about real products. Each is stated of a name for the product,
    so that a caller's proof only needs the linear step from that name. */
module Arithmetic {

  lemma ProductPositive(x: real, y: real, p: real)
    requires (x > 0.0 && y > 0.0) || (x < 0.0 && y < 0.0)
    requires p == x * y
    ensures p > 0.0
  {
    if x < 0.0 {
      assert p == (-x) * (-y);
    }
  }

  lemma ProductNonNegative(x: real, y: real, p: real)
    requires x >= 0.0 && y >= 0.0
    requires p == x * y
    ensures p >= 0.0
  {
    if x > 0.0 && y > 0.0 {
      ProductPositive(x, y, p);
    }
  }

  lemma ProductNegative(x: real, y: real, p: real)
    requires x < 0.0 < y
    requires p == x * y
    ensures p < 0.0
  {
    ProductPositive(-x, y, -p);
  }

  lemma SquarePositive(d: real, a: real)
    requires d != 0.0
    requires a == d * d
    ensures a > 0.0
  {
    ProductPositive(d, d, a);
  }

  lemma PositiveTimesSquare(c: real, d: real, a: real)
    requires c > 0.0 && d != 0.0
    requires a == c * d * d
    ensures a > 0.0
  {
    var s := d * d;
    SquarePositive(d, s);
    ProductPositive(c, s, a);
  }
}
