// Order facts about products and squares of reals.
//
// Every fact here is stated on a function application (Sq(x), Mul(x, y))
// rather than on a bare product, so that callers can combine it linearly
// with the definitions of the amplitude formulas.
module RealArith {

  /** The square of x. */
  function Sq(x: real): real
  {
    x * x
  }

  /** The product of x and y. */
  function Mul(x: real, y: real): real
  {
    x * y
  }

  /** Absolute value, as std::fabs on a finite double. */
  function Abs(x: real): (r: real)
    ensures r >= 0.0 && (r == x || r == -x)
  {
    if x < 0.0 then -x else x
  }

  lemma ProductPositive(x: real, y: real)
    requires (x > 0.0 && y > 0.0) || (x < 0.0 && y < 0.0)
    ensures Mul(x, y) > 0.0
  {}

  lemma ProductNonNegative(x: real, y: real)
    requires (x >= 0.0 && y >= 0.0) || (x <= 0.0 && y <= 0.0)
    ensures Mul(x, y) >= 0.0
  {
    if x != 0.0 && y != 0.0 {
      ProductPositive(x, y);
    }
  }

  lemma ProductNegative(x: real, y: real)
    requires (x > 0.0 && y < 0.0) || (x < 0.0 && y > 0.0)
    ensures Mul(x, y) < 0.0
  {
    ProductPositive(x, -y);
    assert Mul(x, -y) == -Mul(x, y);
  }

  lemma SqPositive(x: real)
    requires x != 0.0
    ensures Sq(x) > 0.0
  {
    ProductPositive(x, x);
    assert Sq(x) == Mul(x, x);
  }

  lemma SqNonNegative(x: real)
    ensures Sq(x) >= 0.0
  {
    if x != 0.0 {
      SqPositive(x);
    }
  }

  /** Squaring is strictly increasing on the non-negative reals. */
  lemma SqStrictlyIncreasing(x: real, y: real)
    requires 0.0 <= x < y
    ensures Sq(x) < Sq(y)
  {
    ProductPositive(y - x, y + x);
    assert Mul(y - x, y + x) == Sq(y) - Sq(x);
  }

  /** A non-negative real is determined by its square. */
  lemma SqInjective(x: real, y: real)
    requires x >= 0.0 && y >= 0.0 && Sq(x) == Sq(y)
    ensures x == y
  {
    if x < y {
      SqStrictlyIncreasing(x, y);
    } else if y < x {
      SqStrictlyIncreasing(y, x);
    }
  }
}
