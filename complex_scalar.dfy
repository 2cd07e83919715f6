// Complex numbers as (re, im) pairs of reals, as in lib/c_lib/complex/scalar.hpp.
// The source stores a complex number as a 2-element std::vector with the real
// part at index 0 and the imaginary part at index 1; here that pair is a
// datatype whose field names fix the order once and for all.
module ComplexScalar {
  import opened RealArith

  /** complex::scalar::complex(re, im): the pair (re, im). */
  datatype Complex = Complex(re: real, im: real)

  /** The zero amplitude, std::vector<T> res(2, 0.0). */
  const Zero := Complex(0.0, 0.0)

  /** complex::scalar::one(y): the complex number 1 (the dummy y only carries the scalar type). */
  const One := Complex(1.0, 0.0)

  /** complex::scalar::one_i(y): the imaginary unit. */
  const OneI := Complex(0.0, 1.0)

  /** Squared modulus re^2 + im^2 (abs2); never negative. */
  function Abs2(v: Complex): (r: real)
    ensures r >= 0.0
  {
    SqNonNegative(v.re);
    SqNonNegative(v.im);
    v.re * v.re + v.im * v.im
  }

  /** The squared modulus vanishes exactly at zero. */
  lemma Abs2Zero(v: Complex)
    ensures Abs2(v) == 0.0 <==> v == Zero
  {
    SqNonNegative(v.re);
    SqNonNegative(v.im);
    if v.re != 0.0 {
      SqPositive(v.re);
    } else if v.im != 0.0 {
      SqPositive(v.im);
    }
  }

  /** Complex product (mult). */
  function Mult(v1: Complex, v2: Complex): (r: Complex)
  {
    Complex(v1.re * v2.re - v1.im * v2.im, v1.im * v2.re + v1.re * v2.im)
  }

  /**
   * The multiplicative inverse (inverse): (re/n, -im/n) with n = abs2(y).
   * The source divides by n unguarded, so a zero input is excluded here.
   */
  function Inverse(y: Complex): (r: Complex)
    requires y != Zero
    ensures Mult(y, r) == One && Mult(r, y) == One
    ensures Abs2(r) * Abs2(y) == 1.0
  {
    Abs2Zero(y);
    var norm := Abs2(y);
    InverseCancels(y.re, y.im, norm);
    Complex(y.re / norm, -y.im / norm)
  }

  /** Componentwise sum (complex::scalar::add, whose definition is not part of this model). */
  function Add(v1: Complex, v2: Complex): (r: Complex)
  {
    Complex(v1.re + v2.re, v1.im + v2.im)
  }

  /** Componentwise difference (complex::scalar::subtract, likewise not part of this model). */
  function Subtract(v1: Complex, v2: Complex): (r: Complex)
    ensures Add(r, v2) == v1
  {
    Complex(v1.re - v2.re, v1.im - v2.im)
  }

  /** The scalar-times-complex overload of mult used by the resonance structs. */
  function Scale(x: real, v: Complex): (r: Complex)
    ensures r == Mult(Complex(x, 0.0), v)
  {
    Complex(x * v.re, x * v.im)
  }

  /** Complex conjugate; used only to state properties. */
  function Conj(v: Complex): Complex
  {
    Complex(v.re, -v.im)
  }

  lemma InverseCancels(a: real, b: real, n: real)
    requires n == a * a + b * b && n != 0.0
    ensures a * (a / n) - b * (-b / n) == 1.0
    ensures b * (a / n) + a * (-b / n) == 0.0
    ensures ((a / n) * (a / n) + (-b / n) * (-b / n)) * n == 1.0
  {
    var p, q := a / n, -b / n;
    assert p * n == a && q * n == -b;
    assert a * p - b * q == (a * a + b * b) / n;
    assert (p * p + q * q) * n == p * a - q * b;
  }

  lemma MultCommutes(v1: Complex, v2: Complex)
    ensures Mult(v1, v2) == Mult(v2, v1)
  {}

  lemma MultAssociates(v1: Complex, v2: Complex, v3: Complex)
    ensures Mult(Mult(v1, v2), v3) == Mult(v1, Mult(v2, v3))
  {}

  lemma OneIsIdentity(v: Complex)
    ensures Mult(One, v) == v && Mult(v, One) == v
  {}

  lemma OneISquared()
    ensures Mult(OneI, OneI) == Complex(-1.0, 0.0)
  {}

  /** Multiplying by i turns (x, y) into (-y, x). */
  lemma MultByI(v: Complex)
    ensures Mult(OneI, v) == Complex(-v.im, v.re)
  {}

  /** The squared modulus is multiplicative. */
  lemma Abs2Mult(v1: Complex, v2: Complex)
    ensures Abs2(Mult(v1, v2)) == Abs2(v1) * Abs2(v2)
  {
    var a, b, c, d := v1.re, v1.im, v2.re, v2.im;
    calc {
      Abs2(Mult(v1, v2));
      (a * c - b * d) * (a * c - b * d) + (b * c + a * d) * (b * c + a * d);
      (a * a + b * b) * (c * c + d * d);
    }
  }

  lemma ZeroIsAdditiveIdentity(v: Complex)
    ensures Add(Zero, v) == v && Add(v, Zero) == v
  {}

  lemma AddCommutes(v1: Complex, v2: Complex)
    ensures Add(v1, v2) == Add(v2, v1)
  {}

  lemma Abs2Scale(x: real, v: Complex)
    ensures Abs2(Scale(x, v)) == Sq(x) * Abs2(v)
  {
    Abs2Mult(Complex(x, 0.0), v);
  }

  /** The inverse is the only right inverse. */
  lemma InverseUnique(y: Complex, z: Complex)
    requires y != Zero && Mult(y, z) == One
    ensures z == Inverse(y)
  {
    var w := Inverse(y);
    calc {
      z;
      { OneIsIdentity(z); }
      Mult(One, z);
      Mult(Mult(w, y), z);
      { MultAssociates(w, y, z); }
      Mult(w, Mult(y, z));
      Mult(w, One);
      { OneIsIdentity(w); }
      w;
    }
  }

  /** The inverse of a non-zero real number is real. */
  lemma InverseOfReal(x: real)
    requires x != 0.0
    ensures Inverse(Complex(x, 0.0)) == Complex(1.0 / x, 0.0)
  {
    InverseUnique(Complex(x, 0.0), Complex(1.0 / x, 0.0));
  }

  /** conj(v) * v is the real number abs2(v). */
  lemma ConjMult(v: Complex)
    ensures Mult(Conj(v), v) == Complex(Abs2(v), 0.0)
  {}
}
