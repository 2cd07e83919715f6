// The numeric routines the amplitude engine calls but does not define:
// std::sqrt and the helpers declared in lib/c_lib/fct.hpp whose headers
// (blatt_weisskopf, relativistic_width, breit_wigner::value, the breakup
// momenta) are not part of this model. They are carried as function values
// so that every formula here is proved for ANY choice of them; only sqrt
// is constrained, by SqrtLaw, where a proof needs it.
module NumericKernels {
  import opened RealArith
  import opened ComplexScalar

  datatype Kernels = Kernels(
    /** std::sqrt on the reals that matter (its value at negative inputs is left open). */
    sqrt: real -> real,
    /** fct::blatt_weisskopf(J, r2, m2_R, m_a, m_b): the barrier factor. */
    blattWeisskopf: (int, real, real, real, real) -> real,
    /** fct::breit_wigner::relativistic_width(M_R, W, J, r, m2_ab, m_a, m_b). */
    relativisticWidth: (real, real, int, real, real, real, real) -> real,
    /** fct::breit_wigner::value(M_R, m2_ab, width): the complex propagator. */
    breitWigner: (real, real, real) -> Complex,
    /** fct::breakup_momentum::complex_p(m2_R, m_a, m_b): the complex breakup momentum. */
    complexP: (real, real, real) -> Complex,
    /** fct::breakup_momentum::p2(m2_R, m_a, m_b): the squared breakup momentum. */
    p2: (real, real, real) -> real)

  /** sqrt returns the non-negative square root of every non-negative real. */
  ghost predicate SqrtLaw(k: Kernels)
  {
    forall x: real :: x >= 0.0 ==> k.sqrt(x) >= 0.0 && Sq(k.sqrt(x)) == x
  }

  lemma SqrtOfSquare(k: Kernels, x: real)
    requires SqrtLaw(k) && x >= 0.0
    ensures k.sqrt(Sq(x)) == x
  {
    SqNonNegative(x);
    SqInjective(k.sqrt(Sq(x)), x);
  }

  lemma SqrtZero(k: Kernels)
    requires SqrtLaw(k)
    ensures k.sqrt(0.0) == 0.0
  {
    SqrtOfSquare(k, 0.0);
  }

  lemma SqrtPositive(k: Kernels, x: real)
    requires SqrtLaw(k) && x > 0.0
    ensures k.sqrt(x) > 0.0
  {
    assert Sq(k.sqrt(x)) == x;
  }

  /** sqrt(x * y) == sqrt(x) * sqrt(y) for non-negative x and y. */
  lemma SqrtOfProduct(k: Kernels, x: real, y: real)
    requires SqrtLaw(k) && x >= 0.0 && y >= 0.0
    ensures k.sqrt(x * y) == k.sqrt(x) * k.sqrt(y)
  {
    var sx, sy := k.sqrt(x), k.sqrt(y);
    ProductNonNegative(x, y);
    ProductNonNegative(sx, sy);
    assert Sq(sx * sy) == Sq(sx) * Sq(sy);
    assert Mul(x, y) == x * y;
    SqInjective(k.sqrt(x * y), sx * sy);
  }
}
