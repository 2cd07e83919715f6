// The two-channel Flatte propagator fct::flatte::value (lib/c_lib/fct/flatte.hpp):
//   1 / (M_R^2 - m2_ab - (2 / sqrt(m2_ab)) i (gpp^2 rho_pipi + gkk^2 rho_KK))
// where rho is the complex breakup momentum of the pi pi and K K channels.
module FlattePropagator {
  import opened RealArith
  import opened ComplexScalar
  import opened NumericKernels
  import opened Particles

  /** pp + kk: the coupling-weighted complex breakup momenta of pi pi and K K at m2_ab. */
  function FlatteChannels(k: Kernels, m2_ab: real, gpp: real, gkk: real): Complex
  {
    var pp := Mult(Complex(gpp * gpp, 0.0), k.complexP(m2_ab, Pion.m, Pion.m));
    var kk := Mult(Complex(gkk * gkk, 0.0), k.complexP(m2_ab, Kaon.m, Kaon.m));
    Add(pp, kk)
  }

  /** The complex number the source inverts. */
  function FlatteDenominator(k: Kernels, M_R: real, m2_ab: real, gpp: real, gkk: real): Complex
    requires k.sqrt(m2_ab) != 0.0
  {
    var temp := Mult(Complex(0.0, 1.0), FlatteChannels(k, m2_ab, gpp, gkk));
    Subtract(Complex(M_R * M_R - m2_ab, 0.0), Mult(Complex(2.0 / k.sqrt(m2_ab), 0.0), temp))
  }

  /**
   * fct::flatte::value(M_R, m2_ab, gpp, gkk). The source divides by
   * sqrt(m2_ab) and by the squared modulus of the denominator unguarded;
   * both are required to be non-zero here.
   */
  function FlatteValue(k: Kernels, M_R: real, m2_ab: real, gpp: real, gkk: real): (r: Complex)
    requires k.sqrt(m2_ab) != 0.0 && FlatteDenominator(k, M_R, m2_ab, gpp, gkk) != Zero
    ensures Mult(r, FlatteDenominator(k, M_R, m2_ab, gpp, gkk)) == One
  {
    Inverse(FlatteDenominator(k, M_R, m2_ab, gpp, gkk))
  }

  /**
   * The denominator in components: with S = pp + kk and w = 2 / sqrt(m2_ab),
   * it is (M_R^2 - m2_ab + w S.im, -w S.re), since i S == (-S.im, S.re).
   */
  lemma FlatteDenominatorComponents(k: Kernels, M_R: real, m2_ab: real, gpp: real, gkk: real)
    requires k.sqrt(m2_ab) != 0.0
    ensures var s := FlatteChannels(k, m2_ab, gpp, gkk);
            var w := 2.0 / k.sqrt(m2_ab);
            FlatteDenominator(k, M_R, m2_ab, gpp, gkk) == Complex(Sq(M_R) - m2_ab + w * s.im, -(w * s.re))
  {
    MultByI(FlatteChannels(k, m2_ab, gpp, gkk));
  }

  /** If pp + kk is purely real, the real part of the denominator is exactly M_R^2 - m2_ab. */
  lemma FlatteRealChannelsKeepPole(k: Kernels, M_R: real, m2_ab: real, gpp: real, gkk: real)
    requires k.sqrt(m2_ab) != 0.0
    requires FlatteChannels(k, m2_ab, gpp, gkk).im == 0.0
    ensures FlatteDenominator(k, M_R, m2_ab, gpp, gkk).re == Sq(M_R) - m2_ab
  {
    FlatteDenominatorComponents(k, M_R, m2_ab, gpp, gkk);
  }

  /** If pp + kk is purely imaginary, the denominator and the propagator are real. */
  lemma FlatteImaginaryChannelsGiveReal(k: Kernels, M_R: real, m2_ab: real, gpp: real, gkk: real)
    requires k.sqrt(m2_ab) != 0.0 && FlatteDenominator(k, M_R, m2_ab, gpp, gkk) != Zero
    requires FlatteChannels(k, m2_ab, gpp, gkk).re == 0.0
    ensures FlatteDenominator(k, M_R, m2_ab, gpp, gkk).im == 0.0
    ensures FlatteValue(k, M_R, m2_ab, gpp, gkk) == Complex(1.0 / FlatteDenominator(k, M_R, m2_ab, gpp, gkk).re, 0.0)
  {
    FlatteDenominatorComponents(k, M_R, m2_ab, gpp, gkk);
    var d := FlatteDenominator(k, M_R, m2_ab, gpp, gkk);
    assert d == Complex(d.re, 0.0);
    InverseOfReal(d.re);
  }

  /**
   * Both channels closed: when the complex momenta of pi pi and K K are both
   * purely imaginary (below their thresholds), the propagator is real.
   */
  lemma FlatteClosedChannelsGiveReal(k: Kernels, M_R: real, m2_ab: real, gpp: real, gkk: real)
    requires k.sqrt(m2_ab) != 0.0 && FlatteDenominator(k, M_R, m2_ab, gpp, gkk) != Zero
    requires k.complexP(m2_ab, Pion.m, Pion.m).re == 0.0 && k.complexP(m2_ab, Kaon.m, Kaon.m).re == 0.0
    ensures FlatteValue(k, M_R, m2_ab, gpp, gkk).im == 0.0
  {
    FlatteImaginaryChannelsGiveReal(k, M_R, m2_ab, gpp, gkk);
  }

  /** The inverse is the only complex number that cancels the denominator. */
  lemma FlatteValueUnique(k: Kernels, M_R: real, m2_ab: real, gpp: real, gkk: real, z: Complex)
    requires k.sqrt(m2_ab) != 0.0 && FlatteDenominator(k, M_R, m2_ab, gpp, gkk) != Zero
    requires Mult(FlatteDenominator(k, M_R, m2_ab, gpp, gkk), z) == One
    ensures z == FlatteValue(k, M_R, m2_ab, gpp, gkk)
  {
    InverseUnique(FlatteDenominator(k, M_R, m2_ab, gpp, gkk), z);
  }
}
