// The three-body resonance structs of lib/c_lib/structures/three_body/:
// flat_3, breit_wigner and flatte, each holding the parent P and the final
// state a, b, c (resonance_base_3) plus its own constant parameters. A
// resonance is evaluated at a Dalitz point (m2_ab, m2_bc); outside the
// kinematically allowed region every struct returns (0, 0).
module ThreeBody {
  import opened RealArith
  import opened ComplexScalar
  import opened NumericKernels
  import opened Particles
  import opened Validity
  import opened Zemach
  import opened FormFactors
  import opened FlattePropagator

  /** The product F_P F_R Z shared by the Breit-Wigner and Flatte structs; Z receives P.m in its m2_R slot, as in the source. */
  function BarrierAngular(k: Kernels, P: Particle, a: Particle, b: Particle, c: Particle, R: Particle, m2_ab: real, m2_bc: real): real
    requires k.blattWeisskopf(R.J, P.r2, P.m2, R.m, c.m) != 0.0
    requires k.blattWeisskopf(R.J, R.r2, R.m2, a.m, b.m) != 0.0
    requires R.J == 1 || R.J == 2 ==> m2_ab != 0.0
  {
    var m_ab := k.sqrt(m2_ab);
    var f_P := FormFactorP(k, R.J, P.r2, P.m2, m_ab, R.m, c.m);
    var f_R := FormFactorR(k, R.J, R.r2, m2_ab, R.m2, a.m, b.m);
    var z := ZemachSpin(R.J, m2_ab, m2_bc, P.m, a, b, c);
    Mul(Mul(f_P, f_R), z)
  }

  /** The pole Blatt-Weisskopf factors the struct divides by are non-zero. */
  predicate PolesNonZero(k: Kernels, P: Particle, a: Particle, b: Particle, c: Particle, R: Particle)
  {
    k.blattWeisskopf(R.J, P.r2, P.m2, R.m, c.m) != 0.0 && k.blattWeisskopf(R.J, R.r2, R.m2, a.m, b.m) != 0.0
  }

  /**
   * At the pole m2_ab == M_R^2 both form factors are 1, so F_P F_R Z is the
   * Zemach factor alone.
   */
  lemma BarrierAngularAtPole(k: Kernels, P: Particle, a: Particle, b: Particle, c: Particle, R: Particle, m2_bc: real)
    requires SqrtLaw(k) && PolesNonZero(k, P, a, b, c, R) && R.m >= 0.0
    requires R.J == 1 || R.J == 2 ==> R.m2 != 0.0
    ensures BarrierAngular(k, P, a, b, c, R, R.m2, m2_bc) == ZemachSpin(R.J, R.m2, m2_bc, P.m, a, b, c)
  {
    SqrtOfSquare(k, R.m);
    FormFactorPAtPole(k, R.J, P.r2, P.m2, R.m, c.m);
    FormFactorRAtPole(k, R.J, R.r2, R.m2, a.m, b.m);
  }

  /** flat_3: the non-resonant amplitude, 1 inside the Dalitz plot and 0 outside. */
  datatype Flat3 = Flat3(P: Particle, a: Particle, b: Particle, c: Particle)
  {
    function Value(k: Kernels, m2_ab: real, m2_bc: real): (r: Complex)
      ensures r.im == 0.0 && (r.re == 0.0 || r.re == 1.0)
      ensures r == One <==> ValidParticles(k, m2_ab, m2_bc, P, a, b, c)
      ensures r == Zero <==> !ValidParticles(k, m2_ab, m2_bc, P, a, b, c)
    {
      var res := Zero;
      if ValidParticles(k, m2_ab, m2_bc, P, a, b, c) then res.(re := 1.0) else res
    }
  }

  /** For physical particles and m2_ab > 0, flat_3 is 1 exactly on the Dalitz region. */
  lemma Flat3IsRegionIndicator(k: Kernels, f: Flat3, m2_ab: real, m2_bc: real)
    requires SqrtLaw(k) && Physical(f.P) && Physical(f.a) && Physical(f.b) && Physical(f.c)
    requires m2_ab > 0.0
    ensures k.sqrt(m2_ab) > 0.0
    ensures f.Value(k, m2_ab, m2_bc) == One <==>
      (Sq(f.a.m + f.b.m) <= m2_ab <= Sq(f.P.m - f.c.m)
       && DalitzMin(k, m2_ab, f.P.m2, f.a.m2, f.b.m2, f.c.m2) <= m2_bc
       && m2_bc <= DalitzMax(k, m2_ab, f.P.m2, f.a.m2, f.b.m2, f.c.m2))
  {
    ValidIffInDalitzRegion(k, m2_ab, m2_bc, f.P, f.a, f.b, f.c);
  }

  /** breit_wigner (three-body): a resonance R of width W decaying to a b, with c the bachelor. */
  datatype BreitWigner3 = BreitWigner3(P: Particle, a: Particle, b: Particle, c: Particle, R: Particle, W: real)
  {
    /** T_R: the Breit-Wigner propagator at m2_ab with the relativistic running width. */
    function Propagator(k: Kernels, m2_ab: real): Complex
    {
      var width := k.relativisticWidth(R.m, W, R.J, R.r, m2_ab, a.m, b.m);
      k.breitWigner(R.m, m2_ab, width)
    }

    /** The amplitude inside the Dalitz plot, mult(F_P F_R Z, T_R). */
    function Amplitude(k: Kernels, m2_ab: real, m2_bc: real): Complex
      requires PolesNonZero(k, P, a, b, c, R)
      requires R.J == 1 || R.J == 2 ==> m2_ab != 0.0
    {
      Scale(BarrierAngular(k, P, a, b, c, R, m2_ab, m2_bc), Propagator(k, m2_ab))
    }

    /**
     * value(m2_ab, m2_bc): (0, 0) outside the Dalitz plot; inside, where m2_ab is
     * never zero, mult(F_P F_R Z, T_R).
     */
    function Value(k: Kernels, m2_ab: real, m2_bc: real): (r: Complex)
      requires SqrtLaw(k) && PolesNonZero(k, P, a, b, c, R)
      ensures !ValidParticles(k, m2_ab, m2_bc, P, a, b, c) ==> r == Zero
      ensures ValidParticles(k, m2_ab, m2_bc, P, a, b, c) ==>
        m2_ab != 0.0 && r == Scale(BarrierAngular(k, P, a, b, c, R, m2_ab, m2_bc), Propagator(k, m2_ab))
    {
      if ValidParticles(k, m2_ab, m2_bc, P, a, b, c) then
        ValidAwayFromZero(k, m2_ab, m2_bc, P.m2, a.m2, b.m2, c.m2);
        Amplitude(k, m2_ab, m2_bc)
      else
        Zero
    }

    /** value_sym(m2_ab, m2_bc): the amplitude symmetrised under exchanging the two Dalitz variables. */
    function ValueSym(k: Kernels, m2_ab: real, m2_bc: real): (r: Complex)
      requires SqrtLaw(k) && PolesNonZero(k, P, a, b, c, R)
    {
      Add(Value(k, m2_ab, m2_bc), Value(k, m2_bc, m2_ab))
    }
  }

  /** abs2 of a complex number known to be x t is x^2 abs2(t). */
  lemma ScaledIntensity(v: Complex, x: real, t: Complex)
    requires v == Scale(x, t)
    ensures Abs2(v) == Sq(x) * Abs2(t)
  {
    Abs2Scale(x, t);
  }

  /** The intensity factorises: |amplitude|^2 == (F_P F_R Z)^2 |T_R|^2. */
  lemma BreitWigner3Intensity(k: Kernels, bw: BreitWigner3, m2_ab: real, m2_bc: real)
    requires PolesNonZero(k, bw.P, bw.a, bw.b, bw.c, bw.R)
    requires bw.R.J == 1 || bw.R.J == 2 ==> m2_ab != 0.0
    ensures Abs2(bw.Amplitude(k, m2_ab, m2_bc))
        == Sq(BarrierAngular(k, bw.P, bw.a, bw.b, bw.c, bw.R, m2_ab, m2_bc)) * Abs2(bw.Propagator(k, m2_ab))
  {
    var x, t := BarrierAngular(k, bw.P, bw.a, bw.b, bw.c, bw.R, m2_ab, m2_bc), bw.Propagator(k, m2_ab);
    ScaledIntensity(bw.Amplitude(k, m2_ab, m2_bc), x, t);
  }

  /**
   * At an accepted point on the pole m2_ab == M_R^2 the Breit-Wigner amplitude
   * is T_R scaled by the Zemach factor alone, and its intensity is Z^2 |T_R|^2.
   */
  lemma BreitWigner3AtPole(k: Kernels, bw: BreitWigner3, m2_bc: real)
    requires SqrtLaw(k) && PolesNonZero(k, bw.P, bw.a, bw.b, bw.c, bw.R) && bw.R.m >= 0.0
    requires ValidParticles(k, bw.R.m2, m2_bc, bw.P, bw.a, bw.b, bw.c)
    ensures bw.Value(k, bw.R.m2, m2_bc) == Scale(ZemachSpin(bw.R.J, bw.R.m2, m2_bc, bw.P.m, bw.a, bw.b, bw.c), bw.Propagator(k, bw.R.m2))
    ensures Abs2(bw.Value(k, bw.R.m2, m2_bc))
        == Sq(ZemachSpin(bw.R.J, bw.R.m2, m2_bc, bw.P.m, bw.a, bw.b, bw.c)) * Abs2(bw.Propagator(k, bw.R.m2))
  {
    var v := bw.Value(k, bw.R.m2, m2_bc);
    BarrierAngularAtPole(k, bw.P, bw.a, bw.b, bw.c, bw.R, m2_bc);
    Abs2Scale(ZemachSpin(bw.R.J, bw.R.m2, m2_bc, bw.P.m, bw.a, bw.b, bw.c), bw.Propagator(k, bw.R.m2));
  }

  /** value_sym is symmetric in its two arguments. */
  lemma BreitWigner3ValueSymSymmetric(k: Kernels, bw: BreitWigner3, x: real, y: real)
    requires SqrtLaw(k) && PolesNonZero(k, bw.P, bw.a, bw.b, bw.c, bw.R)
    ensures bw.ValueSym(k, x, y) == bw.ValueSym(k, y, x)
  {
    AddCommutes(bw.Value(k, x, y), bw.Value(k, y, x));
  }

  /** value_sym vanishes where neither ordering of the arguments is a valid point. */
  lemma BreitWigner3ValueSymOutside(k: Kernels, bw: BreitWigner3, x: real, y: real)
    requires SqrtLaw(k) && PolesNonZero(k, bw.P, bw.a, bw.b, bw.c, bw.R)
    requires !ValidParticles(k, x, y, bw.P, bw.a, bw.b, bw.c) && !ValidParticles(k, y, x, bw.P, bw.a, bw.b, bw.c)
    ensures bw.ValueSym(k, x, y) == Zero
  {
    var u, v := bw.Value(k, x, y), bw.Value(k, y, x);
    assert u == Zero && v == Zero;
    ZeroIsAdditiveIdentity(Zero);
  }

  /** flatte (three-body): a two-channel resonance R with couplings G_pp and G_kk fixed at construction. */
  datatype Flatte3 = Flatte3(P: Particle, a: Particle, b: Particle, c: Particle, R: Particle, G_pp: real, G_kk: real)
  {
    /** The Flatte denominator the source inverts is non-zero at every accepted point (m2_ab, m2_bc). */
    predicate DenominatorNonZero(k: Kernels, m2_ab: real, m2_bc: real)
    {
      ValidParticles(k, m2_ab, m2_bc, P, a, b, c) ==> FlatteDenominator(k, R.m, m2_ab, G_pp, G_kk) != Zero
    }

    /** The amplitude inside the Dalitz plot, mult(F_P F_R Z, T_R) with the Flatte T_R. */
    function Amplitude(k: Kernels, m2_ab: real, m2_bc: real): Complex
      requires PolesNonZero(k, P, a, b, c, R)
      requires R.J == 1 || R.J == 2 ==> m2_ab != 0.0
      requires k.sqrt(m2_ab) != 0.0 && FlatteDenominator(k, R.m, m2_ab, G_pp, G_kk) != Zero
    {
      Scale(BarrierAngular(k, P, a, b, c, R, m2_ab, m2_bc), FlatteValue(k, R.m, m2_ab, G_pp, G_kk))
    }

    /**
     * value(m2_ab, m2_bc): (0, 0) outside the Dalitz plot; inside, where m2_ab and
     * its square root are never zero, mult(F_P F_R Z, T_R) with the Flatte T_R.
     */
    function Value(k: Kernels, m2_ab: real, m2_bc: real): (r: Complex)
      requires SqrtLaw(k) && PolesNonZero(k, P, a, b, c, R) && DenominatorNonZero(k, m2_ab, m2_bc)
      ensures !ValidParticles(k, m2_ab, m2_bc, P, a, b, c) ==> r == Zero
      ensures ValidParticles(k, m2_ab, m2_bc, P, a, b, c) ==>
        m2_ab != 0.0 && k.sqrt(m2_ab) != 0.0
        && r == Scale(BarrierAngular(k, P, a, b, c, R, m2_ab, m2_bc), FlatteValue(k, R.m, m2_ab, G_pp, G_kk))
    {
      if ValidParticles(k, m2_ab, m2_bc, P, a, b, c) then
        ValidAwayFromZero(k, m2_ab, m2_bc, P.m2, a.m2, b.m2, c.m2);
        Amplitude(k, m2_ab, m2_bc)
      else
        Zero
    }

    /** value_sym(m2_ab, m2_bc). */
    function ValueSym(k: Kernels, m2_ab: real, m2_bc: real): (r: Complex)
      requires SqrtLaw(k) && PolesNonZero(k, P, a, b, c, R)
      requires DenominatorNonZero(k, m2_ab, m2_bc) && DenominatorNonZero(k, m2_bc, m2_ab)
    {
      Add(Value(k, m2_ab, m2_bc), Value(k, m2_bc, m2_ab))
    }
  }

  /**
   * Multiplying the amplitude by the Flatte denominator leaves the real factor
   * F_P F_R Z alone: the amplitude is that factor over the denominator.
   */
  lemma Flatte3TimesDenominator(k: Kernels, f: Flatte3, m2_ab: real, m2_bc: real)
    requires PolesNonZero(k, f.P, f.a, f.b, f.c, f.R)
    requires f.R.J == 1 || f.R.J == 2 ==> m2_ab != 0.0
    requires k.sqrt(m2_ab) != 0.0 && FlatteDenominator(k, f.R.m, m2_ab, f.G_pp, f.G_kk) != Zero
    ensures Mult(f.Amplitude(k, m2_ab, m2_bc), FlatteDenominator(k, f.R.m, m2_ab, f.G_pp, f.G_kk))
        == Complex(BarrierAngular(k, f.P, f.a, f.b, f.c, f.R, m2_ab, m2_bc), 0.0)
  {
    var d := FlatteDenominator(k, f.R.m, m2_ab, f.G_pp, f.G_kk);
    var t := FlatteValue(k, f.R.m, m2_ab, f.G_pp, f.G_kk);
    var x := BarrierAngular(k, f.P, f.a, f.b, f.c, f.R, m2_ab, m2_bc);
    MultAssociates(Complex(x, 0.0), t, d);
  }

  /** Below both the pi pi and the K K thresholds the Flatte amplitude is real. */
  lemma Flatte3ClosedChannelsReal(k: Kernels, f: Flatte3, m2_ab: real, m2_bc: real)
    requires SqrtLaw(k) && PolesNonZero(k, f.P, f.a, f.b, f.c, f.R) && f.DenominatorNonZero(k, m2_ab, m2_bc)
    requires k.complexP(m2_ab, Pion.m, Pion.m).re == 0.0 && k.complexP(m2_ab, Kaon.m, Kaon.m).re == 0.0
    ensures f.Value(k, m2_ab, m2_bc).im == 0.0
  {
    if ValidParticles(k, m2_ab, m2_bc, f.P, f.a, f.b, f.c) {
      ValidAwayFromZero(k, m2_ab, m2_bc, f.P.m2, f.a.m2, f.b.m2, f.c.m2);
      Flatte3ClosedChannelsRealInside(k, f, m2_ab, m2_bc);
    }
  }

  lemma Flatte3ClosedChannelsRealInside(k: Kernels, f: Flatte3, m2_ab: real, m2_bc: real)
    requires PolesNonZero(k, f.P, f.a, f.b, f.c, f.R)
    requires f.R.J == 1 || f.R.J == 2 ==> m2_ab != 0.0
    requires k.sqrt(m2_ab) != 0.0 && FlatteDenominator(k, f.R.m, m2_ab, f.G_pp, f.G_kk) != Zero
    requires k.complexP(m2_ab, Pion.m, Pion.m).re == 0.0 && k.complexP(m2_ab, Kaon.m, Kaon.m).re == 0.0
    ensures f.Amplitude(k, m2_ab, m2_bc).im == 0.0
  {
    FlatteClosedChannelsGiveReal(k, f.R.m, m2_ab, f.G_pp, f.G_kk);
  }

  /**
   * At an accepted point on the pole m2_ab == M_R^2 the Flatte amplitude is the
   * Flatte T_R scaled by the Zemach factor alone, and times the denominator it is Z.
   */
  lemma Flatte3AtPole(k: Kernels, f: Flatte3, m2_bc: real)
    requires SqrtLaw(k) && PolesNonZero(k, f.P, f.a, f.b, f.c, f.R) && f.R.m >= 0.0
    requires f.DenominatorNonZero(k, f.R.m2, m2_bc)
    requires ValidParticles(k, f.R.m2, m2_bc, f.P, f.a, f.b, f.c)
    ensures k.sqrt(f.R.m2) != 0.0 && FlatteDenominator(k, f.R.m, f.R.m2, f.G_pp, f.G_kk) != Zero
    ensures f.Value(k, f.R.m2, m2_bc)
        == Scale(ZemachSpin(f.R.J, f.R.m2, m2_bc, f.P.m, f.a, f.b, f.c), FlatteValue(k, f.R.m, f.R.m2, f.G_pp, f.G_kk))
    ensures Mult(f.Value(k, f.R.m2, m2_bc), FlatteDenominator(k, f.R.m, f.R.m2, f.G_pp, f.G_kk))
        == Complex(ZemachSpin(f.R.J, f.R.m2, m2_bc, f.P.m, f.a, f.b, f.c), 0.0)
  {
    var v := f.Value(k, f.R.m2, m2_bc);
    BarrierAngularAtPole(k, f.P, f.a, f.b, f.c, f.R, m2_bc);
    Flatte3TimesDenominator(k, f, f.R.m2, m2_bc);
  }

  /** value_sym is symmetric in its two arguments. */
  lemma Flatte3ValueSymSymmetric(k: Kernels, f: Flatte3, x: real, y: real)
    requires SqrtLaw(k) && PolesNonZero(k, f.P, f.a, f.b, f.c, f.R)
    requires f.DenominatorNonZero(k, x, y) && f.DenominatorNonZero(k, y, x)
    ensures f.ValueSym(k, x, y) == f.ValueSym(k, y, x)
  {
    AddCommutes(f.Value(k, x, y), f.Value(k, y, x));
  }
}
