// The older resonance structs of lib/c_lib/structures/struct_resonances.hpp:
// reson_base holds a resonance's spin, mass and radius with cached squares;
// breit_wigner and flatte extend it and are evaluated on particles passed
// in at each call instead of stored ones.
module StructResonances {
  import opened RealArith
  import opened ComplexScalar
  import opened NumericKernels
  import opened Particles
  import opened Validity
  import opened Zemach
  import opened FormFactors
  import opened FlattePropagator
  import ThreeBody

  datatype ResonBaseRecord = ResonBaseRecord(J: int, M: real, M2: real, R: real, R2: real)

  /** reson_base: the cached squares always agree with the mass and the radius. */
  type ResonBase = r: ResonBaseRecord | r.M2 == r.M * r.M && r.R2 == r.R * r.R
    witness ResonBaseRecord(0, 0.0, 0.0, 0.0, 0.0)

  /** The constructor reson_base(J, M, R): J, M and R are stored exactly as given. */
  function NewResonBase(J: int, M: real, R: real): (r: ResonBase)
    ensures r.J == J && r.M == M && r.R == R
  {
    ResonBaseRecord(J, M, M * M, R, R * R)
  }

  /** The particle record with the same spin, mass and radius as a reson_base. */
  function AsParticle(base: ResonBase): (p: Particle)
    ensures p.J == base.J && p.m == base.M && p.m2 == base.M2 && p.r == base.R && p.r2 == base.R2
  {
    ParticleRecord(base.M, base.M2, base.R, base.R2, base.J)
  }

  /** The pole Blatt-Weisskopf factors the structs divide by are non-zero. */
  predicate PolesNonZero(k: Kernels, base: ResonBase, p: Particle, a: Particle, b: Particle, c: Particle)
  {
    k.blattWeisskopf(base.J, p.r2, p.m2, base.M, c.m) != 0.0 && k.blattWeisskopf(base.J, base.R2, base.M2, a.m, b.m) != 0.0
  }

  /** F_P F_R Z, with p.m (a mass, not a squared mass) in Zemach's m2_R slot, as in the source. */
  function BarrierAngular(k: Kernels, base: ResonBase, m2_ab: real, m2_bc: real, p: Particle, a: Particle, b: Particle, c: Particle): real
    requires PolesNonZero(k, base, p, a, b, c)
    requires base.J == 1 || base.J == 2 ==> m2_ab != 0.0
  {
    var m_ab := k.sqrt(m2_ab);
    var f_P := FormFactorP(k, base.J, p.r2, p.m2, m_ab, base.M, c.m);
    var f_R := FormFactorR(k, base.J, base.R2, m2_ab, base.M2, a.m, b.m);
    Mul(Mul(f_P, f_R), ZemachSpin(base.J, m2_ab, m2_bc, p.m, a, b, c))
  }

  /** The source's componentwise order x t z equals scaling t by x z, as the newer structs do. */
  lemma ScaleLast(x: real, z: real, t: Complex)
    ensures Complex(Mul(Mul(x, t.re), z), Mul(Mul(x, t.im), z)) == Scale(Mul(x, z), t)
  {}

  /** F_P F_R Z of a reson_base is the three-body product of the particle with the same spin, mass and radius. */
  lemma BarrierAngularAgrees(k: Kernels, base: ResonBase, m2_ab: real, m2_bc: real, p: Particle, a: Particle, b: Particle, c: Particle)
    requires PolesNonZero(k, base, p, a, b, c)
    requires base.J == 1 || base.J == 2 ==> m2_ab != 0.0
    ensures ThreeBody.PolesNonZero(k, p, a, b, c, AsParticle(base))
    ensures BarrierAngular(k, base, m2_ab, m2_bc, p, a, b, c) == ThreeBody.BarrierAngular(k, p, a, b, c, AsParticle(base), m2_ab, m2_bc)
  {}

  /** breit_wigner: a reson_base with a width W. */
  datatype BreitWigner = BreitWigner(base: ResonBase, W: real)
  {
    /** T_R: the Breit-Wigner propagator at m2_ab with the relativistic running width. */
    function Propagator(k: Kernels, m2_ab: real, a: Particle, b: Particle): Complex
    {
      var width := k.relativisticWidth(base.M, W, base.J, base.R, m2_ab, a.m, b.m);
      k.breitWigner(base.M, m2_ab, width)
    }

    /** The amplitude inside the Dalitz plot: each component of T_R is scaled by F_P F_R and Z. */
    function Amplitude(k: Kernels, m2_ab: real, m2_bc: real, p: Particle, a: Particle, b: Particle, c: Particle): Complex
      requires PolesNonZero(k, base, p, a, b, c)
      requires base.J == 1 || base.J == 2 ==> m2_ab != 0.0
    {
      var m_ab := k.sqrt(m2_ab);
      var f_P := FormFactorP(k, base.J, p.r2, p.m2, m_ab, base.M, c.m);
      var f_R := FormFactorR(k, base.J, base.R2, m2_ab, base.M2, a.m, b.m);
      var t_R := Propagator(k, m2_ab, a, b);
      var z := ZemachSpin(base.J, m2_ab, m2_bc, p.m, a, b, c);
      Complex(Mul(Mul(Mul(f_P, f_R), t_R.re), z), Mul(Mul(Mul(f_P, f_R), t_R.im), z))
    }

    /**
     * value(m2_ab, m2_bc, p, a, b, c): (0, 0) outside the Dalitz plot; inside,
     * where m2_ab is never zero, T_R scaled by F_P F_R Z.
     */
    function Value(k: Kernels, m2_ab: real, m2_bc: real, p: Particle, a: Particle, b: Particle, c: Particle): (r: Complex)
      requires SqrtLaw(k) && PolesNonZero(k, base, p, a, b, c)
      ensures !ValidParticles(k, m2_ab, m2_bc, p, a, b, c) ==> r == Zero
      ensures ValidParticles(k, m2_ab, m2_bc, p, a, b, c) ==>
        m2_ab != 0.0 && r == Scale(BarrierAngular(k, base, m2_ab, m2_bc, p, a, b, c), Propagator(k, m2_ab, a, b))
    {
      if ValidParticles(k, m2_ab, m2_bc, p, a, b, c) then
        ValidAwayFromZero(k, m2_ab, m2_bc, p.m2, a.m2, b.m2, c.m2);
        BreitWignerIsScaledPropagator(k, this, m2_ab, m2_bc, p, a, b, c);
        Amplitude(k, m2_ab, m2_bc, p, a, b, c)
      else
        Zero
    }

    /** value_sym(m2_ab, m2_bc, p, a, b, c). */
    function ValueSym(k: Kernels, m2_ab: real, m2_bc: real, p: Particle, a: Particle, b: Particle, c: Particle): (r: Complex)
      requires SqrtLaw(k) && PolesNonZero(k, base, p, a, b, c)
    {
      Add(Value(k, m2_ab, m2_bc, p, a, b, c), Value(k, m2_bc, m2_ab, p, a, b, c))
    }
  }

  /** The componentwise formula is the real factor F_P F_R Z times T_R. */
  lemma BreitWignerIsScaledPropagator(k: Kernels, bw: BreitWigner, m2_ab: real, m2_bc: real, p: Particle, a: Particle, b: Particle, c: Particle)
    requires PolesNonZero(k, bw.base, p, a, b, c)
    requires bw.base.J == 1 || bw.base.J == 2 ==> m2_ab != 0.0
    ensures bw.Amplitude(k, m2_ab, m2_bc, p, a, b, c)
        == Scale(BarrierAngular(k, bw.base, m2_ab, m2_bc, p, a, b, c), bw.Propagator(k, m2_ab, a, b))
  {
    var f_P := FormFactorP(k, bw.base.J, p.r2, p.m2, k.sqrt(m2_ab), bw.base.M, c.m);
    var f_R := FormFactorR(k, bw.base.J, bw.base.R2, m2_ab, bw.base.M2, a.m, b.m);
    var t_R := bw.Propagator(k, m2_ab, a, b);
    var z := ZemachSpin(bw.base.J, m2_ab, m2_bc, p.m, a, b, c);
    ScaleLast(Mul(f_P, f_R), z, t_R);
  }

  /**
   * The older breit_wigner agrees with the three-body breit_wigner built from
   * the same particles and a resonance particle with the same spin, mass and
   * radius.
   */
  lemma BreitWignerAgreesWithThreeBody(k: Kernels, bw: BreitWigner, m2_ab: real, m2_bc: real, p: Particle, a: Particle, b: Particle, c: Particle)
    requires SqrtLaw(k) && PolesNonZero(k, bw.base, p, a, b, c)
    ensures ThreeBody.PolesNonZero(k, p, a, b, c, AsParticle(bw.base))
    ensures bw.Value(k, m2_ab, m2_bc, p, a, b, c)
        == ThreeBody.BreitWigner3(p, a, b, c, AsParticle(bw.base), bw.W).Value(k, m2_ab, m2_bc)
  {
    if ValidParticles(k, m2_ab, m2_bc, p, a, b, c) {
      ValidAwayFromZero(k, m2_ab, m2_bc, p.m2, a.m2, b.m2, c.m2);
      BreitWignerAgreeInside(k, bw, m2_ab, m2_bc, p, a, b, c);
    }
  }

  lemma BreitWignerAgreeInside(k: Kernels, bw: BreitWigner, m2_ab: real, m2_bc: real, p: Particle, a: Particle, b: Particle, c: Particle)
    requires PolesNonZero(k, bw.base, p, a, b, c)
    requires bw.base.J == 1 || bw.base.J == 2 ==> m2_ab != 0.0
    ensures ThreeBody.PolesNonZero(k, p, a, b, c, AsParticle(bw.base))
    ensures bw.Amplitude(k, m2_ab, m2_bc, p, a, b, c)
        == Scale(ThreeBody.BarrierAngular(k, p, a, b, c, AsParticle(bw.base), m2_ab, m2_bc),
                 ThreeBody.BreitWigner3(p, a, b, c, AsParticle(bw.base), bw.W).Propagator(k, m2_ab))
  {
    BreitWignerIsScaledPropagator(k, bw, m2_ab, m2_bc, p, a, b, c);
    BarrierAngularAgrees(k, bw.base, m2_ab, m2_bc, p, a, b, c);
  }

  /** value_sym is symmetric in its two Dalitz arguments. */
  lemma BreitWignerValueSymSymmetric(k: Kernels, bw: BreitWigner, x: real, y: real, p: Particle, a: Particle, b: Particle, c: Particle)
    requires SqrtLaw(k) && PolesNonZero(k, bw.base, p, a, b, c)
    ensures bw.ValueSym(k, x, y, p, a, b, c) == bw.ValueSym(k, y, x, p, a, b, c)
  {
    AddCommutes(bw.Value(k, x, y, p, a, b, c), bw.Value(k, y, x, p, a, b, c));
  }

  /** flatte: a reson_base with couplings G_pp and G_kk. */
  datatype Flatte = Flatte(base: ResonBase, G_pp: real, G_kk: real)
  {
    /** The Flatte denominator the source inverts is non-zero at every accepted point. */
    predicate DenominatorNonZero(k: Kernels, m2_ab: real, m2_bc: real, p: Particle, a: Particle, b: Particle, c: Particle)
    {
      ValidParticles(k, m2_ab, m2_bc, p, a, b, c) ==> FlatteDenominator(k, base.M, m2_ab, G_pp, G_kk) != Zero
    }

    /** The amplitude inside the Dalitz plot: each component of the Flatte T_R is scaled by F_P F_R and Z. */
    function Amplitude(k: Kernels, m2_ab: real, m2_bc: real, p: Particle, a: Particle, b: Particle, c: Particle): Complex
      requires PolesNonZero(k, base, p, a, b, c)
      requires base.J == 1 || base.J == 2 ==> m2_ab != 0.0
      requires k.sqrt(m2_ab) != 0.0 && FlatteDenominator(k, base.M, m2_ab, G_pp, G_kk) != Zero
    {
      var m_ab := k.sqrt(m2_ab);
      var f_P := FormFactorP(k, base.J, p.r2, p.m2, m_ab, base.M, c.m);
      var f_R := FormFactorR(k, base.J, base.R2, m2_ab, base.M2, a.m, b.m);
      var t_R := FlatteValue(k, base.M, m2_ab, G_pp, G_kk);
      var z := ZemachSpin(base.J, m2_ab, m2_bc, p.m, a, b, c);
      Complex(Mul(Mul(Mul(f_P, f_R), t_R.re), z), Mul(Mul(Mul(f_P, f_R), t_R.im), z))
    }

    /**
     * value(m2_ab, m2_bc, p, a, b, c): (0, 0) outside the Dalitz plot; inside,
     * where m2_ab and its square root are never zero, the Flatte T_R scaled by F_P F_R Z.
     */
    function Value(k: Kernels, m2_ab: real, m2_bc: real, p: Particle, a: Particle, b: Particle, c: Particle): (r: Complex)
      requires SqrtLaw(k) && PolesNonZero(k, base, p, a, b, c) && DenominatorNonZero(k, m2_ab, m2_bc, p, a, b, c)
      ensures !ValidParticles(k, m2_ab, m2_bc, p, a, b, c) ==> r == Zero
      ensures ValidParticles(k, m2_ab, m2_bc, p, a, b, c) ==>
        m2_ab != 0.0 && k.sqrt(m2_ab) != 0.0
        && r == Scale(BarrierAngular(k, base, m2_ab, m2_bc, p, a, b, c), FlatteValue(k, base.M, m2_ab, G_pp, G_kk))
    {
      if ValidParticles(k, m2_ab, m2_bc, p, a, b, c) then
        ValidAwayFromZero(k, m2_ab, m2_bc, p.m2, a.m2, b.m2, c.m2);
        FlatteIsScaledPropagator(k, this, m2_ab, m2_bc, p, a, b, c);
        Amplitude(k, m2_ab, m2_bc, p, a, b, c)
      else
        Zero
    }

    /** value_sym(m2_ab, m2_bc, p, a, b, c). */
    function ValueSym(k: Kernels, m2_ab: real, m2_bc: real, p: Particle, a: Particle, b: Particle, c: Particle): (r: Complex)
      requires SqrtLaw(k) && PolesNonZero(k, base, p, a, b, c)
      requires DenominatorNonZero(k, m2_ab, m2_bc, p, a, b, c) && DenominatorNonZero(k, m2_bc, m2_ab, p, a, b, c)
    {
      Add(Value(k, m2_ab, m2_bc, p, a, b, c), Value(k, m2_bc, m2_ab, p, a, b, c))
    }
  }

  /** The componentwise formula is F_P F_R Z times the Flatte propagator. */
  lemma FlatteIsScaledPropagator(k: Kernels, f: Flatte, m2_ab: real, m2_bc: real, p: Particle, a: Particle, b: Particle, c: Particle)
    requires PolesNonZero(k, f.base, p, a, b, c)
    requires f.base.J == 1 || f.base.J == 2 ==> m2_ab != 0.0
    requires k.sqrt(m2_ab) != 0.0 && FlatteDenominator(k, f.base.M, m2_ab, f.G_pp, f.G_kk) != Zero
    ensures f.Amplitude(k, m2_ab, m2_bc, p, a, b, c)
        == Scale(BarrierAngular(k, f.base, m2_ab, m2_bc, p, a, b, c), FlatteValue(k, f.base.M, m2_ab, f.G_pp, f.G_kk))
  {
    var f_P := FormFactorP(k, f.base.J, p.r2, p.m2, k.sqrt(m2_ab), f.base.M, c.m);
    var f_R := FormFactorR(k, f.base.J, f.base.R2, m2_ab, f.base.M2, a.m, b.m);
    var t_R := FlatteValue(k, f.base.M, m2_ab, f.G_pp, f.G_kk);
    var z := ZemachSpin(f.base.J, m2_ab, m2_bc, p.m, a, b, c);
    ScaleLast(Mul(f_P, f_R), z, t_R);
  }

  /** The older flatte agrees with the three-body flatte built from the same data. */
  lemma FlatteAgreesWithThreeBody(k: Kernels, f: Flatte, m2_ab: real, m2_bc: real, p: Particle, a: Particle, b: Particle, c: Particle)
    requires SqrtLaw(k) && PolesNonZero(k, f.base, p, a, b, c) && f.DenominatorNonZero(k, m2_ab, m2_bc, p, a, b, c)
    ensures ThreeBody.PolesNonZero(k, p, a, b, c, AsParticle(f.base))
    ensures ThreeBody.Flatte3(p, a, b, c, AsParticle(f.base), f.G_pp, f.G_kk).DenominatorNonZero(k, m2_ab, m2_bc)
    ensures f.Value(k, m2_ab, m2_bc, p, a, b, c)
        == ThreeBody.Flatte3(p, a, b, c, AsParticle(f.base), f.G_pp, f.G_kk).Value(k, m2_ab, m2_bc)
  {
    if ValidParticles(k, m2_ab, m2_bc, p, a, b, c) {
      ValidAwayFromZero(k, m2_ab, m2_bc, p.m2, a.m2, b.m2, c.m2);
      FlatteAgreeInside(k, f, m2_ab, m2_bc, p, a, b, c);
    }
  }

  lemma FlatteAgreeInside(k: Kernels, f: Flatte, m2_ab: real, m2_bc: real, p: Particle, a: Particle, b: Particle, c: Particle)
    requires PolesNonZero(k, f.base, p, a, b, c)
    requires f.base.J == 1 || f.base.J == 2 ==> m2_ab != 0.0
    requires k.sqrt(m2_ab) != 0.0 && FlatteDenominator(k, f.base.M, m2_ab, f.G_pp, f.G_kk) != Zero
    ensures ThreeBody.PolesNonZero(k, p, a, b, c, AsParticle(f.base))
    ensures f.Amplitude(k, m2_ab, m2_bc, p, a, b, c)
        == Scale(ThreeBody.BarrierAngular(k, p, a, b, c, AsParticle(f.base), m2_ab, m2_bc),
                 FlatteValue(k, f.base.M, m2_ab, f.G_pp, f.G_kk))
  {
    FlatteIsScaledPropagator(k, f, m2_ab, m2_bc, p, a, b, c);
    BarrierAngularAgrees(k, f.base, m2_ab, m2_bc, p, a, b, c);
  }

  /** value_sym is symmetric in its two Dalitz arguments. */
  lemma FlatteValueSymSymmetric(k: Kernels, f: Flatte, x: real, y: real, p: Particle, a: Particle, b: Particle, c: Particle)
    requires SqrtLaw(k) && PolesNonZero(k, f.base, p, a, b, c)
    requires f.DenominatorNonZero(k, x, y, p, a, b, c) && f.DenominatorNonZero(k, y, x, p, a, b, c)
    ensures f.ValueSym(k, x, y, p, a, b, c) == f.ValueSym(k, y, x, p, a, b, c)
  {
    AddCommutes(f.Value(k, x, y, p, a, b, c), f.Value(k, y, x, p, a, b, c));
  }
}
