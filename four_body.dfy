// The four-body structs of lib/c_lib/structures/four_body/: flat_4 and the
// sequential chain P -> R_1 d -> R_2 c d -> a b c d (P_R1d_R2cd_abcd). A point
// of the five-dimensional phase space is (m2_12, m2_14, m2_23, m2_34, m2_13),
// where m2_ij is the invariant squared mass of the i-th and j-th final-state
// particles (a = 1, b = 2, c = 3, d = 4).
module FourBody {
  import opened RealArith
  import opened Wrappers
  import opened ComplexScalar
  import opened NumericKernels
  import opened Particles
  import opened Validity
  import opened Zemach
  import opened FormFactors

  /** m2_123 = m2_12 + m2_13 + m2_23 - m2_a - m2_b - m2_c, the invariant squared mass of a b c. */
  function M2_123(m2_12: real, m2_13: real, m2_23: real, a: Particle, b: Particle, c: Particle): real
  {
    m2_12 + m2_13 + m2_23 - a.m2 - b.m2 - c.m2
  }

  /**
   * m2_123 is the one squared mass M2 for which the three pair masses obey the
   * Dalitz sum rule of a decay M -> a b c: m2_12 + m2_13 + m2_23 == M2 + m2_a + m2_b + m2_c.
   */
  lemma M2_123SumRule(m2_12: real, m2_13: real, m2_23: real, a: Particle, b: Particle, c: Particle, M2: real)
    ensures M2_123(m2_12, m2_13, m2_23, a, b, c) == M2 <==> m2_12 + m2_13 + m2_23 == M2 + a.m2 + b.m2 + c.m2
  {}

  /** flat_4: the non-resonant four-body amplitude, 1 where valid_5d holds and 0 elsewhere. */
  datatype Flat4 = Flat4(P: Particle, R_1: Particle, R_2: Particle, a: Particle, b: Particle, c: Particle, d: Particle)
  {
    function Value(k: Kernels, m2_12: real, m2_14: real, m2_23: real, m2_34: real, m2_13: real): (r: Complex)
      ensures r.im == 0.0 && (r.re == 0.0 || r.re == 1.0)
      ensures r == One <==>
        Valid5d(k, m2_12, m2_14, m2_23, m2_34, m2_13, M2_123(m2_12, m2_13, m2_23, a, b, c), P, R_1, R_2, a, b, c, d)
    {
      var m2_123 := M2_123(m2_12, m2_13, m2_23, a, b, c);
      var res := Zero;
      if Valid5d(k, m2_12, m2_14, m2_23, m2_34, m2_13, m2_123, P, R_1, R_2, a, b, c, d) then res.(re := 1.0) else res
    }
  }

  /** flat_4 does not depend on m2_14. */
  lemma Flat4IgnoresM14(k: Kernels, f: Flat4, m2_12: real, m2_14: real, m2_14': real, m2_23: real, m2_34: real, m2_13: real)
    ensures f.Value(k, m2_12, m2_14, m2_23, m2_34, m2_13) == f.Value(k, m2_12, m2_14', m2_23, m2_34, m2_13)
  {
    var m2_123 := M2_123(m2_12, m2_13, m2_23, f.a, f.b, f.c);
    Valid5dIgnoresM14AndM13(k, m2_12, m2_14, m2_14', m2_23, m2_34, m2_13, m2_13, m2_123,
                            f.P, f.R_1, f.R_2, f.a, f.b, f.c, f.d);
  }

  /**
   * For physical particles and positive m2_12 and m2_123, flat_4 is 1 exactly
   * where P -> R_2 c d and R_1 -> a b c are both inside their Dalitz regions.
   */
  lemma Flat4IsRegionIndicator(k: Kernels, f: Flat4, m2_12: real, m2_14: real, m2_23: real, m2_34: real, m2_13: real)
    requires SqrtLaw(k) && Physical(f.P) && Physical(f.R_1) && Physical(f.R_2)
    requires Physical(f.a) && Physical(f.b) && Physical(f.c) && Physical(f.d)
    requires m2_12 > 0.0 && M2_123(m2_12, m2_13, m2_23, f.a, f.b, f.c) > 0.0
    ensures k.sqrt(m2_12) > 0.0 && k.sqrt(M2_123(m2_12, m2_13, m2_23, f.a, f.b, f.c)) > 0.0
    ensures var m2_123 := M2_123(m2_12, m2_13, m2_23, f.a, f.b, f.c);
      f.Value(k, m2_12, m2_14, m2_23, m2_34, m2_13) == One <==>
        (Sq(f.R_2.m + f.c.m) <= m2_123 <= Sq(f.P.m - f.d.m)
         && DalitzMin(k, m2_123, f.P.m2, f.R_2.m2, f.c.m2, f.d.m2) <= m2_34
         && m2_34 <= DalitzMax(k, m2_123, f.P.m2, f.R_2.m2, f.c.m2, f.d.m2)
         && Sq(f.a.m + f.b.m) <= m2_12 <= Sq(f.R_1.m - f.c.m)
         && DalitzMin(k, m2_12, f.R_1.m2, f.a.m2, f.b.m2, f.c.m2) <= m2_23
         && m2_23 <= DalitzMax(k, m2_12, f.R_1.m2, f.a.m2, f.b.m2, f.c.m2))
  {
    var m2_123 := M2_123(m2_12, m2_13, m2_23, f.a, f.b, f.c);
    Valid5dIffInBothRegions(k, m2_12, m2_14, m2_23, m2_34, m2_13, m2_123, f.P, f.R_1, f.R_2, f.a, f.b, f.c, f.d);
  }

  /** 1 + (3 + 4 z2) cos2_theta, the (1, 1, 0) Zemach factor of a pair (z2, cos2_theta). */
  function ChannelFactor(z2: real, cos2: real): real
  {
    1.0 + (3.0 + 4.0 * z2) * cos2
  }

  /** The intermediate kinematic quantities of the sequential chain at one point. */
  datatype ChainKinematics = ChainKinematics(
    m_12: real, m2_123: real, m_123: real,
    p2_c: real, p2_d: real, p2_b: real,
    e_c: real, e_d: real, e_b: real)

  /**
   * P_R1d_R2cd_abcd: P -> R_1 d with orbital momentum l_1, R_1 -> R_2 c with
   * l_2, R_2 -> a b with l_3, Breit-Wigner resonances R_1 and R_2 of widths
   * W_R_1 and W_R_2.
   */
  datatype SequentialChain = SequentialChain(
    P: Particle, a: Particle, b: Particle, c: Particle, d: Particle,
    l_1: int, l_2: int, l_3: int,
    R_1: Particle, R_2: Particle, W_R_1: real, W_R_2: real)
  {
    /** Masses, breakup momenta and energies the angular variables are built from. */
    function Kinematics(k: Kernels, m2_12: real, m2_23: real, m2_13: real): ChainKinematics
    {
      var m_12 := k.sqrt(m2_12);
      var m2_123 := M2_123(m2_12, m2_13, m2_23, a, b, c);
      var m_123 := k.sqrt(m2_123);
      var p2_c := k.p2(m2_123, m_12, c.m);
      var p2_d := k.p2(P.m2, m_123, d.m);
      var p2_b := k.p2(m2_12, a.m, b.m);
      ChainKinematics(m_12, m2_123, m_123, p2_c, p2_d, p2_b,
                      k.sqrt(c.m2 + p2_c), k.sqrt(d.m2 + p2_d), k.sqrt(b.m2 + p2_b))
    }

    /** Every quantity the source divides by is non-zero at this point. */
    predicate Defined(k: Kernels, m2_12: real, m2_23: real, m2_13: real)
    {
      var q := Kinematics(k, m2_12, m2_23, m2_13);
      && k.blattWeisskopf(l_1, P.r2, P.m2, R_1.m, d.m) != 0.0
      && k.blattWeisskopf(l_2, R_1.r2, R_1.m2, q.m_12, c.m) != 0.0
      && k.blattWeisskopf(l_3, R_2.r2, R_2.m2, a.m, b.m) != 0.0
      && q.p2_c != 0.0 && q.p2_d != 0.0 && q.p2_b != 0.0
      && q.m2_123 + d.m2 + 2.0 * q.m_123 * q.e_d != 0.0
      && m2_12 + c.m2 + 2.0 * q.m_12 * q.e_c != 0.0
    }

    /** F_P F_R_1 F_R_2, the three Blatt-Weisskopf ratios of the chain. */
    function Barriers(k: Kernels, m2_12: real, m2_23: real, m2_13: real): real
      requires Defined(k, m2_12, m2_23, m2_13)
    {
      var q := Kinematics(k, m2_12, m2_23, m2_13);
      var f_P := FormFactorP(k, l_1, P.r2, P.m2, q.m_123, R_1.m, d.m);
      var f_R_1 := k.blattWeisskopf(l_2, R_1.r2, q.m2_123, q.m_12, c.m) / k.blattWeisskopf(l_2, R_1.r2, R_1.m2, q.m_12, c.m);
      var f_R_2 := FormFactorR(k, l_3, R_2.r2, m2_12, R_2.m2, a.m, b.m);
      f_P * f_R_1 * f_R_2
    }

    /** T_R_1: Breit-Wigner of R_1 at m2_123 (its width receives m2_12 and c.m2 in the daughter-mass slots, as in the source). */
    function PropagatorR1(k: Kernels, m2_12: real, m2_23: real, m2_13: real): Complex
    {
      var q := Kinematics(k, m2_12, m2_23, m2_13);
      var width := k.relativisticWidth(R_1.m, W_R_1, l_2, R_1.r, q.m2_123, m2_12, c.m2);
      k.breitWigner(R_1.m, q.m2_123, width)
    }

    /** T_R_2: Breit-Wigner of R_2 at m2_12 (its width receives a.m2 and b.m2 in the daughter-mass slots, as in the source). */
    function PropagatorR2(k: Kernels, m2_12: real): Complex
    {
      var width := k.relativisticWidth(R_2.m, W_R_2, l_3, R_2.r, m2_12, a.m2, b.m2);
      k.breitWigner(R_2.m, m2_12, width)
    }

    /** (z2, cos2_theta) of P -> R_1 d: cos2 = (p_c.p_d)^2 / p2_c / p2_d, z2 = p2_d / (m2_123 + m2_d + 2 m_123 E_d). */
    function AnglesP(k: Kernels, m2_12: real, m2_23: real, m2_34: real, m2_13: real): (real, real)
      requires Defined(k, m2_12, m2_23, m2_13)
    {
      var q := Kinematics(k, m2_12, m2_23, m2_13);
      var p_c_dot_p_d := (-0.5) * (m2_34 - c.m2 - d.m2 - 2.0 * q.e_c * q.e_d);
      var cos2 := p_c_dot_p_d * p_c_dot_p_d / q.p2_c / q.p2_d;
      var s := q.m2_123 + d.m2 + 2.0 * q.m_123 * q.e_d;
      (q.p2_d / s, cos2)
    }

    /** (z2, cos2_theta) of R_1 -> R_2 c: cos2 = (p_b.p_c)^2 / p2_b / p2_c, z2 = p2_c / (m2_12 + m2_c + 2 m_12 E_c). */
    function AnglesR1(k: Kernels, m2_12: real, m2_23: real, m2_13: real): (real, real)
      requires Defined(k, m2_12, m2_23, m2_13)
    {
      var q := Kinematics(k, m2_12, m2_23, m2_13);
      var p_b_dot_p_c := (-0.5) * (m2_23 - b.m2 - c.m2 - 2.0 * q.e_b * q.e_c);
      var cos2 := p_b_dot_p_c * p_b_dot_p_c / q.p2_b / q.p2_c;
      var s := m2_12 + c.m2 + 2.0 * q.m_12 * q.e_c;
      (q.p2_c / s, cos2)
    }

    /** Both Zemach factors are assigned: the only triple the source fills in is (1, 1, 0). */
    predicate ZemachAssigned()
    {
      P.J == 1 && R_1.J == 1 && l_1 == 0 && R_2.J == 1 && l_2 == 0
    }

    /** F_P F_R_1 Z_1 F_R_2 Z_2, the real factor of the amplitude. */
    function RealFactor(k: Kernels, m2_12: real, m2_23: real, m2_34: real, m2_13: real): real
      requires Defined(k, m2_12, m2_23, m2_13) && ZemachAssigned()
    {
      var angles_1 := AnglesP(k, m2_12, m2_23, m2_34, m2_13);
      var angles_2 := AnglesR1(k, m2_12, m2_23, m2_13);
      Mul(Mul(Barriers(k, m2_12, m2_23, m2_13),
              ZemachChannel(P.J, R_1.J, l_1, angles_1.0, angles_1.1).value),
          ZemachChannel(R_1.J, R_2.J, l_2, angles_2.0, angles_2.1).value)
    }

    /**
     * value(m2_12, m2_14, m2_23, m2_34, m2_13): F_P F_R_1 Z_1 F_R_2 Z_2 times
     * T_R_1 T_R_2, with no phase-space gate. Z_1 is zemach(P.J, R_1.J, l_1, ...)
     * and Z_2 is zemach(R_1.J, R_2.J, l_2, ...); when either is unassigned in
     * the source the amplitude is None.
     */
    function Value(k: Kernels, m2_12: real, m2_14: real, m2_23: real, m2_34: real, m2_13: real): (r: Option<Complex>)
      requires Defined(k, m2_12, m2_23, m2_13)
      ensures r.Some? <==> ZemachAssigned()
      ensures r.Some? ==>
        r.value == Scale(RealFactor(k, m2_12, m2_23, m2_34, m2_13),
                         Mult(PropagatorR1(k, m2_12, m2_23, m2_13), PropagatorR2(k, m2_12)))
    {
      var angles_1 := AnglesP(k, m2_12, m2_23, m2_34, m2_13);
      var angles_2 := AnglesR1(k, m2_12, m2_23, m2_13);
      var z_1 := ZemachChannel(P.J, R_1.J, l_1, angles_1.0, angles_1.1);
      var z_2 := ZemachChannel(R_1.J, R_2.J, l_2, angles_2.0, angles_2.1);
      if z_1.None? || z_2.None? then None
      else
        var t := Mult(PropagatorR1(k, m2_12, m2_23, m2_13), PropagatorR2(k, m2_12));
        Some(Scale(RealFactor(k, m2_12, m2_23, m2_34, m2_13), t))
    }
  }

  /** The chain amplitude does not depend on m2_14. */
  lemma ChainIgnoresM14(k: Kernels, ch: SequentialChain, m2_12: real, m2_14: real, m2_14': real, m2_23: real, m2_34: real, m2_13: real)
    requires ch.Defined(k, m2_12, m2_23, m2_13)
    ensures ch.Value(k, m2_12, m2_14, m2_23, m2_34, m2_13) == ch.Value(k, m2_12, m2_14', m2_23, m2_34, m2_13)
  {}

  /**
   * A spin-0 parent (such as the D meson) never reaches an assigned Zemach
   * factor Z_1, so the chain amplitude is undefined for it everywhere.
   */
  lemma ChainUndefinedForSpinZeroParent(k: Kernels, ch: SequentialChain, m2_12: real, m2_14: real, m2_23: real, m2_34: real, m2_13: real)
    requires ch.Defined(k, m2_12, m2_23, m2_13) && ch.P.J == 0
    ensures ch.Value(k, m2_12, m2_14, m2_23, m2_34, m2_13) == None
  {}

  /** With both channels (1, 1, 0), each Zemach factor is 1 + (3 + 4 z2) cos2_theta of its own angles. */
  lemma ChainRealFactorForm(k: Kernels, ch: SequentialChain, m2_12: real, m2_23: real, m2_34: real, m2_13: real)
    requires ch.Defined(k, m2_12, m2_23, m2_13) && ch.ZemachAssigned()
    ensures var angles_1 := ch.AnglesP(k, m2_12, m2_23, m2_34, m2_13);
      var angles_2 := ch.AnglesR1(k, m2_12, m2_23, m2_13);
      ch.RealFactor(k, m2_12, m2_23, m2_34, m2_13)
        == Mul(Mul(ch.Barriers(k, m2_12, m2_23, m2_13), ChannelFactor(angles_1.0, angles_1.1)),
               ChannelFactor(angles_2.0, angles_2.1))
  {
    var angles_1 := ch.AnglesP(k, m2_12, m2_23, m2_34, m2_13);
    var angles_2 := ch.AnglesR1(k, m2_12, m2_23, m2_13);
    AssignedChannel(angles_1.0, angles_1.1);
    AssignedChannel(angles_2.0, angles_2.1);
  }

  lemma AssignedChannel(z2: real, cos2: real)
    ensures ZemachChannel(1, 1, 0, z2, cos2) == Some(ChannelFactor(z2, cos2))
  {}

  /** Where it is defined, the chain intensity factorises: |A|^2 == (F_P F_R_1 Z_1 F_R_2 Z_2)^2 |T_R_1|^2 |T_R_2|^2. */
  lemma ChainIntensity(k: Kernels, ch: SequentialChain, m2_12: real, m2_14: real, m2_23: real, m2_34: real, m2_13: real)
    requires ch.Defined(k, m2_12, m2_23, m2_13) && ch.ZemachAssigned()
    ensures ch.Value(k, m2_12, m2_14, m2_23, m2_34, m2_13).Some?
    ensures Abs2(ch.Value(k, m2_12, m2_14, m2_23, m2_34, m2_13).value)
        == Sq(ch.RealFactor(k, m2_12, m2_23, m2_34, m2_13))
           * (Abs2(ch.PropagatorR1(k, m2_12, m2_23, m2_13)) * Abs2(ch.PropagatorR2(k, m2_12)))
  {
    var x := ch.RealFactor(k, m2_12, m2_23, m2_34, m2_13);
    var t1, t2 := ch.PropagatorR1(k, m2_12, m2_23, m2_13), ch.PropagatorR2(k, m2_12);
    Abs2Scale(x, Mult(t1, t2));
    Abs2Mult(t1, t2);
  }
}
