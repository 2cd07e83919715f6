// The Python reference functions of lib/py_lib/fct.py: the Dalitz test
// valid, the breakup momenta, the Breit-Wigner propagator and the Zemach
// factors. Python's optional arguments m_b = -1 and m2_b = m2_c = -1 are
// ordinary parameters here; a negative value selects the default the
// function substitutes ("identical to a").
module PyReference {
  import opened RealArith
  import opened Wrappers
  import opened ComplexScalar
  import opened NumericKernels
  import opened Particles
  import opened Validity
  import opened Zemach

  /** A negative squared mass stands for "same as m2_a". */
  function DefaultTo(m2: real, m2_a: real): (r: real)
    ensures m2 >= 0.0 ==> r == m2
    ensures m2 < 0.0 ==> r == m2_a
  {
    if m2 < 0.0 then m2_a else m2
  }

  /**
   * valid(m2_ab, m2_bc, m2_p, m2_a, m2_b, m2_c): after substituting the
   * defaults it computes the band edges, E_b, E_c, P_b, P_c and the final
   * inequality with the same formulas as the C++ test. When sqrt(m2_ab) is 0
   * past the band test, numpy's E_b is 0/0 = nan and the final comparison is
   * false; that case is a rejection.
   */
  function PyValid(k: Kernels, m2_ab: real, m2_bc: real, m2_p: real, m2_a: real, m2_b: real, m2_c: real): (r: bool)
    ensures r ==> k.sqrt(m2_ab) != 0.0
  {
    var m2_b' := DefaultTo(m2_b, m2_a);
    var m2_c' := DefaultTo(m2_c, m2_a);
    if m2_ab < LowerEdge(k, m2_a, m2_b') || m2_ab > UpperEdge(k, m2_p, m2_c') then false
    else if k.sqrt(m2_ab) == 0.0 then false
    else DalitzTest(k, m2_ab, m2_bc, m2_p, m2_a, m2_b', m2_c')
  }

  /** The Python test and the C++ squared-mass overload agree once the defaults are substituted. */
  lemma PyValidAgreesWithCpp(k: Kernels, m2_ab: real, m2_bc: real, m2_p: real, m2_a: real, m2_b: real, m2_c: real)
    ensures PyValid(k, m2_ab, m2_bc, m2_p, m2_a, m2_b, m2_c)
         == ValidMasses(k, m2_ab, m2_bc, m2_p, m2_a, DefaultTo(m2_b, m2_a), DefaultTo(m2_c, m2_a))
  {}

  /** With b and c left at their default, the test is the one for three identical daughters. */
  lemma PyValidIdenticalDaughters(k: Kernels, m2_ab: real, m2_bc: real, m2_p: real, m2_a: real)
    ensures PyValid(k, m2_ab, m2_bc, m2_p, m2_a, -1.0, -1.0) == ValidMasses(k, m2_ab, m2_bc, m2_p, m2_a, m2_a, m2_a)
  {
    PyValidAgreesWithCpp(k, m2_ab, m2_bc, m2_p, m2_a, -1.0, -1.0);
  }

  /**
   * For physical masses and m2_ab > 0 the Python test accepts exactly the
   * Dalitz region: the band and DalitzMin <= m2_bc <= DalitzMax.
   */
  lemma PyValidIffInDalitzRegion(k: Kernels, m2_ab: real, m2_bc: real, m_p: real, m_a: real, m_b: real, m_c: real)
    requires SqrtLaw(k) && m_p >= 0.0 && m_a >= 0.0 && m_b >= 0.0 && m_c >= 0.0 && m2_ab > 0.0
    ensures k.sqrt(m2_ab) > 0.0
    ensures PyValid(k, m2_ab, m2_bc, Sq(m_p), Sq(m_a), Sq(m_b), Sq(m_c)) <==>
      (Sq(m_a + m_b) <= m2_ab <= Sq(m_p - m_c)
       && DalitzMin(k, m2_ab, Sq(m_p), Sq(m_a), Sq(m_b), Sq(m_c)) <= m2_bc
       && m2_bc <= DalitzMax(k, m2_ab, Sq(m_p), Sq(m_a), Sq(m_b), Sq(m_c)))
  {
    SqNonNegative(m_b);
    SqNonNegative(m_c);
    PyValidAgreesWithCpp(k, m2_ab, m2_bc, Sq(m_p), Sq(m_a), Sq(m_b), Sq(m_c));
    ValidMassesIffInDalitzRegion(k, m2_ab, m2_bc, m_p, m_a, m_b, m_c);
  }

  /**
   * breakup_momentum_p2(m2_R, m_a, m_b): the squared momentum of a and b in
   * the R rest frame; m_b < 0 stands for b identical to a.
   */
  function PyP2(m2_R: real, m_a: real, m_b: real): (r: real)
    requires m_b >= 0.0 ==> m2_R != 0.0
  {
    if m_b < 0.0 then m2_R / 4.0 - m_a * m_a
    else (m2_R - (m_a + m_b) * (m_a + m_b)) * (m2_R - (m_a - m_b) * (m_a - m_b)) / m2_R / 4.0
  }

  /** The identical-particle shortcut agrees with the general formula at m_b = m_a. */
  lemma PyP2IdenticalShortcut(m2_R: real, m_a: real, m_b: real)
    requires m_b < 0.0 && m_a >= 0.0 && m2_R != 0.0
    ensures PyP2(m2_R, m_a, m_b) == PyP2(m2_R, m_a, m_a)
  {
    calc {
      PyP2(m2_R, m_a, m_a);
      (m2_R - (m_a + m_a) * (m_a + m_a)) * m2_R / m2_R / 4.0;
      { assert (m2_R - (m_a + m_a) * (m_a + m_a)) * m2_R / m2_R == m2_R - 4.0 * (m_a * m_a); }
      m2_R / 4.0 - m_a * m_a;
    }
  }

  /** Between threshold and pseudo-threshold in the Kallen sense, (m_a + m_b)^2 <= m2_R, the squared momentum is non-negative; it is 0 at threshold. */
  lemma PyP2AboveThreshold(m2_R: real, m_a: real, m_b: real)
    requires m_a >= 0.0 && m_b >= 0.0 && Sq(m_a + m_b) <= m2_R && m2_R > 0.0
    ensures PyP2(m2_R, m_a, m_b) >= 0.0
    ensures m2_R == Sq(m_a + m_b) ==> PyP2(m2_R, m_a, m_b) == 0.0
  {
    var x := m2_R - Sq(m_a + m_b);
    var y := m2_R - Sq(m_a - m_b);
    assert Sq(m_a - m_b) <= Sq(m_a + m_b) by {
      assert Sq(m_a + m_b) - Sq(m_a - m_b) == 4.0 * Mul(m_a, m_b);
      ProductNonNegative(m_a, m_b);
    }
    ProductNonNegative(x, y);
    assert PyP2(m2_R, m_a, m_b) == Mul(x, y) / m2_R / 4.0;
  }

  /** breakup_momentum_r2(m2_N, m2_d, m_a, m_b): the ratio of the squared momenta at m2_N and at m2_d. */
  function PyR2(m2_N: real, m2_d: real, m_a: real, m_b: real): (r: real)
    requires m_b >= 0.0 ==> m2_N != 0.0 && m2_d != 0.0
    requires PyP2(m2_d, m_a, m_b) != 0.0
    ensures r * PyP2(m2_d, m_a, m_b) == PyP2(m2_N, m_a, m_b)
  {
    PyP2(m2_N, m_a, m_b) / PyP2(m2_d, m_a, m_b)
  }

  /** The ratio is 1 when numerator and denominator masses coincide. */
  lemma PyR2AtReference(m2: real, m_a: real, m_b: real)
    requires m_b >= 0.0 ==> m2 != 0.0
    requires PyP2(m2, m_a, m_b) != 0.0
    ensures PyR2(m2, m2, m_a, m_b) == 1.0
  {}

  /** breakup_momentum_complex_p(m2_R, m_a, m_b): sqrt(p2) above threshold, i sqrt(-p2) below. */
  function PyComplexP(k: Kernels, m2_R: real, m_a: real, m_b: real): (r: Complex)
    requires m_b >= 0.0 ==> m2_R != 0.0
    ensures r.re == 0.0 || r.im == 0.0
  {
    var p2 := PyP2(m2_R, m_a, m_b);
    if p2 >= 0.0 then Complex(k.sqrt(p2), 0.0) else Complex(0.0, k.sqrt(-p2))
  }

  /** The complex momentum squares to p2 on both sides of threshold. */
  lemma PyComplexPSquared(k: Kernels, m2_R: real, m_a: real, m_b: real)
    requires SqrtLaw(k) && (m_b >= 0.0 ==> m2_R != 0.0)
    ensures Mult(PyComplexP(k, m2_R, m_a, m_b), PyComplexP(k, m2_R, m_a, m_b)) == Complex(PyP2(m2_R, m_a, m_b), 0.0)
  {
    var p2 := PyP2(m2_R, m_a, m_b);
    if p2 >= 0.0 {
      SqrtOfSquareLaw(k, p2);
    } else {
      SqrtOfSquareLaw(k, -p2);
    }
  }

  lemma SqrtOfSquareLaw(k: Kernels, x: real)
    requires SqrtLaw(k) && x >= 0.0
    ensures k.sqrt(x) * k.sqrt(x) == x
  {}

  /** The denominator M_R^2 - m2_ab - i M_R width of the Breit-Wigner propagator. */
  function BreitWignerDenominator(M_R: real, m2_ab: real, width: real): Complex
  {
    Complex(M_R * M_R - m2_ab, -(M_R * width))
  }

  /** breit_wigner(M_R, m2_ab, width) = 1 / (M_R^2 - m2_ab - i M_R width). */
  function PyBreitWigner(M_R: real, m2_ab: real, width: real): (r: Complex)
    requires BreitWignerDenominator(M_R, m2_ab, width) != Zero
    ensures Mult(r, BreitWignerDenominator(M_R, m2_ab, width)) == One
  {
    Inverse(BreitWignerDenominator(M_R, m2_ab, width))
  }

  /** At the pole m2_ab = M_R^2 the propagator is purely imaginary: i / (M_R width). */
  lemma PyBreitWignerAtPole(M_R: real, width: real)
    requires M_R * width != 0.0
    ensures BreitWignerDenominator(M_R, M_R * M_R, width) != Zero
    ensures PyBreitWigner(M_R, M_R * M_R, width) == Complex(0.0, 1.0 / (M_R * width))
  {
    var d := BreitWignerDenominator(M_R, M_R * M_R, width);
    assert d == Complex(0.0, -(M_R * width));
    InverseUnique(d, Complex(0.0, 1.0 / (M_R * width)));
  }

  /** Away from the pole's width, a zero width makes the propagator the real 1 / (M_R^2 - m2_ab). */
  lemma PyBreitWignerZeroWidth(M_R: real, m2_ab: real)
    requires M_R * M_R - m2_ab != 0.0
    ensures BreitWignerDenominator(M_R, m2_ab, 0.0) != Zero
    ensures PyBreitWigner(M_R, m2_ab, 0.0) == Complex(1.0 / (M_R * M_R - m2_ab), 0.0)
  {
    assert BreitWignerDenominator(M_R, m2_ab, 0.0) == Complex(M_R * M_R - m2_ab, 0.0);
    InverseOfReal(M_R * M_R - m2_ab);
  }

  /**
   * zemach(J_R, m2_ab, m2_bc, m2_R, m2_a, m2_b, m2_c). J > 2 gives 0 and
   * J = 0 gives 1 before the defaults are substituted; J = 1 is the same
   * polynomial as the C++ factor, and J = 2 squares the J = 1 value. A
   * negative J falls off the end of the function, which returns None.
   */
  function PyZemach(J: int, m2_ab: real, m2_bc: real, m2_R: real, m2_a: real, m2_b: real, m2_c: real): (r: Option<real>)
    requires J == 1 || J == 2 ==> m2_ab != 0.0
    ensures r.None? <==> J < 0
    decreases if J == 2 then 1 else 0
  {
    if J > 2 then Some(0.0)
    else if J == 0 then Some(1.0)
    else
      var m2_b' := DefaultTo(m2_b, m2_a);
      var m2_c' := DefaultTo(m2_c, m2_a);
      if J == 1 then
        Some(ZemachP(m2_ab, m2_bc, m2_R, m2_a, m2_b', m2_c'))
      else if J == 2 then
        var z := PyZemach(1, m2_ab, m2_bc, m2_R, m2_a, m2_b', m2_c').value;
        Some(Sq(z) - ZemachDBrackets(m2_ab, m2_R, m2_a, m2_b', m2_c') / 3.0)
      else None
  }

  /** With b and c given, the Python D-wave factor is the squared P-wave factor minus a third of the brackets. */
  lemma PyZemachDWave(m2_ab: real, m2_bc: real, m2_R: real, m2_a: real, m2_b: real, m2_c: real)
    requires m2_ab != 0.0 && m2_b >= 0.0 && m2_c >= 0.0
    ensures PyZemach(2, m2_ab, m2_bc, m2_R, m2_a, m2_b, m2_c)
         == Some(Sq(ZemachP(m2_ab, m2_bc, m2_R, m2_a, m2_b, m2_c)) - ZemachDBrackets(m2_ab, m2_R, m2_a, m2_b, m2_c) / 3.0)
  {}

  /** For J in {0, 1} and J > 2 the Python and C++ factors agree on physical particles. */
  lemma PyZemachAgreesWithCpp(J: int, m2_ab: real, m2_bc: real, m2_R: real, a: Particle, b: Particle, c: Particle)
    requires J == 0 || J == 1 || J > 2
    requires J == 1 ==> m2_ab != 0.0
    ensures PyZemach(J, m2_ab, m2_bc, m2_R, a.m2, b.m2, c.m2) == Some(ZemachSpin(J, m2_ab, m2_bc, m2_R, a, b, c))
  {
    if J == 1 {
      assert b.m2 == Sq(b.m) && c.m2 == Sq(c.m);
      SqNonNegative(b.m);
      SqNonNegative(c.m);
    }
  }

  /**
   * For J = 2 the Python factor squares the P-wave term and the C++ factor
   * does not: they differ by Z1^2 - Z1, so they agree only where Z1 is 0 or 1.
   */
  lemma PyZemachDWaveVersusCpp(m2_ab: real, m2_bc: real, m2_R: real, a: Particle, b: Particle, c: Particle)
    requires m2_ab != 0.0
    ensures var z1 := ZemachSpin(1, m2_ab, m2_bc, m2_R, a, b, c);
      PyZemach(2, m2_ab, m2_bc, m2_R, a.m2, b.m2, c.m2).value
        == ZemachSpin(2, m2_ab, m2_bc, m2_R, a, b, c) + Sq(z1) - z1
  {
    assert b.m2 == Sq(b.m) && c.m2 == Sq(c.m);
    SqNonNegative(b.m);
    SqNonNegative(c.m);
    PyZemachDWave(m2_ab, m2_bc, m2_R, a.m2, b.m2, c.m2);
  }

  /**
   * The Python D-wave factor is even under exchanging a and b (with m2_bc and
   * m2_ac), as the textbook factor is; compare ZemachDWaveUnderExchange.
   */
  lemma PyZemachDWaveSymmetric(m2_ab: real, m2_bc: real, m2_ac: real, m2_R: real, m2_a: real, m2_b: real, m2_c: real)
    requires m2_ab != 0.0 && m2_a >= 0.0 && m2_b >= 0.0 && m2_c >= 0.0
    requires m2_ab + m2_bc + m2_ac == m2_R + m2_a + m2_b + m2_c
    ensures PyZemach(2, m2_ab, m2_ac, m2_R, m2_b, m2_a, m2_c) == PyZemach(2, m2_ab, m2_bc, m2_R, m2_a, m2_b, m2_c)
  {
    ZemachPAntisymmetric(m2_ab, m2_bc, m2_ac, m2_R, m2_a, m2_b, m2_c);
    ZemachDBracketsSymmetric(m2_ab, m2_R, m2_a, m2_b, m2_c);
    PyZemachDWave(m2_ab, m2_bc, m2_R, m2_a, m2_b, m2_c);
    PyZemachDWave(m2_ab, m2_ac, m2_R, m2_b, m2_a, m2_c);
    DWaveEven(ZemachP(m2_ab, m2_bc, m2_R, m2_a, m2_b, m2_c), ZemachP(m2_ab, m2_ac, m2_R, m2_b, m2_a, m2_c),
              ZemachDBrackets(m2_ab, m2_R, m2_a, m2_b, m2_c), ZemachDBrackets(m2_ab, m2_R, m2_b, m2_a, m2_c));
  }

  /** Z^2 - D/3 is unchanged when Z changes sign and D stays. */
  lemma DWaveEven(z: real, z': real, d: real, d': real)
    requires z' == -z && d' == d
    ensures Sq(z') - d' / 3.0 == Sq(z) - d / 3.0
  {}
}
