// Phase-space validity (lib/c_lib/fct/valid.hpp): whether a Dalitz point
// (m2_ab, m2_bc) of the decay p -> a b c is kinematically allowed.
//
// The test first rejects m2_ab outside the two-body band, then computes the
// energies of b and c in the ab rest frame, E_b = (m2_ab - m2_a + m2_b) / (2 m_ab)
// and E_c = (m2_p - m2_ab - m2_c) / (2 m_ab), their momenta
// P = sqrt(E^2 - m^2), and accepts iff |m2_bc - m2_b - m2_c - 2 E_b E_c| <= 2 P_b P_c.
module Validity {
  import opened RealArith
  import opened NumericKernels
  import opened Particles

  /** The lower edge of the band, m2_a + m2_b + 2 sqrt(m2_a m2_b). */
  function LowerEdge(k: Kernels, m2_a: real, m2_b: real): real
  {
    m2_a + m2_b + 2.0 * k.sqrt(m2_a * m2_b)
  }

  /** The upper edge of the band, m2_p + m2_c - 2 sqrt(m2_p m2_c). */
  function UpperEdge(k: Kernels, m2_p: real, m2_c: real): real
  {
    m2_p + m2_c - 2.0 * k.sqrt(m2_p * m2_c)
  }

  /** Energy of b in the ab rest frame. */
  function EnergyB(k: Kernels, m2_ab: real, m2_a: real, m2_b: real): real
    requires k.sqrt(m2_ab) != 0.0
  {
    (m2_ab - m2_a + m2_b) / 2.0 / k.sqrt(m2_ab)
  }

  /** Energy of c in the ab rest frame. */
  function EnergyC(k: Kernels, m2_ab: real, m2_p: real, m2_c: real): real
    requires k.sqrt(m2_ab) != 0.0
  {
    (m2_p - m2_ab - m2_c) / 2.0 / k.sqrt(m2_ab)
  }

  /** Momentum of b in the ab rest frame, sqrt(E_b^2 - m2_b). */
  function MomentumB(k: Kernels, m2_ab: real, m2_a: real, m2_b: real): real
    requires k.sqrt(m2_ab) != 0.0
  {
    var e_b := EnergyB(k, m2_ab, m2_a, m2_b);
    k.sqrt(e_b * e_b - m2_b)
  }

  /** Momentum of c in the ab rest frame, sqrt(E_c^2 - m2_c). */
  function MomentumC(k: Kernels, m2_ab: real, m2_p: real, m2_c: real): real
    requires k.sqrt(m2_ab) != 0.0
  {
    var e_c := EnergyC(k, m2_ab, m2_p, m2_c);
    k.sqrt(e_c * e_c - m2_c)
  }

  /** The final inequality of valid, |m2_bc - m2_b - m2_c - 2 E_b E_c| <= 2 P_b P_c. */
  function DalitzTest(k: Kernels, m2_ab: real, m2_bc: real, m2_p: real, m2_a: real, m2_b: real, m2_c: real): bool
    requires k.sqrt(m2_ab) != 0.0
  {
    var e_b := EnergyB(k, m2_ab, m2_a, m2_b);
    var e_c := EnergyC(k, m2_ab, m2_p, m2_c);
    var p_b := MomentumB(k, m2_ab, m2_a, m2_b);
    var p_c := MomentumC(k, m2_ab, m2_p, m2_c);
    Abs(m2_bc - m2_b - m2_c - 2.0 * e_b * e_c) <= 2.0 * p_b * p_c
  }

  /** The textbook lower boundary of the Dalitz plot at m2_ab, (E_b + E_c)^2 - (P_b + P_c)^2. */
  function DalitzMin(k: Kernels, m2_ab: real, m2_p: real, m2_a: real, m2_b: real, m2_c: real): real
    requires k.sqrt(m2_ab) != 0.0
  {
    var e := EnergyB(k, m2_ab, m2_a, m2_b) + EnergyC(k, m2_ab, m2_p, m2_c);
    Sq(e) - Sq(MomentumB(k, m2_ab, m2_a, m2_b) + MomentumC(k, m2_ab, m2_p, m2_c))
  }

  /** The textbook upper boundary of the Dalitz plot at m2_ab, (E_b + E_c)^2 - (P_b - P_c)^2. */
  function DalitzMax(k: Kernels, m2_ab: real, m2_p: real, m2_a: real, m2_b: real, m2_c: real): real
    requires k.sqrt(m2_ab) != 0.0
  {
    var e := EnergyB(k, m2_ab, m2_a, m2_b) + EnergyC(k, m2_ab, m2_p, m2_c);
    Sq(e) - Sq(MomentumB(k, m2_ab, m2_a, m2_b) - MomentumC(k, m2_ab, m2_p, m2_c))
  }

  /**
   * valid(m2_ab, m2_bc, m2_p, m2_a, m2_b, m2_c), the overload on squared masses.
   * A zero sqrt(m2_ab) after the band test (only possible for massless a and b,
   * where the source computes 0/0) is a rejection.
   */
  function ValidMasses(k: Kernels, m2_ab: real, m2_bc: real, m2_p: real, m2_a: real, m2_b: real, m2_c: real): (r: bool)
    ensures r ==> LowerEdge(k, m2_a, m2_b) <= m2_ab <= UpperEdge(k, m2_p, m2_c)
    ensures r ==> k.sqrt(m2_ab) != 0.0 && DalitzTest(k, m2_ab, m2_bc, m2_p, m2_a, m2_b, m2_c)
  {
    if m2_ab < LowerEdge(k, m2_a, m2_b) || m2_ab > UpperEdge(k, m2_p, m2_c) then false
    else if k.sqrt(m2_ab) == 0.0 then false
    else DalitzTest(k, m2_ab, m2_bc, m2_p, m2_a, m2_b, m2_c)
  }

  /**
   * valid(m2_ab, m2_bc, p, a, b, c), the overload on particle records. The
   * source repeats the squared-mass overload's body on the particles' cached
   * squares; here it is defined once, so the two agree by construction.
   */
  function ValidParticles(k: Kernels, m2_ab: real, m2_bc: real, p: Particle, a: Particle, b: Particle, c: Particle): bool
  {
    ValidMasses(k, m2_ab, m2_bc, p.m2, a.m2, b.m2, c.m2)
  }

  /** Inside the band (and away from m_ab = 0) the answer is the Dalitz inequality alone. */
  lemma InsideBandDecidedByDalitzTest(k: Kernels, m2_ab: real, m2_bc: real, m2_p: real, m2_a: real, m2_b: real, m2_c: real)
    requires LowerEdge(k, m2_a, m2_b) <= m2_ab <= UpperEdge(k, m2_p, m2_c)
    requires k.sqrt(m2_ab) != 0.0
    ensures ValidMasses(k, m2_ab, m2_bc, m2_p, m2_a, m2_b, m2_c) == DalitzTest(k, m2_ab, m2_bc, m2_p, m2_a, m2_b, m2_c)
  {}

  /** An accepted point never has m2_ab == 0, so formulas dividing by m2_ab are defined there. */
  lemma ValidAwayFromZero(k: Kernels, m2_ab: real, m2_bc: real, m2_p: real, m2_a: real, m2_b: real, m2_c: real)
    requires SqrtLaw(k) && ValidMasses(k, m2_ab, m2_bc, m2_p, m2_a, m2_b, m2_c)
    ensures m2_ab != 0.0
  {
    SqrtZero(k);
  }

  /** sqrt(x^2 y^2) == x y for non-negative x and y. */
  lemma SqrtOfSquaredProduct(k: Kernels, x: real, y: real)
    requires SqrtLaw(k) && x >= 0.0 && y >= 0.0
    ensures k.sqrt(Sq(x) * Sq(y)) == Mul(x, y)
  {
    ProductNonNegative(x, y);
    assert Sq(x) * Sq(y) == Sq(Mul(x, y));
    SqrtOfSquare(k, Mul(x, y));
  }

  /** For non-negative masses the lower edge is the threshold (m_a + m_b)^2. */
  lemma LowerEdgeIsThreshold(k: Kernels, m_a: real, m_b: real)
    requires SqrtLaw(k) && m_a >= 0.0 && m_b >= 0.0
    ensures LowerEdge(k, Sq(m_a), Sq(m_b)) == Sq(m_a + m_b)
  {
    SqrtOfSquaredProduct(k, m_a, m_b);
  }

  /** For non-negative masses the upper edge is (m_p - m_c)^2. */
  lemma UpperEdgeIsPseudoThreshold(k: Kernels, m_p: real, m_c: real)
    requires SqrtLaw(k) && m_p >= 0.0 && m_c >= 0.0
    ensures UpperEdge(k, Sq(m_p), Sq(m_c)) == Sq(m_p - m_c)
  {
    SqrtOfSquaredProduct(k, m_p, m_c);
  }

  /** Outside the band every point is rejected. */
  lemma OutsideBandRejected(k: Kernels, m2_ab: real, m2_bc: real, m2_p: real, m2_a: real, m2_b: real, m2_c: real)
    requires m2_ab < LowerEdge(k, m2_a, m2_b) || m2_ab > UpperEdge(k, m2_p, m2_c)
    ensures !ValidMasses(k, m2_ab, m2_bc, m2_p, m2_a, m2_b, m2_c)
  {}

  /** A point below the threshold (m_a + m_b)^2 is rejected. */
  lemma BelowThresholdRejected(k: Kernels, m2_ab: real, m2_bc: real, p: Particle, a: Particle, b: Particle, c: Particle)
    requires SqrtLaw(k) && Physical(a) && Physical(b)
    requires m2_ab < Sq(a.m + b.m)
    ensures !ValidParticles(k, m2_ab, m2_bc, p, a, b, c)
  {
    assert a.m2 == Sq(a.m) && b.m2 == Sq(b.m);
    LowerEdgeIsThreshold(k, a.m, b.m);
    OutsideBandRejected(k, m2_ab, m2_bc, p.m2, a.m2, b.m2, c.m2);
  }

  /** A point above (m_p - m_c)^2 is rejected. */
  lemma AbovePseudoThresholdRejected(k: Kernels, m2_ab: real, m2_bc: real, p: Particle, a: Particle, b: Particle, c: Particle)
    requires SqrtLaw(k) && Physical(p) && Physical(c)
    requires m2_ab > Sq(p.m - c.m)
    ensures !ValidParticles(k, m2_ab, m2_bc, p, a, b, c)
  {
    assert p.m2 == Sq(p.m) && c.m2 == Sq(c.m);
    UpperEdgeIsPseudoThreshold(k, p.m, c.m);
    OutsideBandRejected(k, m2_ab, m2_bc, p.m2, a.m2, b.m2, c.m2);
  }

  /** The threshold itself passes the band test: the answer is the Dalitz inequality. */
  lemma ThresholdPassesBand(k: Kernels, m2_bc: real, p: Particle, a: Particle, b: Particle, c: Particle)
    requires SqrtLaw(k) && Physical(a) && Physical(b) && Physical(p) && Physical(c)
    requires Sq(a.m + b.m) <= Sq(p.m - c.m) && a.m + b.m > 0.0
    ensures k.sqrt(Sq(a.m + b.m)) != 0.0
    ensures ValidParticles(k, Sq(a.m + b.m), m2_bc, p, a, b, c)
        == DalitzTest(k, Sq(a.m + b.m), m2_bc, p.m2, a.m2, b.m2, c.m2)
  {
    assert a.m2 == Sq(a.m) && b.m2 == Sq(b.m) && p.m2 == Sq(p.m) && c.m2 == Sq(c.m);
    LowerEdgeIsThreshold(k, a.m, b.m);
    UpperEdgeIsPseudoThreshold(k, p.m, c.m);
    SqrtOfSquare(k, a.m + b.m);
    SqPositive(a.m + b.m);
    InsideBandDecidedByDalitzTest(k, Sq(a.m + b.m), m2_bc, p.m2, a.m2, b.m2, c.m2);
  }

  lemma HalfQuotient(n: real, w: real)
    requires w != 0.0
    ensures Mul(n / 2.0 / w, 2.0 * w) == n
  {}

  /** Kallen factorisation for the b radicand. */
  lemma KallenB(s: real, x: real, y: real)
    ensures Sq(s - Sq(x) + Sq(y)) - 4.0 * s * Sq(y) == Mul(s - Sq(x + y), s - Sq(x - y))
  {}

  /** Kallen factorisation for the c radicand. */
  lemma KallenC(s: real, x: real, y: real)
    ensures Sq(Sq(x) - s - Sq(y)) - 4.0 * s * Sq(y) == Mul(s - Sq(x + y), s - Sq(x - y))
  {}

  lemma RadicandTimesFourS(e: real, w: real, n: real, m2: real)
    requires Mul(e, 2.0 * w) == n
    ensures Mul(Sq(e) - m2, 4.0 * Sq(w)) == Sq(n) - 4.0 * Sq(w) * m2
  {
    calc {
      Mul(Sq(e) - m2, 4.0 * Sq(w));
      Sq(Mul(e, 2.0 * w)) - 4.0 * Sq(w) * m2;
    }
  }

  lemma NonNegativeFactor(x: real, y: real)
    requires y > 0.0 && Mul(x, y) >= 0.0
    ensures x >= 0.0
  {
    if x < 0.0 {
      ProductNegative(x, y);
    }
  }

  /**
   * Above the threshold (m_a + m_b)^2 the energy of b is at least its mass,
   * so the square root taken for P_b has a non-negative argument.
   */
  lemma RadicandBNonNegative(k: Kernels, s: real, m_a: real, m_b: real)
    requires SqrtLaw(k) && m_a >= 0.0 && m_b >= 0.0
    requires Sq(m_a + m_b) <= s && s > 0.0
    ensures k.sqrt(s) > 0.0
    ensures Sq(EnergyB(k, s, Sq(m_a), Sq(m_b))) >= Sq(m_b)
  {
    SqrtPositive(k, s);
    var w := k.sqrt(s);
    var e := EnergyB(k, s, Sq(m_a), Sq(m_b));
    var n := s - Sq(m_a) + Sq(m_b);
    HalfQuotient(n, w);
    RadicandTimesFourS(e, w, n, Sq(m_b));
    KallenB(s, m_a, m_b);
    ProductNonNegative(m_a, m_b);
    assert Sq(m_a + m_b) - Sq(m_a - m_b) == 4.0 * Mul(m_a, m_b);
    ProductNonNegative(s - Sq(m_a + m_b), s - Sq(m_a - m_b));
    NonNegativeFactor(Sq(e) - Sq(m_b), 4.0 * Sq(w));
  }

  /**
   * Below (m_p - m_c)^2 the energy of c is at least its mass, so the square
   * root taken for P_c has a non-negative argument.
   */
  lemma RadicandCNonNegative(k: Kernels, s: real, m_p: real, m_c: real)
    requires SqrtLaw(k) && m_p >= 0.0 && m_c >= 0.0
    requires s <= Sq(m_p - m_c) && s > 0.0
    ensures k.sqrt(s) > 0.0
    ensures Sq(EnergyC(k, s, Sq(m_p), Sq(m_c))) >= Sq(m_c)
  {
    SqrtPositive(k, s);
    var w := k.sqrt(s);
    var e := EnergyC(k, s, Sq(m_p), Sq(m_c));
    var n := Sq(m_p) - s - Sq(m_c);
    HalfQuotient(n, w);
    RadicandTimesFourS(e, w, n, Sq(m_c));
    KallenC(s, m_p, m_c);
    ProductNonNegative(m_p, m_c);
    assert Sq(m_p + m_c) - Sq(m_p - m_c) == 4.0 * Mul(m_p, m_c);
    ProductNonNegative(s - Sq(m_p + m_c), s - Sq(m_p - m_c));
    NonNegativeFactor(Sq(e) - Sq(m_c), 4.0 * Sq(w));
  }

  /**
   * Where both momenta are real, the inequality of valid is the textbook
   * Dalitz boundary: m2_bc lies between DalitzMin and DalitzMax.
   */
  lemma DalitzTestIsRange(k: Kernels, m2_ab: real, m2_bc: real, m2_p: real, m2_a: real, m2_b: real, m2_c: real)
    requires SqrtLaw(k) && k.sqrt(m2_ab) != 0.0
    requires Sq(EnergyB(k, m2_ab, m2_a, m2_b)) >= m2_b
    requires Sq(EnergyC(k, m2_ab, m2_p, m2_c)) >= m2_c
    ensures DalitzTest(k, m2_ab, m2_bc, m2_p, m2_a, m2_b, m2_c)
        <==> DalitzMin(k, m2_ab, m2_p, m2_a, m2_b, m2_c) <= m2_bc <= DalitzMax(k, m2_ab, m2_p, m2_a, m2_b, m2_c)
  {
    var e_b := EnergyB(k, m2_ab, m2_a, m2_b);
    var e_c := EnergyC(k, m2_ab, m2_p, m2_c);
    var p_b := MomentumB(k, m2_ab, m2_a, m2_b);
    var p_c := MomentumC(k, m2_ab, m2_p, m2_c);
    assert Sq(e_b) == e_b * e_b && Sq(e_c) == e_c * e_c;
    assert Sq(p_b) == Sq(e_b) - m2_b && Sq(p_c) == Sq(e_c) - m2_c;
    assert Sq(e_b + e_c) - Sq(p_b + p_c) == m2_b + m2_c + 2.0 * e_b * e_c - 2.0 * p_b * p_c;
    assert Sq(e_b + e_c) - Sq(p_b - p_c) == m2_b + m2_c + 2.0 * e_b * e_c + 2.0 * p_b * p_c;
  }

  /** The two boundaries are ordered: DalitzMax - DalitzMin == 4 P_b P_c >= 0. */
  lemma DalitzMinBelowMax(k: Kernels, m2_ab: real, m2_p: real, m2_a: real, m2_b: real, m2_c: real)
    requires SqrtLaw(k) && k.sqrt(m2_ab) != 0.0
    requires Sq(EnergyB(k, m2_ab, m2_a, m2_b)) >= m2_b
    requires Sq(EnergyC(k, m2_ab, m2_p, m2_c)) >= m2_c
    ensures DalitzMin(k, m2_ab, m2_p, m2_a, m2_b, m2_c) <= DalitzMax(k, m2_ab, m2_p, m2_a, m2_b, m2_c)
  {
    var e_b := EnergyB(k, m2_ab, m2_a, m2_b);
    var e_c := EnergyC(k, m2_ab, m2_p, m2_c);
    var p_b := MomentumB(k, m2_ab, m2_a, m2_b);
    var p_c := MomentumC(k, m2_ab, m2_p, m2_c);
    assert Sq(e_b) == e_b * e_b && Sq(e_c) == e_c * e_c;
    ProductNonNegative(p_b, p_c);
    assert Sq(p_b + p_c) - Sq(p_b - p_c) == 4.0 * Mul(p_b, p_c);
  }

  /** ValidIffInDalitzRegion on the masses themselves. */
  lemma ValidMassesIffInDalitzRegion(k: Kernels, m2_ab: real, m2_bc: real, m_p: real, m_a: real, m_b: real, m_c: real)
    requires SqrtLaw(k) && m_p >= 0.0 && m_a >= 0.0 && m_b >= 0.0 && m_c >= 0.0
    requires m2_ab > 0.0
    ensures k.sqrt(m2_ab) > 0.0
    ensures ValidMasses(k, m2_ab, m2_bc, Sq(m_p), Sq(m_a), Sq(m_b), Sq(m_c)) <==>
      (Sq(m_a + m_b) <= m2_ab <= Sq(m_p - m_c)
       && DalitzMin(k, m2_ab, Sq(m_p), Sq(m_a), Sq(m_b), Sq(m_c)) <= m2_bc
       && m2_bc <= DalitzMax(k, m2_ab, Sq(m_p), Sq(m_a), Sq(m_b), Sq(m_c)))
  {
    SqrtPositive(k, m2_ab);
    LowerEdgeIsThreshold(k, m_a, m_b);
    UpperEdgeIsPseudoThreshold(k, m_p, m_c);
    if Sq(m_a + m_b) <= m2_ab <= Sq(m_p - m_c) {
      RadicandBNonNegative(k, m2_ab, m_a, m_b);
      RadicandCNonNegative(k, m2_ab, m_p, m_c);
      InsideBandDecidedByDalitzTest(k, m2_ab, m2_bc, Sq(m_p), Sq(m_a), Sq(m_b), Sq(m_c));
      DalitzTestIsRange(k, m2_ab, m2_bc, Sq(m_p), Sq(m_a), Sq(m_b), Sq(m_c));
    } else {
      OutsideBandRejected(k, m2_ab, m2_bc, Sq(m_p), Sq(m_a), Sq(m_b), Sq(m_c));
    }
  }

  /**
   * For physical particles and m2_ab > 0, valid accepts exactly the points of
   * the Dalitz region: (m_a + m_b)^2 <= m2_ab <= (m_p - m_c)^2 and
   * DalitzMin <= m2_bc <= DalitzMax.
   */
  lemma ValidIffInDalitzRegion(k: Kernels, m2_ab: real, m2_bc: real, p: Particle, a: Particle, b: Particle, c: Particle)
    requires SqrtLaw(k) && Physical(p) && Physical(a) && Physical(b) && Physical(c)
    requires m2_ab > 0.0
    ensures k.sqrt(m2_ab) > 0.0
    ensures ValidParticles(k, m2_ab, m2_bc, p, a, b, c) <==>
      (Sq(a.m + b.m) <= m2_ab <= Sq(p.m - c.m)
       && DalitzMin(k, m2_ab, p.m2, a.m2, b.m2, c.m2) <= m2_bc <= DalitzMax(k, m2_ab, p.m2, a.m2, b.m2, c.m2))
  {
    assert a.m2 == Sq(a.m) && b.m2 == Sq(b.m) && p.m2 == Sq(p.m) && c.m2 == Sq(c.m);
    ValidMassesIffInDalitzRegion(k, m2_ab, m2_bc, p.m, a.m, b.m, c.m);
  }

  /**
   * valid_5d for P -> R_1 d -> R_2 c d -> a b c d: the three-body check of
   * P -> R_2 c d on (m2_123, m2_34), then the check of R_1 -> a b c on
   * (m2_12, m2_23). As in the source, the first check uses the pole value
   * R_2.m2 for the ab system, and m2_14 and m2_13 are never read.
   */
  function Valid5d(k: Kernels, m2_12: real, m2_14: real, m2_23: real, m2_34: real, m2_13: real, m2_123: real,
                   P: Particle, R_1: Particle, R_2: Particle, a: Particle, b: Particle, c: Particle, d: Particle): (r: bool)
    ensures !ValidMasses(k, m2_123, m2_34, P.m2, R_2.m2, c.m2, d.m2) ==> !r
    ensures !ValidMasses(k, m2_12, m2_23, R_1.m2, a.m2, b.m2, c.m2) ==> !r
  {
    if !ValidMasses(k, m2_123, m2_34, P.m2, R_2.m2, c.m2, d.m2) then false
    else if !ValidMasses(k, m2_12, m2_23, R_1.m2, a.m2, b.m2, c.m2) then false
    else true
  }

  /** valid_5d holds exactly when both three-body checks pass. */
  lemma Valid5dIffBothChecks(k: Kernels, m2_12: real, m2_14: real, m2_23: real, m2_34: real, m2_13: real, m2_123: real,
                             P: Particle, R_1: Particle, R_2: Particle, a: Particle, b: Particle, c: Particle, d: Particle)
    ensures Valid5d(k, m2_12, m2_14, m2_23, m2_34, m2_13, m2_123, P, R_1, R_2, a, b, c, d)
        <==> ValidParticles(k, m2_123, m2_34, P, R_2, c, d) && ValidParticles(k, m2_12, m2_23, R_1, a, b, c)
  {}

  /** valid_5d does not depend on m2_14 or m2_13. */
  lemma Valid5dIgnoresM14AndM13(k: Kernels, m2_12: real, m2_14: real, m2_14': real, m2_23: real, m2_34: real,
                                m2_13: real, m2_13': real, m2_123: real,
                                P: Particle, R_1: Particle, R_2: Particle, a: Particle, b: Particle, c: Particle, d: Particle)
    ensures Valid5d(k, m2_12, m2_14, m2_23, m2_34, m2_13, m2_123, P, R_1, R_2, a, b, c, d)
        == Valid5d(k, m2_12, m2_14', m2_23, m2_34, m2_13', m2_123, P, R_1, R_2, a, b, c, d)
  {}

  /**
   * For physical particles and positive invariants, valid_5d accepts exactly
   * the points lying in both Dalitz regions.
   */
  lemma Valid5dIffInBothRegions(k: Kernels, m2_12: real, m2_14: real, m2_23: real, m2_34: real, m2_13: real, m2_123: real,
                                P: Particle, R_1: Particle, R_2: Particle, a: Particle, b: Particle, c: Particle, d: Particle)
    requires SqrtLaw(k) && Physical(P) && Physical(R_1) && Physical(R_2)
    requires Physical(a) && Physical(b) && Physical(c) && Physical(d)
    requires m2_123 > 0.0 && m2_12 > 0.0
    ensures k.sqrt(m2_123) > 0.0 && k.sqrt(m2_12) > 0.0
    ensures Valid5d(k, m2_12, m2_14, m2_23, m2_34, m2_13, m2_123, P, R_1, R_2, a, b, c, d) <==>
      (Sq(R_2.m + c.m) <= m2_123 <= Sq(P.m - d.m)
       && DalitzMin(k, m2_123, P.m2, R_2.m2, c.m2, d.m2) <= m2_34 <= DalitzMax(k, m2_123, P.m2, R_2.m2, c.m2, d.m2)
       && Sq(a.m + b.m) <= m2_12 <= Sq(R_1.m - c.m)
       && DalitzMin(k, m2_12, R_1.m2, a.m2, b.m2, c.m2) <= m2_23 <= DalitzMax(k, m2_12, R_1.m2, a.m2, b.m2, c.m2))
  {
    ValidIffInDalitzRegion(k, m2_123, m2_34, P, R_2, c, d);
    ValidIffInDalitzRegion(k, m2_12, m2_23, R_1, a, b, c);
  }
}
