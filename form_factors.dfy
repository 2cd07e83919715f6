// The Blatt-Weisskopf ratios every resonance struct multiplies by: the barrier
// factor at the running mass divided by the same factor at the pole.
module FormFactors {
  import opened NumericKernels

  /**
   * F_P, the form factor of P -> R c: blatt_weisskopf(J, r2_P, m2_P, m_ab, m_c)
   * over blatt_weisskopf(J, r2_P, m2_P, M_R, m_c).
   */
  function FormFactorP(k: Kernels, J: int, r2_P: real, m2_P: real, m_ab: real, M_R: real, m_c: real): real
    requires k.blattWeisskopf(J, r2_P, m2_P, M_R, m_c) != 0.0
  {
    k.blattWeisskopf(J, r2_P, m2_P, m_ab, m_c) / k.blattWeisskopf(J, r2_P, m2_P, M_R, m_c)
  }

  /**
   * F_R, the form factor of R -> a b: blatt_weisskopf(J, r2_R, m2_ab, m_a, m_b)
   * over blatt_weisskopf(J, r2_R, M2_R, m_a, m_b).
   */
  function FormFactorR(k: Kernels, J: int, r2_R: real, m2_ab: real, M2_R: real, m_a: real, m_b: real): real
    requires k.blattWeisskopf(J, r2_R, M2_R, m_a, m_b) != 0.0
  {
    k.blattWeisskopf(J, r2_R, m2_ab, m_a, m_b) / k.blattWeisskopf(J, r2_R, M2_R, m_a, m_b)
  }

  /** F_P is normalised to 1 at the pole m_ab == M_R. */
  lemma FormFactorPAtPole(k: Kernels, J: int, r2_P: real, m2_P: real, M_R: real, m_c: real)
    requires k.blattWeisskopf(J, r2_P, m2_P, M_R, m_c) != 0.0
    ensures FormFactorP(k, J, r2_P, m2_P, M_R, M_R, m_c) == 1.0
  {}

  /** F_R is normalised to 1 at the pole m2_ab == M2_R. */
  lemma FormFactorRAtPole(k: Kernels, J: int, r2_R: real, M2_R: real, m_a: real, m_b: real)
    requires k.blattWeisskopf(J, r2_R, M2_R, m_a, m_b) != 0.0
    ensures FormFactorR(k, J, r2_R, M2_R, M2_R, m_a, m_b) == 1.0
  {}

  /** Multiplying F_P back by the pole factor recovers the running barrier factor. */
  lemma FormFactorPScales(k: Kernels, J: int, r2_P: real, m2_P: real, m_ab: real, M_R: real, m_c: real)
    requires k.blattWeisskopf(J, r2_P, m2_P, M_R, m_c) != 0.0
    ensures FormFactorP(k, J, r2_P, m2_P, m_ab, M_R, m_c) * k.blattWeisskopf(J, r2_P, m2_P, M_R, m_c)
        == k.blattWeisskopf(J, r2_P, m2_P, m_ab, m_c)
  {}

  /** Multiplying F_R back by the pole factor recovers the running barrier factor. */
  lemma FormFactorRScales(k: Kernels, J: int, r2_R: real, m2_ab: real, M2_R: real, m_a: real, m_b: real)
    requires k.blattWeisskopf(J, r2_R, M2_R, m_a, m_b) != 0.0
    ensures FormFactorR(k, J, r2_R, m2_ab, M2_R, m_a, m_b) * k.blattWeisskopf(J, r2_R, M2_R, m_a, m_b)
        == k.blattWeisskopf(J, r2_R, m2_ab, m_a, m_b)
  {}
}
