// Zemach angular factors (lib/c_lib/fct/zemach.hpp).
//
// The spin-J overload is the polynomial of 'The Physics of the B Factories',
// eq. (13.2.6), in the Dalitz variables; the (J, j, l) overload is the
// channel-by-channel table of the covariant tensor formalism, of which the
// source fills in only one guard.
module Zemach {
  import opened RealArith
  import opened Wrappers
  import opened Particles

  /** The P-wave factor: m2_R + m2_a + m2_b + m2_c - m2_ab - 2 m2_bc - (m2_R - m2_c)(m2_a - m2_b) / m2_ab. */
  function ZemachP(m2_ab: real, m2_bc: real, m2_R: real, m2_a: real, m2_b: real, m2_c: real): real
    requires m2_ab != 0.0
  {
    m2_R + m2_a + m2_b + m2_c - m2_ab - 2.0 * m2_bc - (m2_R - m2_c) * (m2_a - m2_b) / m2_ab
  }

  /** The product of the two brackets the D-wave factor subtracts a third of. */
  function ZemachDBrackets(m2_ab: real, m2_R: real, m2_a: real, m2_b: real, m2_c: real): real
    requires m2_ab != 0.0
  {
    (m2_ab - 2.0 * m2_R - 2.0 * m2_c + (m2_R - m2_c) * (m2_R - m2_c) / m2_ab)
      * (m2_ab - 2.0 * m2_a - 2.0 * m2_b + (m2_a - m2_b) * (m2_a - m2_b) / m2_ab)
  }

  /**
   * zemach(J, m2_ab, m2_bc, m2_R, a, b, c). J = 2 calls the J = 1 case
   * recursively and, unlike the textbook formula, does not square it. The
   * divisions by m2_ab are only reached for J = 1 and J = 2.
   */
  function ZemachSpin(J: int, m2_ab: real, m2_bc: real, m2_R: real, a: Particle, b: Particle, c: Particle): real
    requires J == 1 || J == 2 ==> m2_ab != 0.0
    decreases if J == 2 then 1 else 0
  {
    if J == 0 then 1.0
    else if J == 1 then ZemachP(m2_ab, m2_bc, m2_R, a.m2, b.m2, c.m2)
    else if J == 2 then
      ZemachSpin(1, m2_ab, m2_bc, m2_R, a, b, c) - ZemachDBrackets(m2_ab, m2_R, a.m2, b.m2, c.m2) / 3.0
    else 0.0
  }

  /** The S-wave factor is 1 for every point. */
  lemma ZemachSWaveIsOne(m2_ab: real, m2_bc: real, m2_R: real, a: Particle, b: Particle, c: Particle)
    ensures ZemachSpin(0, m2_ab, m2_bc, m2_R, a, b, c) == 1.0
  {}

  /** Spins outside {0, 1, 2} give 0. */
  lemma ZemachHigherSpinIsZero(J: int, m2_ab: real, m2_bc: real, m2_R: real, a: Particle, b: Particle, c: Particle)
    requires J < 0 || J > 2
    ensures ZemachSpin(J, m2_ab, m2_bc, m2_R, a, b, c) == 0.0
  {}

  /** With equal daughter masses a and b the P-wave factor is a polynomial: the division term vanishes. */
  lemma ZemachPEqualMasses(m2_ab: real, m2_bc: real, m2_R: real, a: Particle, b: Particle, c: Particle)
    requires m2_ab != 0.0 && a.m2 == b.m2
    ensures ZemachSpin(1, m2_ab, m2_bc, m2_R, a, b, c) == m2_R + 2.0 * a.m2 + c.m2 - m2_ab - 2.0 * m2_bc
  {
    assert (m2_R - c.m2) * (a.m2 - b.m2) == 0.0;
  }

  /**
   * The P-wave factor is odd under exchanging a and b: with m2_ac the third
   * Dalitz variable (m2_ab + m2_bc + m2_ac == m2_R + m2_a + m2_b + m2_c),
   * exchanging a with b and m2_bc with m2_ac flips its sign.
   */
  lemma ZemachPAntisymmetric(m2_ab: real, m2_bc: real, m2_ac: real, m2_R: real, m2_a: real, m2_b: real, m2_c: real)
    requires m2_ab != 0.0
    requires m2_ab + m2_bc + m2_ac == m2_R + m2_a + m2_b + m2_c
    ensures ZemachP(m2_ab, m2_ac, m2_R, m2_b, m2_a, m2_c) == -ZemachP(m2_ab, m2_bc, m2_R, m2_a, m2_b, m2_c)
  {
    assert (m2_R - m2_c) * (m2_b - m2_a) / m2_ab == -((m2_R - m2_c) * (m2_a - m2_b) / m2_ab);
  }

  /** The D-wave brackets are even under exchanging a and b. */
  lemma ZemachDBracketsSymmetric(m2_ab: real, m2_R: real, m2_a: real, m2_b: real, m2_c: real)
    requires m2_ab != 0.0
    ensures ZemachDBrackets(m2_ab, m2_R, m2_b, m2_a, m2_c) == ZemachDBrackets(m2_ab, m2_R, m2_a, m2_b, m2_c)
  {
    assert (m2_b - m2_a) * (m2_b - m2_a) == (m2_a - m2_b) * (m2_a - m2_b);
  }

  /**
   * Because the P-wave factor is not squared, the D-wave factor is not even
   * under exchanging a and b (with m2_bc and m2_ac): it moves by twice the
   * P-wave factor.
   */
  lemma ZemachDWaveUnderExchange(m2_ab: real, m2_bc: real, m2_ac: real, m2_R: real, a: Particle, b: Particle, c: Particle)
    requires m2_ab != 0.0
    requires m2_ab + m2_bc + m2_ac == m2_R + a.m2 + b.m2 + c.m2
    ensures ZemachSpin(2, m2_ab, m2_ac, m2_R, b, a, c)
        == ZemachSpin(2, m2_ab, m2_bc, m2_R, a, b, c) - 2.0 * ZemachSpin(1, m2_ab, m2_bc, m2_R, a, b, c)
  {
    ZemachPAntisymmetric(m2_ab, m2_bc, m2_ac, m2_R, a.m2, b.m2, c.m2);
    ZemachDBracketsSymmetric(m2_ab, m2_R, a.m2, b.m2, c.m2);
  }

  /**
   * zemach(J, j, l, z2, cos2_theta). All three guards test (J, j, l) == (1, 1, 0),
   * so for that triple the last assignment wins; for any other triple the
   * local result is never assigned, which is None here.
   */
  function ZemachChannel(J: int, j: int, l: int, z2: real, cos2: real): (r: Option<real>)
    ensures r.Some? <==> J == 1 && j == 1 && l == 0
  {
    if J == 1 && j == 1 && l == 0 then Some(1.0 + (3.0 + 4.0 * z2) * cos2) else None
  }

  /**
   * The source's three successive guarded writes to one local. The method
   * agrees with ZemachChannel: the later writes overwrite the earlier ones.
   */
  method ZemachChannelWrites(J: int, j: int, l: int, z2: real, cos2: real) returns (res: Option<real>)
    ensures res == ZemachChannel(J, j, l, z2, cos2)
    ensures res.Some? ==> res.value == 1.0 + (3.0 + 4.0 * z2) * cos2
  {
    res := None;
    // 0 -> 1 + 1
    if J == 1 && j == 1 && l == 0 {
      res := Some((1.0 + z2) * cos2);
    }
    // 1 -> 1 + 0
    if J == 1 && j == 1 && l == 0 {
      res := Some(1.0 + z2 * cos2);
    }
    // 1 -> 1 + 2
    if J == 1 && j == 1 && l == 0 {
      res := Some(1.0 + (3.0 + 4.0 * z2) * cos2);
    }
  }
}
