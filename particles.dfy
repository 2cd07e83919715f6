// struct particle (lib/c_lib/structures/struct_particles.hpp): an immutable
// record of a mass and a radius whose squares are cached when it is built.
module Particles {

  /**
   * The fields of struct particle, plus the spin J that the resonance
   * structs read from their particles (R.J, P.J) although the struct shown
   * does not declare it.
   */
  datatype ParticleRecord = ParticleRecord(m: real, m2: real, r: real, r2: real, J: int)

  /** A particle whose cached squares agree with its mass and radius. */
  type Particle = p: ParticleRecord | p.m2 == p.m * p.m && p.r2 == p.r * p.r
    witness ParticleRecord(0.0, 0.0, 0.0, 0.0, 0)

  /** The constructor particle(m, r): m and r are stored exactly as given. */
  function NewParticle(m: real, r: real, J: int): (p: Particle)
    ensures p.m == m && p.r == r && p.J == J
  {
    ParticleRecord(m, m * m, r, r * r, J)
  }

  /** A particle with a non-negative mass. */
  predicate Physical(p: Particle)
  {
    p.m >= 0.0
  }

  /** particles::pi, the charged pion (spin 0). */
  const Pion: Particle := NewParticle(0.13957, 5.0, 0)

  /** particles::k, the charged kaon (spin 0). */
  const Kaon: Particle := NewParticle(0.49368, 5.0, 0)

  /** particles::d, the charged D meson (spin 0). */
  const DMeson: Particle := NewParticle(1.86960, 5.0, 0)
}
