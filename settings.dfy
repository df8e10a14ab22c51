/** The live configuration record and the particle-count clamp of the controls. */
module Settings {

  /** The tunable options of the animation (the `config` object). */
  datatype Config = Config(
    particleCount: int,
    speed: real,
    colorScheme: string,
    mouseInfluence: int,
    particleSize: int)

  /** The configuration the page starts with. */
  const Default: Config := Config(32, 1.0, "rainbow", 50, 10)

  const MinParticles: int := 10
  const MaxParticles: int := 100

  /**
   * `Math.min(100, Math.max(10, v))`: the particle count chosen on the
   * slider, forced into [10, 100].
   */
  function ClampCount(v: int): (r: int)
    ensures MinParticles <= r <= MaxParticles
    ensures MinParticles <= v <= MaxParticles ==> r == v
    ensures v < MinParticles ==> r == MinParticles
    ensures v > MaxParticles ==> r == MaxParticles
  {
    var low := if v > MinParticles then v else MinParticles;
    if low < MaxParticles then low else MaxParticles
  }

  /** Clamping never reorders two requested counts, and clamping twice changes nothing. */
  lemma ClampMonotoneIdempotent(u: int, v: int)
    requires u <= v
    ensures ClampCount(u) <= ClampCount(v)
    ensures ClampCount(ClampCount(v)) == ClampCount(v)
  {
  }
}
