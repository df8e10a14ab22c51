/**
 * Construction of the particle trails (`initParticles`): one trail per
 * configured particle, each holding that many particles, with a linear
 * radius law, a parity-determined direction and randomly drawn fields.
 */
module TrailFactory {
  import opened JsMath
  import opened Settings

  /** An `hsla(hue, saturation%, lightness%, 0.1)` colour; the alpha is always 0.1. */
  datatype Color = Hsla(hue: real, saturation: real, lightness: real)

  /** One particle of a trail. Only the leader (element 0) uses speed, friction, target index and direction. */
  datatype Particle = Particle(
    x: real,
    y: real,
    velX: real,
    velY: real,
    radius: real,
    speed: real,
    targetIndex: int,
    direction: int,
    friction: real,
    color: Color)

  /**
   * The `Math.random()` draws `initParticles` makes for one particle. The
   * hue draw is only taken for the "red", "blue" and "green" schemes.
   */
  datatype ParticleDraws = ParticleDraws(
    saturation: real,
    lightness: real,
    hue: real,
    speed: real,
    target: real,
    friction: real)

  /** The draws for one trail: its shared start position, then one record per particle. */
  datatype TrailDraws = TrailDraws(x: real, y: real, particles: seq<ParticleDraws>)

  predicate ParticleDrawsOk(d: ParticleDraws) {
    && IsRandom(d.saturation) && IsRandom(d.lightness) && IsRandom(d.hue)
    && IsRandom(d.speed) && IsRandom(d.target) && IsRandom(d.friction)
  }

  predicate TrailDrawsOk(d: TrailDraws, count: int) {
    && IsRandom(d.x) && IsRandom(d.y)
    && |d.particles| == count
    && forall k :: 0 <= k < |d.particles| ==> ParticleDrawsOk(d.particles[k])
  }

  predicate IsDirection(d: int) {
    d == 1 || d == -1
  }

  /**
   * The radius of particle `k` of `count`: `((1 − k/count) + 1) · (size/2)`.
   * The leader gets exactly `size`; every particle stays above `size/2`.
   */
  function Radius(k: int, count: int, size: int): (r: real)
    requires 0 <= k < count
    ensures k == 0 ==> r == size as real
    ensures size > 0 ==> size as real / 2.0 < r <= size as real
    ensures size < 0 ==> size as real <= r < size as real / 2.0
  {
    var frac := k as real / count as real;
    assert 0.0 <= frac < 1.0 by {
      assert frac * count as real == k as real;
    }
    ((1.0 - frac) + 1.0) * (size as real / 2.0)
  }

  /** The radius law is linear: each step along the trail takes off the same `size / (2·count)`. */
  lemma RadiusStep(k: int, count: int, size: int)
    requires 0 <= k && k + 1 < count
    ensures Radius(k, count, size) - Radius(k + 1, count, size) == size as real / (2.0 * count as real)
  {
    var c := count as real;
    var h := size as real / 2.0;
    assert (k + 1) as real / c - k as real / c == 1.0 / c;
    calc {
      Radius(k, count, size) - Radius(k + 1, count, size);
      ((1.0 - k as real / c) + 1.0) * h - ((1.0 - (k + 1) as real / c) + 1.0) * h;
      ((k + 1) as real / c - k as real / c) * h;
      (1.0 / c) * h;
    }
  }

  /** With a positive size the radius strictly decreases from the leader to the tail. */
  lemma {:induction false} RadiusDecreasing(j: int, k: int, count: int, size: int)
    requires 0 <= j < k < count
    requires size > 0
    ensures Radius(k, count, size) < Radius(j, count, size)
    decreases k - j
  {
    RadiusStep(k - 1, count, size);
    assert size as real / (2.0 * count as real) > 0.0;
    if j < k - 1 {
      RadiusDecreasing(j, k - 1, count, size);
    }
  }

  /** `(i % 2) * 2 - 1`: even trails run backwards along the curve, odd ones forwards. */
  function Direction(i: int): (d: int)
    requires i >= 0
    ensures IsDirection(d)
    ensures d == -1 <==> i % 2 == 0
    ensures d == 1 <==> i % 2 == 1
  {
    (i % 2) * 2 - 1
  }

  /**
   * The colour of particle draws `d` in trail `i` of `count`, by scheme: fixed
   * 20-degree hue bands for "red", "blue" and "green", grey for "monochrome",
   * and for any other scheme a rainbow hue given by the trail's position.
   */
  function ColorOf(scheme: string, i: int, count: int, d: ParticleDraws): (c: Color)
    requires 0 <= i < count
    ensures ParticleDrawsOk(d) ==> 20.0 <= c.lightness < 80.0
    ensures ParticleDrawsOk(d) && scheme != "monochrome" ==> 60.0 <= c.saturation < 100.0
    ensures ParticleDrawsOk(d) && scheme == "red" ==> 350.0 <= c.hue < 370.0
    ensures ParticleDrawsOk(d) && scheme == "blue" ==> 200.0 <= c.hue < 220.0
    ensures ParticleDrawsOk(d) && scheme == "green" ==> 100.0 <= c.hue < 120.0
    ensures scheme == "monochrome" ==> c.hue == 0.0 && c.saturation == 0.0
    ensures scheme !in {"red", "blue", "green", "monochrome"} ==>
      0.0 <= c.hue < 360.0 && c.hue * count as real == 360.0 * i as real
  {
    var saturation := d.saturation * 40.0 + 60.0;
    var lightness := d.lightness * 60.0 + 20.0;
    if scheme == "red" then Hsla(d.hue * 20.0 + 350.0, saturation, lightness)
    else if scheme == "blue" then Hsla(d.hue * 20.0 + 200.0, saturation, lightness)
    else if scheme == "green" then Hsla(d.hue * 20.0 + 100.0, saturation, lightness)
    else if scheme == "monochrome" then Hsla(0.0, 0.0, lightness)
    else
      var frac := i as real / count as real;
      assert 0.0 <= frac < 1.0 by {
        assert frac * count as real == i as real;
      }
      Hsla(frac * 360.0, saturation, lightness)
  }

  /**
   * The object literal `initParticles` pushes as particle `k` of trail `i`,
   * for a curve of `pathLen` points and a canvas of `width` × `height`.
   */
  function MakeParticle(i: int, k: int, cfg: Config, width: real, height: real, pathLen: int,
                        td: TrailDraws, pd: ParticleDraws): (p: Particle)
    requires 0 <= i < cfg.particleCount && 0 <= k < cfg.particleCount
    ensures p.velX == 0.0 && p.velY == 0.0
    ensures IsDirection(p.direction) && (p.direction == 1 <==> i % 2 == 1)
    ensures ParticleDrawsOk(pd) ==> 1.0 <= p.speed < 2.0 && 0.7 <= p.friction < 0.9
    ensures ParticleDrawsOk(pd) && pathLen > 0 ==> 0 <= p.targetIndex < pathLen
    ensures IsRandom(td.x) && width > 0.0 ==> 0.0 <= p.x < width
    ensures IsRandom(td.y) && height > 0.0 ==> 0.0 <= p.y < height
    ensures k == 0 ==> p.radius == cfg.particleSize as real
    ensures cfg.particleSize > 0 ==> p.radius > cfg.particleSize as real / 2.0
  {
    Particle(
      ScaledDraw(td.x, width),
      ScaledDraw(td.y, height),
      0.0,
      0.0,
      Radius(k, cfg.particleCount, cfg.particleSize),
      pd.speed + 1.0,
      RandomIndex(pd.target, pathLen),
      Direction(i),
      pd.friction * 0.2 + 0.7,
      ColorOf(cfg.colorScheme, i, cfg.particleCount, pd))
  }

  /**
   * Regenerating with the same configuration gives the same deterministic
   * fields whatever the draws: start velocity, radius and direction; and
   * all particles of one trail start at the same point.
   */
  lemma MakeParticleDeterministic(i: int, k: int, k': int, cfg: Config, width: real, height: real,
                                  pathLen: int, td: TrailDraws, pd: ParticleDraws, pd': ParticleDraws)
    requires 0 <= i < cfg.particleCount && 0 <= k < cfg.particleCount && 0 <= k' < cfg.particleCount
    ensures var p, q := MakeParticle(i, k, cfg, width, height, pathLen, td, pd),
                        MakeParticle(i, k', cfg, width, height, pathLen, td, pd');
      && p.x == q.x && p.y == q.y
      && p.direction == q.direction
      && (k == k' ==> p.radius == q.radius)
  {
  }

  /**
   * The inner loop of `initParticles`: the `count` particles of trail `i`,
   * pushed in order, all sharing the trail's drawn start position.
   */
  method BuildTrail(i: int, cfg: Config, width: real, height: real, pathLen: int, td: TrailDraws)
    returns (particles: seq<Particle>)
    requires 0 <= i < cfg.particleCount
    requires |td.particles| == cfg.particleCount
    ensures |particles| == cfg.particleCount
    ensures forall k :: 0 <= k < |particles| ==>
      particles[k] == MakeParticle(i, k, cfg, width, height, pathLen, td, td.particles[k])
  {
    particles := [];
    var k := 0;
    while k < cfg.particleCount
      invariant 0 <= k <= cfg.particleCount
      invariant |particles| == k
      invariant forall j :: 0 <= j < k ==>
        particles[j] == MakeParticle(i, j, cfg, width, height, pathLen, td, td.particles[j])
    {
      var p := MakeParticle(i, k, cfg, width, height, pathLen, td, td.particles[k]);
      particles := particles + [p];
      k := k + 1;
    }
  }
}
