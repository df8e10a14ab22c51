/**
 * The animation's global state: the configuration, the canvas size, the
 * curve path and the trails, each trail an array of particles that the
 * frame loop updates in place.
 */
module Animation {
  import opened JsMath
  import opened Settings
  import opened HeartPath
  import opened TrailFactory
  import opened TrailIntegrator

  /** Array `a` holds trail `i` exactly as `initParticles` builds it from draw `td`. */
  ghost predicate TrailBuilt(a: array<Particle>, i: int, cfg: Config, width: real, height: real,
                             pathLen: int, td: TrailDraws)
    reads a
  {
    && 0 <= i < cfg.particleCount
    && a.Length == cfg.particleCount
    && |td.particles| == cfg.particleCount
    && forall k :: 0 <= k < a.Length ==>
         a[k] == MakeParticle(i, k, cfg, width, height, pathLen, td, td.particles[k])
  }

  /** A trail built from draws in [0, 1) on a non-empty path has its leader aiming at the path. */
  lemma BuiltLeaderOnPath(a: array<Particle>, i: int, cfg: Config, width: real, height: real,
                          pathLen: int, td: TrailDraws)
    requires TrailBuilt(a, i, cfg, width, height, pathLen, td)
    requires TrailDrawsOk(td, cfg.particleCount) && pathLen > 0
    ensures LeaderOnPath(a[..], pathLen)
  {
    if a.Length > 0 {
      assert a[..][0] == MakeParticle(i, 0, cfg, width, height, pathLen, td, td.particles[0]);
    }
  }

  /** One iteration of the outer loop of `initParticles`: a fresh array for trail `i`. */
  method NewTrail(i: int, cfg: Config, width: real, height: real, pathLen: int, td: TrailDraws)
    returns (trail: array<Particle>)
    requires 0 <= i < cfg.particleCount
    requires |td.particles| == cfg.particleCount
    ensures fresh(trail)
    ensures TrailBuilt(trail, i, cfg, width, height, pathLen, td)
  {
    var particles := BuildTrail(i, cfg, width, height, pathLen, td);
    var count := cfg.particleCount;
    trail := new Particle[count](k requires 0 <= k < count => particles[k]);
  }

  /** The outer loop of `initParticles`: `count` fresh, distinct arrays, trail `i` built from `draws[i]`. */
  method BuildTrails(cfg: Config, width: real, height: real, pathLen: int, draws: seq<TrailDraws>)
    returns (built: seq<array<Particle>>)
    requires |draws| == cfg.particleCount
    requires forall i :: 0 <= i < |draws| ==> |draws[i].particles| == cfg.particleCount
    ensures |built| == cfg.particleCount
    ensures forall i :: 0 <= i < |built| ==> fresh(built[i])
    ensures forall i, j :: 0 <= i < j < |built| ==> built[i] != built[j]
    ensures forall i :: 0 <= i < |built| ==> TrailBuilt(built[i], i, cfg, width, height, pathLen, draws[i])
  {
    built := [];
    var i := 0;
    while i < cfg.particleCount
      invariant 0 <= i <= cfg.particleCount
      invariant |built| == i
      invariant forall j :: 0 <= j < i ==> fresh(built[j])
      invariant forall j, j' :: 0 <= j < j' < i ==> built[j] != built[j']
      invariant forall j :: 0 <= j < i ==> TrailBuilt(built[j], j, cfg, width, height, pathLen, draws[j])
    {
      var trail := NewTrail(i, cfg, width, height, pathLen, draws[i]);
      built := built + [trail];
      i := i + 1;
    }
  }

  class Simulation {
    var config: Config
    var canvasWidth: real
    var canvasHeight: real
    var trails: seq<array<Particle>>
    var heartPath: seq<Point>
    var animationRunning: bool

    /**
     * The count stays inside the slider's range, the particle size is
     * positive (so every radius drawn is positive), and no two trails share
     * an array.
     */
    ghost predicate Valid()
      reads this
    {
      && MinParticles <= config.particleCount <= MaxParticles
      && config.particleSize > 0
      && forall i, j :: 0 <= i < j < |trails| ==> trails[i] != trails[j]
    }

    /**
     * The state `initHeartPath` followed by `initParticles` leaves: a path of
     * `max(32, count)` points, `count` trails of `count` particles, and every
     * leader aiming at a point of the path with direction ±1.
     */
    ghost predicate Ready()
      reads this, trails
    {
      && Valid()
      && |heartPath| == Steps(config.particleCount)
      && |trails| == config.particleCount
      && forall i :: 0 <= i < |trails| ==>
           trails[i].Length == config.particleCount && LeaderOnPath(trails[i][..], |heartPath|)
    }

    /** The state before `start`: default settings, no path, no trails, stopped. */
    constructor (width: real, height: real)
      ensures config == Default && canvasWidth == width && canvasHeight == height
      ensures trails == [] && heartPath == [] && !animationRunning
      ensures Valid()
    {
      config := Default;
      canvasWidth := width;
      canvasHeight := height;
      trails := [];
      heartPath := [];
      animationRunning := false;
    }

    /** `initHeartPath`: rebuilds the curve path for the current count and canvas. */
    method InitHeartPath(m: MathLib)
      requires Valid()
      modifies this
      ensures Valid()
      ensures IsHeartPath(heartPath, config.particleCount, canvasWidth, canvasHeight, m)
      ensures config == old(config) && trails == old(trails)
      ensures canvasWidth == old(canvasWidth) && canvasHeight == old(canvasHeight)
      ensures animationRunning == old(animationRunning)
    {
      heartPath := BuildHeartPath(config.particleCount, canvasWidth, canvasHeight, m);
    }

    /**
     * `initParticles`: builds the path first if there is none, then
     * `count` fresh trails, particle `k` of trail `i` being made from draw
     * `draws[i]`. Every leader then aims at a point of the path.
     */
    method InitParticles(m: MathLib, draws: seq<TrailDraws>)
      requires Valid()
      requires |draws| == config.particleCount
      requires forall i :: 0 <= i < |draws| ==> TrailDrawsOk(draws[i], config.particleCount)
      modifies this
      ensures Valid()
      ensures config == old(config) && animationRunning == old(animationRunning)
      ensures canvasWidth == old(canvasWidth) && canvasHeight == old(canvasHeight)
      ensures |old(heartPath)| > 0 ==> heartPath == old(heartPath)
      ensures |old(heartPath)| == 0 ==> IsHeartPath(heartPath, config.particleCount, canvasWidth, canvasHeight, m)
      ensures |heartPath| > 0
      ensures |trails| == config.particleCount
      ensures forall i :: 0 <= i < |trails| ==> fresh(trails[i])
      ensures forall i :: 0 <= i < |trails| ==>
        TrailBuilt(trails[i], i, config, canvasWidth, canvasHeight, |heartPath|, draws[i])
      ensures forall i :: 0 <= i < |trails| ==> LeaderOnPath(trails[i][..], |heartPath|)
      ensures |old(heartPath)| == 0 || |old(heartPath)| == Steps(config.particleCount) ==> Ready()
    {
      trails := [];
      if |heartPath| == 0 {
        InitHeartPath(m);
      }
      var built := BuildTrails(config, canvasWidth, canvasHeight, |heartPath|, draws);
      trails := built;
      forall j | 0 <= j < |trails|
        ensures LeaderOnPath(trails[j][..], |heartPath|)
      {
        BuiltLeaderOnPath(trails[j], j, config, canvasWidth, canvasHeight, |heartPath|, draws[j]);
      }
    }

    /**
     * `start` up to the first frame: path, trails, then the running flag.
     * The first call of the frame loop and the wiring of the controls are
     * not part of this model.
     */
    method Start(m: MathLib, draws: seq<TrailDraws>)
      requires Valid()
      requires |draws| == config.particleCount
      requires forall i :: 0 <= i < |draws| ==> TrailDrawsOk(draws[i], config.particleCount)
      modifies this
      ensures Ready() && animationRunning
      ensures config == old(config)
      ensures canvasWidth == old(canvasWidth) && canvasHeight == old(canvasHeight)
      ensures IsHeartPath(heartPath, config.particleCount, canvasWidth, canvasHeight, m)
      ensures forall i :: 0 <= i < |trails| ==> fresh(trails[i])
      ensures forall i :: 0 <= i < |trails| ==>
        TrailBuilt(trails[i], i, config, canvasWidth, canvasHeight, |heartPath|, draws[i])
    {
      InitHeartPath(m);
      InitParticles(m, draws);
      animationRunning := true;
    }

    /**
     * One call of `animationLoop`: when stopped it changes nothing and does
     * not reschedule; otherwise trail `i` takes one frame step with draws
     * `draws[i]`, in place, and the loop is rescheduled. A ready state stays
     * ready: leaders keep aiming inside the path.
     */
    method AnimationLoop(ptr: Pointer, draws: seq<RetargetDraws>, m: MathLib) returns (rescheduled: bool)
      requires Valid()
      requires |draws| == |trails|
      requires forall i :: 0 <= i < |draws| ==> RetargetDrawsOk(draws[i])
      requires animationRunning ==>
        forall i :: 0 <= i < |trails| ==> StepDefined(trails[i][..], heartPath, ptr, config, m)
      modifies trails
      ensures rescheduled == animationRunning
      ensures !animationRunning ==> forall i :: 0 <= i < |trails| ==> trails[i][..] == old(trails[i][..])
      ensures animationRunning ==> forall i :: 0 <= i < |trails| ==>
        trails[i][..] == TrailStep(old(trails[i][..]), heartPath, ptr, config, draws[i], m)
      ensures old(Ready()) ==> Ready()
    {
      if !animationRunning {
        return false;
      }
      var i := 0;
      while i < |trails|
        invariant 0 <= i <= |trails|
        invariant forall j :: 0 <= j < i ==>
          trails[j][..] == TrailStep(old(trails[j][..]), heartPath, ptr, config, draws[j], m)
        invariant forall j :: i <= j < |trails| ==> trails[j][..] == old(trails[j][..])
      {
        StepTrail(trails[i], heartPath, ptr, config, draws[i], m);
        i := i + 1;
      }
      forall j | 0 <= j < |trails| && old(LeaderOnPath(trails[j][..], |heartPath|))
        ensures LeaderOnPath(trails[j][..], |heartPath|)
      {
        TrailStepKeepsLeaderOnPath(old(trails[j][..]), heartPath, ptr, config, draws[j], m);
      }
      return true;
    }

    /**
     * `updateParticles`: the slider value is clamped to [10, 100], then the
     * path and the trails are rebuilt for the new count.
     */
    method UpdateParticleCount(value: int, m: MathLib, draws: seq<TrailDraws>)
      requires Valid()
      requires |draws| == ClampCount(value)
      requires forall i :: 0 <= i < |draws| ==> TrailDrawsOk(draws[i], ClampCount(value))
      modifies this
      ensures config == old(config).(particleCount := ClampCount(value))
      ensures MinParticles <= config.particleCount <= MaxParticles
      ensures Ready()
      ensures animationRunning == old(animationRunning)
      ensures canvasWidth == old(canvasWidth) && canvasHeight == old(canvasHeight)
      ensures IsHeartPath(heartPath, config.particleCount, canvasWidth, canvasHeight, m)
      ensures forall i :: 0 <= i < |trails| ==> fresh(trails[i])
      ensures forall i :: 0 <= i < |trails| ==>
        TrailBuilt(trails[i], i, config, canvasWidth, canvasHeight, |heartPath|, draws[i])
    {
      config := config.(particleCount := ClampCount(value));
      InitHeartPath(m);
      InitParticles(m, draws);
    }
  }
}
