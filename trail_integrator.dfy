/**
 * One frame of one trail (the body of the `trails.forEach` in
 * `animationLoop`): resolve the leader's curve target, add the pointer
 * force, retarget on arrival, integrate the leader, then drag every
 * follower 70% of the way towards its already-moved predecessor.
 */
module TrailIntegrator {
  import opened Wrappers
  import opened JsMath
  import opened Settings
  import opened HeartPath
  import opened TrailFactory

  /** The pointer state the frame reads (`mouseX`, `mouseY`, `mouseActive`). */
  datatype Pointer = Pointer(x: real, y: real, active: bool)

  /**
   * The `Math.random()` draws a trail's frame makes when its leader has
   * arrived: `jump` decides a global jump; `second` is the jump's index draw,
   * or else the direction-flip draw.
   */
  datatype RetargetDraws = RetargetDraws(jump: real, second: real)

  predicate RetargetDrawsOk(d: RetargetDraws) {
    IsRandom(d.jump) && IsRandom(d.second)
  }

  /** A leader's target index on the curve and the way it drifts along it. */
  datatype Heading = Heading(index: int, direction: int)

  const PointerRange: real := 300.0
  const ArrivalRadius: real := 10.0
  const JumpThreshold: real := 0.95
  const FlipThreshold: real := 0.99
  const FollowFactor: real := 0.7

  /**
   * `heartPath[index % heartPath.length]`, which is `undefined` for an empty
   * path (the remainder is NaN) and for a negative remainder; a remainder of
   * −0 reads element 0.
   */
  function ResolveTarget(path: seq<Point>, index: int): (r: Option<Point>)
    ensures r.Some? ==> r.value in path
    ensures index >= 0 ==> (r.Some? <==> |path| > 0)
    ensures 0 <= index < |path| ==> r == Some(path[index])
    ensures |path| > 0 && index < 0 ==>
      r == if (-index) % |path| == 0 then Some(path[0]) else None
  {
    if |path| == 0 then None
    else
      var j := JsRem(index, |path|);
      if j < 0 then None else Some(path[j])
  }

  /** The curve is a closed loop: a non-negative index and the index one lap further resolve alike. */
  lemma ResolveTargetCyclic(path: seq<Point>, index: int)
    requires index >= 0
    ensures ResolveTarget(path, index + |path|) == ResolveTarget(path, index)
  {
    if |path| > 0 {
      ModLap(index, |path|);
    }
  }

  /** `Math.sqrt(dx * dx + dy * dy)`. */
  function Length(dx: real, dy: real, m: MathLib): real {
    m.sqrt(dx * dx + dy * dy)
  }

  /** The distance from the leader to the pointer. */
  function PointerDist(p: Particle, ptr: Pointer, m: MathLib): real {
    Length(ptr.x - p.x, ptr.y - p.y, m)
  }

  /** The distance from the leader to its curve target. */
  function TargetDist(p: Particle, t: Point, m: MathLib): real {
    Length(p.x - t.x, p.y - t.y, m)
  }

  /** The pointer pulls a leader only while active, with a positive influence, within 300 units. */
  predicate PointerApplies(p: Particle, ptr: Pointer, cfg: Config, m: MathLib) {
    ptr.active && cfg.mouseInfluence > 0 && PointerDist(p, ptr, m) < PointerRange
  }

  /**
   * The divisions of the leader's update are defined: the code divides by
   * both distances without a guard, so a zero distance is excluded here.
   */
  predicate LeaderDefined(p: Particle, t: Point, ptr: Pointer, cfg: Config, m: MathLib) {
    && TargetDist(p, t, m) > 0.0
    && (PointerApplies(p, ptr, cfg, m) ==> PointerDist(p, ptr, m) > 0.0)
  }

  /** The strength of the pointer's pull: `(1 − dist/300) · (influence/20)`, falling off linearly. */
  function PointerForce(dist: real, influence: int): (f: real)
    ensures 0.0 <= dist < PointerRange && influence > 0 ==> 0.0 < f <= influence as real / 20.0
    ensures dist == 0.0 ==> f == influence as real / 20.0
  {
    var falloff := 1.0 - dist / PointerRange;
    var strength := influence as real / 20.0;
    assert 0.0 <= dist < PointerRange && influence > 0 ==> 0.0 < falloff * strength <= strength by {
      if 0.0 <= dist < PointerRange && influence > 0 {
        assert 0.0 < falloff <= 1.0;
        assert (1.0 - falloff) * strength >= 0.0;
      }
    }
    falloff * strength
  }

  /** The pull weakens the further the pointer is. */
  lemma PointerForceFallsOff(near: real, far: real, influence: int)
    requires near < far && influence > 0
    ensures PointerForce(far, influence) < PointerForce(near, influence)
  {
    var s := influence as real / 20.0;
    assert PointerForce(near, influence) - PointerForce(far, influence) == (far - near) / PointerRange * s;
  }

  /**
   * Whenever the pointer applies, the force it adds lies in
   * (0, influence/20]: `sqrt` never gives a negative distance.
   */
  lemma PointerForceWhenApplied(p: Particle, ptr: Pointer, cfg: Config, m: MathLib)
    requires SqrtNonNegative(m) && PointerApplies(p, ptr, cfg, m)
    ensures 0.0 < PointerForce(PointerDist(p, ptr, m), cfg.mouseInfluence) <= cfg.mouseInfluence as real / 20.0
  {
    var dx, dy := ptr.x - p.x, ptr.y - p.y;
    assert PointerDist(p, ptr, m) == Length(dx, dy, m) == m.sqrt(dx * dx + dy * dy);
    assert m.sqrt(dx * dx + dy * dy) >= 0.0;
  }

  /**
   * The mouse-influence block: when the pointer applies, the leader's
   * velocity gains the force along the unit vector towards the pointer;
   * otherwise, and in every other field, nothing changes.
   */
  function ApplyPointer(p: Particle, ptr: Pointer, cfg: Config, m: MathLib): (r: Particle)
    requires PointerApplies(p, ptr, cfg, m) ==> PointerDist(p, ptr, m) > 0.0
    ensures !PointerApplies(p, ptr, cfg, m) ==> r == p
    ensures r == p.(velX := r.velX, velY := r.velY)
  {
    if ptr.active && cfg.mouseInfluence > 0 then
      var dx := ptr.x - p.x;
      var dy := ptr.y - p.y;
      var dist := PointerDist(p, ptr, m);
      if dist < PointerRange then
        var force := PointerForce(dist, cfg.mouseInfluence);
        p.(velX := p.velX + (dx / dist) * force, velY := p.velY + (dy / dist) * force)
      else p
    else p
  }

  /** The velocity the pointer adds points towards the pointer on each axis. */
  lemma PointerPullsTowards(p: Particle, ptr: Pointer, cfg: Config, m: MathLib)
    requires PointerApplies(p, ptr, cfg, m) ==> PointerDist(p, ptr, m) > 0.0
    ensures var r := ApplyPointer(p, ptr, cfg, m);
      && (r.velX - p.velX) * (ptr.x - p.x) >= 0.0
      && (r.velY - p.velY) * (ptr.y - p.y) >= 0.0
  {
    if PointerApplies(p, ptr, cfg, m) {
      var dist := PointerDist(p, ptr, m);
      var force := PointerForce(dist, cfg.mouseInfluence);
      TowardsIsPositive(ptr.x - p.x, dist, force);
      TowardsIsPositive(ptr.y - p.y, dist, force);
    }
  }

  lemma TowardsIsPositive(d: real, dist: real, s: real)
    requires dist > 0.0 && s >= 0.0
    ensures (d / dist) * s * d >= 0.0
  {
    assert (d / dist) * s * d == (d * d) * (s / dist);
  }

  /**
   * The velocity the pointer adds is the offset to the pointer scaled by
   * force/dist: a vector along that offset whose length is the force
   * whenever `sqrt` returns the exact distance.
   */
  lemma PointerPullAlongOffset(p: Particle, ptr: Pointer, cfg: Config, m: MathLib)
    requires PointerApplies(p, ptr, cfg, m) && PointerDist(p, ptr, m) > 0.0
    ensures var r := ApplyPointer(p, ptr, cfg, m);
      var dist := PointerDist(p, ptr, m);
      var f := PointerForce(dist, cfg.mouseInfluence);
      && (r.velX - p.velX) * dist == (ptr.x - p.x) * f
      && (r.velY - p.velY) * dist == (ptr.y - p.y) * f
  {
    var dist := PointerDist(p, ptr, m);
    var f := PointerForce(dist, cfg.mouseInfluence);
    UnitScale(ptr.x - p.x, dist, f);
    UnitScale(ptr.y - p.y, dist, f);
  }

  lemma UnitScale(d: real, dist: real, f: real)
    requires dist > 0.0
    ensures ((d / dist) * f) * dist == d * f
  {
    assert (d / dist) * dist == d;
  }

  /**
   * The arrival branch: with draw `jump` above 0.95 the index jumps to a
   * random point of the curve; otherwise the direction flips when `second`
   * exceeds 0.99 and the index moves one step in the direction, modulo the
   * curve length.
   */
  function Retarget(index: int, direction: int, len: int, d: RetargetDraws): (r: Heading)
    requires len > 0
    ensures d.jump > JumpThreshold ==> r.direction == direction
    ensures d.jump > JumpThreshold && IsRandom(d.second) ==> 0 <= r.index < len
    ensures d.jump <= JumpThreshold && direction != 0 ==>
      (r.direction == -direction <==> d.second > FlipThreshold)
    ensures d.jump <= JumpThreshold ==> r.direction == direction || r.direction == -direction
    ensures d.jump <= JumpThreshold && 0 <= index < len && IsDirection(direction) ==>
      && IsDirection(r.direction)
      && 0 <= r.index < len
      && r.index == (index + r.direction) % len
  {
    if d.jump > JumpThreshold then
      Heading(RandomIndex(d.second, len), direction)
    else
      var dir := if d.second > FlipThreshold then direction * -1 else direction;
      var stepped := index + dir;
      StepWraps(stepped, len);
      Heading(JsRem(stepped + len, len), dir)
  }

  /** `(i + len) % len` for an index one step off the curve is its Euclidean residue. */
  lemma StepWraps(stepped: int, len: int)
    requires len > 0
    ensures -1 <= stepped <= len ==> JsRem(stepped + len, len) == stepped % len
  {
    if 0 <= stepped <= len {
      ModLap(stepped, len);
    } else if stepped == -1 {
      assert stepped % len == len - 1;
    }
  }

  /** The steering delta: the unit vector from the leader to its target, times both speed factors. */
  function Steering(p: Particle, t: Point, cfg: Config, m: MathLib): Point
    requires TargetDist(p, t, m) > 0.0
  {
    var dist := TargetDist(p, t, m);
    Point(SteerAxis(p.x - t.x, dist, p.speed, cfg.speed), SteerAxis(p.y - t.y, dist, p.speed, cfg.speed))
  }

  /** `(-d / dist) * speed * globalSpeed`, one axis of the steering delta. */
  function SteerAxis(d: real, dist: real, speed: real, globalSpeed: real): real
    requires dist != 0.0
  {
    (-d / dist) * speed * globalSpeed
  }

  /**
   * With non-negative speed factors, steering points from the leader
   * towards its target on each axis, and is zero on an axis where the two
   * already agree.
   */
  lemma SteeringTowardsTarget(p: Particle, t: Point, cfg: Config, m: MathLib)
    requires TargetDist(p, t, m) > 0.0
    requires p.speed >= 0.0 && cfg.speed >= 0.0
    ensures var s := Steering(p, t, cfg, m);
      && s.x * (t.x - p.x) >= 0.0 && s.y * (t.y - p.y) >= 0.0
      && (p.x == t.x ==> s.x == 0.0) && (p.y == t.y ==> s.y == 0.0)
  {
    var dist := TargetDist(p, t, m);
    var k := p.speed * cfg.speed;
    assert k >= 0.0;
    TowardsIsPositive(t.x - p.x, dist, k);
    TowardsIsPositive(t.y - p.y, dist, k);
    assert SteerAxis(p.x - t.x, dist, p.speed, cfg.speed) == ((t.x - p.x) / dist) * k;
    assert SteerAxis(p.y - t.y, dist, p.speed, cfg.speed) == ((t.y - p.y) / dist) * k;
  }

  /**
   * The arrival block: within 10 units of its target the leader's heading
   * is retargeted; otherwise it is kept.
   */
  function Arrive(p: Particle, dist: real, len: int, d: RetargetDraws): (r: Particle)
    requires len > 0
    ensures r == p.(targetIndex := r.targetIndex, direction := r.direction)
  {
    if dist < ArrivalRadius then
      var h := Retarget(p.targetIndex, p.direction, len, d);
      p.(targetIndex := h.index, direction := h.direction)
    else p
  }

  /**
   * The physics block for a velocity delta (`ax`, `ay`): velocity +=
   * delta, position += velocity, velocity *= friction.
   */
  function Integrate(p: Particle, ax: real, ay: real): (r: Particle)
    ensures r == p.(x := r.x, y := r.y, velX := r.velX, velY := r.velY)
    ensures r.x - p.x == p.velX + ax && r.y - p.y == p.velY + ay
    ensures r.velX == p.friction * (r.x - p.x) && r.velY == p.friction * (r.y - p.y)
  {
    var vx := p.velX + ax;
    var vy := p.velY + ay;
    p.(x := p.x + vx, y := p.y + vy, velX := vx * p.friction, velY := vy * p.friction)
  }

  /**
   * The leader's update for target `t` (resolved at the start of the frame)
   * on a curve of `len` points: pointer force, retargeting on arrival, then
   * velocity += steering, position += velocity, velocity *= friction.
   */
  function StepLeader(p: Particle, t: Point, len: int, ptr: Pointer, cfg: Config,
                      d: RetargetDraws, m: MathLib): (r: Particle)
    requires len > 0
    requires LeaderDefined(p, t, ptr, cfg, m)
    ensures r.radius == p.radius && r.speed == p.speed && r.friction == p.friction && r.color == p.color
    ensures TargetDist(p, t, m) >= ArrivalRadius ==>
      r.targetIndex == p.targetIndex && r.direction == p.direction
    ensures RetargetDrawsOk(d) && 0 <= p.targetIndex < len && IsDirection(p.direction) ==>
      0 <= r.targetIndex < len && IsDirection(r.direction)
  {
    var steer := Steering(p, t, cfg, m);
    Integrate(Arrive(ApplyPointer(p, ptr, cfg, m), TargetDist(p, t, m), len, d), steer.x, steer.y)
  }

  /**
   * The order of the leader's integration: the position moves by the
   * velocity after the pointer force and steering are added, and only then
   * is friction applied, so the new velocity is friction times the
   * displacement of the frame.
   */
  lemma LeaderIntegrationOrder(p: Particle, t: Point, len: int, ptr: Pointer, cfg: Config,
                               d: RetargetDraws, m: MathLib)
    requires len > 0
    requires LeaderDefined(p, t, ptr, cfg, m)
    ensures var r, pushed, steer := StepLeader(p, t, len, ptr, cfg, d, m), ApplyPointer(p, ptr, cfg, m), Steering(p, t, cfg, m);
      && r.x == p.x + (pushed.velX + steer.x)
      && r.y == p.y + (pushed.velY + steer.y)
      && r.velX == p.friction * (r.x - p.x)
      && r.velY == p.friction * (r.y - p.y)
  {
    var pushed := ApplyPointer(p, ptr, cfg, m);
    var arrived := Arrive(pushed, TargetDist(p, t, m), len, d);
    var steer := Steering(p, t, cfg, m);
    IntegrateFromPushed(arrived, pushed, p, steer.x, steer.y);
    assert StepLeader(p, t, len, ptr, cfg, d, m) == Integrate(arrived, steer.x, steer.y);
  }

  /**
   * Integrating `a`, which differs from `pushed` only in its heading, where
   * `pushed` differs from `p` only in its velocity: the move is `pushed`'s
   * velocity plus the delta, and friction is `p`'s.
   */
  lemma IntegrateFromPushed(a: Particle, pushed: Particle, p: Particle, ax: real, ay: real)
    requires a == pushed.(targetIndex := a.targetIndex, direction := a.direction)
    requires pushed == p.(velX := pushed.velX, velY := pushed.velY)
    ensures var r := Integrate(a, ax, ay);
      && r.x == p.x + (pushed.velX + ax) && r.y == p.y + (pushed.velY + ay)
      && r.velX == p.friction * (r.x - p.x) && r.velY == p.friction * (r.y - p.y)
  {
  }

  /**
   * Steering uses the target resolved at the start of the frame: the
   * leader's motion is the same whichever way the retargeting draws fall.
   */
  lemma MotionIgnoresRetarget(p: Particle, t: Point, len: int, ptr: Pointer, cfg: Config,
                              d: RetargetDraws, d': RetargetDraws, m: MathLib)
    requires len > 0
    requires LeaderDefined(p, t, ptr, cfg, m)
    ensures var r, r' := StepLeader(p, t, len, ptr, cfg, d, m), StepLeader(p, t, len, ptr, cfg, d', m);
      r.x == r'.x && r.y == r'.y && r.velX == r'.velX && r.velY == r'.velY
  {
    var pushed := ApplyPointer(p, ptr, cfg, m);
    var dist := TargetDist(p, t, m);
    var a, a' := Arrive(pushed, dist, len, d), Arrive(pushed, dist, len, d');
    assert a' == a.(targetIndex := a'.targetIndex, direction := a'.direction);
    var steer := Steering(p, t, cfg, m);
    IntegrateIgnoresHeading(a, a', steer.x, steer.y);
  }

  lemma IntegrateIgnoresHeading(a: Particle, a': Particle, ax: real, ay: real)
    requires a' == a.(targetIndex := a'.targetIndex, direction := a'.direction)
    ensures var r, r' := Integrate(a, ax, ay), Integrate(a', ax, ay);
      r.x == r'.x && r.y == r'.y && r.velX == r'.velX && r.velY == r'.velY
  {
  }

  /**
   * One follower's update: `x -= (x − pred.x) · 0.7` on each axis, that is
   * 30% of its own position plus 70% of its predecessor's.
   */
  function Pull(p: Particle, pred: Particle): (r: Particle)
    ensures r == p.(x := r.x, y := r.y)
    ensures r.x == 0.3 * p.x + 0.7 * pred.x && r.y == 0.3 * p.y + 0.7 * pred.y
    ensures r.x - pred.x == 0.3 * (p.x - pred.x) && r.y - pred.y == 0.3 * (p.y - pred.y)
  {
    p.(x := p.x - (p.x - pred.x) * FollowFactor, y := p.y - (p.y - pred.y) * FollowFactor)
  }

  /**
   * The follower loop over `s`: element 0 is left alone and each later
   * element is pulled towards the already-updated element before it.
   */
  function Follow(s: seq<Particle>): (r: seq<Particle>)
    ensures |r| == |s|
    ensures |s| > 0 ==> r[0] == s[0]
    ensures forall k :: 1 <= k < |s| ==> r[k] == Pull(s[k], r[k - 1])
    decreases |s|
  {
    if |s| <= 1 then s
    else
      var front := Follow(s[..|s| - 1]);
      front + [Pull(s[|s| - 1], front[|s| - 2])]
  }

  /** A trail's frame update is defined: no zero distance is divided by. */
  predicate StepDefined(s: seq<Particle>, path: seq<Point>, ptr: Pointer, cfg: Config, m: MathLib) {
    |s| > 0 && ResolveTarget(path, s[0].targetIndex).Some? ==>
      LeaderDefined(s[0], ResolveTarget(path, s[0].targetIndex).value, ptr, cfg, m)
  }

  /**
   * One trail's frame: skipped when the trail is empty or its target does not
   * resolve; otherwise the leader is stepped and the followers drag behind.
   */
  function TrailStep(s: seq<Particle>, path: seq<Point>, ptr: Pointer, cfg: Config,
                     d: RetargetDraws, m: MathLib): (r: seq<Particle>)
    requires StepDefined(s, path, ptr, cfg, m)
    ensures |r| == |s|
  {
    if |s| == 0 then s
    else
      match ResolveTarget(path, s[0].targetIndex)
      case None => s
      case Some(t) => Follow(s[0 := StepLeader(s[0], t, |path|, ptr, cfg, d, m)])
  }

  /** An empty trail, or one whose target does not resolve, is left as it was. */
  lemma TrailStepSkips(s: seq<Particle>, path: seq<Point>, ptr: Pointer, cfg: Config,
                       d: RetargetDraws, m: MathLib)
    requires |s| == 0 || ResolveTarget(path, s[0].targetIndex).None?
    ensures TrailStep(s, path, ptr, cfg, d, m) == s
  {
  }

  /**
   * A frame moves the leader by `StepLeader` and each follower to 30% of its
   * old position plus 70% of its predecessor's new one; followers change
   * only position, and no particle's radius, colour, friction or speed
   * changes.
   */
  lemma TrailStepLaw(s: seq<Particle>, path: seq<Point>, ptr: Pointer, cfg: Config,
                     d: RetargetDraws, m: MathLib)
    requires StepDefined(s, path, ptr, cfg, m)
    ensures var r := TrailStep(s, path, ptr, cfg, d, m);
      && (forall k :: 0 <= k < |s| ==>
            r[k].radius == s[k].radius && r[k].color == s[k].color
            && r[k].friction == s[k].friction && r[k].speed == s[k].speed)
      && (forall k :: 1 <= k < |s| ==> r[k] == s[k].(x := r[k].x, y := r[k].y))
      && (|s| > 0 && ResolveTarget(path, s[0].targetIndex).Some? ==>
            && r[0] == StepLeader(s[0], ResolveTarget(path, s[0].targetIndex).value, |path|, ptr, cfg, d, m)
            && forall k :: 1 <= k < |s| ==>
                 r[k].x == 0.3 * s[k].x + 0.7 * r[k - 1].x && r[k].y == 0.3 * s[k].y + 0.7 * r[k - 1].y)
  {
    var r := TrailStep(s, path, ptr, cfg, d, m);
    if |s| > 0 && ResolveTarget(path, s[0].targetIndex).Some? {
      var t := ResolveTarget(path, s[0].targetIndex).value;
      var led := s[0 := StepLeader(s[0], t, |path|, ptr, cfg, d, m)];
      assert r == Follow(led);
      forall k | 1 <= k < |s|
        ensures r[k] == s[k].(x := r[k].x, y := r[k].y)
        ensures r[k].x == 0.3 * s[k].x + 0.7 * r[k - 1].x && r[k].y == 0.3 * s[k].y + 0.7 * r[k - 1].y
      {
        assert r[k] == Pull(led[k], r[k - 1]);
        assert led[k] == s[k];
      }
    }
  }

  /** The leader's target index lies in [0, len) and its direction is ±1 (an empty trail has no leader). */
  predicate LeaderOnPath(s: seq<Particle>, len: int) {
    |s| > 0 ==> 0 <= s[0].targetIndex < len && IsDirection(s[0].direction)
  }

  /**
   * The cyclic index invariant: a frame keeps the leader's target index
   * inside the curve and its direction ±1.
   */
  lemma TrailStepKeepsLeaderOnPath(s: seq<Particle>, path: seq<Point>, ptr: Pointer, cfg: Config,
                                   d: RetargetDraws, m: MathLib)
    requires StepDefined(s, path, ptr, cfg, m)
    requires LeaderOnPath(s, |path|) && RetargetDrawsOk(d)
    ensures LeaderOnPath(TrailStep(s, path, ptr, cfg, d, m), |path|)
  {
    TrailStepLaw(s, path, ptr, cfg, d, m);
  }

  /** The mouse-influence block of the loop body, on the leader. */
  method PushTowardsPointer(leader: Particle, ptr: Pointer, cfg: Config, m: MathLib) returns (pushed: Particle)
    requires PointerApplies(leader, ptr, cfg, m) ==> PointerDist(leader, ptr, m) > 0.0
    ensures pushed == ApplyPointer(leader, ptr, cfg, m)
  {
    pushed := leader;
    if ptr.active && cfg.mouseInfluence > 0 {
      var dx := ptr.x - pushed.x;
      var dy := ptr.y - pushed.y;
      var dist := Length(dx, dy, m);
      if dist < PointerRange {
        var force := PointerForce(dist, cfg.mouseInfluence);
        pushed := pushed.(velX := pushed.velX + (dx / dist) * force);
        pushed := pushed.(velY := pushed.velY + (dy / dist) * force);
      }
    }
  }

  /** The arrival block of the loop body: jump, or flip and step, when within 10 units. */
  method RetargetOnArrival(leader: Particle, dist: real, len: int, d: RetargetDraws) returns (arrived: Particle)
    requires len > 0
    ensures arrived == Arrive(leader, dist, len, d)
  {
    arrived := leader;
    if dist < ArrivalRadius {
      if d.jump > JumpThreshold {
        arrived := arrived.(targetIndex := RandomIndex(d.second, len));
      } else {
        if d.second > FlipThreshold {
          arrived := arrived.(direction := arrived.direction * -1);
        }
        arrived := arrived.(targetIndex := arrived.targetIndex + arrived.direction);
        arrived := arrived.(targetIndex := JsRem(arrived.targetIndex + len, len));
      }
    }
  }

  /**
   * The leader's part of the frame, in the loop body's order: pointer
   * force, retargeting on arrival (the steering below still uses the
   * target resolved before it), then velocity, position and friction.
   */
  method MoveLeader(leader: Particle, target: Point, len: int, ptr: Pointer, cfg: Config,
                    d: RetargetDraws, m: MathLib) returns (moved: Particle)
    requires len > 0
    requires LeaderDefined(leader, target, ptr, cfg, m)
    ensures moved == StepLeader(leader, target, len, ptr, cfg, d, m)
  {
    moved := PushTowardsPointer(leader, ptr, cfg, m);
    var dx := moved.x - target.x;
    var dy := moved.y - target.y;
    var dist := Length(dx, dy, m);
    moved := RetargetOnArrival(moved, dist, len, d);
    ghost var arrived := moved;

    moved := moved.(velX := moved.velX + SteerAxis(dx, dist, moved.speed, cfg.speed));
    moved := moved.(velY := moved.velY + SteerAxis(dy, dist, moved.speed, cfg.speed));
    moved := moved.(x := moved.x + moved.velX);
    moved := moved.(y := moved.y + moved.velY);
    moved := moved.(velX := moved.velX * moved.friction);
    moved := moved.(velY := moved.velY * moved.friction);
    assert moved == Integrate(arrived, SteerAxis(dx, dist, leader.speed, cfg.speed), SteerAxis(dy, dist, leader.speed, cfg.speed));
  }

  /**
   * The follower loop, in place: for k = 1 upwards, particle k is pulled
   * towards particle k − 1, which the loop has already moved.
   */
  method DragFollowers(trail: array<Particle>)
    modifies trail
    ensures trail[..] == Follow(old(trail[..]))
  {
    if trail.Length == 0 {
      return;
    }
    ghost var s := trail[..];
    var k := 1;
    while k < trail.Length
      invariant 1 <= k <= trail.Length
      invariant trail[..k] == Follow(s[..k])
      invariant trail[k..] == s[k..]
    {
      trail[k] := trail[k].(x := trail[k].x - (trail[k].x - trail[k - 1].x) * FollowFactor);
      trail[k] := trail[k].(y := trail[k].y - (trail[k].y - trail[k - 1].y) * FollowFactor);
      assert s[..k + 1][..k] == s[..k];
      assert trail[k] == Pull(s[k], trail[k - 1]);
      k := k + 1;
    }
    assert trail[..] == trail[..k];
    assert s == s[..k];
  }

  /**
   * The body of the `forEach` in `animationLoop`, on the trail's array in
   * place: skip an empty trail or an unresolved target, move the leader,
   * then drag the followers.
   */
  method StepTrail(trail: array<Particle>, path: seq<Point>, ptr: Pointer, cfg: Config,
                   d: RetargetDraws, m: MathLib)
    requires StepDefined(trail[..], path, ptr, cfg, m)
    modifies trail
    ensures trail[..] == TrailStep(old(trail[..]), path, ptr, cfg, d, m)
  {
    if trail.Length == 0 {
      return;
    }
    var leader := trail[0];
    var resolved := ResolveTarget(path, leader.targetIndex);
    if resolved.None? {
      return;
    }
    var moved := MoveLeader(leader, resolved.value, |path|, ptr, cfg, d, m);
    trail[0] := moved;
    DragFollowers(trail);
  }
}
