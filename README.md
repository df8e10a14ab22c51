# Heart Particles — a Dafny model of the simulation core

Heart Particles draws trails of particles chasing one another around a
heart-shaped curve on a canvas. Each trail has a leader that steers towards a
point of the curve. The leader is also pulled towards the mouse pointer when
the pointer is near. The followers each move 70% of the way towards the
particle in front of them.

This project models the simulation state kept in `script.js`:

- the curve path (`initHeartPath`);
- the trail population (`initParticles`);
- one frame of the animation loop for every trail: target resolution,
  pointer force, retargeting on arrival, leader integration and follower
  drag;
- the clamp of the particle count to [10, 100] when the slider changes
  (`updateParticles`).

## Modules

- `Wrappers`: `Option`.
- `JsMath`: the JavaScript arithmetic the code relies on.
  - `Math.sin`, `cos`, `pow` and `sqrt` are uninterpreted function values in a
    `MathLib` record. Only two sets of facts about them are ever used, and each
    appears only as a lemma hypothesis:
    - `sqrt(x) >= 0` (`SqrtNonNegative`);
    - sine and cosine in [−1, 1] and `pow(s, 3)` equal to the cube, in
      `HeartPath.CurveAtBounded`.
  - Each `Math.random()` draw is a parameter in [0, 1) (`IsRandom`).
  - `JsRem` is JavaScript's truncating `%`.
  - `RandomIndex` is `Math.floor(r * len)`.
- `Settings`: the configuration record, its defaults, and the particle-count
  clamp.
- `HeartPath`: the curve formula and the construction of the path.
- `TrailFactory`: the particle record and how `initParticles` builds one
  particle and one trail: radius, direction, colour bands, drawn fields.
- `TrailIntegrator`: one trail's frame.
  - Specification functions: `ApplyPointer`, `Arrive`, `Integrate`,
    `StepLeader`, `Pull`, `Follow` and `TrailStep`.
  - Methods proved against them: `PushTowardsPointer`, `RetargetOnArrival`,
    `MoveLeader`, `DragFollowers` and `StepTrail`.
  - `DragFollowers` and `StepTrail` work in place on the trail's
    `array<Particle>`. The other three take the leader as a value, and
    `StepTrail` writes the result back to `trail[0]`.
- `Animation`: the global state as a class `Simulation`. It has fields
  `config`, `canvasWidth`, `canvasHeight`, `trails` (a sequence of particle
  arrays), `heartPath` and `animationRunning`.
  - `InitHeartPath`, `InitParticles`, `Start`, `AnimationLoop` and
    `UpdateParticleCount` update these fields.
  - `Ready()` is the invariant of an initialised state. It covers the counts,
    and every leader aiming inside the path with direction ±1.

The code divides by the leader's distance to the pointer (script.js:128-129)
and by its distance to the target (script.js:149-150). There is no guard
against zero in either place. A non-zero distance is therefore a
precondition (`LeaderDefined`, `StepDefined`), and the model adds no guard.

## Model

| member | source | states |
|---|---|---|
| JsMath.JsRem | script.js:117 | JavaScript `%`: the remainder lies strictly between −n and n, equals the Euclidean one for a non-negative dividend, and is non-positive with the magnitude of `(−a) mod n` for a negative dividend |
| JsMath.ScaledDraw | script.js:52-53 | a draw times an extent is that product, and lies in [0, w) for a draw in [0, 1) and a positive w |
| JsMath.RandomScaled | script.js:52-53 | a draw in [0, 1) times a positive canvas extent lies in [0, extent) |
| JsMath.RandomIndex | script.js:86 | `Math.floor(r * len)` with r in [0, 1) is an index in [0, len) |
| JsMath.ModLap | script.js:144 | adding one lap of `len` before taking the remainder does not change it |
| Settings.ClampCount | script.js:192-195 | the count lands in [10, 100]: unchanged inside the range, 10 below it, 100 above it |
| Settings.ClampMonotoneIdempotent | script.js:192-195 | the clamp preserves order and clamping twice equals clamping once |
| HeartPath.Steps | script.js:29 | the path gets max(32, count) points: at least 32, at least the count, and one of the two |
| HeartPath.Param | script.js:32 | the parameter of point i out of steps lies in [0, 6.28318) |
| HeartPath.ParamIncreasing | script.js:31-32 | a later point index has a strictly larger curve parameter |
| HeartPath.CurveAtBounded | script.js:33-41 | when sine and cosine stay in [−1, 1] and pow(s, 3) is the cube, each point is within 180 horizontally and 230 vertically of the canvas centre |
| HeartPath.BuildHeartPath | script.js:26-43 | the loop yields exactly max(32, count) points, point i being the curve at `(i/steps)·6.28318`, in index order |
| TrailFactory.Radius | script.js:84 | `((1 − k/n) + 1)·(size/2)`: the leader gets exactly `size`; for a positive size every radius lies in (size/2, size] |
| TrailFactory.RadiusStep | script.js:84 | each step down the trail subtracts size/(2n) from the radius |
| TrailFactory.RadiusDecreasing | script.js:84 | for a positive size the radius strictly decreases along the trail |
| TrailFactory.Direction | script.js:87 | `(i % 2)·2 − 1` is ±1: −1 exactly for even trails, +1 exactly for odd ones |
| TrailFactory.ColorOf | script.js:57-77 | hue bands per scheme: red [350, 370), blue [200, 220), green [100, 120), monochrome hue and saturation 0, otherwise rainbow `hue·n = 360·i` in [0, 360); saturation in [60, 100) except monochrome; lightness in [20, 80) |
| TrailFactory.MakeParticle | script.js:79-90 | a new particle has zero velocity and direction ±1 by trail parity; from draws in [0, 1) it has speed in [1, 2), friction in [0.7, 0.9), target in [0, a non-empty path's length), position inside the canvas for a positive width and height, radius `size` for the leader and, for a positive size, above size/2 for all |
| TrailFactory.MakeParticleDeterministic | script.js:50-91 | all particles of a trail share the start position and direction whatever their own draws, and the radius depends only on the position in the trail |
| TrailFactory.BuildTrail | script.js:55-91 | the inner loop yields exactly `count` particles, particle k being `MakeParticle` of k and its own draws |
| TrailIntegrator.ResolveTarget | script.js:117-118 | `heartPath[idx % len]`: nothing for an empty path; for a non-negative index a point exactly when the path is non-empty, the indexed point when in range; for a negative index only a remainder of −0 resolves (to element 0) |
| TrailIntegrator.ResolveTargetCyclic | script.js:117 | non-negative indices one lap apart resolve to the same target |
| TrailIntegrator.PointerForce | script.js:127 | `(1 − dist/300)·(influence/20)` lies in (0, influence/20] within range and is exactly influence/20 at distance 0 |
| TrailIntegrator.PointerForceFallsOff | script.js:127 | for a positive influence, a farther pointer pulls strictly less |
| TrailIntegrator.PointerForceWhenApplied | script.js:121-131 | whenever the pointer is active, influence is positive and distance is under 300, the force added lies in (0, influence/20] |
| TrailIntegrator.ApplyPointer | script.js:121-131 | when the pointer does not apply the leader is unchanged; otherwise only its velocity changes |
| TrailIntegrator.PointerPullsTowards | script.js:122-129 | the velocity added points towards the pointer on each axis |
| TrailIntegrator.PointerPullAlongOffset | script.js:127-129 | the velocity added is the offset to the pointer scaled by force/dist |
| TrailIntegrator.Retarget | script.js:139-145 | a jump keeps the direction and lands in [0, len); otherwise the direction flips exactly when the second draw exceeds 0.99, and from an in-range index with direction ±1 the new index is `(index + direction) mod len`, in range |
| TrailIntegrator.StepWraps | script.js:143-144 | `(i + len) % len` for an index one step off either end of the path is its Euclidean residue |
| TrailIntegrator.SteeringTowardsTarget | script.js:134-150 | with non-negative speeds the steering delta points from the leader towards its target on each axis |
| TrailIntegrator.Arrive | script.js:138-146 | the arrival block changes only the target index and direction |
| TrailIntegrator.Integrate | script.js:149-154 | only position and velocity change; the displacement is old velocity plus delta; the new velocity is friction times the displacement |
| TrailIntegrator.StepLeader | script.js:116-154 | a frame keeps radius, speed, friction and colour; keeps the heading unless within 10 of the target; keeps an in-range heading in range |
| TrailIntegrator.LeaderIntegrationOrder | script.js:149-154 | position moves by the velocity after pointer force and steering are added, and friction is applied only afterwards |
| TrailIntegrator.MotionIgnoresRetarget | script.js:134-150 | the leader's motion is the same whatever the retargeting draws: steering uses the target resolved at the start of the frame |
| TrailIntegrator.Pull | script.js:159-160 | a follower moves to 0.3·old + 0.7·predecessor on each axis, shrinking its gap to the predecessor to 30%, and nothing else changes |
| TrailIntegrator.Follow | script.js:158-162 | the follower pass keeps the length, never touches the leader, and pulls each follower towards its already-updated predecessor |
| TrailIntegrator.TrailStep | script.js:113-163 | one trail's frame keeps the trail's length |
| TrailIntegrator.TrailStepSkips | script.js:114-118 | an empty trail or one whose target does not resolve is left unchanged |
| TrailIntegrator.TrailStepLaw | script.js:113-163 | a frame never changes radius, colour, friction or speed; followers change only position; the leader moves by `StepLeader` and each follower by the 0.3/0.7 law |
| TrailIntegrator.TrailStepKeepsLeaderOnPath | script.js:138-146 | with draws in [0, 1) a frame keeps the leader's target in [0, len) and its direction ±1 |
| TrailIntegrator.PushTowardsPointer | script.js:121-131 | the mouse-influence block computes `ApplyPointer` |
| TrailIntegrator.RetargetOnArrival | script.js:138-146 | the arrival block computes `Arrive` |
| TrailIntegrator.MoveLeader | script.js:116-154 | the leader's update computes `StepLeader` |
| TrailIntegrator.DragFollowers | script.js:158-162 | the in-place follower loop leaves the array equal to `Follow` of its old contents |
| TrailIntegrator.StepTrail | script.js:113-163 | the in-place frame leaves the array equal to `TrailStep` of its old contents |
| Animation.BuiltLeaderOnPath | script.js:86-87 | a freshly built trail's leader aims inside a non-empty path with direction ±1 |
| Animation.NewTrail | script.js:51-92 | a fresh array holding trail i exactly as `MakeParticle` builds it |
| Animation.BuildTrails | script.js:50-93 | the outer loop yields exactly `count` fresh, pairwise distinct arrays, trail i built from its own draws |
| Animation.Simulation.constructor | script.js:1-23 | the initial state: default configuration, no path, no trails, not running |
| Animation.Simulation.InitHeartPath | script.js:26-43 | the path is rebuilt for the current count and canvas; the class invariant holds and nothing else changes |
| Animation.Simulation.InitParticles | script.js:46-94 | builds the path only if there is none, then exactly `count` fresh, distinct trails of `count` particles, each `MakeParticle` of its draws, every leader aiming inside the path |
| Animation.Simulation.Start | script.js:248-251 | after `start` the state is ready and running, with the configuration and canvas size kept, a freshly sampled path, and fresh trails each built from its own draws |
| Animation.Simulation.AnimationLoop | script.js:105-169 | when stopped, nothing changes and the loop is not rescheduled; otherwise every trail takes exactly one `TrailStep` and the loop is rescheduled; a ready state stays ready |
| Animation.Simulation.UpdateParticleCount | script.js:191-199 | the count becomes the clamped value; every other setting, the canvas size and the running flag are kept; the path is resampled and fresh trails are built, each from its own draws, into a ready state |

## Left out

- Drawing: `renderParticle` and the translucent `fillRect` fade (script.js:97-102, script.js:110-111). They only paint pixels.
- Pointer input: the `mousemove` and `mouseleave` handlers (script.js:238-245). The pointer's position and activity are a parameter of each frame (`Pointer`).
- Other controls: the control and fullscreen toggles, and the size, speed, influence and colour-scheme setters (script.js:172-227). They are DOM wiring. The count slider's clamp and rebuild are modelled.
- Resize: the `resize` handler (script.js:230-235). The canvas size is given to the constructor.
- Scheduling: `requestAnimationFrame`, `try`/`catch` with `console.error`, and the first loop call and `setupControls` in `start` (script.js:164-168, script.js:252-253). `AnimationLoop` returns whether it would reschedule itself.
- Animation.Simulation.AnimationLoop: assumes that nothing inside the `try` throws, so every trail takes its full step. The one throw the model could reach is `ctx.arc` (script.js:100) with a negative radius, called from `renderParticle` between the leader update and the follower loop (script.js:157, script.js:161). `Valid()` keeps `particleSize > 0`: the default is 10 and no modelled operation changes it. So every radius `MakeParticle` produces is above size/2 > 0, and a frame never changes a radius (`TrailStepLaw`). The size setter that could make it negative (script.js:205-209) is not modelled.
- Animation.Simulation.UpdateParticleCount: takes the slider value as an integer, so `parseInt` returning NaN is not modelled.
- TrailIntegrator.StepDefined: a non-zero distance is a precondition, because script.js:128-129 and 149-150 divide by the distance without a guard. IEEE-754 behaviour in general (NaN, Infinity, rounding) is not modelled: coordinates are exact reals.
- The math functions: `Math.sin`, `cos`, `pow` and `sqrt` are left uninterpreted. The only facts used about them are `SqrtNonNegative` and the hypotheses of `HeartPath.CurveAtBounded`, each as a lemma hypothesis. Any property that needs their real values is not proved.
- TrailFactory.ColorOf: the `hsla(...)` string is not built. The colour is the triple of hue, saturation and lightness, with the fixed alpha 0.1 as a constant.
- `config.showHeartOutline` is never read by the code and has no counterpart.
- `!trail` in the frame loop: the model's trails are arrays, so they are never `null` or `undefined`. The empty-trail case is modelled.
