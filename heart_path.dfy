/** The closed heart-shaped curve the trail leaders steer along. */
module HeartPath {
  import opened JsMath

  /** A point on the curve, in canvas coordinates (`[x, y]` in the source). */
  datatype Point = Point(x: real, y: real)

  /** The approximation of 2·π the curve is sampled with. */
  const PI2: real := 6.28318

  /** The fewest points a curve is ever sampled with. */
  const MinSteps: int := 32

  /** `Math.max(32, particleCount)`: how many points the curve gets. */
  function Steps(particleCount: int): (s: int)
    ensures s >= MinSteps && s >= particleCount
    ensures s == MinSteps || s == particleCount
  {
    if particleCount > MinSteps then particleCount else MinSteps
  }

  /** The curve parameter of point `i` out of `steps`: `(i / steps) · PI2`, within one turn. */
  function Param(i: int, steps: int): (t: real)
    requires 0 <= i < steps
    ensures 0.0 <= t < PI2
  {
    var frac := i as real / steps as real;
    assert frac < 1.0 by {
      assert frac * steps as real == i as real;
    }
    frac * PI2
  }

  /** Points are sampled in order: a later index has a strictly larger parameter. */
  lemma ParamIncreasing(i: int, j: int, steps: int)
    requires 0 <= i < j < steps
    ensures Param(i, steps) < Param(j, steps)
  {
    var s := steps as real;
    assert i as real / s < j as real / s by {
      assert (j as real / s - i as real / s) * s == j as real - i as real;
    }
  }

  /**
   * The heart curve at parameter `t`, centred on the canvas:
   * x = cx + 180·sin³t, y = cy − 10·(15 cos t − 5 cos 2t − 2 cos 3t − cos 4t).
   */
  function CurveAt(t: real, width: real, height: real, m: MathLib): Point {
    Point(
      width / 2.0 + 180.0 * m.pow(m.sin(t), 3.0),
      height / 2.0 + 10.0 * -(15.0 * m.cos(t) - 5.0 * m.cos(2.0 * t) - 2.0 * m.cos(3.0 * t) - m.cos(4.0 * t)))
  }

  /** `path` is the curve for `particleCount` sampled as `initHeartPath` does, in index order. */
  ghost predicate IsHeartPath(path: seq<Point>, particleCount: int, width: real, height: real, m: MathLib) {
    && |path| == Steps(particleCount)
    && forall i :: 0 <= i < |path| ==> path[i] == CurveAt(Param(i, |path|), width, height, m)
  }

  /**
   * When sine and cosine stay in [−1, 1] and `pow(s, 3)` is the cube, every
   * curve point lies in the box 360 wide and 460 high around the canvas centre.
   */
  lemma CurveAtBounded(t: real, width: real, height: real, m: MathLib)
    requires -1.0 <= m.sin(t) <= 1.0
    requires m.pow(m.sin(t), 3.0) == m.sin(t) * m.sin(t) * m.sin(t)
    requires -1.0 <= m.cos(t) <= 1.0 && -1.0 <= m.cos(2.0 * t) <= 1.0
    requires -1.0 <= m.cos(3.0 * t) <= 1.0 && -1.0 <= m.cos(4.0 * t) <= 1.0
    ensures -180.0 <= CurveAt(t, width, height, m).x - width / 2.0 <= 180.0
    ensures -230.0 <= CurveAt(t, width, height, m).y - height / 2.0 <= 230.0
  {
    CubeBounded(m.sin(t));
  }

  lemma CubeBounded(s: real)
    requires -1.0 <= s <= 1.0
    ensures -1.0 <= s * s * s <= 1.0
  {
    if s >= 0.0 {
      assert s * s <= s;
      assert s * s * s <= s * s;
    } else {
      assert s * s <= -s;
      assert s * s * s >= -(s * s);
    }
  }

  /**
   * `initHeartPath`: samples the curve at `Math.max(32, particleCount)`
   * points, pushed in index order.
   */
  method BuildHeartPath(particleCount: int, width: real, height: real, m: MathLib) returns (path: seq<Point>)
    ensures IsHeartPath(path, particleCount, width, height, m)
    ensures |path| >= MinSteps
  {
    path := [];
    var steps := Steps(particleCount);
    var i := 0;
    while i < steps
      invariant 0 <= i <= steps
      invariant |path| == i
      invariant forall j :: 0 <= j < i ==> path[j] == CurveAt(Param(j, steps), width, height, m)
    {
      var t := Param(i, steps);
      path := path + [CurveAt(t, width, height, m)];
      i := i + 1;
    }
  }
}
