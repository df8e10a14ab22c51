/**
 * The parts of the JavaScript host the animation relies on: the `Math` library,
 * `Math.random()` draws, the truncating `%` operator and `Math.floor`.
 */
module JsMath {

  /**
   * `Math.sin`, `Math.cos`, `Math.pow` and `Math.sqrt`, left uninterpreted:
   * the model only ever uses them as given functions. The only facts used
   * about them are `SqrtNonNegative` and the trigonometric and cube bounds
   * `HeartPath.CurveAtBounded` requires, each only as a lemma hypothesis.
   */
  datatype MathLib = MathLib(
    sin: real -> real,
    cos: real -> real,
    pow: (real, real) -> real,
    sqrt: real -> real)

  ghost predicate SqrtNonNegative(m: MathLib) {
    forall x :: m.sqrt(x) >= 0.0
  }

  /** A value `Math.random()` can return. */
  predicate IsRandom(r: real) {
    0.0 <= r < 1.0
  }

  /**
   * JavaScript's `a % n` on integers: the remainder takes the sign of the
   * dividend, and its magnitude is that of `|a|` modulo `n` (Dafny's `%` is
   * Euclidean and never negative).
   */
  function JsRem(a: int, n: int): (r: int)
    requires n > 0
    ensures -n < r < n
    ensures a >= 0 ==> r == a % n
    ensures 0 <= a < n ==> r == a
    ensures a < 0 ==> r <= 0 && -r == (-a) % n
  {
    SmallResidue(a, n);
    if a >= 0 then a % n else -((-a) % n)
  }

  /** A dividend already in [0, n) is its own residue. */
  lemma SmallResidue(a: int, n: int)
    requires n > 0
    ensures 0 <= a < n ==> a % n == a
  {
    if 0 <= a < n {
      DivModUnique(a, n, 0, a);
    }
  }

  /** `Math.random() * w` lies in [0, w) for a positive `w`. */
  lemma RandomScaled(r: real, w: real)
    ensures IsRandom(r) && w > 0.0 ==> 0.0 <= r * w < w
  {
    if IsRandom(r) && w > 0.0 {
      assert (1.0 - r) * w > 0.0;
    }
  }

  /** `Math.random() * w`: a draw scaled to an extent, inside [0, w) for a positive `w`. */
  function ScaledDraw(r: real, w: real): (v: real)
    ensures v == r * w
    ensures IsRandom(r) && w > 0.0 ==> 0.0 <= v < w
  {
    RandomScaled(r, w);
    r * w
  }

  /** `Math.floor(r * len)`: a uniformly drawn index into a sequence of length `len`. */
  function RandomIndex(r: real, len: int): (idx: int)
    ensures IsRandom(r) && len > 0 ==> 0 <= idx < len
  {
    ScaledDraw(r, len as real).Floor
  }

  /** Adding one lap of `n` leaves the Euclidean residue unchanged. */
  lemma ModLap(a: int, n: int)
    requires n > 0
    ensures (a + n) % n == a % n
  {
    var q, r := a / n, a % n;
    assert a + n == n * (q + 1) + r;
    DivModUnique(a + n, n, q + 1, r);
  }

  /** Euclidean division is unique: any `x == n·q + r` with `0 <= r < n` gives `x % n == r`. */
  lemma DivModUnique(x: int, n: int, q: int, r: int)
    requires n > 0 && 0 <= r < n && x == n * q + r
    ensures x % n == r && x / n == q
  {
    var e := q - x / n;
    assert n * e == x % n - r;
    MulReachesFactor(n, e);
    MulReachesFactor(n, -e);
  }

  lemma MulReachesFactor(n: int, e: int)
    requires n > 0
    ensures e >= 1 ==> n * e >= n
  {
    if e >= 1 {
      assert n * e == n + n * (e - 1);
    }
  }
}
