/**
 * Three-component real vectors and the few UnityEngine math routines the
 * game scripts call (Vector3 arithmetic, Vector3.Lerp, Mathf.Lerp,
 * Mathf.Max, Vector3.normalized, Vector3.Distance, Vector3.ClampMagnitude).
 *
 * Single-precision floats are modelled as `real`. The two transcendental
 * primitives, the square root and Vector3.Angle, are not computed here:
 * they travel in a `MathLib` value whose only promises are collected in
 * `Lawful`, so every result in this project holds for any engine whose
 * square root and angle satisfy those promises.
 *
 * The arithmetic facts about these routines are lemmas rather than
 * postconditions, so that code using a routine only pays for the facts it
 * asks for.
 */
module Vectors {

  datatype Vec3 = Vec3(x: real, y: real, z: real)

  const Zero := Vec3(0.0, 0.0, 0.0)
  const Up := Vec3(0.0, 1.0, 0.0)

  function Add(a: Vec3, b: Vec3): Vec3 {
    Vec3(a.x + b.x, a.y + b.y, a.z + b.z)
  }

  function Sub(a: Vec3, b: Vec3): Vec3 {
    Vec3(a.x - b.x, a.y - b.y, a.z - b.z)
  }

  function Scale(v: Vec3, k: real): Vec3 {
    Vec3(v.x * k, v.y * k, v.z * k)
  }

  /** Vector3.sqrMagnitude */
  function SqrMagnitude(v: Vec3): real {
    v.x * v.x + v.y * v.y + v.z * v.z
  }

  /** A squared magnitude is never negative and is at least the square of the vertical component. */
  lemma SqrMagnitudeBounds(v: Vec3)
    ensures 0.0 <= v.y * v.y <= SqrMagnitude(v)
  {
    NonNegSquare(v.x);
    NonNegSquare(v.y);
    NonNegSquare(v.z);
  }

  /** Scaling a vector by k scales its squared magnitude by k*k. */
  lemma ScaleSqrMagnitude(v: Vec3, k: real)
    ensures SqrMagnitude(Scale(v, k)) == k * k * SqrMagnitude(v)
  {
    calc {
      SqrMagnitude(Scale(v, k));
      (v.x * k) * (v.x * k) + (v.y * k) * (v.y * k) + (v.z * k) * (v.z * k);
      k * k * (v.x * v.x) + k * k * (v.y * v.y) + k * k * (v.z * v.z);
      k * k * SqrMagnitude(v);
    }
  }

  function Max(a: real, b: real): (r: real)
    ensures a <= r && b <= r
    ensures r == a || r == b
  {
    if a >= b then a else b
  }

  function Clamp01(t: real): (r: real)
    ensures 0.0 <= r <= 1.0
    ensures 0.0 <= t <= 1.0 ==> r == t
    ensures t <= 0.0 ==> r == 0.0
    ensures 1.0 <= t ==> r == 1.0
  {
    if t < 0.0 then 0.0 else if t > 1.0 then 1.0 else t
  }

  /** `r` lies between `a` and `b`, in either order. */
  predicate Between(r: real, a: real, b: real) {
    (a <= r <= b) || (b <= r <= a)
  }

  /** Mathf.Lerp: interpolation with the parameter clamped to [0, 1]. */
  function MathfLerp(a: real, b: real, t: real): real {
    a + (b - a) * Clamp01(t)
  }

  /**
   * Mathf.Lerp returns its first end point for a parameter at or below 0,
   * its second at or above 1, and always a value between the two.
   */
  lemma MathfLerpRange(a: real, b: real, t: real)
    ensures t <= 0.0 ==> MathfLerp(a, b, t) == a
    ensures 1.0 <= t ==> MathfLerp(a, b, t) == b
    ensures Between(MathfLerp(a, b, t), a, b)
  {
    var u := Clamp01(t);
    var x := (b - a) * u;
    ProductWithin(b - a, u, x);
  }

  /** Multiplying by a factor in [0, 1] moves a number toward zero without crossing it. */
  lemma ProductWithin(d: real, u: real, x: real)
    requires 0.0 <= u <= 1.0 && x == d * u
    ensures 0.0 <= d ==> 0.0 <= x <= d
    ensures d <= 0.0 ==> d <= x <= 0.0
    ensures u == 0.0 ==> x == 0.0
    ensures u == 1.0 ==> x == d
  {
    var y := d * (1.0 - u);
    assert d - x == y;
    if 0.0 <= d {
      NonNegProduct(d, u);
      NonNegProduct(d, 1.0 - u);
    } else {
      NonNegProduct(-d, u);
      NonNegProduct(-d, 1.0 - u);
    }
  }

  lemma NonNegProduct(p: real, q: real)
    requires 0.0 <= p && 0.0 <= q
    ensures 0.0 <= p * q
  {
  }

  lemma NonNegSquare(x: real)
    ensures 0.0 <= x * x
  {
    if x < 0.0 {
      NonNegProduct(-x, -x);
    } else {
      NonNegProduct(x, x);
    }
  }

  /** Vector3.Lerp: componentwise Mathf.Lerp with one clamped parameter. */
  function Lerp(a: Vec3, b: Vec3, t: real): Vec3 {
    Vec3(MathfLerp(a.x, b.x, t), MathfLerp(a.y, b.y, t), MathfLerp(a.z, b.z, t))
  }

  /** Vector3.Lerp reaches its target at parameter 1, stays put at 0, and never overshoots on any axis. */
  lemma LerpRange(a: Vec3, b: Vec3, t: real)
    ensures 1.0 <= t ==> Lerp(a, b, t) == b
    ensures t <= 0.0 ==> Lerp(a, b, t) == a
    ensures var r := Lerp(a, b, t);
      Between(r.x, a.x, b.x) && Between(r.y, a.y, b.y) && Between(r.z, a.z, b.z)
  {
    MathfLerpRange(a.x, b.x, t);
    MathfLerpRange(a.y, b.y, t);
    MathfLerpRange(a.z, b.z, t);
  }

  /**
   * The engine routines this model cannot compute: Mathf.Sqrt and
   * Vector3.Angle (in degrees).
   */
  datatype MathLib = MathLib(sqrt: real -> real, angle: (Vec3, Vec3) -> real)

  /** Mathf.Sqrt */
  function Sqrt(lib: MathLib, x: real): real {
    lib.sqrt(x)
  }

  /** Vector3.Angle, in degrees. */
  function Angle(lib: MathLib, a: Vec3, b: Vec3): real {
    lib.angle(a, b)
  }

  /** What the scripts rely on: the square root of zero is zero and that of a non-negative number is its non-negative root; an angle lies in [0, 180]. */
  ghost predicate Lawful(lib: MathLib) {
    Sqrt(lib, 0.0) == 0.0 &&
    (forall x: real :: 0.0 <= x ==> 0.0 <= Sqrt(lib, x) && Sqrt(lib, x) * Sqrt(lib, x) == x) &&
    (forall a: Vec3, b: Vec3 :: 0.0 <= Angle(lib, a, b) <= 180.0)
  }

  /** The square root is strictly increasing on the non-negative reals. */
  lemma SqrtStrictlyIncreasing(lib: MathLib, a: real, b: real)
    requires Lawful(lib)
    requires 0.0 <= a < b
    ensures Sqrt(lib, a) < Sqrt(lib, b)
  {
    var sa, sb := Sqrt(lib, a), Sqrt(lib, b);
    assert 0.0 <= sa && sa * sa == a;
    assert 0.0 <= sb && sb * sb == b;
    SquareLess(sa, sb);
  }

  /** Of two non-negative reals, the one with the smaller square is the smaller. */
  lemma SquareLess(p: real, q: real)
    requires 0.0 <= p && 0.0 <= q
    requires p * p < q * q
    ensures p < q
  {
    assert (q - p) * (q + p) == q * q - p * p;
  }

  /** Vector3.magnitude */
  function Magnitude(lib: MathLib, v: Vec3): real {
    Sqrt(lib, SqrMagnitude(v))
  }

  /** A magnitude is never negative. */
  lemma MagnitudeNonNegative(lib: MathLib, v: Vec3)
    requires Lawful(lib)
    ensures 0.0 <= Magnitude(lib, v)
  {
    SqrMagnitudeBounds(v);
  }

  /** Vector3.Distance */
  function Distance(lib: MathLib, a: Vec3, b: Vec3): real {
    Magnitude(lib, Sub(a, b))
  }

  /** A distance is never negative, and a point is at distance zero from itself. */
  lemma DistanceProperties(lib: MathLib, a: Vec3, b: Vec3)
    requires Lawful(lib)
    ensures 0.0 <= Distance(lib, a, b)
    ensures Distance(lib, a, a) == 0.0
  {
    SqrMagnitudeBounds(Sub(a, b));
    assert Sub(a, a) == Zero;
  }

  /** Vector3.normalized: the unit vector, or zero when the magnitude is at most 1e-5. */
  function Normalized(lib: MathLib, v: Vec3): Vec3 {
    var mag := Magnitude(lib, v);
    if mag > 0.00001 then Vec3(v.x / mag, v.y / mag, v.z / mag) else Zero
  }

  /**
   * Vector3.ClampMagnitude: a vector longer than maxLength is shortened to
   * that length along the same direction; a shorter one is returned as is.
   * The engine divides each component by the magnitude and multiplies by
   * maxLength; over the reals that is the scaling by maxLength / magnitude.
   */
  function ClampMagnitude(lib: MathLib, v: Vec3, maxLength: real): Vec3
    requires Lawful(lib)
  {
    var sqrmag := SqrMagnitude(v);
    if sqrmag > maxLength * maxLength then
      var mag := Sqrt(lib, sqrmag);
      SqrMagnitudeBounds(v);
      ClampedLength(v, mag, maxLength);
      Scale(v, maxLength / mag)
    else
      v
  }

  /**
   * ClampMagnitude never returns a vector longer than the bound, leaves a
   * vector within the bound unchanged, and otherwise only shortens the
   * vector along its own direction.
   */
  lemma ClampMagnitudeProperties(lib: MathLib, v: Vec3, maxLength: real)
    requires Lawful(lib)
    ensures SqrMagnitude(ClampMagnitude(lib, v, maxLength)) <= maxLength * maxLength
    ensures SqrMagnitude(v) <= maxLength * maxLength ==> ClampMagnitude(lib, v, maxLength) == v
    ensures 0.0 <= maxLength ==> exists k: real :: 0.0 <= k <= 1.0 && ClampMagnitude(lib, v, maxLength) == Scale(v, k)
  {
    var sqrmag := SqrMagnitude(v);
    if sqrmag > maxLength * maxLength {
      var mag := Sqrt(lib, sqrmag);
      SqrMagnitudeBounds(v);
      ClampedLength(v, mag, maxLength);
    } else {
      assert v == Scale(v, 1.0);
    }
  }

  /** The shortened vector of ClampMagnitude has exactly the bound as length. */
  lemma ClampedLength(v: Vec3, mag: real, maxLength: real)
    requires 0.0 <= mag && mag * mag == SqrMagnitude(v)
    requires SqrMagnitude(v) > maxLength * maxLength
    ensures mag > 0.0
    ensures SqrMagnitude(Scale(v, maxLength / mag)) == maxLength * maxLength
    ensures 0.0 <= maxLength ==> 0.0 <= maxLength / mag <= 1.0
  {
    NonNegSquare(maxLength);
    SquareLess(0.0, mag);
    var k := maxLength / mag;
    ScaleSqrMagnitude(v, k);
    RescaledSquare(k, mag, maxLength, SqrMagnitude(v));
    if 0.0 <= maxLength {
      SquareLess(maxLength, mag);
      RatioAtMostOne(maxLength, mag);
    }
  }

  lemma RescaledSquare(k: real, mag: real, m: real, sq: real)
    requires mag != 0.0 && k == m / mag && sq == mag * mag
    ensures k * k * sq == m * m
  {
    assert k * mag == m;
    assert k * k * (mag * mag) == (k * mag) * (k * mag);
  }

  /** A non-negative number over a larger positive one is at most one. */
  lemma RatioAtMostOne(part: real, whole: real)
    requires 0.0 <= part <= whole && 0.0 < whole
    ensures 0.0 <= part / whole <= 1.0
  {
    var q := part / whole;
    assert q * whole == part;
    NonNegFactor(q, whole, part);
    NonNegFactor(1.0 - q, whole, whole - part);
  }

  /** A factor whose product with a positive number is non-negative is itself non-negative. */
  lemma NonNegFactor(x: real, w: real, p: real)
    requires 0.0 < w && p == x * w && 0.0 <= p
    ensures 0.0 <= x
  {
  }
}
