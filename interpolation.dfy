/** The stateless interpolation library: linear interpolation, the
    smoothstep family, Catmull-Rom, Hermite and Bezier cubics and the
    quadratic/cubic easing curves, over `real`. Vector versions work
    component by component, as glm does. */
module Interpolation {
  import opened Geometry

  // ---------------------------------------------------------------- lerp

  /** Linear interpolation; `t` is not clamped, so values outside [0, 1]
      extrapolate along the line through `a` and `b`. */
  function Lerp(a: real, b: real, t: real): (r: real)
    ensures t == 0.0 ==> r == a
    ensures t == 1.0 ==> r == b
    ensures r - a == (b - a) * t
  {
    a + (b - a) * t
  }

  function LerpVec(a: Vec3, b: Vec3, t: real): (r: Vec3)
    ensures t == 0.0 ==> r == a
    ensures t == 1.0 ==> r == b
  {
    Vec3(Lerp(a.x, b.x, t), Lerp(a.y, b.y, t), Lerp(a.z, b.z, t))
  }

  /** Interpolating between equal points gives that point, for every t. */
  lemma LerpVecSame(a: Vec3, t: real)
    ensures LerpVec(a, a, t) == a
  {
  }

  /** For t in [0, 1] the scalar lerp stays between its endpoints. */
  lemma LerpBetween(a: real, b: real, t: real)
    requires 0.0 <= t <= 1.0
    ensures a <= b ==> a <= Lerp(a, b, t) <= b
    ensures b <= a ==> b <= Lerp(a, b, t) <= a
  {
    if a <= b {
      MulNonneg(b - a, t);
      MulNonneg(b - a, 1.0 - t);
    } else {
      MulNonneg(a - b, t);
      MulNonneg(a - b, 1.0 - t);
    }
  }

  lemma MulNonneg(x: real, y: real)
    requires x >= 0.0 && y >= 0.0
    ensures x * y >= 0.0
  {
  }

  /** glm::clamp(t, 0, 1). */
  function Clamp01(t: real): (r: real)
    ensures 0.0 <= r <= 1.0
    ensures 0.0 <= t <= 1.0 ==> r == t
  {
    if t < 0.0 then 0.0 else if t > 1.0 then 1.0 else t
  }

  // ---------------------------------------------------------- smoothstep

  /** The cubic ease 3t^2 - 2t^3 applied to the clamped parameter. */
  function Smoothstep(t: real): (r: real)
    ensures t <= 0.0 ==> r == 0.0
    ensures t >= 1.0 ==> r == 1.0
  {
    var c := Clamp01(t);
    c * c * (3.0 - 2.0 * c)
  }

  /** The quintic ease 6t^5 - 15t^4 + 10t^3 applied to the clamped parameter. */
  function Smootherstep(t: real): (r: real)
    ensures t <= 0.0 ==> r == 0.0
    ensures t >= 1.0 ==> r == 1.0
  {
    var c := Clamp01(t);
    c * c * c * (c * (c * 6.0 - 15.0) + 10.0)
  }

  /** Smoothstep is point-symmetric about (1/2, 1/2) on [0, 1]. */
  lemma SmoothstepSymmetric(t: real)
    requires 0.0 <= t <= 1.0
    ensures Smoothstep(1.0 - t) == 1.0 - Smoothstep(t)
  {
    var u := 1.0 - t;
    assert Clamp01(u) == u;
    assert u * u * (3.0 - 2.0 * u) == 1.0 - t * t * (3.0 - 2.0 * t);
  }

  /** Smootherstep is point-symmetric about (1/2, 1/2) on [0, 1]. */
  lemma SmootherstepSymmetric(t: real)
    requires 0.0 <= t <= 1.0
    ensures Smootherstep(1.0 - t) == 1.0 - Smootherstep(t)
  {
    var u := 1.0 - t;
    assert Clamp01(u) == u;
    calc {
      u * u * u * (u * (u * 6.0 - 15.0) + 10.0);
      1.0 - t * t * t * (t * (t * 6.0 - 15.0) + 10.0);
    }
  }

  /** The smoothstep result always lies in [0, 1], whatever the input. */
  lemma SmoothstepRange(t: real)
    ensures 0.0 <= Smoothstep(t) <= 1.0
  {
    var c := Clamp01(t);
    assert c * c >= 0.0;
    assert 3.0 - 2.0 * c >= 0.0;
    SmoothstepLowerBound(c);
    SmoothstepLowerBound(1.0 - c);
    SmoothstepSymmetric(c);
  }

  lemma SmoothstepLowerBound(c: real)
    requires 0.0 <= c <= 1.0
    ensures Smoothstep(c) >= 0.0
  {
    assert Clamp01(c) == c;
    assert c * c >= 0.0;
    assert 3.0 - 2.0 * c >= 0.0;
    assert c * c * (3.0 - 2.0 * c) >= 0.0;
  }

  /** The smootherstep result always lies in [0, 1], whatever the input. */
  lemma SmootherstepRange(t: real)
    ensures 0.0 <= Smootherstep(t) <= 1.0
  {
    var c := Clamp01(t);
    SmootherstepLowerBound(c);
    SmootherstepLowerBound(1.0 - c);
    SmootherstepSymmetric(c);
  }

  lemma SmootherstepLowerBound(c: real)
    requires 0.0 <= c <= 1.0
    ensures Smootherstep(c) >= 0.0
  {
    assert Clamp01(c) == c;
    // 6c^2 - 15c + 10 has no real root, so it is positive
    var q := c * (c * 6.0 - 15.0) + 10.0;
    assert q == 6.0 * (c - 1.25) * (c - 1.25) + 0.625;
    assert (c - 1.25) * (c - 1.25) >= 0.0;
    assert q > 0.0;
    assert c * c * c >= 0.0;
    assert c * c * c * q >= 0.0;
  }

  // -------------------------------------------------------------- splines

  /** Uniform Catmull-Rom on one coordinate: the segment from p1 to p2, with
      p0 and p3 shaping the tangents. */
  function CatmullRom1(p0: real, p1: real, p2: real, p3: real, t: real): real {
    var t2 := t * t;
    var t3 := t2 * t;
    0.5 * ((2.0 * p1) + (-p0 + p2) * t + (2.0 * p0 - 5.0 * p1 + 4.0 * p2 - p3) * t2
           + (-p0 + 3.0 * p1 - 3.0 * p2 + p3) * t3)
  }

  function CatmullRom(p0: Vec3, p1: Vec3, p2: Vec3, p3: Vec3, t: real): (r: Vec3)
    ensures t == 0.0 ==> r == p1
    ensures t == 1.0 ==> r == p2
  {
    Vec3(CatmullRom1(p0.x, p1.x, p2.x, p3.x, t),
         CatmullRom1(p0.y, p1.y, p2.y, p3.y, t),
         CatmullRom1(p0.z, p1.z, p2.z, p3.z, t))
  }

  /** The Catmull-Rom segment through four equal points is that point. */
  lemma CatmullRomConstant(p: Vec3, t: real)
    ensures CatmullRom(p, p, p, p, t) == p
  {
  }

  /** Cubic Hermite on one coordinate, from p0 (tangent m0) to p1 (tangent m1). */
  function CubicHermite1(p0: real, m0: real, p1: real, m1: real, t: real): real {
    var t2 := t * t;
    var t3 := t2 * t;
    var h00 := 2.0 * t3 - 3.0 * t2 + 1.0;
    var h10 := t3 - 2.0 * t2 + t;
    var h01 := -2.0 * t3 + 3.0 * t2;
    var h11 := t3 - t2;
    h00 * p0 + h10 * m0 + h01 * p1 + h11 * m1
  }

  function CubicHermite(p0: Vec3, m0: Vec3, p1: Vec3, m1: Vec3, t: real): (r: Vec3)
    ensures t == 0.0 ==> r == p0
    ensures t == 1.0 ==> r == p1
  {
    Vec3(CubicHermite1(p0.x, m0.x, p1.x, m1.x, t),
         CubicHermite1(p0.y, m0.y, p1.y, m1.y, t),
         CubicHermite1(p0.z, m0.z, p1.z, m1.z, t))
  }

  /** Cubic Bezier on one coordinate with control points p1 and p2. */
  function CubicBezier1(p0: real, p1: real, p2: real, p3: real, t: real): real {
    var u := 1.0 - t;
    var tt := t * t;
    var uu := u * u;
    var uuu := uu * u;
    var ttt := tt * t;
    uuu * p0 + 3.0 * uu * t * p1 + 3.0 * u * tt * p2 + ttt * p3
  }

  function CubicBezier(p0: Vec3, p1: Vec3, p2: Vec3, p3: Vec3, t: real): (r: Vec3)
    ensures t == 0.0 ==> r == p0
    ensures t == 1.0 ==> r == p3
  {
    Vec3(CubicBezier1(p0.x, p1.x, p2.x, p3.x, t),
         CubicBezier1(p0.y, p1.y, p2.y, p3.y, t),
         CubicBezier1(p0.z, p1.z, p2.z, p3.z, t))
  }

  /** With control points at exactly one and two thirds of the chord, the
      Bezier cubic is the straight line: it equals lerp for every t. */
  lemma BezierThirdsIsLerp(a: real, b: real, t: real)
    ensures CubicBezier1(a, a + (b - a) / 3.0, a + 2.0 * (b - a) / 3.0, b, t) == Lerp(a, b, t)
  {
    var u := 1.0 - t;
    calc {
      CubicBezier1(a, a + (b - a) / 3.0, a + 2.0 * (b - a) / 3.0, b, t);
      u * u * u * a + 3.0 * u * u * t * (a + (b - a) / 3.0)
        + 3.0 * u * t * t * (a + 2.0 * (b - a) / 3.0) + t * t * t * b;
      a * (u * u * u + 3.0 * u * u * t + 3.0 * u * t * t + t * t * t)
        + (b - a) * (u * u * t + 2.0 * u * t * t + t * t * t);
      { assert u + t == 1.0;
        assert u * u * u + 3.0 * u * u * t + 3.0 * u * t * t + t * t * t == (u + t) * (u + t) * (u + t);
        assert u * u * t + 2.0 * u * t * t + t * t * t == t * (u + t) * (u + t); }
      a + (b - a) * t;
    }
  }

  // --------------------------------------------------------------- easing

  function EaseInQuad(t: real): (r: real)
    ensures t == 0.0 ==> r == 0.0
    ensures t == 1.0 ==> r == 1.0
  {
    t * t
  }

  function EaseOutQuad(t: real): (r: real)
    ensures t == 0.0 ==> r == 0.0
    ensures t == 1.0 ==> r == 1.0
  {
    t * (2.0 - t)
  }

  function EaseInOutQuad(t: real): (r: real)
    ensures t == 0.0 ==> r == 0.0
    ensures t == 1.0 ==> r == 1.0
    ensures t == 0.5 ==> r == 0.5
  {
    if t < 0.5 then 2.0 * t * t else -1.0 + (4.0 - 2.0 * t) * t
  }

  function EaseInCubic(t: real): (r: real)
    ensures t == 0.0 ==> r == 0.0
    ensures t == 1.0 ==> r == 1.0
  {
    t * t * t
  }

  function EaseOutCubic(t: real): (r: real)
    ensures t == 0.0 ==> r == 0.0
    ensures t == 1.0 ==> r == 1.0
  {
    var f := t - 1.0;
    f * f * f + 1.0
  }

  function EaseInOutCubic(t: real): (r: real)
    ensures t == 0.0 ==> r == 0.0
    ensures t == 1.0 ==> r == 1.0
    ensures t == 0.5 ==> r == 0.5
  {
    if t < 0.5 then 4.0 * t * t * t else (t - 1.0) * (2.0 * t - 2.0) * (2.0 * t - 2.0) + 1.0
  }

  /** Both halves of the in-out curves meet at t = 1/2: the lower branch's
      formula also gives 1/2 there, so each curve is continuous. */
  lemma EaseInOutContinuous()
    ensures 2.0 * 0.5 * 0.5 == EaseInOutQuad(0.5) == 0.5
    ensures 4.0 * 0.5 * 0.5 * 0.5 == EaseInOutCubic(0.5) == 0.5
  {
  }
}
