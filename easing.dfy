/** The interpolation helpers of the opening camera flight. */
module Easing {
  import opened Geometry

  /** Clamps a parameter to the unit interval. */
  function Clamp01(x: real): (r: real)
    ensures 0.0 <= r <= 1.0
    ensures 0.0 <= x <= 1.0 ==> r == x
    ensures x < 0.0 ==> r == 0.0
    ensures x > 1.0 ==> r == 1.0
  {
    if x < 0.0 then 0.0 else if x > 1.0 then 1.0 else x
  }

  /** The smoothstep polynomial on [0, 1]. */
  function Smoothstep(u: real): real {
    u * u * (3.0 - 2.0 * u)
  }

  lemma SmoothstepRange(u: real)
    requires 0.0 <= u <= 1.0
    ensures 0.0 <= Smoothstep(u) <= 1.0
  {
    MulNonneg(u, u);
    MulNonneg(u * u, 3.0 - 2.0 * u);
    MulNonneg(1.0 - u, 1.0 - u);
    MulNonneg((1.0 - u) * (1.0 - u), 1.0 + 2.0 * u);
    assert 1.0 - Smoothstep(u) == (1.0 - u) * (1.0 - u) * (1.0 + 2.0 * u);
  }

  /** Ease-in/ease-out: smoothstep of the clamped parameter. */
  function EaseInOut(t: real): (r: real)
    ensures 0.0 <= r <= 1.0
    ensures t <= 0.0 ==> r == 0.0
    ensures t >= 1.0 ==> r == 1.0
    ensures t == 0.5 ==> r == 0.5
  {
    var u := Clamp01(t);
    SmoothstepRange(u);
    Smoothstep(u)
  }

  lemma MulNonneg(a: real, b: real)
    requires 0.0 <= a && 0.0 <= b
    ensures 0.0 <= a * b
  {
  }

  /** Easing never runs backwards. */
  lemma EaseInOutMonotone(a: real, b: real)
    requires a <= b
    ensures EaseInOut(a) <= EaseInOut(b)
  {
    var u, v := Clamp01(a), Clamp01(b);
    assert u <= v;
    // s(v) - s(u) = (v - u) * (u * (3 - 2u - v) + v * (3 - u - 2v))
    MulNonneg(u, 3.0 - 2.0 * u - v);
    MulNonneg(v, 3.0 - u - 2.0 * v);
    var k := u * (3.0 - 2.0 * u - v) + v * (3.0 - u - 2.0 * v);
    MulNonneg(v - u, k);
    assert Smoothstep(v) - Smoothstep(u) == (v - u) * k;
  }

  /** Easing is symmetric about the midpoint: the flight decelerates as it accelerated. */
  lemma EaseInOutSymmetric(t: real)
    ensures EaseInOut(1.0 - t) == 1.0 - EaseInOut(t)
  {
    var u := Clamp01(t);
    assert Clamp01(1.0 - t) == 1.0 - u;
    assert Smoothstep(1.0 - u) == (1.0 - u) * (1.0 - u) * (1.0 + 2.0 * u);
    assert 1.0 - Smoothstep(u) == (1.0 - u) * (1.0 - u) * (1.0 + 2.0 * u);
  }

  predicate Between(a: real, b: real, v: real) {
    (a <= v <= b) || (b <= v <= a)
  }

  lemma LerpScalarBetween(a: real, b: real, t: real)
    requires 0.0 <= t <= 1.0
    ensures Between(a, b, a + (b - a) * t)
  {
    if a <= b {
      MulNonneg(b - a, t);
      MulNonneg(b - a, 1.0 - t);
    } else {
      MulNonneg(a - b, t);
      MulNonneg(a - b, 1.0 - t);
    }
  }

  /** Linear interpolation a + t * (b - a). */
  function LerpVec3(a: Vec3, b: Vec3, t: real): (r: Vec3)
    ensures t == 0.0 ==> r == a
    ensures t == 1.0 ==> r == b
    ensures 0.0 <= t <= 1.0 ==> Between(a.x, b.x, r.x) && Between(a.y, b.y, r.y) && Between(a.z, b.z, r.z)
  {
    if 0.0 <= t <= 1.0 then
      LerpScalarBetween(a.x, b.x, t);
      LerpScalarBetween(a.y, b.y, t);
      LerpScalarBetween(a.z, b.z, t);
      Add(a, Scale(Sub(b, a), t))
    else
      Add(a, Scale(Sub(b, a), t))
  }
}
