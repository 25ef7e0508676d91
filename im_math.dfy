/**
 * The small pieces of Dear ImGui's math layer that the toggle uses: 2D vectors,
 * four-component colour vectors, axis-aligned rectangles, and the inline helpers
 * ImMax, ImClamp, ImSaturate and ImLerp. Floating point is modelled by exact reals.
 */
module ImMath {

  /** ImVec2. */
  datatype Vec2 = Vec2(x: real, y: real)

  /** ImVec4, used for RGBA colours. */
  datatype Vec4 = Vec4(x: real, y: real, z: real, w: real)

  /** ImRect: a minimum and a maximum corner. */
  datatype Rect = Rect(min: Vec2, max: Vec2)

  /** Component-wise `ImVec2 + ImVec2`. */
  function Add(a: Vec2, b: Vec2): Vec2
  {
    Vec2(a.x + b.x, a.y + b.y)
  }

  /** ImMax: the larger of the two values. */
  function Max(lhs: real, rhs: real): (r: real)
    ensures r >= lhs && r >= rhs
    ensures r == lhs || r == rhs
  {
    if lhs >= rhs then lhs else rhs
  }

  /** ImClamp: `v` brought into `[mn, mx]`, unchanged when already inside. */
  function Clamp(v: real, mn: real, mx: real): (r: real)
    ensures mn <= mx ==> mn <= r <= mx
    ensures mn <= v <= mx ==> r == v
    ensures v < mn ==> r == mn
    ensures mn <= mx && v > mx ==> r == mx
  {
    if v < mn then mn else if v > mx then mx else v
  }

  /** ImSaturate: `f` clamped to the unit interval. */
  function Saturate(f: real): (r: real)
    ensures 0.0 <= r <= 1.0
    ensures 0.0 <= f <= 1.0 ==> r == f
    ensures f <= 0.0 ==> r == 0.0
    ensures f >= 1.0 ==> r == 1.0
  {
    if f < 0.0 then 0.0 else if f > 1.0 then 1.0 else f
  }

  /** Saturation preserves order. */
  lemma SaturateMonotone(f: real, g: real)
    requires f <= g
    ensures Saturate(f) <= Saturate(g)
  {
  }

  /** ImLerp on scalars. */
  function Lerp(a: real, b: real, t: real): (r: real)
    ensures t == 0.0 ==> r == a
    ensures t == 1.0 ==> r == b
  {
    a + (b - a) * t
  }

  /** For `t` in the unit interval a scalar lerp stays between its end points. */
  lemma LerpBetween(a: real, b: real, t: real)
    requires 0.0 <= t <= 1.0
    ensures a <= b ==> a <= Lerp(a, b, t) <= b
    ensures b <= a ==> b <= Lerp(a, b, t) <= a
  {
    var d := b - a;
    assert Lerp(a, b, t) == a + d * t;
    if a <= b {
      MulUnitBounds(d, t);
    } else {
      MulUnitBounds(-d, t);
      assert d * t == -((-d) * t);
    }
  }

  /** A non-negative length scaled by a fraction in the unit interval stays within that length. */
  lemma MulUnitBounds(d: real, t: real)
    requires d >= 0.0 && 0.0 <= t <= 1.0
    ensures 0.0 <= d * t <= d
  {
    assert d * t <= d * 1.0;
  }

  /** ImLerp on ImVec4, component by component. */
  function Lerp4(a: Vec4, b: Vec4, t: real): (r: Vec4)
    ensures t == 0.0 ==> r == a
    ensures t == 1.0 ==> r == b
  {
    Vec4(Lerp(a.x, b.x, t), Lerp(a.y, b.y, t), Lerp(a.z, b.z, t), Lerp(a.w, b.w, t))
  }

  /** `c` lies, component by component, between `a` and `b`. */
  predicate Between(a: Vec4, b: Vec4, c: Vec4)
  {
    Within(a.x, b.x, c.x) && Within(a.y, b.y, c.y) && Within(a.z, b.z, c.z) && Within(a.w, b.w, c.w)
  }

  predicate Within(a: real, b: real, c: real)
  {
    (a <= c <= b) || (b <= c <= a)
  }

  /** For `t` in the unit interval a colour lerp never leaves the box spanned by its end points. */
  lemma Lerp4Between(a: Vec4, b: Vec4, t: real)
    requires 0.0 <= t <= 1.0
    ensures Between(a, b, Lerp4(a, b, t))
  {
    LerpBetween(a.x, b.x, t);
    LerpBetween(a.y, b.y, t);
    LerpBetween(a.z, b.z, t);
    LerpBetween(a.w, b.w, t);
  }
}
