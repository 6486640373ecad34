/** Two-dimensional points and vectors over the reals.

    The program uses nalgebra's `Point2<f32>` for positions and `Vector2<f32>`
    for velocities and accelerations; both become `Vec2` here, with `real`
    components in place of `f32`. */
module Vectors {

  datatype Vec2 = Vec2(x: real, y: real)

  const Zero: Vec2 := Vec2(0.0, 0.0)

  function Add(u: Vec2, w: Vec2): Vec2 {
    Vec2(u.x + w.x, u.y + w.y)
  }

  function Sub(u: Vec2, w: Vec2): Vec2 {
    Vec2(u.x - w.x, u.y - w.y)
  }

  function Neg(u: Vec2): Vec2 {
    Vec2(-u.x, -u.y)
  }

  function Scale(c: real, u: Vec2): Vec2 {
    Vec2(c * u.x, c * u.y)
  }

  /** Squared Euclidean length. */
  function NormSq(u: Vec2): real {
    u.x * u.x + u.y * u.y
  }

  lemma ScaleDistributes(c: real, u: Vec2, w: Vec2)
    ensures Scale(c, Add(u, w)) == Add(Scale(c, u), Scale(c, w))
  {
    assert c * (u.x + w.x) == c * u.x + c * w.x;
    assert c * (u.y + w.y) == c * u.y + c * w.y;
  }

  lemma ScaleZero(c: real)
    ensures Scale(c, Zero) == Zero
  {
    assert c * 0.0 == 0.0;
  }

  lemma AddInterchange(p: Vec2, q: Vec2, r: Vec2, s: Vec2)
    ensures Add(Add(p, q), Add(r, s)) == Add(Add(p, r), Add(q, s))
  {
  }
}
