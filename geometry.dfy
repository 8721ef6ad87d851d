/**
  Vector2 arithmetic over the reals, and the engine's transcendental operations
  (Vector2.magnitude, Vector2.normalized, Vector2.Angle, rotation by
  Quaternion.Euler(0, 0, degrees), Mathf.Sqrt, Mathf.Cos, Mathf.Sin) as
  uninterpreted functions constrained only by the axioms in `Valid`.
*/
module Geometry {
  import opened Common

  datatype Vec = Vec(x: real, y: real) {
    function Add(v: Vec): Vec { Vec(x + v.x, y + v.y) }
    function Sub(v: Vec): Vec { Vec(x - v.x, y - v.y) }
    function Scale(k: real): Vec { Vec(x * k, y * k) }
    function Div(k: real): Vec
      requires k != 0.0
    { Vec(x / k, y / k) }
  }

  const Zero := Vec(0.0, 0.0)

  /** Vector2.right */
  const Right := Vec(1.0, 0.0)

  /** z-component of the 3D cross product: zero exactly when u and w are parallel. */
  function Cross(u: Vec, w: Vec): real {
    u.x * w.y - u.y * w.x
  }

  /** Squared Euclidean distance, written out (no square root needed). */
  function SquaredDistance(u: Vec, w: Vec): real {
    (u.x - w.x) * (u.x - w.x) + (u.y - w.y) * (u.y - w.y)
  }

  /** The engine operations the source calls; `angle` and `rotate` work in degrees. */
  datatype Maths = Maths(
    magnitude: Vec -> real,
    normalized: Vec -> Vec,
    angle: (Vec, Vec) -> real,
    rotate: (real, Vec) -> Vec,
    sqrt: real -> real,
    cos: real -> real,
    sin: real -> real)

  /** The minimal facts about these operations that the proofs rely on. */
  ghost predicate Valid(m: Maths) {
    // magnitude is a norm: non-negative, zero only at the origin, absolutely homogeneous
    && (forall v :: m.magnitude(v) >= 0.0)
    && (forall v :: m.magnitude(v) == 0.0 ==> v == Zero)
    && (forall v: Vec, k: real {:trigger m.magnitude(v.Scale(k))} :: m.magnitude(v.Scale(k)) == Abs(k) * m.magnitude(v))
    && m.magnitude(Right) == 1.0
    // normalized(v) * |v| == v for every non-zero v
    && (forall v {:trigger m.normalized(v)} :: v != Zero ==> m.normalized(v).Scale(m.magnitude(v)) == v)
    // Vector2.Angle is unsigned, in degrees, and zero only for parallel vectors
    && (forall u, w :: 0.0 <= m.angle(u, w) <= 180.0)
    && (forall u, w :: m.angle(u, w) == 0.0 ==> Cross(u, w) == 0.0)
    // turning Vector2.right by the signed angle of a unit vector n gives n back
    && (forall n {:trigger m.angle(Right, n)} :: m.magnitude(n) == 1.0 ==>
          m.rotate(if n.y < 0.0 then -m.angle(Right, n) else m.angle(Right, n), Right) == n)
    // a rotation preserves length and commutes with scaling
    && (forall d, v :: m.magnitude(m.rotate(d, v)) == m.magnitude(v))
    && (forall d: real, v: Vec, k: real {:trigger m.rotate(d, v.Scale(k))} :: m.rotate(d, v.Scale(k)) == m.rotate(d, v).Scale(k))
    // square root of a non-negative real
    && (forall x :: 0.0 <= x ==> 0.0 <= m.sqrt(x) && m.sqrt(x) * m.sqrt(x) == x)
    // the cosine and sine of 0
    && m.cos(0.0) == 1.0 && m.sin(0.0) == 0.0
  }

  /** A non-zero vector has positive length, and normalized(v) is v divided by it, of length 1. */
  lemma NormalizedIsUnitDirection(m: Maths, v: Vec)
    requires Valid(m)
    requires v != Zero
    ensures m.magnitude(v) > 0.0
    ensures m.normalized(v) == v.Scale(1.0 / m.magnitude(v))
    ensures m.magnitude(m.normalized(v)) == 1.0
  {
    var len := m.magnitude(v);
    var n := m.normalized(v);
    assert len != 0.0;
    assert n.Scale(len) == v;
    assert n.x * len == v.x && n.y * len == v.y;
    assert n.x == v.x / len && n.y == v.y / len;
    assert m.magnitude(n.Scale(len)) == len * m.magnitude(n);
    assert len * m.magnitude(n) == len * 1.0;
  }

  /** For a non-zero v, normalized(v) has length 1 and points below the x axis exactly when v does. */
  lemma DirectionSign(m: Maths, v: Vec)
    requires Valid(m)
    requires v != Zero
    ensures m.magnitude(m.normalized(v)) == 1.0
    ensures m.normalized(v).y < 0.0 <==> v.y < 0.0
  {
    NormalizedIsUnitDirection(m, v);
    var k := 1.0 / m.magnitude(v);
    assert m.normalized(v).y == v.y * k;
    if v.y < 0.0 {
      MulPositive(-v.y, k);
    } else {
      MulNonNegative(v.y, k);
    }
  }

  /** The origin has length zero. */
  lemma MagnitudeOfZero(m: Maths)
    requires Valid(m)
    ensures m.magnitude(Zero) == 0.0
  {
    assert Zero == Zero.Scale(0.0);
    assert m.magnitude(Zero.Scale(0.0)) == Abs(0.0) * m.magnitude(Zero);
  }

  /** Distance is symmetric: |u - w| == |w - u|. */
  lemma MagnitudeSymmetric(m: Maths, u: Vec, w: Vec)
    requires Valid(m)
    ensures m.magnitude(u.Sub(w)) == m.magnitude(w.Sub(u))
  {
    var d := u.Sub(w);
    assert w.Sub(u) == d.Scale(-1.0);
    assert Abs(-1.0) == 1.0;
    assert m.magnitude(d.Scale(-1.0)) == Abs(-1.0) * m.magnitude(d);
  }

  /** A vector on the x axis keeps its length |x| under any rotation. */
  lemma RotatedAxisLength(m: Maths, d: real, x: real)
    requires Valid(m)
    ensures m.magnitude(m.rotate(d, Vec(x, 0.0))) == Abs(x)
  {
    assert Vec(x, 0.0) == Right.Scale(x);
    assert m.magnitude(Right.Scale(x)) == Abs(x) * m.magnitude(Right);
  }
}
