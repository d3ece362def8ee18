/** The small part of linear algebra that the wrapper and the geometry code use:
    3-vectors over the reals, quaternions, and unit quaternions.

    Floating-point numbers are modelled as `real`. A unit quaternion is kept as
    the expression that builds it (normalising a quaternion, converting a
    scaled rotation axis, multiplying two unit quaternions), so that the
    numerics of normalisation and of the axis-angle conversion stay
    uninterpreted while the model can still say exactly which unit quaternion
    a goal orientation is. */
module Algebra {

  datatype Vec3 = Vec3(x: real, y: real, z: real)

  const Zero: Vec3 := Vec3(0.0, 0.0, 0.0)

  function Add(a: Vec3, b: Vec3): Vec3 {
    Vec3(a.x + b.x, a.y + b.y, a.z + b.z)
  }

  function Sub(a: Vec3, b: Vec3): Vec3 {
    Vec3(a.x - b.x, a.y - b.y, a.z - b.z)
  }

  function Scale(s: real, v: Vec3): Vec3 {
    Vec3(s * v.x, s * v.y, s * v.z)
  }

  function Dot(a: Vec3, b: Vec3): real {
    a.x * b.x + a.y * b.y + a.z * b.z
  }

  lemma {:induction false} SquareNonNegative(r: real)
    ensures r * r >= 0.0
  {
  }

  /** The squared Euclidean norm is never negative. */
  function NormSq(v: Vec3): (r: real)
    ensures r >= 0.0
  {
    SquareNonNegative(v.x);
    SquareNonNegative(v.y);
    SquareNonNegative(v.z);
    Dot(v, v)
  }

  lemma {:induction false} ExpandSquare(s: real, v: real, w: real)
    ensures (s * v - w) * (s * v - w) == s * s * (v * v) - 2.0 * s * (w * v) + w * w
  {
  }

  lemma {:induction false} Distribute(k: real, a: real, b: real, c: real)
    ensures k * (a + b + c) == k * a + k * b + k * c
  {
  }

  /** The quadratic s^2 len - 2 s c + w in s. */
  function Quadratic(s: real, len: real, c: real, w: real): real
  {
    s * s * len - 2.0 * s * c + w
  }

  /** |w - s v|^2 = s^2 |v|^2 - 2 s (w . v) + |w|^2. */
  lemma {:induction false} ExpandNormSq(s: real, v: Vec3, w: Vec3)
    ensures NormSq(Sub(Scale(s, v), w)) == Quadratic(s, NormSq(v), Dot(w, v), NormSq(w))
  {
    var d := Sub(Scale(s, v), w);
    assert NormSq(d) == d.x * d.x + d.y * d.y + d.z * d.z;
    assert d.x == s * v.x - w.x && d.y == s * v.y - w.y && d.z == s * v.z - w.z;
    ExpandSquare(s, v.x, w.x);
    ExpandSquare(s, v.y, w.y);
    ExpandSquare(s, v.z, w.z);
    assert NormSq(v) == v.x * v.x + v.y * v.y + v.z * v.z;
    Distribute(s * s, v.x * v.x, v.y * v.y, v.z * v.z);
    Distribute(2.0 * s, w.x * v.x, w.y * v.y, w.z * v.z);
    assert NormSq(d) == s * s * NormSq(v) - 2.0 * s * Dot(w, v) + NormSq(w);
  }

  /** A vector of zero squared length is orthogonal to every vector. */
  lemma {:induction false} ZeroNormOrthogonal(v: Vec3, w: Vec3)
    requires NormSq(v) == 0.0
    ensures Dot(w, v) == 0.0
  {
    var c := Dot(w, v);
    if c != 0.0 {
      var lambda := (NormSq(w) + 1.0) / (2.0 * c);
      assert lambda * (2.0 * c) == NormSq(w) + 1.0;
      ExpandNormSq(lambda, v, w);
      assert false;
    }
  }

  /** nalgebra's `Quaternion::new(w, i, j, k)`: the real part comes first. */
  datatype Quaternion = Quaternion(w: real, i: real, j: real, k: real)

  /** A unit quaternion, as the expression that produced it. */
  datatype UnitQuaternion =
    | FromQuaternion(q: Quaternion)        // `UnitQuaternion::from_quaternion`: normalises q
    | FromScaledAxis(axisAngle: Vec3)      // `UnitQuaternion::from_scaled_axis`: rotation by |v| about v
    | Product(lhs: UnitQuaternion, rhs: UnitQuaternion)  // `lhs * rhs`
}
