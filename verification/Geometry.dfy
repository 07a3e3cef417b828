/** Vectors, quaternions and 3x3 matrices with the operators of `ap-math`. */
module Geometry {
  import opened Numeric

  datatype Vector3 = Vector3(x: real, y: real, z: real)

  datatype Quaternion = Quaternion(q1: real, q2: real, q3: real, q4: real)

  datatype Matrix3 = Matrix3(a: Vector3, b: Vector3, c: Vector3)

  const ZERO3 := Vector3(0.0, 0.0, 0.0)

  function Add(u: Vector3, v: Vector3): Vector3 { Vector3(u.x + v.x, u.y + v.y, u.z + v.z) }

  function Minus(u: Vector3, v: Vector3): Vector3 { Vector3(u.x - v.x, u.y - v.y, u.z - v.z) }

  function Scale(u: Vector3, k: real): Vector3 { Vector3(u.x * k, u.y * k, u.z * k) }

  function Dot3(u: Vector3, v: Vector3): real { u.x * v.x + u.y * v.y + u.z * v.z }

  function Cross(u: Vector3, v: Vector3): Vector3 {
    Vector3(u.y * v.z - u.z * v.y, u.z * v.x - u.x * v.z, u.x * v.y - u.y * v.x)
  }

  function LengthSquared(u: Vector3): real { Dot3(u, u) }

  function Length(sqrt: real -> real, u: Vector3): real { sqrt(LengthSquared(u)) }

  function SumOfSquares(a: real, b: real, c: real, d: real): real { a * a + b * b + c * c + d * d }

  function Norm(q: Quaternion): real { SumOfSquares(q.q1, q.q2, q.q3, q.q4) }

  function Inverse(q: Quaternion): Quaternion { Quaternion(q.q1, -q.q2, -q.q3, -q.q4) }

  /** Hamilton product. */
  function Mul(p: Quaternion, r: Quaternion): Quaternion {
    Quaternion(
      Times(p.q1, r.q1) - Times(p.q2, r.q2) - Times(p.q3, r.q3) - Times(p.q4, r.q4),
      Times(p.q1, r.q2) + Times(p.q2, r.q1) + Times(p.q3, r.q4) - Times(p.q4, r.q3),
      Times(p.q1, r.q3) - Times(p.q2, r.q4) + Times(p.q3, r.q1) + Times(p.q4, r.q2),
      Times(p.q1, r.q4) + Times(p.q2, r.q3) - Times(p.q3, r.q2) + Times(p.q4, r.q1))
  }

  function Doubled(a: real, b: real, c: real, d: real): real { 2.0 * (a * b - c * d) }

  /** One component of the rotated vector: `uv` is twice the cross product of the vector part with `v`. */
  function Turned(v: real, q1: real, uv: real, qa: real, uvb: real, qb: real, uva: real): real { v + (q1 * uv + qa * uvb - qb * uva) }

  /** Quaternion-times-vector, in the doubled cross product form the source uses. */
  function Rotate(q: Quaternion, v: Vector3): Vector3 {
    var ux, uy, uz := Doubled(q.q3, v.z, q.q4, v.y), Doubled(q.q4, v.x, q.q2, v.z), Doubled(q.q2, v.y, q.q3, v.x);
    Vector3(Turned(v.x, q.q1, ux, q.q3, uz, q.q4, uy),
            Turned(v.y, q.q1, uy, q.q4, ux, q.q2, uz),
            Turned(v.z, q.q1, uz, q.q2, uy, q.q3, ux))
  }

  /** `normalize`: a quaternion too short to scale is left alone. */
  function Normalized(sqrt: real -> real, q: Quaternion): Quaternion {
    var mag := sqrt(Norm(q));
    if IsZero(mag) then q
    else
      var inv := 1.0 / mag;
      Quaternion(Times(q.q1, inv), Times(q.q2, inv), Times(q.q3, inv), Times(q.q4, inv))
  }

  function RotationMatrix(q: Quaternion): Matrix3 {
    Matrix3(
      Vector3(1.0 - 2.0 * (q.q3 * q.q3 + q.q4 * q.q4), 2.0 * (q.q2 * q.q3 - q.q1 * q.q4), 2.0 * (q.q2 * q.q4 + q.q1 * q.q3)),
      Vector3(2.0 * (q.q2 * q.q3 + q.q1 * q.q4), 1.0 - 2.0 * (q.q2 * q.q2 + q.q4 * q.q4), 2.0 * (q.q3 * q.q4 - q.q1 * q.q2)),
      Vector3(2.0 * (q.q2 * q.q4 - q.q1 * q.q3), 2.0 * (q.q3 * q.q4 + q.q1 * q.q2), 1.0 - 2.0 * (q.q2 * q.q2 + q.q3 * q.q3)))
  }

  /** Matrix times column vector. */
  function Image(m: Matrix3, v: Vector3): Vector3 {
    Vector3(Times(m.a.x, v.x) + Times(m.a.y, v.y) + Times(m.a.z, v.z),
            Times(m.b.x, v.x) + Times(m.b.y, v.y) + Times(m.b.z, v.z),
            Times(m.c.x, v.x) + Times(m.c.y, v.y) + Times(m.c.z, v.z))
  }

  // ---- inner and cross products ----

  lemma CrossSquare(u: Vector3, v: Vector3)
    ensures LengthSquared(Cross(u, v)) == Times(LengthSquared(u), LengthSquared(v)) - Sq(Dot3(u, v))
  {
    CrossSquareScalar(u.x, u.y, u.z, v.x, v.y, v.z);
  }

  lemma CrossSquareScalar(a: real, b: real, c: real, d: real, e: real, f: real)
    ensures (b * f - c * e) * (b * f - c * e) + (c * d - a * f) * (c * d - a * f) + (a * e - b * d) * (a * e - b * d)
            == Times(a * a + b * b + c * c, d * d + e * e + f * f) - Sq(a * d + b * e + c * f)
  {}

  lemma CrossPerpendicular(u: Vector3, v: Vector3)
    ensures Dot3(Cross(u, v), u) == 0.0 && Dot3(Cross(u, v), v) == 0.0
  {}

  lemma LengthLaw(sqrt: real -> real, v: Vector3)
    requires IsSquareRoot(sqrt)
    ensures Length(sqrt, v) >= 0.0 && Times(Length(sqrt, v), Length(sqrt, v)) == LengthSquared(v)
  {
    assert LengthSquared(v) >= 0.0 by {
      SumNonNegative(v.x, v.y, v.z);
    }
    hide LengthSquared;
  }

  lemma SumNonNegative(x: real, y: real, z: real)
    ensures x * x + y * y + z * z >= 0.0
  {}
}
