/** Quaternion algebra over the reals: associativity, conjugates, and rotation as conjugation. */
module QuaternionAlgebra {
  import opened Numeric
  import opened Geometry

  predicate UnitQuaternion(q: Quaternion) { Norm(q) == 1.0 }

  predicate UnitVector(v: Vector3) { LengthSquared(v) == 1.0 }

  const IDENTITY := Quaternion(1.0, 0.0, 0.0, 0.0)

  // ---- the Hamilton product ----

  lemma ExpandLeft1(a1: real, b1: real, a2: real, b2: real, a3: real, b3: real, a4: real, b4: real, k: real)
    ensures Times(Times(a1, b1) - Times(a2, b2) - Times(a3, b3) - Times(a4, b4), k)
            == Triple(a1, b1, k) - Triple(a2, b2, k) - Triple(a3, b3, k) - Triple(a4, b4, k)
  {}

  lemma ExpandRight1(k: real, a1: real, b1: real, a2: real, b2: real, a3: real, b3: real, a4: real, b4: real)
    ensures Times(k, Times(a1, b1) - Times(a2, b2) - Times(a3, b3) - Times(a4, b4))
            == Triple(k, a1, b1) - Triple(k, a2, b2) - Triple(k, a3, b3) - Triple(k, a4, b4)
  {}

  lemma ExpandLeft2(a1: real, b1: real, a2: real, b2: real, a3: real, b3: real, a4: real, b4: real, k: real)
    ensures Times(Times(a1, b1) + Times(a2, b2) + Times(a3, b3) - Times(a4, b4), k)
            == Triple(a1, b1, k) + Triple(a2, b2, k) + Triple(a3, b3, k) - Triple(a4, b4, k)
  {}

  lemma ExpandRight2(k: real, a1: real, b1: real, a2: real, b2: real, a3: real, b3: real, a4: real, b4: real)
    ensures Times(k, Times(a1, b1) + Times(a2, b2) + Times(a3, b3) - Times(a4, b4))
            == Triple(k, a1, b1) + Triple(k, a2, b2) + Triple(k, a3, b3) - Triple(k, a4, b4)
  {}

  lemma ExpandLeft3(a1: real, b1: real, a2: real, b2: real, a3: real, b3: real, a4: real, b4: real, k: real)
    ensures Times(Times(a1, b1) - Times(a2, b2) + Times(a3, b3) + Times(a4, b4), k)
            == Triple(a1, b1, k) - Triple(a2, b2, k) + Triple(a3, b3, k) + Triple(a4, b4, k)
  {}

  lemma ExpandRight3(k: real, a1: real, b1: real, a2: real, b2: real, a3: real, b3: real, a4: real, b4: real)
    ensures Times(k, Times(a1, b1) - Times(a2, b2) + Times(a3, b3) + Times(a4, b4))
            == Triple(k, a1, b1) - Triple(k, a2, b2) + Triple(k, a3, b3) + Triple(k, a4, b4)
  {}

  lemma ExpandLeft4(a1: real, b1: real, a2: real, b2: real, a3: real, b3: real, a4: real, b4: real, k: real)
    ensures Times(Times(a1, b1) + Times(a2, b2) - Times(a3, b3) + Times(a4, b4), k)
            == Triple(a1, b1, k) + Triple(a2, b2, k) - Triple(a3, b3, k) + Triple(a4, b4, k)
  {}

  lemma ExpandRight4(k: real, a1: real, b1: real, a2: real, b2: real, a3: real, b3: real, a4: real, b4: real)
    ensures Times(k, Times(a1, b1) + Times(a2, b2) - Times(a3, b3) + Times(a4, b4))
            == Triple(k, a1, b1) + Triple(k, a2, b2) - Triple(k, a3, b3) + Triple(k, a4, b4)
  {}

  lemma MulAssociative1(p: Quaternion, q: Quaternion, r: Quaternion)
    ensures Mul(Mul(p, q), r).q1 == Mul(p, Mul(q, r)).q1
  {
    hide Times, Triple;
    ExpandLeft1(p.q1, q.q1, p.q2, q.q2, p.q3, q.q3, p.q4, q.q4, r.q1);
    ExpandLeft2(p.q1, q.q2, p.q2, q.q1, p.q3, q.q4, p.q4, q.q3, r.q2);
    ExpandLeft3(p.q1, q.q3, p.q2, q.q4, p.q3, q.q1, p.q4, q.q2, r.q3);
    ExpandLeft4(p.q1, q.q4, p.q2, q.q3, p.q3, q.q2, p.q4, q.q1, r.q4);
    ExpandRight1(p.q1, q.q1, r.q1, q.q2, r.q2, q.q3, r.q3, q.q4, r.q4);
    ExpandRight2(p.q2, q.q1, r.q2, q.q2, r.q1, q.q3, r.q4, q.q4, r.q3);
    ExpandRight3(p.q3, q.q1, r.q3, q.q2, r.q4, q.q3, r.q1, q.q4, r.q2);
    ExpandRight4(p.q4, q.q1, r.q4, q.q2, r.q3, q.q3, r.q2, q.q4, r.q1);
  }

  lemma MulAssociative2(p: Quaternion, q: Quaternion, r: Quaternion)
    ensures Mul(Mul(p, q), r).q2 == Mul(p, Mul(q, r)).q2
  {
    hide Times, Triple;
    ExpandLeft1(p.q1, q.q1, p.q2, q.q2, p.q3, q.q3, p.q4, q.q4, r.q2);
    ExpandLeft2(p.q1, q.q2, p.q2, q.q1, p.q3, q.q4, p.q4, q.q3, r.q1);
    ExpandLeft3(p.q1, q.q3, p.q2, q.q4, p.q3, q.q1, p.q4, q.q2, r.q4);
    ExpandLeft4(p.q1, q.q4, p.q2, q.q3, p.q3, q.q2, p.q4, q.q1, r.q3);
    ExpandRight2(p.q1, q.q1, r.q2, q.q2, r.q1, q.q3, r.q4, q.q4, r.q3);
    ExpandRight1(p.q2, q.q1, r.q1, q.q2, r.q2, q.q3, r.q3, q.q4, r.q4);
    ExpandRight4(p.q3, q.q1, r.q4, q.q2, r.q3, q.q3, r.q2, q.q4, r.q1);
    ExpandRight3(p.q4, q.q1, r.q3, q.q2, r.q4, q.q3, r.q1, q.q4, r.q2);
  }

  lemma MulAssociative3(p: Quaternion, q: Quaternion, r: Quaternion)
    ensures Mul(Mul(p, q), r).q3 == Mul(p, Mul(q, r)).q3
  {
    hide Times, Triple;
    ExpandLeft1(p.q1, q.q1, p.q2, q.q2, p.q3, q.q3, p.q4, q.q4, r.q3);
    ExpandLeft2(p.q1, q.q2, p.q2, q.q1, p.q3, q.q4, p.q4, q.q3, r.q4);
    ExpandLeft3(p.q1, q.q3, p.q2, q.q4, p.q3, q.q1, p.q4, q.q2, r.q1);
    ExpandLeft4(p.q1, q.q4, p.q2, q.q3, p.q3, q.q2, p.q4, q.q1, r.q2);
    ExpandRight3(p.q1, q.q1, r.q3, q.q2, r.q4, q.q3, r.q1, q.q4, r.q2);
    ExpandRight4(p.q2, q.q1, r.q4, q.q2, r.q3, q.q3, r.q2, q.q4, r.q1);
    ExpandRight1(p.q3, q.q1, r.q1, q.q2, r.q2, q.q3, r.q3, q.q4, r.q4);
    ExpandRight2(p.q4, q.q1, r.q2, q.q2, r.q1, q.q3, r.q4, q.q4, r.q3);
  }

  lemma MulAssociative4(p: Quaternion, q: Quaternion, r: Quaternion)
    ensures Mul(Mul(p, q), r).q4 == Mul(p, Mul(q, r)).q4
  {
    hide Times, Triple;
    ExpandLeft1(p.q1, q.q1, p.q2, q.q2, p.q3, q.q3, p.q4, q.q4, r.q4);
    ExpandLeft2(p.q1, q.q2, p.q2, q.q1, p.q3, q.q4, p.q4, q.q3, r.q3);
    ExpandLeft3(p.q1, q.q3, p.q2, q.q4, p.q3, q.q1, p.q4, q.q2, r.q2);
    ExpandLeft4(p.q1, q.q4, p.q2, q.q3, p.q3, q.q2, p.q4, q.q1, r.q1);
    ExpandRight4(p.q1, q.q1, r.q4, q.q2, r.q3, q.q3, r.q2, q.q4, r.q1);
    ExpandRight3(p.q2, q.q1, r.q3, q.q2, r.q4, q.q3, r.q1, q.q4, r.q2);
    ExpandRight2(p.q3, q.q1, r.q2, q.q2, r.q1, q.q3, r.q4, q.q4, r.q3);
    ExpandRight1(p.q4, q.q1, r.q1, q.q2, r.q2, q.q3, r.q3, q.q4, r.q4);
  }

  lemma MulAssociative(p: Quaternion, q: Quaternion, r: Quaternion)
    ensures Mul(Mul(p, q), r) == Mul(p, Mul(q, r))
  {
    hide Mul;
    MulAssociative1(p, q, r);
    MulAssociative2(p, q, r);
    MulAssociative3(p, q, r);
    MulAssociative4(p, q, r);
  }

  lemma SwappedNegated(a: real, a': real, b: real)
    requires a' == -a
    ensures Times(a', b) == -Times(a, b) == -Times(b, a) == Times(b, a')
  {}

  lemma SwappedBoth(a: real, a': real, b: real, b': real)
    requires a' == -a && b' == -b
    ensures Times(b', a') == Times(a, b)
  {}

  lemma InverseMul(p: Quaternion, q: Quaternion)
    ensures Inverse(Mul(p, q)) == Mul(Inverse(q), Inverse(p))
  {
    hide Times;
    Swapped(p.q1, q.q1);
    SwappedNegated(q.q2, Inverse(q).q2, p.q1);
    SwappedNegated(q.q3, Inverse(q).q3, p.q1);
    SwappedNegated(q.q4, Inverse(q).q4, p.q1);
    SwappedNegated(p.q2, Inverse(p).q2, q.q1);
    SwappedBoth(p.q2, Inverse(p).q2, q.q2, Inverse(q).q2);
    SwappedBoth(p.q2, Inverse(p).q2, q.q3, Inverse(q).q3);
    SwappedBoth(p.q2, Inverse(p).q2, q.q4, Inverse(q).q4);
    SwappedNegated(p.q3, Inverse(p).q3, q.q1);
    SwappedBoth(p.q3, Inverse(p).q3, q.q2, Inverse(q).q2);
    SwappedBoth(p.q3, Inverse(p).q3, q.q3, Inverse(q).q3);
    SwappedBoth(p.q3, Inverse(p).q3, q.q4, Inverse(q).q4);
    SwappedNegated(p.q4, Inverse(p).q4, q.q1);
    SwappedBoth(p.q4, Inverse(p).q4, q.q2, Inverse(q).q2);
    SwappedBoth(p.q4, Inverse(p).q4, q.q3, Inverse(q).q3);
    SwappedBoth(p.q4, Inverse(p).q4, q.q4, Inverse(q).q4);
  }

  /** A quaternion times its inverse is its squared length. */
  lemma MulInverse(q: Quaternion)
    ensures Mul(q, Inverse(q)) == Quaternion(Norm(q), 0.0, 0.0, 0.0) == Mul(Inverse(q), q)
  {}

  lemma MulScalar(q: Quaternion, n: real)
    ensures Mul(q, Quaternion(n, 0.0, 0.0, 0.0)) == Quaternion(Times(n, q.q1), Times(n, q.q2), Times(n, q.q3), Times(n, q.q4))
  {}

  lemma NormInverse(q: Quaternion)
    ensures Norm(Inverse(q)) == Norm(q) && Inverse(Inverse(q)) == q
  {}

  lemma MulIdentity(q: Quaternion)
    ensures Mul(q, IDENTITY) == q == Mul(IDENTITY, q)
  {}

  /** A unit quaternion times its inverse is the identity, on both sides. */
  lemma Cancels(q: Quaternion)
    requires UnitQuaternion(q)
    ensures Mul(q, Inverse(q)) == IDENTITY == Mul(Inverse(q), q)
  {
    hide Mul, Norm;
    MulInverse(q);
  }

  lemma UnitMul(p: Quaternion, q: Quaternion)
    requires UnitQuaternion(p) && UnitQuaternion(q)
    ensures UnitQuaternion(Mul(p, q)) && UnitQuaternion(Inverse(q))
  {
    hide Mul, Norm, Inverse;
    NormInverse(q);
    MulInverse(Mul(p, q));
    InverseMul(p, q);
    MulAssociative(p, q, Mul(Inverse(q), Inverse(p)));
    MulAssociative(q, Inverse(q), Inverse(p));
    Cancels(q);
    MulIdentity(Inverse(p));
    Cancels(p);
  }

  // ---- rotation as conjugation ----

  function Pure(v: Vector3): Quaternion { Quaternion(0.0, v.x, v.y, v.z) }

  function Conjugated(q: Quaternion, v: Vector3): Quaternion { Mul(Mul(q, Pure(v)), Inverse(q)) }

  lemma ZeroTriple(a: real, b: real)
    ensures Triple(a, 0.0, b) == 0.0
  {}

  lemma ConjugatedTriples1(q: Quaternion, v: Vector3)
    ensures Triple(q.q1, 0.0, q.q1) - Triple(q.q2, v.x, q.q1) - Triple(q.q3, v.y, q.q1) - Triple(q.q4, v.z, q.q1)
        - Triple(q.q1, v.x, -q.q2) - Triple(q.q2, 0.0, -q.q2) - Triple(q.q3, v.z, -q.q2) + Triple(q.q4, v.y, -q.q2)
        - Triple(q.q1, v.y, -q.q3) + Triple(q.q2, v.z, -q.q3) - Triple(q.q3, 0.0, -q.q3) - Triple(q.q4, v.x, -q.q3)
        - Triple(q.q1, v.z, -q.q4) - Triple(q.q2, v.y, -q.q4) + Triple(q.q3, v.x, -q.q4) - Triple(q.q4, 0.0, -q.q4)
            == 0.0
  {}

  lemma ConjugatedComponent1(q: Quaternion, v: Vector3)
    ensures Conjugated(q, v).q1 == 0.0
  {
    hide Triple, Times, Rotate, Norm;
    hide Times, Triple, Rotate, Norm;
    ExpandLeft1(q.q1, 0.0, q.q2, v.x, q.q3, v.y, q.q4, v.z, q.q1);
    ExpandLeft2(q.q1, v.x, q.q2, 0.0, q.q3, v.z, q.q4, v.y, -q.q2);
    ExpandLeft3(q.q1, v.y, q.q2, v.z, q.q3, 0.0, q.q4, v.x, -q.q3);
    ExpandLeft4(q.q1, v.z, q.q2, v.y, q.q3, v.x, q.q4, 0.0, -q.q4);
    ConjugatedTriples1(q, v);
  }

  lemma ConjugatedTriples2x(a: real, b: real, c: real, d: real, x: real)
    ensures -Triple(b, x, -b) + Triple(a, x, a) + Triple(d, x, -d) + Triple(c, x, -c) == Times(a * a + b * b - c * c - d * d, x)
  {}

  lemma ConjugatedTriples2y(a: real, b: real, c: real, d: real, x: real)
    ensures -Triple(c, x, -b) - Triple(d, x, a) + Triple(a, x, -d) - Triple(b, x, -c) == Times(2.0 * (b * c - a * d), x)
  {}

  lemma ConjugatedTriples2z(a: real, b: real, c: real, d: real, x: real)
    ensures -Triple(d, x, -b) + Triple(c, x, a) - Triple(b, x, -d) - Triple(a, x, -c) == Times(2.0 * (b * d + a * c), x)
  {}

  lemma TurnedComponent2(a: real, b: real, c: real, d: real, x: real, y: real, z: real)
    ensures Times(a * a + b * b - c * c - d * d, x) + Times(2.0 * (b * c - a * d), y) + Times(2.0 * (b * d + a * c), z)
            == Turned(x, a, Doubled(c, z, d, y), c, Doubled(b, y, c, x), d, Doubled(d, x, b, z)) + Times(SumOfSquares(a,
                b, c, d), x) - x
  {}

  lemma RotatedComponent2(q: Quaternion, v: Vector3)
    ensures Times(q.q1 * q.q1 + q.q2 * q.q2 - q.q3 * q.q3 - q.q4 * q.q4, v.x) + Times(2.0 * (q.q2 * q.q3 - q.q1 * q.q4),
        v.y) + Times(2.0 * (q.q2 * q.q4 + q.q1 * q.q3), v.z) == Rotate(q, v).x + Times(Norm(q), v.x) - v.x
  {
    hide Turned, Times, Doubled, SumOfSquares;
    TurnedComponent2(q.q1, q.q2, q.q3, q.q4, v.x, v.y, v.z);
  }

  lemma ConjugatedTriples2(q: Quaternion, v: Vector3)
    ensures Triple(q.q1, 0.0, -q.q2) - Triple(q.q2, v.x, -q.q2) - Triple(q.q3, v.y, -q.q2) - Triple(q.q4, v.z, -q.q2)
        + Triple(q.q1, v.x, q.q1) + Triple(q.q2, 0.0, q.q1) + Triple(q.q3, v.z, q.q1) - Triple(q.q4, v.y, q.q1)
        + Triple(q.q1, v.y, -q.q4) - Triple(q.q2, v.z, -q.q4) + Triple(q.q3, 0.0, -q.q4) + Triple(q.q4, v.x, -q.q4)
        - Triple(q.q1, v.z, -q.q3) - Triple(q.q2, v.y, -q.q3) + Triple(q.q3, v.x, -q.q3) - Triple(q.q4, 0.0, -q.q3)
            == Rotate(q, v).x + Times(Norm(q), v.x) - v.x
  {
    RotatedComponent2(q, v);
    ConjugatedTriples2x(q.q1, q.q2, q.q3, q.q4, v.x);
    ConjugatedTriples2y(q.q1, q.q2, q.q3, q.q4, v.y);
    ConjugatedTriples2z(q.q1, q.q2, q.q3, q.q4, v.z);
    ZeroTriple(q.q1, -q.q2);
    ZeroTriple(q.q2, q.q1);
    ZeroTriple(q.q3, -q.q4);
    ZeroTriple(q.q4, -q.q3);
  }

  lemma ConjugatedComponent2(q: Quaternion, v: Vector3)
    ensures Conjugated(q, v).q2 == Rotate(q, v).x + Times(Norm(q), v.x) - v.x
  {
    hide Times, Triple, Rotate, Norm;
    ExpandLeft1(q.q1, 0.0, q.q2, v.x, q.q3, v.y, q.q4, v.z, -q.q2);
    ExpandLeft2(q.q1, v.x, q.q2, 0.0, q.q3, v.z, q.q4, v.y, q.q1);
    ExpandLeft3(q.q1, v.y, q.q2, v.z, q.q3, 0.0, q.q4, v.x, -q.q4);
    ExpandLeft4(q.q1, v.z, q.q2, v.y, q.q3, v.x, q.q4, 0.0, -q.q3);
    ConjugatedTriples2(q, v);
  }

  lemma ConjugatedTriples3x(a: real, b: real, c: real, d: real, x: real)
    ensures -Triple(b, x, -c) - Triple(a, x, -d) + Triple(d, x, a) - Triple(c, x, -b) == Times(2.0 * (b * c + a * d), x)
  {}

  lemma ConjugatedTriples3y(a: real, b: real, c: real, d: real, x: real)
    ensures -Triple(c, x, -c) + Triple(d, x, -d) + Triple(a, x, a) + Triple(b, x, -b) == Times(a * a - b * b + c * c - d * d, x)
  {}

  lemma ConjugatedTriples3z(a: real, b: real, c: real, d: real, x: real)
    ensures -Triple(d, x, -c) - Triple(c, x, -d) - Triple(b, x, a) + Triple(a, x, -b) == Times(2.0 * (c * d - a * b), x)
  {}

  lemma TurnedComponent3(a: real, b: real, c: real, d: real, x: real, y: real, z: real)
    ensures Times(2.0 * (b * c + a * d), x) + Times(a * a - b * b + c * c - d * d, y) + Times(2.0 * (c * d - a * b), z)
            == Turned(y, a, Doubled(d, x, b, z), d, Doubled(c, z, d, y), b, Doubled(b, y, c, x)) + Times(SumOfSquares(a,
                b, c, d), y) - y
  {}

  lemma RotatedComponent3(q: Quaternion, v: Vector3)
    ensures Times(2.0 * (q.q2 * q.q3 + q.q1 * q.q4), v.x) + Times(q.q1 * q.q1 - q.q2 * q.q2 + q.q3 * q.q3 - q.q4 * q.q4,
        v.y) + Times(2.0 * (q.q3 * q.q4 - q.q1 * q.q2), v.z) == Rotate(q, v).y + Times(Norm(q), v.y) - v.y
  {
    hide Turned, Times, Doubled, SumOfSquares;
    TurnedComponent3(q.q1, q.q2, q.q3, q.q4, v.x, v.y, v.z);
  }

  lemma ConjugatedTriples3(q: Quaternion, v: Vector3)
    ensures Triple(q.q1, 0.0, -q.q3) - Triple(q.q2, v.x, -q.q3) - Triple(q.q3, v.y, -q.q3) - Triple(q.q4, v.z, -q.q3)
        - Triple(q.q1, v.x, -q.q4) - Triple(q.q2, 0.0, -q.q4) - Triple(q.q3, v.z, -q.q4) + Triple(q.q4, v.y, -q.q4)
        + Triple(q.q1, v.y, q.q1) - Triple(q.q2, v.z, q.q1) + Triple(q.q3, 0.0, q.q1) + Triple(q.q4, v.x, q.q1)
        + Triple(q.q1, v.z, -q.q2) + Triple(q.q2, v.y, -q.q2) - Triple(q.q3, v.x, -q.q2) + Triple(q.q4, 0.0, -q.q2)
            == Rotate(q, v).y + Times(Norm(q), v.y) - v.y
  {
    hide Triple, Times, Rotate, Norm;
    RotatedComponent3(q, v);
    ConjugatedTriples3x(q.q1, q.q2, q.q3, q.q4, v.x);
    ConjugatedTriples3y(q.q1, q.q2, q.q3, q.q4, v.y);
    ConjugatedTriples3z(q.q1, q.q2, q.q3, q.q4, v.z);
    ZeroTriple(q.q1, -q.q3);
    ZeroTriple(q.q2, -q.q4);
    ZeroTriple(q.q3, q.q1);
    ZeroTriple(q.q4, -q.q2);
  }

  lemma ConjugatedComponent3(q: Quaternion, v: Vector3)
    ensures Conjugated(q, v).q3 == Rotate(q, v).y + Times(Norm(q), v.y) - v.y
  {
    hide Times, Triple, Rotate, Norm;
    ExpandLeft1(q.q1, 0.0, q.q2, v.x, q.q3, v.y, q.q4, v.z, -q.q3);
    ExpandLeft2(q.q1, v.x, q.q2, 0.0, q.q3, v.z, q.q4, v.y, -q.q4);
    ExpandLeft3(q.q1, v.y, q.q2, v.z, q.q3, 0.0, q.q4, v.x, q.q1);
    ExpandLeft4(q.q1, v.z, q.q2, v.y, q.q3, v.x, q.q4, 0.0, -q.q2);
    ConjugatedTriples3(q, v);
  }

  lemma ConjugatedTriples4x(a: real, b: real, c: real, d: real, x: real)
    ensures -Triple(b, x, -d) + Triple(a, x, -c) - Triple(d, x, -b) - Triple(c, x, a) == Times(2.0 * (b * d - a * c), x)
  {}

  lemma ConjugatedTriples4y(a: real, b: real, c: real, d: real, x: real)
    ensures -Triple(c, x, -d) - Triple(d, x, -c) - Triple(a, x, -b) + Triple(b, x, a) == Times(2.0 * (c * d + a * b), x)
  {}

  lemma ConjugatedTriples4z(a: real, b: real, c: real, d: real, x: real)
    ensures -Triple(d, x, -d) + Triple(c, x, -c) + Triple(b, x, -b) + Triple(a, x, a) == Times(a * a - b * b - c * c + d * d, x)
  {}

  lemma TurnedComponent4(a: real, b: real, c: real, d: real, x: real, y: real, z: real)
    ensures Times(2.0 * (b * d - a * c), x) + Times(2.0 * (c * d + a * b), y) + Times(a * a - b * b - c * c + d * d, z)
            == Turned(z, a, Doubled(b, y, c, x), b, Doubled(d, x, b, z), c, Doubled(c, z, d, y)) + Times(SumOfSquares(a,
                b, c, d), z) - z
  {}

  lemma RotatedComponent4(q: Quaternion, v: Vector3)
    ensures Times(2.0 * (q.q2 * q.q4 - q.q1 * q.q3), v.x) + Times(2.0 * (q.q3 * q.q4 + q.q1 * q.q2), v.y)
        + Times(q.q1 * q.q1 - q.q2 * q.q2 - q.q3 * q.q3 + q.q4 * q.q4, v.z) == Rotate(q, v).z + Times(Norm(q), v.z)
        - v.z
  {
    hide Turned, Times, Doubled, SumOfSquares;
    TurnedComponent4(q.q1, q.q2, q.q3, q.q4, v.x, v.y, v.z);
  }

  lemma ConjugatedTriples4(q: Quaternion, v: Vector3)
    ensures Triple(q.q1, 0.0, -q.q4) - Triple(q.q2, v.x, -q.q4) - Triple(q.q3, v.y, -q.q4) - Triple(q.q4, v.z, -q.q4)
        + Triple(q.q1, v.x, -q.q3) + Triple(q.q2, 0.0, -q.q3) + Triple(q.q3, v.z, -q.q3) - Triple(q.q4, v.y, -q.q3)
        - Triple(q.q1, v.y, -q.q2) + Triple(q.q2, v.z, -q.q2) - Triple(q.q3, 0.0, -q.q2) - Triple(q.q4, v.x, -q.q2)
        + Triple(q.q1, v.z, q.q1) + Triple(q.q2, v.y, q.q1) - Triple(q.q3, v.x, q.q1) + Triple(q.q4, 0.0, q.q1)
            == Rotate(q, v).z + Times(Norm(q), v.z) - v.z
  {
    hide Triple, Times, Rotate, Norm;
    RotatedComponent4(q, v);
    ConjugatedTriples4x(q.q1, q.q2, q.q3, q.q4, v.x);
    ConjugatedTriples4y(q.q1, q.q2, q.q3, q.q4, v.y);
    ConjugatedTriples4z(q.q1, q.q2, q.q3, q.q4, v.z);
    ZeroTriple(q.q1, -q.q4);
    ZeroTriple(q.q2, -q.q3);
    ZeroTriple(q.q3, -q.q2);
    ZeroTriple(q.q4, q.q1);
  }

  lemma ConjugatedComponent4(q: Quaternion, v: Vector3)
    ensures Conjugated(q, v).q4 == Rotate(q, v).z + Times(Norm(q), v.z) - v.z
  {
    hide Times, Triple, Rotate, Norm;
    ExpandLeft1(q.q1, 0.0, q.q2, v.x, q.q3, v.y, q.q4, v.z, -q.q4);
    ExpandLeft2(q.q1, v.x, q.q2, 0.0, q.q3, v.z, q.q4, v.y, -q.q3);
    ExpandLeft3(q.q1, v.y, q.q2, v.z, q.q3, 0.0, q.q4, v.x, -q.q2);
    ExpandLeft4(q.q1, v.z, q.q2, v.y, q.q3, v.x, q.q4, 0.0, q.q1);
    ConjugatedTriples4(q, v);
  }

  lemma TimesUnit(n: real, x: real)
    requires n == 1.0
    ensures Times(n, x) == x
  {}

  /** The doubled cross product form is conjugation, for a unit quaternion. */
  lemma RotateConjugates(q: Quaternion, v: Vector3)
    requires UnitQuaternion(q)
    ensures Pure(Rotate(q, v)) == Conjugated(q, v)
  {
    hide Rotate, Conjugated, Norm, Times;
    ConjugatedComponent1(q, v);
    ConjugatedComponent2(q, v);
    ConjugatedComponent3(q, v);
    ConjugatedComponent4(q, v);
    TimesUnit(Norm(q), v.x);
    TimesUnit(Norm(q), v.y);
    TimesUnit(Norm(q), v.z);
  }

  /** Rotating by a product is rotating by its factors, the right one first. */
  lemma RotateMul(p: Quaternion, q: Quaternion, v: Vector3)
    requires UnitQuaternion(p) && UnitQuaternion(q)
    ensures Rotate(Mul(p, q), v) == Rotate(p, Rotate(q, v))
  {
    hide Mul, Rotate, Norm, Inverse;
    UnitMul(p, q);
    RotateConjugates(Mul(p, q), v);
    RotateConjugates(q, v);
    RotateConjugates(p, Rotate(q, v));
    InverseMul(p, q);
    var x := Pure(v);
    MulAssociative(p, q, x);
    MulAssociative(Mul(p, Mul(q, x)), Inverse(q), Inverse(p));
    MulAssociative(p, Mul(q, x), Inverse(q));
  }

  lemma RotateIdentity(v: Vector3)
    ensures Rotate(IDENTITY, v) == v
  {}

  /** The inverse quaternion undoes the rotation. */
  lemma RotateInverse(q: Quaternion, v: Vector3)
    requires UnitQuaternion(q)
    ensures Rotate(Inverse(q), Rotate(q, v)) == v == Rotate(q, Rotate(Inverse(q), v))
  {
    hide Mul, Rotate, Norm, Inverse;
    UnitMul(q, q);
    NormInverse(q);
    RotateMul(Inverse(q), q, v);
    RotateMul(q, Inverse(q), v);
    Cancels(q);
    RotateIdentity(v);
  }

  lemma PureNorm(v: Vector3)
    ensures Mul(Pure(v), Inverse(Pure(v))).q1 == LengthSquared(v)
  {}

  lemma PureConjugate(q: Quaternion, v: Vector3)
    requires UnitQuaternion(q)
    ensures Mul(Conjugated(q, v), Inverse(Conjugated(q, v))) == Conjugated2(q, Mul(Pure(v), Inverse(Pure(v))))
  {
    hide Mul, Norm, Inverse;
    var x := Pure(v);
    NormInverse(q);
    InverseMul(Mul(q, x), Inverse(q));
    InverseMul(q, x);
    var y := Mul(Inverse(x), Inverse(q));
    MulAssociative(Mul(q, x), Inverse(q), Mul(q, y));
    MulAssociative(Inverse(q), q, y);
    Cancels(q);
    MulIdentity(y);
    MulAssociative(Mul(q, x), Inverse(x), Inverse(q));
    MulAssociative(q, x, Inverse(x));
  }

  function Conjugated2(q: Quaternion, r: Quaternion): Quaternion { Mul(Mul(q, r), Inverse(q)) }

  /** Rotation keeps lengths. */
  lemma RotateKeepsLength(q: Quaternion, v: Vector3)
    requires UnitQuaternion(q)
    ensures LengthSquared(Rotate(q, v)) == LengthSquared(v)
  {
    hide Mul, Rotate, Norm, Inverse, Conjugated;
    RotateConjugates(q, v);
    PureConjugate(q, v);
    PureNorm(v);
    PureNorm(Rotate(q, v));
    PureSquare(v);
    ScalarConjugate(q, LengthSquared(v));
  }

  lemma PureSquare(v: Vector3)
    ensures Mul(Pure(v), Inverse(Pure(v))) == Quaternion(LengthSquared(v), 0.0, 0.0, 0.0)
  {}

  lemma ScaledNorm(n: real, q: Quaternion)
    ensures Times(Times(n, q.q1), q.q1) - Times(Times(n, q.q2), -q.q2) - Times(Times(n, q.q3), -q.q3) - Times(Times(n,
        q.q4), -q.q4)
            == Times(Norm(q), n)
  {}

  lemma ScalarConjugate(q: Quaternion, n: real)
    requires UnitQuaternion(q)
    ensures Conjugated2(q, Quaternion(n, 0.0, 0.0, 0.0)).q1 == n
  {
    hide Times, Norm;
    MulScalar(q, n);
    ScaledNorm(n, q);
    TimesUnit(Norm(q), n);
  }

  // ---- a quaternion as a matrix ----

  function DoubledSum(a: real, b: real, c: real, d: real): real { 2.0 * (a * b + c * d) }

  function Shrunk(a: real, b: real): real { 1.0 - 2.0 * (a * a + b * b) }

  function MatrixOf(q: Quaternion): Matrix3 {
    Matrix3(
      Vector3(Shrunk(q.q3, q.q4), Doubled(q.q2, q.q3, q.q1, q.q4), DoubledSum(q.q2, q.q4, q.q1, q.q3)),
      Vector3(DoubledSum(q.q2, q.q3, q.q1, q.q4), Shrunk(q.q2, q.q4), Doubled(q.q3, q.q4, q.q1, q.q2)),
      Vector3(Doubled(q.q2, q.q4, q.q1, q.q3), DoubledSum(q.q3, q.q4, q.q1, q.q2), Shrunk(q.q2, q.q3)))
  }

  lemma RotateIsImage(q: Quaternion, v: Vector3)
    ensures Rotate(q, v) == Image(MatrixOf(q), v)
  {
    hide Times, Turned, Doubled, DoubledSum, Shrunk;
    ImageX(q.q1, q.q2, q.q3, q.q4, v.x, v.y, v.z);
    ImageY(q.q1, q.q2, q.q3, q.q4, v.x, v.y, v.z);
    ImageZ(q.q1, q.q2, q.q3, q.q4, v.x, v.y, v.z);
  }

  lemma ExpandedX(a: real, b: real, c: real, d: real, x: real, y: real, z: real)
    ensures Turned(x, a, Doubled(c, z, d, y), c, Doubled(b, y, c, x), d, Doubled(d, x, b, z))
            == Times(1.0 - 2.0 * (c * c + d * d), x) + Times(2.0 * (b * c - a * d), y) + Times(2.0 * (b * d + a * c), z)
  {}

  lemma ImageX(a: real, b: real, c: real, d: real, x: real, y: real, z: real)
    ensures Turned(x, a, Doubled(c, z, d, y), c, Doubled(b, y, c, x), d, Doubled(d, x, b, z))
            == Times(Shrunk(c, d), x) + Times(Doubled(b, c, a, d), y) + Times(DoubledSum(b, d, a, c), z)
  {
    hide Times, Turned;
    ExpandedX(a, b, c, d, x, y, z);
    SameTimes(Shrunk(c, d), 1.0 - 2.0 * (c * c + d * d), x);
    SameTimes(Doubled(b, c, a, d), 2.0 * (b * c - a * d), y);
    SameTimes(DoubledSum(b, d, a, c), 2.0 * (b * d + a * c), z);
  }

  lemma ExpandedY(a: real, b: real, c: real, d: real, x: real, y: real, z: real)
    ensures Turned(y, a, Doubled(d, x, b, z), d, Doubled(c, z, d, y), b, Doubled(b, y, c, x))
            == Times(2.0 * (b * c + a * d), x) + Times(1.0 - 2.0 * (b * b + d * d), y) + Times(2.0 * (c * d - a * b), z)
  {}

  lemma ImageY(a: real, b: real, c: real, d: real, x: real, y: real, z: real)
    ensures Turned(y, a, Doubled(d, x, b, z), d, Doubled(c, z, d, y), b, Doubled(b, y, c, x))
            == Times(DoubledSum(b, c, a, d), x) + Times(Shrunk(b, d), y) + Times(Doubled(c, d, a, b), z)
  {
    hide Times, Turned;
    ExpandedY(a, b, c, d, x, y, z);
    SameTimes(DoubledSum(b, c, a, d), 2.0 * (b * c + a * d), x);
    SameTimes(Shrunk(b, d), 1.0 - 2.0 * (b * b + d * d), y);
    SameTimes(Doubled(c, d, a, b), 2.0 * (c * d - a * b), z);
  }

  lemma ExpandedZ(a: real, b: real, c: real, d: real, x: real, y: real, z: real)
    ensures Turned(z, a, Doubled(b, y, c, x), b, Doubled(d, x, b, z), c, Doubled(c, z, d, y))
            == Times(2.0 * (b * d - a * c), x) + Times(2.0 * (c * d + a * b), y) + Times(1.0 - 2.0 * (b * b + c * c), z)
  {}

  lemma ImageZ(a: real, b: real, c: real, d: real, x: real, y: real, z: real)
    ensures Turned(z, a, Doubled(b, y, c, x), b, Doubled(d, x, b, z), c, Doubled(c, z, d, y))
            == Times(Doubled(b, d, a, c), x) + Times(DoubledSum(c, d, a, b), y) + Times(Shrunk(b, c), z)
  {
    hide Times, Turned;
    ExpandedZ(a, b, c, d, x, y, z);
    SameTimes(Doubled(b, d, a, c), 2.0 * (b * d - a * c), x);
    SameTimes(DoubledSum(c, d, a, b), 2.0 * (c * d + a * b), y);
    SameTimes(Shrunk(b, c), 1.0 - 2.0 * (b * b + c * c), z);
  }

  /** Rotating is multiplying by the rotation matrix, for any quaternion. */
  lemma RotateIsMatrix(q: Quaternion, v: Vector3)
    ensures Rotate(q, v) == Image(RotationMatrix(q), v)
  {
    hide Rotate, Image;
    RotateIsImage(q, v);
    assert MatrixOf(q) == RotationMatrix(q);
  }

  lemma RotateAdds(q: Quaternion, v: Vector3, w: Vector3)
    ensures Rotate(q, Add(v, w)) == Add(Rotate(q, v), Rotate(q, w))
  {
    hide MatrixOf, Rotate, Times;
    RotateIsImage(q, v);
    RotateIsImage(q, w);
    RotateIsImage(q, Add(v, w));
    var m := MatrixOf(q);
    forall a: real ensures Times(a, v.x + w.x) == Times(a, v.x) + Times(a, w.x) && Times(a, v.y + w.y) == Times(a, v.y) + Times(a, w.y)
        && Times(a, v.z + w.z) == Times(a, v.z) + Times(a, w.z)
    {
      TimesAdds(a, v, w);
    }
  }

  lemma TimesAdds(a: real, v: Vector3, w: Vector3)
    ensures Times(a, v.x + w.x) == Times(a, v.x) + Times(a, w.x)
    ensures Times(a, v.y + w.y) == Times(a, v.y) + Times(a, w.y)
    ensures Times(a, v.z + w.z) == Times(a, v.z) + Times(a, w.z)
  {}

  lemma Polarise(v: Vector3, w: Vector3)
    ensures LengthSquared(Add(v, w)) == LengthSquared(v) + 2.0 * Dot3(v, w) + LengthSquared(w)
  {}

  /** Rotation keeps inner products. */
  lemma RotateKeepsDot(q: Quaternion, v: Vector3, w: Vector3)
    requires UnitQuaternion(q)
    ensures Dot3(Rotate(q, v), Rotate(q, w)) == Dot3(v, w)
  {
    hide Rotate, Dot3, LengthSquared, UnitQuaternion, Add;
    RotateKeepsLength(q, v);
    RotateKeepsLength(q, w);
    RotateKeepsLength(q, Add(v, w));
    RotateAdds(q, v, w);
    Polarise(v, w);
    Polarise(Rotate(q, v), Rotate(q, w));
  }

  const X_AXIS := Vector3(1.0, 0.0, 0.0)
  const Y_AXIS := Vector3(0.0, 1.0, 0.0)
  const Z_AXIS := Vector3(0.0, 0.0, 1.0)
}
