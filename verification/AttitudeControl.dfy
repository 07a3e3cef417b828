/**
 The attitude error as a thrust rotation followed by a heading rotation, and the limiter that caps
 the heading part and rebuilds the target.
 */
module AttitudeControl {
  import opened Numeric
  import opened Geometry
  import opened QuaternionAlgebra
  import opened SquareRootController

  /** The library functions the controller calls. */
  datatype Maths = Maths(
    sqrt: real -> real, sin: real -> real, cos: real -> real, acos: real -> real, atan2: (real, real) -> real,
    wrapPi: real -> real)

  predicate CircleLaw(m: Maths, a: real) { Sq(m.sin(a)) + Sq(m.cos(a)) == 1.0 }

  predicate HalfAngleLaw(m: Maths, a: real) {
    && m.cos(a) == 1.0 - 2.0 * Sq(m.sin(a * 0.5))
    && m.sin(a) == 2.0 * Times(m.sin(a * 0.5), m.cos(a * 0.5))
  }

  predicate ArcCosineLaw(m: Maths, x: real) { -1.0 <= x <= 1.0 ==> m.cos(m.acos(x)) == x && m.sin(m.acos(x)) >= 0.0 }

  /** Their defining identities, as far as the results below need them. */
  ghost predicate Lawful(m: Maths) {
    && IsSquareRoot(m.sqrt)
    && (forall a: real :: CircleLaw(m, a))
    && (forall a: real :: HalfAngleLaw(m, a))
    && (forall x: real :: ArcCosineLaw(m, x))
    && m.acos(1.0) == 0.0
  }

  /** The direction of thrust in any body-fixed frame. */
  const UP := Vector3(0.0, 0.0, -1.0)
  const ACCEL_Y_MIN_RADSS: real := 10.0 * 0.017453292519943295
  const ACCEL_Y_MAX_RADSS: real := 120.0 * 0.017453292519943295
  const YAW_MAX_ERROR_RAD: real := 45.0 * 0.017453292519943295

  // ---- rotation vectors ----

  function AxisQuaternion(c: real, s: real, n: Vector3): Quaternion {
    Quaternion(c, Times(n.x, s), Times(n.y, s), Times(n.z, s))
  }

  /** `from_axis_angle` with axis and angle kept apart: the axis is not normalized. */
  function FromAxisAngle(m: Maths, axis: Vector3, theta: real): Quaternion {
    if IsZero(theta) then IDENTITY else AxisQuaternion(m.cos(theta * 0.5), m.sin(theta * 0.5), axis)
  }

  function Divide(v: Vector3, k: real): Vector3
    requires k != 0.0
  {
    Vector3(v.x / k, v.y / k, v.z / k)
  }

  /** `from_axis_angle` of a rotation vector. */
  function FromRotationVector(m: Maths, v: Vector3): Quaternion {
    var theta := Length(m.sqrt, v);
    if IsZero(theta) then IDENTITY else FromAxisAngle(m, Divide(v, theta), theta)
  }

  function ToRotationVector(m: Maths, q: Quaternion): Vector3 {
    var v := Vector3(q.q2, q.q3, q.q4);
    var l := Length(m.sqrt, v);
    if IsZero(l) then v else Scale(Divide(v, l), m.wrapPi(2.0 * m.atan2(l, q.q1)))
  }

  // ---- the decomposition ----

  function ThrustOf(q: Quaternion): Vector3 { Rotate(q, UP) }

  function ErrorAngle(m: Maths, b: Vector3, u: Vector3): real { m.acos(Clamp(Dot3(b, u), -1.0, 1.0)) }

  /** The thrust vectors give no usable axis; the thrust direction itself is used instead. */
  predicate Degenerate(m: Maths, b: Vector3, u: Vector3) {
    IsZero(Length(m.sqrt, Cross(b, u))) || IsZero(ErrorAngle(m, b, u))
  }

  /** The axis, in the inertial frame, about which the thrust vector `b` is turned towards `u`. */
  function ThrustAxis(m: Maths, b: Vector3, u: Vector3): Vector3 {
    if Degenerate(m, b, u) then UP else Divide(Cross(b, u), Length(m.sqrt, Cross(b, u)))
  }

  datatype Errors = Errors(correction: Quaternion, attitudeError: Vector3, thrustAngle: real, thrustErrorAngle: real)

  function Correction(m: Maths, target: Quaternion, body: Quaternion): Quaternion {
    var b, u := ThrustOf(body), ThrustOf(target);
    FromAxisAngle(m, Rotate(Inverse(body), ThrustAxis(m, b, u)), ErrorAngle(m, b, u))
  }

  /** What remains of the rotation from body to target after the thrust correction. */
  function Heading(m: Maths, target: Quaternion, body: Quaternion): Quaternion {
    Mul(Mul(Inverse(Correction(m, target, body)), Inverse(body)), target)
  }

  function ThrustVectorRotation(m: Maths, target: Quaternion, body: Quaternion): Errors {
    var tilt := ToRotationVector(m, Correction(m, target, body));
    var turn := ToRotationVector(m, Heading(m, target, body));
    Errors(Correction(m, target, body), Vector3(tilt.x, tilt.y, turn.z),
           m.acos(Clamp(Dot3(UP, ThrustOf(body)), -1.0, 1.0)), ErrorAngle(m, ThrustOf(body), ThrustOf(target)))
  }

  /** The largest heading error left standing. */
  function HeadingErrorMax(rateYawKp: real, angleYawKp: real, accelYawMax: real): real
    requires rateYawKp != 0.0
  {
    Min(InverseControlled(1.0 / rateYawKp, angleYawKp, Clamp(accelYawMax / 2.0, ACCEL_Y_MIN_RADSS, ACCEL_Y_MAX_RADSS)), YAW_MAX_ERROR_RAD)
  }

  function Rebuilt(m: Maths, target: Quaternion, body: Quaternion, yaw: real): Quaternion {
    Mul(Mul(body, Correction(m, target, body)), FromRotationVector(m, Vector3(0.0, 0.0, yaw)))
  }

  /** The new target and the errors; the heading error is capped only when it exceeds the limit and both gains are in use. */
  function ThrustHeadingRotation(m: Maths, target: Quaternion, body: Quaternion, rateYawKp: real, angleYawKp: real, accelYawMax: real):
    (Quaternion, Errors)
  {
    var e := ThrustVectorRotation(m, target, body);
    if IsZero(rateYawKp) then (target, e)
    else
      var limit := HeadingErrorMax(rateYawKp, angleYawKp, accelYawMax);
      if !IsZero(angleYawKp) && Abs(e.attitudeError.z) > limit then
        var yaw := Clamp(m.wrapPi(e.attitudeError.z), -limit, limit);
        (Rebuilt(m, target, body, yaw), e.(attitudeError := Vector3(e.attitudeError.x, e.attitudeError.y, yaw)))
      else (target, e)
  }

  // ---- unit quaternions from axes ----

  lemma AxisQuaternionUnit(c: real, s: real, n: Vector3)
    requires UnitVector(n) && Sq(s) + Sq(c) == 1.0
    ensures UnitQuaternion(AxisQuaternion(c, s, n))
  {
    AxisNorm(c, s, n);
    TimesUnit(LengthSquared(n), Sq(s));
    hide LengthSquared, Sq;
  }

  lemma AxisNorm(c: real, s: real, n: Vector3)
    ensures Norm(AxisQuaternion(c, s, n)) == Sq(c) + Times(LengthSquared(n), Sq(s))
  {}

  lemma FromAxisAngleUnit(m: Maths, n: Vector3, theta: real)
    requires Lawful(m) && UnitVector(n)
    ensures UnitQuaternion(FromAxisAngle(m, n, theta))
  {
    hide AxisQuaternion, UnitVector, Norm;
    if IsZero(theta) {
      IdentityUnit();
    } else {
      assert CircleLaw(m, theta * 0.5);
      AxisQuaternionUnit(m.cos(theta * 0.5), m.sin(theta * 0.5), n);
    }
  }

  lemma IdentityUnit()
    ensures UnitQuaternion(IDENTITY)
  {}

  lemma UpUnit()
    ensures UnitVector(UP)
  {}

  lemma DivideUnit(v: Vector3, k: real)
    requires k != 0.0 && Times(k, k) == LengthSquared(v)
    ensures UnitVector(Divide(v, k))
  {
    var x, y, z := v.x / k, v.y / k, v.z / k;
    Quotients(v.x, x, k);
    Quotients(v.y, y, k);
    Quotients(v.z, z, k);
    SquareNonZero(k);
    RatioOne(x * x + y * y + z * z, Times(k, k));
  }

  lemma Quotients(a: real, x: real, k: real)
    requires k != 0.0 && x == a / k
    ensures Times(x * x, Times(k, k)) == a * a
  {
    assert x * k == a;
    assert (x * k) * (x * k) == Times(x * x, Times(k, k));
  }

  lemma RatioOne(u: real, w: real)
    requires w != 0.0 && Times(u, w) == w
    ensures u == 1.0
  {
    assert (u - 1.0) * w == 0.0;
  }

  lemma AxisUnit(m: Maths, b: Vector3, u: Vector3)
    requires Lawful(m)
    ensures UnitVector(ThrustAxis(m, b, u))
  {
    hide UnitVector, LengthSquared, Times;
    var cross := Cross(b, u);
    LengthLaw(m.sqrt, cross);
    if Degenerate(m, b, u) {
      UpUnit();
    } else {
      DivideUnit(cross, Length(m.sqrt, cross));
    }
  }

  lemma CorrectionUnit(m: Maths, target: Quaternion, body: Quaternion)
    requires Lawful(m) && UnitQuaternion(body)
    ensures UnitQuaternion(Correction(m, target, body))
  {
    hide Lawful, ThrustAxis, Rotate, UnitQuaternion, FromAxisAngle, ErrorAngle, LengthSquared;
    var axis := ThrustAxis(m, ThrustOf(body), ThrustOf(target));
    AxisUnit(m, ThrustOf(body), ThrustOf(target));
    UnitMul(body, body);
    RotateKeepsLength(Inverse(body), axis);
    FromAxisAngleUnit(m, Rotate(Inverse(body), axis), ErrorAngle(m, ThrustOf(body), ThrustOf(target)));
  }

  // ---- the correction seen in the inertial frame ----

  /** The thrust correction with its axis left in the inertial frame. */
  function InertialCorrection(m: Maths, b: Vector3, u: Vector3): Quaternion {
    FromAxisAngle(m, ThrustAxis(m, b, u), ErrorAngle(m, b, u))
  }

  /** `c p + s r`, slot by slot. */
  function Blend(c: real, p: Quaternion, s: real, r: Quaternion): Quaternion {
    Quaternion(Times(c, p.q1) + Times(s, r.q1), Times(c, p.q2) + Times(s, r.q2),
               Times(c, p.q3) + Times(s, r.q3), Times(c, p.q4) + Times(s, r.q4))
  }

  lemma Distribute1(s: real, a: real, b: real, c: real, d: real)
    ensures Times(s, a - b - c - d) == Times(s, a) - Times(s, b) - Times(s, c) - Times(s, d)
  {}

  lemma Distribute2(s: real, a: real, b: real, c: real, d: real)
    ensures Times(s, a + b + c - d) == Times(s, a) + Times(s, b) + Times(s, c) - Times(s, d)
  {}

  lemma Distribute3(s: real, a: real, b: real, c: real, d: real)
    ensures Times(s, a - b + c + d) == Times(s, a) - Times(s, b) + Times(s, c) + Times(s, d)
  {}

  lemma Distribute4(s: real, a: real, b: real, c: real, d: real)
    ensures Times(s, a + b - c + d) == Times(s, a) + Times(s, b) - Times(s, c) + Times(s, d)
  {}

  lemma TimesAxis(a: real, x: real, s: real)
    ensures Times(a, Times(x, s)) == Times(s, Times(a, x)) == Times(s, Times(x, a)) == Times(Times(x, s), a)
    ensures Times(a, x) == Times(x, a) && Times(a, 0.0) == 0.0 == Times(0.0, a)
  {}

  lemma TimesZero(s: real)
    ensures Times(s, 0.0) == 0.0
  {}

  lemma AxisOnRight(p: Quaternion, c: real, s: real, n: Vector3)
    ensures Mul(p, AxisQuaternion(c, s, n)) == Blend(c, p, s, Mul(p, Pure(n)))
  {
    hide Times;
    TimesAxis(p.q1, c, s);
    TimesAxis(p.q2, c, s);
    TimesAxis(p.q3, c, s);
    TimesAxis(p.q4, c, s);
    TimesAxis(p.q1, n.x, s);
    TimesAxis(p.q1, n.y, s);
    TimesAxis(p.q1, n.z, s);
    TimesAxis(p.q2, n.x, s);
    TimesAxis(p.q2, n.y, s);
    TimesAxis(p.q2, n.z, s);
    TimesAxis(p.q3, n.x, s);
    TimesAxis(p.q3, n.y, s);
    TimesAxis(p.q3, n.z, s);
    TimesAxis(p.q4, n.x, s);
    TimesAxis(p.q4, n.y, s);
    TimesAxis(p.q4, n.z, s);
    Distribute1(s, Times(p.q1, 0.0), Times(p.q2, n.x), Times(p.q3, n.y), Times(p.q4, n.z));
    Distribute2(s, Times(p.q1, n.x), Times(p.q2, 0.0), Times(p.q3, n.z), Times(p.q4, n.y));
    Distribute3(s, Times(p.q1, n.y), Times(p.q2, n.z), Times(p.q3, 0.0), Times(p.q4, n.x));
    Distribute4(s, Times(p.q1, n.z), Times(p.q2, n.y), Times(p.q3, n.x), Times(p.q4, 0.0));
    TimesZero(s);
  }

  lemma AxisOnLeft(p: Quaternion, c: real, s: real, n: Vector3)
    ensures Mul(AxisQuaternion(c, s, n), p) == Blend(c, p, s, Mul(Pure(n), p))
  {
    hide Times;
    TimesAxis(p.q1, c, s);
    TimesAxis(p.q2, c, s);
    TimesAxis(p.q3, c, s);
    TimesAxis(p.q4, c, s);
    TimesAxis(p.q1, n.x, s);
    TimesAxis(p.q1, n.y, s);
    TimesAxis(p.q1, n.z, s);
    TimesAxis(p.q2, n.x, s);
    TimesAxis(p.q2, n.y, s);
    TimesAxis(p.q2, n.z, s);
    TimesAxis(p.q3, n.x, s);
    TimesAxis(p.q3, n.y, s);
    TimesAxis(p.q3, n.z, s);
    TimesAxis(p.q4, n.x, s);
    TimesAxis(p.q4, n.y, s);
    TimesAxis(p.q4, n.z, s);
    Distribute1(s, Times(0.0, p.q1), Times(n.x, p.q2), Times(n.y, p.q3), Times(n.z, p.q4));
    Distribute2(s, Times(0.0, p.q2), Times(n.x, p.q1), Times(n.y, p.q4), Times(n.z, p.q3));
    Distribute3(s, Times(0.0, p.q3), Times(n.x, p.q4), Times(n.y, p.q1), Times(n.z, p.q2));
    Distribute4(s, Times(0.0, p.q4), Times(n.x, p.q3), Times(n.y, p.q2), Times(n.z, p.q1));
    TimesZero(s);
  }

  /** The body-frame correction after the body attitude is the inertial correction before it. */
  lemma CorrectionConjugates(m: Maths, target: Quaternion, body: Quaternion)
    requires UnitQuaternion(body)
    ensures Mul(body, Correction(m, target, body)) == Mul(InertialCorrection(m, ThrustOf(body), ThrustOf(target)), body)
  {
    hide Mul, Rotate, UnitQuaternion, AxisQuaternion, ThrustAxis, ErrorAngle, Blend, Inverse;
    var b, u := ThrustOf(body), ThrustOf(target);
    var theta, n := ErrorAngle(m, b, u), ThrustAxis(m, b, u);
    var c, s, q := m.cos(theta * 0.5), m.sin(theta * 0.5), Inverse(body);
    MulIdentity(body);
    AxisOnRight(body, c, s, Rotate(q, n));
    AxisOnLeft(body, c, s, n);
    UnitMul(body, body);
    RotateConjugates(q, n);
    NormInverse(body);
    MulAssociative(q, Pure(n), body);
    MulAssociative(body, q, Mul(Pure(n), body));
    Cancels(body);
    MulIdentity(Mul(Pure(n), body));
  }

  // ---- the inertial correction turns one thrust vector into the other ----

  /** The quaternion `u b⁻¹` of two pure quaternions: their inner and cross products. */
  function Ratio(b: Vector3, u: Vector3): Quaternion {
    Quaternion(Dot3(b, u), Cross(b, u).x, Cross(b, u).y, Cross(b, u).z)
  }

  lemma RatioIsProduct(b: Vector3, u: Vector3)
    ensures Mul(Pure(u), Inverse(Pure(b))) == Ratio(b, u)
  {}

  lemma PureUnit(b: Vector3)
    requires UnitVector(b)
    ensures UnitQuaternion(Pure(b))
  {}

  /** Inner and cross product of unit vectors are the cosine and the sine of one angle. */
  lemma CrossLength(b: Vector3, u: Vector3)
    requires UnitVector(b) && UnitVector(u)
    ensures LengthSquared(Cross(b, u)) == 1.0 - Sq(Dot3(b, u))
  {
    hide LengthSquared, Dot3, Cross, Sq;
    CrossSquare(b, u);
  }

  lemma SquareBound(d: real, l: real)
    requires l >= 0.0 && l == 1.0 - Sq(d)
    ensures -1.0 <= d <= 1.0
  {
    if d > 1.0 {
      TimesPositive(d - 1.0, d + 1.0);
    } else if d < -1.0 {
      TimesPositive(-d - 1.0, 1.0 - d);
    }
  }

  lemma EqualSquares(a: real, b: real)
    requires a >= 0.0 && b >= 0.0 && Times(a, a) == Times(b, b)
    ensures a == b
  {
    if a < b {
      SquaresDiffer(a, b);
    } else if b < a {
      SquaresDiffer(b, a);
    }
  }

  /** The cosine of the error angle is the inner product, its sine the length of the cross product. */
  lemma ErrorAngleLaw(m: Maths, b: Vector3, u: Vector3)
    requires Lawful(m) && UnitVector(b) && UnitVector(u)
    ensures m.cos(ErrorAngle(m, b, u)) == Dot3(b, u)
    ensures m.sin(ErrorAngle(m, b, u)) == Length(m.sqrt, Cross(b, u))
  {
    hide Dot3, Cross, LengthSquared, UnitVector, IsSquareRoot, Sq, Times;
    var d := Dot3(b, u);
    CrossLength(b, u);
    LengthLaw(m.sqrt, Cross(b, u));
    LengthSquaredNonNegative(Cross(b, u));
    SquareBound(d, LengthSquared(Cross(b, u)));
    ArcCosine(m, d);
    EqualSquares(m.sin(m.acos(d)), Length(m.sqrt, Cross(b, u)));
  }

  lemma ArcCosine(m: Maths, d: real)
    requires Lawful(m) && -1.0 <= d <= 1.0
    ensures m.cos(m.acos(d)) == d && m.sin(m.acos(d)) >= 0.0
    ensures Times(m.sin(m.acos(d)), m.sin(m.acos(d))) == 1.0 - Sq(d)
  {
    hide Sq, Times, IsSquareRoot;
    assert ArcCosineLaw(m, d);
    assert CircleLaw(m, m.acos(d));
    SquareIsTimes(m.sin(m.acos(d)));
  }

  lemma SquareIsTimes(a: real)
    ensures Sq(a) == Times(a, a)
  {}

  lemma LengthSquaredNonNegative(v: Vector3)
    ensures LengthSquared(v) >= 0.0
  {
    SumNonNegative(v.x, v.y, v.z);
  }

  lemma AxisSquared(c: real, s: real, n: Vector3)
    ensures Mul(AxisQuaternion(c, s, n), AxisQuaternion(c, s, n))
            == AxisQuaternion(Sq(c) - Times(LengthSquared(n), Sq(s)), 2.0 * Times(s, c), n)
  {
    hide Times, Sq, LengthSquared;
    AxisSquaredScalar(c, s, n);
    AxisSquaredVector(c, s, n.x, Times(n.y, s), Times(n.z, s));
    AxisSquaredVector(c, s, n.y, Times(n.z, s), Times(n.x, s));
    AxisSquaredVector(c, s, n.z, Times(n.x, s), Times(n.y, s));
  }

  lemma AxisSquaredScalar(c: real, s: real, n: Vector3)
    ensures Times(c, c) - Times(Times(n.x, s), Times(n.x, s)) - Times(Times(n.y, s), Times(n.y, s)) - Times(Times(n.z, s), Times(n.z, s))
            == Sq(c) - Times(LengthSquared(n), Sq(s))
  {}

  lemma AxisSquaredVector(c: real, s: real, x: real, y: real, z: real)
    ensures Times(c, Times(x, s)) + Times(Times(x, s), c) == Times(x, 2.0 * Times(s, c))
    ensures Times(y, z) == Times(z, y)
  {}

  // ---- the turn itself ----

  lemma PureProducts(b: Vector3, n: Vector3)
    ensures Mul(Pure(b), Pure(n)) == Quaternion(-Dot3(n, b), Cross(b, n).x, Cross(b, n).y, Cross(b, n).z)
  {}

  lemma CrossFlips(b: Vector3, n: Vector3)
    ensures Cross(n, b) == Scale(Cross(b, n), -1.0) && Dot3(n, b) == Dot3(b, n)
  {}

  lemma DoubleNegative(s: real, y: real)
    ensures Times(s, -1.0 * y) == Times(-s, y) == -Times(s, y) && Times(s, 0.0) == 0.0 && Times(s, -y) == Times(-s, y)
  {}

  lemma InverseAxis(c: real, s: real, n: Vector3)
    ensures Inverse(AxisQuaternion(c, s, n)) == AxisQuaternion(c, -s, n)
  {}

  /** About an axis perpendicular to `b`, rotating on the left is rotating back on the right. */
  lemma Perpendicular(c: real, s: real, n: Vector3, b: Vector3)
    requires Dot3(n, b) == 0.0
    ensures Mul(AxisQuaternion(c, s, n), Pure(b)) == Mul(Pure(b), Inverse(AxisQuaternion(c, s, n)))
  {
    hide Mul, AxisQuaternion, Inverse, Pure, Dot3, Cross, Times;
    AxisOnLeft(Pure(b), c, s, n);
    InverseAxis(c, s, n);
    AxisOnRight(Pure(b), c, -s, n);
    PureProducts(b, n);
    PureProducts(n, b);
    CrossFlips(b, n);
    var y := Cross(b, n);
    DoubleNegative(s, y.x);
    DoubleNegative(s, y.y);
    DoubleNegative(s, y.z);
    DoubleNegative(-s, 0.0);
    DoubleNegative(s, 0.0);
    NegativeOne(y);
  }

  lemma NegativeOne(y: Vector3)
    ensures Scale(y, -1.0) == Vector3(-y.x, -y.y, -y.z)
  {}

  lemma DivideDot(v: Vector3, k: real, b: Vector3)
    requires k != 0.0 && Dot3(v, b) == 0.0
    ensures Dot3(Divide(v, k), b) == 0.0
  {
    var x, y, z := v.x / k, v.y / k, v.z / k;
    assert x * k == v.x && y * k == v.y && z * k == v.z;
    DotScaled(x, y, z, k, b);
    ZeroFactor(x * b.x + y * b.y + z * b.z, k);
  }

  lemma DotScaled(x: real, y: real, z: real, k: real, b: Vector3)
    ensures Dot3(Vector3(x * k, y * k, z * k), b) == Times(x * b.x + y * b.y + z * b.z, k)
  {}

  lemma ZeroFactor(a: real, k: real)
    requires k != 0.0 && Times(a, k) == 0.0
    ensures a == 0.0
  {}

  lemma DivideTimes(v: Vector3, k: real)
    requires k != 0.0
    ensures AxisQuaternion(0.0, k, Divide(v, k)) == Pure(v)
  {}

  /** Twice the turn is the ratio of the two thrust vectors. */
  lemma TurnSquared(m: Maths, b: Vector3, u: Vector3)
    requires Lawful(m) && UnitVector(b) && UnitVector(u) && !Degenerate(m, b, u)
    ensures Mul(InertialCorrection(m, b, u), InertialCorrection(m, b, u)) == Ratio(b, u)
  {
    hide Mul, UnitVector, LengthSquared, Dot3, Cross, Times, Sq, IsSquareRoot, ErrorAngle, Length;
    var theta, n, x, len := ErrorAngle(m, b, u), ThrustAxis(m, b, u), Cross(b, u), Length(m.sqrt, Cross(b, u));
    var c, s := m.cos(theta * 0.5), m.sin(theta * 0.5);
    AxisUnit(m, b, u);
    ErrorAngleLaw(m, b, u);
    assert CircleLaw(m, theta * 0.5) && HalfAngleLaw(m, theta);
    AxisSquared(c, s, n);
    UnitTimes(n, Sq(s));
    DivideTimes(x, len);
  }

  lemma UnitTimes(n: Vector3, a: real)
    requires UnitVector(n)
    ensures Times(LengthSquared(n), a) == a
  {}

  /** A usable correction turns the body's thrust vector exactly onto the target's. */
  lemma TurnReaches(m: Maths, b: Vector3, u: Vector3)
    requires Lawful(m) && UnitVector(b) && UnitVector(u) && !Degenerate(m, b, u)
    ensures Rotate(InertialCorrection(m, b, u), b) == u
  {
    hide Mul, UnitVector, UnitQuaternion, LengthSquared, Dot3, Cross, AxisQuaternion, Inverse, Ratio, Rotate, Lawful, ErrorAngle, Length;
    var w, theta, n := InertialCorrection(m, b, u), ErrorAngle(m, b, u), ThrustAxis(m, b, u);
    AxisUnit(m, b, u);
    FromAxisAngleUnit(m, n, theta);
    RotateConjugates(w, b);
    CrossPerpendicular(b, u);
    DivideDot(Cross(b, u), Length(m.sqrt, Cross(b, u)), b);
    Perpendicular(m.cos(theta * 0.5), m.sin(theta * 0.5), n, b);
    TurnSquared(m, b, u);
    MulAssociative(w, Pure(b), Inverse(w));
    MulAssociative(w, w, Pure(b));
    RatioIsProduct(b, u);
    PureUnit(b);
    MulAssociative(Pure(u), Inverse(Pure(b)), Pure(b));
    Cancels(Pure(b));
    MulIdentity(Pure(u));
  }

  // ---- main results ----

  /** A rotation about the thrust direction, `c` and `s` being cosine and sine of half its angle. */
  lemma UpRotation(c: real, s: real, v: Vector3)
    ensures Rotate(AxisQuaternion(c, s, UP), v)
            == Vector3(Times(v.x, 1.0 - 2.0 * Sq(s)) + Times(v.y, 2.0 * Times(s, c)),
                       Times(v.y, 1.0 - 2.0 * Sq(s)) - Times(v.x, 2.0 * Times(s, c)), v.z)
  {
    hide Doubled, Turned, Times, Sq;
    UpQuaternion(c, s);
    UpDoubled(s, v.x, v.y, v.z);
    UpTurned(c, s, v.x, v.y, v.z);
  }

  lemma UpQuaternion(c: real, s: real)
    ensures AxisQuaternion(c, s, UP) == Quaternion(c, 0.0, 0.0, -s)
  {}

  lemma UpDoubled(s: real, x: real, y: real, z: real)
    ensures Doubled(0.0, z, -s, y) == 2.0 * Times(s, y) && Doubled(-s, x, 0.0, z) == -2.0 * Times(s, x) && Doubled(0.0, y, 0.0, x) == 0.0
  {}

  lemma UpTurned(c: real, s: real, x: real, y: real, z: real)
    ensures Turned(x, c, 2.0 * Times(s, y), 0.0, 0.0, -s, -2.0 * Times(s, x))
            == Times(x, 1.0 - 2.0 * Sq(s)) + Times(y, 2.0 * Times(s, c))
    ensures Turned(y, c, -2.0 * Times(s, x), -s, 2.0 * Times(s, y), 0.0, 0.0)
            == Times(y, 1.0 - 2.0 * Sq(s)) - Times(x, 2.0 * Times(s, c))
    ensures Turned(z, c, 0.0, 0.0, -2.0 * Times(s, x), 0.0, 2.0 * Times(s, y)) == z
  {
    SameTimes(2.0 * Times(s, y), 2.0 * (s * y), c);
    SameTimes(2.0 * Times(s, x), 2.0 * (s * x), s);
    SameTimes(2.0 * Times(s, x), 2.0 * (s * x), c);
    SameTimes(2.0 * Times(s, y), 2.0 * (s * y), s);
    SameTimes(2.0 * Times(s, c), 2.0 * (s * c), x);
    SameTimes(2.0 * Times(s, c), 2.0 * (s * c), y);
    SameTimes(1.0 - 2.0 * Sq(s), 1.0 - 2.0 * (s * s), x);
    SameTimes(1.0 - 2.0 * Sq(s), 1.0 - 2.0 * (s * s), y);
  }

  /** The two thrust vectors lie in the horizontal plane, the target's clockwise from the body's or opposite to it. */
  predicate LevelClockwise(b: Vector3, u: Vector3) { b.z == 0.0 && u.z == 0.0 && Cross(b, u).z <= 0.0 }

  /**
   When the correction brings the body's thrust vector to the target's: the vectors agree, or give a usable axis,
   or the fallback axis happens to be the right one and the angle is not taken for zero.
   */
  predicate Reaches(m: Maths, b: Vector3, u: Vector3) {
    b == u || !Degenerate(m, b, u) || (!IsZero(ErrorAngle(m, b, u)) && LevelClockwise(b, u))
  }

  /** Turning about the thrust direction by the angle between two different unit vectors reaches the second exactly when both are level and it is clockwise. */
  lemma FallbackReaches(b: Vector3, u: Vector3, s: real)
    requires UnitVector(b) && UnitVector(u) && b != u && s >= 0.0 && Times(s, s) == LengthSquared(Cross(b, u))
    ensures var c := Dot3(b, u);
      u == Vector3(Times(b.x, c) + Times(b.y, s), Times(b.y, c) - Times(b.x, s), b.z) <==> LevelClockwise(b, u)
  {
    var c, k := Dot3(b, u), Cross(b, u).z;
    if u == Vector3(Times(b.x, c) + Times(b.y, s), Times(b.y, c) - Times(b.x, s), b.z) {
      TurnedIsLevel(b, u, c, s);
    } else if LevelClockwise(b, u) {
      EqualSquares(s, -k);
      LevelTurn(b.x, b.y, u.x, u.y, s);
      assert false;
    }
  }

  /** In the plane, cosine and sine of the angle from one unit vector to another turn the first into the second. */
  lemma LevelTurn(x: real, y: real, p: real, q: real, s: real)
    requires x * x + y * y == 1.0 && s == y * p - x * q
    ensures Times(x, x * p + y * q) + Times(y, s) == p && Times(y, x * p + y * q) - Times(x, s) == q
  {
    assert Times(x, x * p + y * q) + Times(y, y * p - x * q) == (x * x + y * y) * p;
    assert Times(y, x * p + y * q) - Times(x, y * p - x * q) == (x * x + y * y) * q;
  }

  lemma TurnedIsLevel(b: Vector3, u: Vector3, c: real, s: real)
    requires UnitVector(b) && UnitVector(u) && b != u && s >= 0.0 && c == Dot3(b, u)
    requires u == Vector3(Times(b.x, c) + Times(b.y, s), Times(b.y, c) - Times(b.x, s), b.z)
    ensures LevelClockwise(b, u)
  {
    hide UnitVector;
    TurnedDot(b, u, c, s);
    if b.z != 0.0 {
      SquareNonZero(b.z);
      CancelFactor(b.z * b.z, c);
      UnitsAgree(b, u);
    }
  }

  lemma TurnedDot(b: Vector3, u: Vector3, c: real, s: real)
    requires UnitVector(b) && c == Dot3(b, u)
    requires u == Vector3(Times(b.x, c) + Times(b.y, s), Times(b.y, c) - Times(b.x, s), b.z)
    ensures Times(b.z * b.z, c) == b.z * b.z && Times(b.z, b.z) == b.z * b.z
    ensures b.z == 0.0 ==> Cross(b, u).z == -s
  {
    TurnScalars(b.x, b.y, b.z, c, s);
  }

  lemma TurnScalars(x: real, y: real, z: real, c: real, s: real)
    requires x * x + y * y + z * z == 1.0
    ensures x * (x * c + y * s) + y * (y * c - x * s) + z * z == c ==> Times(z * z, c) == z * z
    ensures z == 0.0 ==> x * (y * c - x * s) - y * (x * c + y * s) == -s
  {
    SameTimes(x * x + y * y, 1.0 - z * z, c);
    SameTimes(x * x + y * y, 1.0 - z * z, s);
    assert x * (x * c + y * s) + y * (y * c - x * s) == Times(x * x + y * y, c);
    assert x * (y * c - x * s) - y * (x * c + y * s) == -Times(x * x + y * y, s);
    assert Times(1.0 - z * z, c) == c - Times(z * z, c);
    assert z == 0.0 ==> Times(1.0 - z * z, s) == s;
  }

  lemma CancelFactor(a: real, c: real)
    requires a > 0.0 && Times(a, c) == a
    ensures c == 1.0
  {
    SameTimes(c, c, a);
    RatioOne(c, a);
  }

  /** Unit vectors whose inner product is one are equal. */
  lemma UnitsAgree(b: Vector3, u: Vector3)
    requires UnitVector(b) && UnitVector(u) && Dot3(b, u) == 1.0
    ensures b == u
  {
    var x, y, z := b.x - u.x, b.y - u.y, b.z - u.z;
    assert x * x + y * y + z * z == 0.0;
    SquareNonNegative(x);
    SquareNonNegative(y);
    SquareNonNegative(z);
  }

  lemma ReachesExactly(m: Maths, b: Vector3, u: Vector3)
    requires Lawful(m) && UnitVector(b) && UnitVector(u)
    ensures Rotate(InertialCorrection(m, b, u), b) == u <==> Reaches(m, b, u)
  {
    hide Rotate, AxisQuaternion, Length, Times, Sq, Cross, Dot3, LevelClockwise, UnitVector;
    RotateIdentity(b);
    if !Degenerate(m, b, u) {
      TurnReaches(m, b, u);
    } else if b == u {
      UnitDot(b);
    } else if !IsZero(ErrorAngle(m, b, u)) {
      FallbackTurns(m, b, u);
    }
  }

  lemma UnitDot(b: Vector3)
    requires UnitVector(b)
    ensures Dot3(b, b) == 1.0
  {}

  lemma FallbackTurns(m: Maths, b: Vector3, u: Vector3)
    requires Lawful(m) && UnitVector(b) && UnitVector(u) && b != u
    ensures var half := ErrorAngle(m, b, u) * 0.5;
      Rotate(AxisQuaternion(m.cos(half), m.sin(half), UP), b) == u <==> LevelClockwise(b, u)
  {
    hide Rotate, AxisQuaternion, Length, Times, Sq, Cross, Dot3, LevelClockwise, UnitVector, ErrorAngle, IsSquareRoot, LengthSquared;
    var theta := ErrorAngle(m, b, u);
    assert CircleLaw(m, theta * 0.5) && HalfAngleLaw(m, theta);
    UpRotation(m.cos(theta * 0.5), m.sin(theta * 0.5), b);
    ErrorAngleLaw(m, b, u);
    LengthLaw(m.sqrt, Cross(b, u));
    FallbackReaches(b, u, Length(m.sqrt, Cross(b, u)));
  }

  lemma OppositeUnit(b: Vector3)
    requires UnitVector(b)
    ensures var u := Scale(b, -1.0); UnitVector(u) && b != u && Cross(b, u) == ZERO3
  {
    if b.x == 0.0 && b.y == 0.0 && b.z == 0.0 {
      assert false;
    }
    var x, y, z := -b.x, -b.y, -b.z;
    assert Scale(b, -1.0) == Vector3(x, y, z);
    assert x * x + y * y + z * z == b.x * b.x + b.y * b.y + b.z * b.z;
  }

  lemma ZeroLength(sqrt: real -> real)
    requires IsSquareRoot(sqrt)
    ensures Length(sqrt, ZERO3) == 0.0
  {
    LengthLaw(sqrt, ZERO3);
    assert LengthSquared(ZERO3) == 0.0;
    hide IsSquareRoot, Length, Times;
    SquareNonNegative(Length(sqrt, ZERO3));
  }

  lemma OppositeDegenerate(m: Maths, b: Vector3)
    requires IsSquareRoot(m.sqrt) && UnitVector(b)
    ensures var u := Scale(b, -1.0); Degenerate(m, b, u) && (LevelClockwise(b, u) <==> b.z == 0.0)
  {
    hide UnitVector, Cross, ErrorAngle, Length, IsSquareRoot;
    ZeroLength(m.sqrt);
    OppositeUnit(b);
  }

  /** Exactly opposite thrust vectors: the fallback axis turns one onto the other exactly when they are level. */
  lemma OppositeReaches(m: Maths, b: Vector3)
    requires Lawful(m) && UnitVector(b) && !IsZero(ErrorAngle(m, b, Scale(b, -1.0)))
    ensures Rotate(InertialCorrection(m, b, Scale(b, -1.0)), b) == Scale(b, -1.0) <==> b.z == 0.0
  {
    hide Rotate, UnitVector, ErrorAngle, IsSquareRoot, Cross, Scale, Degenerate, LevelClockwise, InertialCorrection;
    OppositeUnit(b);
    OppositeDegenerate(m, b);
    ReachesExactly(m, b, Scale(b, -1.0));
  }

  lemma UpImage(q: Quaternion)
    ensures Rotate(q, UP) == Vector3(-2.0 * (Times(q.q1, q.q3) + Times(q.q2, q.q4)), 2.0 * (Times(q.q1, q.q2) - Times(q.q3, q.q4)),
                                     -1.0 + 2.0 * (Times(q.q2, q.q2) + Times(q.q3, q.q3)))
  {}

  /** A rotation fixes the thrust direction exactly when it is a rotation about z. */
  lemma UpFixed(q: Quaternion)
    ensures Rotate(q, UP) == UP <==> q.q2 == 0.0 && q.q3 == 0.0
  {
    hide Rotate, Times;
    UpImage(q);
    SquareNonNegative(q.q2);
    SquareNonNegative(q.q3);
    if q.q2 == 0.0 && q.q3 == 0.0 {
      ZeroProducts(q.q1, q.q4);
    }
  }

  lemma ZeroProducts(a: real, b: real)
    ensures Times(a, 0.0) == 0.0 && Times(0.0, b) == 0.0
  {}

  lemma ThrustUnit(q: Quaternion)
    requires UnitQuaternion(q)
    ensures UnitVector(ThrustOf(q))
  {
    hide Rotate, LengthSquared;
    RotateKeepsLength(q, UP);
    UpUnit();
  }

  /** The correction moves the body's thrust vector where the inertial turn does. */
  lemma CorrectedThrust(m: Maths, target: Quaternion, body: Quaternion)
    requires Lawful(m) && UnitQuaternion(body) && UnitQuaternion(target)
    ensures ThrustOf(Mul(body, Correction(m, target, body)))
            == Rotate(InertialCorrection(m, ThrustOf(body), ThrustOf(target)), ThrustOf(body))
  {
    hide Mul, Rotate, UnitQuaternion, UnitVector, Lawful, FromAxisAngle, ThrustAxis, ErrorAngle, Correction;
    var b, u := ThrustOf(body), ThrustOf(target);
    CorrectionConjugates(m, target, body);
    AxisUnit(m, b, u);
    FromAxisAngleUnit(m, ThrustAxis(m, b, u), ErrorAngle(m, b, u));
    RotateMul(InertialCorrection(m, b, u), body, UP);
  }

  /** Body, thrust correction and heading compose to the target, always. */
  lemma Rebuilds(m: Maths, target: Quaternion, body: Quaternion)
    requires Lawful(m) && UnitQuaternion(body) && UnitQuaternion(target)
    ensures Mul(Mul(body, Correction(m, target, body)), Heading(m, target, body)) == target
    ensures UnitQuaternion(Heading(m, target, body))
  {
    hide Mul, UnitQuaternion, Lawful, Correction, Inverse;
    var c := Correction(m, target, body);
    CorrectionUnit(m, target, body);
    UnitMul(body, c);
    UnitMul(c, body);
    InverseMul(body, c);
    var p := Mul(body, c);
    UnitMul(p, p);
    UnitMul(Inverse(p), target);
    MulAssociative(p, Inverse(p), target);
    Cancels(p);
    MulIdentity(target);
  }

  /** The heading remainder is a pure z rotation exactly when the correction reaches the target's thrust vector. */
  lemma HeadingIsPureZ(m: Maths, target: Quaternion, body: Quaternion)
    requires Lawful(m) && UnitQuaternion(body) && UnitQuaternion(target)
    ensures var q := Heading(m, target, body); q.q2 == 0.0 && q.q3 == 0.0 <==> Reaches(m, ThrustOf(body), ThrustOf(target))
  {
    hide Mul, Rotate, UnitQuaternion, UnitVector, Lawful, Correction, Reaches, InertialCorrection;
    var c, q := Correction(m, target, body), Heading(m, target, body);
    var p := Mul(body, c);
    ThrustUnit(body);
    ThrustUnit(target);
    Rebuilds(m, target, body);
    CorrectionUnit(m, target, body);
    UnitMul(body, c);
    RotateMul(p, q, UP);
    CorrectedThrust(m, target, body);
    ReachesExactly(m, ThrustOf(body), ThrustOf(target));
    UpFixed(q);
    RotateInjective(p, Rotate(q, UP), UP);
  }

  lemma RotateInjective(p: Quaternion, v: Vector3, w: Vector3)
    requires UnitQuaternion(p)
    ensures Rotate(p, v) == Rotate(p, w) <==> v == w
  {
    hide Rotate, UnitQuaternion, Inverse;
    RotateInverse(p, v);
    RotateInverse(p, w);
  }

  // ---- the limiter ----

  lemma YawQuaternion(m: Maths, yaw: real)
    requires Lawful(m)
    ensures var h := FromRotationVector(m, Vector3(0.0, 0.0, yaw)); UnitQuaternion(h) && h.q2 == 0.0 && h.q3 == 0.0
  {
    var v := Vector3(0.0, 0.0, yaw);
    LengthLaw(m.sqrt, v);
    IdentityUnit();
    var theta := Length(m.sqrt, v);
    if !IsZero(theta) {
      DivideUnit(v, theta);
      FromAxisAngleUnit(m, Divide(v, theta), theta);
    }
    hide Length, UnitQuaternion, UnitVector, Lawful, LengthSquared;
  }

  /** Capping the yaw error leaves the target's thrust direction alone exactly when the correction reaches it, whatever the cap. */
  lemma LimitingKeepsThrust(m: Maths, target: Quaternion, body: Quaternion, yaw: real)
    requires Lawful(m) && UnitQuaternion(body) && UnitQuaternion(target)
    ensures UnitQuaternion(Rebuilt(m, target, body, yaw))
    ensures ThrustOf(Rebuilt(m, target, body, yaw)) == ThrustOf(target) <==> Reaches(m, ThrustOf(body), ThrustOf(target))
  {
    hide Mul, Rotate, UnitQuaternion, UnitVector, Lawful, Correction, Reaches, InertialCorrection, FromRotationVector;
    var c, h := Correction(m, target, body), FromRotationVector(m, Vector3(0.0, 0.0, yaw));
    YawQuaternion(m, yaw);
    CorrectionUnit(m, target, body);
    UnitMul(body, c);
    UnitMul(Mul(body, c), h);
    RotateMul(Mul(body, c), h, UP);
    UpFixed(h);
    CorrectedThrust(m, target, body);
    ThrustUnit(body);
    ThrustUnit(target);
    ReachesExactly(m, ThrustOf(body), ThrustOf(target));
  }

  /** Decomposing the limited target again finds the same thrust correction and, as heading, exactly the capped rotation. */
  lemma LimitedAgain(m: Maths, target: Quaternion, body: Quaternion, yaw: real)
    requires Lawful(m) && UnitQuaternion(body) && UnitQuaternion(target) && Reaches(m, ThrustOf(body), ThrustOf(target))
    ensures var t := Rebuilt(m, target, body, yaw);
      && Correction(m, t, body) == Correction(m, target, body)
      && Heading(m, t, body) == FromRotationVector(m, Vector3(0.0, 0.0, yaw))
  {
    hide Mul, Rotate, UnitQuaternion, UnitVector, Lawful, Reaches, FromRotationVector, Inverse, FromAxisAngle, ThrustAxis, ErrorAngle;
    var c, h, t := Correction(m, target, body), FromRotationVector(m, Vector3(0.0, 0.0, yaw)), Rebuilt(m, target, body, yaw);
    LimitingKeepsThrust(m, target, body, yaw);
    CorrectionUnit(m, target, body);
    UnitMul(body, c);
    var p := Mul(body, c);
    InverseMul(body, c);
    MulAssociative(Inverse(p), p, h);
    Cancels(p);
    MulIdentity(h);
  }

  /**
   The limit is where the yaw output saturates at rest: at any heading error up to it the square-root controller asks for
   a rate that the rate gain turns into at most the full output, and at the limit itself, below 45 degrees, into exactly that.
   */
  lemma LimitSaturates(sqrt: real -> real, rateYawKp: real, angleYawKp: real, accelYawMax: real, error: real)
    requires IsSquareRoot(sqrt) && rateYawKp > 0.0 && rateYawKp * FLT_EPSILON <= 1.0 && IsPositive(angleYawKp)
    ensures var limit := HeadingErrorMax(rateYawKp, angleYawKp, accelYawMax);
      var a := Clamp(accelYawMax / 2.0, ACCEL_Y_MIN_RADSS, ACCEL_Y_MAX_RADSS);
      && 0.0 < limit <= YAW_MAX_ERROR_RAD
      && (0.0 <= error <= limit ==> Times(rateYawKp, Controlled(sqrt, error, angleYawKp, a, 0.0)) <= 1.0)
      && (limit < YAW_MAX_ERROR_RAD ==> Times(rateYawKp, Controlled(sqrt, limit, angleYawKp, a, 0.0)) == 1.0)
  {
    hide IsSquareRoot, Rate, InverseControlled, Clamp;
    var a := Clamp(accelYawMax / 2.0, ACCEL_Y_MIN_RADSS, ACCEL_Y_MAX_RADSS);
    AccelerationInUse(accelYawMax);
    var full := 1.0 / rateYawKp;
    FullOutput(rateYawKp);
    InverseThenControl(sqrt, full, angleYawKp, a);
    var e := InverseControlled(full, angleYawKp, a);
    InversePositive(full, angleYawKp, a);
    if 0.0 <= error <= e {
      RateGrows(sqrt, error, e, angleYawKp, a);
      TimesNonNegative(rateYawKp, full - Rate(sqrt, error, angleYawKp, a));
      assert Times(rateYawKp, full - Rate(sqrt, error, angleYawKp, a)) == Times(rateYawKp, full) - Times(rateYawKp, Rate(sqrt, error, angleYawKp, a));
    }
  }

  lemma AccelerationInUse(accelYawMax: real)
    ensures IsPositive(Clamp(accelYawMax / 2.0, ACCEL_Y_MIN_RADSS, ACCEL_Y_MAX_RADSS))
  {}

  lemma FullOutput(k: real)
    requires k > 0.0 && k * FLT_EPSILON <= 1.0
    ensures IsPositive(1.0 / k) && Times(k, 1.0 / k) == 1.0
  {
    var full := 1.0 / k;
    assert full * k == 1.0;
    SignOfFactor(k, full - FLT_EPSILON);
    assert Times(k, full - FLT_EPSILON) == full * k - k * FLT_EPSILON;
  }

  /** The heading error left after limiting is within the limit, and the thrust part of the errors is as it was. */
  lemma HeadingErrorCapped(m: Maths, target: Quaternion, body: Quaternion, rateYawKp: real, angleYawKp: real, accelYawMax: real)
    requires !IsZero(rateYawKp) && !IsZero(angleYawKp) && HeadingErrorMax(rateYawKp, angleYawKp, accelYawMax) >= 0.0
    ensures var r := ThrustHeadingRotation(m, target, body, rateYawKp, angleYawKp, accelYawMax);
      var e := ThrustVectorRotation(m, target, body);
      && Abs(r.1.attitudeError.z) <= HeadingErrorMax(rateYawKp, angleYawKp, accelYawMax) <= YAW_MAX_ERROR_RAD
      && r.1.attitudeError.x == e.attitudeError.x && r.1.attitudeError.y == e.attitudeError.y
      && r.1.correction == e.correction && r.1.thrustErrorAngle == e.thrustErrorAngle && r.1.thrustAngle == e.thrustAngle
  {
    hide ThrustVectorRotation, Rebuilt;
  }

  /**
   Yaw limiting as a whole: for unit attitudes whose correction is usable, or whose thrust vectors
   already agree, the new target points its thrust where the old one did.
   */
  lemma YawLimitingKeepsThrust(m: Maths, target: Quaternion, body: Quaternion, rateYawKp: real, angleYawKp: real, accelYawMax: real)
    requires Lawful(m) && UnitQuaternion(body) && UnitQuaternion(target) && Reaches(m, ThrustOf(body), ThrustOf(target))
    ensures var t := ThrustHeadingRotation(m, target, body, rateYawKp, angleYawKp, accelYawMax).0;
      UnitQuaternion(t) && ThrustOf(t) == ThrustOf(target)
  {
    hide Rotate, UnitQuaternion, Lawful, Reaches, ThrustVectorRotation, Rebuilt, HeadingErrorMax;
    var e := ThrustVectorRotation(m, target, body);
    if !IsZero(rateYawKp) {
      var limit := HeadingErrorMax(rateYawKp, angleYawKp, accelYawMax);
      LimitingKeepsThrust(m, target, body, Clamp(m.wrapPi(e.attitudeError.z), -limit, limit));
    }
  }

  /** A level body tilted from its target by less than the zero threshold: no usable axis, and the correction misses. */
  lemma HairTilt(m: Maths, c: real, s: real)
    requires Lawful(m) && UnitQuaternion(Quaternion(c, s, 0.0, 0.0)) && s != 0.0
    requires 0.0 <= 2.0 * Times(c, s) < FLT_EPSILON
    ensures !Reaches(m, ThrustOf(IDENTITY), ThrustOf(Quaternion(c, s, 0.0, 0.0)))
  {
    hide Rotate, Times, Lawful, ErrorAngle, UnitQuaternion;
    var target := Quaternion(c, s, 0.0, 0.0);
    var u := ThrustOf(target);
    UpImage(target);
    RotateIdentity(UP);
    SquareNonNegative(s);
    ZeroProducts(c, 0.0);
    ZeroProducts(s, 0.0);
    TiltLength(m, u.y, u.z);
    var half := ErrorAngle(m, UP, u) * 0.5;
    UpFixed(AxisQuaternion(m.cos(half), m.sin(half), UP));
    ZeroProducts(0.0, m.sin(half));
  }

  lemma TiltLength(m: Maths, y: real, z: real)
    requires Lawful(m) && 0.0 <= y < FLT_EPSILON
    ensures IsZero(Length(m.sqrt, Cross(UP, Vector3(0.0, y, z))))
  {
    var x := Cross(UP, Vector3(0.0, y, z));
    LengthLaw(m.sqrt, x);
    assert LengthSquared(x) == Times(y, y);
    hide Times, Lawful, Cross, LengthSquared;
    EqualSquares(Length(m.sqrt, x), y);
  }

  /** Such a target exists, and its heading remainder is no pure z rotation. */
  lemma HairTiltMisses(m: Maths)
    requires Lawful(m)
    ensures var k: real := 0.00000001; var d := 1.0 + k * k; var target := Quaternion((1.0 - k * k) / d, 2.0 * k / d, 0.0, 0.0);
      && UnitQuaternion(target)
      && var q := Heading(m, target, IDENTITY); q.q2 != 0.0 || q.q3 != 0.0
  {
    hide Lawful, Heading, Reaches, Rotate;
    var k: real := 0.00000001;
    var d := 1.0 + k * k;
    HairTilt(m, (1.0 - k * k) / d, 2.0 * k / d);
    IdentityUnit();
    HeadingIsPureZ(m, Quaternion((1.0 - k * k) / d, 2.0 * k / d, 0.0, 0.0), IDENTITY);
  }

  // ---- the two operations, step by step ----

  method ThrustVectorRotationAngles(m: Maths, target: Quaternion, body: Quaternion)
    returns (correction: Quaternion, attitudeError: Vector3, thrustAngle: real, thrustErrorAngle: real)
    ensures Errors(correction, attitudeError, thrustAngle, thrustErrorAngle) == ThrustVectorRotation(m, target, body)
  {
    hide Rotate, Mul, FromAxisAngle, ToRotationVector, Dot3, Cross;
    var targetThrust, bodyThrust := Rotate(target, UP), Rotate(body, UP);
    thrustAngle := m.acos(Clamp(Dot3(UP, bodyThrust), -1.0, 1.0));
    var cross := Cross(bodyThrust, targetThrust);
    thrustErrorAngle := m.acos(Clamp(Dot3(bodyThrust, targetThrust), -1.0, 1.0));
    var length := Length(m.sqrt, cross);
    if IsZero(length) || IsZero(thrustErrorAngle) {
      cross := UP;
    } else {
      cross := Divide(cross, length);
    }
    cross := Rotate(Inverse(body), cross);
    correction := FromAxisAngle(m, cross, thrustErrorAngle);
    var rotation := ToRotationVector(m, correction);
    attitudeError := Vector3(rotation.x, rotation.y, 0.0);
    rotation := ToRotationVector(m, Mul(Mul(Inverse(correction), Inverse(body)), target));
    attitudeError := attitudeError.(z := rotation.z);
  }

  /** The target passed in by reference comes back as `newTarget`. */
  method ThrustHeadingRotationAngles(m: Maths, target: Quaternion, body: Quaternion, rateYawKp: real, angleYawKp: real, accelYawMax: real)
    returns (newTarget: Quaternion, attitudeError: Vector3, thrustAngle: real, thrustErrorAngle: real)
    ensures var r := ThrustHeadingRotation(m, target, body, rateYawKp, angleYawKp, accelYawMax);
      && newTarget == r.0 && attitudeError == r.1.attitudeError
      && thrustAngle == r.1.thrustAngle && thrustErrorAngle == r.1.thrustErrorAngle
  {
    hide Mul, Correction, FromRotationVector, ToRotationVector;
    var correction;
    correction, attitudeError, thrustAngle, thrustErrorAngle := ThrustVectorRotationAngles(m, target, body);
    newTarget := target;
    var headingAccelMax := Clamp(accelYawMax / 2.0, ACCEL_Y_MIN_RADSS, ACCEL_Y_MAX_RADSS);
    if !IsZero(rateYawKp) {
      var headingErrorMax := Min(InverseControlled(1.0 / rateYawKp, angleYawKp, headingAccelMax), YAW_MAX_ERROR_RAD);
      if !IsZero(angleYawKp) && Abs(attitudeError.z) > headingErrorMax {
        attitudeError := attitudeError.(z := Clamp(m.wrapPi(attitudeError.z), -headingErrorMax, headingErrorMax));
        newTarget := Mul(Mul(body, correction), FromRotationVector(m, Vector3(0.0, 0.0, attitudeError.z)));
      }
    }
  }
}
