/**
 What the attitude errors mean: turned about its own x and y axes by the first two, the body has the
 target's direction of thrust, and turned on about z by the third it has the target attitude. Both
 hold exactly when the half angle turned is not taken for zero, where the rotation vector of a
 quaternion is no longer one that leads back to it. And what the cap on the third leaves of it.
 */
module AttitudeErrors {
  import opened Numeric
  import opened Geometry
  import opened QuaternionAlgebra
  import opened SquareRootController
  import opened AttitudeControl

  // ---- the laws of the angle functions ----

  /** The angle of a point at distance `k` from the origin. */
  predicate ArcTangentLaw(m: Maths, y: real, x: real, k: real) {
    k > 0.0 && Times(y, y) + Times(x, x) == Times(k, k) ==> Times(k, m.sin(m.atan2(y, x))) == y && Times(k, m.cos(m.atan2(y, x))) == x
  }

  /** Wrapping takes whole turns off, so sine and cosine of the half angle keep their values or change sign together. */
  predicate WrapLaw(m: Maths, a: real) {
    var h, w := a * 0.5, m.wrapPi(a) * 0.5;
    (m.sin(w) == m.sin(h) && m.cos(w) == m.cos(h)) || (m.sin(w) == -m.sin(h) && m.cos(w) == -m.cos(h))
  }

  predicate ParityLaw(m: Maths, a: real) { m.sin(-a) == -m.sin(a) && m.cos(-a) == m.cos(a) }

  /** An arc is no shorter than its sine. */
  predicate ArcLaw(m: Maths, a: real) { Abs(m.sin(a)) <= Abs(a) }

  ghost predicate AngleLaws(m: Maths) {
    && (forall y: real, x: real, k: real :: ArcTangentLaw(m, y, x, k))
    && (forall a: real :: WrapLaw(m, a))
    && (forall a: real :: ParityLaw(m, a))
    && (forall a: real :: ArcLaw(m, a))
  }

  lemma Root(m: Maths)
    requires Lawful(m)
    ensures IsSquareRoot(m.sqrt)
  {}

  // ---- a quaternion, its rotation vector, and back ----

  function Negative(q: Quaternion): Quaternion { Quaternion(-q.q1, -q.q2, -q.q3, -q.q4) }

  /** The same rotation: equal up to sign. */
  predicate Same(p: Quaternion, q: Quaternion) { p == q || p == Negative(q) }

  function Vectorial(q: Quaternion): Vector3 { Vector3(q.q2, q.q3, q.q4) }

  lemma VectorialLength(m: Maths, q: Quaternion)
    requires Lawful(m) && UnitQuaternion(q)
    ensures var l := Length(m.sqrt, Vectorial(q)); l >= 0.0 && Times(l, l) + Times(q.q1, q.q1) == 1.0 && Times(l, l) == LengthSquared(Vectorial(q))
  {
    hide Length;
    LengthLaw(m.sqrt, Vectorial(q));
  }

  lemma ScaledLength(m: Maths, n: Vector3, w: real)
    requires Lawful(m) && UnitVector(n)
    ensures Length(m.sqrt, Scale(n, w)) == Abs(w)
  {
    hide Length, LengthSquared, Times, Lawful, Scale, UnitVector;
    Root(m);
    LengthLaw(m.sqrt, Scale(n, w));
    ScaledSquared(n, w);
    AbsSquared(w);
    EqualSquares(Length(m.sqrt, Scale(n, w)), Abs(w));
  }

  lemma ScaledSquared(n: Vector3, w: real)
    requires UnitVector(n)
    ensures LengthSquared(Scale(n, w)) == Times(w, w)
  {
    assert LengthSquared(Scale(n, w)) == Times(LengthSquared(n), w * w);
    SameTimes(LengthSquared(n), 1.0, w * w);
  }

  lemma AbsSquared(w: real)
    ensures Times(Abs(w), Abs(w)) == Times(w, w) && Abs(w) >= 0.0
  {}

  /** One component of the quaternion rebuilt from a rotation vector `n w` of length `k`. */
  lemma ComponentBack(m: Maths, n: real, w: real, a: real, k: real)
    requires AngleLaws(m) && w != 0.0 && k == Abs(w) && a == n * w
    ensures k != 0.0 && Times(a / k, m.sin(k * 0.5)) == Times(n, m.sin(w * 0.5)) && m.cos(k * 0.5) == m.cos(w * 0.5)
  {
    hide ArcTangentLaw, WrapLaw, ArcLaw;
    if w < 0.0 {
      assert ParityLaw(m, w * 0.5);
      assert k * 0.5 == -(w * 0.5);
      QuotientIs(a, k, -n);
      NegativeTimes(n, m.sin(w * 0.5));
    } else {
      QuotientIs(a, k, n);
    }
  }

  lemma QuotientIs(a: real, k: real, n: real)
    requires k != 0.0 && a == n * k
    ensures a / k == n
  {
    assert (a / k - n) * k == 0.0;
  }

  lemma NegativeTimes(a: real, b: real)
    ensures Times(-a, -b) == Times(a, b) && Times(-a, b) == -Times(a, b) == Times(a, -b)
  {}

  /** The rotation vector `n w` as a quaternion. */
  lemma FromScaled(m: Maths, n: Vector3, w: real)
    requires Lawful(m) && AngleLaws(m) && UnitVector(n) && !IsZero(w)
    ensures FromRotationVector(m, Scale(n, w)) == AxisQuaternion(m.cos(w * 0.5), m.sin(w * 0.5), n)
  {
    hide Lawful, AngleLaws, UnitVector, Times, Length;
    ScaledLength(m, n, w);
    ComponentBack(m, n.x, w, Scale(n, w).x, Length(m.sqrt, Scale(n, w)));
    ComponentBack(m, n.y, w, Scale(n, w).y, Length(m.sqrt, Scale(n, w)));
    ComponentBack(m, n.z, w, Scale(n, w).z, Length(m.sqrt, Scale(n, w)));
  }

  lemma DivideBack(a: real, l: real)
    requires l != 0.0
    ensures Times(a / l, l) == a && Times(a / l, -l) == -a
  {}

  /**
   A unit quaternion comes back from its rotation vector up to sign, unless the sine of its half angle is taken for
   zero: then what comes back is the identity.
   */
  lemma RotationVectorReturns(m: Maths, q: Quaternion)
    requires Lawful(m) && AngleLaws(m) && UnitQuaternion(q)
    ensures var l := Length(m.sqrt, Vectorial(q));
      if IsZero(l) then FromRotationVector(m, ToRotationVector(m, q)) == IDENTITY else Same(FromRotationVector(m, ToRotationVector(m, q)), q)
  {
    hide Lawful, UnitVector, UnitQuaternion, Times, LengthSquared, FromRotationVector, WrapLaw, ArcTangentLaw, ArcLaw, ParityLaw;
    var v := Vectorial(q);
    var l := Length(m.sqrt, v);
    VectorialLength(m, q);
    if IsZero(l) {
      ShortVector(m, v);
    } else {
      var a := 2.0 * m.atan2(l, q.q1);
      var n, w := Divide(v, l), m.wrapPi(a);
      DivideUnit(v, l);
      HalfWrapped(m, l, q.q1);
      LongEnough(m, l, w);
      FromScaled(m, n, w);
      DivideBack(v.x, l);
      DivideBack(v.y, l);
      DivideBack(v.z, l);
      assert ToRotationVector(m, q) == Scale(n, w);
    }
  }

  lemma ShortVector(m: Maths, v: Vector3)
    requires IsZero(Length(m.sqrt, v))
    ensures FromRotationVector(m, v) == IDENTITY
  {
    hide Length;
  }

  /** Half the wrapped angle has the sine and cosine it was formed from, up to a common sign. */
  lemma HalfWrapped(m: Maths, l: real, c: real)
    requires AngleLaws(m) && Times(l, l) + Times(c, c) == 1.0
    ensures var w := m.wrapPi(2.0 * m.atan2(l, c)) * 0.5;
      (m.sin(w) == l && m.cos(w) == c) || (m.sin(w) == -l && m.cos(w) == -c)
  {
    assert ArcTangentLaw(m, l, c, 1.0);
    assert WrapLaw(m, 2.0 * m.atan2(l, c));
    assert (2.0 * m.atan2(l, c)) * 0.5 == m.atan2(l, c);
  }

  lemma LongEnough(m: Maths, l: real, w: real)
    requires AngleLaws(m) && !IsZero(l) && (m.sin(w * 0.5) == l || m.sin(w * 0.5) == -l)
    ensures !IsZero(w)
  {
    assert ArcLaw(m, w * 0.5);
  }

  // ---- sign does not matter ----

  lemma MulNegative(p: Quaternion, q: Quaternion)
    ensures Mul(p, Negative(q)) == Negative(Mul(p, q)) == Mul(Negative(p), q)
  {
    hide Times;
    NegativeTimes(p.q1, q.q1);
    NegativeTimes(p.q1, q.q2);
    NegativeTimes(p.q1, q.q3);
    NegativeTimes(p.q1, q.q4);
    NegativeTimes(p.q2, q.q1);
    NegativeTimes(p.q2, q.q2);
    NegativeTimes(p.q2, q.q3);
    NegativeTimes(p.q2, q.q4);
    NegativeTimes(p.q3, q.q1);
    NegativeTimes(p.q3, q.q2);
    NegativeTimes(p.q3, q.q3);
    NegativeTimes(p.q3, q.q4);
    NegativeTimes(p.q4, q.q1);
    NegativeTimes(p.q4, q.q2);
    NegativeTimes(p.q4, q.q3);
    NegativeTimes(p.q4, q.q4);
  }

  lemma SameMul(p: Quaternion, q: Quaternion, r: Quaternion)
    requires Same(q, r)
    ensures Same(Mul(p, q), Mul(p, r)) && Same(Mul(q, p), Mul(r, p))
  {
    hide Mul;
    MulNegative(p, r);
    MulNegative(r, p);
  }

  lemma SameThrust(p: Quaternion, q: Quaternion)
    requires Same(p, q)
    ensures ThrustOf(p) == ThrustOf(q)
  {
    hide Times, Rotate;
    UpImage(p);
    UpImage(q);
    NegativeTimes(q.q1, q.q3);
    NegativeTimes(q.q2, q.q4);
    NegativeTimes(q.q1, q.q2);
    NegativeTimes(q.q3, q.q4);
    NegativeTimes(q.q2, q.q2);
    NegativeTimes(q.q3, q.q3);
  }

  lemma SameTwice(p: Quaternion, q: Quaternion, r: Quaternion)
    requires Same(p, q) && Same(q, r)
    ensures Same(p, r) && Same(q, p)
  {}

  // ---- the correction turns about x and y ----

  /** The axis of the correction lies across the thrust. */
  lemma CorrectionLevel(m: Maths, target: Quaternion, body: Quaternion)
    requires Lawful(m) && UnitQuaternion(body) && !Degenerate(m, ThrustOf(body), ThrustOf(target))
    ensures Rotate(Inverse(body), ThrustAxis(m, ThrustOf(body), ThrustOf(target))).z == 0.0
  {
    hide Lawful, Rotate, UnitQuaternion, Cross, LengthSquared, Divide, Length, ErrorAngle;
    var b, u := ThrustOf(body), ThrustOf(target);
    var n := ThrustAxis(m, b, u);
    CrossPerpendicular(b, u);
    DivideDot(Cross(b, u), Length(m.sqrt, Cross(b, u)), b);
    UnitMul(body, body);
    RotateKeepsDot(Inverse(body), n, b);
    RotateInverse(body, UP);
    DotUp(Rotate(Inverse(body), n));
  }

  lemma DotUp(v: Vector3)
    ensures Dot3(v, UP) == -v.z
  {}

  /** The sine of half the angle between the thrust vectors is the length of the correction's vector part. */
  lemma CorrectionLength(m: Maths, target: Quaternion, body: Quaternion)
    requires Lawful(m) && UnitQuaternion(body) && !Degenerate(m, ThrustOf(body), ThrustOf(target))
    ensures var c, h := Correction(m, target, body), m.sin(ErrorAngle(m, ThrustOf(body), ThrustOf(target)) * 0.5);
      Length(m.sqrt, Vectorial(c)) == Abs(h) && c.q4 == 0.0
  {
    hide Lawful, Rotate, UnitQuaternion, UnitVector, Length, LengthSquared, ThrustAxis, ErrorAngle, Times;
    var b, u := ThrustOf(body), ThrustOf(target);
    var n, s := Rotate(Inverse(body), ThrustAxis(m, b, u)), m.sin(ErrorAngle(m, b, u) * 0.5);
    AxisUnit(m, b, u);
    UnitMul(body, body);
    RotateKeepsLength(Inverse(body), ThrustAxis(m, b, u));
    assert UnitVector(n) by {
      StillUnit(ThrustAxis(m, b, u), n);
    }
    ScaledLength(m, n, s);
    CorrectionLevel(m, target, body);
    AxisScaled(m.cos(ErrorAngle(m, b, u) * 0.5), s, n);
    ZeroProducts(n.z, s);
  }

  lemma StillUnit(v: Vector3, n: Vector3)
    requires UnitVector(v) && LengthSquared(n) == LengthSquared(v)
    ensures UnitVector(n)
  {}

  lemma AxisScaled(c: real, s: real, n: Vector3)
    ensures Vectorial(AxisQuaternion(c, s, n)) == Scale(n, s)
    ensures n.z == 0.0 ==> AxisQuaternion(c, s, n).q4 == 0.0
  {}

  /** A quaternion without z part has a rotation vector without z part. */
  lemma LevelVector(m: Maths, q: Quaternion)
    ensures q.q4 == 0.0 ==> ToRotationVector(m, q).z == 0.0
    ensures q.q2 == 0.0 && q.q3 == 0.0 ==> ToRotationVector(m, q).x == 0.0 == ToRotationVector(m, q).y
  {}

  // ---- what the errors do ----

  /** The body turned about x and y by the first two errors. */
  function Tilted(m: Maths, body: Quaternion, e: Vector3): Quaternion { Mul(body, FromRotationVector(m, Vector3(e.x, e.y, 0.0))) }

  /** The body turned by all three, about z last. */
  function TurnedOn(m: Maths, body: Quaternion, e: Vector3): Quaternion { Mul(Tilted(m, body, e), FromRotationVector(m, Vector3(0.0, 0.0, e.z))) }

  /** With a usable axis: the tilt errors bring the thrust of the body onto that of the target exactly when the half angle is not taken for zero. */
  lemma TiltErrorsReach(m: Maths, target: Quaternion, body: Quaternion)
    requires Lawful(m) && AngleLaws(m) && UnitQuaternion(body) && UnitQuaternion(target)
    requires !Degenerate(m, ThrustOf(body), ThrustOf(target))
    ensures var e, h := ThrustVectorRotation(m, target, body).attitudeError, m.sin(ErrorAngle(m, ThrustOf(body), ThrustOf(target)) * 0.5);
      && (ThrustOf(Tilted(m, body, e)) == ThrustOf(target) <==> !IsZero(h))
      && (!IsZero(h) ==> Same(Tilted(m, body, e), Mul(body, Correction(m, target, body))))
  {
    hide Lawful, AngleLaws, Mul, Rotate, UnitQuaternion, UnitVector, Correction, ToRotationVector, FromRotationVector, Heading, ErrorAngle, Length, Degenerate, Cross, InertialCorrection;
    var c, b, u := Correction(m, target, body), ThrustOf(body), ThrustOf(target);
    CorrectionUnit(m, target, body);
    CorrectionLength(m, target, body);
    RotationVectorReturns(m, c);
    LevelVector(m, c);
    ThrustUnit(body);
    ThrustUnit(target);
    var r := FromRotationVector(m, ToRotationVector(m, c));
    if IsZero(m.sin(ErrorAngle(m, b, u) * 0.5)) {
      MulIdentity(body);
      UsableDiffer(m, b, u);
    } else {
      SameMul(body, r, c);
      SameThrust(Mul(body, r), Mul(body, c));
      CorrectedThrust(m, target, body);
      TurnReaches(m, b, u);
    }
  }

  /** Thrust vectors with a usable axis differ. */
  lemma UsableDiffer(m: Maths, b: Vector3, u: Vector3)
    requires Lawful(m) && !Degenerate(m, b, u)
    ensures b != u
  {
    hide Lawful, ErrorAngle, LengthSquared;
    if b == u {
      CrossSelf(b);
      Root(m);
      ZeroLength(m.sqrt);
    }
  }

  lemma CrossSelf(b: Vector3)
    ensures Cross(b, b) == ZERO3
  {}

  /** With a usable axis whose half angle counts, all three errors bring the body to the target exactly when the heading left has no sine, or one that is not taken for zero. */
  lemma ErrorsReach(m: Maths, target: Quaternion, body: Quaternion)
    requires Lawful(m) && AngleLaws(m) && UnitQuaternion(body) && UnitQuaternion(target)
    requires !Degenerate(m, ThrustOf(body), ThrustOf(target)) && !IsZero(m.sin(ErrorAngle(m, ThrustOf(body), ThrustOf(target)) * 0.5))
    ensures var e, z := ThrustVectorRotation(m, target, body).attitudeError, Heading(m, target, body).q4;
      Same(TurnedOn(m, body, e), target) <==> z == 0.0 || !IsZero(z)
  {
    hide Lawful, AngleLaws, Mul, Rotate, UnitQuaternion, UnitVector, Correction, ToRotationVector, FromRotationVector, Heading, ErrorAngle, Length, Degenerate, Cross, Same;
    var c, h, e := Correction(m, target, body), Heading(m, target, body), ThrustVectorRotation(m, target, body).attitudeError;
    var p := Mul(body, c);
    TiltErrorsReach(m, target, body);
    CorrectionUnit(m, target, body);
    Rebuilds(m, target, body);
    HeadingIsPureZ(m, target, body);
    HeadingLength(m, h);
    RotationVectorReturns(m, h);
    LevelVector(m, h);
    var t, r := Tilted(m, body, e), FromRotationVector(m, ToRotationVector(m, h));
    SameMul(r, t, p);
    UnitMul(body, c);
    assert ErrorsOf(m, target, body);
    if IsZero(h.q4) {
      MulIdentity(t);
      MulIdentity(p);
      PureIdentity(p, h);
      if h.q4 == 0.0 {
        SameMul(p, IDENTITY, h);
        SameTwice(t, p, target);
      } else if Same(t, target) {
        SameTwice(t, p, p);
        SameTwice(p, t, target);
      }
    } else {
      SameMul(p, r, h);
      SameTwice(Mul(t, r), Mul(p, r), target);
    }
  }

  predicate ErrorsOf(m: Maths, target: Quaternion, body: Quaternion) {
    var e := ThrustVectorRotation(m, target, body).attitudeError;
    e.z == ToRotationVector(m, Heading(m, target, body)).z
  }

  lemma HeadingLength(m: Maths, h: Quaternion)
    requires Lawful(m) && h.q2 == 0.0 && h.q3 == 0.0
    ensures Length(m.sqrt, Vectorial(h)) == Abs(h.q4)
  {
    hide Lawful, Length, LengthSquared;
    UnitZ();
    ScaledLength(m, Z_AXIS, h.q4);
    assert Scale(Z_AXIS, h.q4) == Vectorial(h);
  }

  lemma UnitZ()
    ensures UnitVector(Z_AXIS)
  {}

  /** A unit quaternion about z without sine is the identity, up to sign; and only then does it leave another one alone, up to sign. */
  lemma PureIdentity(p: Quaternion, h: Quaternion)
    requires UnitQuaternion(p) && UnitQuaternion(h) && h.q2 == 0.0 && h.q3 == 0.0
    ensures h.q4 == 0.0 ==> Same(IDENTITY, h)
    ensures Same(p, Mul(p, h)) ==> h.q4 == 0.0
  {
    hide Mul, UnitQuaternion;
    if h.q4 == 0.0 {
      UnitScalar(h);
    }
    if Same(p, Mul(p, h)) {
      UnitMul(p, p);
      Cancels(p);
      MulAssociative(Inverse(p), p, h);
      MulIdentity(h);
      SameMul(Inverse(p), p, Mul(p, h));
    }
  }

  lemma UnitScalar(h: Quaternion)
    requires UnitQuaternion(h) && h.q2 == 0.0 && h.q3 == 0.0 && h.q4 == 0.0
    ensures h == IDENTITY || h == Negative(IDENTITY)
  {
    hide UnitQuaternion;
    ScalarNorm(h);
    OneOrMinusOne(h.q1);
  }

  lemma OneOrMinusOne(a: real)
    requires Times(a, a) == 1.0
    ensures a == 1.0 || a == -1.0
  {
    if a > 0.0 {
      EqualSquares(a, 1.0);
    } else {
      NegativeTimes(a, a);
      EqualSquares(-a, 1.0);
    }
  }

  lemma ScalarNorm(h: Quaternion)
    requires UnitQuaternion(h) && h.q2 == 0.0 && h.q3 == 0.0 && h.q4 == 0.0
    ensures Times(h.q1, h.q1) == 1.0
  {}

  /** The two angles reported are the lean of the body and the angle between the thrust vectors. */
  lemma ReportedAngles(m: Maths, target: Quaternion, body: Quaternion)
    requires Lawful(m) && UnitQuaternion(body) && UnitQuaternion(target)
    ensures var e := ThrustVectorRotation(m, target, body);
      && m.cos(e.thrustAngle) == Dot3(UP, ThrustOf(body)) && m.sin(e.thrustAngle) >= 0.0
      && m.cos(e.thrustErrorAngle) == Dot3(ThrustOf(body), ThrustOf(target)) && m.sin(e.thrustErrorAngle) >= 0.0
  {
    hide Lawful, Rotate, UnitQuaternion, UnitVector, Dot3, Length, Correction, Heading, ToRotationVector, Cross;
    ThrustUnit(body);
    ThrustUnit(target);
    UpUnit();
    ErrorAngleLaw(m, UP, ThrustOf(body));
    ErrorAngleLaw(m, ThrustOf(body), ThrustOf(target));
    Root(m);
    LengthLaw(m.sqrt, Cross(UP, ThrustOf(body)));
    LengthLaw(m.sqrt, Cross(ThrustOf(body), ThrustOf(target)));
  }

  // ---- the cap on the heading error ----

  /** Wrapping lands within half a turn, the positive end included, and leaves alone what is there. */
  predicate WrapRange(m: Maths, pi: real, a: real) {
    -pi < m.wrapPi(a) <= pi && (-pi < a <= pi ==> m.wrapPi(a) == a) && (a == -pi ==> m.wrapPi(a) == pi)
  }

  lemma PartOfLength(sqrt: real -> real, v: Vector3)
    requires IsSquareRoot(sqrt)
    ensures Length(sqrt, v) >= 0.0 && Abs(v.z) <= Length(sqrt, v)
  {
    hide Length, IsSquareRoot;
    LengthLaw(sqrt, v);
    var l, z := Length(sqrt, v), Abs(v.z);
    SquareNonNegative(v.x);
    SquareNonNegative(v.y);
    AbsSquared(v.z);
    assert LengthSquared(v) == Times(v.x, v.x) + Times(v.y, v.y) + Times(v.z, v.z);
    if l < z {
      SquaresDiffer(l, z);
    }
  }

  lemma ShareOf(a: real, l: real, w: real, pi: real)
    requires l > 0.0 && Abs(a) <= l && Abs(w) <= pi
    ensures Abs(a / l * w) <= pi
  {
    var k := a / l;
    assert Times(k, l) == a;
    SignOfFactor(l, 1.0 - k);
    SignOfFactor(l, 1.0 + k);
    assert Times(l, 1.0 - k) == l - Times(k, l) && Times(l, 1.0 + k) == l + Times(k, l);
    TimesNonNegative(1.0 - Abs(k), Abs(w));
    AbsTimes(k, w);
  }

  lemma AbsTimes(k: real, w: real)
    ensures Abs(k * w) == Times(Abs(k), Abs(w)) && Times(1.0 - Abs(k), Abs(w)) == Abs(w) - Times(Abs(k), Abs(w))
  {}

  /** A rotation vector reaches no further than half a turn along any axis. */
  lemma HeadingWithinHalfTurn(m: Maths, q: Quaternion, pi: real)
    requires IsSquareRoot(m.sqrt) && pi >= 1.0 && (forall a: real :: WrapRange(m, pi, a))
    ensures -pi <= ToRotationVector(m, q).z <= pi
  {
    hide IsSquareRoot, Length;
    var v, l := Vectorial(q), Length(m.sqrt, Vectorial(q));
    PartOfLength(m.sqrt, v);
    if !IsZero(l) {
      var w := m.wrapPi(2.0 * m.atan2(l, q.q1));
      assert WrapRange(m, pi, 2.0 * m.atan2(l, q.q1));
      ShareOf(v.z, l, w, pi);
    }
  }

  /** The cap keeps the side of the heading error, and all of it up to the limit; only an error of exactly minus half a turn is taken the other way. */
  lemma CapKeepsSide(m: Maths, target: Quaternion, body: Quaternion, rateYawKp: real, angleYawKp: real, accelYawMax: real, pi: real)
    requires IsSquareRoot(m.sqrt) && pi >= 1.0 && (forall a: real :: WrapRange(m, pi, a))
    requires !IsZero(rateYawKp) && !IsZero(angleYawKp) && HeadingErrorMax(rateYawKp, angleYawKp, accelYawMax) >= 0.0
    ensures var limit, z := HeadingErrorMax(rateYawKp, angleYawKp, accelYawMax), ThrustVectorRotation(m, target, body).attitudeError.z;
      var y := ThrustHeadingRotation(m, target, body, rateYawKp, angleYawKp, accelYawMax).1.attitudeError.z;
      && -pi <= z <= pi
      && (Abs(z) <= limit ==> y == z) && (z > limit ==> y == limit)
      && (z < -limit ==> y == if z == -pi then limit else -limit)
  {
    hide IsSquareRoot, ToRotationVector, HeadingErrorMax, Correction, Heading, Rebuilt, ErrorAngle, ThrustOf, Dot3;
    HeadingWithinHalfTurn(m, Heading(m, target, body), pi);
    LimitBelowOne(rateYawKp, angleYawKp, accelYawMax);
    var z := ThrustVectorRotation(m, target, body).attitudeError.z;
    assert WrapRange(m, pi, z);
  }

  lemma LimitBelowOne(rateYawKp: real, angleYawKp: real, accelYawMax: real)
    requires rateYawKp != 0.0
    ensures HeadingErrorMax(rateYawKp, angleYawKp, accelYawMax) < 1.0
  {
    hide InverseControlled;
  }
}
