/**
 What the measurement rows measure and what a correction does to the measurement. Each row is the
 derivative of the predicted measurement along any displacement of the state; the innovations are
 predictions less measurements; and a correction by the gain takes the linearised innovation down to
 the share of the noise in the innovation variance, the quaternion being renormalised afterwards.
 */
module MeasurementModels {
  import opened Numeric
  import opened Geometry
  import opened QuaternionAlgebra
  import opened LinearAlgebra
  import opened EkfModel
  import opened ScalarFusion
  import opened MagFusion
  import opened AirspeedFusion
  import opened EkfOperations
  import opened MagSequence
  import opened StrapdownJacobian

  // ---- airspeed ----

  /** The air-relative velocity. */
  function AirVelocity(s: StateVector): Vector3 {
    Vector3(s.velocity.x - s.windVel.x, s.velocity.y - s.windVel.y, s.velocity.z)
  }

  lemma AirspeedSquared(sqrt: real -> real, s: StateVector)
    requires IsSquareRoot(sqrt)
    ensures PredictedAirspeed(sqrt, s) >= 0.0 && Sq(PredictedAirspeed(sqrt, s)) == LengthSquared(AirVelocity(s))
  {
    hide Length, LengthSquared, Sq, Times, IsSquareRoot;
    var v := AirVelocity(s);
    LengthLaw(sqrt, Vector3(v.y, v.x, v.z));
    SameLength(v);
    SquareNamed(PredictedAirspeed(sqrt, s));
  }

  lemma SameLength(v: Vector3)
    ensures LengthSquared(Vector3(v.y, v.x, v.z)) == LengthSquared(v)
  {}

  lemma SquareNamed(a: real)
    ensures Sq(a) == Times(a, a)
  {}

  /** The airspeed row times the airspeed is the air-relative velocity, against the wind states with the opposite sign. */
  lemma AirspeedRow(s: StateVector, speed: real, e: StateVector)
    requires speed != 0.0
    ensures Times(speed, Dot(N, DenseTas(TasGeometryOf(s, speed)), Flat(e))) == Dot3(AirVelocity(s), AirVelocity(e))
  {
    hide Dot, DenseTas, SparseTas, SharedTerms, Flat;
    var g := TasGeometryOf(s, speed);
    DotCommutes(N, DenseTas(g), Flat(e));
    DenseTasDot(g, Flat(e));
    SpeedTimesRow(s, speed);
    FlatAir(e);
    RowOnAir(speed, g.sh2, g.sh1, g.vd * g.sh0, AirVelocity(s), e.velocity.x, e.velocity.y, e.velocity.z, e.windVel.x, e.windVel.y);
    SparseIs(g, Flat(e));
  }

  lemma FlatAir(e: StateVector)
    ensures Flat(e)(4) == e.velocity.x && Flat(e)(5) == e.velocity.y && Flat(e)(6) == e.velocity.z
    ensures Flat(e)(22) == e.windVel.x && Flat(e)(23) == e.windVel.y
  {}

  lemma SparseIs(g: TasGeometry, v: Vec)
    ensures SparseTas(g, v) == Times(g.sh2, v(4)) + Times(g.sh1, v(5)) + Times(g.vd * g.sh0, v(6)) + Times(-g.sh2, v(22)) + Times(-g.sh1, v(23))
  {}

  lemma SpeedTimesRow(s: StateVector, speed: real)
    requires speed != 0.0
    ensures var g, a := TasGeometryOf(s, speed), AirVelocity(s);
      Times(speed, g.sh2) == a.x && Times(speed, g.sh1) == a.y && Times(speed, g.vd * g.sh0) == a.z
  {
    var inv := 1.0 / speed;
    assert speed * inv == 1.0;
    Undone(speed, inv, 2.0 * s.velocity.x - 2.0 * s.windVel.x);
    Undone(speed, inv, 2.0 * s.velocity.y - 2.0 * s.windVel.y);
    Undone(speed, inv, 2.0 * s.velocity.z);
  }

  lemma Undone(speed: real, inv: real, a: real)
    requires speed * inv == 1.0
    ensures Times(speed, (inv * a) * 0.5) == 0.5 * a && Times(speed, (0.5 * a) * inv) == 0.5 * a
  {
    SameTimes(speed * inv, 1.0, a);
    assert Times(speed, (inv * a) * 0.5) == 0.5 * Times(speed * inv, a);
    assert Times(speed, (0.5 * a) * inv) == 0.5 * Times(speed * inv, a);
  }

  lemma RowOnAir(speed: real, n: real, o: real, d: real, a: Vector3, x: real, y: real, z: real, u: real, w: real)
    requires Times(speed, n) == a.x && Times(speed, o) == a.y && Times(speed, d) == a.z
    ensures Times(speed, Times(n, x) + Times(o, y) + Times(d, z) + Times(-n, u) + Times(-o, w)) == a.x * (x - u) + a.y * (y - w) + a.z * z
  {
    SameTimes(Times(speed, n), a.x, x - u);
    SameTimes(Times(speed, o), a.y, y - w);
    SameTimes(Times(speed, d), a.z, z);
    assert Times(speed, Times(n, x) + Times(o, y) + Times(d, z) + Times(-n, u) + Times(-o, w))
           == Times(Times(speed, n), x - u) + Times(Times(speed, o), y - w) + Times(Times(speed, d), z);
  }

  lemma SquareExpands(a: Vector3, b: Vector3, t: real)
    ensures LengthSquared(Moved3(a, t, b)) == LengthSquared(a) + 2.0 * Times(t, Dot3(a, b)) + Times(t * t, LengthSquared(b))
  {}

  lemma AirMoved(s: StateVector, t: real, e: StateVector)
    ensures AirVelocity(Displaced(s, t, e)) == Moved3(AirVelocity(s), t, AirVelocity(e))
  {
    hide Times, Shifted;
    TimesLess(t, e.velocity.x, e.windVel.x);
    TimesLess(t, e.velocity.y, e.windVel.y);
  }

  lemma TimesLess(t: real, a: real, b: real)
    ensures Times(t, a - b) == Times(t, a) - Times(t, b)
  {}

  /** The airspeed row is the derivative of the predicted airspeed: displacing the state by `t e` moves the squared airspeed by `2 t V H e`, up to second order. */
  lemma AirspeedRowIsDerivative(sqrt: real -> real, s: StateVector, e: StateVector, t: real)
    requires IsSquareRoot(sqrt) && PredictedAirspeed(sqrt, s) != 0.0
    ensures var v := PredictedAirspeed(sqrt, s);
      Sq(PredictedAirspeed(sqrt, Displaced(s, t, e)))
      == Sq(v) + 2.0 * Times(t, Times(v, Dot(N, DenseTas(TasGeometryOf(s, v)), Flat(e)))) + Times(t * t, LengthSquared(AirVelocity(e)))
  {
    hide Dot, DenseTas, SharedTerms, Flat, Times, PredictedAirspeed, IsSquareRoot, Sq, LengthSquared, Dot3, Displaced, AirVelocity, Moved3, TasGeometryOf;
    AirspeedSquared(sqrt, s);
    AirspeedSquared(sqrt, Displaced(s, t, e));
    AirspeedRow(s, PredictedAirspeed(sqrt, s), e);
    AirMoved(s, t, e);
    SquareExpands(AirVelocity(s), AirVelocity(e), t);
  }

  // ---- magnetometer ----

  lemma SameGeometry(s: StateVector)
    ensures MagGeometryOf(s) == GeometryAt(Flat(s))
  {}

  /** The predicted fields read eleven slots. */
  lemma PredictionsRead(a: Vec, b: Vec)
    requires GeometryAt(a) == GeometryAt(b) && a(19) == b(19) && a(20) == b(20) && a(21) == b(21)
    ensures PredX(a) == PredX(b) && PredY(a) == PredY(b) && PredZ(a) == PredZ(b)
  {
    hide GeometryAt, Dcm00, Dcm01, Dcm02, Dcm10, Dcm11, Dcm12, Dcm20, Dcm21, Dcm22, Times;
  }

  lemma SlotsDisplaced(s: StateVector, t: real, e: StateVector)
    ensures var a, b := Flat(Displaced(s, t, e)), Combine(Flat(s), t, Flat(e));
      GeometryAt(a) == GeometryAt(b) && a(19) == b(19) && a(20) == b(20) && a(21) == b(21)
  {
    hide Times, Flat, Displaced;
    forall i | 0 <= i < N
      ensures Flat(Displaced(s, t, e))(i) == Combine(Flat(s), t, Flat(e))(i)
    {
      DisplacedSlots(s, t, e, i);
    }
  }

  function SecondOf(g: MagGeometry, e: MagGeometry, t: real, axis: int): real {
    if axis == 0 then SecondX(g, e, t) else if axis == 1 then SecondY(g, e, t) else SecondZ(g, e, t)
  }

  /** The row of an axis is the derivative of the innovation of that axis, along any displacement of the state. */
  lemma MagRowIsDerivative(s: StateVector, mag: Vector3, e: StateVector, t: real, axis: int)
    requires 0 <= axis < 3
    ensures Axis(MagInnovation(Displaced(s, t, e), mag), axis)
            == Axis(MagInnovation(s, mag), axis) + Times(t, Dot(N, Flat(e), Dense(MagRowOf(MagGeometryOf(s), axis))))
               + Times(t * t, SecondOf(MagGeometryOf(s), MagGeometryOf(e), t, axis))
  {
    hide Dot, Dense, Flat, Displaced, Times, PredX, PredY, PredZ, RowX, RowY, RowZ, SecondX, SecondY, SecondZ, MagGeometryOf, GeometryAt;
    SameGeometry(s);
    SameGeometry(e);
    SlotsDisplaced(s, t, e);
    PredictionsRead(Flat(Displaced(s, t, e)), Combine(Flat(s), t, Flat(e)));
    RowXIsDerivative(Flat(s), Flat(e), t);
    RowYIsDerivative(Flat(s), Flat(e), t);
    RowZIsDerivative(Flat(s), Flat(e), t);
  }

  /** The rows of the magnetometer's matrix are those of the rotation from earth to body axes. */
  lemma FieldMatrix(q: Quaternion, g: MagGeometry)
    requires UnitQuaternion(q) && q == Quaternion(g.q0, g.q1, g.q2, g.q3)
    ensures MatrixOf(Inverse(q)) == Matrix3(Vector3(Dcm00(g), Dcm01(g), Dcm02(g)), Vector3(Dcm10(g), Dcm11(g), Dcm12(g)), Vector3(Dcm20(g), Dcm21(g), Dcm22(g)))
  {
    hide UnitQuaternion, Shrunk, Doubled, DoubledSum, Dcm00, Dcm01, Dcm02, Dcm10, Dcm11, Dcm12, Dcm20, Dcm21, Dcm22;
    UnitSum(q);
    FieldEntries(g);
  }

  lemma FieldEntries(g: MagGeometry)
    requires SumOfSquares(g.q0, g.q1, g.q2, g.q3) == 1.0
    ensures Shrunk(-g.q2, -g.q3) == Dcm00(g) && Shrunk(-g.q1, -g.q3) == Dcm11(g) && Shrunk(-g.q1, -g.q2) == Dcm22(g)
    ensures Doubled(-g.q1, -g.q2, g.q0, -g.q3) == Dcm01(g) && DoubledSum(-g.q1, -g.q2, g.q0, -g.q3) == Dcm10(g)
    ensures DoubledSum(-g.q1, -g.q3, g.q0, -g.q2) == Dcm02(g) && Doubled(-g.q1, -g.q3, g.q0, -g.q2) == Dcm20(g)
    ensures Doubled(-g.q2, -g.q3, g.q0, -g.q1) == Dcm12(g) && DoubledSum(-g.q2, -g.q3, g.q0, -g.q1) == Dcm21(g)
  {
    hide Shrunk, Doubled, DoubledSum, SumOfSquares;
    FieldScalars(g.q0, g.q1, g.q2, g.q3);
  }

  lemma FieldScalars(a: real, b: real, c: real, d: real)
    requires SumOfSquares(a, b, c, d) == 1.0
    ensures Shrunk(-c, -d) == a * a + b * b - c * c - d * d && Shrunk(-b, -d) == a * a - b * b + c * c - d * d
    ensures Shrunk(-b, -c) == a * a - b * b - c * c + d * d
    ensures Doubled(-b, -c, a, -d) == 2.0 * (b * c + a * d) && DoubledSum(-b, -c, a, -d) == 2.0 * (b * c - a * d)
    ensures DoubledSum(-b, -d, a, -c) == 2.0 * (b * d - a * c) && Doubled(-b, -d, a, -c) == 2.0 * (b * d + a * c)
    ensures Doubled(-c, -d, a, -b) == 2.0 * (c * d + a * b) && DoubledSum(-c, -d, a, -b) == 2.0 * (c * d - a * b)
  {}

  lemma UnitSum(q: Quaternion)
    requires UnitQuaternion(q)
    ensures SumOfSquares(q.q1, q.q2, q.q3, q.q4) == 1.0
  {}

  /** The innovation is the earth field turned to body axes plus the body field, less the measurement. */
  lemma MagInnovationIs(s: StateVector, mag: Vector3)
    requires UnitQuaternion(s.quat)
    ensures MagInnovation(s, mag) == Minus(Add(Rotate(Inverse(s.quat), s.earthMagfield), s.bodyMagfield), mag)
  {
    hide Rotate, MatrixOf, UnitQuaternion, Inverse, Dcm00, Dcm01, Dcm02, Dcm10, Dcm11, Dcm12, Dcm20, Dcm21, Dcm22, Times, Flat;
    FlatField(s);
    FieldMatrix(s.quat, GeometryAt(Flat(s)));
    RotateIsImage(Inverse(s.quat), s.earthMagfield);
  }

  lemma FlatField(s: StateVector)
    ensures GeometryAt(Flat(s)) == MagGeometry(s.quat.q1, s.quat.q2, s.quat.q3, s.quat.q4, s.earthMagfield.x, s.earthMagfield.y, s.earthMagfield.z)
    ensures Vector3(Flat(s)(19), Flat(s)(20), Flat(s)(21)) == s.bodyMagfield
  {}

  // ---- corrections ----

  /** The factor that undoes the renormalisation of a corrected quaternion; one when the source leaves the quaternion as it is. */
  function Renormalised(sqrt: real -> real, s: StateVector, d: Vec): real {
    var f := Flat(s);
    var mag := sqrt(SumOfSquares(f(0) - d(0), f(1) - d(1), f(2) - d(2), f(3) - d(3)));
    if IsZero(mag) then 1.0 else mag
  }

  /** The corrected state with its quaternion scaled back. */
  function BeforeScaling(sqrt: real -> real, s: StateVector, d: Vec): Vec {
    i => if i < 4 then Times(Flat(Corrected(sqrt, s, d))(i), Renormalised(sqrt, s, d)) else Flat(Corrected(sqrt, s, d))(i)
  }

  /** All 24 slots move by minus their correction, up to one positive factor on the quaternion, which ends as a unit quaternion unless its norm is taken for zero. */
  lemma CorrectionMoves(sqrt: real -> real, s: StateVector, d: Vec)
    requires IsSquareRoot(sqrt)
    ensures Renormalised(sqrt, s, d) > 0.0
    ensures forall i | 0 <= i < N :: BeforeScaling(sqrt, s, d)(i) == Flat(s)(i) - d(i)
    ensures var f := Flat(s);
      !IsZero(sqrt(SumOfSquares(f(0) - d(0), f(1) - d(1), f(2) - d(2), f(3) - d(3)))) ==> UnitQuaternion(Corrected(sqrt, s, d).quat)
  {
    hide Flat, Corrected, IsSquareRoot, SumOfSquares, Times;
    var q := Quaternion(s.quat.q1 - d(0), s.quat.q2 - d(1), s.quat.q3 - d(2), s.quat.q4 - d(3));
    CorrectedQuat(sqrt, s, d);
    ScalesBack(sqrt, q);
    forall i | 4 <= i < N
      ensures BeforeScaling(sqrt, s, d)(i) == Flat(s)(i) - d(i)
    {
      FlatCorrected(sqrt, s, d, i);
    }
  }

  lemma CorrectedQuat(sqrt: real -> real, s: StateVector, d: Vec)
    ensures Corrected(sqrt, s, d).quat == Normalized(sqrt, Quaternion(s.quat.q1 - d(0), s.quat.q2 - d(1), s.quat.q3 - d(2), s.quat.q4 - d(3)))
    ensures var f, q := Flat(s), s.quat; f(0) == q.q1 && f(1) == q.q2 && f(2) == q.q3 && f(3) == q.q4
    ensures var f, q := Flat(Corrected(sqrt, s, d)), Corrected(sqrt, s, d).quat; f(0) == q.q1 && f(1) == q.q2 && f(2) == q.q3 && f(3) == q.q4
  {
    hide Normalized;
  }

  lemma ScalesBack(sqrt: real -> real, q: Quaternion)
    requires IsSquareRoot(sqrt)
    ensures var mag, n := sqrt(Norm(q)), Normalized(sqrt, q); var k := if IsZero(mag) then 1.0 else mag;
      && k > 0.0
      && Times(n.q1, k) == q.q1 && Times(n.q2, k) == q.q2 && Times(n.q3, k) == q.q3 && Times(n.q4, k) == q.q4
      && (!IsZero(mag) ==> UnitQuaternion(n))
  {
    hide IsSquareRoot, SumOfSquares, Times;
    NormNonNegative(q);
    RootOf(sqrt, Norm(q));
    if !IsZero(sqrt(Norm(q))) {
      Restored(q.q1, 1.0 / sqrt(Norm(q)), sqrt(Norm(q)));
      Restored(q.q2, 1.0 / sqrt(Norm(q)), sqrt(Norm(q)));
      Restored(q.q3, 1.0 / sqrt(Norm(q)), sqrt(Norm(q)));
      Restored(q.q4, 1.0 / sqrt(Norm(q)), sqrt(Norm(q)));
      ScaledToOne(q, 1.0 / sqrt(Norm(q)), sqrt(Norm(q)));
    } else {
      TimesOne(q.q1);
      TimesOne(q.q2);
      TimesOne(q.q3);
      TimesOne(q.q4);
    }
  }

  lemma RootOf(sqrt: real -> real, v: real)
    requires IsSquareRoot(sqrt) && v >= 0.0
    ensures sqrt(v) >= 0.0 && sqrt(v) * sqrt(v) == v
  {}

  lemma NormNonNegative(q: Quaternion)
    ensures Norm(q) >= 0.0
  {
    SquareNonNegative(q.q1);
    SquareNonNegative(q.q2);
    SquareNonNegative(q.q3);
    SquareNonNegative(q.q4);
  }

  lemma Restored(a: real, inv: real, mag: real)
    requires inv * mag == 1.0
    ensures Times(Times(a, inv), mag) == a
  {
    SameTimes(inv * mag, 1.0, a);
    assert Times(Times(a, inv), mag) == Times(inv * mag, a);
  }

  lemma ScaledToOne(q: Quaternion, inv: real, mag: real)
    requires inv * mag == 1.0 && mag * mag == Norm(q)
    ensures SumOfSquares(Times(q.q1, inv), Times(q.q2, inv), Times(q.q3, inv), Times(q.q4, inv)) == 1.0
  {
    SumScales(q.q1, q.q2, q.q3, q.q4, inv);
    SameTimes(Norm(q), mag * mag, inv * inv);
    assert Times(mag * mag, inv * inv) == Times(inv * mag, inv * mag);
    SameTimes(inv * mag, 1.0, inv * mag);
  }

  lemma SumScales(a: real, b: real, c: real, d: real, k: real)
    ensures SumOfSquares(Times(a, k), Times(b, k), Times(c, k), Times(d, k)) == Times(SumOfSquares(a, b, c, d), k * k)
  {}

  /** On a legal covariance the gain is `P Hᵀ / S` on every state. */
  lemma LegalGain(c: Core, h: Vec, s: real, i: int)
    requires Legal(c) && s != 0.0 && 0 <= i < N
    ensures Gain(c, h, s)(i) == Times(1.0 / s, Apply(Fn(c.P), h)(i))
  {
    hide Apply, PositiveSemidefinite;
    Reciprocal(Apply(Fn(c.P), h)(i), s);
    if !Active(c.inhibit, i) {
      InhibitedProductZero(c, h, i);
    }
  }

  /**
   Correcting by the gain takes the linearised measurement down by its variance over the innovation variance, times the
   innovation: what is left of the innovation is the share of the noise. This holds for any measurement row.
   */
  lemma InnovationShrinks(sqrt: real -> real, c: Core, h: Vec, r: real, innovation: real)
    requires IsSquareRoot(sqrt) && Legal(c) && Form(Fn(c.P), h, h) + r != 0.0
    ensures var s := Form(Fn(c.P), h, h) + r; var x := BeforeScaling(sqrt, c.state, Delta(Gain(c, h, s), innovation));
      Times(innovation + Dot(N, h, x) - Dot(N, h, Flat(c.state)), s) == Times(innovation, r)
  {
    hide Form, Dot, Apply, Flat, BeforeScaling, Renormalised, Legal, Times, IsSquareRoot, Gain;
    var f := Form(Fn(c.P), h, h);
    var s := f + r;
    var u, d := Apply(Fn(c.P), h), Delta(Gain(c, h, s), innovation);
    var x, k := BeforeScaling(sqrt, c.state, d), -innovation / s;
    CorrectionMoves(sqrt, c.state, d);
    forall i | 0 <= i < N
      ensures x(i) == Flat(c.state)(i) + k * u(i)
    {
      LegalGain(c, h, s, i);
      SlotMoves(innovation, s, u(i));
    }
    DotLinear(N, h, Flat(c.state), k, u, x);
    assert Form(Fn(c.P), h, h) == Dot(N, h, u) by {
      FormIs(Fn(c.P), h);
    }
    ShareLeft(innovation, Dot(N, h, u), r, s, k, innovation + Dot(N, h, x) - Dot(N, h, Flat(c.state)));
  }

  lemma FormIs(a: Table, h: Vec)
    ensures Form(a, h, h) == Dot(N, h, Apply(a, h))
  {
    hide Dot;
  }

  lemma SlotMoves(e: real, s: real, u: real)
    requires s != 0.0
    ensures Times(Times(1.0 / s, u), e) == -((-e / s) * u)
  {
    var i := 1.0 / s;
    assert -e / s == -(e * i);
    assert Times(Times(i, u), e) == (e * i) * u;
  }

  lemma ShareLeft(e: real, f: real, r: real, s: real, k: real, left: real)
    requires s == f + r && s != 0.0 && k == -e / s && left == e + k * f
    ensures Times(left, s) == Times(e, r)
  {
    assert k * s == -e;
    assert Times(left, s) == e * s + (k * s) * f;
  }

  /** A magnetometer axis: with the variance the source computes, what is left of its innovation is the share of the observation noise. */
  lemma MagInnovationShrinks(sqrt: real -> real, c: Core, mag: Vector3, r: real, axis: int)
    requires IsSquareRoot(sqrt) && Legal(c) && 0 <= axis < 3 && r > 0.0
    ensures var g := MagGeometryOf(c.state); var h, s, e := Dense(MagRowOf(g, axis)), VarInnov(g, Fn(c.P), r, axis), Axis(MagInnovation(c.state, mag), axis);
      && s > 0.0
      && var x := BeforeScaling(sqrt, c.state, Delta(Gain(c, h, s), e));
      Times(e + Dot(N, h, x) - Dot(N, h, Flat(c.state)), s) == Times(e, r)
  {
    hide Form, Dot, BeforeScaling, VarInnov, Dense, MagRowOf, MagInnovation, Times, IsSquareRoot, Gain, Flat, PositiveSemidefinite;
    var g := MagGeometryOf(c.state);
    MagVariances(g, Fn(c.P), r, axis);
    InnovationShrinks(sqrt, c, Dense(MagRowOf(g, axis)), r, Axis(MagInnovation(c.state, mag), axis));
  }
}
