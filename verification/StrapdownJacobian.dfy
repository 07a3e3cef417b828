/**
 What the Jacobian of the prediction is the Jacobian of: the strapdown step that turns the attitude by
 half the bias-corrected delta angle, adds the delta velocity rotated to earth axes, and moves the
 position by the velocity. Row by row, and with the inputs the prediction really passes on.
 */
module StrapdownJacobian {
  import opened Numeric
  import opened Geometry
  import opened QuaternionAlgebra
  import opened LinearAlgebra
  import opened PredictionBlock
  import opened CovariancePropagation
  import opened EkfModel
  import opened EkfPrediction
  import opened MagFusion

  // ---- the step ----

  /** One quaternion displaced by `t e`. */
  function Shifted(q: Quaternion, t: real, e: Quaternion): Quaternion {
    Quaternion(q.q1 + Times(t, e.q1), q.q2 + Times(t, e.q2), q.q3 + Times(t, e.q3), q.q4 + Times(t, e.q4))
  }

  function Moved3(v: Vector3, t: real, e: Vector3): Vector3 { Vector3(v.x + Times(t, e.x), v.y + Times(t, e.y), v.z + Times(t, e.z)) }

  /** A state displaced by `t e`, field by field. */
  function Displaced(s: StateVector, t: real, e: StateVector): StateVector {
    StateVector(
      Shifted(s.quat, t, e.quat), Moved3(s.velocity, t, e.velocity), Moved3(s.position, t, e.position),
      Moved3(s.gyroBias, t, e.gyroBias), Moved3(s.accelBias, t, e.accelBias),
      Moved3(s.earthMagfield, t, e.earthMagfield), Moved3(s.bodyMagfield, t, e.bodyMagfield),
      Vector2(s.windVel.x + Times(t, e.windVel.x), s.windVel.y + Times(t, e.windVel.y)))
  }

  /** The small rotation `1 + v / 2`. */
  function HalfTurn(v: Vector3): Quaternion { Quaternion(1.0, 0.5 * v.x, 0.5 * v.y, 0.5 * v.z) }

  /** The way a velocity makes in a time. */
  function Travel(v: Vector3, dt: real): Vector3 { Vector3(Times(v.x, dt), Times(v.y, dt), Times(v.z, dt)) }

  /** The strapdown step to first order in the delta angle, gravity apart. */
  function Advanced(s: StateVector, gyro: GyroSample, accel: AccelSample, dt: real): StateVector {
    s.(quat := Mul(s.quat, HalfTurn(Minus(gyro.deltaAngle, s.gyroBias))),
       velocity := Add(s.velocity, Rotate(s.quat, Minus(accel.deltaVelocity, s.accelBias))),
       position := Add(s.position, Travel(s.velocity, dt)))
  }

  // ---- the attitude ----

  lemma ProductExpands(a: real, e: real, w: real, v: real, t: real)
    ensures Times(a + Times(t, e), w + Times(t, v)) == Times(a, w) + Times(t, Times(a, v) + Times(e, w)) + Times(t * t, Times(e, v))
  {}

  lemma FourFirst(t: real, a: real, b: real, c: real, d: real)
    ensures Times(t, a) - Times(t, b) - Times(t, c) - Times(t, d) == Times(t, a - b - c - d)
    ensures Times(t, a) + Times(t, b) + Times(t, c) - Times(t, d) == Times(t, a + b + c - d)
    ensures Times(t, a) - Times(t, b) + Times(t, c) + Times(t, d) == Times(t, a - b + c + d)
    ensures Times(t, a) + Times(t, b) - Times(t, c) + Times(t, d) == Times(t, a + b - c + d)
  {}

  /** A product of quaternions, both displaced. */
  lemma MulExpands(p: Quaternion, e: Quaternion, r: Quaternion, v: Quaternion, t: real)
    ensures var n, first, second := Mul(Shifted(p, t, e), Shifted(r, t, v)), Add4(Mul(p, v), Mul(e, r)), Mul(e, v);
      n == Quaternion(Mul(p, r).q1 + Times(t, first.q1) + Times(t * t, second.q1), Mul(p, r).q2 + Times(t, first.q2) + Times(t * t, second.q2),
                      Mul(p, r).q3 + Times(t, first.q3) + Times(t * t, second.q3), Mul(p, r).q4 + Times(t, first.q4) + Times(t * t, second.q4))
  {
    hide Times;
    ProductExpands(p.q1, e.q1, r.q1, v.q1, t);
    ProductExpands(p.q2, e.q2, r.q2, v.q2, t);
    ProductExpands(p.q3, e.q3, r.q3, v.q3, t);
    ProductExpands(p.q4, e.q4, r.q4, v.q4, t);
    ProductExpands(p.q1, e.q1, r.q2, v.q2, t);
    ProductExpands(p.q2, e.q2, r.q1, v.q1, t);
    ProductExpands(p.q3, e.q3, r.q4, v.q4, t);
    ProductExpands(p.q4, e.q4, r.q3, v.q3, t);
    ProductExpands(p.q1, e.q1, r.q3, v.q3, t);
    ProductExpands(p.q2, e.q2, r.q4, v.q4, t);
    ProductExpands(p.q3, e.q3, r.q1, v.q1, t);
    ProductExpands(p.q4, e.q4, r.q2, v.q2, t);
    ProductExpands(p.q1, e.q1, r.q4, v.q4, t);
    ProductExpands(p.q2, e.q2, r.q3, v.q3, t);
    ProductExpands(p.q3, e.q3, r.q2, v.q2, t);
    ProductExpands(p.q4, e.q4, r.q1, v.q1, t);
    FourFirst(t, Times(p.q1, v.q1) + Times(e.q1, r.q1), Times(p.q2, v.q2) + Times(e.q2, r.q2), Times(p.q3, v.q3) + Times(e.q3, r.q3), Times(p.q4, v.q4) + Times(e.q4, r.q4));
    FourFirst(t * t, Times(e.q1, v.q1), Times(e.q2, v.q2), Times(e.q3, v.q3), Times(e.q4, v.q4));
    FourFirst(t, Times(p.q1, v.q2) + Times(e.q1, r.q2), Times(p.q2, v.q1) + Times(e.q2, r.q1), Times(p.q3, v.q4) + Times(e.q3, r.q4), Times(p.q4, v.q3) + Times(e.q4, r.q3));
    FourFirst(t * t, Times(e.q1, v.q2), Times(e.q2, v.q1), Times(e.q3, v.q4), Times(e.q4, v.q3));
    FourFirst(t, Times(p.q1, v.q3) + Times(e.q1, r.q3), Times(p.q2, v.q4) + Times(e.q2, r.q4), Times(p.q3, v.q1) + Times(e.q3, r.q1), Times(p.q4, v.q2) + Times(e.q4, r.q2));
    FourFirst(t * t, Times(e.q1, v.q3), Times(e.q2, v.q4), Times(e.q3, v.q1), Times(e.q4, v.q2));
    FourFirst(t, Times(p.q1, v.q4) + Times(e.q1, r.q4), Times(p.q2, v.q3) + Times(e.q2, r.q3), Times(p.q3, v.q2) + Times(e.q3, r.q2), Times(p.q4, v.q1) + Times(e.q4, r.q1));
    FourFirst(t * t, Times(e.q1, v.q4), Times(e.q2, v.q3), Times(e.q3, v.q2), Times(e.q4, v.q1));
  }

  function Add4(p: Quaternion, r: Quaternion): Quaternion { Quaternion(p.q1 + r.q1, p.q2 + r.q2, p.q3 + r.q3, p.q4 + r.q4) }

  lemma HalfTurnMoved(d: Vector3, b: Vector3, e: Vector3, t: real)
    ensures HalfTurn(Minus(d, Moved3(b, t, e))) == Shifted(HalfTurn(Minus(d, b)), t, Pure(Scale(e, -0.5)))
  {
    HalfSlot(d.x, b.x, e.x, t);
    HalfSlot(d.y, b.y, e.y, t);
    HalfSlot(d.z, b.z, e.z, t);
  }

  lemma HalfSlot(d: real, b: real, e: real, t: real)
    ensures 0.5 * (d - (b + Times(t, e))) == 0.5 * (d - b) + Times(t, e * -0.5)
  {}

  /** The rate at which the step turns the attitude when the state moves by `e`. */
  function AttitudeRate(s: StateVector, e: StateVector, gyro: GyroSample): Quaternion {
    Add4(Mul(s.quat, Pure(Scale(e.gyroBias, -0.5))), Mul(e.quat, HalfTurn(Minus(gyro.deltaAngle, s.gyroBias))))
  }

  lemma Row0Named(x: Inputs, v1: real, v2: real, v3: real, v10: real, v11: real, v12: real, v0: real)
    ensures Row0Of(x, v1, v2, v3, v10, v11, v12, v0)
            == -Times(PS11(x), v1) - Times(PS12(x), v2) - Times(PS13(x), v3) + Times(PS6(x), v10) + Times(PS7(x), v11) + Times(PS9(x), v12) + v0
  {
    hide PS11, PS12, PS13, PS34, PS6, PS7, PS9;
  }

  lemma Row1Named(x: Inputs, v0: real, v3: real, v2: real, v10: real, v12: real, v11: real, v1: real)
    ensures Row1Of(x, v0, v3, v2, v10, v12, v11, v1)
            == Times(PS11(x), v0) - Times(PS12(x), v3) + Times(PS13(x), v2) - Times(PS34(x), v10) - Times(PS7(x), v12) + Times(PS9(x), v11) + v1
  {
    hide PS11, PS12, PS13, PS34, PS6, PS7, PS9;
  }

  lemma Row2Named(x: Inputs, v3: real, v0: real, v1: real, v11: real, v12: real, v10: real, v2: real)
    ensures Row2Of(x, v3, v0, v1, v11, v12, v10, v2)
            == Times(PS11(x), v3) + Times(PS12(x), v0) - Times(PS13(x), v1) - Times(PS34(x), v11) + Times(PS6(x), v12) - Times(PS9(x), v10) + v2
  {
    hide PS11, PS12, PS13, PS34, PS6, PS7, PS9;
  }

  lemma Row3Named(x: Inputs, v2: real, v1: real, v0: real, v12: real, v11: real, v10: real, v3: real)
    ensures Row3Of(x, v2, v1, v0, v12, v11, v10, v3)
            == -Times(PS11(x), v2) + Times(PS12(x), v1) + Times(PS13(x), v0) - Times(PS34(x), v12) - Times(PS6(x), v11) + Times(PS7(x), v10) + v3
  {
    hide PS11, PS12, PS13, PS34, PS6, PS7, PS9;
  }

  lemma Rate0(q0: real, q1: real, q2: real, q3: real, e0: real, e1: real, e2: real, e3: real, b1: real, b2: real, b3: real, w1: real, w2: real, w3: real,
             h0: real, h1: real, h2: real, h3: real)
    requires h0 == 0.5 * q0 && h1 == 0.5 * q1 && h2 == 0.5 * q2 && h3 == 0.5 * q3
    ensures -Times(w1, e1) - Times(w2, e2) - Times(w3, e3) + Times(h1, b1) + Times(h2, b2) + Times(h3, b3) + e0
            == (Times(q0, 0.0) - Times(q1, b1 * -0.5) - Times(q2, b2 * -0.5) - Times(q3, b3 * -0.5))
               + (Times(e0, 1.0) - Times(e1, w1) - Times(e2, w2) - Times(e3, w3))
  {}

  lemma Rate1(q0: real, q1: real, q2: real, q3: real, e0: real, e1: real, e2: real, e3: real, b1: real, b2: real, b3: real, w1: real, w2: real, w3: real,
             h0: real, h1: real, h2: real, h3: real)
    requires h0 == 0.5 * q0 && h1 == 0.5 * q1 && h2 == 0.5 * q2 && h3 == 0.5 * q3
    ensures Times(w1, e0) - Times(w2, e3) + Times(w3, e2) - Times(h0, b1) - Times(h2, b3) + Times(h3, b2) + e1
            == (Times(q0, b1 * -0.5) + Times(q1, 0.0) + Times(q2, b3 * -0.5) - Times(q3, b2 * -0.5))
               + (Times(e0, w1) + Times(e1, 1.0) + Times(e2, w3) - Times(e3, w2))
  {}

  lemma Rate2(q0: real, q1: real, q2: real, q3: real, e0: real, e1: real, e2: real, e3: real, b1: real, b2: real, b3: real, w1: real, w2: real, w3: real,
             h0: real, h1: real, h2: real, h3: real)
    requires h0 == 0.5 * q0 && h1 == 0.5 * q1 && h2 == 0.5 * q2 && h3 == 0.5 * q3
    ensures Times(w1, e3) + Times(w2, e0) - Times(w3, e1) - Times(h0, b2) + Times(h1, b3) - Times(h3, b1) + e2
            == (Times(q0, b2 * -0.5) - Times(q1, b3 * -0.5) + Times(q2, 0.0) + Times(q3, b1 * -0.5))
               + (Times(e0, w2) - Times(e1, w3) + Times(e2, 1.0) + Times(e3, w1))
  {}

  lemma Rate3(q0: real, q1: real, q2: real, q3: real, e0: real, e1: real, e2: real, e3: real, b1: real, b2: real, b3: real, w1: real, w2: real, w3: real,
             h0: real, h1: real, h2: real, h3: real)
    requires h0 == 0.5 * q0 && h1 == 0.5 * q1 && h2 == 0.5 * q2 && h3 == 0.5 * q3
    ensures -Times(w1, e2) + Times(w2, e1) + Times(w3, e0) - Times(h0, b3) - Times(h1, b2) + Times(h2, b1) + e3
            == (Times(q0, b3 * -0.5) + Times(q1, b2 * -0.5) - Times(q2, b1 * -0.5) + Times(q3, 0.0))
               + (Times(e0, w3) + Times(e1, w2) - Times(e2, w1) + Times(e3, 1.0))
  {}

  lemma Halves(x: Inputs)
    ensures PS34(x) == 0.5 * x.q0 && PS6(x) == 0.5 * x.q1 && PS7(x) == 0.5 * x.q2 && PS9(x) == 0.5 * x.q3
  {}

  lemma RowRate0(x: Inputs, w: Vector3, e: Quaternion, b: Vector3)
    requires PS11(x) == w.x && PS12(x) == w.y && PS13(x) == w.z
    ensures Row0Of(x, e.q2, e.q3, e.q4, b.x, b.y, b.z, e.q1)
            == Mul(AttitudeOf(x), Pure(Scale(b, -0.5))).q1 + Mul(e, Quaternion(1.0, w.x, w.y, w.z)).q1
  {
    hide Times, Row0Of, PS11, PS12, PS13, PS34, PS6, PS7, PS9;
    Halves(x);
    Row0Named(x, e.q2, e.q3, e.q4, b.x, b.y, b.z, e.q1);
    Rate0(x.q0, x.q1, x.q2, x.q3, e.q1, e.q2, e.q3, e.q4, b.x, b.y, b.z, PS11(x), PS12(x), PS13(x), PS34(x), PS6(x), PS7(x), PS9(x));
  }

  lemma RowRate1(x: Inputs, w: Vector3, e: Quaternion, b: Vector3)
    requires PS11(x) == w.x && PS12(x) == w.y && PS13(x) == w.z
    ensures Row1Of(x, e.q1, e.q4, e.q3, b.x, b.z, b.y, e.q2)
            == Mul(AttitudeOf(x), Pure(Scale(b, -0.5))).q2 + Mul(e, Quaternion(1.0, w.x, w.y, w.z)).q2
  {
    hide Times, Row1Of, PS11, PS12, PS13, PS34, PS6, PS7, PS9;
    Halves(x);
    Row1Named(x, e.q1, e.q4, e.q3, b.x, b.z, b.y, e.q2);
    Rate1(x.q0, x.q1, x.q2, x.q3, e.q1, e.q2, e.q3, e.q4, b.x, b.y, b.z, PS11(x), PS12(x), PS13(x), PS34(x), PS6(x), PS7(x), PS9(x));
  }

  lemma RowRate2(x: Inputs, w: Vector3, e: Quaternion, b: Vector3)
    requires PS11(x) == w.x && PS12(x) == w.y && PS13(x) == w.z
    ensures Row2Of(x, e.q4, e.q1, e.q2, b.y, b.z, b.x, e.q3)
            == Mul(AttitudeOf(x), Pure(Scale(b, -0.5))).q3 + Mul(e, Quaternion(1.0, w.x, w.y, w.z)).q3
  {
    hide Times, Row2Of, PS11, PS12, PS13, PS34, PS6, PS7, PS9;
    Halves(x);
    Row2Named(x, e.q4, e.q1, e.q2, b.y, b.z, b.x, e.q3);
    Rate2(x.q0, x.q1, x.q2, x.q3, e.q1, e.q2, e.q3, e.q4, b.x, b.y, b.z, PS11(x), PS12(x), PS13(x), PS34(x), PS6(x), PS7(x), PS9(x));
  }

  lemma RowRate3(x: Inputs, w: Vector3, e: Quaternion, b: Vector3)
    requires PS11(x) == w.x && PS12(x) == w.y && PS13(x) == w.z
    ensures Row3Of(x, e.q3, e.q2, e.q1, b.z, b.y, b.x, e.q4)
            == Mul(AttitudeOf(x), Pure(Scale(b, -0.5))).q4 + Mul(e, Quaternion(1.0, w.x, w.y, w.z)).q4
  {
    hide Times, Row3Of, PS11, PS12, PS13, PS34, PS6, PS7, PS9;
    Halves(x);
    Row3Named(x, e.q3, e.q2, e.q1, b.z, b.y, b.x, e.q4);
    Rate3(x.q0, x.q1, x.q2, x.q3, e.q1, e.q2, e.q3, e.q4, b.x, b.y, b.z, PS11(x), PS12(x), PS13(x), PS34(x), PS6(x), PS7(x), PS9(x));
  }

  /** The attitude rows of the transition are that rate. */
  lemma AttitudeRows(x: Inputs, s: StateVector, e: StateVector, gyro: GyroSample)
    requires GyroInputs(x, s, gyro)
    ensures var r := AttitudeRate(s, e, gyro); var d := Flat(e);
      Row0(x, d) == r.q1 && Row1(x, d) == r.q2 && Row2(x, d) == r.q3 && Row3(x, d) == r.q4
  {
    hide Row0Of, Row1Of, Row2Of, Row3Of, Mul;
    var h := HalfTurn(Minus(gyro.deltaAngle, s.gyroBias));
    var w := Vector3(h.q2, h.q3, h.q4);
    RowRate0(x, w, e.quat, e.gyroBias);
    RowRate1(x, w, e.quat, e.gyroBias);
    RowRate2(x, w, e.quat, e.gyroBias);
    RowRate3(x, w, e.quat, e.gyroBias);
  }

  /** The attitude, the delta angle and its bias are those of the prediction. */
  predicate GyroInputs(x: Inputs, s: StateVector, gyro: GyroSample) {
    && AttitudeOf(x) == s.quat
    && Vector3(x.dax, x.day, x.daz) == gyro.deltaAngle && Vector3(x.dax_b, x.day_b, x.daz_b) == s.gyroBias
  }

  /** The bias-corrected delta velocity. */
  function Force(x: Inputs): Vector3 { Vector3(PS52(x), PS48(x), PS50(x)) }

  // ---- the velocity ----

  lemma Negated(a: real, b: real)
    ensures Times(-a, b) == -Times(a, b)
  {}

  lemma Opposed(p: real, r: real, n: real)
    requires p == r
    ensures Times(r, -n) == -Times(p, n)
  {}

  lemma TermExpands(d: real, a: real, b: real, c: real, k: real, m: real, n: real, t: real)
    requires d == a + Times(t, b) + Times(t * t, c) && k == m + Times(t, n)
    ensures Times(d, k) == Times(a, m) + Times(t, Times(b, m) + Times(a, n)) + Times(t * t, SecondTerm(t, b, c, m, n))
  {}

  /** The three terms of a matrix row on a vector, both displaced. */
  lemma RowExpands(n: Vector3, m: Vector3, d: Vector3, b: Vector3, k: Vector3, f: Vector3, g: Vector3, t: real)
    requires n.x == m.x + Times(t, d.x) + Times(t * t, b.x) && n.y == m.y + Times(t, d.y) + Times(t * t, b.y)
    requires n.z == m.z + Times(t, d.z) + Times(t * t, b.z)
    requires k.x == f.x + Times(t, g.x) && k.y == f.y + Times(t, g.y) && k.z == f.z + Times(t, g.z)
    ensures Line(n, k) == Line(m, f) + Times(t, Line(d, f) + Line(m, g)) + Times(t * t, SecondLine(t, d, b, f, g))
  {
    hide Times, SecondTerm;
    TermExpands(n.x, m.x, d.x, b.x, k.x, f.x, g.x, t);
    TermExpands(n.y, m.y, d.y, b.y, k.y, f.y, g.y, t);
    TermExpands(n.z, m.z, d.z, b.z, k.z, f.z, g.z, t);
    SumTimes(t, Times(d.x, f.x) + Times(m.x, g.x), Times(d.y, f.y) + Times(m.y, g.y), Times(d.z, f.z) + Times(m.z, g.z));
    SumTimes(t * t, SecondTerm(t, d.x, b.x, f.x, g.x), SecondTerm(t, d.y, b.y, f.y, g.y), SecondTerm(t, d.z, b.z, f.z, g.z));
  }

  /** One matrix row on a vector. */
  function Line(m: Vector3, v: Vector3): real { Times(m.x, v.x) + Times(m.y, v.y) + Times(m.z, v.z) }

  function SecondLine(t: real, d: Vector3, b: Vector3, f: Vector3, g: Vector3): real {
    SecondTerm(t, d.x, b.x, f.x, g.x) + SecondTerm(t, d.y, b.y, f.y, g.y) + SecondTerm(t, d.z, b.z, f.z, g.z)
  }

  // First-order changes of the three kinds of matrix entries.

  function SumRate(a: real, e: real, b: real, f: real, c: real, g: real, d: real, h: real): real {
    2.0 * (a * f) + 2.0 * (b * e) + 2.0 * (c * h) + 2.0 * (d * g)
  }

  function DoubledRate(a: real, e: real, b: real, f: real, c: real, g: real, d: real, h: real): real {
    2.0 * (a * f) + 2.0 * (b * e) - 2.0 * (c * h) - 2.0 * (d * g)
  }

  function ShrunkRate(a: real, e: real, b: real, f: real): real { -4.0 * (a * e) - 4.0 * (b * f) }

  function SquaresLost(e: real, f: real): real { -2.0 * (e * e) - 2.0 * (f * f) }

  /** How the rotation matrix moves, to first order, when the quaternion moves by `e`. */
  function Turning(q: Quaternion, e: Quaternion): Matrix3 {
    Matrix3(
      Vector3(ShrunkRate(q.q3, e.q3, q.q4, e.q4),
              DoubledRate(q.q2, e.q2, q.q3, e.q3, q.q1, e.q1, q.q4, e.q4),
              SumRate(q.q2, e.q2, q.q4, e.q4, q.q1, e.q1, q.q3, e.q3)),
      Vector3(SumRate(q.q2, e.q2, q.q3, e.q3, q.q1, e.q1, q.q4, e.q4),
              ShrunkRate(q.q2, e.q2, q.q4, e.q4),
              DoubledRate(q.q3, e.q3, q.q4, e.q4, q.q1, e.q1, q.q2, e.q2)),
      Vector3(DoubledRate(q.q2, e.q2, q.q4, e.q4, q.q1, e.q1, q.q3, e.q3),
              SumRate(q.q3, e.q3, q.q4, e.q4, q.q1, e.q1, q.q2, e.q2),
              ShrunkRate(q.q2, e.q2, q.q3, e.q3)))
  }

  /** What the rotation matrix gains to second order. */
  function Bending(e: Quaternion): Matrix3 {
    Matrix3(
      Vector3(SquaresLost(e.q3, e.q4),
              Doubled(e.q2, e.q3, e.q1, e.q4),
              DoubledSum(e.q2, e.q4, e.q1, e.q3)),
      Vector3(DoubledSum(e.q2, e.q3, e.q1, e.q4),
              SquaresLost(e.q2, e.q4),
              Doubled(e.q3, e.q4, e.q1, e.q2)),
      Vector3(Doubled(e.q2, e.q4, e.q1, e.q3),
              DoubledSum(e.q3, e.q4, e.q1, e.q2),
              SquaresLost(e.q2, e.q3)))
  }

  lemma SumExpands(a: real, e: real, b: real, f: real, c: real, g: real, d: real, h: real, t: real)
    ensures DoubledSum(a + Times(t, e), b + Times(t, f), c + Times(t, g), d + Times(t, h))
            == DoubledSum(a, b, c, d) + Times(t, SumRate(a, e, b, f, c, g, d, h)) + Times(t * t, DoubledSum(e, f, g, h))
  {}

  lemma DifferenceExpands(a: real, e: real, b: real, f: real, c: real, g: real, d: real, h: real, t: real)
    ensures Doubled(a + Times(t, e), b + Times(t, f), c + Times(t, g), d + Times(t, h))
            == Doubled(a, b, c, d) + Times(t, DoubledRate(a, e, b, f, c, g, d, h)) + Times(t * t, Doubled(e, f, g, h))
  {}

  lemma ShrunkExpands(a: real, e: real, b: real, f: real, t: real)
    ensures Shrunk(a + Times(t, e), b + Times(t, f))
            == Shrunk(a, b) + Times(t, ShrunkRate(a, e, b, f)) + Times(t * t, SquaresLost(e, f))
  {}

  lemma NorthExpands(q: Quaternion, e: Quaternion, t: real)
    ensures var m, d, b, n := MatrixOf(q), Turning(q, e), Bending(e), MatrixOf(Shifted(q, t, e));
      && n.a.x == m.a.x + Times(t, d.a.x) + Times(t * t, b.a.x)
      && n.a.y == m.a.y + Times(t, d.a.y) + Times(t * t, b.a.y)
      && n.a.z == m.a.z + Times(t, d.a.z) + Times(t * t, b.a.z)
  {
    hide Times, Shrunk, Doubled, DoubledSum, SumRate, DoubledRate, ShrunkRate, SquaresLost;
    ShrunkExpands(q.q3, e.q3, q.q4, e.q4, t);
    DifferenceExpands(q.q2, e.q2, q.q3, e.q3, q.q1, e.q1, q.q4, e.q4, t);
    SumExpands(q.q2, e.q2, q.q4, e.q4, q.q1, e.q1, q.q3, e.q3, t);
  }

  lemma EastExpands(q: Quaternion, e: Quaternion, t: real)
    ensures var m, d, b, n := MatrixOf(q), Turning(q, e), Bending(e), MatrixOf(Shifted(q, t, e));
      && n.b.x == m.b.x + Times(t, d.b.x) + Times(t * t, b.b.x)
      && n.b.y == m.b.y + Times(t, d.b.y) + Times(t * t, b.b.y)
      && n.b.z == m.b.z + Times(t, d.b.z) + Times(t * t, b.b.z)
  {
    hide Times, Shrunk, Doubled, DoubledSum, SumRate, DoubledRate, ShrunkRate, SquaresLost;
    SumExpands(q.q2, e.q2, q.q3, e.q3, q.q1, e.q1, q.q4, e.q4, t);
    ShrunkExpands(q.q2, e.q2, q.q4, e.q4, t);
    DifferenceExpands(q.q3, e.q3, q.q4, e.q4, q.q1, e.q1, q.q2, e.q2, t);
  }

  lemma DownExpands(q: Quaternion, e: Quaternion, t: real)
    ensures var m, d, b, n := MatrixOf(q), Turning(q, e), Bending(e), MatrixOf(Shifted(q, t, e));
      && n.c.x == m.c.x + Times(t, d.c.x) + Times(t * t, b.c.x)
      && n.c.y == m.c.y + Times(t, d.c.y) + Times(t * t, b.c.y)
      && n.c.z == m.c.z + Times(t, d.c.z) + Times(t * t, b.c.z)
  {
    hide Times, Shrunk, Doubled, DoubledSum, SumRate, DoubledRate, ShrunkRate, SquaresLost;
    DifferenceExpands(q.q2, e.q2, q.q4, e.q4, q.q1, e.q1, q.q3, e.q3, t);
    SumExpands(q.q3, e.q3, q.q4, e.q4, q.q1, e.q1, q.q2, e.q2, t);
    ShrunkExpands(q.q2, e.q2, q.q3, e.q3, t);
  }

  lemma SumTriples(a: real, e: real, b: real, f: real, c: real, g: real, d: real, h: real, m: real)
    ensures Times(SumRate(a, e, b, f, c, g, d, h), m) == 2.0 * Triple(a, m, f) + 2.0 * Triple(b, m, e) + 2.0 * Triple(c, m, h) + 2.0 * Triple(d, m, g)
  {}

  lemma DoubledTriples(a: real, e: real, b: real, f: real, c: real, g: real, d: real, h: real, m: real)
    ensures Times(DoubledRate(a, e, b, f, c, g, d, h), m) == 2.0 * Triple(a, m, f) + 2.0 * Triple(b, m, e) - 2.0 * Triple(c, m, h) - 2.0 * Triple(d, m, g)
  {}

  lemma ShrunkTriples(a: real, e: real, b: real, f: real, m: real)
    ensures Times(ShrunkRate(a, e, b, f), m) == -4.0 * Triple(a, m, e) - 4.0 * Triple(b, m, f)
  {}

  lemma NorthCoefficients(x: Inputs)
    ensures PS174(x) == -2.0 * (x.q3 * Force(x).y) + 2.0 * (x.q2 * Force(x).z)
    ensures PS173(x) == 2.0 * (x.q2 * Force(x).y) + 2.0 * (x.q3 * Force(x).z)
    ensures PS175(x) == -4.0 * (x.q2 * Force(x).x) + 2.0 * (x.q1 * Force(x).y) + 2.0 * (x.q0 * Force(x).z)
    ensures -PS176(x) == -4.0 * (x.q3 * Force(x).x) - 2.0 * (x.q0 * Force(x).y) + 2.0 * (x.q1 * Force(x).z)
  {}

  lemma NorthMatrix(x: Inputs)
    ensures -PS43(x) == MatrixOf(AttitudeOf(x)).a.x
    ensures -PS172(x) == MatrixOf(AttitudeOf(x)).a.y
    ensures PS171(x) == MatrixOf(AttitudeOf(x)).a.z
  {}

  lemma NorthSpread(q0: real, q1: real, q2: real, q3: real, fx: real, fy: real, fz: real, e0: real, e1: real, e2: real, e3: real,
                    c0: real, c1: real, c2: real, c3: real)
    requires c0 == -2.0 * (q3 * fy) + 2.0 * (q2 * fz)
    requires c1 == 2.0 * (q2 * fy) + 2.0 * (q3 * fz)
    requires c2 == -4.0 * (q2 * fx) + 2.0 * (q1 * fy) + 2.0 * (q0 * fz)
    requires c3 == -4.0 * (q3 * fx) - 2.0 * (q0 * fy) + 2.0 * (q1 * fz)
    ensures Times(c0, e0) + Times(c1, e1) + Times(c2, e2) + Times(c3, e3)
            == -2.0 * Triple(q3, fy, e0) + 2.0 * Triple(q2, fz, e0) + 2.0 * Triple(q2, fy, e1) + 2.0 * Triple(q3, fz, e1) - 4.0 * Triple(q2, fx, e2) + 2.0 * Triple(q1, fy, e2) + 2.0 * Triple(q0, fz, e2) - 4.0 * Triple(q3, fx, e3) - 2.0 * Triple(q0, fy, e3) + 2.0 * Triple(q1, fz, e3)
  {
    hide Times, Triple;
    ThreeProducts(c0, -1.0, q3, fy, 1.0, q2, fz, 0.0, q0, fx, e0);
    ThreeProducts(c1, 1.0, q2, fy, 1.0, q3, fz, 0.0, q0, fx, e1);
    ThreeProducts(c2, -2.0, q2, fx, 1.0, q1, fy, 1.0, q0, fz, e2);
    ThreeProducts(c3, -2.0, q3, fx, -1.0, q0, fy, 1.0, q1, fz, e3);
  }

  /** The attitude part of row 4: the turned matrix on the specific force. */
  lemma NorthAttitude(x: Inputs, e: Quaternion)
    ensures var f, d := Force(x), Turning(AttitudeOf(x), e);
      Times(PS173(x), e.q2) + Times(PS174(x), e.q1) + Times(PS175(x), e.q3) - Times(PS176(x), e.q4)
      == Times(d.a.x, f.x) + Times(d.a.y, f.y) + Times(d.a.z, f.z)
  {
    hide Times, Triple, Turning, Force, PS173, PS174, PS175, PS176;
    NorthCoefficients(x);
    NorthTurning(AttitudeOf(x), e, Force(x));
    NorthSpread(x.q0, x.q1, x.q2, x.q3, Force(x).x, Force(x).y, Force(x).z, e.q1, e.q2, e.q3, e.q4, PS174(x), PS173(x), PS175(x), -PS176(x));
    Negated(PS176(x), e.q4);
  }

  lemma NorthTurning(q: Quaternion, e: Quaternion, f: Vector3)
    ensures Times(Turning(q, e).a.x, f.x) == -4.0 * Triple(q.q3, f.x, e.q3) - 4.0 * Triple(q.q4, f.x, e.q4)
    ensures Times(Turning(q, e).a.y, f.y) == 2.0 * Triple(q.q2, f.y, e.q3) + 2.0 * Triple(q.q3, f.y, e.q2) - 2.0 * Triple(q.q1, f.y, e.q4) - 2.0 * Triple(q.q4, f.y, e.q1)
    ensures Times(Turning(q, e).a.z, f.z) == 2.0 * Triple(q.q2, f.z, e.q4) + 2.0 * Triple(q.q4, f.z, e.q2) + 2.0 * Triple(q.q1, f.z, e.q3) + 2.0 * Triple(q.q3, f.z, e.q1)
  {
    hide Times, Triple, SumRate, DoubledRate, ShrunkRate;
    ShrunkTriples(q.q3, e.q3, q.q4, e.q4, f.x);
    DoubledTriples(q.q2, e.q2, q.q3, e.q3, q.q1, e.q1, q.q4, e.q4, f.y);
    SumTriples(q.q2, e.q2, q.q4, e.q4, q.q1, e.q1, q.q3, e.q3, f.z);
  }

  lemma NorthBias(x: Inputs, b: Vector3)
    ensures var m := MatrixOf(AttitudeOf(x));
      -Times(PS171(x), b.z) + Times(PS172(x), b.y) + Times(PS43(x), b.x) == Times(m.a.x, -b.x) + Times(m.a.y, -b.y) + Times(m.a.z, -b.z)
  {
    hide Times, MatrixOf, PS171, PS172, PS43;
    NorthMatrix(x);
    var m := MatrixOf(AttitudeOf(x));
    Opposed(-PS43(x), m.a.x, b.x);
    Negated(PS43(x), b.x);
    Opposed(-PS172(x), m.a.y, b.y);
    Negated(PS172(x), b.y);
    Opposed(PS171(x), m.a.z, b.z);
  }

  lemma EastCoefficients(x: Inputs)
    ensures -PS202(x) == 2.0 * (x.q3 * Force(x).x) - 2.0 * (x.q1 * Force(x).z)
    ensures -PS204(x) == 2.0 * (x.q2 * Force(x).x) - 4.0 * (x.q1 * Force(x).y) - 2.0 * (x.q0 * Force(x).z)
    ensures PS201(x) == 2.0 * (x.q1 * Force(x).x) + 2.0 * (x.q3 * Force(x).z)
    ensures PS203(x) == 2.0 * (x.q0 * Force(x).x) - 4.0 * (x.q3 * Force(x).y) + 2.0 * (x.q2 * Force(x).z)
  {}

  lemma EastMatrix(x: Inputs)
    ensures PS193(x) == MatrixOf(AttitudeOf(x)).b.x
    ensures -PS75(x) == MatrixOf(AttitudeOf(x)).b.y
    ensures -PS190(x) == MatrixOf(AttitudeOf(x)).b.z
  {}

  lemma EastSpread(q0: real, q1: real, q2: real, q3: real, fx: real, fy: real, fz: real, e0: real, e1: real, e2: real, e3: real,
                    c0: real, c1: real, c2: real, c3: real)
    requires c0 == 2.0 * (q3 * fx) - 2.0 * (q1 * fz)
    requires c1 == 2.0 * (q2 * fx) - 4.0 * (q1 * fy) - 2.0 * (q0 * fz)
    requires c2 == 2.0 * (q1 * fx) + 2.0 * (q3 * fz)
    requires c3 == 2.0 * (q0 * fx) - 4.0 * (q3 * fy) + 2.0 * (q2 * fz)
    ensures Times(c0, e0) + Times(c1, e1) + Times(c2, e2) + Times(c3, e3)
            == 2.0 * Triple(q3, fx, e0) - 2.0 * Triple(q1, fz, e0) + 2.0 * Triple(q2, fx, e1) - 4.0 * Triple(q1, fy, e1) - 2.0 * Triple(q0, fz, e1) + 2.0 * Triple(q1, fx, e2) + 2.0 * Triple(q3, fz, e2) + 2.0 * Triple(q0, fx, e3) - 4.0 * Triple(q3, fy, e3) + 2.0 * Triple(q2, fz, e3)
  {
    hide Times, Triple;
    ThreeProducts(c0, 1.0, q3, fx, -1.0, q1, fz, 0.0, q0, fx, e0);
    ThreeProducts(c1, 1.0, q2, fx, -2.0, q1, fy, -1.0, q0, fz, e1);
    ThreeProducts(c2, 1.0, q1, fx, 1.0, q3, fz, 0.0, q0, fx, e2);
    ThreeProducts(c3, 1.0, q0, fx, -2.0, q3, fy, 1.0, q2, fz, e3);
  }

  /** The attitude part of row 5: the turned matrix on the specific force. */
  lemma EastAttitude(x: Inputs, e: Quaternion)
    ensures var f, d := Force(x), Turning(AttitudeOf(x), e);
      Times(PS201(x), e.q3) - Times(PS202(x), e.q1) + Times(PS203(x), e.q4) - Times(PS204(x), e.q2)
      == Times(d.b.x, f.x) + Times(d.b.y, f.y) + Times(d.b.z, f.z)
  {
    hide Times, Triple, Turning, Force, PS201, PS202, PS203, PS204;
    EastCoefficients(x);
    EastTurning(AttitudeOf(x), e, Force(x));
    EastSpread(x.q0, x.q1, x.q2, x.q3, Force(x).x, Force(x).y, Force(x).z, e.q1, e.q2, e.q3, e.q4, -PS202(x), -PS204(x), PS201(x), PS203(x));
    Negated(PS202(x), e.q1);
    Negated(PS204(x), e.q2);
  }

  lemma EastTurning(q: Quaternion, e: Quaternion, f: Vector3)
    ensures Times(Turning(q, e).b.x, f.x) == 2.0 * Triple(q.q2, f.x, e.q3) + 2.0 * Triple(q.q3, f.x, e.q2) + 2.0 * Triple(q.q1, f.x, e.q4) + 2.0 * Triple(q.q4, f.x, e.q1)
    ensures Times(Turning(q, e).b.y, f.y) == -4.0 * Triple(q.q2, f.y, e.q2) - 4.0 * Triple(q.q4, f.y, e.q4)
    ensures Times(Turning(q, e).b.z, f.z) == 2.0 * Triple(q.q3, f.z, e.q4) + 2.0 * Triple(q.q4, f.z, e.q3) - 2.0 * Triple(q.q1, f.z, e.q2) - 2.0 * Triple(q.q2, f.z, e.q1)
  {
    hide Times, Triple, SumRate, DoubledRate, ShrunkRate;
    SumTriples(q.q2, e.q2, q.q3, e.q3, q.q1, e.q1, q.q4, e.q4, f.x);
    ShrunkTriples(q.q2, e.q2, q.q4, e.q4, f.y);
    DoubledTriples(q.q3, e.q3, q.q4, e.q4, q.q1, e.q1, q.q2, e.q2, f.z);
  }

  lemma EastBias(x: Inputs, b: Vector3)
    ensures var m := MatrixOf(AttitudeOf(x));
      Times(PS190(x), b.z) - Times(PS193(x), b.x) + Times(PS75(x), b.y) == Times(m.b.x, -b.x) + Times(m.b.y, -b.y) + Times(m.b.z, -b.z)
  {
    hide Times, MatrixOf, PS190, PS193, PS75;
    EastMatrix(x);
    var m := MatrixOf(AttitudeOf(x));
    Opposed(PS193(x), m.b.x, b.x);
    Opposed(-PS75(x), m.b.y, b.y);
    Negated(PS75(x), b.y);
    Opposed(-PS190(x), m.b.z, b.z);
    Negated(PS190(x), b.z);
  }

  lemma DownCoefficients(x: Inputs)
    ensures PS216(x) == -2.0 * (x.q2 * Force(x).x) + 2.0 * (x.q1 * Force(x).y)
    ensures PS217(x) == 2.0 * (x.q3 * Force(x).x) + 2.0 * (x.q0 * Force(x).y) - 4.0 * (x.q1 * Force(x).z)
    ensures -PS214(x) == -2.0 * (x.q0 * Force(x).x) + 2.0 * (x.q3 * Force(x).y) - 4.0 * (x.q2 * Force(x).z)
    ensures PS215(x) == 2.0 * (x.q1 * Force(x).x) + 2.0 * (x.q2 * Force(x).y)
  {}

  lemma DownMatrix(x: Inputs)
    ensures -PS199(x) == MatrixOf(AttitudeOf(x)).c.x
    ensures PS197(x) == MatrixOf(AttitudeOf(x)).c.y
    ensures -PS87(x) == MatrixOf(AttitudeOf(x)).c.z
  {}

  lemma DownSpread(q0: real, q1: real, q2: real, q3: real, fx: real, fy: real, fz: real, e0: real, e1: real, e2: real, e3: real,
                    c0: real, c1: real, c2: real, c3: real)
    requires c0 == -2.0 * (q2 * fx) + 2.0 * (q1 * fy)
    requires c1 == 2.0 * (q3 * fx) + 2.0 * (q0 * fy) - 4.0 * (q1 * fz)
    requires c2 == -2.0 * (q0 * fx) + 2.0 * (q3 * fy) - 4.0 * (q2 * fz)
    requires c3 == 2.0 * (q1 * fx) + 2.0 * (q2 * fy)
    ensures Times(c0, e0) + Times(c1, e1) + Times(c2, e2) + Times(c3, e3)
            == -2.0 * Triple(q2, fx, e0) + 2.0 * Triple(q1, fy, e0) + 2.0 * Triple(q3, fx, e1) + 2.0 * Triple(q0, fy, e1) - 4.0 * Triple(q1, fz, e1) - 2.0 * Triple(q0, fx, e2) + 2.0 * Triple(q3, fy, e2) - 4.0 * Triple(q2, fz, e2) + 2.0 * Triple(q1, fx, e3) + 2.0 * Triple(q2, fy, e3)
  {
    hide Times, Triple;
    ThreeProducts(c0, -1.0, q2, fx, 1.0, q1, fy, 0.0, q0, fx, e0);
    ThreeProducts(c1, 1.0, q3, fx, 1.0, q0, fy, -2.0, q1, fz, e1);
    ThreeProducts(c2, -1.0, q0, fx, 1.0, q3, fy, -2.0, q2, fz, e2);
    ThreeProducts(c3, 1.0, q1, fx, 1.0, q2, fy, 0.0, q0, fx, e3);
  }

  /** The attitude part of row 6: the turned matrix on the specific force. */
  lemma DownAttitude(x: Inputs, e: Quaternion)
    ensures var f, d := Force(x), Turning(AttitudeOf(x), e);
      -Times(PS214(x), e.q3) + Times(PS215(x), e.q4) + Times(PS216(x), e.q1) + Times(PS217(x), e.q2)
      == Times(d.c.x, f.x) + Times(d.c.y, f.y) + Times(d.c.z, f.z)
  {
    hide Times, Triple, Turning, Force, PS214, PS215, PS216, PS217;
    DownCoefficients(x);
    DownTurning(AttitudeOf(x), e, Force(x));
    DownSpread(x.q0, x.q1, x.q2, x.q3, Force(x).x, Force(x).y, Force(x).z, e.q1, e.q2, e.q3, e.q4, PS216(x), PS217(x), -PS214(x), PS215(x));
    Negated(PS214(x), e.q3);
  }

  lemma DownTurning(q: Quaternion, e: Quaternion, f: Vector3)
    ensures Times(Turning(q, e).c.x, f.x) == 2.0 * Triple(q.q2, f.x, e.q4) + 2.0 * Triple(q.q4, f.x, e.q2) - 2.0 * Triple(q.q1, f.x, e.q3) - 2.0 * Triple(q.q3, f.x, e.q1)
    ensures Times(Turning(q, e).c.y, f.y) == 2.0 * Triple(q.q3, f.y, e.q4) + 2.0 * Triple(q.q4, f.y, e.q3) + 2.0 * Triple(q.q1, f.y, e.q2) + 2.0 * Triple(q.q2, f.y, e.q1)
    ensures Times(Turning(q, e).c.z, f.z) == -4.0 * Triple(q.q2, f.z, e.q2) - 4.0 * Triple(q.q3, f.z, e.q3)
  {
    hide Times, Triple, SumRate, DoubledRate, ShrunkRate;
    DoubledTriples(q.q2, e.q2, q.q4, e.q4, q.q1, e.q1, q.q3, e.q3, f.x);
    SumTriples(q.q3, e.q3, q.q4, e.q4, q.q1, e.q1, q.q2, e.q2, f.y);
    ShrunkTriples(q.q2, e.q2, q.q3, e.q3, f.z);
  }

  lemma DownBias(x: Inputs, b: Vector3)
    ensures var m := MatrixOf(AttitudeOf(x));
      -Times(PS197(x), b.y) + Times(PS199(x), b.x) + Times(PS87(x), b.z) == Times(m.c.x, -b.x) + Times(m.c.y, -b.y) + Times(m.c.z, -b.z)
  {
    hide Times, MatrixOf, PS197, PS199, PS87;
    DownMatrix(x);
    var m := MatrixOf(AttitudeOf(x));
    Opposed(-PS199(x), m.c.x, b.x);
    Negated(PS199(x), b.x);
    Opposed(PS197(x), m.c.y, b.y);
    Opposed(-PS87(x), m.c.z, b.z);
    Negated(PS87(x), b.z);
  }

  /** The attitude, the delta velocity and its bias are those of the prediction. */
  predicate AccelInputs(x: Inputs, s: StateVector, accel: AccelSample) {
    && AttitudeOf(x) == s.quat
    && Vector3(x.dvx, x.dvy, x.dvz) == accel.deltaVelocity && Vector3(x.dvx_b, x.dvy_b, x.dvz_b) == s.accelBias
  }

  lemma ForceOf(x: Inputs, s: StateVector, accel: AccelSample)
    requires AccelInputs(x, s, accel)
    ensures Force(x) == Minus(accel.deltaVelocity, s.accelBias)
  {}

  function Opposite(v: Vector3): Vector3 { Vector3(-v.x, -v.y, -v.z) }

  /** The rate at which the step changes the velocity when the state moves by `e`. */
  function VelocityRate(s: StateVector, e: StateVector, accel: AccelSample): Vector3 {
    var m, d, f, g := MatrixOf(s.quat), Turning(s.quat, e.quat), Minus(accel.deltaVelocity, s.accelBias), Opposite(e.accelBias);
    Vector3(Line(d.a, f) + Line(m.a, g) + e.velocity.x, Line(d.b, f) + Line(m.b, g) + e.velocity.y, Line(d.c, f) + Line(m.c, g) + e.velocity.z)
  }

  lemma Row4Named(x: Inputs, v15: real, v14: real, v1: real, v0: real, v2: real, v3: real, v13: real, v4: real)
    ensures Row4Of(x, v15, v14, v1, v0, v2, v3, v13, v4)
            == -Times(PS171(x), v15) + Times(PS172(x), v14) + Times(PS173(x), v1) + Times(PS174(x), v0) + Times(PS175(x), v2) - Times(PS176(x), v3) + Times(PS43(x), v13) + v4
  {
    hide PS171, PS172, PS173, PS174, PS175, PS176, PS43;
  }

  lemma NorthRow(x: Inputs, s: StateVector, e: StateVector, accel: AccelSample)
    requires AccelInputs(x, s, accel)
    ensures Row4(x, Flat(e)) == VelocityRate(s, e, accel).x
  {
    hide Times, Row4Of, Turning, MatrixOf, PS171, PS172, PS173, PS174, PS175, PS176, PS43;
    Row4Named(x, e.accelBias.z, e.accelBias.y, e.quat.q2, e.quat.q1, e.quat.q3, e.quat.q4, e.accelBias.x, e.velocity.x);
    NorthAttitude(x, e.quat);
    NorthBias(x, e.accelBias);
    ForceOf(x, s, accel);
  }

  lemma Row5Named(x: Inputs, v15: real, v13: real, v2: real, v0: real, v3: real, v1: real, v14: real, v5: real)
    ensures Row5Of(x, v15, v13, v2, v0, v3, v1, v14, v5)
            == Times(PS190(x), v15) - Times(PS193(x), v13) + Times(PS201(x), v2) - Times(PS202(x), v0) + Times(PS203(x), v3) - Times(PS204(x), v1) + Times(PS75(x), v14) + v5
  {
    hide PS190, PS193, PS201, PS202, PS203, PS204, PS75;
  }

  lemma EastRow(x: Inputs, s: StateVector, e: StateVector, accel: AccelSample)
    requires AccelInputs(x, s, accel)
    ensures Row5(x, Flat(e)) == VelocityRate(s, e, accel).y
  {
    hide Times, Row5Of, Turning, MatrixOf, PS190, PS193, PS201, PS202, PS203, PS204, PS75;
    Row5Named(x, e.accelBias.z, e.accelBias.x, e.quat.q3, e.quat.q1, e.quat.q4, e.quat.q2, e.accelBias.y, e.velocity.y);
    EastAttitude(x, e.quat);
    EastBias(x, e.accelBias);
    ForceOf(x, s, accel);
  }

  lemma Row6Named(x: Inputs, v14: real, v13: real, v2: real, v3: real, v0: real, v1: real, v15: real, v6: real)
    ensures Row6Of(x, v14, v13, v2, v3, v0, v1, v15, v6)
            == -Times(PS197(x), v14) + Times(PS199(x), v13) - Times(PS214(x), v2) + Times(PS215(x), v3) + Times(PS216(x), v0) + Times(PS217(x), v1) + Times(PS87(x), v15) + v6
  {
    hide PS197, PS199, PS214, PS215, PS216, PS217, PS87;
  }

  lemma DownRow(x: Inputs, s: StateVector, e: StateVector, accel: AccelSample)
    requires AccelInputs(x, s, accel)
    ensures Row6(x, Flat(e)) == VelocityRate(s, e, accel).z
  {
    hide Times, Row6Of, Turning, MatrixOf, PS197, PS199, PS214, PS215, PS216, PS217, PS87;
    Row6Named(x, e.accelBias.y, e.accelBias.x, e.quat.q3, e.quat.q4, e.quat.q1, e.quat.q2, e.accelBias.z, e.velocity.z);
    DownAttitude(x, e.quat);
    DownBias(x, e.accelBias);
    ForceOf(x, s, accel);
  }

  // ---- all rows ----

  /** What the step changes to second order and beyond. */
  function SecondOrder(s: StateVector, e: StateVector, accel: AccelSample, t: real): Vec {
    var q := Mul(e.quat, Pure(Scale(e.gyroBias, -0.5)));
    var d, b, f, g := Turning(s.quat, e.quat), Bending(e.quat), Minus(accel.deltaVelocity, s.accelBias), Opposite(e.accelBias);
    i => if i == 0 then q.q1 else if i == 1 then q.q2 else if i == 2 then q.q3 else if i == 3 then q.q4
         else if i == 4 then SecondLine(t, d.a, b.a, f, g) else if i == 5 then SecondLine(t, d.b, b.b, f, g)
         else if i == 6 then SecondLine(t, d.c, b.c, f, g) else 0.0
  }

  lemma AttitudeExpands(s: StateVector, e: StateVector, gyro: GyroSample, accel: AccelSample, dt: real, t: real)
    ensures var n, m, r, z := Advanced(Displaced(s, t, e), gyro, accel, dt).quat, Advanced(s, gyro, accel, dt).quat, AttitudeRate(s, e, gyro), SecondOrder(s, e, accel, t);
      && n.q1 == m.q1 + Times(t, r.q1) + Times(t * t, z(0)) && n.q2 == m.q2 + Times(t, r.q2) + Times(t * t, z(1))
      && n.q3 == m.q3 + Times(t, r.q3) + Times(t * t, z(2)) && n.q4 == m.q4 + Times(t, r.q4) + Times(t * t, z(3))
  {
    hide Times, Mul, HalfTurn, Rotate, Turning, Bending;
    HalfTurnMoved(gyro.deltaAngle, s.gyroBias, e.gyroBias, t);
    MulExpands(s.quat, e.quat, HalfTurn(Minus(gyro.deltaAngle, s.gyroBias)), Pure(Scale(e.gyroBias, -0.5)), t);
  }

  lemma VelocityExpands(s: StateVector, e: StateVector, gyro: GyroSample, accel: AccelSample, dt: real, t: real)
    ensures var n, m, r, z := Advanced(Displaced(s, t, e), gyro, accel, dt).velocity, Advanced(s, gyro, accel, dt).velocity, VelocityRate(s, e, accel), SecondOrder(s, e, accel, t);
      && n.x == m.x + Times(t, r.x) + Times(t * t, z(4)) && n.y == m.y + Times(t, r.y) + Times(t * t, z(5))
      && n.z == m.z + Times(t, r.z) + Times(t * t, z(6))
  {
    hide Times, Mul, HalfTurn, Rotate, Turning, Bending, MatrixOf, SecondLine;
    var q, f, g := Shifted(s.quat, t, e.quat), Minus(accel.deltaVelocity, s.accelBias), Opposite(e.accelBias);
    var k := Minus(accel.deltaVelocity, Moved3(s.accelBias, t, e.accelBias));
    RotateIsImage(s.quat, f);
    RotateIsImage(q, k);
    NorthExpands(s.quat, e.quat, t);
    EastExpands(s.quat, e.quat, t);
    DownExpands(s.quat, e.quat, t);
    ForceMoved(accel.deltaVelocity, s.accelBias, e.accelBias, t);
    var n, m, d, b := MatrixOf(q), MatrixOf(s.quat), Turning(s.quat, e.quat), Bending(e.quat);
    RowExpands(n.a, m.a, d.a, b.a, k, f, g, t);
    RowExpands(n.b, m.b, d.b, b.b, k, f, g, t);
    RowExpands(n.c, m.c, d.c, b.c, k, f, g, t);
    WithVelocity(t, Line(d.a, f) + Line(m.a, g), e.velocity.x);
    WithVelocity(t, Line(d.b, f) + Line(m.b, g), e.velocity.y);
    WithVelocity(t, Line(d.c, f) + Line(m.c, g), e.velocity.z);
  }

  lemma WithVelocity(t: real, a: real, v: real)
    ensures Times(t, a + v) == Times(t, a) + Times(t, v)
  {}

  lemma ForceMoved(d: Vector3, b: Vector3, e: Vector3, t: real)
    ensures var k, f, g := Minus(d, Moved3(b, t, e)), Minus(d, b), Opposite(e);
      k.x == f.x + Times(t, g.x) && k.y == f.y + Times(t, g.y) && k.z == f.z + Times(t, g.z)
  {}

  lemma PositionExpands(s: StateVector, e: StateVector, gyro: GyroSample, accel: AccelSample, dt: real, t: real)
    ensures var n, m := Advanced(Displaced(s, t, e), gyro, accel, dt).position, Advanced(s, gyro, accel, dt).position;
      && n.x == m.x + Times(t, Times(e.velocity.x, dt) + e.position.x) && n.y == m.y + Times(t, Times(e.velocity.y, dt) + e.position.y)
      && n.z == m.z + Times(t, Times(e.velocity.z, dt) + e.position.z)
  {
    hide Mul, Rotate, Times;
    WithStep(s.velocity.x, e.velocity.x, e.position.x, dt, t);
    WithStep(s.velocity.y, e.velocity.y, e.position.y, dt, t);
    WithStep(s.velocity.z, e.velocity.z, e.position.z, dt, t);
  }

  lemma WithStep(v: real, e: real, p: real, dt: real, t: real)
    ensures Times(v + Times(t, e), dt) + Times(t, p) == Times(v, dt) + Times(t, Times(e, dt) + p)
  {}

  lemma InputsFit(c: Core, gyro: GyroSample, accel: AccelSample, dtEkfAvg: real)
    ensures var x := PredictionInputs(c, gyro, accel, dtEkfAvg);
      GyroInputs(x, c.state, gyro) && AccelInputs(x, c.state, accel) && x.dt == PredictionDt(gyro, accel, dtEkfAvg)
  {}

  /** The rate of every slot of the step is the row of the transition at the inputs of the prediction. */
  lemma RatesAreRows(c: Core, gyro: GyroSample, accel: AccelSample, dtEkfAvg: real, e: StateVector, i: int)
    requires 0 <= i < N
    ensures var s := c.state;
      TransitionRow(PredictionInputs(c, gyro, accel, dtEkfAvg), i, Flat(e))
      == Flat(StateVector(AttitudeRate(s, e, gyro), VelocityRate(s, e, accel),
                          Add(Travel(e.velocity, PredictionDt(gyro, accel, dtEkfAvg)), e.position),
                          e.gyroBias, e.accelBias, e.earthMagfield, e.bodyMagfield, e.windVel))(i)
  {
    hide Times, AttitudeRate, VelocityRate, Row0, Row1, Row2, Row3, Row4, Row5, Row6, Row7, Row8, Row9, PredictionInputs, PredictionDt;
    var x := PredictionInputs(c, gyro, accel, dtEkfAvg);
    InputsFit(c, gyro, accel, dtEkfAvg);
    AttitudeRows(x, c.state, e, gyro);
    NorthRow(x, c.state, e, accel);
    EastRow(x, c.state, e, accel);
    DownRow(x, c.state, e, accel);
    PositionRows(x, Flat(e));
  }

  lemma PositionRows(x: Inputs, v: Vec)
    ensures Row7(x, v) == Times(v(4), x.dt) + v(7) && Row8(x, v) == Times(v(5), x.dt) + v(8) && Row9(x, v) == Times(v(6), x.dt) + v(9)
  {}

  /** A displaced state is displaced slot by slot. */
  lemma DisplacedSlots(s: StateVector, t: real, e: StateVector, i: int)
    requires 0 <= i < N
    ensures Flat(Displaced(s, t, e))(i) == Flat(s)(i) + Times(t, Flat(e)(i))
  {
    hide Times;
  }

  /**
   The Jacobian the prediction uses is the derivative of the strapdown step: displacing the state by `t e` displaces the
   advanced state by `t F e`, up to terms of second order in `t`.
   */
  lemma TransitionIsDerivative(c: Core, gyro: GyroSample, accel: AccelSample, dtEkfAvg: real, e: StateVector, t: real, i: int)
    requires 0 <= i < N
    ensures var s, dt, f := c.state, PredictionDt(gyro, accel, dtEkfAvg), Jacobian(PredictionInputs(c, gyro, accel, dtEkfAvg));
      Flat(Advanced(Displaced(s, t, e), gyro, accel, dt))(i)
      == Flat(Advanced(s, gyro, accel, dt))(i) + Times(t, Dot(N, RowOf(f, i), Flat(e))) + Times(t * t, SecondOrder(s, e, accel, t)(i))
  {
    hide Advanced, Displaced, Dot, Jacobian, PredictionInputs, PredictionDt, Times, SecondOrder, AttitudeRate, VelocityRate, TransitionRow;
    var s, dt, x := c.state, PredictionDt(gyro, accel, dtEkfAvg), PredictionInputs(c, gyro, accel, dtEkfAvg);
    RowIsProduct(x, i, Flat(e));
    RatesAreRows(c, gyro, accel, dtEkfAvg, e, i);
    AttitudeExpands(s, e, gyro, accel, dt, t);
    VelocityExpands(s, e, gyro, accel, dt, t);
    PositionExpands(s, e, gyro, accel, dt, t);
    OtherSlots(s, e, gyro, accel, dt, t, i);
  }

  lemma OtherSlots(s: StateVector, e: StateVector, gyro: GyroSample, accel: AccelSample, dt: real, t: real, i: int)
    requires 0 <= i < N
    ensures i >= 10 ==> Flat(Advanced(Displaced(s, t, e), gyro, accel, dt))(i) == Flat(Advanced(s, gyro, accel, dt))(i) + Times(t, Flat(e)(i))
    ensures i >= 7 ==> Times(t * t, SecondOrder(s, e, accel, t)(i)) == 0.0
  {
    hide Mul, Rotate, SecondLine, Turning, Bending;
    DisplacedSlots(s, t, e, i);
  }
}
