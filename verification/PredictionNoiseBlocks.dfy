/**
 What a prediction adds to a covariance that starts from nothing: which sensor noise enters which
 states, and in which directions. The attitude gains variance across the quaternion alone, the
 velocity equally along all axes, and an attitude reset spreads earth-frame angle variances over the
 body axes.
 */
module PredictionNoiseBlocks {
  import opened Numeric
  import opened Geometry
  import opened QuaternionAlgebra
  import opened LinearAlgebra
  import opened PredictionBlock
  import opened CovariancePropagation
  import opened EkfModel
  import opened EkfPrediction

  // ---- nothing propagates to nothing ----

  lemma CongruenceOfZero(f: Table, zero: Table, i: int, j: int)
    requires forall k, m | 0 <= k < N && 0 <= m < N :: zero(k, m) == 0.0
    requires 0 <= i < N && 0 <= j < N
    ensures Congruence(f, zero)(i, j) == 0.0
  {
    hide Dot;
    forall k | 0 <= k < N
      ensures RowOf(Product(f, zero), i)(k) == 0.0
    {
      DotZero(N, RowOf(f, i), ColOf(zero, k));
    }
    DotZero(N, ColOf(Transpose(f), j), RowOf(Product(f, zero), i));
    DotCommutes(N, ColOf(Transpose(f), j), RowOf(Product(f, zero), i));
  }

  lemma PredictedFromNothing(x: Inputs, d: Vec, i: int, j: int)
    requires 0 <= i < N && 0 <= j < N
    ensures Predicted(x, Fn(ZeroMat()), d)(i, j) == Noise(x, i, j) + (if i == j then d(i) else 0.0)
  {
    hide Congruence, Jacobian, Noise;
    CongruenceOfZero(Jacobian(x), Fn(ZeroMat()), i, j);
  }

  // ---- the attitude block ----

  function BodyAxis(n: int): Vector3 { if n == 0 then X_AXIS else if n == 1 then Y_AXIS else Z_AXIS }

  function Slot(q: Quaternion, i: int): real { if i == 0 then q.q1 else if i == 1 then q.q2 else if i == 2 then q.q3 else q.q4 }

  /** The direction in which the quaternion moves when the body turns about one of its axes. */
  function TurnDirection(q: Quaternion, n: int): Quaternion { Mul(q, Pure(BodyAxis(n))) }

  lemma GainIsDirection(x: Inputs, i: int, n: int)
    requires 0 <= i < 4 && 0 <= n < 3
    ensures GyroGain(x, i, n) == 0.5 * Slot(TurnDirection(AttitudeOf(x), n), i)
  {}

  /** The covariance of the quaternion when the body has turned by small angles of the given variances about its axes. */
  function SpreadOver(q: Quaternion, v: Vector3, i: int, j: int): real {
    var a, b, c := TurnDirection(q, 0), TurnDirection(q, 1), TurnDirection(q, 2);
    0.25 * (Triple(Slot(a, i), Slot(a, j), v.x) + Triple(Slot(b, i), Slot(b, j), v.y) + Triple(Slot(c, i), Slot(c, j), v.z))
  }

  lemma AttitudeBlock(x: Inputs, i: int, j: int)
    requires 0 <= i < 4 && 0 <= j < 4
    ensures Noise(x, i, j) == SpreadOver(AttitudeOf(x), Vector3(x.daxVar, x.dayVar, x.dazVar), i, j)
  {
    hide GyroGain, Slot, TurnDirection, Triple;
    GainIsDirection(x, i, 0);
    GainIsDirection(x, i, 1);
    GainIsDirection(x, i, 2);
    GainIsDirection(x, j, 0);
    GainIsDirection(x, j, 1);
    GainIsDirection(x, j, 2);
    Quarter(GyroGain(x, i, 0), GyroGain(x, j, 0), Slot(TurnDirection(AttitudeOf(x), 0), i), Slot(TurnDirection(AttitudeOf(x), 0), j), x.daxVar);
    Quarter(GyroGain(x, i, 1), GyroGain(x, j, 1), Slot(TurnDirection(AttitudeOf(x), 1), i), Slot(TurnDirection(AttitudeOf(x), 1), j), x.dayVar);
    Quarter(GyroGain(x, i, 2), GyroGain(x, j, 2), Slot(TurnDirection(AttitudeOf(x), 2), i), Slot(TurnDirection(AttitudeOf(x), 2), j), x.dazVar);
    NoAccelGain(x, i, j);
  }

  lemma Quarter(g: real, h: real, a: real, b: real, v: real)
    requires g == 0.5 * a && h == 0.5 * b
    ensures g * h * v == 0.25 * Triple(a, b, v)
  {}

  lemma NoAccelGain(x: Inputs, i: int, j: int)
    requires 0 <= i < 4 && 0 <= j < 4
    ensures Noise(x, i, j) == GyroGain(x, i, 0) * GyroGain(x, j, 0) * x.daxVar + GyroGain(x, i, 1) * GyroGain(x, j, 1) * x.dayVar
                              + GyroGain(x, i, 2) * GyroGain(x, j, 2) * x.dazVar
  {
    hide GyroGain, AccelGain;
    NoGain(x, i);
    Nothing(AccelGain(x, i, 0), AccelGain(x, j, 0), x.dvxVar);
    Nothing(AccelGain(x, i, 1), AccelGain(x, j, 1), x.dvyVar);
    Nothing(AccelGain(x, i, 2), AccelGain(x, j, 2), x.dvzVar);
  }

  lemma NoGain(x: Inputs, i: int)
    ensures 0 <= i < 4 ==> AccelGain(x, i, 0) == AccelGain(x, i, 1) == AccelGain(x, i, 2) == 0.0
    ensures i < 0 || i >= 4 ==> GyroGain(x, i, 0) == GyroGain(x, i, 1) == GyroGain(x, i, 2) == 0.0
    ensures i < 4 || i >= 7 ==> AccelGain(x, i, 0) == AccelGain(x, i, 1) == AccelGain(x, i, 2) == 0.0
  {}

  lemma Nothing(a: real, b: real, v: real)
    requires a == 0.0 || b == 0.0
    ensures a * b * v == 0.0
  {}

  /** Equal variances about all axes spread over everything across the quaternion, and nothing along it. */
  lemma EqualSpread(q: Quaternion, v: real, i: int, j: int)
    requires UnitQuaternion(q) && 0 <= i < 4 && 0 <= j < 4
    ensures SpreadOver(q, Vector3(v, v, v), i, j) == 0.25 * Times(v, (if i == j then 1.0 else 0.0) - Times(Slot(q, i), Slot(q, j)))
  {
    hide Triple, Times, Slot, TurnDirection, UnitQuaternion;
    var a, b, c := TurnDirection(q, 0), TurnDirection(q, 1), TurnDirection(q, 2);
    SharedFactor(Slot(a, i), Slot(a, j), Slot(b, i), Slot(b, j), Slot(c, i), Slot(c, j), v);
    DirectionsSquare(q, i, j);
  }

  lemma SharedFactor(a: real, b: real, c: real, d: real, e: real, f: real, v: real)
    ensures Triple(a, b, v) + Triple(c, d, v) + Triple(e, f, v) == Times(v, Times(a, b) + Times(c, d) + Times(e, f))
  {}

  /** The three turn directions and the quaternion itself are orthonormal. */
  lemma DirectionsSquare(q: Quaternion, i: int, j: int)
    requires UnitQuaternion(q) && 0 <= i < 4 && 0 <= j < 4
    ensures var a, b, c := TurnDirection(q, 0), TurnDirection(q, 1), TurnDirection(q, 2);
      Times(Slot(a, i), Slot(a, j)) + Times(Slot(b, i), Slot(b, j)) + Times(Slot(c, i), Slot(c, j))
      == (if i == j then 1.0 else 0.0) - Times(Slot(q, i), Slot(q, j))
  {
    hide TurnDirection, Times;
    DirectionSlots(q);
    Swapped(Slot(q, i), Slot(q, j));
    SquaresSum(q.q1, q.q2, q.q3, q.q4);
    ProductsCancel(q.q1, q.q2, q.q3, q.q4);
    ProductsCancel(q.q1, q.q3, q.q4, q.q2);
    ProductsCancel(q.q1, q.q4, q.q2, q.q3);
    ProductsCross(q.q1, q.q2, q.q3, q.q4);
    ProductsCross(q.q1, q.q3, q.q4, q.q2);
    ProductsCross(q.q1, q.q4, q.q2, q.q3);
  }

  lemma SquaresSum(a: real, b: real, c: real, d: real)
    requires SumOfSquares(a, b, c, d) == 1.0
    ensures Times(-b, -b) + Times(-c, -c) + Times(-d, -d) == 1.0 - Times(a, a)
    ensures Times(a, a) + Times(-d, -d) + Times(c, c) == 1.0 - Times(b, b)
    ensures Times(d, d) + Times(a, a) + Times(-b, -b) == 1.0 - Times(c, c)
    ensures Times(-c, -c) + Times(b, b) + Times(a, a) == 1.0 - Times(d, d)
  {}

  lemma ProductsCancel(a: real, b: real, c: real, d: real)
    ensures Times(-b, a) == -Times(a, b) == Times(a, -b) && Times(-c, -d) == Times(c, d) == Times(-d, -c)
    ensures Times(-d, c) == -Times(c, d) == Times(c, -d) && Times(d, -c) == -Times(c, d) == Times(-c, d)
  {}

  lemma ProductsCross(a: real, b: real, c: real, d: real)
    ensures Times(a, b) == Times(b, a) && Times(c, d) == Times(d, c) && Times(a, -d) == Times(-d, a) == -Times(a, d)
  {}

  lemma DirectionSlots(q: Quaternion)
    ensures TurnDirection(q, 0) == Quaternion(-q.q2, q.q1, q.q4, -q.q3)
    ensures TurnDirection(q, 1) == Quaternion(-q.q3, -q.q4, q.q1, q.q2)
    ensures TurnDirection(q, 2) == Quaternion(-q.q4, q.q3, -q.q2, q.q1)
  {}

  // ---- the velocity block ----

  lemma InverseUnit(q: Quaternion)
    requires UnitQuaternion(q)
    ensures UnitQuaternion(Inverse(q))
  {
    NormInverse(q);
  }

  /** The rows of the rotation matrix are the earth axes seen from the body. */
  lemma RowsAreAxes(q: Quaternion)
    ensures var m, p := RotationMatrix(q), Inverse(q); m.a == Rotate(p, X_AXIS) && m.b == Rotate(p, Y_AXIS) && m.c == Rotate(p, Z_AXIS)
  {
    hide Rotate;
    RotateIsMatrix(Inverse(q), X_AXIS);
    RotateIsMatrix(Inverse(q), Y_AXIS);
    RotateIsMatrix(Inverse(q), Z_AXIS);
    assert TransposedMatrices(RotationMatrix(q), RotationMatrix(Inverse(q)));
  }

  predicate TransposedMatrices(m: Matrix3, n: Matrix3) {
    && m.a == Vector3(n.a.x, n.b.x, n.c.x) && m.b == Vector3(n.a.y, n.b.y, n.c.y) && m.c == Vector3(n.a.z, n.b.z, n.c.z)
  }

  function MatrixRow(m: Matrix3, i: int): Vector3 { if i == 0 then m.a else if i == 1 then m.b else m.c }

  lemma RowsOrthonormal(q: Quaternion, i: int, j: int)
    requires UnitQuaternion(q) && 0 <= i < 3 && 0 <= j < 3
    ensures var m := RotationMatrix(q); Dot3(MatrixRow(m, i), MatrixRow(m, j)) == if i == j then 1.0 else 0.0
  {
    hide Rotate, RotationMatrix, Dot3, UnitQuaternion, Inverse;
    RowsAreAxes(q);
    InverseUnit(q);
    RotateKeepsDot(Inverse(q), BodyAxis(i), BodyAxis(j));
    AxesOrthonormal(i, j);
  }

  lemma AxesOrthonormal(i: int, j: int)
    requires 0 <= i < 3 && 0 <= j < 3
    ensures Dot3(BodyAxis(i), BodyAxis(j)) == if i == j then 1.0 else 0.0
  {}

  lemma AccelGains(x: Inputs, i: int)
    requires 4 <= i < 7
    ensures var r := MatrixRow(RotationMatrix(AttitudeOf(x)), i - 4); AccelGain(x, i, 0) == r.x && AccelGain(x, i, 1) == r.y && AccelGain(x, i, 2) == r.z
  {}

  lemma NoGyroGain(x: Inputs, i: int, j: int)
    requires 4 <= i < 7 && 4 <= j < 7
    ensures Noise(x, i, j) == AccelGain(x, i, 0) * AccelGain(x, j, 0) * x.dvxVar + AccelGain(x, i, 1) * AccelGain(x, j, 1) * x.dvyVar
                              + AccelGain(x, i, 2) * AccelGain(x, j, 2) * x.dvzVar
  {
    hide GyroGain, AccelGain;
    NoGain(x, i);
    Nothing(GyroGain(x, i, 0), GyroGain(x, j, 0), x.daxVar);
    Nothing(GyroGain(x, i, 1), GyroGain(x, j, 1), x.dayVar);
    Nothing(GyroGain(x, i, 2), GyroGain(x, j, 2), x.dazVar);
  }

  /** Equal variances along the body axes are equal variances along the earth axes. */
  lemma VelocityBlock(x: Inputs, v: real, i: int, j: int)
    requires UnitQuaternion(AttitudeOf(x)) && x.dvxVar == x.dvyVar == x.dvzVar == v && 4 <= i < 7 && 4 <= j < 7
    ensures Noise(x, i, j) == if i == j then v else 0.0
  {
    hide Noise, AccelGain, RotationMatrix, UnitQuaternion, Dot3, Times;
    var r, s := MatrixRow(RotationMatrix(AttitudeOf(x)), i - 4), MatrixRow(RotationMatrix(AttitudeOf(x)), j - 4);
    NoGyroGain(x, i, j);
    AccelGains(x, i);
    AccelGains(x, j);
    RowsOrthonormal(AttitudeOf(x), i - 4, j - 4);
    ScaledDot3(r, s, AccelGain(x, i, 0), AccelGain(x, i, 1), AccelGain(x, i, 2), AccelGain(x, j, 0), AccelGain(x, j, 1), AccelGain(x, j, 2),
               x.dvxVar, x.dvyVar, x.dvzVar, v);
  }

  lemma ScaledDot3(r: Vector3, s: Vector3, a: real, b: real, c: real, d: real, e: real, f: real, u: real, w: real, y: real, v: real)
    requires r == Vector3(a, b, c) && s == Vector3(d, e, f) && u == w == y == v
    ensures a * d * u + b * e * w + c * f * y == Times(Dot3(r, s), v)
    ensures Times(1.0, v) == v && Times(0.0, v) == 0.0
  {
    assert Dot3(r, s) == a * d + b * e + c * f;
  }

  /** No sensor noise reaches a pair of states of different kind, or a position. */
  lemma NoCrossNoise(x: Inputs, i: int, j: int)
    requires 0 <= i && 0 <= j && !(i < 4 && j < 4) && !(4 <= i < 7 && 4 <= j < 7)
    ensures Noise(x, i, j) == 0.0
  {
    hide GyroGain, AccelGain;
    NoGain(x, i);
    NoGain(x, j);
    Nothing(GyroGain(x, i, 0), GyroGain(x, j, 0), x.daxVar);
    Nothing(GyroGain(x, i, 1), GyroGain(x, j, 1), x.dayVar);
    Nothing(GyroGain(x, i, 2), GyroGain(x, j, 2), x.dazVar);
    Nothing(AccelGain(x, i, 0), AccelGain(x, j, 0), x.dvxVar);
    Nothing(AccelGain(x, i, 1), AccelGain(x, j, 1), x.dvyVar);
    Nothing(AccelGain(x, i, 2), AccelGain(x, j, 2), x.dvzVar);
  }

  // ---- a prediction from nothing ----

  lemma SensorInputs(c: Core, gyro: GyroSample, accel: AccelSample, dtEkfAvg: real)
    ensures var x, dt := PredictionInputs(c, gyro, accel, dtEkfAvg), PredictionDt(gyro, accel, dtEkfAvg);
      && AttitudeOf(x) == c.state.quat
      && x.daxVar == x.dayVar == x.dazVar == StepVariance(dt, c.tuning.gyrNoise, 1.0)
      && x.dvxVar == x.dvyVar == x.dvzVar == StepVariance(dt, c.tuning.accNoise, 5.0)
  {
    hide BlockInputs, GyroNoise, StepVariance, PredictionDt;
    var dt := PredictionDt(gyro, accel, dtEkfAvg);
    NoiseOfBlock(c.state, c.tuning, gyro, accel, dt, GyroNoise(c.tuning, dt));
  }

  lemma NoiseOfBlock(s: StateVector, t: Tuning, gyro: GyroSample, accel: AccelSample, dt: real, v: Vector3)
    ensures var x := BlockInputs(s, t, gyro, accel, dt, v);
      && AttitudeOf(x) == s.quat && Vector3(x.daxVar, x.dayVar, x.dazVar) == v
      && x.dvxVar == x.dvyVar == x.dvzVar == StepVariance(dt, t.accNoise, 5.0)
    ensures GyroNoise(t, dt) == Vector3(StepVariance(dt, t.gyrNoise, 1.0), StepVariance(dt, t.gyrNoise, 1.0), StepVariance(dt, t.gyrNoise, 1.0))
  {
    hide Clamp, Sq, Times;
  }

  /** The variance of a sensor noise over one step, the noise held within `[0, most]`. */
  function StepVariance(dt: real, noise: real, most: real): real { Sq(Times(dt, Clamp(noise, 0.0, most))) }

  /** The step is the mean of the two sample durations, held near the averaging period. */
  lemma StepDuration(gyro: GyroSample, accel: AccelSample, dtEkfAvg: real)
    requires dtEkfAvg >= 0.0
    ensures var dt, sum := PredictionDt(gyro, accel, dtEkfAvg), gyro.deltaAngleDt + accel.deltaVelocityDt;
      && 0.5 * dtEkfAvg <= dt <= 2.0 * dtEkfAvg
      && (dtEkfAvg <= sum <= 4.0 * dtEkfAvg ==> dt + dt == sum)
  {}

  /** The filtered height rate closes in on the climb rate, by a tenth of the step at a time. */
  lemma HeightRateFollows(hgtRate: real, velocityDown: real, dt: real)
    ensures FilteredHgtRate(hgtRate, velocityDown, dt) - (-velocityDown) == (1.0 - 0.1 * dt) * (hgtRate - (-velocityDown))
  {}

  /** The variance one state past the position gains on its own in a step of `dt`, climbing or sinking at `rate`. */
  predicate OwnNoise(h: Inhibit, t: Tuning, rate: real, dt: real, i: int, v: real) {
    && (i <= 9 || i > StateIndexLim(h) ==> v == 0.0)
    && (10 <= i <= 12 && i <= StateIndexLim(h) ==> v == StepVariance(Sq(dt), t.gyroBiasProcessNoise, 1.0))
    && (13 <= i <= 15 && i <= StateIndexLim(h) ==> v == StepVariance(Sq(dt), t.accelBiasProcessNoise, 1.0))
    && (16 <= i <= 18 ==> v == if h.mag then 0.0 else StepVariance(dt, t.magEarthProcessNoise, 1.0))
    && (19 <= i <= 21 ==> v == if h.mag then 0.0 else StepVariance(dt, t.magBodyProcessNoise, 1.0))
    && (22 <= i <= 23 && h.wind ==> v == 0.0)
    && (22 <= i <= 23 && !h.wind ==>
          v == Times(StepVariance(dt, t.windVelProcessNoise, 1.0), Sq(1.0 + Times(Clamp(t.windVarHgtRateScale, 0.0, 1.0), Abs(rate)))))
  }

  lemma ProcessNoiseOwn(h: Inhibit, t: Tuning, rate: real, dt: real, i: int)
    requires 0 <= i < N
    ensures OwnNoise(h, t, rate, dt, i, ProcessNoiseOf(h, t, rate, dt, i))
  {
    hide Clamp, Abs, Times, Sq;
    SquareOfProduct(Times(dt, Clamp(t.windVelProcessNoise, 0.0, 1.0)), 1.0 + Times(Clamp(t.windVarHgtRateScale, 0.0, 1.0), Abs(rate)));
  }

  lemma SquareOfProduct(a: real, b: real)
    ensures Sq(Times(a, b)) == Times(Sq(a), Sq(b))
  {}

  /**
   What a prediction leaves of a covariance that was zero: the gyro noise across the quaternion, the accelerometer
   noise equally on the three velocities, nothing between them, nothing on the position, and beyond the position the
   process noise alone, each state for itself.
   */
  lemma PredictionFromNothing(c: Core, gyro: GyroSample, accel: AccelSample, dtEkfAvg: real, i: int, j: int)
    requires c.P == ZeroMat() && UnitQuaternion(c.state.quat) && 0 <= i < N && 0 <= j < N
    ensures var m, dt := PropagatedBy(c, gyro, accel, dtEkfAvg), PredictionDt(gyro, accel, dtEkfAvg);
      && (i < 4 && j < 4 ==>
            At(m, i, j) == 0.25 * Times(StepVariance(dt, c.tuning.gyrNoise, 1.0), (if i == j then 1.0 else 0.0) - Times(Flat(c.state)(i), Flat(c.state)(j))))
      && (4 <= i < 7 && 4 <= j < 7 ==> At(m, i, j) == if i == j then StepVariance(dt, c.tuning.accNoise, 5.0) else 0.0)
      && (!(i < 4 && j < 4) && !(4 <= i < 7 && 4 <= j < 7) ==>
            if i == j then OwnNoise(c.inhibit, c.tuning, FilteredHgtRate(c.hgtRate, c.state.velocity.z, dt), dt, i, At(m, i, i)) else At(m, i, j) == 0.0)
  {
    hide Noise, StepVariance, OwnNoise, PredictionDt, PredictionInputs, PredictionNoise, Predicted, FilteredHgtRate, Times, UnitQuaternion;
    var x, d := PredictionInputs(c, gyro, accel, dtEkfAvg), PredictionNoise(c, gyro, accel, dtEkfAvg);
    NoiseRange(c, gyro, accel, dtEkfAvg);
    DiagonalNoise(c, gyro, accel, dtEkfAvg, i);
    SensorInputs(c, gyro, accel, dtEkfAvg);
    PredictedFromNothing(x, d, i, j);
    NothingCollapses();
    if i < 4 && j < 4 {
      AttitudeBlock(x, i, j);
      EqualSpread(c.state.quat, x.daxVar, i, j);
    } else if 4 <= i < 7 && 4 <= j < 7 {
      VelocityBlock(x, x.dvxVar, i, j);
    } else {
      NoCrossNoise(x, i, j);
    }
  }

  lemma DiagonalNoise(c: Core, gyro: GyroSample, accel: AccelSample, dtEkfAvg: real, i: int)
    requires 0 <= i < N
    ensures var dt := PredictionDt(gyro, accel, dtEkfAvg);
      OwnNoise(c.inhibit, c.tuning, FilteredHgtRate(c.hgtRate, c.state.velocity.z, dt), dt, i, PredictionNoise(c, gyro, accel, dtEkfAvg)(i))
  {
    hide OwnNoise, ProcessNoiseOf, PredictionDt, FilteredHgtRate;
    var dt := PredictionDt(gyro, accel, dtEkfAvg);
    ProcessNoiseOwn(c.inhibit, c.tuning, FilteredHgtRate(c.hgtRate, c.state.velocity.z, dt), dt, i);
  }

  lemma NothingCollapses()
    ensures !PositionCollapse(ZeroMat())
  {}

  lemma NoiseRange(c: Core, gyro: GyroSample, accel: AccelSample, dtEkfAvg: real)
    ensures forall i | i < 10 || i > StateIndexLim(c.inhibit) :: PredictionNoise(c, gyro, accel, dtEkfAvg)(i) == 0.0
    ensures 9 <= StateIndexLim(c.inhibit) < N
  {
    hide FilteredHgtRate, PredictionDt, BiasNoise, FieldNoise, WindNoise;
  }

  // ---- an attitude reset of nothing ----

  /** The variance along a direction, for independent errors along the three earth axes. */
  function Along(a: Vector3, rot: Vector3): real { Times(a.x * a.x, rot.x) + Times(a.y * a.y, rot.y) + Times(a.z * a.z, rot.z) }

  /** The variance of the angle about one body axis, for independent angle errors about the earth axes. */
  function AboutAxis(q: Quaternion, rot: Vector3, n: int): real { Along(Rotate(q, BodyAxis(n)), rot) }

  lemma RotatedNoiseIs(q: Quaternion, rot: Vector3)
    ensures RotatedNoise(q, rot) == Vector3(AboutAxis(q, rot, 0), AboutAxis(q, rot, 1), AboutAxis(q, rot, 2))
  {
    hide Rotate, RotationMatrix, Along, WeightedSquare;
    TwiceInverse(q);
    RowsAreAxes(Inverse(q));
    Weighted(Rotate(q, X_AXIS), rot);
    Weighted(Rotate(q, Y_AXIS), rot);
    Weighted(Rotate(q, Z_AXIS), rot);
  }

  lemma TwiceInverse(q: Quaternion)
    ensures Inverse(Inverse(q)) == q
  {}

  lemma Weighted(a: Vector3, rot: Vector3)
    ensures WeightedSquare(a, rot) == Along(a, rot)
  {}

  /** An attitude reset of a zero covariance: the earth-frame angle variances, turned to body axes, spread across the quaternion. */
  lemma ResetFromNothing(c: Core, gyro: GyroSample, accel: AccelSample, dtEkfAvg: real, rot: Vector3, i: int, j: int)
    requires c.P == ZeroMat() && 0 <= i < 4 && 0 <= j < 4
    ensures var q := c.state.quat; var v := Vector3(AboutAxis(q, rot, 0), AboutAxis(q, rot, 1), AboutAxis(q, rot, 2));
      At(AttitudeReset(c, gyro, accel, dtEkfAvg, rot).P, i, j)
      == if i == j then Clamp(SpreadOver(q, v, i, i), 0.0, 1.0) else SpreadOver(q, v, i, j)
  {
    hide Noise, Clamp, PredictionDt, Predicted, FilteredHgtRate, SpreadOver, AboutAxis, RotatedNoise;
    var q, dt := c.state.quat, PredictionDt(gyro, accel, dtEkfAvg);
    var x := BlockInputs(c.state, c.tuning, gyro, accel, dt, RotatedNoise(q, rot));
    NoiseOfBlock(c.state, c.tuning, gyro, accel, dt, RotatedNoise(q, rot));
    assert ZeroRowsCols(c.P, 0, 3) == ZeroMat() by {
      SameMat(ZeroRowsCols(c.P, 0, 3), ZeroMat());
    }
    PredictedFromNothing(x, i => 0.0, i, j);
    AttitudeBlock(x, i, j);
    RotatedNoiseIs(q, rot);
  }

  /** Initialisation gives the attitude an angle variance of 0.01 about every axis, whichever way it points. */
  lemma InitialAttitude(c: Core, dtEkfAvg: real, i: int, j: int)
    requires UnitQuaternion(c.state.quat) && 0 <= i < 4 && 0 <= j < 4
    ensures At(CovarianceInitialised(c, dtEkfAvg).P, i, j)
            == 0.25 * Times(0.01, (if i == j then 1.0 else 0.0) - Times(Flat(c.state)(i), Flat(c.state)(j)))
  {
    hide AttitudeReset, SpreadOver, AboutAxis, Times, UnitQuaternion, Clamp;
    var z, q := c.(P := ZeroMat()), c.state.quat;
    ResetFromNothing(z, ZERO_GYRO, ZERO_ACCEL, dtEkfAvg, INITIAL_ANGLE_VARIANCE, i, j);
    EqualAngles(q, 0);
    EqualAngles(q, 1);
    EqualAngles(q, 2);
    EqualSpread(q, 0.01, i, j);
    SmallVariance(q, i);
    InitialisedEntry(c, dtEkfAvg, i, j);
  }

  lemma InitialisedEntry(c: Core, dtEkfAvg: real, i: int, j: int)
    requires 0 <= i < 4 && 0 <= j < 4
    ensures At(CovarianceInitialised(c, dtEkfAvg).P, i, j)
            == At(AttitudeReset(c.(P := ZeroMat()), ZERO_GYRO, ZERO_ACCEL, dtEkfAvg, INITIAL_ANGLE_VARIANCE).P, i, j)
  {
    hide AttitudeReset;
  }

  lemma EqualAngles(q: Quaternion, n: int)
    requires UnitQuaternion(q) && 0 <= n < 3
    ensures AboutAxis(q, INITIAL_ANGLE_VARIANCE, n) == 0.01
  {
    hide Rotate, UnitQuaternion;
    RotateKeepsLength(q, BodyAxis(n));
  }

  lemma SmallVariance(q: Quaternion, i: int)
    requires UnitQuaternion(q) && 0 <= i < 4
    ensures var v := 0.25 * Times(0.01, 1.0 - Times(Slot(q, i), Slot(q, i))); Clamp(v, 0.0, 1.0) == v
  {
    SquareNonNegative(q.q1);
    SquareNonNegative(q.q2);
    SquareNonNegative(q.q3);
    SquareNonNegative(q.q4);
  }
}
