/**
 The covariance prediction as a function from old to new estimator, written with the plain matrix
 formula, and what it preserves.
 */
module EkfPrediction {
  import opened Numeric
  import opened Geometry
  import opened LinearAlgebra
  import opened PredictionBlock
  import opened CovariancePropagation
  import opened EkfModel
  import opened ScalarFusion

  function PredictionDt(gyro: GyroSample, accel: AccelSample, dtEkfAvg: real): real {
    Clamp(0.5 * (gyro.deltaAngleDt + accel.deltaVelocityDt), 0.5 * dtEkfAvg, 2.0 * dtEkfAvg)
  }

  /** The height rate low-passed with a ten second time constant. */
  function FilteredHgtRate(hgtRate: real, velocityDown: real, dt: real): real {
    var alpha := 0.1 * dt;
    hgtRate * (1.0 - alpha) - velocityDown * alpha
  }

  function BiasNoise(n: real, dt: real): (r: real)
    ensures r >= 0.0
  {
    Sq(Times(Sq(dt), Clamp(n, 0.0, 1.0)))
  }

  function FieldNoise(n: real, dt: real): (r: real)
    ensures r >= 0.0
  {
    Sq(Times(dt, Clamp(n, 0.0, 1.0)))
  }

  /** Wind noise grows with the filtered height rate. */
  function WindNoise(t: Tuning, hgtRate: real, dt: real): (r: real)
    ensures r >= 0.0
  {
    Sq(Times(Times(dt, Clamp(t.windVelProcessNoise, 0.0, 1.0)), 1.0 + Times(Clamp(t.windVarHgtRateScale, 0.0, 1.0), Abs(hgtRate))))
  }

  /** Process noise of state `i`; zero below the bias states, above the index limit, and for inhibited field and wind states. */
  function ProcessNoiseOf(h: Inhibit, t: Tuning, hgtRate: real, dt: real, i: int): (r: real)
    ensures r >= 0.0
    ensures i < 10 || i > StateIndexLim(h) ==> r == 0.0
  {
    if i < 10 || i > StateIndexLim(h) then 0.0
    else if i <= 12 then BiasNoise(t.gyroBiasProcessNoise, dt)
    else if i <= 15 then BiasNoise(t.accelBiasProcessNoise, dt)
    else if i <= 18 then (if h.mag then 0.0 else FieldNoise(t.magEarthProcessNoise, dt))
    else if i <= 21 then (if h.mag then 0.0 else FieldNoise(t.magBodyProcessNoise, dt))
    else if h.wind then 0.0
    else WindNoise(t, hgtRate, dt)
  }

  function ProcessNoise(h: Inhibit, t: Tuning, hgtRate: real, dt: real): Vec { i => ProcessNoiseOf(h, t, hgtRate, dt, i) }

  function BlockInputs(s: StateVector, t: Tuning, gyro: GyroSample, accel: AccelSample, dt: real, gyroVar: Vector3): Inputs {
    var dvVar := Sq(Times(dt, Clamp(t.accNoise, 0.0, BAD_IMU_DATA_ACC_P_NSE)));
    Inputs(s.quat.q1, s.quat.q2, s.quat.q3, s.quat.q4,
           gyro.deltaAngle.x, gyro.deltaAngle.y, gyro.deltaAngle.z, s.gyroBias.x, s.gyroBias.y, s.gyroBias.z,
           accel.deltaVelocity.x, accel.deltaVelocity.y, accel.deltaVelocity.z, s.accelBias.x, s.accelBias.y, s.accelBias.z,
           gyroVar.x, gyroVar.y, gyroVar.z, dvVar, dvVar, dvVar, dt)
  }

  /** The attitude a prediction is linearised about. */
  function AttitudeOf(x: Inputs): Quaternion { Quaternion(x.q0, x.q1, x.q2, x.q3) }

  function GyroNoise(t: Tuning, dt: real): Vector3 {
    var v := Sq(Times(dt, Clamp(t.gyrNoise, 0.0, 1.0)));
    Vector3(v, v, v)
  }

  /** One diagonal entry of `T R Tᵀ` for a diagonal `R`. */
  function WeightedSquare(a: Vector3, w: Vector3): real { Dot3(Vector3(a.x * w.x, a.y * w.y, a.z * w.z), a) }

  /** The attitude variance of a reset, rotated from earth to body axes. */
  function RotatedNoise(q: Quaternion, rot: Vector3): Vector3 {
    var t := RotationMatrix(Inverse(q));
    Vector3(WeightedSquare(t.a, rot), WeightedSquare(t.b, rot), WeightedSquare(t.c, rot))
  }

  predicate PositionCollapse(m: Mat) { At(m, 7, 7) + At(m, 8, 8) > 10000.0 }

  /** The new covariance before the limits: predicted up to the index limit, position rows held when their variance has collapsed. */
  function Propagate(c: Core, x: Inputs, d: Vec): Mat {
    var lim, next := StateIndexLim(c.inhibit), Predicted(x, Fn(c.P), d);
    Build((i, j) =>
            if i > lim || j > lim then At(c.P, i, j)
            else if PositionCollapse(c.P) && (7 <= i <= 8 || 7 <= j <= 8) then At(c.P, i, j)
            else next(i, j))
  }

  function PredictionInputs(c: Core, gyro: GyroSample, accel: AccelSample, dtEkfAvg: real): Inputs {
    var dt := PredictionDt(gyro, accel, dtEkfAvg);
    BlockInputs(c.state, c.tuning, gyro, accel, dt, GyroNoise(c.tuning, dt))
  }

  function PredictionNoise(c: Core, gyro: GyroSample, accel: AccelSample, dtEkfAvg: real): Vec {
    var dt := PredictionDt(gyro, accel, dtEkfAvg);
    ProcessNoise(c.inhibit, c.tuning, FilteredHgtRate(c.hgtRate, c.state.velocity.z, dt), dt)
  }

  /** The covariance a prediction leaves before its limits. */
  function PropagatedBy(c: Core, gyro: GyroSample, accel: AccelSample, dtEkfAvg: real): Mat {
    Propagate(c, PredictionInputs(c, gyro, accel, dtEkfAvg), PredictionNoise(c, gyro, accel, dtEkfAvg))
  }

  function CountDown(n: int): int { if n > 0 then n - 1 else n }

  function CovariancePredicted(c: Core, gyro: GyroSample, accel: AccelSample, dtEkfAvg: real): Core {
    var dt := PredictionDt(gyro, accel, dtEkfAvg);
    var next := PropagatedBy(c, gyro, accel, dtEkfAvg);
    var limited := Constrained(c.(P := next, hgtRate := FilteredHgtRate(c.hgtRate, c.state.velocity.z, dt)), dtEkfAvg);
    limited.(vertVelVarClipCounter := CountDown(limited.vertVelVarClipCounter))
  }

  /** The first four rows and columns of `next`, its variances limited, inside `m`. */
  function ResetOf(m: Mat, next: Table): Mat {
    Build((i, j) => if i > 3 || j > 3 then At(m, i, j) else if i == j then Clamp(next(i, i), 0.0, 1.0) else next(i, j))
  }

  /** The attitude-only reset: the first four rows restart from the given angle variances. */
  function AttitudeReset(c: Core, gyro: GyroSample, accel: AccelSample, dtEkfAvg: real, rot: Vector3): Core {
    var dt := PredictionDt(gyro, accel, dtEkfAvg);
    var x := BlockInputs(c.state, c.tuning, gyro, accel, dt, RotatedNoise(c.state.quat, rot));
    var m := ZeroRowsCols(c.P, 0, 3);
    var next := Predicted(x, Fn(m), i => 0.0);
    c.(P := ResetOf(m, next),
       hgtRate := FilteredHgtRate(c.hgtRate, c.state.velocity.z, dt))
  }

  const ZERO_GYRO := GyroSample(ZERO3, 0.0)
  const ZERO_ACCEL := AccelSample(ZERO3, 0.0)
  const INITIAL_ANGLE_VARIANCE := Vector3(0.01, 0.01, 0.01)

  /** Initial variance of state `i`; the attitude block is set by the reset instead. */
  function InitialVarianceOf(t: Tuning, dtEkfAvg: real, i: int): (r: real)
    ensures r >= 0.0
  {
    if i <= 5 then Sq(t.gpsHorizVelNoise)
    else if i == 6 then Sq(t.gpsVertVelNoise)
    else if i <= 8 then Sq(t.gpsHorizPosNoise)
    else if i == 9 then Sq(t.baroAltNoise)
    else if i <= 12 then GyroBiasVariance(t, dtEkfAvg)
    else if i <= 15 then AccelBiasVariance(t, dtEkfAvg)
    else if i <= 21 then Sq(t.magNoise)
    else 0.0
  }

  function ZeroMat(): Mat { Build((i, j) => 0.0) }

  function CovarianceInitialised(c: Core, dtEkfAvg: real): Core {
    var reset := AttitudeReset(c.(P := ZeroMat()), ZERO_GYRO, ZERO_ACCEL, dtEkfAvg, INITIAL_ANGLE_VARIANCE);
    reset.(P := Build((i, j) => if i == j && i >= 4 then InitialVarianceOf(c.tuning, dtEkfAvg, i) else At(reset.P, i, j)))
  }

  // ---- what prediction preserves ----

  /** Rows and columns above the index limit are zero. */
  ghost predicate RowsAboveLimitZero(c: Core) {
    forall i, j | 0 <= i < N && 0 <= j < N && i > StateIndexLim(c.inhibit) :: At(c.P, i, j) == 0.0 && At(c.P, j, i) == 0.0
  }

  lemma NoisesNonNegative(c: Core, gyro: GyroSample, accel: AccelSample, dtEkfAvg: real)
    ensures VariancesNonNegative(PredictionInputs(c, gyro, accel, dtEkfAvg))
    ensures forall i :: PredictionNoise(c, gyro, accel, dtEkfAvg)(i) >= 0.0
  {
    hide Clamp, PredictionDt, FilteredHgtRate;
    var dt := PredictionDt(gyro, accel, dtEkfAvg);
    forall i ensures PredictionNoise(c, gyro, accel, dtEkfAvg)(i) >= 0.0 {
      var noise := ProcessNoiseOf(c.inhibit, c.tuning, FilteredHgtRate(c.hgtRate, c.state.velocity.z, dt), dt, i);
    }
  }

  lemma TransitionOfZero(x: Inputs, i: int, v: Vec)
    requires 0 <= i < N && forall k | 0 <= k < N :: v(k) == 0.0
    ensures TransitionRow(x, i, v) == 0.0
  {
    hide TransitionRow, Dot;
    RowIsProduct(x, i, v);
    DotZero(N, RowOf(Jacobian(x), i), v);
  }

  /** A state past the position that is neither correlated nor disturbed. */
  ghost predicate IdleState(P: Table, d: Vec, k: int) {
    10 <= k < N && d(k) == 0.0 && forall m | 0 <= m < N :: P(k, m) == 0.0 && P(m, k) == 0.0
  }

  /** Past the position the transition is the identity, so a zero row stays zero. */
  lemma IdleStateStays(x: Inputs, P: Table, d: Vec, i: int, j: int)
    requires 0 <= i < N && 0 <= j < N && (IdleState(P, d, i) || IdleState(P, d, j))
    ensures Predicted(x, P, d)(i, j) == 0.0
  {
    hide Congruence, Jacobian, Noise;
    PropagatedIsCongruence(x, P, i, j);
    if IdleState(P, d, j) {
      TransitionOfZero(x, i, ColOf(P, j));
    } else {
      TransitionOfZero(x, j, RowOf(TransitionTimes(x, P), i));
    }
    NoiseAboveLimit(x, i, j);
  }

  lemma NoiseAboveLimit(x: Inputs, i: int, j: int)
    requires i >= 9 || j >= 9
    ensures Noise(x, i, j) == 0.0
  {}

  lemma PredictedAboveLimit(c: Core, x: Inputs, d: Vec, i: int, j: int)
    requires RowsAboveLimitZero(c) && 0 <= i < N && 0 <= j < N
    requires i > StateIndexLim(c.inhibit) || j > StateIndexLim(c.inhibit)
    requires forall k | k > StateIndexLim(c.inhibit) :: d(k) == 0.0
    ensures Predicted(x, Fn(c.P), d)(i, j) == 0.0
  {
    hide Predicted;
    IdleStateStays(x, Fn(c.P), d, i, j);
  }

  /** The copied-back covariance is the whole of F P Fᵀ + G Q Gᵀ + D when the unused rows are zero. */
  lemma PropagateIsPredicted(c: Core, x: Inputs, d: Vec)
    requires RowsAboveLimitZero(c) && !PositionCollapse(c.P)
    requires forall k | k > StateIndexLim(c.inhibit) :: d(k) == 0.0
    ensures SameTable(Fn(Propagate(c, x, d)), Predicted(x, Fn(c.P), d))
  {
    hide Predicted;
    forall i, j | 0 <= i < N && 0 <= j < N ensures Fn(Propagate(c, x, d))(i, j) == Predicted(x, Fn(c.P), d)(i, j) {
      if i > StateIndexLim(c.inhibit) || j > StateIndexLim(c.inhibit) {
        PredictedAboveLimit(c, x, d, i, j);
      }
    }
  }

  /** Prediction takes a legal covariance to a symmetric positive semidefinite one, up to the collapse guard and the limits. */
  lemma PredictionKeepsPsd(c: Core, gyro: GyroSample, accel: AccelSample, dtEkfAvg: real)
    requires Dim(c.P) && Symmetric(Fn(c.P)) && PositiveSemidefinite(Fn(c.P)) && RowsAboveLimitZero(c)
    requires !PositionCollapse(c.P)
    ensures var m := PropagatedBy(c, gyro, accel, dtEkfAvg);
      Symmetric(Fn(m)) && PositiveSemidefinite(Fn(m))
  {
    hide Predicted, Propagate;
    var x, d := PredictionInputs(c, gyro, accel, dtEkfAvg), PredictionNoise(c, gyro, accel, dtEkfAvg);
    NoisesNonNegative(c, gyro, accel, dtEkfAvg);
    PredictedPsd(x, Fn(c.P), d);
    PropagateIsPredicted(c, x, d);
    PsdCongruent(Predicted(x, Fn(c.P), d), Fn(Propagate(c, x, d)));
    SymmetricCongruent(Predicted(x, Fn(c.P), d), Fn(Propagate(c, x, d)));
  }
}
