/**
 The estimator's data and, for every operation of `EkfCore`, the function from old to new
 estimator that the operation's loops are proved to compute.
 */
module EkfModel {
  import opened Numeric
  import opened Geometry
  import opened LinearAlgebra

  const VEL_STATE_MIN_VARIANCE: real := 0.0001
  const POS_STATE_MIN_VARIANCE: real := 0.0001
  const MIN_SAFE_STATE_VAR: real := 0.000000005
  const ACCEL_BIAS_LIM_SCALER: real := 0.2
  const BAD_IMU_DATA_ACC_P_NSE: real := 5.0
  const EKF_TARGET_RATE_HZ: int := 83
  const VERT_VEL_VAR_CLIP_COUNT_LIM: int := 5 * EKF_TARGET_RATE_HZ
  const GPS_NE_VEL_VAR_ACC_SCALE: real := 0.05
  const GPS_D_VEL_VAR_ACC_SCALE: real := 0.07
  const GPS_POS_VAR_ACC_SCALE: real := 0.05
  const GPS_FUSION_TIMEOUT_S: real := 10.0
  const BARO_FUSION_TIMEOUT_S: real := 10.0
  const MAG_VAR_RATE_SCALE: real := 0.005
  const WIND_VEL_VARIANCE_MAX: real := 400.0
  const RADIANS_PER_DEGREE: real := 0.017453292519943295

  // ---- data ----

  datatype Vector2 = Vector2(x: real, y: real)

  datatype GyroSample = GyroSample(deltaAngle: Vector3, deltaAngleDt: real)

  datatype AccelSample = AccelSample(deltaVelocity: Vector3, deltaVelocityDt: real)

  datatype GpsSample = GpsSample(velocityNed: Vector3, positionNe: Vector2)

  datatype StateVector = StateVector(
    quat: Quaternion, velocity: Vector3, position: Vector3, gyroBias: Vector3, accelBias: Vector3,
    earthMagfield: Vector3, bodyMagfield: Vector3, windVel: Vector2)

  datatype Inhibit = Inhibit(delAngBias: bool, delVelBias: bool, mag: bool, wind: bool)

  datatype Tuning = Tuning(
    gyrNoise: real, accNoise: real, gyroBiasProcessNoise: real, accelBiasProcessNoise: real,
    gpsHorizVelNoise: real, gpsVertVelNoise: real, gpsHorizPosNoise: real, baroAltNoise: real,
    magNoise: real, accBiasLim: real, magEarthProcessNoise: real, magBodyProcessNoise: real,
    windVelProcessNoise: real, windVarHgtRateScale: real, initialGyroBiasUncertaintyDegS: real,
    gpsVelInnovGatePct: real, gpsPosInnovGatePct: real, magInnovGatePct: real, hgtInnovGatePct: real,
    easNoise: real, tasInnovGatePct: real)

  type Mat = seq<seq<real>>

  datatype Core = Core(
    P: Mat, state: StateVector, inhibit: Inhibit, tuning: Tuning, velDotNedFilt: Vector3,
    hgtRate: real, vertVelVarClipCounter: int,
    lastVelPassTimeS: real, lastPosPassTimeS: real, lastHgtPassTimeS: real,
    innovMag: Vector3, varInnovMag: Vector3, innovVtas: real, varInnovVtas: real)

  // ---- matrices ----

  predicate Dim(m: Mat) { |m| == N && forall i | 0 <= i < N :: |m[i]| == N }

  function At(m: Mat, i: int, j: int): real {
    if 0 <= i < |m| && 0 <= j < |m[i]| then m[i][j] else 0.0
  }

  /** The matrix as a table, zero outside its bounds. */
  function Fn(m: Mat): Table { (i, j) => At(m, i, j) }

  function Build(f: Table): (m: Mat)
    ensures Dim(m)
    ensures forall i, j | 0 <= i < N && 0 <= j < N :: At(m, i, j) == f(i, j)
  {
    seq(N, i => seq(N, j => f(i, j)))
  }

  lemma SameMat(a: Mat, b: Mat)
    requires Dim(a) && Dim(b)
    requires forall i, j | 0 <= i < N && 0 <= j < N :: At(a, i, j) == At(b, i, j)
    ensures a == b
  {
    forall i | 0 <= i < N ensures a[i] == b[i] {
      forall j | 0 <= j < N ensures a[i][j] == b[i][j] {
        assert At(a, i, j) == At(b, i, j);
      }
    }
  }

  predicate Within(i: int, first: int, last: int) { first <= i <= last }

  function ZeroRowsCols(m: Mat, first: int, last: int): Mat {
    Build((i, j) => if Within(i, first, last) || Within(j, first, last) then 0.0 else At(m, i, j))
  }

  function SetDiagonal(m: Mat, first: int, last: int, v: real): Mat {
    Build((i, j) => if i == j && Within(i, first, last) then v else At(m, i, j))
  }

  function ClampDiagonal(m: Mat, first: int, last: int, lo: real, hi: real): Mat {
    Build((i, j) => if i == j && Within(i, first, last) then Clamp(At(m, i, j), lo, hi) else At(m, i, j))
  }

  function Symmetrised(m: Mat, lim: int): Mat {
    Build((i, j) => if i <= lim && j <= lim && i != j then 0.5 * (At(m, i, j) + At(m, j, i)) else At(m, i, j))
  }

  // ---- the index limit and the gain mask ----

  function StateIndexLim(h: Inhibit): int {
    if h.wind then
      if h.mag then
        if h.delVelBias then (if h.delAngBias then 9 else 12) else 15
      else 21
    else 23
  }

  predicate Active(h: Inhibit, i: int) {
    || 0 <= i <= 9
    || (10 <= i <= 12 && !h.delAngBias)
    || (13 <= i <= 15 && !h.delVelBias)
    || (16 <= i <= 21 && !h.mag)
    || (22 <= i <= 23 && !h.wind)
  }

  // ---- variance limits ----

  function VerticalGuard(c: Core): Core {
    if At(c.P, 6, 6) < VEL_STATE_MIN_VARIANCE then
      var raised := SetDiagonal(c.P, 6, 6, VEL_STATE_MIN_VARIANCE);
      var count := c.vertVelVarClipCounter + EKF_TARGET_RATE_HZ;
      if count > VERT_VEL_VAR_CLIP_COUNT_LIM then
        c.(P := SetDiagonal(ZeroRowsCols(raised, 6, 6), 6, 6, Sq(c.tuning.gpsVertVelNoise)), vertVelVarClipCounter := 0)
      else
        c.(P := raised, vertVelVarClipCounter := count)
    else c
  }

  /** One step of the scan for the largest accel bias variance; a value that raises the maximum is never tested for being too small. */
  function ScanStep(v: real, scan: (real, bool)): (real, bool) {
    if v > scan.0 then (v, scan.1) else if v < MIN_SAFE_STATE_VAR then (scan.0, true) else scan
  }

  function ScanAccelBias(m: Mat, last: int): (real, bool)
    decreases last
  {
    if last < 13 then (0.0, false) else ScanStep(At(m, last, last), ScanAccelBias(m, last - 1))
  }

  /** The variance an accel bias state restarts from. */
  function AccelBiasVariance(t: Tuning, dtEkfAvg: real): (r: real)
    ensures r >= 0.0
  {
    Sq(ACCEL_BIAS_LIM_SCALER * t.accBiasLim * dtEkfAvg)
  }

  /** The variance a gyro bias state starts from. */
  function GyroBiasVariance(t: Tuning, dtEkfAvg: real): (r: real)
    ensures r >= 0.0
  {
    Sq(Times(Times(t.initialGyroBiasUncertaintyDegS, dtEkfAvg), RADIANS_PER_DEGREE))
  }

  function AccelBiasLimited(m: Mat, dtEkfAvg: real): Mat {
    ClampDiagonal(m, 13, 15, Max(0.01 * ScanAccelBias(m, 15).0, MIN_SAFE_STATE_VAR), Sq(10.0 * dtEkfAvg))
  }

  function AccelBiasGuard(c: Core, dtEkfAvg: real): Core {
    var limited := AccelBiasLimited(c.P, dtEkfAvg);
    if ScanAccelBias(c.P, 15).1 then
      c.(P := SetDiagonal(ZeroRowsCols(limited, 13, 15), 13, 15, AccelBiasVariance(c.tuning, dtEkfAvg)),
         state := c.state.(accelBias := ZERO3))
    else c.(P := limited)
  }

  function Constrained(c: Core, dtEkfAvg: real): Core {
    var c1 := VerticalGuard(c.(P := ClampDiagonal(ClampDiagonal(c.P, 0, 3, 0.0, 1.0), 4, 5, VEL_STATE_MIN_VARIANCE, 1000.0)));
    var c2 := c1.(P := ClampDiagonal(ClampDiagonal(c1.P, 7, 9, POS_STATE_MIN_VARIANCE, 1000000.0), 10, 12, 0.0, Sq(0.175 * dtEkfAvg)));
    var c3 := AccelBiasGuard(c2, dtEkfAvg);
    var c4 := c3.(P := if c.inhibit.mag then ZeroRowsCols(c3.P, 16, 21)
                       else ClampDiagonal(ClampDiagonal(c3.P, 16, 18, 0.0, 0.01), 19, 21, 0.0, 0.01));
    c4.(P := if c.inhibit.wind then ZeroRowsCols(c4.P, 22, 23) else ClampDiagonal(c4.P, 22, 23, 0.0, WIND_VEL_VARIANCE_MAX))
  }

  // ---- the Kalman update every fusion performs ----

  /** Gain for measurement row `h` and innovation variance `s`, zero on inhibited states. */
  function Gain(c: Core, h: Vec, s: real): Vec
    requires s != 0.0
  {
    i => if Active(c.inhibit, i) then Apply(Fn(c.P), h)(i) / s else 0.0
  }

  /** `P - K h P`, restricted to the states in use. */
  function Updated(c: Core, h: Vec, s: real): Mat
    requires s != 0.0
  {
    var k, hp, lim := Gain(c, h, s), ApplyT(Fn(c.P), h), StateIndexLim(c.inhibit);
    Build((i, j) => if i <= lim && j <= lim then At(c.P, i, j) - Times(k(i), hp(j)) else At(c.P, i, j))
  }

  /** No variance would be driven negative. */
  predicate Healthy(c: Core, h: Vec, s: real)
    requires s != 0.0
  {
    var k, hp := Gain(c, h, s), ApplyT(Fn(c.P), h);
    forall i | 0 <= i <= StateIndexLim(c.inhibit) :: Times(k(i), hp(i)) <= At(c.P, i, i)
  }

  /** `delta[i] = kfusion[i] * innovation` */
  function Delta(k: Vec, innovation: real): Vec { i => Times(k(i), innovation) }

  function Corrected(sqrt: real -> real, s: StateVector, d: Vec): StateVector {
    StateVector(
      Normalized(sqrt, Quaternion(s.quat.q1 - d(0), s.quat.q2 - d(1), s.quat.q3 - d(2), s.quat.q4 - d(3))),
      Vector3(s.velocity.x - d(4), s.velocity.y - d(5), s.velocity.z - d(6)),
      Vector3(s.position.x - d(7), s.position.y - d(8), s.position.z - d(9)),
      Vector3(s.gyroBias.x - d(10), s.gyroBias.y - d(11), s.gyroBias.z - d(12)),
      Vector3(s.accelBias.x - d(13), s.accelBias.y - d(14), s.accelBias.z - d(15)),
      Vector3(s.earthMagfield.x - d(16), s.earthMagfield.y - d(17), s.earthMagfield.z - d(18)),
      Vector3(s.bodyMagfield.x - d(19), s.bodyMagfield.y - d(20), s.bodyMagfield.z - d(21)),
      Vector2(s.windVel.x - d(22), s.windVel.y - d(23)))
  }

  /** The correction reads 24 entries of its argument, and nothing else. */
  lemma CorrectedCongruent(sqrt: real -> real, s: StateVector, d: Vec, d': Vec)
    requires forall i | 0 <= i < N :: d(i) == d'(i)
    ensures Corrected(sqrt, s, d) == Corrected(sqrt, s, d')
  {
    hide Normalized;
  }

  /** The guarded update of the direct and magnetometer fusions: update, symmetrise, limit, then correct the state. */
  function Fused(sqrt: real -> real, c: Core, h: Vec, s: real, innovation: real, dtEkfAvg: real): Core
    requires s != 0.0
  {
    var limited := Constrained(c.(P := Symmetrised(Updated(c, h, s), StateIndexLim(c.inhibit))), dtEkfAvg);
    limited.(state := Corrected(sqrt, limited.state, Delta(Gain(c, h, s), innovation)))
  }

  /** The 24 slots of the state in covariance order. */
  function Flat(s: StateVector): Vec {
    i =>
      if i == 0 then s.quat.q1 else if i == 1 then s.quat.q2 else if i == 2 then s.quat.q3 else if i == 3 then s.quat.q4
      else if i == 4 then s.velocity.x else if i == 5 then s.velocity.y else if i == 6 then s.velocity.z
      else if i == 7 then s.position.x else if i == 8 then s.position.y else if i == 9 then s.position.z
      else if i == 10 then s.gyroBias.x else if i == 11 then s.gyroBias.y else if i == 12 then s.gyroBias.z
      else if i == 13 then s.accelBias.x else if i == 14 then s.accelBias.y else if i == 15 then s.accelBias.z
      else if i == 16 then s.earthMagfield.x else if i == 17 then s.earthMagfield.y else if i == 18 then s.earthMagfield.z
      else if i == 19 then s.bodyMagfield.x else if i == 20 then s.bodyMagfield.y else if i == 21 then s.bodyMagfield.z
      else if i == 22 then s.windVel.x else if i == 23 then s.windVel.y else 0.0
  }
}
