/**
 Every public operation of the estimator core as a function from old to new estimator, each proved
 to keep the invariant.
 */
module EkfOperations {
  import opened Numeric
  import opened Geometry
  import opened LinearAlgebra
  import opened EkfModel
  import opened ScalarFusion
  import opened EkfPrediction
  import opened EkfInvariant
  import opened MagFusion
  import opened AirspeedFusion

  // ---- observation variances and gates ----

  function GpsHorizVelObsVariance(sqrt: real -> real, c: Core): (r: real)
    ensures r > 0.0
  {
    SquarePositive(Clamp(c.tuning.gpsHorizVelNoise, 0.05, 5.0));
    Sq(Clamp(c.tuning.gpsHorizVelNoise, 0.05, 5.0)) + Sq(GPS_NE_VEL_VAR_ACC_SCALE * Length(sqrt, c.velDotNedFilt))
  }

  function GpsVertVelObsVariance(sqrt: real -> real, c: Core): (r: real)
    ensures r > 0.0
  {
    SquarePositive(Clamp(c.tuning.gpsVertVelNoise, 0.05, 5.0));
    Sq(Clamp(c.tuning.gpsVertVelNoise, 0.05, 5.0)) + Sq(GPS_D_VEL_VAR_ACC_SCALE * Length(sqrt, c.velDotNedFilt))
  }

  function GpsHorizPosObsVariance(sqrt: real -> real, c: Core): (r: real)
    ensures r > 0.0
  {
    SquarePositive(Clamp(c.tuning.gpsHorizPosNoise, 0.1, 10.0));
    Sq(Clamp(c.tuning.gpsHorizPosNoise, 0.1, 10.0)) + Sq(GPS_POS_VAR_ACC_SCALE * Length(sqrt, c.velDotNedFilt))
  }

  function BaroHgtObsVariance(c: Core): (r: real)
    ensures r > 0.0
  {
    SquarePositive(Clamp(c.tuning.baroAltNoise, 0.1, 100.0));
    Sq(Clamp(c.tuning.baroAltNoise, 0.1, 100.0))
  }

  /** A gyro sample integrated over no time has no rate; the source divides by its duration. */
  function MagObsVariance(sqrt: real -> real, t: Tuning, gyro: GyroSample): (r: real)
    requires gyro.deltaAngleDt != 0.0
    ensures r > 0.0
  {
    SquarePositive(Clamp(t.magNoise, 0.01, 0.5));
    Sq(Clamp(t.magNoise, 0.01, 0.5)) + Sq(MAG_VAR_RATE_SCALE * Length(sqrt, gyro.deltaAngle) / gyro.deltaAngleDt)
  }

  function TasVariance(c: Core): (r: real)
    ensures r > 0.0
  {
    SquarePositive(Max(c.tuning.easNoise, 0.5));
    Sq(Max(c.tuning.easNoise, 0.5))
  }

  function Gate(pct: real): (r: real)
    ensures r >= 1.0
  {
    Max(0.01 * pct, 1.0)
  }

  /** Innovation power against gated variance; the observation is consistent below one. */
  function TestRatio(power: real, variance: real, gatePct: real): real
    requires variance > 0.0
  {
    SquarePositive(Gate(gatePct));
    power / (variance * Sq(Gate(gatePct)))
  }

  function GpsVelTestRatio(sqrt: real -> real, c: Core, gps: GpsSample): real
    requires Invariant(c)
  {
    var h, v := GpsHorizVelObsVariance(sqrt, c), GpsVertVelObsVariance(sqrt, c);
    TestRatio(Sq(c.state.velocity.x - gps.velocityNed.x) + Sq(c.state.velocity.y - gps.velocityNed.y) + Sq(c.state.velocity.z - gps.velocityNed.z),
              (At(c.P, 4, 4) + h) + (At(c.P, 5, 5) + h) + (At(c.P, 6, 6) + v), c.tuning.gpsVelInnovGatePct)
  }

  function GpsPosTestRatio(sqrt: real -> real, c: Core, gps: GpsSample): real
    requires Invariant(c)
  {
    var r := GpsHorizPosObsVariance(sqrt, c);
    TestRatio(Sq(c.state.position.x - gps.positionNe.x) + Sq(c.state.position.y - gps.positionNe.y),
              (At(c.P, 7, 7) + r) + (At(c.P, 8, 8) + r), c.tuning.gpsPosInnovGatePct)
  }

  function HgtTestRatio(c: Core, baroAltitude: real): real
    requires Invariant(c)
  {
    TestRatio(Sq(c.state.position.z + baroAltitude), At(c.P, 9, 9) + BaroHgtObsVariance(c), c.tuning.hgtInnovGatePct)
  }

  // ---- one direct observation ----

  lemma FusedFrame(sqrt: real -> real, c: Core, h: Vec, s: real, innovation: real, dtEkfAvg: real)
    requires Invariant(c) && s != 0.0
    ensures var r := Fused(sqrt, c, h, s, innovation, dtEkfAvg); Invariant(r) && SameSettings(r, c)
  {
    hide Updated, Symmetrised, Gain, Corrected, SetDiagonal, ZeroRowsCols, ClampDiagonal, ScanAccelBias;
    FusedKeeps(sqrt, c, h, s, innovation, dtEkfAvg);
  }

  /** Everything but the covariance, the state, the clip counter and the height rate is as it was. */
  predicate SameSettings(r: Core, c: Core) {
    r == c.(P := r.P, state := r.state, vertVelVarClipCounter := r.vertVelVarClipCounter, hgtRate := r.hgtRate)
  }

  lemma ObservedPositive(c: Core, si: int, r: real)
    requires Invariant(c) && 0 <= si < N && r > 0.0
    ensures At(c.P, si, si) + r > 0.0 && SameSettings(c, c)
  {}

  /** `fuse_direct_state_observation`: the guarded update, or nothing. */
  function FuseDirect(sqrt: real -> real, c: Core, si: int, innovation: real, r: real, dtEkfAvg: real): (result: (Core, bool))
    requires Invariant(c) && 0 <= si < N && r > 0.0
    ensures Invariant(result.0) && SameSettings(result.0, c)
  {
    hide *;
    ObservedPositive(c, si, r);
    var s := At(c.P, si, si) + r;
    FusedFrame(sqrt, c, Unit(si), s, innovation, dtEkfAvg);
    if Healthy(c, Unit(si), s) then (Fused(sqrt, c, Unit(si), s, innovation, dtEkfAvg), true) else (c, false)
  }

  // ---- resets ----

  /** Two covariance rows restarted with one variance. */
  function RowsReset(m: Mat, first: int, last: int, v: real): Mat { SetDiagonal(ZeroRowsCols(m, first, last), first, last, v) }

  lemma RowsResetKeeps(m: Mat, first: int, last: int, v: real)
    requires SymmetricMat(m) && VariancesBelow(m, N) && 0 <= first <= last < N && v >= 0.0
    ensures SymmetricMat(RowsReset(m, first, last, v)) && VariancesBelow(RowsReset(m, first, last, v), N)
  {
    ZeroKeeps(m, first, last);
    SetKeeps(ZeroRowsCols(m, first, last), first, last, v);
  }

  function ResetVelocity(c: Core, gps: GpsSample, now: real): (r: Core)
    requires Invariant(c)
    ensures Invariant(r)
  {
    RowsResetKeeps(c.P, 4, 5, Sq(c.tuning.gpsHorizVelNoise));
    c.(P := RowsReset(c.P, 4, 5, Sq(c.tuning.gpsHorizVelNoise)),
       state := c.state.(velocity := Vector3(gps.velocityNed.x, gps.velocityNed.y, c.state.velocity.z)),
       lastVelPassTimeS := now)
  }

  function ResetPosition(c: Core, gps: GpsSample, now: real): (r: Core)
    requires Invariant(c)
    ensures Invariant(r)
  {
    RowsResetKeeps(c.P, 7, 8, Sq(c.tuning.gpsHorizPosNoise));
    c.(P := RowsReset(c.P, 7, 8, Sq(c.tuning.gpsHorizPosNoise)),
       state := c.state.(position := Vector3(gps.positionNe.x, gps.positionNe.y, c.state.position.z)),
       lastPosPassTimeS := now)
  }

  function ResetHeight(c: Core, baroAltitude: real, now: real): (r: Core)
    requires Invariant(c)
    ensures Invariant(r)
  {
    RowsResetKeeps(c.P, 9, 9, BaroHgtObsVariance(c));
    c.(P := RowsReset(c.P, 9, 9, BaroHgtObsVariance(c)),
       state := c.state.(position := Vector3(c.state.position.x, c.state.position.y, -baroAltitude)),
       lastHgtPassTimeS := now)
  }

  // ---- GPS and barometer ----

  function Count(b: bool): nat { if b then 1 else 0 }

  function FuseGpsVelocity(sqrt: real -> real, c: Core, gps: GpsSample, dtEkfAvg: real, now: real): (result: (Core, int))
    requires Invariant(c)
    ensures Invariant(result.0)
  {
    if GpsVelTestRatio(sqrt, c, gps) >= 1.0 then
      (if now - c.lastVelPassTimeS >= GPS_FUSION_TIMEOUT_S then ResetVelocity(c, gps, now) else c, 0)
    else
      var h, v := GpsHorizVelObsVariance(sqrt, c), GpsVertVelObsVariance(sqrt, c);
      var a := FuseDirect(sqrt, c, 4, c.state.velocity.x - gps.velocityNed.x, h, dtEkfAvg);
      var b := FuseDirect(sqrt, a.0, 5, a.0.state.velocity.y - gps.velocityNed.y, h, dtEkfAvg);
      var d := FuseDirect(sqrt, b.0, 6, b.0.state.velocity.z - gps.velocityNed.z, v, dtEkfAvg);
      var n := Count(a.1) + Count(b.1) + Count(d.1);
      (if n > 0 then d.0.(lastVelPassTimeS := now) else d.0, n)
  }

  function FuseGpsPosition(sqrt: real -> real, c: Core, gps: GpsSample, dtEkfAvg: real, now: real): (result: (Core, int))
    requires Invariant(c)
    ensures Invariant(result.0)
  {
    if GpsPosTestRatio(sqrt, c, gps) >= 1.0 then
      (if now - c.lastPosPassTimeS >= GPS_FUSION_TIMEOUT_S then ResetPosition(c, gps, now) else c, 0)
    else
      var r := GpsHorizPosObsVariance(sqrt, c);
      var a := FuseDirect(sqrt, c, 7, c.state.position.x - gps.positionNe.x, r, dtEkfAvg);
      var b := FuseDirect(sqrt, a.0, 8, a.0.state.position.y - gps.positionNe.y, r, dtEkfAvg);
      var n := Count(a.1) + Count(b.1);
      (if n > 0 then b.0.(lastPosPassTimeS := now) else b.0, n)
  }

  function FuseBaroHeight(sqrt: real -> real, c: Core, baroAltitude: real, dtEkfAvg: real, now: real): (result: (Core, bool))
    requires Invariant(c)
    ensures Invariant(result.0)
  {
    if HgtTestRatio(c, baroAltitude) >= 1.0 then
      (if now - c.lastHgtPassTimeS >= BARO_FUSION_TIMEOUT_S then ResetHeight(c, baroAltitude, now) else c, false)
    else
      var a := FuseDirect(sqrt, c, 9, c.state.position.z + baroAltitude, BaroHgtObsVariance(c), dtEkfAvg);
      (if a.1 then a.0.(lastHgtPassTimeS := now) else a.0, a.1)
  }

  // ---- magnetometer ----

  /** What `fuse_magnetometer` computes on entry and uses for all three axes. */
  datatype MagEntry = MagEntry(g: MagGeometry, variance: Vector3, innovation: Vector3)

  predicate UsableEntry(m: MagEntry) { m.variance.x > 0.0 && m.variance.y > 0.0 && m.variance.z > 0.0 }

  function MagRowOf(g: MagGeometry, axis: int): (h: MagRow)
    ensures ValidUnit(h)
  {
    if axis == 0 then RowX(g) else if axis == 1 then RowY(g) else RowZ(g)
  }

  function Axis(v: Vector3, axis: int): real { if axis == 0 then v.x else if axis == 1 then v.y else v.z }

  lemma AxisPositive(m: MagEntry, axis: int)
    requires UsableEntry(m)
    ensures Axis(m.variance, axis) > 0.0
  {}

  /** A covariance found badly conditioned: start over. */
  function Abort(c: Core, dtEkfAvg: real): (result: (Core, bool))
    requires Invariant(c)
    ensures Invariant(result.0)
  {
    InitialisedKeeps(c, dtEkfAvg);
    (CovarianceInitialised(c, dtEkfAvg), false)
  }

  /** One axis update; an unhealthy one reinitialises the covariance instead. */
  function MagAxis(sqrt: real -> real, c: Core, m: MagEntry, axis: int, dtEkfAvg: real): (result: (Core, bool))
    requires Invariant(c) && UsableEntry(m)
    ensures Invariant(result.0)
  {
    hide *;
    AxisPositive(m, axis);
    var h, s := Dense(MagRowOf(m.g, axis)), Axis(m.variance, axis);
    FusedFrame(sqrt, c, h, s, Axis(m.innovation, axis), dtEkfAvg);
    if Healthy(c, h, s) then (Fused(sqrt, c, h, s, Axis(m.innovation, axis), dtEkfAvg), true) else Abort(c, dtEkfAvg)
  }

  lemma MagAxisCases(sqrt: real -> real, c: Core, m: MagEntry, axis: int, dtEkfAvg: real)
    requires Invariant(c) && UsableEntry(m)
    ensures Axis(m.variance, axis) > 0.0 && 0 <= c.vertVelVarClipCounter <= VERT_VEL_VAR_CLIP_COUNT_LIM
    ensures var h, s := Dense(MagRowOf(m.g, axis)), Axis(m.variance, axis);
      MagAxis(sqrt, c, m, axis, dtEkfAvg)
      == if Healthy(c, h, s) then (Fused(sqrt, c, h, s, Axis(m.innovation, axis), dtEkfAvg), true) else (CovarianceInitialised(c, dtEkfAvg), false)
  {
    hide Fused, Healthy, SymmetricMat, VariancesBelow, CovarianceInitialised, MagRowOf, Dense;
  }

  /** The axis updates from `axis` on, stopping at the first that aborts. */
  function MagAxes(sqrt: real -> real, c: Core, m: MagEntry, axis: int, dtEkfAvg: real): (result: (Core, bool))
    requires Invariant(c) && UsableEntry(m) && 0 <= axis <= 3
    ensures Invariant(result.0)
    decreases 3 - axis
  {
    if axis == 3 then (c, true)
    else
      var a := MagAxis(sqrt, c, m, axis, dtEkfAvg);
      if a.1 then MagAxes(sqrt, a.0, m, axis + 1, dtEkfAvg) else a
  }

  function MagInnovation(s: StateVector, mag: Vector3): Vector3 {
    var v := Flat(s);
    Vector3(PredX(v) - mag.x, PredY(v) - mag.y, PredZ(v) - mag.z)
  }

  function MagGeometryOf(s: StateVector): MagGeometry {
    MagGeometry(s.quat.q1, s.quat.q2, s.quat.q3, s.quat.q4, s.earthMagfield.x, s.earthMagfield.y, s.earthMagfield.z)
  }

  /** All three axes are within their gate. */
  predicate MagHealth(innov: Vector3, variance: Vector3, gatePct: real)
    requires variance.x > 0.0 && variance.y > 0.0 && variance.z > 0.0
  {
    && TestRatio(Sq(innov.x), variance.x, gatePct) < 1.0
    && TestRatio(Sq(innov.y), variance.y, gatePct) < 1.0
    && TestRatio(Sq(innov.z), variance.z, gatePct) < 1.0
  }

  function FuseMagnetometer(sqrt: real -> real, c: Core, mag: Vector3, gyro: GyroSample, dtEkfAvg: real): (result: (Core, bool))
    requires Invariant(c) && gyro.deltaAngleDt != 0.0
    ensures Invariant(result.0)
  {
    var r, g, p := MagObsVariance(sqrt, c.tuning, gyro), MagGeometryOf(c.state), Fn(c.P);
    var cx := c.(innovMag := MagInnovation(c.state, mag), varInnovMag := c.varInnovMag.(x := VarInnovX(g, p, r)));
    if cx.varInnovMag.x < r then Abort(cx, dtEkfAvg)
    else
      var cy := cx.(varInnovMag := cx.varInnovMag.(y := VarInnovY(g, p, r)));
      if cy.varInnovMag.y < r then Abort(cy, dtEkfAvg)
      else
        var cz := cy.(varInnovMag := cy.varInnovMag.(z := VarInnovZ(g, p, r)));
        if cz.varInnovMag.z < r then Abort(cz, dtEkfAvg)
        else if !MagHealth(cz.innovMag, cz.varInnovMag, cz.tuning.magInnovGatePct) then (cz, false)
        else MagAxes(sqrt, cz, MagEntry(g, cz.varInnovMag, cz.innovMag), 0, dtEkfAvg)
  }

  // ---- airspeed ----

  function PredictedAirspeed(sqrt: real -> real, s: StateVector): real {
    Length(sqrt, Vector3(s.velocity.y - s.windVel.y, s.velocity.x - s.windVel.x, s.velocity.z))
  }

  function TasGeometryOf(s: StateVector, vtasPred: real): TasGeometry
    requires vtasPred != 0.0
  {
    SharedTerms(s.velocity.x, s.velocity.y, s.velocity.z, s.windVel.x, s.windVel.y, vtasPred)
  }

  /** The airspeed update proper: no guard, and the state is corrected before the limits. */
  function TasUpdated(sqrt: real -> real, c: Core, h: Vec, s: real): Core
    requires s != 0.0
  {
    c.(P := Updated(c, h, s), state := Corrected(sqrt, c.state, Delta(Gain(c, h, s), c.innovVtas)))
  }

  /** Symmetrise and limit, with or without an update before. */
  function Settled(c: Core, dtEkfAvg: real): Core {
    Constrained(c.(P := Symmetrised(c.P, StateIndexLim(c.inhibit))), dtEkfAvg)
  }

  lemma SettledKeeps(sqrt: real -> real, c: Core, h: Vec, s: real, dtEkfAvg: real)
    requires Invariant(c) && s != 0.0
    ensures Invariant(Settled(TasUpdated(sqrt, c, h, s), dtEkfAvg)) && Invariant(Settled(c, dtEkfAvg))
  {
    hide Constrained, Updated, Gain, Corrected, Symmetrised;
    UpdatedSymmetrises(c, h, s);
    var u, lim := TasUpdated(sqrt, c, h, s), StateIndexLim(c.inhibit);
    ConstrainedKeeps(u.(P := Symmetrised(u.P, lim)), dtEkfAvg);
    SymmetrisedIdle(c.P, lim);
    ConstrainedKeeps(c.(P := Symmetrised(c.P, lim)), dtEkfAvg);
  }

  /** The end of `fuse_airspeed`: an inconsistent measurement skips the update, never the limits. */
  function TasOutcome(sqrt: real -> real, c: Core, h: Vec, s: real, dtEkfAvg: real): (result: (Core, bool))
    requires Invariant(c) && s > 0.0
    ensures Invariant(result.0)
  {
    hide *;
    SettledKeeps(sqrt, c, h, s, dtEkfAvg);
    if TestRatio(Sq(c.innovVtas), s, c.tuning.tasInnovGatePct) < 1.0 then (Settled(TasUpdated(sqrt, c, h, s), dtEkfAvg), true)
    else (Settled(c, dtEkfAvg), false)
  }

  function FuseAirspeed(sqrt: real -> real, c: Core, trueAirspeed: real, dtEkfAvg: real): (result: (Core, bool))
    requires Invariant(c)
    ensures Invariant(result.0)
  {
    var pred := PredictedAirspeed(sqrt, c.state);
    if !(pred > 1.0) then (c, false)
    else
      var g, r := TasGeometryOf(c.state, pred), TasVariance(c);
      var s := VarInnovTas(g, Fn(c.P), r);
      var c1 := c.(innovVtas := pred - trueAirspeed);
      if s < r then Abort(c1, dtEkfAvg) else TasOutcome(sqrt, c1.(varInnovVtas := s), DenseTas(g), s, dtEkfAvg)
  }
}
