/**
 Whole runs of the estimator: the invariant holds in every reachable state, whatever the calls, and
 no fusion moves an inhibited state except by restarting the accelerometer bias.
 */
module EkfRuns {
  import opened Numeric
  import opened Geometry
  import opened LinearAlgebra
  import opened EkfModel
  import opened ScalarFusion
  import opened EkfPrediction
  import opened EkfInvariant
  import opened EkfOperations
  import opened MagFusion
  import opened AirspeedFusion

  datatype Call =
    | Initialise
    | Predict(imuGyro: GyroSample, imuAccel: AccelSample)
    | GpsVelocity(velocityFix: GpsSample, velocityTime: real)
    | GpsPosition(positionFix: GpsSample, positionTime: real)
    | BaroHeight(altitude: real, heightTime: real)
    | Magnetometer(field: Vector3, magGyro: GyroSample)
    | Airspeed(trueAirspeed: real)
    | VelocityReset(velocityFix: GpsSample, velocityTime: real)
    | PositionReset(positionFix: GpsSample, positionTime: real)
    | HeightReset(altitude: real, heightTime: real)
      // anything else that happens between the calls: the strapdown step, new settings, changed flags
    | Elsewhere(newState: StateVector, newInhibit: Inhibit, newTuning: Tuning, newVelDotNedFilt: Vector3)

  predicate Callable(call: Call) { call.Magnetometer? ==> call.magGyro.deltaAngleDt != 0.0 }

  function Step(sqrt: real -> real, c: Core, call: Call, dtEkfAvg: real): (r: Core)
    requires Invariant(c) && Callable(call)
    ensures Invariant(r)
  {
    InitialisedKeeps(c, dtEkfAvg);
    match call
    case Initialise => CovarianceInitialised(c, dtEkfAvg)
    case Predict(gyro, accel) => PredictionKeeps(c, gyro, accel, dtEkfAvg); CovariancePredicted(c, gyro, accel, dtEkfAvg)
    case GpsVelocity(gps, now) => FuseGpsVelocity(sqrt, c, gps, dtEkfAvg, now).0
    case GpsPosition(gps, now) => FuseGpsPosition(sqrt, c, gps, dtEkfAvg, now).0
    case BaroHeight(altitude, now) => FuseBaroHeight(sqrt, c, altitude, dtEkfAvg, now).0
    case Magnetometer(field, gyro) => FuseMagnetometer(sqrt, c, field, gyro, dtEkfAvg).0
    case Airspeed(tas) => FuseAirspeed(sqrt, c, tas, dtEkfAvg).0
    case VelocityReset(gps, now) => ResetVelocity(c, gps, now)
    case PositionReset(gps, now) => ResetPosition(c, gps, now)
    case HeightReset(altitude, now) => ResetHeight(c, altitude, now)
    case Elsewhere(state, inhibit, tuning, velDot) => c.(state := state, inhibit := inhibit, tuning := tuning, velDotNedFilt := velDot)
  }

  /** The estimator after each call of a run, the start first. */
  function Run(sqrt: real -> real, c: Core, calls: seq<(Call, real)>): (states: seq<Core>)
    requires Invariant(c) && forall k | 0 <= k < |calls| :: Callable(calls[k].0)
    ensures |states| == |calls| + 1
    decreases |calls|
  {
    if calls == [] then [c] else [c] + Run(sqrt, Step(sqrt, c, calls[0].0, calls[0].1), calls[1..])
  }

  /** In every state of every run the covariance is symmetric with no negative variance. */
  lemma {:induction false} RunKeepsInvariant(sqrt: real -> real, c: Core, calls: seq<(Call, real)>, k: int)
    requires Invariant(c) && forall k | 0 <= k < |calls| :: Callable(calls[k].0)
    requires 0 <= k <= |calls|
    ensures Invariant(Run(sqrt, c, calls)[k])
    decreases |calls|
  {
    hide Step, Invariant;
    if k > 0 {
      RunKeepsInvariant(sqrt, Step(sqrt, c, calls[0].0, calls[0].1), calls[1..], k - 1);
    }
  }

  // ---- inhibited states ----

  /** The correction over the states in use only. */
  function BoundedCorrection(sqrt: real -> real, s: StateVector, d: Vec, lim: int): StateVector {
    Corrected(sqrt, s, i => if i <= lim then d(i) else 0.0)
  }

  /** Correcting all 24 slots is correcting those up to the index limit. */
  lemma CorrectionBounded(sqrt: real -> real, c: Core, h: Vec, s: real, innovation: real)
    requires s != 0.0
    ensures var d := Delta(Gain(c, h, s), innovation);
      BoundedCorrection(sqrt, c.state, d, StateIndexLim(c.inhibit)) == Corrected(sqrt, c.state, d)
  {
    hide Gain, Normalized;
    var d, lim := Delta(Gain(c, h, s), innovation), StateIndexLim(c.inhibit);
    forall i | i > lim ensures d(i) == 0.0 {
      GainAboveLimit(c, h, s, i);
    }
  }

  /** The scan for the largest accel bias variance reads three diagonal entries. */
  lemma {:induction false} ScanCongruent(a: Mat, b: Mat, last: int)
    requires forall i | 13 <= i <= last :: At(a, i, i) == At(b, i, i)
    ensures ScanAccelBias(a, last) == ScanAccelBias(b, last)
    decreases last
  {
    if last >= 13 {
      ScanCongruent(a, b, last - 1);
    }
  }

  /** The limits that come before the accel bias ones do not reach its variances. */
  function BeforeAccelBias(c: Core, dtEkfAvg: real): Core {
    var c1 := VerticalGuard(c.(P := ClampDiagonal(ClampDiagonal(c.P, 0, 3, 0.0, 1.0), 4, 5, VEL_STATE_MIN_VARIANCE, 1000.0)));
    c1.(P := ClampDiagonal(ClampDiagonal(c1.P, 7, 9, POS_STATE_MIN_VARIANCE, 1000000.0), 10, 12, 0.0, Sq(0.175 * dtEkfAvg)))
  }

  lemma AccelBiasVariancesReach(c: Core, dtEkfAvg: real, i: int)
    requires 13 <= i <= 15
    ensures At(BeforeAccelBias(c, dtEkfAvg).P, i, i) == At(c.P, i, i)
    ensures BeforeAccelBias(c, dtEkfAvg).state == c.state
  {
    hide Clamp, Sq, ClampDiagonal, VerticalGuard;
    var m0 := ClampDiagonal(c.P, 0, 3, 0.0, 1.0);
    ClampElsewhere(c.P, 0, 3, 0.0, 1.0, i);
    ClampElsewhere(m0, 4, 5, VEL_STATE_MIN_VARIANCE, 1000.0, i);
    var c0 := c.(P := ClampDiagonal(m0, 4, 5, VEL_STATE_MIN_VARIANCE, 1000.0));
    VerticalElsewhere(c0, i);
    var m1 := VerticalGuard(c0).P;
    ClampElsewhere(m1, 7, 9, POS_STATE_MIN_VARIANCE, 1000000.0, i);
    ClampElsewhere(ClampDiagonal(m1, 7, 9, POS_STATE_MIN_VARIANCE, 1000000.0), 10, 12, 0.0, Sq(0.175 * dtEkfAvg), i);
  }

  lemma ClampElsewhere(m: Mat, first: int, last: int, lo: real, hi: real, i: int)
    requires 0 <= i < N && (i < first || i > last)
    ensures At(ClampDiagonal(m, first, last, lo, hi), i, i) == At(m, i, i)
  {
    hide Clamp;
  }

  lemma VerticalElsewhere(c: Core, i: int)
    requires 7 <= i < N
    ensures At(VerticalGuard(c).P, i, i) == At(c.P, i, i) && VerticalGuard(c).state == c.state
  {
    hide Sq;
  }

  /** The scan for the largest accel bias variance sees the variances the limits started from. */
  lemma SameScan(c: Core, dtEkfAvg: real)
    ensures ScanAccelBias(BeforeAccelBias(c, dtEkfAvg).P, 15) == ScanAccelBias(c.P, 15)
    ensures BeforeAccelBias(c, dtEkfAvg).state == c.state
  {
    hide BeforeAccelBias;
    forall i | 13 <= i <= 15 ensures At(BeforeAccelBias(c, dtEkfAvg).P, i, i) == At(c.P, i, i) {
      AccelBiasVariancesReach(c, dtEkfAvg, i);
    }
    ScanCongruent(BeforeAccelBias(c, dtEkfAvg).P, c.P, 15);
    AccelBiasVariancesReach(c, dtEkfAvg, 13);
  }

  /** The variance limits touch the state only by zeroing the accel bias, exactly when the scan of its variances asks for a restart. */
  lemma LimitsAndState(c: Core, dtEkfAvg: real)
    ensures Constrained(c, dtEkfAvg).state == if ScanAccelBias(c.P, 15).1 then c.state.(accelBias := ZERO3) else c.state
    ensures Constrained(c, dtEkfAvg).inhibit == c.inhibit
  {
    hide ClampDiagonal, ZeroRowsCols, SetDiagonal, Sq, ScanAccelBias, AccelBiasLimited;
    SameScan(c, dtEkfAvg);
  }

  /** The update leaves the variances of an inhibited accel bias alone, and its correction there is zero. */
  lemma InhibitedAccelBiasUpdate(c: Core, h: Vec, s: real, innovation: real, i: int)
    requires s != 0.0 && c.inhibit.delVelBias && 13 <= i <= 15
    ensures At(Symmetrised(Updated(c, h, s), StateIndexLim(c.inhibit)), i, i) == At(c.P, i, i)
    ensures Delta(Gain(c, h, s), innovation)(i) == 0.0
  {
    hide Apply, ApplyT;
    GainAboveLimit(c, h, s, i);
    assert Gain(c, h, s)(i) * ApplyT(Fn(c.P), h)(i) == 0.0;
  }

  /**
   With the accel bias inhibited its slots are meant to stay put. They do exactly when their
   variances pass the scan, or when they are zero already; the limits are not gated by the flag.
   */
  lemma InhibitedAccelBias(sqrt: real -> real, c: Core, h: Vec, s: real, innovation: real, dtEkfAvg: real)
    requires s != 0.0 && c.inhibit.delVelBias
    ensures Fused(sqrt, c, h, s, innovation, dtEkfAvg).state.accelBias == c.state.accelBias
            <==> !ScanAccelBias(c.P, 15).1 || c.state.accelBias == ZERO3
  {
    hide Constrained, Gain, Normalized, Updated, Symmetrised, ScanAccelBias;
    var m := Symmetrised(Updated(c, h, s), StateIndexLim(c.inhibit));
    LimitsAndState(c.(P := m), dtEkfAvg);
    forall i | 13 <= i <= 15 ensures At(m, i, i) == At(c.P, i, i) && Delta(Gain(c, h, s), innovation)(i) == 0.0 {
      InhibitedAccelBiasUpdate(c, h, s, innovation, i);
    }
    ScanCongruent(m, c.P, 15);
    var d := Delta(Gain(c, h, s), innovation);
    assert d(13) == d(14) == d(15) == 0.0;
  }

  /** An inhibited accel bias with zero variances, as a legal covariance has, is lost at the next fusion. */
  lemma InhibitedAccelBiasMoves(sqrt: real -> real, c: Core, h: Vec, s: real, innovation: real, dtEkfAvg: real)
    requires InhibitedRowsZero(c) && Dim(c.P) && s != 0.0 && c.inhibit.delVelBias && c.state.accelBias == Vector3(0.1, 0.0, 0.0)
    ensures Fused(sqrt, c, h, s, innovation, dtEkfAvg).state.accelBias != c.state.accelBias
  {
    hide Fused;
    assert !Active(c.inhibit, 13) && !Active(c.inhibit, 14) && !Active(c.inhibit, 15);
    assert At(c.P, 13, 13) == At(c.P, 14, 14) == At(c.P, 15, 15) == 0.0;
    assert ScanAccelBias(c.P, 13).1;
    assert ScanAccelBias(c.P, 14).1;
    assert ScanAccelBias(c.P, 15).1;
    InhibitedAccelBias(sqrt, c, h, s, innovation, dtEkfAvg);
  }

  /** Inhibited slots are as they were, or an accel bias slot has been restarted at zero. */
  ghost predicate Held(r: Core, c: Core) {
    && r.inhibit == c.inhibit
    && forall i | 10 <= i < N && !Active(c.inhibit, i) ::
         Flat(r.state)(i) == Flat(c.state)(i) || (13 <= i <= 15 && Flat(r.state)(i) == 0.0)
  }

  lemma HeldTrans(a: Core, b: Core, c: Core)
    requires Held(a, b) && Held(b, c)
    ensures Held(a, c)
  {
    hide Flat;
  }

  lemma LimitsHold(c: Core, dtEkfAvg: real)
    ensures Held(Constrained(c, dtEkfAvg), c)
  {
    LimitsAndState(c, dtEkfAvg);
    hide Constrained;
  }

  lemma CorrectionHolds(sqrt: real -> real, c: Core, k: Core, h: Vec, s: real, innovation: real)
    requires s != 0.0 && k.inhibit == c.inhibit
    ensures Held(k.(state := Corrected(sqrt, k.state, Delta(Gain(c, h, s), innovation))), k)
  {
    hide Flat, Corrected, Apply;
    var d := Delta(Gain(c, h, s), innovation);
    forall i | 10 <= i < N && !Active(c.inhibit, i) ensures Flat(Corrected(sqrt, k.state, d))(i) == Flat(k.state)(i) {
      FlatCorrected(sqrt, k.state, d, i);
      GainAboveLimit(c, h, s, i);
    }
  }

  lemma FusedHolds(sqrt: real -> real, c: Core, h: Vec, s: real, innovation: real, dtEkfAvg: real)
    requires s != 0.0
    ensures Held(Fused(sqrt, c, h, s, innovation, dtEkfAvg), c)
  {
    hide Constrained, Updated, Gain, Corrected, Flat;
    var u := c.(P := Symmetrised(Updated(c, h, s), StateIndexLim(c.inhibit)));
    LimitsHold(u, dtEkfAvg);
    CorrectionHolds(sqrt, c, Constrained(u, dtEkfAvg), h, s, innovation);
    HeldTrans(Fused(sqrt, c, h, s, innovation, dtEkfAvg), Constrained(u, dtEkfAvg), u);
  }

  lemma DirectHolds(sqrt: real -> real, c: Core, si: int, innovation: real, r: real, dtEkfAvg: real)
    requires Invariant(c) && 0 <= si < N && r > 0.0
    ensures Held(FuseDirect(sqrt, c, si, innovation, r, dtEkfAvg).0, c)
  {
    hide Fused, Healthy;
    ObservedPositive(c, si, r);
    FusedHolds(sqrt, c, Unit(si), At(c.P, si, si) + r, innovation, dtEkfAvg);
  }

  lemma VelocityHolds(sqrt: real -> real, c: Core, gps: GpsSample, dtEkfAvg: real, now: real)
    requires Invariant(c)
    ensures Held(FuseGpsVelocity(sqrt, c, gps, dtEkfAvg, now).0, c)
  {
    hide FuseDirect, GpsVelTestRatio, RowsReset;
    var h, v := GpsHorizVelObsVariance(sqrt, c), GpsVertVelObsVariance(sqrt, c);
    var a := FuseDirect(sqrt, c, 4, c.state.velocity.x - gps.velocityNed.x, h, dtEkfAvg);
    DirectHolds(sqrt, c, 4, c.state.velocity.x - gps.velocityNed.x, h, dtEkfAvg);
    var b := FuseDirect(sqrt, a.0, 5, a.0.state.velocity.y - gps.velocityNed.y, h, dtEkfAvg);
    DirectHolds(sqrt, a.0, 5, a.0.state.velocity.y - gps.velocityNed.y, h, dtEkfAvg);
    DirectHolds(sqrt, b.0, 6, b.0.state.velocity.z - gps.velocityNed.z, v, dtEkfAvg);
    HeldTrans(b.0, a.0, c);
    HeldTrans(FuseDirect(sqrt, b.0, 6, b.0.state.velocity.z - gps.velocityNed.z, v, dtEkfAvg).0, b.0, c);
  }

  lemma PositionHolds(sqrt: real -> real, c: Core, gps: GpsSample, dtEkfAvg: real, now: real)
    requires Invariant(c)
    ensures Held(FuseGpsPosition(sqrt, c, gps, dtEkfAvg, now).0, c)
  {
    hide FuseDirect, GpsPosTestRatio, RowsReset;
    var r := GpsHorizPosObsVariance(sqrt, c);
    var a := FuseDirect(sqrt, c, 7, c.state.position.x - gps.positionNe.x, r, dtEkfAvg);
    DirectHolds(sqrt, c, 7, c.state.position.x - gps.positionNe.x, r, dtEkfAvg);
    DirectHolds(sqrt, a.0, 8, a.0.state.position.y - gps.positionNe.y, r, dtEkfAvg);
    HeldTrans(FuseDirect(sqrt, a.0, 8, a.0.state.position.y - gps.positionNe.y, r, dtEkfAvg).0, a.0, c);
  }

  lemma HeightHolds(sqrt: real -> real, c: Core, altitude: real, dtEkfAvg: real, now: real)
    requires Invariant(c)
    ensures Held(FuseBaroHeight(sqrt, c, altitude, dtEkfAvg, now).0, c)
  {
    hide FuseDirect, HgtTestRatio, RowsReset;
    DirectHolds(sqrt, c, 9, c.state.position.z + altitude, BaroHgtObsVariance(c), dtEkfAvg);
  }

  lemma InitialisedHolds(c: Core, dtEkfAvg: real)
    ensures Held(CovarianceInitialised(c, dtEkfAvg), c)
  {
    hide InitialVarianceOf, FilteredHgtRate, BlockInputs, ZeroRowsCols, Clamp;
  }

  lemma {:induction false} AxesHold(sqrt: real -> real, c: Core, m: MagEntry, axis: int, dtEkfAvg: real)
    requires Invariant(c) && UsableEntry(m) && 0 <= axis <= 3
    ensures Held(MagAxes(sqrt, c, m, axis, dtEkfAvg).0, c)
    decreases 3 - axis
  {
    hide Fused, Healthy, CovarianceInitialised, Flat, Dense, MagRowOf;
    if axis < 3 {
      AxisPositive(m, axis);
      FusedHolds(sqrt, c, Dense(MagRowOf(m.g, axis)), Axis(m.variance, axis), Axis(m.innovation, axis), dtEkfAvg);
      InitialisedHolds(c, dtEkfAvg);
      var a := MagAxis(sqrt, c, m, axis, dtEkfAvg);
      if a.1 {
        AxesHold(sqrt, a.0, m, axis + 1, dtEkfAvg);
        HeldTrans(MagAxes(sqrt, a.0, m, axis + 1, dtEkfAvg).0, a.0, c);
      }
    }
  }

  lemma AbortHolds(c: Core, c0: Core, dtEkfAvg: real)
    requires Invariant(c) && c.state == c0.state && c.inhibit == c0.inhibit
    ensures Held(Abort(c, dtEkfAvg).0, c0)
  {
    hide CovarianceInitialised, Flat;
    InitialisedHolds(c, dtEkfAvg);
  }

  lemma MagnetometerHolds(sqrt: real -> real, c: Core, field: Vector3, gyro: GyroSample, dtEkfAvg: real)
    requires Invariant(c) && gyro.deltaAngleDt != 0.0
    ensures Held(FuseMagnetometer(sqrt, c, field, gyro, dtEkfAvg).0, c)
  {
    hide MagAxes, MagHealth, MagInnovation, VarInnovX, VarInnovY, VarInnovZ, Abort, MagObsVariance, Flat, Active;
    var r, g, p := MagObsVariance(sqrt, c.tuning, gyro), MagGeometryOf(c.state), Fn(c.P);
    var cx := c.(innovMag := MagInnovation(c.state, field), varInnovMag := c.varInnovMag.(x := VarInnovX(g, p, r)));
    var cy := cx.(varInnovMag := cx.varInnovMag.(y := VarInnovY(g, p, r)));
    var cz := cy.(varInnovMag := cy.varInnovMag.(z := VarInnovZ(g, p, r)));
    AbortHolds(cx, c, dtEkfAvg);
    AbortHolds(cy, c, dtEkfAvg);
    AbortHolds(cz, c, dtEkfAvg);
    var m := MagEntry(g, cz.varInnovMag, cz.innovMag);
    if UsableEntry(m) {
      AxesHold(sqrt, cz, m, 0, dtEkfAvg);
    }
  }

  lemma SettledHolds(sqrt: real -> real, c: Core, h: Vec, s: real, dtEkfAvg: real)
    requires s != 0.0
    ensures Held(Settled(TasUpdated(sqrt, c, h, s), dtEkfAvg), c) && Held(Settled(c, dtEkfAvg), c)
  {
    hide Constrained, Updated, Gain, Corrected, Flat, Symmetrised, Active;
    var u, lim := TasUpdated(sqrt, c, h, s), StateIndexLim(c.inhibit);
    CorrectionHolds(sqrt, c, c.(P := u.P), h, s, c.innovVtas);
    LimitsHold(u.(P := Symmetrised(u.P, lim)), dtEkfAvg);
    LimitsHold(c.(P := Symmetrised(c.P, lim)), dtEkfAvg);
    HeldTrans(Settled(u, dtEkfAvg), u.(P := Symmetrised(u.P, lim)), c);
  }

  lemma AirspeedHolds(sqrt: real -> real, c: Core, tas: real, dtEkfAvg: real)
    requires Invariant(c)
    ensures Held(FuseAirspeed(sqrt, c, tas, dtEkfAvg).0, c)
  {
    hide Settled, TasUpdated, Flat, VarInnovTas, DenseTas, SharedTerms, Abort, Active, TestRatio;
    var pred := PredictedAirspeed(sqrt, c.state);
    if pred > 1.0 {
      var g, r := TasGeometryOf(c.state, pred), TasVariance(c);
      var s := VarInnovTas(g, Fn(c.P), r);
      var c1 := c.(innovVtas := pred - tas);
      AbortHolds(c1, c, dtEkfAvg);
      if s >= r {
        SettledHolds(sqrt, c1.(varInnovVtas := s), DenseTas(g), s, dtEkfAvg);
      }
    }
  }

  lemma PredictionHolds(c: Core, gyro: GyroSample, accel: AccelSample, dtEkfAvg: real)
    ensures Held(CovariancePredicted(c, gyro, accel, dtEkfAvg), c)
  {
    hide Constrained, Propagate, Flat, Active;
    var next := Propagate(c, PredictionInputs(c, gyro, accel, dtEkfAvg), PredictionNoise(c, gyro, accel, dtEkfAvg));
    LimitsHold(c.(P := next, hgtRate := FilteredHgtRate(c.hgtRate, c.state.velocity.z, PredictionDt(gyro, accel, dtEkfAvg))), dtEkfAvg);
  }

  lemma ResetsHold(c: Core, gps: GpsSample, altitude: real, now: real)
    requires Invariant(c)
    ensures Held(ResetVelocity(c, gps, now), c) && Held(ResetPosition(c, gps, now), c) && Held(ResetHeight(c, altitude, now), c)
  {
    hide RowsReset, BaroHgtObsVariance, Active;
  }

  /** No prediction, fusion or reset moves an inhibited state, except to restart the accel bias at zero. */
  lemma StepHolds(sqrt: real -> real, c: Core, call: Call, dtEkfAvg: real)
    requires Invariant(c) && Callable(call) && !call.Elsewhere?
    ensures Held(Step(sqrt, c, call, dtEkfAvg), c)
  {
    hide Held, Invariant, CovarianceInitialised, CovariancePredicted, FuseGpsVelocity, FuseGpsPosition, FuseBaroHeight, FuseMagnetometer,
      FuseAirspeed, ResetVelocity, ResetPosition, ResetHeight;
    match call
    case Initialise => InitialisedHolds(c, dtEkfAvg);
    case Predict(gyro, accel) => PredictionHolds(c, gyro, accel, dtEkfAvg);
    case GpsVelocity(gps, now) => VelocityHolds(sqrt, c, gps, dtEkfAvg, now);
    case GpsPosition(gps, now) => PositionHolds(sqrt, c, gps, dtEkfAvg, now);
    case BaroHeight(altitude, now) => HeightHolds(sqrt, c, altitude, dtEkfAvg, now);
    case Magnetometer(field, gyro) => MagnetometerHolds(sqrt, c, field, gyro, dtEkfAvg);
    case Airspeed(tas) => AirspeedHolds(sqrt, c, tas, dtEkfAvg);
    case VelocityReset(gps, now) => ResetsHold(c, gps, 0.0, now);
    case PositionReset(gps, now) => ResetsHold(c, gps, 0.0, now);
    case HeightReset(altitude, now) => ResetsHold(c, GpsSample(ZERO3, Vector2(0.0, 0.0)), altitude, now);
  }

  /** Between changes made elsewhere, an inhibited state keeps its value over a whole run. */
  lemma {:induction false} RunHolds(sqrt: real -> real, c: Core, calls: seq<(Call, real)>, k: int)
    requires Invariant(c) && forall k | 0 <= k < |calls| :: Callable(calls[k].0) && !calls[k].0.Elsewhere?
    requires 0 <= k <= |calls|
    ensures Held(Run(sqrt, c, calls)[k], c)
    decreases |calls|
  {
    hide Step, Invariant, Flat;
    if k > 0 {
      var next := Step(sqrt, c, calls[0].0, calls[0].1);
      StepHolds(sqrt, c, calls[0].0, calls[0].1);
      RunHolds(sqrt, next, calls[1..], k - 1);
      HeldTrans(Run(sqrt, c, calls)[k], next, c);
    }
  }
}
