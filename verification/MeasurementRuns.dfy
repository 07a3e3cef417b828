/**
 Runs of predictions, fusions and resets with the limits acting: as long as no prediction takes a
 variance past its upper limit, the covariance stays positive semidefinite, every measurement within
 its gate is fused on every axis, and nothing is ever reinitialised.
 */
module MeasurementRuns {
  import opened Numeric
  import opened Geometry
  import opened LinearAlgebra
  import opened PredictionBlock
  import opened CovariancePropagation
  import opened EkfModel
  import opened ScalarFusion
  import opened EkfPrediction
  import opened EkfInvariant
  import opened MagFusion
  import opened AirspeedFusion
  import opened EkfOperations
  import opened EkfRuns
  import opened MagSequence
  import opened FusionLimits

  // ---- the magnetometer ----

  /** Nothing but the attitude and field states is measured. */
  predicate OnMagStates(h: Vec) {
    forall i | 0 <= i < N && !MagState(i) :: h(i) == 0.0
  }

  lemma MagRowStates(g: MagGeometry, axis: int)
    ensures OnMagStates(Dense(MagRowOf(g, axis))) && OffAccelBias(Dense(MagRowOf(g, axis)))
  {}

  /** A magnetometer variance computed before a fusion is large enough after it, whatever the limits raise. */
  lemma NotStaleAfter(sqrt: real -> real, c: Core, h: Vec, s: real, innovation: real, dtEkfAvg: real, m: Scalar)
    requires Fusable(c, dtEkfAvg) && OffAccelBias(h) && s > 0.0 && Form(Fn(c.P), h, h) <= s
    requires NotStale(c, m) && OnMagStates(m.h)
    ensures NotStale(Fused(sqrt, c, h, s, innovation, dtEkfAvg), m)
  {
    hide Form, Updated, Fused, Healthy, Fusable;
    FusedFusable(sqrt, c, h, s, innovation, dtEkfAvg);
    FreedUpdated(c, h, s, dtEkfAvg);
    FusableSymmetric(c, dtEkfAvg);
    FormShrinks(Freed(c), h, s, m.h);
    FormLocal(Fn(Fused(sqrt, c, h, s, innovation, dtEkfAvg).P), Fn(Updated(c, h, s)), m.h);
  }

  /** Every axis from `axis` on is fused, limits acting or not. */
  lemma {:induction false} AxesFuse(sqrt: real -> real, c: Core, m: MagEntry, axis: int, dtEkfAvg: real)
    requires Invariant(c) && Fusable(c, dtEkfAvg) && UsableEntry(m) && 0 <= axis <= 3
    requires forall k | axis <= k < 3 :: NotStale(c, AxisScalar(m, k))
    ensures var r := MagAxes(sqrt, c, m, axis, dtEkfAvg); r.1 && Fusable(r.0, dtEkfAvg)
    decreases 3 - axis
  {
    hide Form, Healthy, Fused, Fusable, Dense, MagRowOf, Invariant, OnMagStates, OffAccelBias;
    if axis < 3 {
      AxisPositive(m, axis);
      var h, s, e := Dense(MagRowOf(m.g, axis)), Axis(m.variance, axis), Axis(m.innovation, axis);
      assert NotStale(c, AxisScalar(m, axis));
      var next := Fused(sqrt, c, h, s, e, dtEkfAvg);
      MagRowStates(m.g, axis);
      FusedFrame(sqrt, c, h, s, e, dtEkfAvg);
      FusedFusable(sqrt, c, h, s, e, dtEkfAvg);
      MagAxisCases(sqrt, c, m, axis, dtEkfAvg);
      forall k | axis + 1 <= k < 3
        ensures NotStale(next, AxisScalar(m, k))
      {
        assert NotStale(c, AxisScalar(m, k));
        MagRowStates(m.g, k);
        NotStaleAfter(sqrt, c, h, s, e, dtEkfAvg, AxisScalar(m, k));
      }
      AxesFuse(sqrt, next, m, axis + 1, dtEkfAvg);
    }
  }

  /** A magnetometer call fuses all three axes exactly when its gate passes: it never reinitialises, and the next fusion can follow. */
  lemma MagnetometerFuses(sqrt: real -> real, c: Core, mag: Vector3, gyro: GyroSample, dtEkfAvg: real)
    requires Invariant(c) && Fusable(c, dtEkfAvg) && gyro.deltaAngleDt != 0.0
    ensures var e := EntryCore(sqrt, c, mag, gyro); var r := FuseMagnetometer(sqrt, c, mag, gyro, dtEkfAvg);
      && UsableEntry(EntryOf(e))
      && (r.1 <==> MagHealth(e.innovMag, e.varInnovMag, e.tuning.magInnovGatePct))
      && (!r.1 ==> r.0 == e)
      && Fusable(r.0, dtEkfAvg)
  {
    hide VarInnovX, VarInnovY, VarInnovZ, PositiveSemidefinite, MagAxes, MagHealth, MagInnovation, MagObsVariance, Form, Dense, MagRowOf, Fusable;
    FusableSymmetric(c, dtEkfAvg);
    MagEntryNeverAborts(sqrt, c, mag, gyro, dtEkfAvg);
    var e := EntryCore(sqrt, c, mag, gyro);
    SameCovariance(c, e, dtEkfAvg);
    var m := EntryOf(e);
    forall k | 0 <= k < 3
      ensures NotStale(e, AxisScalar(m, k))
    {
      MagVariances(m.g, Fn(c.P), MagObsVariance(sqrt, c.tuning, gyro), k);
      ObservationPositive(sqrt, c.tuning, gyro);
      AxisPositive(m, k);
    }
    if MagHealth(e.innovMag, e.varInnovMag, e.tuning.magInnovGatePct) {
      AxesFuse(sqrt, e, m, 0, dtEkfAvg);
    }
  }

  /** An observation of a velocity or position is always fused, and the next fusion can follow. */
  lemma DirectFuses(sqrt: real -> real, c: Core, si: int, innovation: real, r: real, dtEkfAvg: real)
    requires Invariant(c) && Fusable(c, dtEkfAvg) && 4 <= si <= 9 && r > 0.0
    ensures var a := FuseDirect(sqrt, c, si, innovation, r, dtEkfAvg); a.1 && Fusable(a.0, dtEkfAvg)
  {
    hide Form, Healthy, Fused, Fusable;
    FusableSymmetric(c, dtEkfAvg);
    FormUnits(Fn(c.P), si, si);
    ObservedPositive(c, si, r);
    FusedFusable(sqrt, c, Unit(si), At(c.P, si, si) + r, innovation, dtEkfAvg);
  }

  /** A GPS velocity that passes its gate is fused on all three axes. */
  lemma VelocityFuses(sqrt: real -> real, c: Core, gps: GpsSample, dtEkfAvg: real, now: real)
    requires Invariant(c) && Fusable(c, dtEkfAvg) && GpsVelTestRatio(sqrt, c, gps) < 1.0
    ensures var r := FuseGpsVelocity(sqrt, c, gps, dtEkfAvg, now); r.1 == 3 && Fusable(r.0, dtEkfAvg)
  {
    hide FuseDirect, Fusable, GpsVelTestRatio, Invariant, GpsHorizVelObsVariance, GpsVertVelObsVariance;
    var h, v := GpsHorizVelObsVariance(sqrt, c), GpsVertVelObsVariance(sqrt, c);
    DirectFuses(sqrt, c, 4, c.state.velocity.x - gps.velocityNed.x, h, dtEkfAvg);
    var a := FuseDirect(sqrt, c, 4, c.state.velocity.x - gps.velocityNed.x, h, dtEkfAvg).0;
    DirectFuses(sqrt, a, 5, a.state.velocity.y - gps.velocityNed.y, h, dtEkfAvg);
    var b := FuseDirect(sqrt, a, 5, a.state.velocity.y - gps.velocityNed.y, h, dtEkfAvg).0;
    DirectFuses(sqrt, b, 6, b.state.velocity.z - gps.velocityNed.z, v, dtEkfAvg);
    var d := FuseDirect(sqrt, b, 6, b.state.velocity.z - gps.velocityNed.z, v, dtEkfAvg).0;
    SameCovariance(d, d.(lastVelPassTimeS := now), dtEkfAvg);
  }

  lemma PositionFuses(sqrt: real -> real, c: Core, gps: GpsSample, dtEkfAvg: real, now: real)
    requires Invariant(c) && Fusable(c, dtEkfAvg) && GpsPosTestRatio(sqrt, c, gps) < 1.0
    ensures var r := FuseGpsPosition(sqrt, c, gps, dtEkfAvg, now); r.1 == 2 && Fusable(r.0, dtEkfAvg)
  {
    hide FuseDirect, Fusable, GpsPosTestRatio, Invariant, GpsHorizPosObsVariance;
    var r := GpsHorizPosObsVariance(sqrt, c);
    DirectFuses(sqrt, c, 7, c.state.position.x - gps.positionNe.x, r, dtEkfAvg);
    var a := FuseDirect(sqrt, c, 7, c.state.position.x - gps.positionNe.x, r, dtEkfAvg).0;
    DirectFuses(sqrt, a, 8, a.state.position.y - gps.positionNe.y, r, dtEkfAvg);
    var b := FuseDirect(sqrt, a, 8, a.state.position.y - gps.positionNe.y, r, dtEkfAvg).0;
    SameCovariance(b, b.(lastPosPassTimeS := now), dtEkfAvg);
  }

  lemma HeightFuses(sqrt: real -> real, c: Core, baroAltitude: real, dtEkfAvg: real, now: real)
    requires Invariant(c) && Fusable(c, dtEkfAvg) && HgtTestRatio(c, baroAltitude) < 1.0
    ensures var r := FuseBaroHeight(sqrt, c, baroAltitude, dtEkfAvg, now); r.1 && Fusable(r.0, dtEkfAvg)
  {
    hide FuseDirect, Fusable, HgtTestRatio, Invariant, BaroHgtObsVariance;
    var r := BaroHgtObsVariance(c);
    DirectFuses(sqrt, c, 9, c.state.position.z + baroAltitude, r, dtEkfAvg);
    var a := FuseDirect(sqrt, c, 9, c.state.position.z + baroAltitude, r, dtEkfAvg).0;
    SameCovariance(a, a.(lastHgtPassTimeS := now), dtEkfAvg);
  }

  // ---- airspeed ----

  /** An airspeed call fuses exactly when it is fast enough and consistent, and never reinitialises. */
  lemma AirspeedFuses(sqrt: real -> real, c: Core, tas: real, dtEkfAvg: real)
    requires Invariant(c) && Fusable(c, dtEkfAvg)
    ensures var r := FuseAirspeed(sqrt, c, tas, dtEkfAvg);
      (r.1 <==> AirspeedConsistent(sqrt, c, tas)) && Fusable(r.0, dtEkfAvg)
  {
    hide VarInnovTas, DenseTas, Form, TasOutcome, SharedTerms, Updated, Fusable, TestRatio, SymmetricMat, VariancesBelow;
    var pred := PredictedAirspeed(sqrt, c.state);
    if pred > 1.0 {
      var g, r := TasGeometryOf(c.state, pred), TasVariance(c);
      FusableSymmetric(c, dtEkfAvg);
      TasVariances(g, Fn(c.P), r);
      VarianceIsFormTas(g, Fn(c.P), r);
      var s := VarInnovTas(g, Fn(c.P), r);
      var e := c.(innovVtas := pred - tas, varInnovVtas := s);
      SameCovariance(c, e, dtEkfAvg);
      TasStates(g);
      OutcomeFusable(sqrt, e, DenseTas(g), s, dtEkfAvg);
    }
  }

  /** The limits do not read the state. */
  lemma LimitsBlind(c: Core, state: StateVector, dtEkfAvg: real)
    ensures var a, b := Constrained(c, dtEkfAvg), Constrained(c.(state := state), dtEkfAvg);
      a.P == b.P && a.inhibit == b.inhibit && a.tuning == b.tuning
  {
    hide ClampDiagonal, ZeroRowsCols, SetDiagonal, ScanAccelBias, AccelBiasLimited, Sq;
  }

  lemma OutcomeFusable(sqrt: real -> real, c: Core, h: Vec, s: real, dtEkfAvg: real)
    requires Invariant(c) && Fusable(c, dtEkfAvg) && OffAccelBias(h) && s > 0.0 && Form(Fn(c.P), h, h) <= s
    ensures var r := TasOutcome(sqrt, c, h, s, dtEkfAvg);
      (r.1 <==> TestRatio(Sq(c.innovVtas), s, c.tuning.tasInnovGatePct) < 1.0) && Fusable(r.0, dtEkfAvg)
  {
    hide Form, Updated, Constrained, Corrected, Symmetrised, Fusable, Gain, TestRatio, Invariant;
    FusableSymmetric(c, dtEkfAvg);
    SymmetrisedIdle(c.P, StateIndexLim(c.inhibit));
    LimitsFusable(c, dtEkfAvg);
    UpdatedFusable(c, h, s, dtEkfAvg);
    var u := c.(P := Updated(c, h, s));
    FusableSymmetric(u, dtEkfAvg);
    SymmetrisedIdle(u.P, StateIndexLim(c.inhibit));
    LimitsFusable(u, dtEkfAvg);
    var t := TasUpdated(sqrt, c, h, s);
    LimitsBlind(u, t.state, dtEkfAvg);
    SameCovariance(Constrained(u, dtEkfAvg), Settled(t, dtEkfAvg), dtEkfAvg);
  }

  /** Faster than one metre per second, and within the gate. */
  predicate AirspeedConsistent(sqrt: real -> real, c: Core, tas: real) {
    var pred := PredictedAirspeed(sqrt, c.state);
    pred > 1.0 &&
    var s := VarInnovTas(TasGeometryOf(c.state, pred), Fn(c.P), TasVariance(c));
    s > 0.0 && TestRatio(Sq(pred - tas), s, c.tuning.tasInnovGatePct) < 1.0
  }

  lemma TasStates(g: TasGeometry)
    ensures OffAccelBias(DenseTas(g))
  {}

  // ---- resets and predictions ----

  lemma ResetFusable(c: Core, first: int, last: int, v: real, dtEkfAvg: real)
    requires Fusable(c, dtEkfAvg) && 4 <= first <= last <= 9 && v >= 0.0
    requires forall i | first <= i <= last :: i == 6 || v <= Upper(i, dtEkfAvg)
    ensures Fusable(c.(P := RowsReset(c.P, first, last, v)), dtEkfAvg)
  {
    hide Fits, RoomForAccelBias, Upper;
    RestartFits(c.P, Freed(c).inhibit, first, last, v, dtEkfAvg);
  }

  lemma PredictionZero(c: Core, x: Inputs, d: Vec)
    requires InhibitedRowsZero(c) && forall i | 0 <= i < N && !Active(c.inhibit, i) :: d(i) == 0.0
    ensures RowsZeroOutside(Propagate(c, x, d), c.inhibit)
  {
    hide Predicted, Active;
    forall i, j | 0 <= i < N && 0 <= j < N && !Active(c.inhibit, i)
      ensures At(Propagate(c, x, d), i, j) == 0.0 && At(Propagate(c, x, d), j, i) == 0.0
    {
      InhibitedIsLate(c.inhibit, i);
      IdleStateStays(x, Fn(c.P), d, i, j);
      IdleStateStays(x, Fn(c.P), d, j, i);
    }
  }

  lemma InhibitedIsLate(h: Inhibit, i: int)
    requires 0 <= i < N && !Active(h, i)
    ensures i >= 10
  {}

  /** With both biases estimated and no variance past its limit, a prediction leaves a covariance to go on from. */
  lemma PredictionFusable(c: Core, gyro: GyroSample, accel: AccelSample, dtEkfAvg: real)
    requires Fusable(c, dtEkfAvg) && !c.inhibit.delAngBias && !c.inhibit.delVelBias && !PositionCollapse(c.P)
    requires BelowUpper(PropagatedBy(c, gyro, accel, dtEkfAvg), dtEkfAvg)
    ensures Fusable(CovariancePredicted(c, gyro, accel, dtEkfAvg), dtEkfAvg)
  {
    hide Propagate, PredictionInputs, PredictionNoise, Constrained, FilteredHgtRate, PredictionDt, BelowUpper, RoomForAccelBias, PositiveSemidefinite;
    assert Freed(c) == c;
    NoiseOfInhibited(c, gyro, accel, dtEkfAvg);
    PredictionZero(c, PredictionInputs(c, gyro, accel, dtEkfAvg), PredictionNoise(c, gyro, accel, dtEkfAvg));
    AboveLimitInhibited(c);
    PredictionKeepsPsd(c, gyro, accel, dtEkfAvg);
    var dt := PredictionDt(gyro, accel, dtEkfAvg);
    var u := c.(P := PropagatedBy(c, gyro, accel, dtEkfAvg), hgtRate := FilteredHgtRate(c.hgtRate, c.state.velocity.z, dt));
    PropagateDim(c, PredictionInputs(c, gyro, accel, dtEkfAvg), PredictionNoise(c, gyro, accel, dtEkfAvg));
    assert Fusable(u, dtEkfAvg);
    LimitsFusable(u, dtEkfAvg);
    SameCovariance(Constrained(u, dtEkfAvg), CovariancePredicted(c, gyro, accel, dtEkfAvg), dtEkfAvg);
  }

  lemma PropagateDim(c: Core, x: Inputs, d: Vec)
    ensures Dim(Propagate(c, x, d))
  {}

  lemma AboveLimitInhibited(c: Core)
    requires InhibitedRowsZero(c)
    ensures RowsAboveLimitZero(c)
  {
    forall i, j | 0 <= i < N && 0 <= j < N && i > StateIndexLim(c.inhibit)
      ensures At(c.P, i, j) == 0.0 && At(c.P, j, i) == 0.0
    {
      assert !Active(c.inhibit, i);
    }
  }

  lemma NoiseOfInhibited(c: Core, gyro: GyroSample, accel: AccelSample, dtEkfAvg: real)
    requires !c.inhibit.delAngBias && !c.inhibit.delVelBias
    ensures forall i | 0 <= i < N && !Active(c.inhibit, i) :: PredictionNoise(c, gyro, accel, dtEkfAvg)(i) == 0.0
  {
    hide PredictionDt, FilteredHgtRate, BiasNoise, FieldNoise, WindNoise;
  }

  // ---- whole runs ----

  /** The call is no initialisation and no change of settings, and it starts no variance, and takes none, past its upper limit. */
  ghost predicate Mild(c: Core, call: Call, dtEkfAvg: real) {
    match call
    case Initialise => false
    case Predict(gyro, accel) =>
      !c.inhibit.delAngBias && !c.inhibit.delVelBias && !PositionCollapse(c.P) && BelowUpper(PropagatedBy(c, gyro, accel, dtEkfAvg), dtEkfAvg)
    case GpsVelocity(_, _) => Sq(c.tuning.gpsHorizVelNoise) <= 1000.0
    case VelocityReset(_, _) => Sq(c.tuning.gpsHorizVelNoise) <= 1000.0
    case GpsPosition(_, _) => Sq(c.tuning.gpsHorizPosNoise) <= 1000000.0
    case PositionReset(_, _) => Sq(c.tuning.gpsHorizPosNoise) <= 1000000.0
    case Elsewhere(_, inhibit, tuning, _) => inhibit == c.inhibit && tuning == c.tuning
    case _ => true
  }

  /** A measurement is fused, on all of its axes, exactly when it passes its gate. */
  ghost predicate Served(sqrt: real -> real, c: Core, call: Call, dtEkfAvg: real)
    requires Invariant(c) && Callable(call)
  {
    match call
    case GpsVelocity(gps, now) => FuseGpsVelocity(sqrt, c, gps, dtEkfAvg, now).1 == if GpsVelTestRatio(sqrt, c, gps) < 1.0 then 3 else 0
    case GpsPosition(gps, now) => FuseGpsPosition(sqrt, c, gps, dtEkfAvg, now).1 == if GpsPosTestRatio(sqrt, c, gps) < 1.0 then 2 else 0
    case BaroHeight(altitude, now) => FuseBaroHeight(sqrt, c, altitude, dtEkfAvg, now).1 <==> HgtTestRatio(c, altitude) < 1.0
    case Magnetometer(field, gyro) =>
      var e := EntryCore(sqrt, c, field, gyro);
      UsableEntry(EntryOf(e)) && (FuseMagnetometer(sqrt, c, field, gyro, dtEkfAvg).1 <==> MagHealth(e.innovMag, e.varInnovMag, e.tuning.magInnovGatePct))
    case Airspeed(tas) => FuseAirspeed(sqrt, c, tas, dtEkfAvg).1 <==> AirspeedConsistent(sqrt, c, tas)
    case _ => true
  }

  lemma StepFuses(sqrt: real -> real, c: Core, call: Call, dtEkfAvg: real)
    requires Invariant(c) && Callable(call) && Fusable(c, dtEkfAvg) && Mild(c, call, dtEkfAvg)
    ensures Served(sqrt, c, call, dtEkfAvg) && Fusable(Step(sqrt, c, call, dtEkfAvg), dtEkfAvg)
  {
    hide Fusable, Invariant, FuseGpsVelocity, FuseGpsPosition, FuseBaroHeight, FuseMagnetometer, FuseAirspeed, CovariancePredicted, BelowUpper, PositionCollapse, GpsVelTestRatio, GpsPosTestRatio, HgtTestRatio, MagHealth, AirspeedConsistent, CovarianceInitialised, ResetVelocity, ResetPosition, ResetHeight, Sq, EntryCore, EntryOf;
    match call
    case Initialise =>
    case Predict(gyro, accel) => PredictionFusable(c, gyro, accel, dtEkfAvg);
    case GpsVelocity(gps, now) => VelocityServed(sqrt, c, gps, dtEkfAvg, now);
    case GpsPosition(gps, now) => PositionServed(sqrt, c, gps, dtEkfAvg, now);
    case BaroHeight(altitude, now) => HeightServed(sqrt, c, altitude, dtEkfAvg, now);
    case Magnetometer(field, gyro) => MagnetometerFuses(sqrt, c, field, gyro, dtEkfAvg);
    case Airspeed(tas) => AirspeedFuses(sqrt, c, tas, dtEkfAvg);
    case VelocityReset(gps, now) => VelocityRestart(c, gps, now, dtEkfAvg);
    case PositionReset(gps, now) => PositionRestart(c, gps, now, dtEkfAvg);
    case HeightReset(altitude, now) => HeightRestart(c, altitude, now, dtEkfAvg);
    case Elsewhere(state, inhibit, tuning, velDot) => SameCovariance(c, Step(sqrt, c, call, dtEkfAvg), dtEkfAvg);
  }

  lemma VelocityRestart(c: Core, gps: GpsSample, now: real, dtEkfAvg: real)
    requires Invariant(c) && Fusable(c, dtEkfAvg) && Sq(c.tuning.gpsHorizVelNoise) <= 1000.0
    ensures Fusable(ResetVelocity(c, gps, now), dtEkfAvg)
  {
    hide Fusable, Invariant, Sq, RowsReset;
    ResetFusable(c, 4, 5, Sq(c.tuning.gpsHorizVelNoise), dtEkfAvg);
    SameCovariance(c.(P := RowsReset(c.P, 4, 5, Sq(c.tuning.gpsHorizVelNoise))), ResetVelocity(c, gps, now), dtEkfAvg);
  }

  lemma PositionRestart(c: Core, gps: GpsSample, now: real, dtEkfAvg: real)
    requires Invariant(c) && Fusable(c, dtEkfAvg) && Sq(c.tuning.gpsHorizPosNoise) <= 1000000.0
    ensures Fusable(ResetPosition(c, gps, now), dtEkfAvg)
  {
    hide Fusable, Invariant, Sq, RowsReset;
    ResetFusable(c, 7, 8, Sq(c.tuning.gpsHorizPosNoise), dtEkfAvg);
    SameCovariance(c.(P := RowsReset(c.P, 7, 8, Sq(c.tuning.gpsHorizPosNoise))), ResetPosition(c, gps, now), dtEkfAvg);
  }

  lemma HeightRestart(c: Core, baroAltitude: real, now: real, dtEkfAvg: real)
    requires Invariant(c) && Fusable(c, dtEkfAvg)
    ensures Fusable(ResetHeight(c, baroAltitude, now), dtEkfAvg)
  {
    hide Fusable, Invariant, BaroHgtObsVariance, RowsReset;
    HeightVarianceFits(c);
    ResetFusable(c, 9, 9, BaroHgtObsVariance(c), dtEkfAvg);
    SameCovariance(c.(P := RowsReset(c.P, 9, 9, BaroHgtObsVariance(c))), ResetHeight(c, baroAltitude, now), dtEkfAvg);
  }

  lemma HeightVarianceFits(c: Core)
    ensures BaroHgtObsVariance(c) <= 1000000.0
  {
    SquareBounded(Clamp(c.tuning.baroAltNoise, 0.1, 100.0), 100.0);
  }

  lemma VelocityServed(sqrt: real -> real, c: Core, gps: GpsSample, dtEkfAvg: real, now: real)
    requires Invariant(c) && Fusable(c, dtEkfAvg) && Sq(c.tuning.gpsHorizVelNoise) <= 1000.0
    ensures var r := FuseGpsVelocity(sqrt, c, gps, dtEkfAvg, now);
      Fusable(r.0, dtEkfAvg) && r.1 == if GpsVelTestRatio(sqrt, c, gps) < 1.0 then 3 else 0
  {
    hide Fusable, Invariant, Sq, ResetVelocity, FuseDirect, GpsVelTestRatio;
    if GpsVelTestRatio(sqrt, c, gps) < 1.0 {
      VelocityFuses(sqrt, c, gps, dtEkfAvg, now);
    } else {
      VelocityRestart(c, gps, now, dtEkfAvg);
    }
  }

  lemma PositionServed(sqrt: real -> real, c: Core, gps: GpsSample, dtEkfAvg: real, now: real)
    requires Invariant(c) && Fusable(c, dtEkfAvg) && Sq(c.tuning.gpsHorizPosNoise) <= 1000000.0
    ensures var r := FuseGpsPosition(sqrt, c, gps, dtEkfAvg, now);
      Fusable(r.0, dtEkfAvg) && r.1 == if GpsPosTestRatio(sqrt, c, gps) < 1.0 then 2 else 0
  {
    hide Fusable, Invariant, Sq, ResetPosition, FuseDirect, GpsPosTestRatio;
    if GpsPosTestRatio(sqrt, c, gps) < 1.0 {
      PositionFuses(sqrt, c, gps, dtEkfAvg, now);
    } else {
      PositionRestart(c, gps, now, dtEkfAvg);
    }
  }

  lemma HeightServed(sqrt: real -> real, c: Core, baroAltitude: real, dtEkfAvg: real, now: real)
    requires Invariant(c) && Fusable(c, dtEkfAvg)
    ensures var r := FuseBaroHeight(sqrt, c, baroAltitude, dtEkfAvg, now);
      Fusable(r.0, dtEkfAvg) && (r.1 <==> HgtTestRatio(c, baroAltitude) < 1.0)
  {
    hide Fusable, Invariant, ResetHeight, FuseDirect, HgtTestRatio;
    if HgtTestRatio(c, baroAltitude) < 1.0 {
      HeightFuses(sqrt, c, baroAltitude, dtEkfAvg, now);
    } else {
      HeightRestart(c, baroAltitude, now, dtEkfAvg);
    }
  }

  /**
   In every state of a run of mild calls the covariance is symmetric positive semidefinite, and every measurement of the
   run is fused on all axes exactly when it passes its gate: no guard rejects and nothing is reinitialised.
   */
  lemma {:induction false} RunFuses(sqrt: real -> real, c: Core, calls: seq<(Call, real)>, dtEkfAvg: real, k: int)
    requires Invariant(c) && Fusable(c, dtEkfAvg) && forall k | 0 <= k < |calls| :: Callable(calls[k].0) && calls[k].1 == dtEkfAvg
    requires forall k | 0 <= k < |calls| :: Mild(Run(sqrt, c, calls)[k], calls[k].0, dtEkfAvg)
    requires 0 <= k <= |calls|
    ensures Invariant(Run(sqrt, c, calls)[k]) && Fusable(Run(sqrt, c, calls)[k], dtEkfAvg)
    ensures k < |calls| ==> Served(sqrt, Run(sqrt, c, calls)[k], calls[k].0, dtEkfAvg)
    decreases |calls|
  {
    hide Step, Invariant, Fusable, Mild, Served, Callable;
    if calls != [] {
      assert Run(sqrt, c, calls)[0] == c;
      StepFuses(sqrt, c, calls[0].0, dtEkfAvg);
      if k > 0 {
        var next, rest := Step(sqrt, c, calls[0].0, dtEkfAvg), calls[1..];
        assert Run(sqrt, c, calls) == [c] + Run(sqrt, next, rest);
        forall m | 0 <= m < |rest|
          ensures Callable(rest[m].0) && rest[m].1 == dtEkfAvg && Mild(Run(sqrt, next, rest)[m], rest[m].0, dtEkfAvg)
        {
          assert rest[m] == calls[m + 1] && Run(sqrt, next, rest)[m] == Run(sqrt, c, calls)[m + 1];
        }
        RunFuses(sqrt, next, rest, dtEkfAvg, k - 1);
      }
    }
  }
}
