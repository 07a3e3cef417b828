/**
 The estimator core as an object: the covariance is an array overwritten in place by the source's
 loops, and each operation is proved to compute its function from old to new estimator.
 */
module EkfEngine {
  import opened Numeric
  import opened Geometry
  import opened LinearAlgebra
  import opened PredictionBlock
  import opened EkfModel
  import opened ScalarFusion
  import opened EkfPrediction
  import opened EkfInvariant
  import opened MagFusion
  import opened AirspeedFusion
  import opened EkfOperations
  import opened MagSequence
  import opened CovarianceArray
  import opened KalmanGain
  import opened PredictionColumns
  import opened CovariancePropagation

  // ---- from arrays to the specification ----

  function VecOf(s: seq<real>): Vec { i => if 0 <= i < |s| then s[i] else 0.0 }

  lemma DirectGainHolds(c: Core, si: int, s: real, i: int)
    requires s != 0.0 && 0 <= si < N
    ensures Gain(c, Unit(si), s)(i) == if Active(c.inhibit, i) then Times(At(c.P, i, si), 1.0 / s) else 0.0
  {
    hide Apply;
    ApplyUnit(Fn(c.P), si, i);
    Reciprocal(At(c.P, i, si), s);
  }

  lemma UnitRow(a: Table, si: int, j: int)
    requires 0 <= si < N
    ensures ApplyT(a, Unit(si))(j) == a(si, j)
  {
    hide Dot;
    DotCommutes(N, Unit(si), ColOf(a, j));
    DotUnit(N, ColOf(a, j), si);
  }

  lemma MagColumn(g: MagGeometry, a: Table, axis: int, j: int)
    ensures ApplyT(a, Dense(MagRowOf(g, axis)))(j) == SparseDot(MagRowOf(g, axis), ColOf(a, j))
  {
    hide Dot, Dense, SparseDot, MagRowOf;
    DenseForm(MagRowOf(g, axis), a);
  }

  lemma TasColumn(g: TasGeometry, a: Table, j: int)
    ensures ApplyT(a, DenseTas(g))(j) == SparseTas(g, ColOf(a, j))
  {
    hide Dot, DenseTas, SparseTas;
    DotCommutes(N, DenseTas(g), ColOf(a, j));
    DenseTasDot(g, ColOf(a, j));
  }

  /** The components of the state reduced one by one, the quaternion then normalized. */
  function Slotwise(sqrt: real -> real, s: StateVector, e: seq<real>): StateVector
    requires |e| == N
  {
    StateVector(
      Normalized(sqrt, Quaternion(s.quat.q1 - e[0], s.quat.q2 - e[1], s.quat.q3 - e[2], s.quat.q4 - e[3])),
      Vector3(s.velocity.x - e[4], s.velocity.y - e[5], s.velocity.z - e[6]),
      Vector3(s.position.x - e[7], s.position.y - e[8], s.position.z - e[9]),
      Vector3(s.gyroBias.x - e[10], s.gyroBias.y - e[11], s.gyroBias.z - e[12]),
      Vector3(s.accelBias.x - e[13], s.accelBias.y - e[14], s.accelBias.z - e[15]),
      Vector3(s.earthMagfield.x - e[16], s.earthMagfield.y - e[17], s.earthMagfield.z - e[18]),
      Vector3(s.bodyMagfield.x - e[19], s.bodyMagfield.y - e[20], s.bodyMagfield.z - e[21]),
      Vector2(s.windVel.x - e[22], s.windVel.y - e[23]))
  }

  lemma CorrectedSlots(sqrt: real -> real, s: StateVector, d: Vec, e: seq<real>)
    requires |e| == N && forall i | 0 <= i < N :: e[i] == d(i)
    ensures Corrected(sqrt, s, d) == Slotwise(sqrt, s, e)
  {
    hide Normalized;
  }

  lemma BlockEntry(x: Inputs, p: Table, z: Vec, i: int, j: int)
    requires Symmetric(p) && 0 <= i <= j < 10 && forall k :: z(k) == 0.0
    ensures Predicted(x, p, z)(i, j) == DenseEntry(x, p, i, j) == Predicted(x, p, z)(j, i)
  {
    hide Congruence, Noise, Jacobian, DenseEntry;
    BlockIsCongruence(x, p, i, j);
    PredictedSymmetric(x, p, z);
  }

  /** The new covariance depends on the old one, the flags and the noise up to the index limit. */
  lemma SamePropagate(c': Core, c: Core, x: Inputs, noise: seq<real>, d: Vec)
    requires |noise| == 14 && c'.P == c.P && c'.inhibit == c.inhibit
    requires forall i | 10 <= i <= StateIndexLim(c.inhibit) :: noise[i - 10] == d(i)
    requires forall i | i < 10 :: d(i) == 0.0
    ensures Propagate(c', x, NoiseVec(noise)) == Propagate(c, x, d)
  {
    hide Congruence, Noise, Jacobian;
    SameMat(Propagate(c', x, NoiseVec(noise)), Propagate(c, x, d));
  }

  lemma ObservationsPositive(sqrt: real -> real, c: Core)
    ensures GpsHorizVelObsVariance(sqrt, c) > 0.0 && GpsVertVelObsVariance(sqrt, c) > 0.0
    ensures GpsHorizPosObsVariance(sqrt, c) > 0.0 && BaroHgtObsVariance(c) > 0.0
  {}

  class EkfCore {
    const sqrt: real -> real
    const P: array2<real>
    var state: StateVector
    var inhibit: Inhibit
    var tuning: Tuning
    var velDotNedFilt: Vector3
    var hgtRate: real
    var vertVelVarClipCounter: int
    var lastVelPassTimeS: real
    var lastPosPassTimeS: real
    var lastHgtPassTimeS: real
    var innovMag: Vector3
    var varInnovMag: Vector3
    var innovVtas: real
    var varInnovVtas: real

    /** The estimator as a value. */
    function Abs(): Core
      requires Square(P)
      reads this, P
    {
      Core(Snapshot(P), state, inhibit, tuning, velDotNedFilt, hgtRate, vertVelVarClipCounter,
           lastVelPassTimeS, lastPosPassTimeS, lastHgtPassTimeS, innovMag, varInnovMag, innovVtas, varInnovVtas)
    }

    ghost predicate Valid()
      reads this, P
    {
      Square(P) && Invariant(Abs())
    }

    constructor (sqrt: real -> real, state: StateVector, inhibit: Inhibit, tuning: Tuning)
      ensures Valid() && fresh(P) && this.sqrt == sqrt
      ensures Abs() == Core(ZeroMat(), state, inhibit, tuning, ZERO3, 0.0, 0, 0.0, 0.0, 0.0, ZERO3, ZERO3, 0.0, 0.0)
    {
      this.sqrt := sqrt;
      this.state, this.inhibit, this.tuning := state, inhibit, tuning;
      P := new real[N, N]((i, j) => 0.0);
      velDotNedFilt, hgtRate, vertVelVarClipCounter := ZERO3, 0.0, 0;
      lastVelPassTimeS, lastPosPassTimeS, lastHgtPassTimeS := 0.0, 0.0, 0.0;
      innovMag, varInnovMag, innovVtas, varInnovVtas := ZERO3, ZERO3, 0.0, 0.0;
      new;
      SnapshotIs(P, ZeroMat());
      ZeroSymmetric();
    }

    // ---- variance limits ----

    method GuardVerticalVelocity()
      requires Square(P)
      modifies this`vertVelVarClipCounter, P
      ensures Abs() == VerticalGuard(old(Abs()))
    {
      if P[6, 6] < VEL_STATE_MIN_VARIANCE {
        SetVariances(P, 6, 6, VEL_STATE_MIN_VARIANCE);
        vertVelVarClipCounter := vertVelVarClipCounter + EKF_TARGET_RATE_HZ;
        if vertVelVarClipCounter > VERT_VEL_VAR_CLIP_COUNT_LIM {
          ClearRowsCols(P, 6, 6);
          SetVariances(P, 6, 6, Sq(tuning.gpsVertVelNoise));
          vertVelVarClipCounter := 0;
        }
      }
    }

    method LimitAccelBias(dtEkfAvg: real)
      requires Square(P)
      modifies this`state, P
      ensures Abs() == AccelBiasGuard(old(Abs()), dtEkfAvg)
    {
      hide ClampDiagonal, ZeroRowsCols, SetDiagonal, AccelBiasVariance;
      var maxStateVar, resetRequired := 0.0, false;
      for i := 13 to 16
        invariant (maxStateVar, resetRequired) == ScanAccelBias(Snapshot(P), i - 1)
      {
        var v := P[i, i];
        if v > maxStateVar {
          maxStateVar := v;
        } else if v < MIN_SAFE_STATE_VAR {
          resetRequired := true;
        }
      }
      LimitVariances(P, 13, 15, Max(0.01 * maxStateVar, MIN_SAFE_STATE_VAR), Sq(10.0 * dtEkfAvg));
      if resetRequired {
        ClearRowsCols(P, 13, 15);
        SetVariances(P, 13, 15, AccelBiasVariance(tuning, dtEkfAvg));
        state := state.(accelBias := ZERO3);
      }
    }

    method ConstrainVariances(dtEkfAvg: real)
      requires Square(P)
      modifies this`state, this`vertVelVarClipCounter, P
      ensures Abs() == Constrained(old(Abs()), dtEkfAvg)
    {
      hide VerticalGuard, AccelBiasGuard, ClampDiagonal, ZeroRowsCols;
      LimitVariances(P, 0, 3, 0.0, 1.0);
      LimitVariances(P, 4, 5, VEL_STATE_MIN_VARIANCE, 1000.0);
      GuardVerticalVelocity();
      LimitVariances(P, 7, 9, POS_STATE_MIN_VARIANCE, 1000000.0);
      LimitVariances(P, 10, 12, 0.0, Sq(0.175 * dtEkfAvg));
      LimitAccelBias(dtEkfAvg);
      if !inhibit.mag {
        LimitVariances(P, 16, 18, 0.0, 0.01);
        LimitVariances(P, 19, 21, 0.0, 0.01);
      } else {
        ClearRowsCols(P, 16, 21);
      }
      if !inhibit.wind {
        LimitVariances(P, 22, 23, 0.0, WIND_VEL_VARIANCE_MAX);
      } else {
        ClearRowsCols(P, 22, 23);
      }
    }

    // ---- the Kalman update ----

    method ApplyStateCorrection(kfusion: array<real>, innovation: real)
      requires kfusion.Length == N
      modifies this`state
      ensures state == Corrected(sqrt, old(state), Delta(VecOf(old(kfusion[..])), innovation))
    {
      hide Normalized, Corrected;
      var delta := StateDelta(kfusion, innovation);
      CorrectedSlots(sqrt, state, Delta(VecOf(kfusion[..]), innovation), delta);
      var s := state;
      s := s.(quat := Quaternion(s.quat.q1 - delta[0], s.quat.q2 - delta[1], s.quat.q3 - delta[2], s.quat.q4 - delta[3]));
      s := s.(velocity := Vector3(s.velocity.x - delta[4], s.velocity.y - delta[5], s.velocity.z - delta[6]));
      s := s.(position := Vector3(s.position.x - delta[7], s.position.y - delta[8], s.position.z - delta[9]));
      s := s.(gyroBias := Vector3(s.gyroBias.x - delta[10], s.gyroBias.y - delta[11], s.gyroBias.z - delta[12]));
      s := s.(accelBias := Vector3(s.accelBias.x - delta[13], s.accelBias.y - delta[14], s.accelBias.z - delta[15]));
      s := s.(earthMagfield := Vector3(s.earthMagfield.x - delta[16], s.earthMagfield.y - delta[17], s.earthMagfield.z - delta[18]));
      s := s.(bodyMagfield := Vector3(s.bodyMagfield.x - delta[19], s.bodyMagfield.y - delta[20], s.bodyMagfield.z - delta[21]));
      s := s.(windVel := Vector2(s.windVel.x - delta[22], s.windVel.y - delta[23]));
      state := s.(quat := Normalized(sqrt, s.quat));
    }

    /** Subtract the products from the covariance. */
    method SubtractProducts(khp: array2<real>, ghost h: Vec, ghost s: real)
      requires Square(P) && khp != P && s != 0.0
      requires HoldsProduct(khp, Gain(Abs(), h, s), ApplyT(Fn(Snapshot(P)), h), StateIndexLim(inhibit))
      modifies P
      ensures Abs() == old(Abs()).(P := Updated(old(Abs()), h, s))
    {
      hide Gain, ApplyT;
      ghost var c := Abs();
      Subtract(P, khp, StateIndexLim(inhibit));
      SnapshotIs(P, Updated(c, h, s));
    }

    /** Symmetrise, limit and correct: the end of a guarded fusion. */
    method Settle(kfusion: array<real>, innovation: real, dtEkfAvg: real, ghost k: Vec)
      requires Square(P) && Holds(kfusion, k)
      modifies this`state, this`vertVelVarClipCounter, P
      ensures var limited := Constrained(old(Abs()).(P := Symmetrised(old(Abs()).P, StateIndexLim(inhibit))), dtEkfAvg);
        Abs() == limited.(state := Corrected(sqrt, limited.state, Delta(k, innovation)))
    {
      hide Constrained, Symmetrised, Corrected;
      ForceSymmetry(P, StateIndexLim(inhibit));
      ConstrainVariances(dtEkfAvg);
      CorrectedCongruent(sqrt, state, Delta(VecOf(kfusion[..]), innovation), Delta(k, innovation));
      ApplyStateCorrection(kfusion, innovation);
    }

    /** The tail the direct and magnetometer fusions share: apply the update unless it would drive a variance negative. */
    method GuardedUpdate(kfusion: array<real>, khp: array2<real>, innovation: real, dtEkfAvg: real, ghost h: Vec, ghost s: real)
      returns (healthy: bool)
      requires Square(P) && khp != P && s != 0.0 && Holds(kfusion, Gain(Abs(), h, s))
      requires HoldsProduct(khp, Gain(Abs(), h, s), ApplyT(Fn(Snapshot(P)), h), StateIndexLim(inhibit))
      modifies this`state, this`vertVelVarClipCounter, P
      ensures healthy <==> Healthy(old(Abs()), h, s)
      ensures Abs() == if healthy then Fused(sqrt, old(Abs()), h, s, innovation, dtEkfAvg) else old(Abs())
    {
      hide Gain, ApplyT, Constrained, Symmetrised, Corrected, Updated, Times;
      ghost var k := Gain(Abs(), h, s);
      healthy := NoneNegative(P, khp, StateIndexLim(inhibit));
      if healthy {
        SubtractProducts(khp, h, s);
        Settle(kfusion, innovation, dtEkfAvg, k);
      }
    }

    method FuseDirectStateObservation(si: int, innovation: real, obsVariance: real, dtEkfAvg: real) returns (applied: bool)
      requires Valid() && 0 <= si <= 9 && obsVariance > 0.0
      modifies this`state, this`vertVelVarClipCounter, P
      ensures Valid() && (Abs(), applied) == FuseDirect(sqrt, old(Abs()), si, innovation, obsVariance, dtEkfAvg)
    {
      hide Gain, ApplyT, Fused, Healthy, Invariant, Times, Active, SameSettings;
      ghost var c := Abs();
      ghost var expected := FuseDirect(sqrt, c, si, innovation, obsVariance, dtEkfAvg);
      ObservedPositive(c, si, obsVariance);
      var s := P[si, si] + obsVariance;
      var kfusion := DirectGainArray(P, inhibit, si, 1.0 / s);
      forall i | 0 <= i < N ensures kfusion[i] == Gain(c, Unit(si), s)(i) {
        DirectGainHolds(c, si, s, i);
      }
      var khp := DirectProducts(P, kfusion, si, StateIndexLim(inhibit));
      forall j ensures ApplyT(Fn(c.P), Unit(si))(j) == At(c.P, si, j) {
        UnitRow(Fn(c.P), si, j);
      }
      applied := GuardedUpdate(kfusion, khp, innovation, dtEkfAvg, Unit(si), s);
      assert Abs() == expected.0;
    }

    // ---- prediction ----

    /** With `rotVar` the attitude rows restart from it and nothing else is predicted. */
    method CovariancePrediction(gyro: GyroSample, accel: AccelSample, dtEkfAvg: real, rotVar: Option<Vector3>)
      requires Square(P) && SymmetricMat(Snapshot(P))
      modifies this`state, this`hgtRate, this`vertVelVarClipCounter, P
      ensures rotVar.None? ==> Abs() == CovariancePredicted(old(Abs()), gyro, accel, dtEkfAvg)
      ensures rotVar.Some? ==> Abs() == AttitudeReset(old(Abs()), gyro, accel, dtEkfAvg, rotVar.value)
    {
      hide *;
      var dt := PredictionDt(gyro, accel, dtEkfAvg);
      if rotVar.Some? {
        ResetAttitudeRows(gyro, accel, dtEkfAvg, rotVar.value);
      } else {
        PredictRows(gyro, accel, dtEkfAvg);
      }
    }

    /** The early-return branch: the four attitude rows are cleared and given a new block. */
    method ResetAttitudeRows(gyro: GyroSample, accel: AccelSample, dtEkfAvg: real, rotVar: Vector3)
      requires Square(P) && SymmetricMat(Snapshot(P))
      modifies this`hgtRate, P
      ensures Abs() == AttitudeReset(old(Abs()), gyro, accel, dtEkfAvg, rotVar)
    {
      hide RotatedNoise, BlockInputs, ZeroRowsCols, PredictionDt, FilteredHgtRate, Predicted, ResetOf;
      ghost var c := Abs();
      var dt := PredictionDt(gyro, accel, dtEkfAvg);
      hgtRate := FilteredHgtRate(hgtRate, state.velocity.z, dt);
      var x := BlockInputs(state, tuning, gyro, accel, dt, RotatedNoise(state.quat, rotVar));
      ClearRowsCols(P, 0, 3);
      ZeroSymmetricRows(c.P);
      ReplaceAttitude(x);
    }

    method ReplaceAttitude(x: Inputs)
      requires Square(P) && SymmetricMat(Snapshot(P))
      modifies P
      ensures Snapshot(P) == ResetOf(old(Snapshot(P)), Predicted(x, Fn(old(Snapshot(P))), i => 0.0))
    {
      hide Clamp, DenseEntry, Predicted;
      var m := Snapshot(P);
      var next := new real[N, N]((i, j) => 0.0);
      WriteAttitude(next, x, Fn(m));
      CopyAttitude(P, next);
      forall i, j | 0 <= i <= j < 4
        ensures Predicted(x, Fn(m), i => 0.0)(i, j) == DenseEntry(x, Fn(m), i, j) == Predicted(x, Fn(m), i => 0.0)(j, i)
      {
        BlockEntry(x, Fn(m), i => 0.0, i, j);
      }
      SnapshotIs(P, ResetOf(m, Predicted(x, Fn(m), i => 0.0)));
    }

    /** The normal branch: every row up to the index limit is predicted. */
    method PredictRows(gyro: GyroSample, accel: AccelSample, dtEkfAvg: real)
      requires Square(P) && SymmetricMat(Snapshot(P))
      modifies this`state, this`hgtRate, this`vertVelVarClipCounter, P
      ensures Abs() == CovariancePredicted(old(Abs()), gyro, accel, dtEkfAvg)
    {
      hide BlockInputs, GyroNoise, ProcessNoiseOf, PredictionDt, FilteredHgtRate, Constrained, Propagate, NoiseVec;
      ghost var c := Abs();
      var dt := PredictionDt(gyro, accel, dtEkfAvg);
      hgtRate := FilteredHgtRate(hgtRate, state.velocity.z, dt);
      var noise := ProcessNoiseArray(inhibit, tuning, hgtRate, dt);
      var x := BlockInputs(state, tuning, gyro, accel, dt, GyroNoise(tuning, dt));
      ghost var d := PredictionNoise(c, gyro, accel, dtEkfAvg);
      SamePropagate(c.(hgtRate := hgtRate), c, x, noise[..], d);
      Propagation(x, noise);
      ConstrainVariances(dtEkfAvg);
      if vertVelVarClipCounter > 0 {
        vertVelVarClipCounter := vertVelVarClipCounter - 1;
      }
    }

    /** The new covariance formed in a scratch matrix and copied back. */
    method Propagation(x: Inputs, noise: array<real>)
      requires Square(P) && SymmetricMat(Snapshot(P)) && noise.Length == 14
      modifies P
      ensures Abs() == old(Abs()).(P := Propagate(old(Abs()), x, NoiseVec(old(noise[..]))))
    {
      hide Predicted, NoiseVec;
      ghost var c := Abs();
      var p, lim := Fn(Snapshot(P)), StateIndexLim(inhibit);
      var next := FormNext(x, p, noise, lim);
      ghost var predicted := Predicted(x, p, NoiseVec(noise[..]));
      PredictedSymmetric(x, p, NoiseVec(noise[..]));
      if P[7, 7] + P[8, 8] > 10000.0 {
        HoldPosition(next, P, lim);
      }
      CopyBack(P, next, lim);
      forall i, j | 0 <= i < N && 0 <= j < N ensures P[i, j] == At(Propagate(c, x, NoiseVec(noise[..])), i, j) {
        EntrySymmetric(c.P, i, j);
        assert predicted(i, j) == predicted(j, i);
      }
      SnapshotIs(P, Propagate(c, x, NoiseVec(noise[..])));
    }

    method Predict(gyro: GyroSample, accel: AccelSample, dtEkfAvg: real)
      requires Valid()
      modifies this`state, this`hgtRate, this`vertVelVarClipCounter, P
      ensures Valid() && Abs() == CovariancePredicted(old(Abs()), gyro, accel, dtEkfAvg)
    {
      hide CovariancePredicted;
      PredictionKeeps(Abs(), gyro, accel, dtEkfAvg);
      CovariancePrediction(gyro, accel, dtEkfAvg, None);
    }

    method CovarianceInit(dtEkfAvg: real)
      requires Square(P) && 0 <= vertVelVarClipCounter <= VERT_VEL_VAR_CLIP_COUNT_LIM
      modifies this`state, this`hgtRate, this`vertVelVarClipCounter, P
      ensures Valid() && Abs() == CovarianceInitialised(old(Abs()), dtEkfAvg)
    {
      hide AttitudeReset, InitialVarianceOf;
      ghost var c := Abs();
      InitialisedKeeps(c, dtEkfAvg);
      Clear(P);
      SnapshotIs(P, ZeroMat());
      ZeroSymmetric();
      CovariancePrediction(ZERO_GYRO, ZERO_ACCEL, dtEkfAvg, Some(INITIAL_ANGLE_VARIANCE));
      SeedMotionVariances(dtEkfAvg);
      SeedBiasVariances(dtEkfAvg);
      SeedFieldVariances(dtEkfAvg);
      SnapshotIs(P, CovarianceInitialised(c, dtEkfAvg).P);
    }

    /** The initial variances of the velocity and position states. */
    method SeedMotionVariances(dtEkfAvg: real)
      requires Square(P)
      modifies P
      ensures forall i, j | 0 <= i < N && 0 <= j < N ::
                P[i, j] == if i == j && 4 <= i <= 9 then InitialVarianceOf(tuning, dtEkfAvg, i) else old(P[i, j])
    {
      hide Sq, AccelBiasVariance, GyroBiasVariance;
      P[4, 4] := Sq(tuning.gpsHorizVelNoise);
      P[5, 5] := P[4, 4];
      P[6, 6] := Sq(tuning.gpsVertVelNoise);
      P[7, 7] := Sq(tuning.gpsHorizPosNoise);
      P[8, 8] := P[7, 7];
      P[9, 9] := Sq(tuning.baroAltNoise);
    }

    method SeedBiasVariances(dtEkfAvg: real)
      requires Square(P)
      modifies P
      ensures forall i, j | 0 <= i < N && 0 <= j < N ::
                P[i, j] == if i == j && 10 <= i <= 15 then InitialVarianceOf(tuning, dtEkfAvg, i) else old(P[i, j])
    {
      hide Sq, AccelBiasVariance, GyroBiasVariance;
      P[10, 10] := GyroBiasVariance(tuning, dtEkfAvg);
      P[11, 11] := P[10, 10];
      P[12, 12] := P[10, 10];
      P[13, 13] := AccelBiasVariance(tuning, dtEkfAvg);
      P[14, 14] := P[13, 13];
      P[15, 15] := P[13, 13];
    }

    method SeedFieldVariances(dtEkfAvg: real)
      requires Square(P)
      modifies P
      ensures forall i, j | 0 <= i < N && 0 <= j < N ::
                P[i, j] == if i == j && 16 <= i <= 23 then InitialVarianceOf(tuning, dtEkfAvg, i) else old(P[i, j])
    {
      hide Sq, AccelBiasVariance, GyroBiasVariance;
      P[16, 16] := Sq(tuning.magNoise);
      P[17, 17] := P[16, 16];
      P[18, 18] := P[16, 16];
      P[19, 19] := Sq(tuning.magNoise);
      P[20, 20] := P[19, 19];
      P[21, 21] := P[19, 19];
      P[22, 22] := 0.0;
      P[23, 23] := 0.0;
    }

    // ---- GPS and barometer ----

    method RestartRows(first: int, last: int, v: real)
      requires Square(P) && 0 <= first <= last < N
      modifies P
      ensures Snapshot(P) == RowsReset(old(Snapshot(P)), first, last, v)
    {
      ClearRowsCols(P, first, last);
      SetVariances(P, first, last, v);
    }

    method ResetVelocity(gps: GpsSample, now: real)
      requires Valid()
      modifies this`state, this`lastVelPassTimeS, P
      ensures Valid() && Abs() == EkfOperations.ResetVelocity(old(Abs()), gps, now)
    {
      hide RowsReset, Invariant;
      RestartRows(4, 5, Sq(tuning.gpsHorizVelNoise));
      state := state.(velocity := Vector3(gps.velocityNed.x, gps.velocityNed.y, state.velocity.z));
      lastVelPassTimeS := now;
      assert Abs() == EkfOperations.ResetVelocity(old(Abs()), gps, now);
    }

    method ResetPosition(gps: GpsSample, now: real)
      requires Valid()
      modifies this`state, this`lastPosPassTimeS, P
      ensures Valid() && Abs() == EkfOperations.ResetPosition(old(Abs()), gps, now)
    {
      hide RowsReset, Invariant;
      RestartRows(7, 8, Sq(tuning.gpsHorizPosNoise));
      state := state.(position := Vector3(gps.positionNe.x, gps.positionNe.y, state.position.z));
      lastPosPassTimeS := now;
      assert Abs() == EkfOperations.ResetPosition(old(Abs()), gps, now);
    }

    method ResetHeight(baroAltitude: real, now: real)
      requires Valid()
      modifies this`state, this`lastHgtPassTimeS, P
      ensures Valid() && Abs() == EkfOperations.ResetHeight(old(Abs()), baroAltitude, now)
    {
      hide RowsReset, Invariant;
      var v := Sq(Clamp(tuning.baroAltNoise, 0.1, 100.0));
      RestartRows(9, 9, v);
      state := state.(position := Vector3(state.position.x, state.position.y, -baroAltitude));
      lastHgtPassTimeS := now;
      assert Abs() == EkfOperations.ResetHeight(old(Abs()), baroAltitude, now);
    }

    method FuseGpsVelocity(gps: GpsSample, dtEkfAvg: real, now: real) returns (fused: int)
      requires Valid()
      modifies this`state, this`vertVelVarClipCounter, this`lastVelPassTimeS, P
      ensures Valid() && (Abs(), fused) == EkfOperations.FuseGpsVelocity(sqrt, old(Abs()), gps, dtEkfAvg, now)
    {
      hide Invariant, FuseDirect, GpsHorizVelObsVariance, GpsVertVelObsVariance, GpsVelTestRatio, EkfOperations.ResetVelocity;
      ghost var c := Abs();
      ghost var expected := EkfOperations.FuseGpsVelocity(sqrt, c, gps, dtEkfAvg, now);
      fused := 0;
      if GpsVelTestRatio(sqrt, Abs(), gps) >= 1.0 {
        if now - lastVelPassTimeS >= GPS_FUSION_TIMEOUT_S {
          ResetVelocity(gps, now);
        }
        assert Abs() == expected.0;
        return;
      }
      var horiz, vert := GpsHorizVelObsVariance(sqrt, Abs()), GpsVertVelObsVariance(sqrt, Abs());
      ObservationsPositive(sqrt, c);
      var north := FuseDirectStateObservation(4, state.velocity.x - gps.velocityNed.x, horiz, dtEkfAvg);
      var east := FuseDirectStateObservation(5, state.velocity.y - gps.velocityNed.y, horiz, dtEkfAvg);
      var down := FuseDirectStateObservation(6, state.velocity.z - gps.velocityNed.z, vert, dtEkfAvg);
      if north {
        fused := fused + 1;
      }
      if east {
        fused := fused + 1;
      }
      if down {
        fused := fused + 1;
      }
      if fused > 0 {
        lastVelPassTimeS := now;
      }
      assert Abs() == expected.0;
    }

    method FuseGpsPosition(gps: GpsSample, dtEkfAvg: real, now: real) returns (fused: int)
      requires Valid()
      modifies this`state, this`vertVelVarClipCounter, this`lastPosPassTimeS, P
      ensures Valid() && (Abs(), fused) == EkfOperations.FuseGpsPosition(sqrt, old(Abs()), gps, dtEkfAvg, now)
    {
      hide Invariant, FuseDirect, GpsHorizPosObsVariance, GpsPosTestRatio, EkfOperations.ResetPosition;
      ghost var c := Abs();
      ghost var expected := EkfOperations.FuseGpsPosition(sqrt, c, gps, dtEkfAvg, now);
      fused := 0;
      if GpsPosTestRatio(sqrt, Abs(), gps) >= 1.0 {
        if now - lastPosPassTimeS >= GPS_FUSION_TIMEOUT_S {
          ResetPosition(gps, now);
        }
        assert Abs() == expected.0;
        return;
      }
      var r := GpsHorizPosObsVariance(sqrt, Abs());
      ObservationsPositive(sqrt, c);
      var north := FuseDirectStateObservation(7, state.position.x - gps.positionNe.x, r, dtEkfAvg);
      var east := FuseDirectStateObservation(8, state.position.y - gps.positionNe.y, r, dtEkfAvg);
      if north {
        fused := fused + 1;
      }
      if east {
        fused := fused + 1;
      }
      if fused > 0 {
        lastPosPassTimeS := now;
      }
      assert Abs() == expected.0;
    }

    method FuseBaroHeight(baroAltitude: real, dtEkfAvg: real, now: real) returns (applied: bool)
      requires Valid()
      modifies this`state, this`vertVelVarClipCounter, this`lastHgtPassTimeS, P
      ensures Valid() && (Abs(), applied) == EkfOperations.FuseBaroHeight(sqrt, old(Abs()), baroAltitude, dtEkfAvg, now)
    {
      hide Invariant, FuseDirect, BaroHgtObsVariance, HgtTestRatio, EkfOperations.ResetHeight;
      ghost var c := Abs();
      ghost var expected := EkfOperations.FuseBaroHeight(sqrt, c, baroAltitude, dtEkfAvg, now);
      if HgtTestRatio(Abs(), baroAltitude) >= 1.0 {
        if now - lastHgtPassTimeS >= BARO_FUSION_TIMEOUT_S {
          ResetHeight(baroAltitude, now);
        }
        applied := false;
        assert Abs() == expected.0;
        return;
      }
      var r := BaroHgtObsVariance(Abs());
      ObservationsPositive(sqrt, c);
      applied := FuseDirectStateObservation(9, state.position.z + baroAltitude, r, dtEkfAvg);
      if applied {
        lastHgtPassTimeS := now;
      }
      assert Abs() == expected.0;
    }

    // ---- magnetometer ----

    method MagGainArray(m: MagEntry, axis: int) returns (kfusion: array<real>)
      requires Square(P) && UsableEntry(m) && 0 <= axis <= 2 && Axis(m.variance, axis) != 0.0
      ensures fresh(kfusion) && Holds(kfusion, Gain(Abs(), Dense(MagRowOf(m.g, axis)), Axis(m.variance, axis)))
    {
      hide Gain, Times, Active, MagRowOf, Dense, MagNumerator, Axis;
      var s, p := Axis(m.variance, axis), Fn(Snapshot(P));
      kfusion := MaskedGain(inhibit, i => MagNumerator(m.g, RowOf(p, i), axis), 1.0 / s);
      forall i | 0 <= i < N ensures kfusion[i] == Gain(Abs(), Dense(MagRowOf(m.g, axis)), s)(i) {
        MagGain(Abs(), m.g, s, axis, i);
      }
    }

    method MagProductArray(m: MagEntry, axis: int, kfusion: array<real>, ghost k: Vec) returns (khp: array2<real>)
      requires Square(P) && 0 <= axis <= 2 && Holds(kfusion, k)
      ensures fresh(khp) && HoldsProduct(khp, k, ApplyT(Fn(Snapshot(P)), Dense(MagRowOf(m.g, axis))), StateIndexLim(inhibit))
    {
      hide ApplyT, Times, MagRowOf, Dense, SparseDot;
      khp := MagProducts(P, kfusion, MagRowOf(m.g, axis), StateIndexLim(inhibit));
      forall j ensures ApplyT(Fn(Snapshot(P)), Dense(MagRowOf(m.g, axis)))(j) == SparseDot(MagRowOf(m.g, axis), ColOf(Fn(Snapshot(P)), j)) {
        MagColumn(m.g, Fn(Snapshot(P)), axis, j);
      }
    }

    /** The gain and products of one axis from the values captured on entry, then the guarded update. */
    method UpdateMagAxis(m: MagEntry, axis: int, dtEkfAvg: real) returns (healthy: bool)
      requires Square(P) && UsableEntry(m) && 0 <= axis <= 2 && Axis(m.variance, axis) != 0.0
      modifies this`state, this`vertVelVarClipCounter, P
      ensures var h, s := Dense(MagRowOf(m.g, axis)), Axis(m.variance, axis);
        && (healthy <==> Healthy(old(Abs()), h, s))
        && Abs() == if healthy then Fused(sqrt, old(Abs()), h, s, Axis(m.innovation, axis), dtEkfAvg) else old(Abs())
    {
      hide Gain, ApplyT, Fused, Healthy, Holds, HoldsProduct, MagRowOf, Dense, Axis;
      ghost var h, s := Dense(MagRowOf(m.g, axis)), Axis(m.variance, axis);
      var kfusion := MagGainArray(m, axis);
      var khp := MagProductArray(m, axis, kfusion, Gain(Abs(), h, s));
      healthy := GuardedUpdate(kfusion, khp, Axis(m.innovation, axis), dtEkfAvg, h, s);
    }

    /** An axis that would drive a variance negative reinitialises the covariance instead. */
    method FuseMagAxis(m: MagEntry, axis: int, dtEkfAvg: real) returns (healthy: bool)
      requires Valid() && UsableEntry(m) && 0 <= axis <= 2
      modifies this`state, this`vertVelVarClipCounter, this`hgtRate, P
      ensures Valid() && (Abs(), healthy) == MagAxis(sqrt, old(Abs()), m, axis, dtEkfAvg)
    {
      hide Fused, Healthy, Invariant, CovarianceInitialised, MagRowOf, Dense, Axis, MagAxis, UsableEntry;
      ghost var expected := MagAxis(sqrt, Abs(), m, axis, dtEkfAvg);
      MagAxisCases(sqrt, Abs(), m, axis, dtEkfAvg);
      healthy := UpdateMagAxis(m, axis, dtEkfAvg);
      if !healthy {
        CovarianceInit(dtEkfAvg);
      }
      assert Abs() == expected.0;
    }

    method FuseMagnetometer(mag: Vector3, gyro: GyroSample, dtEkfAvg: real) returns (fused: bool)
      requires Valid() && gyro.deltaAngleDt != 0.0
      modifies this`state, this`vertVelVarClipCounter, this`hgtRate, this`innovMag, this`varInnovMag, P
      ensures Valid() && (Abs(), fused) == EkfOperations.FuseMagnetometer(sqrt, old(Abs()), mag, gyro, dtEkfAvg)
    {
      hide SymmetricMat, VariancesBelow, MagAxes, MagHealth, MagInnovation, MagObsVariance, VarInnovX, VarInnovY, VarInnovZ, CovarianceInitialised;
      ghost var expected := EkfOperations.FuseMagnetometer(sqrt, Abs(), mag, gyro, dtEkfAvg);
      var g, p := MagGeometryOf(state), Fn(Snapshot(P));
      innovMag := MagInnovation(state, mag);
      var r := MagObsVariance(sqrt, tuning, gyro);
      varInnovMag := varInnovMag.(x := VarInnovX(g, p, r));
      if varInnovMag.x < r {
        CovarianceInit(dtEkfAvg);
        assert Abs() == expected.0;
        return false;
      }
      varInnovMag := varInnovMag.(y := VarInnovY(g, p, r));
      if varInnovMag.y < r {
        CovarianceInit(dtEkfAvg);
        assert Abs() == expected.0;
        return false;
      }
      varInnovMag := varInnovMag.(z := VarInnovZ(g, p, r));
      if varInnovMag.z < r {
        CovarianceInit(dtEkfAvg);
        assert Abs() == expected.0;
        return false;
      }
      ObservationPositive(sqrt, tuning, gyro);
      if !MagHealth(innovMag, varInnovMag, tuning.magInnovGatePct) {
        assert Abs() == expected.0;
        return false;
      }
      assert expected == MagAxes(sqrt, Abs(), MagEntry(g, varInnovMag, innovMag), 0, dtEkfAvg);
      fused := FuseAxes(MagEntry(g, varInnovMag, innovMag), dtEkfAvg);
    }

    method FuseAxes(m: MagEntry, dtEkfAvg: real) returns (fused: bool)
      requires Valid() && UsableEntry(m)
      modifies this`state, this`vertVelVarClipCounter, this`hgtRate, P
      ensures Valid() && (Abs(), fused) == MagAxes(sqrt, old(Abs()), m, 0, dtEkfAvg)
    {
      hide Invariant, UsableEntry, MagAxis;
      ghost var expected := MagAxes(sqrt, Abs(), m, 0, dtEkfAvg);
      for axis := 0 to 3
        invariant Valid() && MagAxes(sqrt, Abs(), m, axis, dtEkfAvg) == expected
      {
        var healthy := FuseMagAxis(m, axis, dtEkfAvg);
        if !healthy {
          return false;
        }
      }
      return true;
    }

    // ---- airspeed ----

    method TasProductArray(g: TasGeometry, kfusion: array<real>, ghost k: Vec) returns (khp: array2<real>)
      requires Square(P) && Holds(kfusion, k)
      ensures fresh(khp) && HoldsProduct(khp, k, ApplyT(Fn(Snapshot(P)), DenseTas(g)), StateIndexLim(inhibit))
    {
      hide ApplyT, Times, DenseTas, SparseTas;
      khp := TasProducts(P, kfusion, g, StateIndexLim(inhibit));
      forall j ensures ApplyT(Fn(Snapshot(P)), DenseTas(g))(j) == SparseTas(g, ColOf(Fn(Snapshot(P)), j)) {
        TasColumn(g, Fn(Snapshot(P)), j);
      }
    }

    method TasGainArray(g: TasGeometry, s: real) returns (kfusion: array<real>)
      requires Square(P) && s != 0.0
      ensures fresh(kfusion) && Holds(kfusion, Gain(Abs(), DenseTas(g), s))
    {
      hide Gain, Times, Active, DenseTas, NumeratorTas;
      var p := Fn(Snapshot(P));
      kfusion := MaskedGain(inhibit, i => NumeratorTas(g, RowOf(p, i)), 1.0 / s);
      forall i | 0 <= i < N ensures kfusion[i] == Gain(Abs(), DenseTas(g), s)(i) {
        TasGain(Abs(), g, s, i);
      }
    }

    /** The unguarded covariance update and the state correction. */
    method UpdateTas(g: TasGeometry, s: real)
      requires Square(P) && s != 0.0
      modifies this`state, P
      ensures Abs() == TasUpdated(sqrt, old(Abs()), DenseTas(g), s)
    {
      hide Gain, ApplyT, DenseTas, Updated, Corrected, HoldsProduct;
      ghost var k := Gain(Abs(), DenseTas(g), s);
      var kfusion := TasGainArray(g, s);
      var khp := TasProductArray(g, kfusion, k);
      SubtractProducts(khp, DenseTas(g), s);
      CorrectedCongruent(sqrt, state, Delta(VecOf(kfusion[..]), innovVtas), Delta(k, innovVtas));
      ApplyStateCorrection(kfusion, innovVtas);
    }

    method FuseAirspeed(trueAirspeed: real, dtEkfAvg: real) returns (consistent: bool)
      requires Valid()
      modifies this`state, this`vertVelVarClipCounter, this`hgtRate, this`innovVtas, this`varInnovVtas, P
      ensures Valid() && (Abs(), consistent) == EkfOperations.FuseAirspeed(sqrt, old(Abs()), trueAirspeed, dtEkfAvg)
    {
      hide SymmetricMat, VariancesBelow, Constrained, Symmetrised, TasUpdated, VarInnovTas, SharedTerms, DenseTas, CovarianceInitialised, TestRatio, Flat;
      ghost var expected := EkfOperations.FuseAirspeed(sqrt, Abs(), trueAirspeed, dtEkfAvg);
      var pred := PredictedAirspeed(sqrt, state);
      if !(pred > 1.0) {
        return false;
      }
      innovVtas := pred - trueAirspeed;
      var g, r := TasGeometryOf(state, pred), TasVariance(Abs());
      var s := VarInnovTas(g, Fn(Snapshot(P)), r);
      if s < r {
        CovarianceInit(dtEkfAvg);
        assert Abs() == expected.0;
        return false;
      }
      varInnovVtas := s;
      assert expected == TasOutcome(sqrt, Abs(), DenseTas(g), s, dtEkfAvg);
      consistent := SettleTas(g, s, dtEkfAvg);
    }

    /** An inconsistent measurement skips the update, never the limits. */
    method SettleTas(g: TasGeometry, s: real, dtEkfAvg: real) returns (consistent: bool)
      requires Valid() && s > 0.0
      modifies this`state, this`vertVelVarClipCounter, P
      ensures Valid() && (Abs(), consistent) == TasOutcome(sqrt, old(Abs()), DenseTas(g), s, dtEkfAvg)
    {
      hide Invariant, Constrained, Symmetrised, TasUpdated, DenseTas, TestRatio;
      ghost var expected := TasOutcome(sqrt, Abs(), DenseTas(g), s, dtEkfAvg);
      consistent := TestRatio(Sq(innovVtas), s, tuning.tasInnovGatePct) < 1.0;
      if consistent {
        UpdateTas(g, s);
      }
      ForceSymmetry(P, StateIndexLim(inhibit));
      ConstrainVariances(dtEkfAvg);
      assert Abs() == expected.0;
    }
  }
}
