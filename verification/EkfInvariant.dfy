/**
 What every operation keeps: the covariance is a symmetric 24x24 matrix with no negative variance,
 and the clip counter stays within its limit.
 */
module EkfInvariant {
  import opened Numeric
  import opened Geometry
  import opened LinearAlgebra
  import opened PredictionBlock
  import opened CovariancePropagation
  import opened EkfModel
  import opened EkfPrediction

  ghost predicate SymmetricMat(m: Mat) { Dim(m) && Symmetric(Fn(m)) }

  /** No negative variance among the states below `n`. */
  ghost predicate VariancesBelow(m: Mat, n: int) { forall i | 0 <= i < n && i < N :: At(m, i, i) >= 0.0 }

  ghost predicate Invariant(c: Core) {
    && SymmetricMat(c.P)
    && VariancesBelow(c.P, N)
    && 0 <= c.vertVelVarClipCounter <= VERT_VEL_VAR_CLIP_COUNT_LIM
  }

  lemma EntrySymmetric(m: Mat, i: int, j: int)
    requires SymmetricMat(m) && 0 <= i < N && 0 <= j < N
    ensures At(m, i, j) == At(m, j, i)
  {
    assert Fn(m)(i, j) == Fn(m)(j, i);
  }

  lemma ClampKeeps(m: Mat, first: int, last: int, lo: real, hi: real)
    requires SymmetricMat(m) && lo >= 0.0 && hi >= 0.0
    requires VariancesBelow(m, first) && 0 <= first <= last < N
    ensures SymmetricMat(ClampDiagonal(m, first, last, lo, hi)) && VariancesBelow(ClampDiagonal(m, first, last, lo, hi), last + 1)
  {
    var r := ClampDiagonal(m, first, last, lo, hi);
    forall i, j | 0 <= i < N && 0 <= j < N ensures Fn(r)(i, j) == Fn(r)(j, i) {
      EntrySymmetric(m, i, j);
    }
  }

  lemma ZeroKeeps(m: Mat, first: int, last: int)
    requires SymmetricMat(m) && VariancesBelow(m, first) && 0 <= first <= last < N
    ensures SymmetricMat(ZeroRowsCols(m, first, last)) && VariancesBelow(ZeroRowsCols(m, first, last), last + 1)
  {
    var r := ZeroRowsCols(m, first, last);
    forall i, j | 0 <= i < N && 0 <= j < N ensures Fn(r)(i, j) == Fn(r)(j, i) {
      EntrySymmetric(m, i, j);
    }
  }

  lemma SetKeeps(m: Mat, first: int, last: int, v: real)
    requires SymmetricMat(m) && v >= 0.0 && VariancesBelow(m, first) && 0 <= first <= last < N
    ensures SymmetricMat(SetDiagonal(m, first, last, v)) && VariancesBelow(SetDiagonal(m, first, last, v), last + 1)
  {
    var r := SetDiagonal(m, first, last, v);
    forall i, j | 0 <= i < N && 0 <= j < N ensures Fn(r)(i, j) == Fn(r)(j, i) {
      EntrySymmetric(m, i, j);
    }
  }

  lemma VerticalKeeps(c: Core)
    requires SymmetricMat(c.P) && VariancesBelow(c.P, 6)
    requires 0 <= c.vertVelVarClipCounter <= VERT_VEL_VAR_CLIP_COUNT_LIM
    ensures SymmetricMat(VerticalGuard(c).P) && VariancesBelow(VerticalGuard(c).P, 7)
    ensures 0 <= VerticalGuard(c).vertVelVarClipCounter <= VERT_VEL_VAR_CLIP_COUNT_LIM
  {
    hide SetDiagonal, ZeroRowsCols, ClampDiagonal;
    if At(c.P, 6, 6) < VEL_STATE_MIN_VARIANCE {
      SetKeeps(c.P, 6, 6, VEL_STATE_MIN_VARIANCE);
      var raised := SetDiagonal(c.P, 6, 6, VEL_STATE_MIN_VARIANCE);
      ZeroKeeps(raised, 6, 6);
      SetKeeps(ZeroRowsCols(raised, 6, 6), 6, 6, Sq(c.tuning.gpsVertVelNoise));
    }
  }

  lemma AccelBiasKeeps(c: Core, dtEkfAvg: real)
    requires SymmetricMat(c.P) && VariancesBelow(c.P, 13)
    ensures SymmetricMat(AccelBiasGuard(c, dtEkfAvg).P) && VariancesBelow(AccelBiasGuard(c, dtEkfAvg).P, 16)
  {
    hide SetDiagonal, ZeroRowsCols, ClampDiagonal, ScanAccelBias;
    var limited := AccelBiasLimited(c.P, dtEkfAvg);
    ClampKeeps(c.P, 13, 15, Max(0.01 * ScanAccelBias(c.P, 15).0, MIN_SAFE_STATE_VAR), Sq(10.0 * dtEkfAvg));
    ZeroKeeps(limited, 13, 15);
    SetKeeps(ZeroRowsCols(limited, 13, 15), 13, 15, AccelBiasVariance(c.tuning, dtEkfAvg));
  }

  /** The variance limits establish the invariant on any symmetric matrix, whatever its diagonal. */
  lemma ConstrainedKeeps(c: Core, dtEkfAvg: real)
    requires SymmetricMat(c.P) && 0 <= c.vertVelVarClipCounter <= VERT_VEL_VAR_CLIP_COUNT_LIM
    ensures Invariant(Constrained(c, dtEkfAvg))
    ensures Constrained(c, dtEkfAvg).inhibit == c.inhibit && Constrained(c, dtEkfAvg).tuning == c.tuning
  {
    hide SetDiagonal, ZeroRowsCols, ClampDiagonal, ScanAccelBias, Sq, Clamp;
    var m0 := ClampDiagonal(c.P, 0, 3, 0.0, 1.0);
    ClampKeeps(c.P, 0, 3, 0.0, 1.0);
    ClampKeeps(m0, 4, 5, VEL_STATE_MIN_VARIANCE, 1000.0);
    var c0 := c.(P := ClampDiagonal(m0, 4, 5, VEL_STATE_MIN_VARIANCE, 1000.0));
    VerticalKeeps(c0);
    var c1 := VerticalGuard(c0);
    ClampKeeps(c1.P, 7, 9, POS_STATE_MIN_VARIANCE, 1000000.0);
    var m2 := ClampDiagonal(c1.P, 7, 9, POS_STATE_MIN_VARIANCE, 1000000.0);
    ClampKeeps(m2, 10, 12, 0.0, Sq(0.175 * dtEkfAvg));
    var c2 := c1.(P := ClampDiagonal(m2, 10, 12, 0.0, Sq(0.175 * dtEkfAvg)));
    AccelBiasKeeps(c2, dtEkfAvg);
    var c3 := AccelBiasGuard(c2, dtEkfAvg);
    if c.inhibit.mag {
      ZeroKeeps(c3.P, 16, 21);
      FieldKeeps(c, c3, ZeroRowsCols(c3.P, 16, 21));
    } else {
      ClampKeeps(c3.P, 16, 18, 0.0, 0.01);
      ClampKeeps(ClampDiagonal(c3.P, 16, 18, 0.0, 0.01), 19, 21, 0.0, 0.01);
      FieldKeeps(c, c3, ClampDiagonal(ClampDiagonal(c3.P, 16, 18, 0.0, 0.01), 19, 21, 0.0, 0.01));
    }
  }

  lemma FieldKeeps(c: Core, c3: Core, m: Mat)
    requires SymmetricMat(m) && VariancesBelow(m, 22)
    ensures var r := if c.inhibit.wind then ZeroRowsCols(m, 22, 23) else ClampDiagonal(m, 22, 23, 0.0, WIND_VEL_VARIANCE_MAX);
      SymmetricMat(r) && VariancesBelow(r, N)
  {
    hide ZeroRowsCols, ClampDiagonal;
    ZeroKeeps(m, 22, 23);
    ClampKeeps(m, 22, 23, 0.0, WIND_VEL_VARIANCE_MAX);
  }

  /** Averaging the pairs within the limit restores symmetry when the entries past it are symmetric already. */
  lemma SymmetrisedKeeps(m: Mat, lim: int)
    requires Dim(m)
    requires forall i, j | 0 <= i < N && 0 <= j < N && (i > lim || j > lim) :: At(m, i, j) == At(m, j, i)
    ensures SymmetricMat(Symmetrised(m, lim))
  {
    var r := Symmetrised(m, lim);
    forall i, j | 0 <= i < N && 0 <= j < N ensures Fn(r)(i, j) == Fn(r)(j, i) {
      if i > lim || j > lim {
        assert At(m, i, j) == At(m, j, i);
      }
    }
  }

  /** The update, whatever its gain, leaves entries above the index limit alone. */
  lemma UpdatedSymmetrises(c: Core, h: Vec, s: real)
    requires SymmetricMat(c.P) && s != 0.0
    ensures SymmetricMat(Symmetrised(Updated(c, h, s), StateIndexLim(c.inhibit)))
  {
    hide Gain, ApplyT, Symmetrised;
    var lim, m := StateIndexLim(c.inhibit), Updated(c, h, s);
    forall i, j | 0 <= i < N && 0 <= j < N && (i > lim || j > lim) ensures At(m, i, j) == At(m, j, i) {
      EntrySymmetric(c.P, i, j);
    }
    SymmetrisedKeeps(m, lim);
  }

  lemma FusedKeeps(sqrt: real -> real, c: Core, h: Vec, s: real, innovation: real, dtEkfAvg: real)
    requires Invariant(c) && s != 0.0
    ensures Invariant(Fused(sqrt, c, h, s, innovation, dtEkfAvg))
  {
    hide Constrained, Updated, Symmetrised, Gain, Corrected;
    UpdatedSymmetrises(c, h, s);
    ConstrainedKeeps(c.(P := Symmetrised(Updated(c, h, s), StateIndexLim(c.inhibit))), dtEkfAvg);
  }

  lemma PropagateKeeps(c: Core, x: Inputs, d: Vec)
    requires SymmetricMat(c.P)
    ensures SymmetricMat(Propagate(c, x, d))
  {
    hide Predicted;
    PredictedSymmetric(x, Fn(c.P), d);
    var next, r := Predicted(x, Fn(c.P), d), Propagate(c, x, d);
    forall i, j | 0 <= i < N && 0 <= j < N ensures Fn(r)(i, j) == Fn(r)(j, i) {
      EntrySymmetric(c.P, i, j);
      assert next(i, j) == next(j, i);
    }
  }

  lemma PredictedSymmetric(x: Inputs, P: Table, d: Vec)
    requires Symmetric(P)
    ensures Symmetric(Predicted(x, P, d))
  {
    hide Congruence, Jacobian, Noise;
    var a := Congruence(Jacobian(x), P);
    CongruenceSymmetric(Jacobian(x), P);
    forall i, j | 0 <= i < N && 0 <= j < N ensures Predicted(x, P, d)(i, j) == Predicted(x, P, d)(j, i) {
      NoiseSymmetric(x, i, j);
      assert a(i, j) == a(j, i);
    }
  }

  lemma PredictionKeeps(c: Core, gyro: GyroSample, accel: AccelSample, dtEkfAvg: real)
    requires Invariant(c)
    ensures Invariant(CovariancePredicted(c, gyro, accel, dtEkfAvg))
  {
    hide Constrained, Propagate;
    var x, d := PredictionInputs(c, gyro, accel, dtEkfAvg), PredictionNoise(c, gyro, accel, dtEkfAvg);
    PropagateKeeps(c, x, d);
    ConstrainedKeeps(c.(P := Propagate(c, x, d), hgtRate := FilteredHgtRate(c.hgtRate, c.state.velocity.z, PredictionDt(gyro, accel, dtEkfAvg))), dtEkfAvg);
  }

  lemma ZeroSymmetric()
    ensures SymmetricMat(ZeroMat())
  {
    var z := ZeroMat();
    forall i, j | 0 <= i < N && 0 <= j < N ensures Fn(z)(i, j) == Fn(z)(j, i) {}
  }

  lemma AttitudeResetSymmetric(c: Core, gyro: GyroSample, accel: AccelSample, dtEkfAvg: real, rot: Vector3)
    requires SymmetricMat(c.P)
    ensures var r := AttitudeReset(c, gyro, accel, dtEkfAvg, rot);
      SymmetricMat(r.P) && VariancesBelow(r.P, 4)
      && r.vertVelVarClipCounter == c.vertVelVarClipCounter && r.inhibit == c.inhibit && r.tuning == c.tuning
  {
    hide Predicted, ZeroRowsCols, Clamp, RotatedNoise;
    ZeroSymmetricRows(c.P);
    var m := ZeroRowsCols(c.P, 0, 3);
    var x := BlockInputs(c.state, c.tuning, gyro, accel, PredictionDt(gyro, accel, dtEkfAvg), RotatedNoise(c.state.quat, rot));
    var d: Vec := i => 0.0;
    PredictedSymmetric(x, Fn(m), d);
    ResetTable(m, Predicted(x, Fn(m), d));
  }

  lemma ResetTable(m: Mat, next: Table)
    requires SymmetricMat(m) && Symmetric(next)
    ensures SymmetricMat(ResetOf(m, next)) && VariancesBelow(ResetOf(m, next), 4)
  {
    var r := ResetOf(m, next);
    forall i, j | 0 <= i < N && 0 <= j < N ensures Fn(r)(i, j) == Fn(r)(j, i) {
      EntrySymmetric(m, i, j);
      assert next(i, j) == next(j, i);
    }
  }

  lemma ZeroSymmetricRows(m: Mat)
    requires SymmetricMat(m)
    ensures SymmetricMat(ZeroRowsCols(m, 0, 3))
  {
    var r := ZeroRowsCols(m, 0, 3);
    forall i, j | 0 <= i < N && 0 <= j < N ensures Fn(r)(i, j) == Fn(r)(j, i) {
      EntrySymmetric(m, i, j);
    }
  }

  lemma InitialisedKeeps(c: Core, dtEkfAvg: real)
    requires 0 <= c.vertVelVarClipCounter <= VERT_VEL_VAR_CLIP_COUNT_LIM
    ensures Invariant(CovarianceInitialised(c, dtEkfAvg))
  {
    hide AttitudeReset;
    ZeroSymmetric();
    var c0 := c.(P := ZeroMat());
    AttitudeResetSymmetric(c0, ZERO_GYRO, ZERO_ACCEL, dtEkfAvg, INITIAL_ANGLE_VARIANCE);
    var reset := AttitudeReset(c0, ZERO_GYRO, ZERO_ACCEL, dtEkfAvg, INITIAL_ANGLE_VARIANCE);
    var r := CovarianceInitialised(c, dtEkfAvg).P;
    forall i, j | 0 <= i < N && 0 <= j < N ensures Fn(r)(i, j) == Fn(r)(j, i) {
      EntrySymmetric(reset.P, i, j);
    }
    forall i | 0 <= i < N ensures At(r, i, i) >= 0.0 {
      var v := InitialVarianceOf(c.tuning, dtEkfAvg, i);
    }
  }
}
