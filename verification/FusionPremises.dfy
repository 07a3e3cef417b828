/**
 The premises of the sequence theorems. They hold together: with the attitude and field states
 uncorrelated with the others and every variance within its limits, no limit acts during a
 magnetometer call, and an uncorrelated covariance of moderate variances can be fused on. And they
 are needed: a variance cut down to its upper limit can cost positive semidefiniteness.
 */
module FusionPremises {
  import opened Numeric
  import opened Geometry
  import opened LinearAlgebra
  import opened EkfModel
  import opened ScalarFusion
  import opened EkfInvariant
  import opened MagFusion
  import opened EkfOperations
  import opened EkfRuns
  import opened MagSequence
  import opened VarianceLimits
  import opened FusionLimits
  import opened MeasurementRuns

  /** The attitude and field states are uncorrelated with all others. */
  ghost predicate MagApart(m: Mat) {
    forall i, j | 0 <= i < N && 0 <= j < N && MagState(i) && !MagState(j) :: At(m, i, j) == 0.0 && At(m, j, i) == 0.0
  }

  lemma OffMagProduct(m: Mat, h: Vec, i: int)
    requires MagApart(m) && OnMagStates(h) && 0 <= i < N && !MagState(i)
    ensures Apply(Fn(m), h)(i) == 0.0
  {
    hide Dot;
    var zero: Vec := k => 0.0;
    forall k | 0 <= k < N
      ensures RowOf(Fn(m), i)(k) * h(k) == zero(k) * h(k)
    {
      if MagState(k) {
        assert At(m, i, k) == 0.0;
      } else {
        assert h(k) == 0.0;
      }
    }
    DotAgree(N, RowOf(Fn(m), i), h, zero, h);
    ZeroRow(zero, h);
  }

  /** A magnetometer axis then changes the covariance between attitude and field states only. */
  lemma OffMagEntry(c: Core, h: Vec, s: real, i: int, j: int)
    requires Legal(c) && MagApart(c.P) && OnMagStates(h) && s != 0.0 && 0 <= i < N && 0 <= j < N
    requires !MagState(i) || !MagState(j)
    ensures At(Updated(c, h, s), i, j) == At(c.P, i, j)
  {
    hide Apply, Updated, PositiveSemidefinite;
    var u := Apply(Fn(c.P), h);
    UpdateEntry(c, h, s, i, j);
    if !MagState(i) {
      OffMagProduct(c.P, h, i);
    }
    if !MagState(j) {
      OffMagProduct(c.P, h, j);
    }
    Quotient(u(i), u(j), s);
  }

  lemma MagUpdateWithin(c: Core, h: Vec, s: real, dtEkfAvg: real)
    requires Legal(c) && WithinLimits(c, dtEkfAvg) && MagApart(c.P) && OnMagStates(h) && s > 0.0 && Form(Fn(c.P), h, h) <= s
    ensures var u := c.(P := Updated(c, h, s)); Legal(u) && WithinLimits(u, dtEkfAvg) && MagApart(u.P)
  {
    hide Form, Updated, PositiveSemidefinite, ScanAccelBias, AccelBiasVariance, Sq;
    UpdateKeepsPsd(c, h, s);
    GuardNeverRejects(c, h, s);
    var m := Updated(c, h, s);
    forall i, j | 0 <= i < N && 0 <= j < N && (!MagState(i) || !MagState(j))
      ensures At(m, i, j) == At(c.P, i, j)
    {
      OffMagEntry(c, h, s, i, j);
    }
    forall i | 0 <= i < N
      ensures 0.0 <= At(m, i, i) <= At(c.P, i, i)
    {
      DiagonalNonNegative(Fn(m), i);
    }
    ScanCongruent(m, c.P, 15);
  }

  /** The correction of a magnetometer axis does not reach the accel bias. */
  lemma AccelBiasStays(sqrt: real -> real, c: Core, h: Vec, s: real, innovation: real)
    requires Legal(c) && MagApart(c.P) && OnMagStates(h) && s != 0.0
    ensures Corrected(sqrt, c.state, Delta(Gain(c, h, s), innovation)).accelBias == c.state.accelBias
  {
    hide Apply, Corrected, PositiveSemidefinite;
    forall i | 13 <= i <= 15
      ensures Delta(Gain(c, h, s), innovation)(i) == 0.0
    {
      OffMagProduct(c.P, h, i);
      Quotient(0.0, innovation, s);
    }
    CorrectedAccelBias(sqrt, c.state, Delta(Gain(c, h, s), innovation));
  }

  lemma CorrectedAccelBias(sqrt: real -> real, s: StateVector, d: Vec)
    requires forall i | 13 <= i <= 15 :: d(i) == 0.0
    ensures Corrected(sqrt, s, d).accelBias == s.accelBias
  {
    hide Normalized;
  }

  lemma SameWithin(a: Core, b: Core, dtEkfAvg: real)
    requires a.P == b.P && a.inhibit == b.inhibit && a.tuning == b.tuning && a.state.accelBias == b.state.accelBias
    ensures WithinLimits(a, dtEkfAvg) == WithinLimits(b, dtEkfAvg)
  {
    hide ScanAccelBias, AccelBiasVariance, Sq, Between, FieldFits, Restarted;
  }

  /** No limit acts between the axes when the attitude and field states are uncorrelated with the rest and all variances within limits. */
  lemma {:induction false} AxesIdleApart(sqrt: real -> real, c: Core, m: MagEntry, axis: int, dtEkfAvg: real)
    requires Invariant(c) && Legal(c) && WithinLimits(c, dtEkfAvg) && MagApart(c.P) && UsableEntry(m) && 0 <= axis <= 3
    requires forall k | axis <= k < 3 :: NotStale(c, AxisScalar(m, k))
    ensures AxesIdle(sqrt, c, m, axis, dtEkfAvg)
    decreases 3 - axis
  {
    hide Form, Healthy, Updated, Constrained, Corrected, Legal, Dense, MagRowOf, Invariant, Symmetrised, WithinLimits, MagApart, OnMagStates, Fused, Gain;
    if axis < 3 {
      AxisPositive(m, axis);
      var h, s, e := Dense(MagRowOf(m.g, axis)), Axis(m.variance, axis), Axis(m.innovation, axis);
      assert NotStale(c, AxisScalar(m, axis));
      MagRowStates(m.g, axis);
      MagUpdateWithin(c, h, s, dtEkfAvg);
      var u, next := c.(P := Updated(c, h, s)), Fused(sqrt, c, h, s, e, dtEkfAvg);
      LegalDim(u);
      IdleExactly(u, dtEkfAvg);
      IdleFused(sqrt, c, h, s, e, dtEkfAvg);
      FusedFrame(sqrt, c, h, s, e, dtEkfAvg);
      AccelBiasStays(sqrt, c, h, s, e);
      SameWithin(u, next, dtEkfAvg);
      forall k | axis + 1 <= k < 3
        ensures NotStale(next, AxisScalar(m, k))
      {
        assert NotStale(c, AxisScalar(m, k));
        FormShrinks(c, h, s, AxisScalar(m, k).h);
      }
      AxesIdleApart(sqrt, next, m, axis + 1, dtEkfAvg);
    }
  }

  lemma LegalDim(c: Core)
    requires Legal(c)
    ensures Dim(c.P)
  {}

  /** An uncorrelated covariance of moderate variances meets the premises, whether the accel bias is in use or not. */
  lemma ModeratePremises(c: Core, d: Vec)
    requires c.P == DiagonalMat(d) && Moderate(d) && -50.0 <= c.tuning.accBiasLim <= 50.0
    ensures Fusable(c, PERIOD) && WithinLimits(c, PERIOD) && MagApart(c.P)
    ensures !c.inhibit.delVelBias ==> Legal(c)
  {
    hide PositiveSemidefinite, ScanAccelBias, AccelBiasVariance;
    DiagonalLegal(Freed(c), d);
    ModerateWithin(c, d);
    SmallRestart(c.tuning);
    FusableIsLegal(c, PERIOD);
  }

  lemma SmallRestart(t: Tuning)
    requires -50.0 <= t.accBiasLim <= 50.0
    ensures RoomForAccelBias(t, PERIOD)
  {
    var v := 0.002 * t.accBiasLim;
    assert ACCEL_BIAS_LIM_SCALER * t.accBiasLim * PERIOD == v;
    SquareBounded(v, 0.1);
  }

  // ---- a variance above its limit ----

  /** The limits leave the covariance of the two horizontal velocities as it is. */
  lemma HorizontalStays(c: Core, dtEkfAvg: real, i: int, j: int)
    requires 4 <= i <= 5 && 4 <= j <= 5 && i != j
    ensures At(Constrained(c, dtEkfAvg).P, i, j) == At(c.P, i, j)
  {
    hide Constrained, ClampDiagonal, VerticalGuard, AccelBiasGuard, AfterAccelBias, Sq, Clamp;
    var m0 := ClampDiagonal(c.P, 0, 3, 0.0, 1.0);
    var c0 := c.(P := ClampDiagonal(m0, 4, 5, VEL_STATE_MIN_VARIANCE, 1000.0));
    ClampEntry(c.P, 0, 3, 0.0, 1.0, i, j);
    ClampEntry(m0, 4, 5, VEL_STATE_MIN_VARIANCE, 1000.0, i, j);
    VerticalLeaves(c0, i, j);
    var m1 := VerticalGuard(c0).P;
    ClampEntry(m1, 7, 9, POS_STATE_MIN_VARIANCE, 1000000.0, i, j);
    ClampEntry(ClampDiagonal(m1, 7, 9, POS_STATE_MIN_VARIANCE, 1000000.0), 10, 12, 0.0, Sq(0.175 * dtEkfAvg), i, j);
    var c2 := BeforeAccelBias(c, dtEkfAvg);
    AccelBiasEntry(c2, dtEkfAvg, i, j);
    FieldedEntry(c, AccelBiasGuard(c2, dtEkfAvg), i, j);
    ConstrainedIs(c, dtEkfAvg);
  }

  lemma VerticalLeaves(c: Core, i: int, j: int)
    requires 4 <= i <= 5 && 4 <= j <= 5
    ensures At(VerticalGuard(c).P, i, j) == At(c.P, i, j)
  {
    hide Sq;
    var raised := SetDiagonal(c.P, 6, 6, VEL_STATE_MIN_VARIANCE);
    assert At(raised, i, j) == At(c.P, i, j);
    assert At(SetDiagonal(ZeroRowsCols(raised, 6, 6), 6, 6, Sq(c.tuning.gpsVertVelNoise)), i, j) == At(raised, i, j);
  }

  lemma HorizontalVariance(c: Core, dtEkfAvg: real, i: int)
    requires 4 <= i <= 5
    ensures At(Constrained(c, dtEkfAvg).P, i, i) == Clamp(At(c.P, i, i), VEL_STATE_MIN_VARIANCE, 1000.0)
  {
    hide Constrained, BeforeAccelBias, AccelBiasGuard, AfterAccelBias, Clamp, Sq, ScanAccelBias, AccelBiasVariance;
    EarlyVariance(c, dtEkfAvg, i);
    AccelBiasEntry(BeforeAccelBias(c, dtEkfAvg), dtEkfAvg, i, i);
    FieldedEntry(c, AccelBiasGuard(BeforeAccelBias(c, dtEkfAvg), dtEkfAvg), i, i);
    ConstrainedIs(c, dtEkfAvg);
  }

  /** One horizontal velocity error of deviation 60 and 20 along the two axes: the first variance is 3600, past its limit of 1000. */
  function Spread(): Vec { i => if i == 4 then 60.0 else if i == 5 then 20.0 else 0.0 }

  /** Cutting a variance down can cost a legal covariance its positive semidefiniteness. */
  lemma CuttingBreaks(c: Core, dtEkfAvg: real)
    requires c.P == Build(RankOne((i, j) => 0.0, 1.0, Spread())) && Invariant(c)
    ensures Legal(c) && !PositiveSemidefinite(Fn(Constrained(c, dtEkfAvg).P))
  {
    hide Form, Constrained;
    var zero: Table := (i, j) => 0.0;
    ZeroPsd(zero);
    RankOneUpPsd(zero, 1.0, Spread());
    PsdCongruent(RankOne(zero, 1.0, Spread()), Fn(c.P));
    var m := Fn(Constrained(c, dtEkfAvg).P);
    HorizontalStays(c, dtEkfAvg, 4, 5);
    HorizontalVariance(c, dtEkfAvg, 4);
    HorizontalVariance(c, dtEkfAvg, 5);
    ConstrainedKeeps(c, dtEkfAvg);
    FormCombine(m, Unit(4), -2.0, Unit(5));
    FormUnits(m, 4, 4);
    FormUnits(m, 4, 5);
    FormUnits(m, 5, 5);
    var x := Combine(Unit(4), -2.0, Unit(5));
    assert Form(m, x, x) == -2200.0;
  }
}
