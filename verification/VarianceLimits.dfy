/**
 When the variance limits leave an estimator alone: a condition on its variances that can be read
 off before the call, with a covariance that meets it throughout a pair of fusions.
 */
module VarianceLimits {
  import opened Numeric
  import opened Geometry
  import opened LinearAlgebra
  import opened EkfModel
  import opened CovariancePropagation
  import opened ScalarFusion
  import opened FusionOrder
  import opened EkfRuns

  predicate Between(m: Mat, first: int, last: int, lo: real, hi: real) {
    forall i | first <= i <= last :: lo <= At(m, i, i) <= hi
  }

  predicate RowsZero(m: Mat, first: int, last: int) {
    forall i, j | 0 <= i < N && 0 <= j < N && (Within(i, first, last) || Within(j, first, last)) :: At(m, i, j) == 0.0
  }

  /** The accel bias block right after a restart. */
  predicate Restarted(m: Mat, v: real) {
    forall i, j | 0 <= i < N && 0 <= j < N && (Within(i, 13, 15) || Within(j, 13, 15)) :: At(m, i, j) == if i == j then v else 0.0
  }

  predicate AccelBiasFits(c: Core, dtEkfAvg: real) {
    if ScanAccelBias(c.P, 15).1 then c.state.accelBias == ZERO3 && Restarted(c.P, AccelBiasVariance(c.tuning, dtEkfAvg))
    else Between(c.P, 13, 15, Max(0.01 * ScanAccelBias(c.P, 15).0, MIN_SAFE_STATE_VAR), Sq(10.0 * dtEkfAvg))
  }

  predicate FieldFits(m: Mat, inhibited: bool, first: int, last: int, hi: real) {
    if inhibited then RowsZero(m, first, last) else Between(m, first, last, 0.0, hi)
  }

  /** Every variance is within its limits, and the rows of inhibited field and wind states are zero. */
  predicate WithinLimits(c: Core, dtEkfAvg: real) {
    && Between(c.P, 0, 3, 0.0, 1.0)
    && Between(c.P, 4, 5, VEL_STATE_MIN_VARIANCE, 1000.0)
    && At(c.P, 6, 6) >= VEL_STATE_MIN_VARIANCE
    && Between(c.P, 7, 9, POS_STATE_MIN_VARIANCE, 1000000.0)
    && Between(c.P, 10, 12, 0.0, Sq(0.175 * dtEkfAvg))
    && AccelBiasFits(c, dtEkfAvg)
    && FieldFits(c.P, c.inhibit.mag, 16, 21, 0.01)
    && FieldFits(c.P, c.inhibit.wind, 22, 23, WIND_VEL_VARIANCE_MAX)
  }

  // ---- one limit at a time ----

  lemma ClampIdle(m: Mat, first: int, last: int, lo: real, hi: real)
    requires Dim(m) && Between(m, first, last, lo, hi)
    ensures ClampDiagonal(m, first, last, lo, hi) == m
  {
    SameMat(ClampDiagonal(m, first, last, lo, hi), m);
  }

  lemma ZeroIdle(m: Mat, first: int, last: int)
    requires Dim(m) && RowsZero(m, first, last)
    ensures ZeroRowsCols(m, first, last) == m
  {
    SameMat(ZeroRowsCols(m, first, last), m);
  }

  lemma AccelBiasIdle(c: Core, dtEkfAvg: real)
    requires Dim(c.P) && AccelBiasFits(c, dtEkfAvg)
    ensures AccelBiasGuard(c, dtEkfAvg) == c
  {
    hide Sq, AccelBiasVariance, ScanAccelBias;
    if ScanAccelBias(c.P, 15).1 {
      SameMat(AccelBiasGuard(c, dtEkfAvg).P, c.P);
    } else {
      ClampIdle(c.P, 13, 15, Max(0.01 * ScanAccelBias(c.P, 15).0, MIN_SAFE_STATE_VAR), Sq(10.0 * dtEkfAvg));
    }
  }

  lemma FieldIdle(m: Mat, inhibited: bool, first: int, last: int, hi: real)
    requires Dim(m) && FieldFits(m, inhibited, first, last, hi)
    ensures inhibited ==> ZeroRowsCols(m, first, last) == m
    ensures !inhibited ==> ClampDiagonal(m, first, last, 0.0, hi) == m
  {
    if inhibited {
      ZeroIdle(m, first, last);
    } else {
      ClampIdle(m, first, last, 0.0, hi);
    }
  }

  lemma WithinIsIdle(c: Core, dtEkfAvg: real)
    requires Dim(c.P) && WithinLimits(c, dtEkfAvg)
    ensures Constrained(c, dtEkfAvg) == c
  {
    hide ClampDiagonal, ZeroRowsCols, AccelBiasGuard, AccelBiasFits, Sq;
    ClampIdle(c.P, 0, 3, 0.0, 1.0);
    ClampIdle(c.P, 4, 5, VEL_STATE_MIN_VARIANCE, 1000.0);
    ClampIdle(c.P, 7, 9, POS_STATE_MIN_VARIANCE, 1000000.0);
    ClampIdle(c.P, 10, 12, 0.0, Sq(0.175 * dtEkfAvg));
    AccelBiasIdle(c, dtEkfAvg);
    if !c.inhibit.mag {
      ClampIdle(c.P, 16, 18, 0.0, 0.01);
      ClampIdle(c.P, 19, 21, 0.0, 0.01);
    } else {
      ZeroIdle(c.P, 16, 21);
    }
    FieldIdle(c.P, c.inhibit.wind, 22, 23, WIND_VEL_VARIANCE_MAX);
  }

  // ---- what idle limits say about the variances ----

  /** The limits from the accel bias on. */
  function AfterAccelBias(c: Core, c3: Core): Core {
    var c4 := c3.(P := if c.inhibit.mag then ZeroRowsCols(c3.P, 16, 21)
                       else ClampDiagonal(ClampDiagonal(c3.P, 16, 18, 0.0, 0.01), 19, 21, 0.0, 0.01));
    c4.(P := if c.inhibit.wind then ZeroRowsCols(c4.P, 22, 23) else ClampDiagonal(c4.P, 22, 23, 0.0, WIND_VEL_VARIANCE_MAX))
  }

  lemma ZeroElsewhere(m: Mat, first: int, last: int, i: int, j: int)
    requires 0 <= i < N && 0 <= j < N
    ensures At(ZeroRowsCols(m, first, last), i, j) == if Within(i, first, last) || Within(j, first, last) then 0.0 else At(m, i, j)
  {}

  lemma ClampEntry(m: Mat, first: int, last: int, lo: real, hi: real, i: int, j: int)
    requires 0 <= i < N && 0 <= j < N
    ensures At(ClampDiagonal(m, first, last, lo, hi), i, j) == if i == j && Within(i, first, last) then Clamp(At(m, i, j), lo, hi) else At(m, i, j)
  {
    hide Clamp;
  }

  /** An entry after the field and wind limits. */
  function Fielded(h: Inhibit, v: real, i: int, j: int): real {
    if h.mag && (Within(i, 16, 21) || Within(j, 16, 21)) then 0.0
    else if h.wind && (Within(i, 22, 23) || Within(j, 22, 23)) then 0.0
    else if i == j && Within(i, 16, 21) then Clamp(v, 0.0, 0.01)
    else if i == j && Within(i, 22, 23) then Clamp(v, 0.0, WIND_VEL_VARIANCE_MAX)
    else v
  }

  lemma FieldedEntry(c: Core, c3: Core, i: int, j: int)
    requires 0 <= i < N && 0 <= j < N
    ensures At(AfterAccelBias(c, c3).P, i, j) == Fielded(c.inhibit, At(c3.P, i, j), i, j)
  {
    hide ClampDiagonal, ZeroRowsCols, Clamp;
    ClampZero();
    ZeroElsewhere(c3.P, 16, 21, i, j);
    ClampEntry(c3.P, 16, 18, 0.0, 0.01, i, j);
    var m := ClampDiagonal(c3.P, 16, 18, 0.0, 0.01);
    ClampEntry(m, 19, 21, 0.0, 0.01, i, j);
    var m4 := if c.inhibit.mag then ZeroRowsCols(c3.P, 16, 21) else ClampDiagonal(m, 19, 21, 0.0, 0.01);
    ZeroElsewhere(m4, 22, 23, i, j);
    ClampEntry(m4, 22, 23, 0.0, WIND_VEL_VARIANCE_MAX, i, j);
  }

  lemma ClampZero()
    ensures Clamp(0.0, 0.0, WIND_VEL_VARIANCE_MAX) == 0.0
  {}

  lemma ClampFixes(v: real, lo: real, hi: real)
    ensures Clamp(v, lo, hi) == v <==> lo <= v <= hi
  {}

  /** The variances of the motion and gyro bias states after their limits. */
  lemma EarlyVariance(c: Core, dtEkfAvg: real, i: int)
    requires 0 <= i <= 12
    ensures var v, r := At(c.P, i, i), At(BeforeAccelBias(c, dtEkfAvg).P, i, i);
      && (i <= 3 ==> r == Clamp(v, 0.0, 1.0))
      && (4 <= i <= 5 ==> r == Clamp(v, VEL_STATE_MIN_VARIANCE, 1000.0))
      && (7 <= i <= 9 ==> r == Clamp(v, POS_STATE_MIN_VARIANCE, 1000000.0))
      && (10 <= i ==> r == Clamp(v, 0.0, Sq(0.175 * dtEkfAvg)))
  {
    hide Clamp, Sq, ClampDiagonal, VerticalGuard;
    var m0 := ClampDiagonal(c.P, 0, 3, 0.0, 1.0);
    var c0 := c.(P := ClampDiagonal(m0, 4, 5, VEL_STATE_MIN_VARIANCE, 1000.0));
    var m1 := VerticalGuard(c0).P;
    ClampEntry(c.P, 0, 3, 0.0, 1.0, i, i);
    ClampEntry(m0, 4, 5, VEL_STATE_MIN_VARIANCE, 1000.0, i, i);
    if i != 6 {
      VerticalDiagonal(c0, i);
    }
    ClampEntry(m1, 7, 9, POS_STATE_MIN_VARIANCE, 1000000.0, i, i);
    ClampEntry(ClampDiagonal(m1, 7, 9, POS_STATE_MIN_VARIANCE, 1000000.0), 10, 12, 0.0, Sq(0.175 * dtEkfAvg), i, i);
  }

  lemma VerticalDiagonal(c: Core, i: int)
    requires 0 <= i < N && i != 6
    ensures At(VerticalGuard(c).P, i, i) == At(c.P, i, i)
  {
    hide Sq;
  }

  /** A vertical velocity variance that is too small is raised, until the counter passes its limit: then it restarts, uncorrelated with everything. */
  lemma VerticalActs(c: Core, i: int)
    requires At(c.P, 6, 6) < VEL_STATE_MIN_VARIANCE && 0 <= i < N
    ensures var r := VerticalGuard(c);
      if c.vertVelVarClipCounter + 83 <= 415 then
        r.vertVelVarClipCounter == c.vertVelVarClipCounter + 83 && At(r.P, 6, i) == if i == 6 then 0.0001 else At(c.P, 6, i)
      else
        r.vertVelVarClipCounter == 0 && At(r.P, 6, i) == At(r.P, i, 6) == if i == 6 then Sq(c.tuning.gpsVertVelNoise) else 0.0
  {
    hide Sq;
  }

  /** The clip counter moves exactly when the vertical velocity variance is too small. */
  lemma CounterMoves(c: Core, dtEkfAvg: real)
    ensures Constrained(c, dtEkfAvg).vertVelVarClipCounter == c.vertVelVarClipCounter <==> At(c.P, 6, 6) >= VEL_STATE_MIN_VARIANCE
  {
    hide ClampDiagonal, ZeroRowsCols, SetDiagonal, ScanAccelBias, AccelBiasLimited, Sq;
    var m0 := ClampDiagonal(c.P, 0, 3, 0.0, 1.0);
    ClampEntry(c.P, 0, 3, 0.0, 1.0, 6, 6);
    ClampEntry(m0, 4, 5, VEL_STATE_MIN_VARIANCE, 1000.0, 6, 6);
  }

  lemma AccelBiasEntry(c: Core, dtEkfAvg: real, i: int, j: int)
    requires 0 <= i < N && 0 <= j < N
    ensures var scan, r := ScanAccelBias(c.P, 15), At(AccelBiasGuard(c, dtEkfAvg).P, i, j);
      && (scan.1 && (Within(i, 13, 15) || Within(j, 13, 15)) ==> r == if i == j then AccelBiasVariance(c.tuning, dtEkfAvg) else 0.0)
      && (!scan.1 && i == j && Within(i, 13, 15) ==>
            r == Clamp(At(c.P, i, i), Max(0.01 * scan.0, MIN_SAFE_STATE_VAR), Sq(10.0 * dtEkfAvg)))
      && (!Within(i, 13, 15) && !Within(j, 13, 15) ==> r == At(c.P, i, j))
  {
    hide Clamp, Sq, ScanAccelBias, AccelBiasVariance, Max;
  }

  lemma ConstrainedIs(c: Core, dtEkfAvg: real)
    ensures Constrained(c, dtEkfAvg) == AfterAccelBias(c, AccelBiasGuard(BeforeAccelBias(c, dtEkfAvg), dtEkfAvg))
    ensures BeforeAccelBias(c, dtEkfAvg).tuning == c.tuning
  {
    hide ClampDiagonal, ZeroRowsCols, SetDiagonal, ScanAccelBias, AccelBiasLimited, Sq;
  }

  /** Idle limits hold every motion and gyro bias variance within its limits. */
  lemma IdleEarly(c: Core, dtEkfAvg: real, i: int)
    requires Constrained(c, dtEkfAvg) == c && 0 <= i <= 12
    ensures var v := At(c.P, i, i);
      && (i <= 3 ==> 0.0 <= v <= 1.0)
      && (4 <= i <= 5 ==> VEL_STATE_MIN_VARIANCE <= v <= 1000.0)
      && (7 <= i <= 9 ==> POS_STATE_MIN_VARIANCE <= v <= 1000000.0)
      && (10 <= i ==> 0.0 <= v <= Sq(0.175 * dtEkfAvg))
  {
    hide Constrained, BeforeAccelBias, AccelBiasGuard, AfterAccelBias, Clamp, Sq, ScanAccelBias, AccelBiasVariance;
    ConstrainedIs(c, dtEkfAvg);
    var c2 := BeforeAccelBias(c, dtEkfAvg);
    FieldedEntry(c, AccelBiasGuard(c2, dtEkfAvg), i, i);
    AccelBiasEntry(c2, dtEkfAvg, i, i);
    EarlyVariance(c, dtEkfAvg, i);
    ClampFixes(At(c.P, i, i), 0.0, 1.0);
    ClampFixes(At(c.P, i, i), VEL_STATE_MIN_VARIANCE, 1000.0);
    ClampFixes(At(c.P, i, i), POS_STATE_MIN_VARIANCE, 1000000.0);
    ClampFixes(At(c.P, i, i), 0.0, Sq(0.175 * dtEkfAvg));
  }

  lemma IdleAccelBias(c: Core, dtEkfAvg: real, i: int, j: int)
    requires Constrained(c, dtEkfAvg) == c && 0 <= i < N && 0 <= j < N && (Within(i, 13, 15) || Within(j, 13, 15))
    ensures var scan := ScanAccelBias(c.P, 15);
      && (scan.1 ==> At(c.P, i, j) == if i == j then AccelBiasVariance(c.tuning, dtEkfAvg) else 0.0)
      && (!scan.1 && i == j ==> Max(0.01 * scan.0, MIN_SAFE_STATE_VAR) <= At(c.P, i, i) <= Sq(10.0 * dtEkfAvg))
  {
    hide Constrained, BeforeAccelBias, AccelBiasGuard, AfterAccelBias, Clamp, Sq, ScanAccelBias, AccelBiasVariance, Max;
    ConstrainedIs(c, dtEkfAvg);
    SameScan(c, dtEkfAvg);
    var c2 := BeforeAccelBias(c, dtEkfAvg);
    FieldedEntry(c, AccelBiasGuard(c2, dtEkfAvg), i, j);
    AccelBiasEntry(c2, dtEkfAvg, i, j);
    if i == j {
      AccelBiasVariancesReach(c, dtEkfAvg, i);
      ClampFixes(At(c.P, i, i), Max(0.01 * ScanAccelBias(c.P, 15).0, MIN_SAFE_STATE_VAR), Sq(10.0 * dtEkfAvg));
    }
  }

  lemma IdleField(c: Core, dtEkfAvg: real, i: int, j: int)
    requires Constrained(c, dtEkfAvg) == c && 0 <= i < N && 0 <= j < N
    ensures c.inhibit.mag && (Within(i, 16, 21) || Within(j, 16, 21)) ==> At(c.P, i, j) == 0.0
    ensures c.inhibit.wind && (Within(i, 22, 23) || Within(j, 22, 23)) ==> At(c.P, i, j) == 0.0
    ensures !c.inhibit.mag && i == j && Within(i, 16, 21) ==> 0.0 <= At(c.P, i, j) <= 0.01
    ensures !c.inhibit.wind && i == j && Within(i, 22, 23) ==> 0.0 <= At(c.P, i, j) <= WIND_VEL_VARIANCE_MAX
  {
    hide Constrained, BeforeAccelBias, AccelBiasGuard, AfterAccelBias;
    ConstrainedIs(c, dtEkfAvg);
    FieldedEntry(c, AccelBiasGuard(BeforeAccelBias(c, dtEkfAvg), dtEkfAvg), i, j);
  }

  lemma IdleMotion(c: Core, dtEkfAvg: real)
    requires Constrained(c, dtEkfAvg) == c
    ensures Between(c.P, 0, 3, 0.0, 1.0) && Between(c.P, 4, 5, VEL_STATE_MIN_VARIANCE, 1000.0)
    ensures Between(c.P, 7, 9, POS_STATE_MIN_VARIANCE, 1000000.0) && Between(c.P, 10, 12, 0.0, Sq(0.175 * dtEkfAvg))
  {
    hide Constrained, Sq;
    forall i | 0 <= i <= 3
      ensures 0.0 <= At(c.P, i, i) <= 1.0
    {
      IdleEarly(c, dtEkfAvg, i);
    }
    forall i | 4 <= i <= 5
      ensures VEL_STATE_MIN_VARIANCE <= At(c.P, i, i) <= 1000.0
    {
      IdleEarly(c, dtEkfAvg, i);
    }
    forall i | 7 <= i <= 9
      ensures POS_STATE_MIN_VARIANCE <= At(c.P, i, i) <= 1000000.0
    {
      IdleEarly(c, dtEkfAvg, i);
    }
    forall i | 10 <= i <= 12
      ensures 0.0 <= At(c.P, i, i) <= Sq(0.175 * dtEkfAvg)
    {
      IdleEarly(c, dtEkfAvg, i);
    }
  }

  lemma IdleBias(c: Core, dtEkfAvg: real)
    requires Constrained(c, dtEkfAvg) == c
    ensures AccelBiasFits(c, dtEkfAvg)
  {
    hide Constrained, ScanAccelBias, AccelBiasVariance, Max, Sq;
    LimitsAndState(c, dtEkfAvg);
    if ScanAccelBias(c.P, 15).1 {
      forall i, j | 0 <= i < N && 0 <= j < N && (Within(i, 13, 15) || Within(j, 13, 15))
        ensures At(c.P, i, j) == if i == j then AccelBiasVariance(c.tuning, dtEkfAvg) else 0.0
      {
        IdleAccelBias(c, dtEkfAvg, i, j);
      }
    } else {
      forall i | 13 <= i <= 15
        ensures Max(0.01 * ScanAccelBias(c.P, 15).0, MIN_SAFE_STATE_VAR) <= At(c.P, i, i) <= Sq(10.0 * dtEkfAvg)
      {
        IdleAccelBias(c, dtEkfAvg, i, i);
      }
    }
  }

  lemma IdleFields(c: Core, dtEkfAvg: real)
    requires Constrained(c, dtEkfAvg) == c
    ensures FieldFits(c.P, c.inhibit.mag, 16, 21, 0.01) && FieldFits(c.P, c.inhibit.wind, 22, 23, WIND_VEL_VARIANCE_MAX)
  {
    hide Constrained;
    forall i, j | 0 <= i < N && 0 <= j < N
      ensures c.inhibit.mag && (Within(i, 16, 21) || Within(j, 16, 21)) ==> At(c.P, i, j) == 0.0
      ensures c.inhibit.wind && (Within(i, 22, 23) || Within(j, 22, 23)) ==> At(c.P, i, j) == 0.0
      ensures !c.inhibit.mag && i == j && Within(i, 16, 21) ==> 0.0 <= At(c.P, i, j) <= 0.01
      ensures !c.inhibit.wind && i == j && Within(i, 22, 23) ==> 0.0 <= At(c.P, i, j) <= WIND_VEL_VARIANCE_MAX
    {
      IdleField(c, dtEkfAvg, i, j);
    }
  }

  lemma IdleIsWithin(c: Core, dtEkfAvg: real)
    requires Constrained(c, dtEkfAvg) == c
    ensures WithinLimits(c, dtEkfAvg)
  {
    hide Constrained, Between, AccelBiasFits, FieldFits, Sq;
    CounterMoves(c, dtEkfAvg);
    IdleMotion(c, dtEkfAvg);
    IdleBias(c, dtEkfAvg);
    IdleFields(c, dtEkfAvg);
  }

  /** The limits leave an estimator alone exactly when its variances are within them. */
  lemma IdleExactly(c: Core, dtEkfAvg: real)
    requires Dim(c.P)
    ensures Constrained(c, dtEkfAvg) == c <==> WithinLimits(c, dtEkfAvg)
  {
    hide Constrained, WithinLimits;
    if WithinLimits(c, dtEkfAvg) {
      WithinIsIdle(c, dtEkfAvg);
    } else if Constrained(c, dtEkfAvg) == c {
      IdleIsWithin(c, dtEkfAvg);
    }
  }

  // ---- a pair of fusions the limits leave alone ----

  function DiagonalMat(d: Vec): Mat { Build((i, j) => if i == j then d(i) else 0.0) }

  lemma DiagonalLegal(c: Core, d: Vec)
    requires c.P == DiagonalMat(d)
    requires forall i | 0 <= i < N :: d(i) >= 0.0 && (!Active(c.inhibit, i) ==> d(i) == 0.0)
    ensures Legal(c)
  {
    hide Form;
    var zero: Table := (i, j) => 0.0;
    ZeroPsd(zero);
    DiagonalKeepsPsd(zero, N, d);
    PsdCongruent(WithDiagonal(zero, N, d), Fn(c.P));
  }

  lemma ZeroPsd(zero: Table)
    requires forall i, j | 0 <= i < N && 0 <= j < N :: zero(i, j) == 0.0
    ensures PositiveSemidefinite(zero)
  {
    hide Form;
    forall x: Vec
      ensures Form(zero, x, x) >= 0.0
    {
      ZeroForm(zero, x);
    }
  }

  lemma ZeroForm(zero: Table, x: Vec)
    requires forall i, j | 0 <= i < N && 0 <= j < N :: zero(i, j) == 0.0
    ensures Form(zero, x, x) == 0.0
  {
    hide Dot;
    forall i | 0 <= i < N
      ensures Apply(zero, x)(i) == 0.0
    {
      DotZero(N, x, RowOf(zero, i));
      DotCommutes(N, x, RowOf(zero, i));
    }
    DotZero(N, x, Apply(zero, x));
  }

  /** Fusing one state of an uncorrelated covariance changes that variance only. */
  lemma DiagonalUpdated(c: Core, d: Vec, si: int, r: real)
    requires c.P == DiagonalMat(d) && 4 <= si < 10 && r > 0.0
    requires forall i | 0 <= i < N :: d(i) >= 0.0 && (!Active(c.inhibit, i) ==> d(i) == 0.0)
    ensures var s := d(si) + r; Updated(c, Unit(si), s) == DiagonalMat(i => if i == si then d(si) * r / s else d(i))
  {
    hide Updated, Apply, Form;
    var s := d(si) + r;
    DiagonalLegal(c, d);
    var e: Vec := i => if i == si then d(si) * r / s else d(i);
    forall i, j | 0 <= i < N && 0 <= j < N
      ensures At(Updated(c, Unit(si), s), i, j) == At(DiagonalMat(e), i, j)
    {
      UpdateEntry(c, Unit(si), s, i, j);
      ApplyUnit(Fn(c.P), si, i);
      ApplyUnit(Fn(c.P), si, j);
      LeftOver(d(si), r, s);
    }
    UpdatedDim(c, Unit(si), s);
    SameMat(Updated(c, Unit(si), s), DiagonalMat(e));
  }

  lemma LeftOver(p: real, r: real, s: real)
    requires s == p + r && s > 0.0
    ensures p - p * p / s == p * r / s
  {
    assert p * s == p * p + p * r;
  }

  const PERIOD: real := 0.01

  /** Uncorrelated variances well within the limits at a period of ten milliseconds. */
  predicate Moderate(d: Vec) {
    && (forall i | 0 <= i <= 3 :: d(i) == 0.5)
    && (forall i | 4 <= i <= 9 :: 0.5 <= d(i) <= 1.0)
    && (forall i | 10 <= i <= 12 :: d(i) == 0.0)
    && (forall i | 13 <= i <= 15 :: d(i) == 0.01)
    && (forall i | 16 <= i < N :: d(i) == 0.0)
  }

  lemma ModerateScan(m: Mat)
    requires forall i | 13 <= i <= 15 :: At(m, i, i) == 0.01
    ensures ScanAccelBias(m, 15) == (0.01, false)
  {
    assert ScanAccelBias(m, 13) == (0.01, false);
    assert ScanAccelBias(m, 14) == (0.01, false);
  }

  lemma ModerateWithin(c: Core, d: Vec)
    requires c.P == DiagonalMat(d) && Moderate(d)
    ensures WithinLimits(c, PERIOD)
  {
    hide ScanAccelBias;
    ModerateScan(c.P);
  }

  lemma ModerateIdle(c: Core, d: Vec, si: int)
    requires c.P == DiagonalMat(d) && Moderate(d) && !c.inhibit.delVelBias && 4 <= si < 10 && d(si) == 1.0
    ensures LimitsIdle(c, si, 1.0, PERIOD) && Legal(c)
    ensures var e: Vec := i => if i == si then 0.5 else d(i);
      Updated(c, Unit(si), 2.0) == DiagonalMat(e) && Moderate(e)
  {
    hide Updated, Constrained, WithinLimits, PositiveSemidefinite, Symmetric;
    DiagonalLegal(c, d);
    ModerateUpdated(c, d, si);
    var e: Vec := i => if i == si then 0.5 else d(i);
    var u := c.(P := Updated(c, Unit(si), 2.0));
    ModerateWithin(u, e);
    IdleExactly(u, PERIOD);
  }

  lemma ModerateUpdated(c: Core, d: Vec, si: int)
    requires c.P == DiagonalMat(d) && Moderate(d) && !c.inhibit.delVelBias && 4 <= si < 10 && d(si) == 1.0
    ensures var e: Vec := i => if i == si then 0.5 else d(i); Updated(c, Unit(si), 2.0) == DiagonalMat(e)
  {
    hide Updated;
    DiagonalUpdated(c, d, si, 1.0);
    var e, e': Vec := i => if i == si then 0.5 else d(i), i => if i == si then d(si) * 1.0 / (d(si) + 1.0) else d(i);
    SameMat(DiagonalMat(e), DiagonalMat(e'));
  }

  /** The premises of order independence hold together: an uncorrelated covariance meets them for any two axes and measurements. */
  lemma OrderPremisesHold(sqrt: real -> real, c: Core, d: Vec, si: int, zi: real, sj: int, zj: real)
    requires c.P == DiagonalMat(d) && Moderate(d) && !c.inhibit.delVelBias
    requires 4 <= si < 10 && 4 <= sj < 10 && si != sj && d(si) == 1.0 && d(sj) == 1.0
    ensures Legal(c) && LimitsIdle(c, si, 1.0, PERIOD) && LimitsIdle(c, sj, 1.0, PERIOD)
    ensures LimitsIdle(FusedDirect(sqrt, c, si, zi, 1.0, PERIOD), sj, 1.0, PERIOD)
    ensures LimitsIdle(FusedDirect(sqrt, c, sj, zj, 1.0, PERIOD), si, 1.0, PERIOD)
  {
    hide Updated, FusedDirect, LimitsIdle, Moderate, Legal, Corrected;
    ModerateIdle(c, d, si);
    ModerateIdle(c, d, sj);
    DirectStep(sqrt, c, si, zi, 1.0, PERIOD);
    DirectStep(sqrt, c, sj, zj, 1.0, PERIOD);
    ModerateIdle(FusedDirect(sqrt, c, si, zi, 1.0, PERIOD), i => if i == si then 0.5 else d(i), sj);
    ModerateIdle(FusedDirect(sqrt, c, sj, zj, 1.0, PERIOD), i => if i == sj then 0.5 else d(i), si);
  }
}
