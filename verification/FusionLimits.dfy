/**
 Measurement updates with the limits acting: a limit that raises a variance or restarts a row keeps
 a covariance positive semidefinite, and after an update no upper limit can act that did not act
 before. So the guards of a sequence of fusions hold whatever the lower limits do.
 */
module FusionLimits {
  import opened Numeric
  import opened LinearAlgebra
  import opened CovariancePropagation
  import opened EkfModel
  import opened ScalarFusion
  import opened EkfRuns
  import opened FusionOrder
  import opened VarianceLimits

  // ---- forms and products entry by entry ----

  lemma {:induction false} DotAgree(n: nat, u: Vec, v: Vec, u': Vec, v': Vec)
    requires forall k | 0 <= k < n :: u(k) * v(k) == u'(k) * v'(k)
    ensures Dot(n, u, v) == Dot(n, u', v')
  {
    if n > 0 {
      DotAgree(n - 1, u, v, u', v');
    }
  }

  /** A form depends only on the entries between states its vector touches. */
  lemma FormLocal(a: Table, b: Table, h: Vec)
    requires forall i, j | 0 <= i < N && 0 <= j < N :: h(i) == 0.0 || h(j) == 0.0 || a(i, j) == b(i, j)
    ensures Form(a, h, h) == Form(b, h, h)
  {
    hide Dot;
    forall i | 0 <= i < N
      ensures h(i) * Apply(a, h)(i) == h(i) * Apply(b, h)(i)
    {
      if h(i) != 0.0 {
        forall k | 0 <= k < N
          ensures RowOf(a, i)(k) * h(k) == RowOf(b, i)(k) * h(k)
        {
          if h(k) != 0.0 {
            assert a(i, k) == b(i, k);
          }
        }
        DotAgree(N, RowOf(a, i), h, RowOf(b, i), h);
      }
    }
    DotAgree(N, h, Apply(a, h), h, Apply(b, h));
  }

  function Masked(x: Vec, first: int, last: int): Vec { i => if Within(i, first, last) then 0.0 else x(i) }

  lemma ZeroedForm(m: Mat, first: int, last: int, x: Vec)
    ensures Form(Fn(ZeroRowsCols(m, first, last)), x, x) == Form(Fn(m), Masked(x, first, last), Masked(x, first, last))
  {
    hide Dot;
    var a, b, y := Fn(ZeroRowsCols(m, first, last)), Fn(m), Masked(x, first, last);
    forall i | 0 <= i < N
      ensures x(i) * Apply(a, x)(i) == y(i) * Apply(b, y)(i)
    {
      if Within(i, first, last) {
        forall k | 0 <= k < N
          ensures x(k) * RowOf(a, i)(k) == 0.0 * RowOf(a, i)(k)
        {
          assert a(i, k) == 0.0;
        }
        ZeroRow(RowOf(a, i), x);
      } else {
        forall k | 0 <= k < N
          ensures RowOf(a, i)(k) * x(k) == RowOf(b, i)(k) * y(k)
        {
          assert a(i, k) == if Within(k, first, last) then 0.0 else b(i, k);
        }
        DotAgree(N, RowOf(a, i), x, RowOf(b, i), y);
      }
    }
    DotAgree(N, x, Apply(a, x), y, Apply(b, y));
  }

  lemma ZeroRow(u: Vec, x: Vec)
    requires forall k | 0 <= k < N :: u(k) == 0.0
    ensures Dot(N, u, x) == 0.0
  {
    hide Dot;
    DotCommutes(N, u, x);
    DotZero(N, x, u);
  }

  // ---- what each limit does to a covariance ----

  ghost predicate Covariance(m: Mat) { Dim(m) && Symmetric(Fn(m)) && PositiveSemidefinite(Fn(m)) }

  lemma RaiseKeeps(m: Mat, first: int, last: int, lo: real, hi: real)
    requires Covariance(m) && lo <= hi && forall i | first <= i <= last :: At(m, i, i) <= hi
    ensures Covariance(ClampDiagonal(m, first, last, lo, hi))
  {
    hide Form;
    var r := ClampDiagonal(m, first, last, lo, hi);
    var d: Vec := i => if Within(i, first, last) then Clamp(At(m, i, i), lo, hi) - At(m, i, i) else 0.0;
    DiagonalKeepsPsd(Fn(m), N, d);
    PsdCongruent(WithDiagonal(Fn(m), N, d), Fn(r));
    forall i, j | 0 <= i < N && 0 <= j < N
      ensures Fn(r)(i, j) == Fn(r)(j, i)
    {
      assert Fn(m)(i, j) == Fn(m)(j, i);
    }
  }

  lemma RestartKeeps(m: Mat, first: int, last: int, v: real)
    requires Covariance(m) && v >= 0.0
    ensures Covariance(SetDiagonal(ZeroRowsCols(m, first, last), first, last, v))
  {
    hide Form;
    var z := ZeroRowsCols(m, first, last);
    var r := SetDiagonal(z, first, last, v);
    forall x: Vec
      ensures Form(Fn(z), x, x) >= 0.0
    {
      ZeroedForm(m, first, last, x);
      assert Form(Fn(m), Masked(x, first, last), Masked(x, first, last)) >= 0.0;
    }
    var d: Vec := i => if Within(i, first, last) then v else 0.0;
    DiagonalKeepsPsd(Fn(z), N, d);
    PsdCongruent(WithDiagonal(Fn(z), N, d), Fn(r));
    forall i, j | 0 <= i < N && 0 <= j < N
      ensures Fn(r)(i, j) == Fn(r)(j, i)
    {
      assert Fn(m)(i, j) == Fn(m)(j, i);
    }
  }

  // ---- the upper limits ----

  /** The upper limit of a variance; the vertical velocity has none. */
  function Upper(i: int, dtEkfAvg: real): real {
    if i <= 3 then 1.0 else if i <= 5 then 1000.0 else if i <= 9 then 1000000.0 else if i <= 12 then Sq(0.175 * dtEkfAvg)
    else if i <= 15 then Sq(10.0 * dtEkfAvg) else if i <= 21 then 0.01 else WIND_VEL_VARIANCE_MAX
  }

  ghost predicate BelowUpper(m: Mat, dtEkfAvg: real) {
    forall i | 0 <= i < N && i != 6 :: At(m, i, i) <= Upper(i, dtEkfAvg)
  }

  /** The accel bias limits leave room between them, for a restart as well. */
  predicate RoomForAccelBias(t: Tuning, dtEkfAvg: real) {
    MIN_SAFE_STATE_VAR <= Sq(10.0 * dtEkfAvg) && AccelBiasVariance(t, dtEkfAvg) <= Sq(10.0 * dtEkfAvg)
  }

  ghost predicate RowsZeroOutside(m: Mat, h: Inhibit) {
    forall i, j | 0 <= i < N && 0 <= j < N && !Active(h, i) :: At(m, i, j) == 0.0 && At(m, j, i) == 0.0
  }

  ghost predicate Fits(m: Mat, h: Inhibit, dtEkfAvg: real) {
    Covariance(m) && RowsZeroOutside(m, h) && BelowUpper(m, dtEkfAvg)
  }

  /** The states a magnetometer measurement depends on. */
  predicate MagState(i: int) { 0 <= i <= 3 || 16 <= i <= 21 }

  ghost predicate SameMagBlock(a: Mat, b: Mat) {
    forall i, j | 0 <= i < N && 0 <= j < N && MagState(i) && MagState(j) :: At(a, i, j) == At(b, i, j)
  }

  lemma RaiseFits(m: Mat, h: Inhibit, first: int, last: int, lo: real, dtEkfAvg: real)
    requires Fits(m, h, dtEkfAvg) && 4 <= first <= last <= 15 && !Within(6, first, last) && lo <= Upper(first, dtEkfAvg)
    requires forall i | first <= i <= last :: Active(h, i) && Upper(i, dtEkfAvg) == Upper(first, dtEkfAvg)
    ensures var r := ClampDiagonal(m, first, last, lo, Upper(first, dtEkfAvg)); Fits(r, h, dtEkfAvg) && SameMagBlock(r, m)
  {
    hide PositiveSemidefinite, Symmetric, Upper, Active, ClampDiagonal;
    var r := ClampDiagonal(m, first, last, lo, Upper(first, dtEkfAvg));
    RaiseKeeps(m, first, last, lo, Upper(first, dtEkfAvg));
    forall i, j | 0 <= i < N && 0 <= j < N
      ensures At(r, i, j) == At(m, i, j) || (i == j && Within(i, first, last) && At(r, i, j) <= Upper(i, dtEkfAvg))
    {
      ClampEntry(m, first, last, lo, Upper(first, dtEkfAvg), i, j);
    }
  }

  lemma RestartEntry(m: Mat, first: int, last: int, v: real, i: int, j: int)
    requires 0 <= i < N && 0 <= j < N
    ensures At(SetDiagonal(ZeroRowsCols(m, first, last), first, last, v), i, j)
            == if Within(i, first, last) || Within(j, first, last) then (if i == j then v else 0.0) else At(m, i, j)
  {
    ZeroElsewhere(m, first, last, i, j);
  }

  lemma RestartFits(m: Mat, h: Inhibit, first: int, last: int, v: real, dtEkfAvg: real)
    requires Fits(m, h, dtEkfAvg) && 4 <= first <= last <= 15 && v >= 0.0
    requires forall i | first <= i <= last :: Active(h, i) && (i == 6 || v <= Upper(i, dtEkfAvg))
    ensures var r := SetDiagonal(ZeroRowsCols(m, first, last), first, last, v); Fits(r, h, dtEkfAvg) && SameMagBlock(r, m)
  {
    hide PositiveSemidefinite, Symmetric, Upper, Active, SetDiagonal, ZeroRowsCols;
    var r := SetDiagonal(ZeroRowsCols(m, first, last), first, last, v);
    RestartKeeps(m, first, last, v);
    forall i, j | 0 <= i < N && 0 <= j < N
      ensures At(r, i, j) == At(m, i, j) || (i == j && Within(i, first, last) && At(r, i, j) == v)
              || ((Within(i, first, last) || Within(j, first, last)) && At(r, i, j) == 0.0 && i != j)
    {
      RestartEntry(m, first, last, v, i, j);
    }
  }

  lemma VerticalFits(c: Core, dtEkfAvg: real)
    requires Fits(c.P, c.inhibit, dtEkfAvg)
    ensures var r := VerticalGuard(c);
      Fits(r.P, c.inhibit, dtEkfAvg) && SameMagBlock(r.P, c.P) && r.inhibit == c.inhibit && r.tuning == c.tuning
  {
    hide PositiveSemidefinite, Upper, Sq;
    if At(c.P, 6, 6) < VEL_STATE_MIN_VARIANCE {
      var raised := SetDiagonal(c.P, 6, 6, VEL_STATE_MIN_VARIANCE);
      SameMat(raised, ClampDiagonal(c.P, 6, 6, VEL_STATE_MIN_VARIANCE, VEL_STATE_MIN_VARIANCE));
      RaiseKeeps(c.P, 6, 6, VEL_STATE_MIN_VARIANCE, VEL_STATE_MIN_VARIANCE);
      RestartFits(raised, c.inhibit, 6, 6, Sq(c.tuning.gpsVertVelNoise), dtEkfAvg);
    }
  }

  lemma {:induction false} ScanBounded(m: Mat, last: int, hi: real)
    requires hi >= 0.0 && forall i | 13 <= i <= last :: At(m, i, i) <= hi
    ensures 0.0 <= ScanAccelBias(m, last).0 <= hi
    decreases last
  {
    if last >= 13 {
      ScanBounded(m, last - 1, hi);
    }
  }

  lemma AccelBiasGuardFits(c: Core, dtEkfAvg: real)
    requires Fits(c.P, c.inhibit, dtEkfAvg) && !c.inhibit.delVelBias && RoomForAccelBias(c.tuning, dtEkfAvg)
    ensures var r := AccelBiasGuard(c, dtEkfAvg);
      Fits(r.P, c.inhibit, dtEkfAvg) && SameMagBlock(r.P, c.P) && r.inhibit == c.inhibit && r.tuning == c.tuning
  {
    hide PositiveSemidefinite, Sq, AccelBiasVariance, ScanAccelBias;
    var hi := Sq(10.0 * dtEkfAvg);
    assert Upper(13, dtEkfAvg) == hi;
    ScanBounded(c.P, 15, hi);
    RaiseFits(c.P, c.inhibit, 13, 15, Max(0.01 * ScanAccelBias(c.P, 15).0, MIN_SAFE_STATE_VAR), dtEkfAvg);
    RestartFits(AccelBiasLimited(c.P, dtEkfAvg), c.inhibit, 13, 15, AccelBiasVariance(c.tuning, dtEkfAvg), dtEkfAvg);
  }

  lemma DiagonalFits(m: Mat, h: Inhibit, first: int, last: int, dtEkfAvg: real)
    requires Fits(m, h, dtEkfAvg) && 0 <= first <= last < N && !Within(6, first, last)
    requires forall i | first <= i <= last :: Upper(i, dtEkfAvg) == Upper(first, dtEkfAvg)
    ensures ClampDiagonal(m, first, last, 0.0, Upper(first, dtEkfAvg)) == m
  {
    hide PositiveSemidefinite, Upper;
    forall i | first <= i <= last
      ensures 0.0 <= At(m, i, i) <= Upper(first, dtEkfAvg)
    {
      DiagonalNonNegative(Fn(m), i);
    }
    ClampIdle(m, first, last, 0.0, Upper(first, dtEkfAvg));
  }

  /** The limits keep a covariance below its upper limits positive semidefinite, below them, and as it was between magnetometer states. */
  lemma LimitsFit(c: Core, dtEkfAvg: real)
    requires Fits(c.P, c.inhibit, dtEkfAvg) && !c.inhibit.delVelBias && RoomForAccelBias(c.tuning, dtEkfAvg)
    ensures var r := Constrained(c, dtEkfAvg);
      Fits(r.P, c.inhibit, dtEkfAvg) && SameMagBlock(r.P, c.P) && r.inhibit == c.inhibit && r.tuning == c.tuning
  {
    hide Fits, ClampDiagonal, VerticalGuard, AccelBiasGuard, ZeroRowsCols, Sq;
    DiagonalFits(c.P, c.inhibit, 0, 3, dtEkfAvg);
    RaiseFits(c.P, c.inhibit, 4, 5, VEL_STATE_MIN_VARIANCE, dtEkfAvg);
    var c0 := c.(P := ClampDiagonal(c.P, 4, 5, VEL_STATE_MIN_VARIANCE, 1000.0));
    VerticalFits(c0, dtEkfAvg);
    var c1 := VerticalGuard(c0);
    RaiseFits(c1.P, c.inhibit, 7, 9, POS_STATE_MIN_VARIANCE, dtEkfAvg);
    var m := ClampDiagonal(c1.P, 7, 9, POS_STATE_MIN_VARIANCE, 1000000.0);
    DiagonalFits(m, c.inhibit, 10, 12, dtEkfAvg);
    var c2 := c1.(P := m);
    AccelBiasGuardFits(c2, dtEkfAvg);
    FieldsFit(AccelBiasGuard(c2, dtEkfAvg).P, c.inhibit, dtEkfAvg);
  }

  lemma FieldsFit(m: Mat, h: Inhibit, dtEkfAvg: real)
    requires Fits(m, h, dtEkfAvg)
    ensures h.mag ==> ZeroRowsCols(m, 16, 21) == m
    ensures !h.mag ==> ClampDiagonal(m, 16, 18, 0.0, 0.01) == m == ClampDiagonal(m, 19, 21, 0.0, 0.01)
    ensures h.wind ==> ZeroRowsCols(m, 22, 23) == m
    ensures !h.wind ==> ClampDiagonal(m, 22, 23, 0.0, WIND_VEL_VARIANCE_MAX) == m
  {
    hide PositiveSemidefinite, ClampDiagonal, ZeroRowsCols;
    DiagonalFits(m, h, 16, 18, dtEkfAvg);
    DiagonalFits(m, h, 19, 21, dtEkfAvg);
    DiagonalFits(m, h, 22, 23, dtEkfAvg);
    if h.mag {
      ZeroIdle(m, 16, 21);
    }
    if h.wind {
      ZeroIdle(m, 22, 23);
    }
  }

  // ---- updates ----

  /** The estimator with the accel bias in use. */
  function Freed(c: Core): Core { c.(inhibit := c.inhibit.(delVelBias := false)) }

  /** The accel bias is uncorrelated with every other state and within itself, as after a restart. */
  ghost predicate Apart(m: Mat) {
    forall i, j | 0 <= i < N && 0 <= j < N && Within(i, 13, 15) && i != j :: At(m, i, j) == 0.0 && At(m, j, i) == 0.0
  }

  predicate OffAccelBias(h: Vec) { h(13) == 0.0 && h(14) == 0.0 && h(15) == 0.0 }

  /**
   A covariance the fusions can go on from: symmetric positive semidefinite, no variance above its upper limit, and
   the rows of inhibited states zero, but for the variances the limits restart an inhibited accel bias with.
   */
  ghost predicate Fusable(c: Core, dtEkfAvg: real) {
    Fits(c.P, Freed(c).inhibit, dtEkfAvg) && RoomForAccelBias(c.tuning, dtEkfAvg) && (c.inhibit.delVelBias ==> Apart(c.P))
  }

  lemma FusableIsLegal(c: Core, dtEkfAvg: real)
    ensures Fusable(c, dtEkfAvg)
            <==> Legal(Freed(c)) && BelowUpper(c.P, dtEkfAvg) && RoomForAccelBias(c.tuning, dtEkfAvg) && (c.inhibit.delVelBias ==> Apart(c.P))
  {}

  lemma SameCovariance(a: Core, b: Core, dtEkfAvg: real)
    requires a.P == b.P && a.inhibit == b.inhibit && a.tuning == b.tuning
    ensures Fusable(a, dtEkfAvg) == Fusable(b, dtEkfAvg)
  {
    hide Fits;
  }

  lemma ApartProduct(m: Mat, h: Vec, i: int)
    requires Apart(m) && OffAccelBias(h) && 13 <= i <= 15
    ensures Apply(Fn(m), h)(i) == 0.0
  {
    hide Dot;
    var zero: Vec := k => 0.0;
    forall k | 0 <= k < N
      ensures RowOf(Fn(m), i)(k) * h(k) == zero(k) * h(k)
    {
      if k == i {
        assert h(k) == 0.0;
      } else {
        assert At(m, i, k) == 0.0;
      }
    }
    DotAgree(N, RowOf(Fn(m), i), h, zero, h);
    ZeroRow(zero, h);
  }

  lemma ProductVanishes(c: Core, h: Vec, dtEkfAvg: real, i: int)
    requires Fusable(c, dtEkfAvg) && OffAccelBias(h) && 0 <= i < N && !Active(c.inhibit, i)
    ensures Apply(Fn(c.P), h)(i) == 0.0
  {
    hide Apply;
    if 13 <= i <= 15 {
      ApartProduct(c.P, h, i);
    } else {
      InhibitedProductZero(Freed(c), h, i);
    }
  }

  /** With the accel bias apart and not measured, its inhibit flag does not matter to an update. */
  lemma FreedUpdated(c: Core, h: Vec, s: real, dtEkfAvg: real)
    requires Fusable(c, dtEkfAvg) && OffAccelBias(h) && s != 0.0
    ensures Updated(c, h, s) == Updated(Freed(c), h, s)
    ensures c.inhibit.delVelBias ==> Apart(Updated(c, h, s))
  {
    hide PositiveSemidefinite, Updated, Fusable, Apart;
    forall i, j | 0 <= i < N && 0 <= j < N
      ensures At(Updated(c, h, s), i, j) == At(Updated(Freed(c), h, s), i, j)
    {
      FreedEntry(c, h, s, dtEkfAvg, i, j);
    }
    UpdatedDim(c, h, s);
    UpdatedDim(Freed(c), h, s);
    SameMat(Updated(c, h, s), Updated(Freed(c), h, s));
    if c.inhibit.delVelBias {
      UpdatedApart(c, h, s, dtEkfAvg);
    }
  }

  lemma FreedEntry(c: Core, h: Vec, s: real, dtEkfAvg: real, i: int, j: int)
    requires Fusable(c, dtEkfAvg) && OffAccelBias(h) && s != 0.0 && 0 <= i < N && 0 <= j < N
    ensures At(Updated(c, h, s), i, j) == At(Updated(Freed(c), h, s), i, j) == Downdate(c, h, s)(i, j)
  {
    hide Apply, PositiveSemidefinite, Updated;
    forall k | (k == i || k == j) && !Active(c.inhibit, k)
      ensures Apply(Fn(c.P), h)(k) == 0.0
    {
      ProductVanishes(c, h, dtEkfAvg, k);
    }
    MaskedEntry(c, h, s, i, j);
    MaskedEntry(Freed(c), h, s, i, j);
  }

  lemma UpdatedApart(c: Core, h: Vec, s: real, dtEkfAvg: real)
    requires Fusable(c, dtEkfAvg) && OffAccelBias(h) && s != 0.0 && c.inhibit.delVelBias
    ensures Apart(Updated(c, h, s))
  {
    hide Apply, PositiveSemidefinite, Updated;
    forall i, j | 0 <= i < N && 0 <= j < N && Within(i, 13, 15) && i != j
      ensures At(Updated(c, h, s), i, j) == 0.0 && At(Updated(c, h, s), j, i) == 0.0
    {
      FreedEntry(c, h, s, dtEkfAvg, i, j);
      FreedEntry(c, h, s, dtEkfAvg, j, i);
      ApartProduct(c.P, h, i);
      Quotient(0.0, Apply(Fn(c.P), h)(j), s);
      Quotient(Apply(Fn(c.P), h)(j), 0.0, s);
    }
  }

  lemma FreedHealthy(c: Core, h: Vec, s: real, dtEkfAvg: real)
    requires Fusable(c, dtEkfAvg) && s != 0.0 && Healthy(Freed(c), h, s)
    ensures Healthy(c, h, s)
  {
    hide Apply, ApplyT, PositiveSemidefinite;
    var k, hp := Gain(c, h, s), ApplyT(Fn(c.P), h);
    forall i | 0 <= i <= StateIndexLim(c.inhibit)
      ensures Times(k(i), hp(i)) <= At(c.P, i, i)
    {
      if Active(c.inhibit, i) {
        ActiveBelowLimit(Freed(c).inhibit, i);
        assert k(i) == Gain(Freed(c), h, s)(i);
      } else {
        DiagonalNonNegative(Fn(c.P), i);
      }
    }
  }

  /** An update passes its guard and leaves a covariance to go on from. */
  lemma UpdatedFusable(c: Core, h: Vec, s: real, dtEkfAvg: real)
    requires Fusable(c, dtEkfAvg) && OffAccelBias(h) && s > 0.0 && Form(Fn(c.P), h, h) <= s
    ensures Healthy(c, h, s) && Fusable(c.(P := Updated(c, h, s)), dtEkfAvg)
  {
    hide Form, Updated, Healthy, PositiveSemidefinite, RoomForAccelBias, Upper, Apart;
    GuardNeverRejects(Freed(c), h, s);
    UpdateKeepsPsd(Freed(c), h, s);
    FreedHealthy(c, h, s, dtEkfAvg);
    FreedUpdated(c, h, s, dtEkfAvg);
  }

  // ---- the limits after an update ----

  lemma FreedLimits(c: Core, dtEkfAvg: real)
    ensures Constrained(Freed(c), dtEkfAvg) == Freed(Constrained(c, dtEkfAvg))
    ensures Constrained(c, dtEkfAvg).inhibit == c.inhibit
  {
    hide ClampDiagonal, ZeroRowsCols, SetDiagonal, ScanAccelBias, AccelBiasLimited, Sq;
  }

  lemma GuardsUncorrelate(c: Core, dtEkfAvg: real, i: int, j: int)
    requires 0 <= i < N && 0 <= j < N && i != j && At(c.P, i, j) == 0.0
    ensures At(VerticalGuard(c).P, i, j) == 0.0 && At(AccelBiasGuard(c, dtEkfAvg).P, i, j) == 0.0
  {
    hide Clamp, Sq, ScanAccelBias, AccelBiasVariance, Max;
  }

  /** No limit correlates anything. */
  lemma LimitsUncorrelate(c: Core, dtEkfAvg: real, i: int, j: int)
    requires 0 <= i < N && 0 <= j < N && i != j && At(c.P, i, j) == 0.0
    ensures At(Constrained(c, dtEkfAvg).P, i, j) == 0.0
  {
    hide Constrained, ClampDiagonal, VerticalGuard, AccelBiasGuard, AfterAccelBias, Sq, Clamp;
    var m0 := ClampDiagonal(c.P, 0, 3, 0.0, 1.0);
    var c0 := c.(P := ClampDiagonal(m0, 4, 5, VEL_STATE_MIN_VARIANCE, 1000.0));
    ClampEntry(c.P, 0, 3, 0.0, 1.0, i, j);
    ClampEntry(m0, 4, 5, VEL_STATE_MIN_VARIANCE, 1000.0, i, j);
    GuardsUncorrelate(c0, dtEkfAvg, i, j);
    var m1 := VerticalGuard(c0).P;
    ClampEntry(m1, 7, 9, POS_STATE_MIN_VARIANCE, 1000000.0, i, j);
    ClampEntry(ClampDiagonal(m1, 7, 9, POS_STATE_MIN_VARIANCE, 1000000.0), 10, 12, 0.0, Sq(0.175 * dtEkfAvg), i, j);
    var c2 := BeforeAccelBias(c, dtEkfAvg);
    GuardsUncorrelate(c2, dtEkfAvg, i, j);
    FieldedEntry(c, AccelBiasGuard(c2, dtEkfAvg), i, j);
    ConstrainedIs(c, dtEkfAvg);
  }

  lemma LimitsApart(c: Core, dtEkfAvg: real)
    requires Apart(c.P)
    ensures Apart(Constrained(c, dtEkfAvg).P)
  {
    hide Constrained;
    forall i, j | 0 <= i < N && 0 <= j < N && Within(i, 13, 15) && i != j
      ensures At(Constrained(c, dtEkfAvg).P, i, j) == 0.0 && At(Constrained(c, dtEkfAvg).P, j, i) == 0.0
    {
      LimitsUncorrelate(c, dtEkfAvg, i, j);
      LimitsUncorrelate(c, dtEkfAvg, j, i);
    }
  }

  /** The limits act on what a fusion leaves without spoiling it. */
  lemma LimitsFusable(c: Core, dtEkfAvg: real)
    requires Fusable(c, dtEkfAvg)
    ensures Fusable(Constrained(c, dtEkfAvg), dtEkfAvg) && SameMagBlock(Constrained(c, dtEkfAvg).P, c.P)
  {
    hide Fits, Constrained, RoomForAccelBias, Apart, SameMagBlock;
    LimitsFit(Freed(c), dtEkfAvg);
    FreedLimits(c, dtEkfAvg);
    if c.inhibit.delVelBias {
      LimitsApart(c, dtEkfAvg);
    }
  }

  /** A fusion with the limits acting passes its guard, can be followed by another, and makes no attitude or field measurement more uncertain. */
  lemma FusedFusable(sqrt: real -> real, c: Core, h: Vec, s: real, innovation: real, dtEkfAvg: real)
    requires Fusable(c, dtEkfAvg) && OffAccelBias(h) && s > 0.0 && Form(Fn(c.P), h, h) <= s
    ensures Healthy(c, h, s) && Fusable(Fused(sqrt, c, h, s, innovation, dtEkfAvg), dtEkfAvg)
    ensures SameMagBlock(Fused(sqrt, c, h, s, innovation, dtEkfAvg).P, Updated(c, h, s))
  {
    hide Form, Updated, Constrained, Corrected, Symmetrised, Healthy, Fusable, Gain, SameMagBlock;
    UpdatedFusable(c, h, s, dtEkfAvg);
    var u := c.(P := Updated(c, h, s));
    FusableSymmetric(u, dtEkfAvg);
    SymmetrisedIdle(u.P, StateIndexLim(c.inhibit));
    LimitsFusable(u, dtEkfAvg);
    SameCovariance(Constrained(u, dtEkfAvg), Fused(sqrt, c, h, s, innovation, dtEkfAvg), dtEkfAvg);
  }

  lemma FusableSymmetric(c: Core, dtEkfAvg: real)
    requires Fusable(c, dtEkfAvg)
    ensures Dim(c.P) && Symmetric(Fn(c.P)) && PositiveSemidefinite(Fn(c.P)) && Legal(Freed(c))
  {}
}
