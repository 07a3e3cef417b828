/**
 What the GPS and barometer calls do to the difference between state and fix: a fused fix pulls the
 state towards itself by the share of its noise, axis by axis; a reset takes the state onto the fix;
 the gates are multiples of the standard deviation; and the variances a filter starts from are those
 its resets restart from.
 */
module FixResiduals {
  import opened Numeric
  import opened Geometry
  import opened LinearAlgebra
  import opened CovariancePropagation
  import opened EkfModel
  import opened ScalarFusion
  import opened EkfPrediction
  import opened EkfInvariant
  import opened EkfOperations
  import opened EkfRuns
  import opened VarianceLimits
  import opened FusionLimits
  import opened MeasurementRuns

  // ---- one direct observation ----

  /** Below their upper limits, and not below the lower ones, the motion variances pass the limits unchanged. */
  predicate MotionWithin(m: Mat, i: int) {
    && (4 <= i <= 5 ==> VEL_STATE_MIN_VARIANCE <= At(m, i, i) <= 1000.0)
    && (i == 6 ==> At(m, i, i) >= VEL_STATE_MIN_VARIANCE)
    && (7 <= i <= 9 ==> POS_STATE_MIN_VARIANCE <= At(m, i, i) <= 1000000.0)
  }

  lemma MotionKept(c: Core, dtEkfAvg: real, i: int)
    requires 4 <= i <= 9 && MotionWithin(c.P, i)
    ensures At(Constrained(c, dtEkfAvg).P, i, i) == At(c.P, i, i)
  {
    hide Constrained, BeforeAccelBias, AccelBiasGuard, AfterAccelBias, Clamp, Sq, ScanAccelBias, AccelBiasVariance;
    ConstrainedIs(c, dtEkfAvg);
    var b := BeforeAccelBias(c, dtEkfAvg);
    AccelBiasEntry(b, dtEkfAvg, i, i);
    FieldedEntry(c, AccelBiasGuard(b, dtEkfAvg), i, i);
    ClampFixes(At(c.P, i, i), VEL_STATE_MIN_VARIANCE, 1000.0);
    ClampFixes(At(c.P, i, i), POS_STATE_MIN_VARIANCE, 1000000.0);
    if i == 6 {
      VerticalKept(c, dtEkfAvg);
    } else {
      EarlyVariance(c, dtEkfAvg, i);
    }
  }

  lemma VerticalKept(c: Core, dtEkfAvg: real)
    requires At(c.P, 6, 6) >= VEL_STATE_MIN_VARIANCE
    ensures At(BeforeAccelBias(c, dtEkfAvg).P, 6, 6) == At(c.P, 6, 6)
  {
    hide Clamp, Sq, ClampDiagonal;
    var m0 := ClampDiagonal(c.P, 0, 3, 0.0, 1.0);
    var m1 := ClampDiagonal(m0, 4, 5, VEL_STATE_MIN_VARIANCE, 1000.0);
    ClampEntry(c.P, 0, 3, 0.0, 1.0, 6, 6);
    ClampEntry(m0, 4, 5, VEL_STATE_MIN_VARIANCE, 1000.0, 6, 6);
    ClampEntry(m1, 7, 9, POS_STATE_MIN_VARIANCE, 1000000.0, 6, 6);
    ClampEntry(ClampDiagonal(m1, 7, 9, POS_STATE_MIN_VARIANCE, 1000000.0), 10, 12, 0.0, Sq(0.175 * dtEkfAvg), 6, 6);
  }

  lemma UnitOff(si: int)
    requires 4 <= si <= 9
    ensures OffAccelBias(Unit(si))
  {}

  /** An update leaves alone what is uncorrelated with the observed state. */
  lemma UncorrelatedEntry(c: Core, si: int, s: real, dtEkfAvg: real, i: int, j: int)
    requires Fusable(c, dtEkfAvg) && 4 <= si <= 9 && s != 0.0 && 0 <= i < N && 0 <= j < N && (At(c.P, i, si) == 0.0 || At(c.P, j, si) == 0.0)
    ensures At(Updated(c, Unit(si), s), i, j) == At(c.P, i, j)
  {
    hide Fusable, Updated, Dot, Apply;
    UnitOff(si);
    FreedEntry(c, Unit(si), s, dtEkfAvg, i, j);
    ApplyUnit(Fn(c.P), si, i);
    ApplyUnit(Fn(c.P), si, j);
    Quotient(Apply(Fn(c.P), Unit(si))(i), Apply(Fn(c.P), Unit(si))(j), s);
  }

  lemma MotionState(c: Core, dtEkfAvg: real, i: int)
    requires 4 <= i <= 9
    ensures Flat(Constrained(c, dtEkfAvg).state)(i) == Flat(c.state)(i)
  {
    hide Constrained;
    LimitsAndState(c, dtEkfAvg);
  }

  /** What a direct fusion is, with the limits acting: the update, the limits, and the correction of the limited state. */
  lemma FusedIs(sqrt: real -> real, c: Core, si: int, e: real, r: real, dtEkfAvg: real)
    requires Invariant(c) && Fusable(c, dtEkfAvg) && 4 <= si <= 9 && r > 0.0
    ensures var s := At(c.P, si, si) + r; var l := Constrained(c.(P := Updated(c, Unit(si), s)), dtEkfAvg); var a := FuseDirect(sqrt, c, si, e, r, dtEkfAvg);
      a == (l.(state := Corrected(sqrt, l.state, Delta(Gain(c, Unit(si), s), e))), true) && Fusable(a.0, dtEkfAvg) && At(c.P, si, si) >= 0.0
  {
    hide Form, Fusable, Fused, Healthy, Updated, Constrained, Corrected, Gain;
    var s := At(c.P, si, si) + r;
    ObservedPositive(c, si, r);
    DirectFuses(sqrt, c, si, e, r, dtEkfAvg);
    FusableSymmetric(c, dtEkfAvg);
    FormUnits(Fn(c.P), si, si);
    FusedSettles(sqrt, c, Unit(si), s, e, dtEkfAvg);
  }

  lemma FusedSettles(sqrt: real -> real, c: Core, h: Vec, s: real, e: real, dtEkfAvg: real)
    requires Fusable(c, dtEkfAvg) && OffAccelBias(h) && s > 0.0 && Form(Fn(c.P), h, h) <= s
    ensures var l := Constrained(c.(P := Updated(c, h, s)), dtEkfAvg);
      Fused(sqrt, c, h, s, e, dtEkfAvg) == l.(state := Corrected(sqrt, l.state, Delta(Gain(c, h, s), e)))
  {
    hide Form, Fusable, Updated, Constrained, Corrected, Symmetrised, Gain, Healthy;
    UpdatedFusable(c, h, s, dtEkfAvg);
    FusableSymmetric(c.(P := Updated(c, h, s)), dtEkfAvg);
    SymmetrisedIdle(Updated(c, h, s), StateIndexLim(c.inhibit));
  }

  /** A fused observation takes its state towards the measurement by the share of the noise, and leaves other motion states alone that it is uncorrelated with. */
  lemma FusedTowards(sqrt: real -> real, c: Core, si: int, z: real, r: real, dtEkfAvg: real)
    requires Invariant(c) && Fusable(c, dtEkfAvg) && 4 <= si <= 9 && r > 0.0
    ensures var a := FuseDirect(sqrt, c, si, Flat(c.state)(si) - z, r, dtEkfAvg);
      && a.1 && Fusable(a.0, dtEkfAvg)
      && (Flat(a.0.state)(si) - z) * (At(c.P, si, si) + r) == (Flat(c.state)(si) - z) * r
      && (forall j | 4 <= j <= 9 && At(c.P, j, si) == 0.0 :: Flat(a.0.state)(j) == Flat(c.state)(j))
  {
    hide Invariant, Fusable, Updated, Constrained, Corrected, Gain, Flat, FuseDirect;
    var e, s := Flat(c.state)(si) - z, At(c.P, si, si) + r;
    FusedIs(sqrt, c, si, e, r, dtEkfAvg);
    var u, d := c.(P := Updated(c, Unit(si), s)), Delta(Gain(c, Unit(si), s), e);
    var a := FuseDirect(sqrt, c, si, e, r, dtEkfAvg).0;
    forall j | 4 <= j <= 9
      ensures Flat(a.state)(j) == Flat(c.state)(j) - Times(At(c.P, j, si) / s, e)
    {
      FlatCorrected(sqrt, Constrained(u, dtEkfAvg).state, d, j);
      MotionState(u, dtEkfAvg, j);
      MotionGain(c, si, s, j);
    }
    ResidualLeft(At(c.P, si, si), r, e, Flat(a.state)(si) - z);
    NoGain(s, e);
  }

  /** Nor does it touch their variances, or correlate what was uncorrelated. */
  lemma FusedApart(sqrt: real -> real, c: Core, si: int, e: real, r: real, dtEkfAvg: real, i: int, j: int)
    requires Invariant(c) && Fusable(c, dtEkfAvg) && 4 <= si <= 9 && r > 0.0 && 4 <= i <= 9 && 4 <= j <= 9
    requires At(c.P, i, si) == 0.0 || At(c.P, j, si) == 0.0
    ensures var a := FuseDirect(sqrt, c, si, e, r, dtEkfAvg).0;
      && (i == j && MotionWithin(c.P, j) ==> At(a.P, j, j) == At(c.P, j, j))
      && (i != j && At(c.P, i, j) == 0.0 ==> At(a.P, i, j) == 0.0)
  {
    hide Invariant, Fusable, Updated, Constrained, Corrected, Gain, FuseDirect, MotionWithin;
    FusedIs(sqrt, c, si, e, r, dtEkfAvg);
    var s := At(c.P, si, si) + r;
    var u := c.(P := Updated(c, Unit(si), s));
    UncorrelatedEntry(c, si, s, dtEkfAvg, i, j);
    if i == j && MotionWithin(c.P, j) {
      SameWithin(c.P, u.P, j);
      MotionKept(u, dtEkfAvg, j);
    } else if i != j && At(c.P, i, j) == 0.0 {
      LimitsUncorrelate(u, dtEkfAvg, i, j);
    }
  }

  lemma AllApart(sqrt: real -> real, c: Core, si: int, e: real, r: real, dtEkfAvg: real)
    requires Invariant(c) && Fusable(c, dtEkfAvg) && 4 <= si <= 9 && r > 0.0
    ensures var a := FuseDirect(sqrt, c, si, e, r, dtEkfAvg).0;
      forall i, j | 4 <= i <= 9 && 4 <= j <= 9 && (At(c.P, i, si) == 0.0 || At(c.P, j, si) == 0.0) ::
        (i == j && MotionWithin(c.P, j) ==> At(a.P, j, j) == At(c.P, j, j)) && (i != j && At(c.P, i, j) == 0.0 ==> At(a.P, i, j) == 0.0)
  {
    hide Invariant, Fusable, FuseDirect, MotionWithin;
    forall i, j | 4 <= i <= 9 && 4 <= j <= 9 && (At(c.P, i, si) == 0.0 || At(c.P, j, si) == 0.0)
      ensures var a := FuseDirect(sqrt, c, si, e, r, dtEkfAvg).0;
        (i == j && MotionWithin(c.P, j) ==> At(a.P, j, j) == At(c.P, j, j)) && (i != j && At(c.P, i, j) == 0.0 ==> At(a.P, i, j) == 0.0)
    {
      FusedApart(sqrt, c, si, e, r, dtEkfAvg, i, j);
    }
  }

  lemma SameWithin(a: Mat, b: Mat, j: int)
    requires At(a, j, j) == At(b, j, j) && MotionWithin(a, j)
    ensures MotionWithin(b, j)
  {}

  lemma MotionGain(c: Core, si: int, s: real, j: int)
    requires 4 <= j <= 9 && 4 <= si <= 9 && s != 0.0
    ensures Gain(c, Unit(si), s)(j) == At(c.P, j, si) / s
  {
    hide Dot, Apply;
    ApplyUnit(Fn(c.P), si, j);
  }

  lemma ResidualLeft(p: real, r: real, e: real, left: real)
    requires p >= 0.0 && r > 0.0 && left == e - Times(p / (p + r), e)
    ensures left * (p + r) == e * r
  {
    ObservedResidual(p, r, e);
  }

  lemma NoGain(s: real, e: real)
    requires s != 0.0
    ensures Times(0.0 / s, e) == 0.0
  {}

  // ---- a whole fix ----

  /** The three velocities are uncorrelated and within their limits. */
  predicate VelocitiesApart(m: Mat) {
    && At(m, 4, 5) == At(m, 5, 4) == At(m, 4, 6) == At(m, 6, 4) == At(m, 5, 6) == At(m, 6, 5) == 0.0
    && MotionWithin(m, 5) && MotionWithin(m, 6)
  }

  /** A GPS velocity within its gate pulls each axis towards its own fix, by the share of that axis's noise. */
  lemma VelocityTowardsFix(sqrt: real -> real, c: Core, gps: GpsSample, dtEkfAvg: real, now: real)
    requires Invariant(c) && Fusable(c, dtEkfAvg) && VelocitiesApart(c.P) && GpsVelTestRatio(sqrt, c, gps) < 1.0
    ensures var v, w, z := FuseGpsVelocity(sqrt, c, gps, dtEkfAvg, now).0.state.velocity, c.state.velocity, gps.velocityNed;
      var h, d := GpsHorizVelObsVariance(sqrt, c), GpsVertVelObsVariance(sqrt, c);
      && (v.x - z.x) * (At(c.P, 4, 4) + h) == (w.x - z.x) * h
      && (v.y - z.y) * (At(c.P, 5, 5) + h) == (w.y - z.y) * h
      && (v.z - z.z) * (At(c.P, 6, 6) + d) == (w.z - z.z) * d
  {
    hide FuseDirect, Fusable, GpsVelTestRatio, Invariant, GpsHorizVelObsVariance, GpsVertVelObsVariance, Flat, MotionWithin;
    var h, d, z := GpsHorizVelObsVariance(sqrt, c), GpsVertVelObsVariance(sqrt, c), gps.velocityNed;
    VelocitySlots(c.state);
    NorthTowards(sqrt, c, z.x, h, dtEkfAvg);
    var a := FuseDirect(sqrt, c, 4, c.state.velocity.x - z.x, h, dtEkfAvg).0;
    EastTowards(sqrt, a, z.y, h, dtEkfAvg);
    var b := FuseDirect(sqrt, a, 5, a.state.velocity.y - z.y, h, dtEkfAvg).0;
    DownTowards(sqrt, b, z.z, d, dtEkfAvg);
    SameProducts(a.state.velocity.y - z.y, c.state.velocity.y - z.y, At(a.P, 5, 5), At(c.P, 5, 5), h, b.state.velocity.y - z.y);
    var e := FuseDirect(sqrt, b, 6, b.state.velocity.z - z.z, d, dtEkfAvg).0;
    SameProducts(b.state.velocity.z - z.z, c.state.velocity.z - z.z, At(b.P, 6, 6), At(c.P, 6, 6), d, e.state.velocity.z - z.z);
  }

  lemma NorthTowards(sqrt: real -> real, c: Core, z: real, r: real, dtEkfAvg: real)
    requires Invariant(c) && Fusable(c, dtEkfAvg) && VelocitiesApart(c.P) && r > 0.0
    ensures var a := FuseDirect(sqrt, c, 4, c.state.velocity.x - z, r, dtEkfAvg).0;
      && Fusable(a, dtEkfAvg) && VelocitiesApart(a.P) && At(a.P, 5, 5) == At(c.P, 5, 5) && At(a.P, 6, 6) == At(c.P, 6, 6)
      && (a.state.velocity.x - z) * (At(c.P, 4, 4) + r) == (c.state.velocity.x - z) * r
      && a.state.velocity.y == c.state.velocity.y && a.state.velocity.z == c.state.velocity.z
  {
    hide FuseDirect, Fusable, Invariant, Flat, MotionWithin;
    VelocitySlots(c.state);
    FusedTowards(sqrt, c, 4, z, r, dtEkfAvg);
    AllApart(sqrt, c, 4, c.state.velocity.x - z, r, dtEkfAvg);
    var a := FuseDirect(sqrt, c, 4, c.state.velocity.x - z, r, dtEkfAvg).0;
    VelocitySlots(a.state);
    SameWithin(c.P, a.P, 5);
    SameWithin(c.P, a.P, 6);
  }

  lemma EastTowards(sqrt: real -> real, c: Core, z: real, r: real, dtEkfAvg: real)
    requires Invariant(c) && Fusable(c, dtEkfAvg) && VelocitiesApart(c.P) && r > 0.0
    ensures var a := FuseDirect(sqrt, c, 5, c.state.velocity.y - z, r, dtEkfAvg).0;
      && Fusable(a, dtEkfAvg) && At(a.P, 4, 6) == At(a.P, 5, 6) == 0.0 && At(a.P, 6, 6) == At(c.P, 6, 6)
      && (a.state.velocity.y - z) * (At(c.P, 5, 5) + r) == (c.state.velocity.y - z) * r
      && a.state.velocity.x == c.state.velocity.x && a.state.velocity.z == c.state.velocity.z
  {
    hide FuseDirect, Fusable, Invariant, Flat, MotionWithin;
    VelocitySlots(c.state);
    FusedTowards(sqrt, c, 5, z, r, dtEkfAvg);
    AllApart(sqrt, c, 5, c.state.velocity.y - z, r, dtEkfAvg);
    VelocitySlots(FuseDirect(sqrt, c, 5, c.state.velocity.y - z, r, dtEkfAvg).0.state);
  }

  lemma DownTowards(sqrt: real -> real, c: Core, z: real, r: real, dtEkfAvg: real)
    requires Invariant(c) && Fusable(c, dtEkfAvg) && At(c.P, 4, 6) == At(c.P, 5, 6) == 0.0 && r > 0.0
    ensures var a := FuseDirect(sqrt, c, 6, c.state.velocity.z - z, r, dtEkfAvg).0;
      && (a.state.velocity.z - z) * (At(c.P, 6, 6) + r) == (c.state.velocity.z - z) * r
      && a.state.velocity.x == c.state.velocity.x && a.state.velocity.y == c.state.velocity.y
  {
    hide FuseDirect, Fusable, Invariant, Flat, MotionWithin;
    VelocitySlots(c.state);
    FusedTowards(sqrt, c, 6, z, r, dtEkfAvg);
    VelocitySlots(FuseDirect(sqrt, c, 6, c.state.velocity.z - z, r, dtEkfAvg).0.state);
  }

  lemma VelocitySlots(s: StateVector)
    ensures Flat(s)(4) == s.velocity.x && Flat(s)(5) == s.velocity.y && Flat(s)(6) == s.velocity.z
  {}

  lemma SameProducts(e: real, f: real, p: real, q: real, r: real, left: real)
    requires e == f && p == q && left * (p + r) == e * r
    ensures left * (q + r) == f * r
  {}

  /** A GPS position within its gate does the same for north and east. */
  lemma PositionTowardsFix(sqrt: real -> real, c: Core, gps: GpsSample, dtEkfAvg: real, now: real)
    requires Invariant(c) && Fusable(c, dtEkfAvg) && At(c.P, 7, 8) == At(c.P, 8, 7) == 0.0 && MotionWithin(c.P, 8)
    requires GpsPosTestRatio(sqrt, c, gps) < 1.0
    ensures var v, w, z, r := FuseGpsPosition(sqrt, c, gps, dtEkfAvg, now).0.state.position, c.state.position, gps.positionNe, GpsHorizPosObsVariance(sqrt, c);
      && (v.x - z.x) * (At(c.P, 7, 7) + r) == (w.x - z.x) * r
      && (v.y - z.y) * (At(c.P, 8, 8) + r) == (w.y - z.y) * r
  {
    hide FuseDirect, Fusable, GpsPosTestRatio, Invariant, GpsHorizPosObsVariance, Flat, MotionWithin;
    var r, z := GpsHorizPosObsVariance(sqrt, c), gps.positionNe;
    PositionSlots(c.state);
    FusedTowards(sqrt, c, 7, z.x, r, dtEkfAvg);
    AllApart(sqrt, c, 7, c.state.position.x - z.x, r, dtEkfAvg);
    var a := FuseDirect(sqrt, c, 7, c.state.position.x - z.x, r, dtEkfAvg).0;
    PositionSlots(a.state);
    FusedTowards(sqrt, a, 8, z.y, r, dtEkfAvg);
    var b := FuseDirect(sqrt, a, 8, a.state.position.y - z.y, r, dtEkfAvg).0;
    PositionSlots(b.state);
    SameProducts(Flat(a.state)(8) - z.y, Flat(c.state)(8) - z.y, At(a.P, 8, 8), At(c.P, 8, 8), r, Flat(b.state)(8) - z.y);
  }

  lemma PositionSlots(s: StateVector)
    ensures Flat(s)(7) == s.position.x && Flat(s)(8) == s.position.y && Flat(s)(9) == s.position.z
  {}

  /** A barometer altitude within its gate pulls the height, which is minus the down position, towards itself. */
  lemma HeightTowardsBaro(sqrt: real -> real, c: Core, baroAltitude: real, dtEkfAvg: real, now: real)
    requires Invariant(c) && Fusable(c, dtEkfAvg) && HgtTestRatio(c, baroAltitude) < 1.0
    ensures var r := BaroHgtObsVariance(c); var height, was := -FuseBaroHeight(sqrt, c, baroAltitude, dtEkfAvg, now).0.state.position.z, -c.state.position.z;
      (height - baroAltitude) * (At(c.P, 9, 9) + r) == (was - baroAltitude) * r
  {
    hide FuseDirect, Fusable, HgtTestRatio, Invariant, BaroHgtObsVariance, Flat;
    var r := BaroHgtObsVariance(c);
    PositionSlots(c.state);
    FusedTowards(sqrt, c, 9, -baroAltitude, r, dtEkfAvg);
    var a := FuseDirect(sqrt, c, 9, c.state.position.z + baroAltitude, r, dtEkfAvg).0;
    PositionSlots(a.state);
    Mirrored(a.state.position.z - -baroAltitude, c.state.position.z - -baroAltitude, At(c.P, 9, 9) + r, r);
  }

  lemma Mirrored(a: real, e: real, s: real, r: real)
    requires a * s == e * r
    ensures (-a) * s == (-e) * r
  {}

  // ---- resets ----

  /** A reset takes the state onto the fix: tested again, the same fix has no innovation. */
  lemma ResetsAgree(sqrt: real -> real, c: Core, gps: GpsSample, baroAltitude: real, now: real)
    requires Invariant(c)
    ensures GpsPosTestRatio(sqrt, ResetPosition(c, gps, now), gps) == 0.0
    ensures HgtTestRatio(ResetHeight(c, baroAltitude, now), baroAltitude) == 0.0
    ensures gps.velocityNed.z == c.state.velocity.z ==> GpsVelTestRatio(sqrt, ResetVelocity(c, gps, now), gps) == 0.0
  {
    hide RowsReset, GpsHorizPosObsVariance, GpsHorizVelObsVariance, GpsVertVelObsVariance, BaroHgtObsVariance;
  }

  /**
   After a call no fix has gone unused for ten seconds: it was fused, or the state was reset onto it, or the last one is
   younger than that.
   */
  lemma NoFixStarves(sqrt: real -> real, c: Core, gps: GpsSample, baroAltitude: real, dtEkfAvg: real, now: real)
    requires Invariant(c) && Fusable(c, dtEkfAvg)
    ensures now - FuseGpsVelocity(sqrt, c, gps, dtEkfAvg, now).0.lastVelPassTimeS < 10.0
    ensures now - FuseGpsPosition(sqrt, c, gps, dtEkfAvg, now).0.lastPosPassTimeS < 10.0
    ensures now - FuseBaroHeight(sqrt, c, baroAltitude, dtEkfAvg, now).0.lastHgtPassTimeS < 10.0
  {
    hide FuseDirect, Fusable, GpsVelTestRatio, GpsPosTestRatio, HgtTestRatio, Invariant, RowsReset, GpsHorizVelObsVariance, GpsVertVelObsVariance, GpsHorizPosObsVariance, BaroHgtObsVariance;
    if GpsVelTestRatio(sqrt, c, gps) < 1.0 {
      VelocityFuses(sqrt, c, gps, dtEkfAvg, now);
    }
    if GpsPosTestRatio(sqrt, c, gps) < 1.0 {
      PositionFuses(sqrt, c, gps, dtEkfAvg, now);
    }
    if HgtTestRatio(c, baroAltitude) < 1.0 {
      HeightFuses(sqrt, c, baroAltitude, dtEkfAvg, now);
    }
  }

  // ---- gates and observation variances ----

  /** A ratio below one is an innovation within its gate: that many standard deviations. */
  lemma GateIsDeviations(e: real, variance: real, gatePct: real)
    requires variance > 0.0
    ensures TestRatio(Sq(e), variance, gatePct) < 1.0 <==> Sq(e) < Times(variance, Sq(Gate(gatePct)))
    ensures gatePct >= 100.0 ==> Gate(gatePct) * 100.0 == gatePct
  {
    hide Sq, Gate, TestRatio;
    RatioBelow(Sq(e), variance, gatePct);
    GateScale(gatePct);
  }

  /** The gates of the fixes: the squared distance between state and fix against the summed variances, at the gate's multiple. */
  lemma FixGates(sqrt: real -> real, c: Core, gps: GpsSample, baroAltitude: real)
    requires Invariant(c)
    ensures var h, d, p, b := GpsHorizVelObsVariance(sqrt, c), GpsVertVelObsVariance(sqrt, c), GpsHorizPosObsVariance(sqrt, c), BaroHgtObsVariance(c);
      && (GpsVelTestRatio(sqrt, c, gps) < 1.0 <==>
            LengthSquared(Minus(c.state.velocity, gps.velocityNed))
            < Times(At(c.P, 4, 4) + h + (At(c.P, 5, 5) + h) + (At(c.P, 6, 6) + d), Sq(Gate(c.tuning.gpsVelInnovGatePct))))
      && (GpsPosTestRatio(sqrt, c, gps) < 1.0 <==>
            Sq(c.state.position.x - gps.positionNe.x) + Sq(c.state.position.y - gps.positionNe.y)
            < Times(At(c.P, 7, 7) + p + (At(c.P, 8, 8) + p), Sq(Gate(c.tuning.gpsPosInnovGatePct))))
      && (HgtTestRatio(c, baroAltitude) < 1.0 <==>
            Sq(-c.state.position.z - baroAltitude) < Times(At(c.P, 9, 9) + b, Sq(Gate(c.tuning.hgtInnovGatePct))))
  {
    hide Sq, Gate, LengthSquared, GpsHorizVelObsVariance, GpsVertVelObsVariance, GpsHorizPosObsVariance, BaroHgtObsVariance, SymmetricMat, TestRatio;
    var h, d, p, b := GpsHorizVelObsVariance(sqrt, c), GpsVertVelObsVariance(sqrt, c), GpsHorizPosObsVariance(sqrt, c), BaroHgtObsVariance(c);
    SquaredDistance(c.state.velocity, gps.velocityNed);
    SquareFlips(c.state.position.z, baroAltitude);
    RatioBelow(Sq(c.state.velocity.x - gps.velocityNed.x) + Sq(c.state.velocity.y - gps.velocityNed.y) + Sq(c.state.velocity.z - gps.velocityNed.z),
               At(c.P, 4, 4) + h + (At(c.P, 5, 5) + h) + (At(c.P, 6, 6) + d), c.tuning.gpsVelInnovGatePct);
    RatioBelow(Sq(c.state.position.x - gps.positionNe.x) + Sq(c.state.position.y - gps.positionNe.y),
               At(c.P, 7, 7) + p + (At(c.P, 8, 8) + p), c.tuning.gpsPosInnovGatePct);
    RatioBelow(Sq(c.state.position.z + baroAltitude), At(c.P, 9, 9) + b, c.tuning.hgtInnovGatePct);
  }

  /** The magnetometer's gate, axis by axis. */
  lemma MagGate(innov: Vector3, variance: Vector3, gatePct: real)
    requires variance.x > 0.0 && variance.y > 0.0 && variance.z > 0.0
    ensures MagHealth(innov, variance, gatePct) <==>
            && Sq(innov.x) < Times(variance.x, Sq(Gate(gatePct)))
            && Sq(innov.y) < Times(variance.y, Sq(Gate(gatePct)))
            && Sq(innov.z) < Times(variance.z, Sq(Gate(gatePct)))
  {
    hide Sq, Gate, TestRatio;
    RatioBelow(Sq(innov.x), variance.x, gatePct);
    RatioBelow(Sq(innov.y), variance.y, gatePct);
    RatioBelow(Sq(innov.z), variance.z, gatePct);
  }

  lemma SquaredDistance(u: Vector3, v: Vector3)
    ensures LengthSquared(Minus(u, v)) == Sq(u.x - v.x) + Sq(u.y - v.y) + Sq(u.z - v.z)
  {}

  lemma SquareFlips(a: real, b: real)
    ensures Sq(-a - b) == Sq(a + b)
  {}

  lemma RatioBelow(power: real, variance: real, gatePct: real)
    requires variance > 0.0
    ensures TestRatio(power, variance, gatePct) < 1.0 <==> power < Times(variance, Sq(Gate(gatePct)))
  {
    hide Sq, Gate;
    SquarePositive(Gate(gatePct));
    TimesPositive(variance, Sq(Gate(gatePct)));
    RatioBelowOne(power, variance, Sq(Gate(gatePct)), TestRatio(power, variance, gatePct));
  }

  lemma GateScale(gatePct: real)
    ensures gatePct >= 100.0 ==> Gate(gatePct) * 100.0 == gatePct
  {}

  lemma RatioBelowOne(a: real, v: real, g: real, ratio: real)
    requires Times(v, g) > 0.0 && ratio == a / (v * g)
    ensures ratio < 1.0 <==> a < Times(v, g)
  {
    BelowOne(a, v * g);
  }

  lemma BelowOne(a: real, b: real)
    requires b > 0.0
    ensures a / b < 1.0 <==> a < b
  {
    assert (a / b) * b == a;
    if a / b < 1.0 {
      TimesPositive(1.0 - a / b, b);
      assert Times(1.0 - a / b, b) == b - a;
    } else {
      TimesNonNegative(a / b - 1.0, b);
      assert Times(a / b - 1.0, b) == a - b;
    }
  }

  /** Observation noise is that of the sensor, grown with the square of the acceleration or of the turn rate. */
  lemma NoiseGrows(sqrt: real -> real, c: Core, gyro: GyroSample)
    requires IsSquareRoot(sqrt) && gyro.deltaAngleDt != 0.0
    ensures var a := LengthSquared(c.velDotNedFilt);
      && GpsHorizVelObsVariance(sqrt, c) == Sq(Clamp(c.tuning.gpsHorizVelNoise, 0.05, 5.0)) + 0.0025 * a
      && GpsVertVelObsVariance(sqrt, c) == Sq(Clamp(c.tuning.gpsVertVelNoise, 0.05, 5.0)) + 0.0049 * a
      && GpsHorizPosObsVariance(sqrt, c) == Sq(Clamp(c.tuning.gpsHorizPosNoise, 0.1, 10.0)) + 0.0025 * a
    ensures (MagObsVariance(sqrt, c.tuning, gyro) - Sq(Clamp(c.tuning.magNoise, 0.01, 0.5))) * Sq(gyro.deltaAngleDt) == 0.000025 * LengthSquared(gyro.deltaAngle)
  {
    hide Length, LengthSquared, Clamp, IsSquareRoot;
    LengthLaw(sqrt, c.velDotNedFilt);
    LengthLaw(sqrt, gyro.deltaAngle);
    var l, k := Length(sqrt, c.velDotNedFilt), Length(sqrt, gyro.deltaAngle);
    assert Sq(0.05 * l) == 0.0025 * Times(l, l) && Sq(0.07 * l) == 0.0049 * Times(l, l);
    RateSquared(k, gyro.deltaAngleDt);
  }

  /** Settings within their ranges are used as they are. */
  lemma NoiseInRange(c: Core)
    ensures 0.1 <= c.tuning.baroAltNoise <= 100.0 ==> BaroHgtObsVariance(c) == Sq(c.tuning.baroAltNoise)
    ensures c.tuning.easNoise >= 0.5 ==> TasVariance(c) == Sq(c.tuning.easNoise)
  {
    hide Sq;
  }

  lemma RateSquared(k: real, dt: real)
    requires dt != 0.0
    ensures Sq(0.005 * k / dt) * Sq(dt) == 0.000025 * Times(k, k)
  {
    var q := 0.005 * k / dt;
    assert q * dt == 0.005 * k;
    assert Sq(q) * Sq(dt) == (q * dt) * (q * dt);
  }

  // ---- initial variances ----

  /** A filter starts from the variances it restarts from: those of the resets, of the limits' own restarts, and of a measurement taken at rest. */
  lemma InitialIsRestart(sqrt: real -> real, c: Core, gps: GpsSample, baroAltitude: real, now: real, dtEkfAvg: real, i: int)
    requires Invariant(c) && IsSquareRoot(sqrt) && 4 <= i < N
    ensures var v := At(CovarianceInitialised(c, dtEkfAvg).P, i, i);
      && (i <= 5 ==> v == At(ResetVelocity(c, gps, now).P, i, i))
      && (i == 6 ==> v == Sq(c.tuning.gpsVertVelNoise))
      && (7 <= i <= 8 ==> v == At(ResetPosition(c, gps, now).P, i, i))
      && (i == 9 && 0.1 <= c.tuning.baroAltNoise <= 100.0 ==> v == At(ResetHeight(c, baroAltitude, now).P, i, i))
      && (10 <= i <= 12 ==> v == Sq(Times(Times(c.tuning.initialGyroBiasUncertaintyDegS, dtEkfAvg), RADIANS_PER_DEGREE)))
      && (13 <= i <= 15 && ScanAccelBias(c.P, 15).1 ==> v == At(AccelBiasGuard(c, dtEkfAvg).P, i, i))
      && (16 <= i <= 21 && 0.01 <= c.tuning.magNoise <= 0.5 ==> v == MagObsVariance(sqrt, c.tuning, GyroSample(ZERO3, 1.0)))
      && (22 <= i ==> v == 0.0)
    ensures forall j | 0 <= j < N && j != i :: At(CovarianceInitialised(c, dtEkfAvg).P, i, j) == 0.0
  {
    hide AttitudeReset, ScanAccelBias, AccelBiasLimited, Sq, SetDiagonal, ZeroRowsCols, CovarianceInitialised, AccelBiasVariance, GyroBiasVariance;
    forall j | 0 <= j < N
      ensures At(CovarianceInitialised(c, dtEkfAvg).P, i, j) == if i == j then InitialVarianceOf(c.tuning, dtEkfAvg, i) else 0.0
    {
      InitialEntry(c, dtEkfAvg, i, j);
    }
    RestartEntry(c.P, 4, 5, Sq(c.tuning.gpsHorizVelNoise), i, i);
    RestartEntry(c.P, 7, 8, Sq(c.tuning.gpsHorizPosNoise), i, i);
    RestartEntry(c.P, 9, 9, BaroHgtObsVariance(c), i, i);
    RestartEntry(AccelBiasLimited(c.P, dtEkfAvg), 13, 15, AccelBiasVariance(c.tuning, dtEkfAvg), i, i);
    AtRest(sqrt, c.tuning);
    GyroStart(c.tuning, dtEkfAvg);
  }

  lemma InitialEntry(c: Core, dtEkfAvg: real, i: int, j: int)
    requires 4 <= i < N && 0 <= j < N
    ensures At(CovarianceInitialised(c, dtEkfAvg).P, i, j) == if i == j then InitialVarianceOf(c.tuning, dtEkfAvg, i) else 0.0
  {
    hide InitialVarianceOf, Clamp, Predicted, PredictionDt, FilteredHgtRate, RotatedNoise, BlockInputs;
  }

  lemma GyroStart(t: Tuning, dtEkfAvg: real)
    ensures GyroBiasVariance(t, dtEkfAvg) == Sq(Times(Times(t.initialGyroBiasUncertaintyDegS, dtEkfAvg), RADIANS_PER_DEGREE))
  {
    hide Sq, Times;
  }

  lemma AtRest(sqrt: real -> real, t: Tuning)
    requires IsSquareRoot(sqrt)
    ensures 0.01 <= t.magNoise <= 0.5 ==> MagObsVariance(sqrt, t, GyroSample(ZERO3, 1.0)) == Sq(t.magNoise)
  {
    hide Length, Sq, IsSquareRoot;
    ZeroLengthIs(sqrt);
    ZeroRate(Length(sqrt, ZERO3));
  }

  lemma ZeroLengthIs(sqrt: real -> real)
    requires IsSquareRoot(sqrt)
    ensures Length(sqrt, ZERO3) == 0.0
  {
    hide Length, Times;
    LengthLaw(sqrt, ZERO3);
    ZeroSquare(Length(sqrt, ZERO3));
  }

  lemma ZeroRate(l: real)
    requires l == 0.0
    ensures Sq(MAG_VAR_RATE_SCALE * l / 1.0) == 0.0
  {}

  lemma ZeroSquare(a: real)
    ensures Times(a, a) == 0.0 ==> a == 0.0
  {
    SquareNonNegative(a);
  }
}
