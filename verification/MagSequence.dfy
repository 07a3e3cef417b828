/**
 The magnetometer and airspeed updates on a legal covariance: the badly-conditioned resets cannot
 happen, the gains are `P Hᵀ` over the innovation variance, and fusing the three axes one after
 another with the variances computed at entry never aborts.
 */
module MagSequence {
  import opened Numeric
  import opened Geometry
  import opened LinearAlgebra
  import opened EkfModel
  import opened ScalarFusion
  import opened EkfInvariant
  import opened MagFusion
  import opened AirspeedFusion
  import opened EkfOperations

  // ---- innovation variances ----

  function VarInnov(g: MagGeometry, P: Table, r: real, axis: int): real {
    if axis == 0 then VarInnovX(g, P, r) else if axis == 1 then VarInnovY(g, P, r) else VarInnovZ(g, P, r)
  }

  /** Each dense innovation variance is `H P Hᵀ + R`, hence at least R on a positive semidefinite covariance. */
  lemma MagVariances(g: MagGeometry, P: Table, r: real, axis: int)
    ensures VarInnov(g, P, r, axis) == Form(P, Dense(MagRowOf(g, axis)), Dense(MagRowOf(g, axis))) + r
    ensures PositiveSemidefinite(P) ==> VarInnov(g, P, r, axis) >= r
  {
    hide VarInnovX, VarInnovY, VarInnovZ, Form, Dense, RowX, RowY, RowZ;
    VarianceIsFormX(g, P, r);
    VarianceIsFormY(g, P, r);
    VarianceIsFormZ(g, P, r);
  }

  lemma TasVariances(g: TasGeometry, P: Table, r: real)
    requires PositiveSemidefinite(P)
    ensures VarInnovTas(g, P, r) >= r
  {
    hide VarInnovTas, Form, DenseTas;
    VarianceIsFormTas(g, P, r);
    assert Form(P, DenseTas(g), DenseTas(g)) >= 0.0;
  }

  // ---- gains ----

  function MagNumerator(g: MagGeometry, p: Vec, axis: int): real {
    if axis == 0 then NumeratorX(g, p) else if axis == 1 then NumeratorY(g, p) else NumeratorZ(g, p)
  }

  lemma MagBracket(g: MagGeometry, p: Vec, axis: int)
    ensures Dot(N, p, Dense(MagRowOf(g, axis))) == MagNumerator(g, p, axis)
  {
    hide NumeratorX, NumeratorY, NumeratorZ, SparseDot, Dense, RowX, RowY, RowZ;
    BracketX(g, p);
    BracketY(g, p);
    BracketZ(g, p);
    DenseDot(MagRowOf(g, axis), p);
  }

  /** The code's gain, the reciprocal variance times the bracket, is `P Hᵀ / S` on the active mask. */
  lemma MagGain(c: Core, g: MagGeometry, s: real, axis: int, i: int)
    requires s != 0.0
    ensures Gain(c, Dense(MagRowOf(g, axis)), s)(i)
            == if Active(c.inhibit, i) then Times(1.0 / s, MagNumerator(g, RowOf(Fn(c.P), i), axis)) else 0.0
  {
    hide Dot, MagNumerator, Dense, MagRowOf, Times;
    MagBracket(g, RowOf(Fn(c.P), i), axis);
    Reciprocal(Apply(Fn(c.P), Dense(MagRowOf(g, axis)))(i), s);
  }

  lemma Reciprocal(a: real, s: real)
    requires s != 0.0
    ensures a / s == Times(1.0 / s, a) == Times(a, 1.0 / s)
  {}

  lemma TasGain(c: Core, g: TasGeometry, s: real, i: int)
    requires s != 0.0
    ensures Gain(c, DenseTas(g), s)(i) == if Active(c.inhibit, i) then Times(1.0 / s, NumeratorTas(g, RowOf(Fn(c.P), i))) else 0.0
  {
    hide Dot, NumeratorTas, DenseTas, Times;
    DenseTasDot(g, RowOf(Fn(c.P), i));
    BracketTas(g, RowOf(Fn(c.P), i));
    Reciprocal(Apply(Fn(c.P), DenseTas(g))(i), s);
  }

  // ---- updates one after another ----

  /** A measurement row and the innovation variance its update divides by. */
  datatype Scalar = Scalar(h: Vec, s: real)

  /** The variance used is usable and not below that of the measurement under this covariance. */
  ghost predicate NotStale(c: Core, m: Scalar) { m.s > 0.0 && Form(Fn(c.P), m.h, m.h) <= m.s }

  /** Every update of the sequence passes its guard and leaves a legal covariance, the limits apart. */
  ghost predicate AllHealthy(c: Core, ms: seq<Scalar>)
    decreases |ms|
  {
    && Legal(c)
    && (ms == [] ||
        (ms[0].s != 0.0 && Healthy(c, ms[0].h, ms[0].s) && AllHealthy(c.(P := Updated(c, ms[0].h, ms[0].s)), ms[1..])))
  }

  /** An update never increases the variance of any measurement. */
  lemma FormShrinks(c: Core, h: Vec, s: real, x: Vec)
    requires Legal(c) && s > 0.0 && Form(Fn(c.P), h, h) <= s
    ensures Form(Fn(Updated(c, h, s)), x, x) <= Form(Fn(c.P), x, x)
  {
    hide Form, Dot, Apply;
    UpdateIsDowndate(c, h, s);
    FormCongruent(Downdate(c, h, s), Fn(Updated(c, h, s)), x, x);
    RankOneForm(Fn(c.P), -1.0 / s, Apply(Fn(c.P), h), x);
    CrossBound(c, h, s, x);
    DivideSquare(Dot(N, Apply(Fn(c.P), h), x), Form(Fn(c.P), x, x), s);
  }

  /** Variances computed before the first update are still large enough at every later one. */
  lemma {:induction false} StaleVariancesSuffice(c: Core, ms: seq<Scalar>)
    requires Legal(c) && forall k | 0 <= k < |ms| :: NotStale(c, ms[k])
    ensures AllHealthy(c, ms)
    decreases |ms|
  {
    hide Form, Healthy, Updated, Legal;
    if ms != [] {
      var h, s := ms[0].h, ms[0].s;
      assert NotStale(c, ms[0]);
      GuardNeverRejects(c, h, s);
      UpdateKeepsPsd(c, h, s);
      var c' := c.(P := Updated(c, h, s));
      forall k | 0 <= k < |ms[1..]| ensures NotStale(c', ms[1..][k]) {
        assert NotStale(c, ms[k + 1]);
        FormShrinks(c, h, s, ms[k + 1].h);
      }
      StaleVariancesSuffice(c', ms[1..]);
    }
  }

  // ---- the magnetometer call ----

  function EntryCore(sqrt: real -> real, c: Core, mag: Vector3, gyro: GyroSample): Core
    requires gyro.deltaAngleDt != 0.0
  {
    var r, g, p := MagObsVariance(sqrt, c.tuning, gyro), MagGeometryOf(c.state), Fn(c.P);
    c.(innovMag := MagInnovation(c.state, mag), varInnovMag := Vector3(VarInnovX(g, p, r), VarInnovY(g, p, r), VarInnovZ(g, p, r)))
  }

  function EntryOf(e: Core): MagEntry { MagEntry(MagGeometryOf(e.state), e.varInnovMag, e.innovMag) }

  /** No badly-conditioned reset on a legal covariance: the call either fails its gate and stores its innovations, or runs the three axes. */
  lemma MagEntryNeverAborts(sqrt: real -> real, c: Core, mag: Vector3, gyro: GyroSample, dtEkfAvg: real)
    requires Invariant(c) && PositiveSemidefinite(Fn(c.P)) && gyro.deltaAngleDt != 0.0
    ensures var e := EntryCore(sqrt, c, mag, gyro);
      && Invariant(e) && UsableEntry(EntryOf(e))
      && FuseMagnetometer(sqrt, c, mag, gyro, dtEkfAvg)
         == if MagHealth(e.innovMag, e.varInnovMag, e.tuning.magInnovGatePct) then MagAxes(sqrt, e, EntryOf(e), 0, dtEkfAvg) else (e, false)
  {
    hide VarInnovX, VarInnovY, VarInnovZ, PositiveSemidefinite, MagAxes, MagHealth, MagInnovation, MagObsVariance, Form, Dense, MagRowOf;
    var r, g, p := MagObsVariance(sqrt, c.tuning, gyro), MagGeometryOf(c.state), Fn(c.P);
    MagVariances(g, p, r, 0);
    MagVariances(g, p, r, 1);
    MagVariances(g, p, r, 2);
    ObservationPositive(sqrt, c.tuning, gyro);
  }

  lemma ObservationPositive(sqrt: real -> real, t: Tuning, gyro: GyroSample)
    requires gyro.deltaAngleDt != 0.0
    ensures MagObsVariance(sqrt, t, gyro) > 0.0
  {}

  function AxisScalar(m: MagEntry, axis: int): Scalar { Scalar(Dense(MagRowOf(m.g, axis)), Axis(m.variance, axis)) }

  /** The limits leave alone what each axis from `axis` on has updated. */
  ghost predicate AxesIdle(sqrt: real -> real, c: Core, m: MagEntry, axis: int, dtEkfAvg: real)
    requires UsableEntry(m) && 0 <= axis <= 3
    decreases 3 - axis
  {
    hide *;
    axis == 3 ||
    (AxisPositive(m, axis);
     var h, s := Dense(MagRowOf(m.g, axis)), Axis(m.variance, axis);
     IdleLimits(c, h, s, dtEkfAvg) && AxesIdle(sqrt, Fused(sqrt, c, h, s, Axis(m.innovation, axis), dtEkfAvg), m, axis + 1, dtEkfAvg))
  }

  /** From a legal covariance with idle limits no axis trips the abort, and the covariance is legal after each. */
  lemma {:induction false} AxesNeverAbort(sqrt: real -> real, c: Core, m: MagEntry, axis: int, dtEkfAvg: real)
    requires Invariant(c) && Legal(c) && UsableEntry(m) && 0 <= axis <= 3
    requires AxesIdle(sqrt, c, m, axis, dtEkfAvg)
    requires forall k | axis <= k < 3 :: NotStale(c, AxisScalar(m, k))
    ensures var r := MagAxes(sqrt, c, m, axis, dtEkfAvg); r.1 && Legal(r.0)
    decreases 3 - axis
  {
    hide Form, Healthy, Updated, Constrained, Corrected, Legal, Dense, MagRowOf, Invariant, Symmetrised;
    if axis < 3 {
      AxisPositive(m, axis);
      var h, s := Dense(MagRowOf(m.g, axis)), Axis(m.variance, axis);
      assert NotStale(c, AxisScalar(m, axis));
      var next := Fused(sqrt, c, h, s, Axis(m.innovation, axis), dtEkfAvg);
      FusedFrame(sqrt, c, h, s, Axis(m.innovation, axis), dtEkfAvg);
      GuardNeverRejects(c, h, s);
      IdleFused(sqrt, c, h, s, Axis(m.innovation, axis), dtEkfAvg);
      forall k | axis + 1 <= k < 3 ensures NotStale(next, AxisScalar(m, k)) {
        assert NotStale(c, AxisScalar(m, k));
        FormShrinks(c, h, s, AxisScalar(m, k).h);
      }
      AxesNeverAbort(sqrt, next, m, axis + 1, dtEkfAvg);
    }
  }

  /** A magnetometer call on a legal covariance never reinitialises it; when its gate passes and the limits are idle it fuses all three axes. */
  lemma MagnetometerNeverAborts(sqrt: real -> real, c: Core, mag: Vector3, gyro: GyroSample, dtEkfAvg: real)
    requires Invariant(c) && Legal(c) && gyro.deltaAngleDt != 0.0
    ensures var e := EntryCore(sqrt, c, mag, gyro); var r := FuseMagnetometer(sqrt, c, mag, gyro, dtEkfAvg);
      && UsableEntry(EntryOf(e))
      && (!MagHealth(e.innovMag, e.varInnovMag, e.tuning.magInnovGatePct) ==> r == (e, false))
      && (MagHealth(e.innovMag, e.varInnovMag, e.tuning.magInnovGatePct) && AxesIdle(sqrt, e, EntryOf(e), 0, dtEkfAvg)
          ==> r.1 && Legal(r.0))
  {
    hide VarInnovX, VarInnovY, VarInnovZ, PositiveSemidefinite, MagAxes, MagHealth, MagInnovation, MagObsVariance, AxesIdle, Form, Dense, MagRowOf;
    MagEntryNeverAborts(sqrt, c, mag, gyro, dtEkfAvg);
    var e := EntryCore(sqrt, c, mag, gyro);
    var m := EntryOf(e);
    if MagHealth(e.innovMag, e.varInnovMag, e.tuning.magInnovGatePct) && AxesIdle(sqrt, e, m, 0, dtEkfAvg) {
      forall k | 0 <= k < 3 ensures NotStale(e, AxisScalar(m, k)) {
        MagVariances(m.g, Fn(c.P), MagObsVariance(sqrt, c.tuning, gyro), k);
        ObservationPositive(sqrt, c.tuning, gyro);
        AxisPositive(m, k);
      }
      AxesNeverAbort(sqrt, e, m, 0, dtEkfAvg);
    }
  }

  /** Nor does an airspeed call: past its speed threshold it always reaches the update and the limits. */
  lemma AirspeedNeverAborts(sqrt: real -> real, c: Core, tas: real, dtEkfAvg: real)
    requires Invariant(c) && Legal(c)
    ensures var pred := PredictedAirspeed(sqrt, c.state); var r := FuseAirspeed(sqrt, c, tas, dtEkfAvg);
      if pred > 1.0 then
        var g := TasGeometryOf(c.state, pred); var s := VarInnovTas(g, Fn(c.P), TasVariance(c));
        && s > 0.0 && Form(Fn(c.P), DenseTas(g), DenseTas(g)) <= s
        && var e := c.(innovVtas := pred - tas, varInnovVtas := s);
        r == TasOutcome(sqrt, e, DenseTas(g), s, dtEkfAvg) && Legal(TasUpdated(sqrt, e, DenseTas(g), s))
      else r == (c, false)
  {
    hide VarInnovTas, DenseTas, Form, TasOutcome, SharedTerms, Corrected, Updated, Flat;
    var pred := PredictedAirspeed(sqrt, c.state);
    if pred > 1.0 {
      var g, r := TasGeometryOf(c.state, pred), TasVariance(c);
      TasVariances(g, Fn(c.P), r);
      VarianceIsFormTas(g, Fn(c.P), r);
      var s := VarInnovTas(g, Fn(c.P), r);
      var e := c.(innovVtas := pred - tas, varInnovVtas := s);
      UpdateKeepsPsd(e, DenseTas(g), s);
    }
  }
}
