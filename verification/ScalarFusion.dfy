/**
 What one scalar Kalman update does to a covariance, before the variance limits: it is a rank-one
 decrease that keeps the matrix symmetric positive semidefinite whenever the innovation variance
 used is at least that of the measurement, so the health guard never rejects.
 */
module ScalarFusion {
  import opened Numeric
  import opened Geometry
  import opened LinearAlgebra
  import opened EkfModel

  /** Rows and columns of inhibited states are zero, as the limits leave those of the field and wind states. */
  ghost predicate InhibitedRowsZero(c: Core) {
    forall i, j | 0 <= i < N && 0 <= j < N && !Active(c.inhibit, i) :: At(c.P, i, j) == 0.0 && At(c.P, j, i) == 0.0
  }

  /** A covariance as the theory wants it. */
  ghost predicate Legal(c: Core) {
    Dim(c.P) && Symmetric(Fn(c.P)) && PositiveSemidefinite(Fn(c.P)) && InhibitedRowsZero(c)
  }

  lemma ActiveBelowLimit(h: Inhibit, i: int)
    requires Active(h, i)
    ensures 0 <= i <= StateIndexLim(h) < N
  {}

  /** No fusion moves an inhibited state: the gain vanishes on it, hence on every index above the limit. */
  lemma GainAboveLimit(c: Core, h: Vec, s: real, i: int)
    requires s != 0.0
    ensures !Active(c.inhibit, i) ==> Gain(c, h, s)(i) == 0.0
    ensures i > StateIndexLim(c.inhibit) ==> Gain(c, h, s)(i) == 0.0
  {
    if Active(c.inhibit, i) {
      ActiveBelowLimit(c.inhibit, i);
    }
  }

  lemma InhibitedProductZero(c: Core, h: Vec, i: int)
    requires InhibitedRowsZero(c) && 0 <= i < N && !Active(c.inhibit, i)
    ensures Apply(Fn(c.P), h)(i) == 0.0
  {
    hide Dot;
    DotCommutes(N, RowOf(Fn(c.P), i), h);
    DotZero(N, h, RowOf(Fn(c.P), i));
  }

  function Downdate(c: Core, h: Vec, s: real): Table
    requires s != 0.0
  {
    RankOne(Fn(c.P), -1.0 / s, Apply(Fn(c.P), h))
  }

  /** On a symmetric matrix with zero inhibited rows, the masked and bounded update is the textbook one. */
  lemma UpdateIsDowndate(c: Core, h: Vec, s: real)
    requires Dim(c.P) && Symmetric(Fn(c.P)) && InhibitedRowsZero(c) && s != 0.0
    ensures SameTable(Fn(Updated(c, h, s)), Downdate(c, h, s))
  {
    hide Apply, ApplyT;
    forall i, j | 0 <= i < N && 0 <= j < N ensures At(Updated(c, h, s), i, j) == Downdate(c, h, s)(i, j) {
      UpdateEntry(c, h, s, i, j);
    }
  }

  lemma UpdateEntry(c: Core, h: Vec, s: real, i: int, j: int)
    requires Dim(c.P) && Symmetric(Fn(c.P)) && InhibitedRowsZero(c) && s != 0.0
    requires 0 <= i < N && 0 <= j < N
    ensures At(Updated(c, h, s), i, j) == Downdate(c, h, s)(i, j)
  {
    hide Apply, Updated, Downdate;
    if !Active(c.inhibit, i) {
      InhibitedProductZero(c, h, i);
    }
    if !Active(c.inhibit, j) {
      InhibitedProductZero(c, h, j);
    }
    MaskedEntry(c, h, s, i, j);
  }

  /** Masking an entry changes nothing where the measurement says nothing about the inhibited states. */
  lemma MaskedEntry(c: Core, h: Vec, s: real, i: int, j: int)
    requires Symmetric(Fn(c.P)) && s != 0.0 && 0 <= i < N && 0 <= j < N
    requires Active(c.inhibit, i) || Apply(Fn(c.P), h)(i) == 0.0
    requires Active(c.inhibit, j) || Apply(Fn(c.P), h)(j) == 0.0
    ensures At(Updated(c, h, s), i, j) == Downdate(c, h, s)(i, j)
  {
    hide Apply, ApplyT;
    var u := Apply(Fn(c.P), h);
    ApplyTIsApply(Fn(c.P), h, j);
    Quotient(u(i), u(j), s);
    if Active(c.inhibit, i) {
      ActiveBelowLimit(c.inhibit, i);
    }
    if Active(c.inhibit, j) {
      ActiveBelowLimit(c.inhibit, j);
    }
  }

  lemma Quotient(a: real, b: real, s: real)
    requires s != 0.0
    ensures Times(a / s, b) == -((-1.0 / s) * (a * b))
    ensures a == 0.0 || b == 0.0 ==> (-1.0 / s) * (a * b) == 0.0
  {}

  lemma CrossBound(c: Core, h: Vec, s: real, x: Vec)
    requires Legal(c) && s > 0.0 && Form(Fn(c.P), h, h) <= s
    ensures Dot(N, Apply(Fn(c.P), h), x) * Dot(N, Apply(Fn(c.P), h), x) <= Form(Fn(c.P), x, x) * s
  {
    hide Dot;
    var a := Fn(c.P);
    DotCommutes(N, Apply(a, h), x);
    CauchySchwarz(a, x, h);
    assert Form(a, x, x) >= 0.0;
    Monotone(Form(a, x, x), Form(a, h, h), s);
  }

  lemma Monotone(a: real, b: real, s: real)
    requires a >= 0.0 && b <= s
    ensures a * b <= a * s
  {}

  lemma DivideSquare(d: real, f: real, s: real)
    requires s > 0.0 && d * d <= f * s
    ensures (-1.0 / s) * (d * d) >= -f
    ensures (-1.0 / s) * (d * d) <= 0.0
  {
    var t := 1.0 / s;
    assert t * s == 1.0 && t > 0.0;
    assert t * (f * s - d * d) >= 0.0;
    assert t * (f * s) == f * (t * s) == f;
    assert t * (d * d) >= 0.0;
    assert -1.0 / s == -t;
  }

  /** P − KHP is symmetric and positive semidefinite for any innovation variance not below `h P hᵀ`. */
  lemma UpdateKeepsPsd(c: Core, h: Vec, s: real)
    requires Legal(c) && s > 0.0 && Form(Fn(c.P), h, h) <= s
    ensures Legal(c.(P := Updated(c, h, s)))
  {
    hide Apply, Form, Dot;
    UpdateIsDowndate(c, h, s);
    var a, u := Fn(c.P), Apply(Fn(c.P), h);
    var b := Downdate(c, h, s);
    forall x: Vec ensures Form(b, x, x) >= 0.0 {
      RankOneForm(a, -1.0 / s, u, x);
      CrossBound(c, h, s, x);
      DivideSquare(Dot(N, u, x), Form(a, x, x), s);
    }
    RankOneSymmetric(a, -1.0 / s, u);
    assert SameTable(b, Fn(Updated(c, h, s)));
    PsdCongruent(b, Fn(Updated(c, h, s)));
    SymmetricCongruent(b, Fn(Updated(c, h, s)));
    InhibitedRowsStayZero(c, h, s);
  }

  lemma SymmetricCongruent(a: Table, b: Table)
    requires SameTable(a, b) && Symmetric(a)
    ensures Symmetric(b)
  {}

  lemma InhibitedRowsStayZero(c: Core, h: Vec, s: real)
    requires Dim(c.P) && Symmetric(Fn(c.P)) && InhibitedRowsZero(c) && s != 0.0
    ensures InhibitedRowsZero(c.(P := Updated(c, h, s)))
  {
    hide Apply;
    UpdateIsDowndate(c, h, s);
    var u := Apply(Fn(c.P), h);
    forall i, j | 0 <= i < N && 0 <= j < N && !Active(c.inhibit, i)
      ensures At(Updated(c, h, s), i, j) == 0.0 && At(Updated(c, h, s), j, i) == 0.0
    {
      InhibitedProductZero(c, h, i);
      assert Fn(Updated(c, h, s))(i, j) == Downdate(c, h, s)(i, j);
      assert Fn(Updated(c, h, s))(j, i) == Downdate(c, h, s)(j, i);
      assert u(i) * u(j) == 0.0 && u(j) * u(i) == 0.0;
    }
  }

  /** The negative-variance guard never rejects, and no variance grows. */
  lemma GuardNeverRejects(c: Core, h: Vec, s: real)
    requires Legal(c) && s > 0.0 && Form(Fn(c.P), h, h) <= s
    ensures Healthy(c, h, s)
    ensures forall i | 0 <= i < N :: At(Updated(c, h, s), i, i) <= At(c.P, i, i)
  {
    hide Form, Apply, ApplyT, Dot;
    var a, u := Fn(c.P), Apply(Fn(c.P), h);
    forall i | 0 <= i < N
      ensures Gain(c, h, s)(i) * ApplyT(a, h)(i) <= At(c.P, i, i) && At(Updated(c, h, s), i, i) <= At(c.P, i, i)
    {
      CrossBound(c, h, s, Unit(i));
      DotUnit(N, u, i);
      FormUnits(a, i, i);
      DivideSquare(u(i), At(c.P, i, i), s);
      ApplyTIsApply(a, h, i);
      DiagonalNonNegative(a, i);
      Quotient(u(i), u(i), s);
    }
  }

  /** The variance limits leave alone the covariance, the clip counter and the state after this update. */
  ghost predicate IdleLimits(c: Core, h: Vec, s: real, dtEkfAvg: real)
    requires s != 0.0
  {
    var u := c.(P := Updated(c, h, s)); Constrained(u, dtEkfAvg) == u
  }

  /** Symmetrising a matrix that is already symmetric changes nothing. */
  lemma SymmetrisedIdle(m: Mat, lim: int)
    requires Dim(m) && Symmetric(Fn(m))
    ensures Symmetrised(m, lim) == m
  {
    forall i, j | 0 <= i < N && 0 <= j < N ensures At(Symmetrised(m, lim), i, j) == At(m, i, j) {
      assert Fn(m)(i, j) == Fn(m)(j, i);
    }
    SameMat(Symmetrised(m, lim), m);
  }

  /** With idle limits the guarded fusion of a legal covariance is the bare update and correction. */
  lemma IdleFused(sqrt: real -> real, c: Core, h: Vec, s: real, innovation: real, dtEkfAvg: real)
    requires Legal(c) && s > 0.0 && Form(Fn(c.P), h, h) <= s && IdleLimits(c, h, s, dtEkfAvg)
    ensures var r := Fused(sqrt, c, h, s, innovation, dtEkfAvg);
      r == c.(P := Updated(c, h, s), state := Corrected(sqrt, c.state, Delta(Gain(c, h, s), innovation))) && Legal(r)
  {
    hide Form, Updated, Constrained, Corrected, Apply, Symmetrised;
    UpdateKeepsPsd(c, h, s);
    SymmetrisedIdle(Updated(c, h, s), StateIndexLim(c.inhibit));
  }

  // ---- direct observations ----

  lemma ApplyUnit(a: Table, si: int, i: int)
    requires 0 <= si < N
    ensures Apply(a, Unit(si))(i) == a(i, si)
  {
    hide Dot;
    DotUnit(N, RowOf(a, i), si);
  }

  /** An observation of one state always passes the guard, and its variance falls from P to P R / (P + R). */
  lemma DirectObservation(c: Core, si: int, r: real)
    requires Legal(c) && 0 <= si < 10 && r > 0.0
    ensures var s := At(c.P, si, si) + r;
      && 0.0 < s
      && Healthy(c, Unit(si), s)
      && Legal(c.(P := Updated(c, Unit(si), s)))
      && At(Updated(c, Unit(si), s), si, si) * s == At(c.P, si, si) * r
  {
    hide Form, Apply, Dot;
    var a, p := Fn(c.P), At(c.P, si, si);
    var s := p + r;
    DiagonalNonNegative(a, si);
    FormUnits(a, si, si);
    UpdateKeepsPsd(c, Unit(si), s);
    GuardNeverRejects(c, Unit(si), s);
    UpdateEntry(c, Unit(si), s, si, si);
    ApplyUnit(a, si, si);
    ObservedVariance(p, r);
  }

  /** The residual of the observed state shrinks by R / (P + R). */
  lemma DirectResidual(sqrt: real -> real, c: Core, si: int, z: real, r: real)
    requires Legal(c) && 4 <= si < 10 && r > 0.0 && At(c.P, si, si) >= 0.0
    ensures var s := At(c.P, si, si) + r; var e := Flat(c.state)(si) - z;
      (Flat(Corrected(sqrt, c.state, Delta(Gain(c, Unit(si), s), e)))(si) - z) * s == e * r
  {
    hide Apply, Dot, Flat, Corrected, Times;
    var p := At(c.P, si, si);
    var s, e := p + r, Flat(c.state)(si) - z;
    ApplyUnit(Fn(c.P), si, si);
    FlatCorrected(sqrt, c.state, Delta(Gain(c, Unit(si), s), e), si);
    ObservedResidual(p, r, e);
  }

  /** Every slot past the quaternion moves by its own correction. */
  lemma FlatCorrected(sqrt: real -> real, s: StateVector, d: Vec, i: int)
    requires 4 <= i < N
    ensures Flat(Corrected(sqrt, s, d))(i) == Flat(s)(i) - d(i)
  {
    hide Normalized;
  }

  lemma ObservedVariance(p: real, r: real)
    requires p >= 0.0 && r > 0.0
    ensures (p + (-1.0 / (p + r)) * (p * p)) * (p + r) == p * r
  {
    var s := p + r;
    assert (-1.0 / s) * s == -1.0;
    assert (p + (-1.0 / s) * (p * p)) * s == p * s + ((-1.0 / s) * s) * (p * p);
  }

  lemma ObservedResidual(p: real, r: real, e: real)
    requires p >= 0.0 && r > 0.0
    ensures (e - Times(p / (p + r), e)) * (p + r) == e * r
  {
    var s := p + r;
    assert (p / s) * s == p;
    assert (e - (p / s) * e) * s == e * s - ((p / s) * s) * e;
  }
}
