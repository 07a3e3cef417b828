/**
 Two observations fused one after the other give the same covariance and the same state past the
 quaternion in either order, when the variance limits do not bind in between.
 */
module FusionOrder {
  import opened Numeric
  import opened LinearAlgebra
  import opened EkfModel
  import opened ScalarFusion
  import opened EkfInvariant
  import opened EkfOperations

  /**
   The update of one directly observed state, the innovation taken from the current state.
   The innovation variance is positive for every legal covariance; a zero one leaves the estimator alone here.
   */
  function FusedDirect(sqrt: real -> real, c: Core, si: int, z: real, r: real, dtEkfAvg: real): Core {
    var s := At(c.P, si, si) + r;
    if s == 0.0 then c else Fused(sqrt, c, Unit(si), s, Flat(c.state)(si) - z, dtEkfAvg)
  }

  /** The innovation variance is usable and the limits are idle after this update. */
  ghost predicate LimitsIdle(c: Core, si: int, r: real, dtEkfAvg: real) {
    var s := At(c.P, si, si) + r;
    s != 0.0 && IdleLimits(c, Unit(si), s, dtEkfAvg)
  }

  // ---- the scalar identities ----

  lemma Determinant(p: real, q: real, v: real, r: real, r': real)
    requires p >= 0.0 && v >= 0.0 && q * q <= p * v && r > 0.0 && r' > 0.0
    ensures (p + r) * (v + r') - q * q > 0.0
    ensures (p + r) * (v + (-1.0 / (p + r)) * (q * q) + r') == (p + r) * (v + r') - q * q
    ensures v + (-1.0 / (p + r)) * (q * q) + r' > 0.0
  {
    var s := p + r;
    assert s * (v + r') == p * v + r * v + p * r' + r * r';
    assert r * v >= 0.0 && p * r' >= 0.0 && r * r' > 0.0;
    assert s * (-1.0 / s) == -1.0;
    assert s * ((-1.0 / s) * (q * q)) == (s * (-1.0 / s)) * (q * q);
    var w := v + (-1.0 / s) * (q * q) + r';
    assert s * w == s * (v + r') - q * q;
    PositiveFactor(s, w);
  }

  lemma PositiveFactor(s: real, w: real)
    requires s > 0.0 && s * w > 0.0
    ensures w > 0.0
  {}

  /** The covariance entry after both updates, over the common determinant. */
  lemma EntryAfterBoth(m: real, ai: real, aj: real, bi: real, bj: real, q: real, s: real, v: real, w: real, d: real)
    requires s > 0.0 && w > 0.0 && s * w == d && d == s * v - q * q
    ensures (m + (-1.0 / s) * (ai * aj)
             + (-1.0 / w) * ((bi + ((-1.0 / s) * q) * ai) * (bj + ((-1.0 / s) * q) * aj))) * d
            == m * d - (v * (ai * aj) - q * (ai * bj + aj * bi) + s * (bi * bj))
  {
    var t, y := 1.0 / s, 1.0 / w;
    assert t * s == 1.0 && y * w == 1.0;
    assert -1.0 / s == -t && -1.0 / w == -y;
    assert y * d == s by { assert y * (s * w) == s * (y * w); }
    assert t * d == w by { assert t * (s * w) == (t * s) * w; }
    var e, f := bi - (t * q) * ai, bj - (t * q) * aj;
    assert (y * (e * f)) * d == s * (e * f) by { assert (y * (e * f)) * d == (y * d) * (e * f); }
    ScaledProduct(ai, aj, bi, bj, q, s, t);
    assert (t * (ai * aj)) * d == w * (ai * aj) by { assert (t * (ai * aj)) * d == (t * d) * (ai * aj); }
    assert w == v - t * (q * q) by { assert t * (s * w) == t * (s * v) - t * (q * q); assert t * (s * v) == (t * s) * v; }
    assert w * (ai * aj) == v * (ai * aj) - (t * (q * q)) * (ai * aj);
    var total := m - t * (ai * aj) - y * (e * f);
    assert total * d == m * d - (t * (ai * aj)) * d - (y * (e * f)) * d;
  }

  lemma ScaledProduct(ai: real, aj: real, bi: real, bj: real, q: real, s: real, t: real)
    requires t * s == 1.0
    ensures s * ((bi - (t * q) * ai) * (bj - (t * q) * aj))
            == s * (bi * bj) - q * (ai * bj + aj * bi) + (t * (q * q)) * (ai * aj)
  {
    var x, y := q * ai, q * aj;
    assert (t * q) * ai == t * x && (t * q) * aj == t * y;
    assert (bi - t * x) * (bj - t * y) == bi * bj - t * (x * bj) - t * (y * bi) + (t * t) * (x * y);
    assert s * (t * (x * bj)) == x * bj by { assert s * (t * (x * bj)) == (t * s) * (x * bj); }
    assert s * (t * (y * bi)) == y * bi by { assert s * (t * (y * bi)) == (t * s) * (y * bi); }
    assert s * ((t * t) * (x * y)) == t * (x * y) by { assert s * ((t * t) * (x * y)) == (t * s) * (t * (x * y)); }
    assert x * bj + y * bi == q * (ai * bj + aj * bi);
    assert t * (x * y) == (t * (q * q)) * (ai * aj);
  }

  /** The state slot after both corrections, over the same determinant. */
  lemma SlotAfterBoth(x: real, a: real, b: real, e: real, e': real, q: real, s: real, v: real, w: real, d: real)
    requires s > 0.0 && w > 0.0 && s * w == d && d == s * v - q * q
    ensures (x - (a / s) * e - ((b + ((-1.0 / s) * q) * a) / w) * (e' - (q / s) * e)) * d
            == x * d - (a * (v * e - q * e') + b * (s * e' - q * e))
  {
    var t, y := 1.0 / s, 1.0 / w;
    assert t * s == 1.0 && y * w == 1.0;
    assert -1.0 / s == -t && a / s == t * a && q / s == t * q;
    var f, g := b - (t * q) * a, e' - (t * q) * e;
    assert (b + ((-1.0 / s) * q) * a) / w == y * f;
    assert y * d == s by { assert y * (s * w) == s * (y * w); }
    assert t * d == w by { assert t * (s * w) == (t * s) * w; }
    assert ((y * f) * g) * d == s * (f * g) by { assert ((y * f) * g) * d == (y * d) * (f * g); }
    ScaledProduct(a, e, b, e', q, s, t);
    assert ((t * a) * e) * d == w * (a * e) by { assert ((t * a) * e) * d == (t * d) * (a * e); }
    assert w == v - t * (q * q) by { assert t * (s * w) == t * (s * v) - t * (q * q); assert t * (s * v) == (t * s) * v; }
    assert w * (a * e) == v * (a * e) - (t * (q * q)) * (a * e);
    assert a * (v * e - q * e') + b * (s * e' - q * e) == v * (a * e) - q * (a * e' + e * b) + s * (b * e');
    var total := x - (t * a) * e - (y * f) * g;
    assert total * d == x * d - ((t * a) * e) * d - ((y * f) * g) * d;
  }

  /** What both corrections divide by, and what they take from a slot in those units. */
  function Joint(s: real, v: real, q: real): real { s * v - q * q }

  function Taken(a: real, b: real, e: real, e': real, q: real, s: real, v: real): real { a * (v * e - q * e') + b * (s * e' - q * e) }

  /** The pair of fusions may be taken in either order. */
  lemma JointSymmetric(a: real, b: real, e: real, e': real, q: real, s: real, v: real)
    ensures Joint(s, v, q) == Joint(v, s, q) && Taken(a, b, e, e', q, s, v) == Taken(b, a, e', e, q, v, s)
  {}

  lemma SlotScalars(x: real, x1: real, x2: real, a: real, b: real, b1: real, e: real, e': real, e1: real,
      q: real, s: real, v: real, w: real)
    requires s > 0.0 && w > 0.0 && Times(s, w) == Joint(s, v, q)
    requires x1 == x - Times(a / s, e) && b1 == b + Times(Times(-1.0 / s, q), a) && e1 == e' - Times(q / s, e)
    requires x2 == x1 - Times(b1 / w, e1)
    ensures Joint(s, v, q) > 0.0 && Times(x2, Joint(s, v, q)) == Times(x, Joint(s, v, q)) - Taken(a, b, e, e', q, s, v)
  {
    TimesPositive(s, w);
    var g, f := e' - (q / s) * e, b + ((-1.0 / s) * q) * a;
    assert f == b1 && g == e1;
    SameTimes(b1 / w, f / w, e1);
    SameTimes(e1, g, f / w);
    SlotAfterBoth(x, a, b, e, e', q, s, v, w, s * v - q * q);
    SameTimes(x2, x - (a / s) * e - (f / w) * g, s * v - q * q);
  }

  // ---- two updates of a covariance ----

  function First(c: Core, h: Vec, r: real): Core
    requires Form(Fn(c.P), h, h) + r != 0.0
  {
    c.(P := Updated(c, h, Form(Fn(c.P), h, h) + r))
  }

  lemma AfterFirst(c: Core, h: Vec, r: real, h': Vec, i: int)
    requires Legal(c) && r > 0.0 && 0 <= i < N
    ensures Form(Fn(c.P), h, h) >= 0.0
    ensures var s, q := Form(Fn(c.P), h, h) + r, Form(Fn(c.P), h, h'); var m := Fn(First(c, h, r).P);
      && Legal(First(c, h, r))
      && Form(m, h', h') == Form(Fn(c.P), h', h') + (-1.0 / s) * (q * q)
      && Apply(m, h')(i) == Apply(Fn(c.P), h')(i) + ((-1.0 / s) * q) * Apply(Fn(c.P), h)(i)
  {
    hide Dot;
    var a := Fn(c.P);
    assert Form(a, h, h) >= 0.0;
    var s := Form(a, h, h) + r;
    var u, m := Apply(a, h), Fn(First(c, h, r).P);
    UpdateKeepsPsd(c, h, s);
    UpdateIsDowndate(c, h, s);
    RankOneForm(a, -1.0 / s, u, h');
    FormCongruent(Downdate(c, h, s), m, h', h');
    RankOneRow(a, -1.0 / s, u, h', i);
    DotCongruent(N, RowOf(Downdate(c, h, s), i), h', RowOf(m, i), h');
    DotCommutes(N, u, h');
    FormSymmetric(a, h, h');
  }

  ghost function CommonNumerator(c: Core, h: Vec, r: real, h': Vec, r': real, i: int, j: int): real {
    var a := Fn(c.P);
    var u, w, q := Apply(a, h), Apply(a, h'), Form(a, h, h');
    (Form(a, h', h') + r') * (u(i) * u(j)) - q * (u(i) * w(j) + u(j) * w(i)) + (Form(a, h, h) + r) * (w(i) * w(j))
  }

  ghost function CommonDenominator(c: Core, h: Vec, r: real, h': Vec, r': real): real {
    var q := Form(Fn(c.P), h, h');
    (Form(Fn(c.P), h, h) + r) * (Form(Fn(c.P), h', h') + r') - q * q
  }

  lemma VariancesPositive(c: Core, h: Vec, r: real, h': Vec, r': real)
    requires Legal(c) && r > 0.0 && r' > 0.0
    ensures Form(Fn(c.P), h, h) + r > 0.0 && Form(Fn(First(c, h, r).P), h', h') + r' > 0.0
    ensures CommonDenominator(c, h, r, h', r') > 0.0
    ensures (Form(Fn(c.P), h, h) + r) * (Form(Fn(First(c, h, r).P), h', h') + r') == CommonDenominator(c, h, r, h', r')
  {
    hide Dot, Form, Apply, Updated;
    var a := Fn(c.P);
    AfterFirst(c, h, r, h', 0);
    CauchySchwarz(a, h, h');
    assert Form(a, h', h') >= 0.0;
    Determinant(Form(a, h, h), Form(a, h, h'), Form(a, h', h'), r, r');
  }

  lemma BothUpdates(c: Core, h: Vec, r: real, h': Vec, r': real, i: int, j: int)
    requires Legal(c) && r > 0.0 && r' > 0.0 && 0 <= i < N && 0 <= j < N
    requires Form(Fn(c.P), h, h) + r > 0.0 && Form(Fn(First(c, h, r).P), h', h') + r' > 0.0
    ensures var d := CommonDenominator(c, h, r, h', r');
      At(First(First(c, h, r), h', r').P, i, j) * d == At(c.P, i, j) * d - CommonNumerator(c, h, r, h', r', i, j)
  {
    hide Dot, Form, Apply, Updated, Legal;
    var a, c1 := Fn(c.P), First(c, h, r);
    VariancesPositive(c, h, r, h', r');
    AfterFirst(c, h, r, h', i);
    AfterFirst(c, h, r, h', j);
    LegalUpdateEntry(c, h, Form(a, h, h) + r, i, j);
    LegalUpdateEntry(c1, h', Form(Fn(c1.P), h', h') + r', i, j);
    EntryAfterBoth(At(c.P, i, j), Apply(a, h)(i), Apply(a, h)(j), Apply(a, h')(i), Apply(a, h')(j), Form(a, h, h'),
                   Form(a, h, h) + r, Form(a, h', h') + r', Form(Fn(c1.P), h', h') + r', CommonDenominator(c, h, r, h', r'));
  }

  lemma LegalUpdateEntry(c: Core, h: Vec, s: real, i: int, j: int)
    requires Legal(c) && s != 0.0 && 0 <= i < N && 0 <= j < N
    ensures At(Updated(c, h, s), i, j)
            == At(c.P, i, j) + (-1.0 / s) * (Apply(Fn(c.P), h)(i) * Apply(Fn(c.P), h)(j))
  {
    hide Apply, Updated;
    UpdateEntry(c, h, s, i, j);
  }

  /** Two covariance updates commute, for any two measurement rows. */
  lemma UpdatesCommute(c: Core, h: Vec, r: real, h': Vec, r': real)
    requires Legal(c) && r > 0.0 && r' > 0.0
    ensures Form(Fn(c.P), h, h) + r > 0.0 && Form(Fn(First(c, h, r).P), h', h') + r' > 0.0
    ensures Form(Fn(c.P), h', h') + r' > 0.0 && Form(Fn(First(c, h', r').P), h, h) + r > 0.0
    ensures First(First(c, h, r), h', r').P == First(First(c, h', r'), h, r).P
  {
    hide Dot, Form, Apply, Updated, CommonNumerator, CommonDenominator, Legal;
    VariancesPositive(c, h, r, h', r');
    VariancesPositive(c, h', r', h, r);
    var m, m' := First(First(c, h, r), h', r').P, First(First(c, h', r'), h, r).P;
    forall i, j | 0 <= i < N && 0 <= j < N ensures At(m, i, j) == At(m', i, j) {
      BothUpdates(c, h, r, h', r', i, j);
      BothUpdates(c, h', r', h, r, i, j);
      SameNumerator(c, h, r, h', r', i, j);
      Cancel(At(m, i, j), At(m', i, j), CommonDenominator(c, h, r, h', r'));
    }
    UpdatedDim(First(c, h, r), h', Form(Fn(First(c, h, r).P), h', h') + r');
    UpdatedDim(First(c, h', r'), h, Form(Fn(First(c, h', r').P), h, h) + r);
    SameMat(m, m');
  }

  lemma UpdatedDim(c: Core, h: Vec, s: real)
    requires s != 0.0
    ensures Dim(Updated(c, h, s))
  {}

  lemma SameNumerator(c: Core, h: Vec, r: real, h': Vec, r': real, i: int, j: int)
    requires Legal(c)
    ensures CommonNumerator(c, h, r, h', r', i, j) == CommonNumerator(c, h', r', h, r, i, j)
    ensures CommonDenominator(c, h, r, h', r') == CommonDenominator(c, h', r', h, r)
  {
    hide Form, Apply;
    FormSymmetric(Fn(c.P), h, h');
  }

  lemma Cancel(x: real, y: real, d: real)
    requires d != 0.0 && Times(x, d) == Times(y, d)
    ensures x == y
  {}

  // ---- two fusions of directly observed states ----

  /** With idle limits a fusion is the covariance update and the state correction. */
  lemma DirectStep(sqrt: real -> real, c: Core, si: int, z: real, r: real, dtEkfAvg: real)
    requires Legal(c) && 4 <= si < 10 && r > 0.0 && LimitsIdle(c, si, r, dtEkfAvg)
    ensures var s := At(c.P, si, si) + r; var c' := FusedDirect(sqrt, c, si, z, r, dtEkfAvg);
      && s > 0.0 && s == Form(Fn(c.P), Unit(si), Unit(si)) + r
      && c' == First(c, Unit(si), r).(state := Corrected(sqrt, c.state, Delta(Gain(c, Unit(si), s), Flat(c.state)(si) - z)))
      && Legal(c')
  {
    hide Form, Apply, Dot, Constrained, Corrected, Updated, Flat;
    var s := At(c.P, si, si) + r;
    FormUnits(Fn(c.P), si, si);
    DiagonalNonNegative(Fn(c.P), si);
    IdleFused(sqrt, c, Unit(si), s, Flat(c.state)(si) - z, dtEkfAvg);
  }

  lemma DirectGain(c: Core, si: int, s: real, i: int)
    requires Legal(c) && 0 <= si < N && 0 <= i < N && s != 0.0
    ensures Gain(c, Unit(si), s)(i) == At(c.P, i, si) / s
    ensures Apply(Fn(c.P), Unit(si))(i) == At(c.P, i, si)
  {
    hide Apply, Dot;
    ApplyUnit(Fn(c.P), si, i);
  }

  lemma SlotAfterOne(sqrt: real -> real, c: Core, si: int, z: real, r: real, dtEkfAvg: real, i: int)
    requires Legal(c) && 4 <= si < 10 && r > 0.0 && 4 <= i < N && LimitsIdle(c, si, r, dtEkfAvg)
    ensures At(c.P, si, si) + r > 0.0
    ensures Flat(FusedDirect(sqrt, c, si, z, r, dtEkfAvg).state)(i)
            == Flat(c.state)(i) - Times(At(c.P, i, si) / (At(c.P, si, si) + r), Flat(c.state)(si) - z)
  {
    hide Form, Apply, Dot, Constrained, Corrected, Updated, Flat, FusedDirect, Legal, Times;
    var s := At(c.P, si, si) + r;
    DirectStep(sqrt, c, si, z, r, dtEkfAvg);
    DirectGain(c, si, s, i);
    FlatCorrected(sqrt, c.state, Delta(Gain(c, Unit(si), s), Flat(c.state)(si) - z), i);
  }

  lemma EntriesAfterOne(sqrt: real -> real, c: Core, si: int, z: real, r: real, sj: int, rj: real, dtEkfAvg: real, i: int)
    requires Legal(c) && 4 <= si < 10 && 4 <= sj < 10 && r > 0.0 && rj > 0.0 && 0 <= i < N && LimitsIdle(c, si, r, dtEkfAvg)
    ensures var s, v, q := At(c.P, si, si) + r, At(c.P, sj, sj) + rj, At(c.P, si, sj);
      var m := FusedDirect(sqrt, c, si, z, r, dtEkfAvg).P;
      && s > 0.0 && At(m, sj, sj) + rj > 0.0
      && Times(s, At(m, sj, sj) + rj) == Joint(s, v, q)
      && At(m, i, sj) == At(c.P, i, sj) + Times(Times(-1.0 / s, q), At(c.P, i, si))
  {
    hide Form, Apply, Dot, Constrained, Corrected, Updated, Flat, FusedDirect, Legal;
    var a, h, h' := Fn(c.P), Unit(si), Unit(sj);
    var c1 := FusedDirect(sqrt, c, si, z, r, dtEkfAvg);
    DirectStep(sqrt, c, si, z, r, dtEkfAvg);
    VariancesPositive(c, h, r, h', rj);
    AfterFirst(c, h, r, h', i);
    FormUnits(a, sj, sj);
    FormUnits(a, si, sj);
    FormUnits(Fn(c1.P), sj, sj);
    ApplyUnit(a, si, i);
    ApplyUnit(a, sj, i);
    ApplyUnit(Fn(c1.P), sj, i);
  }

  /** Slot `i` of the state after fusing `si` and then `sj`. */
  lemma SlotAfterDirect(sqrt: real -> real, c: Core, si: int, zi: real, ri: real, sj: int, zj: real, rj: real, dtEkfAvg: real, i: int)
    requires Legal(c) && 4 <= si < 10 && 4 <= sj < 10 && ri > 0.0 && rj > 0.0 && 4 <= i < N
    requires LimitsIdle(c, si, ri, dtEkfAvg)
    requires LimitsIdle(FusedDirect(sqrt, c, si, zi, ri, dtEkfAvg), sj, rj, dtEkfAvg)
    ensures var c2 := FusedDirect(sqrt, FusedDirect(sqrt, c, si, zi, ri, dtEkfAvg), sj, zj, rj, dtEkfAvg);
      var s, v, q := At(c.P, si, si) + ri, At(c.P, sj, sj) + rj, At(c.P, si, sj);
      var e, e', d := Flat(c.state)(si) - zi, Flat(c.state)(sj) - zj, Joint(s, v, q);
      && d > 0.0
      && Times(Flat(c2.state)(i), d) == Times(Flat(c.state)(i), d) - Taken(At(c.P, i, si), At(c.P, i, sj), e, e', q, s, v)
  {
    hide Form, Apply, Dot, Constrained, Corrected, Updated, Flat, FusedDirect, Legal, LimitsIdle, First, Gain, Delta, At,
        Times, Joint, Taken;
    var s, v, q := At(c.P, si, si) + ri, At(c.P, sj, sj) + rj, At(c.P, si, sj);
    var c1 := FusedDirect(sqrt, c, si, zi, ri, dtEkfAvg);
    var c2 := FusedDirect(sqrt, c1, sj, zj, rj, dtEkfAvg);
    DirectStep(sqrt, c, si, zi, ri, dtEkfAvg);
    EntriesAfterOne(sqrt, c, si, zi, ri, sj, rj, dtEkfAvg, i);
    SlotAfterOne(sqrt, c, si, zi, ri, dtEkfAvg, i);
    SlotAfterOne(sqrt, c, si, zi, ri, dtEkfAvg, sj);
    SlotAfterOne(sqrt, c1, sj, zj, rj, dtEkfAvg, i);
    LegalSymmetric(c, si, sj);
    SlotScalars(Flat(c.state)(i), Flat(c1.state)(i), Flat(c2.state)(i), At(c.P, i, si), At(c.P, i, sj), At(c1.P, i, sj),
      Flat(c.state)(si) - zi, Flat(c.state)(sj) - zj, Flat(c1.state)(sj) - zj, q, s, v, At(c1.P, sj, sj) + rj);
  }

  lemma LegalSymmetric(c: Core, i: int, j: int)
    requires Legal(c) && 0 <= i < N && 0 <= j < N
    ensures At(c.P, i, j) == At(c.P, j, i)
  {
    assert Fn(c.P)(i, j) == Fn(c.P)(j, i);
  }

  /** Fusing two observed states in either order gives the same covariance and the same state past the quaternion. */
  lemma OrderIndependent(sqrt: real -> real, c: Core, si: int, zi: real, ri: real, sj: int, zj: real, rj: real, dtEkfAvg: real)
    requires Legal(c) && 4 <= si < 10 && 4 <= sj < 10 && ri > 0.0 && rj > 0.0
    requires LimitsIdle(c, si, ri, dtEkfAvg) && LimitsIdle(c, sj, rj, dtEkfAvg)
    requires LimitsIdle(FusedDirect(sqrt, c, si, zi, ri, dtEkfAvg), sj, rj, dtEkfAvg)
    requires LimitsIdle(FusedDirect(sqrt, c, sj, zj, rj, dtEkfAvg), si, ri, dtEkfAvg)
    ensures var there := FusedDirect(sqrt, FusedDirect(sqrt, c, si, zi, ri, dtEkfAvg), sj, zj, rj, dtEkfAvg);
      var back := FusedDirect(sqrt, FusedDirect(sqrt, c, sj, zj, rj, dtEkfAvg), si, zi, ri, dtEkfAvg);
      && there.P == back.P
      && forall i | 4 <= i < N :: Flat(there.state)(i) == Flat(back.state)(i)
  {
    hide Form, Apply, Dot, Constrained, Corrected, Updated, Flat, Gain, FusedDirect, Legal, Times, Joint, Taken;
    var c1, c1' := FusedDirect(sqrt, c, si, zi, ri, dtEkfAvg), FusedDirect(sqrt, c, sj, zj, rj, dtEkfAvg);
    var there, back := FusedDirect(sqrt, c1, sj, zj, rj, dtEkfAvg), FusedDirect(sqrt, c1', si, zi, ri, dtEkfAvg);
    SameCovariance(sqrt, c, si, zi, ri, sj, zj, rj, dtEkfAvg);
    forall i | 4 <= i < N ensures Flat(there.state)(i) == Flat(back.state)(i) {
      SlotAfterDirect(sqrt, c, si, zi, ri, sj, zj, rj, dtEkfAvg, i);
      SlotAfterDirect(sqrt, c, sj, zj, rj, si, zi, ri, dtEkfAvg, i);
      LegalSymmetric(c, si, sj);
      var s, v, q := At(c.P, si, si) + ri, At(c.P, sj, sj) + rj, At(c.P, si, sj);
      JointSymmetric(At(c.P, i, si), At(c.P, i, sj), Flat(c.state)(si) - zi, Flat(c.state)(sj) - zj, q, s, v);
      Cancel(Flat(there.state)(i), Flat(back.state)(i), Joint(s, v, q));
    }
  }

  lemma SameCovariance(sqrt: real -> real, c: Core, si: int, zi: real, ri: real, sj: int, zj: real, rj: real, dtEkfAvg: real)
    requires Legal(c) && 4 <= si < 10 && 4 <= sj < 10 && ri > 0.0 && rj > 0.0
    requires LimitsIdle(c, si, ri, dtEkfAvg) && LimitsIdle(c, sj, rj, dtEkfAvg)
    requires LimitsIdle(FusedDirect(sqrt, c, si, zi, ri, dtEkfAvg), sj, rj, dtEkfAvg)
    requires LimitsIdle(FusedDirect(sqrt, c, sj, zj, rj, dtEkfAvg), si, ri, dtEkfAvg)
    ensures FusedDirect(sqrt, FusedDirect(sqrt, c, si, zi, ri, dtEkfAvg), sj, zj, rj, dtEkfAvg).P
            == FusedDirect(sqrt, FusedDirect(sqrt, c, sj, zj, rj, dtEkfAvg), si, zi, ri, dtEkfAvg).P
  {
    hide Form, Apply, Dot, Constrained, Corrected, Updated, Flat, FusedDirect, Legal;
    DirectStep(sqrt, c, si, zi, ri, dtEkfAvg);
    DirectStep(sqrt, c, sj, zj, rj, dtEkfAvg);
    DirectStep(sqrt, FusedDirect(sqrt, c, si, zi, ri, dtEkfAvg), sj, zj, rj, dtEkfAvg);
    DirectStep(sqrt, FusedDirect(sqrt, c, sj, zj, rj, dtEkfAvg), si, zi, ri, dtEkfAvg);
    UpdatesCommute(c, Unit(si), ri, Unit(sj), rj);
    SamePUpdate(FusedDirect(sqrt, c, si, zi, ri, dtEkfAvg), First(c, Unit(si), ri), Unit(sj), rj);
    SamePUpdate(FusedDirect(sqrt, c, sj, zj, rj, dtEkfAvg), First(c, Unit(sj), rj), Unit(si), ri);
  }

  /** The covariance update reads nothing but the covariance and the inhibit flags. */
  lemma SamePUpdate(c: Core, c': Core, h: Vec, r: real)
    requires c.P == c'.P && c.inhibit == c'.inhibit && Form(Fn(c.P), h, h) + r != 0.0
    ensures First(c, h, r).P == First(c', h, r).P
  {
    hide Form, Apply, ApplyT, Dot;
    var s := Form(Fn(c.P), h, h) + r;
    SameMat(Updated(c, h, s), Updated(c', h, s));
  }

  /** On a legal covariance the guarded operation always applies its update. */
  lemma DirectApplies(sqrt: real -> real, c: Core, si: int, z: real, r: real, dtEkfAvg: real)
    requires Invariant(c) && Legal(c) && 0 <= si < 10 && r > 0.0
    ensures FuseDirect(sqrt, c, si, Flat(c.state)(si) - z, r, dtEkfAvg) == (FusedDirect(sqrt, c, si, z, r, dtEkfAvg), true)
  {
    hide Flat, Fused, Updated, Gain, Legal, Healthy, Invariant, SameSettings;
    DirectObservation(c, si, r);
  }

  /** The north and east position of one GPS fix, in the order of the source. */
  function NorthThenEast(sqrt: real -> real, c: Core, gps: GpsSample, r: real, dtEkfAvg: real): Core
    requires Invariant(c) && r > 0.0
  {
    var a := FuseDirect(sqrt, c, 7, c.state.position.x - gps.positionNe.x, r, dtEkfAvg).0;
    FuseDirect(sqrt, a, 8, a.state.position.y - gps.positionNe.y, r, dtEkfAvg).0
  }

  function EastThenNorth(sqrt: real -> real, c: Core, gps: GpsSample, r: real, dtEkfAvg: real): Core
    requires Invariant(c) && r > 0.0
  {
    var a := FuseDirect(sqrt, c, 8, c.state.position.y - gps.positionNe.y, r, dtEkfAvg).0;
    FuseDirect(sqrt, a, 7, a.state.position.x - gps.positionNe.x, r, dtEkfAvg).0
  }

  lemma FlatPosition(s: StateVector)
    ensures Flat(s)(7) == s.position.x && Flat(s)(8) == s.position.y
  {}

  /** Swapping the two position axes of a GPS fix changes neither the covariance nor any state past the quaternion. */
  lemma PositionAxesCommute(sqrt: real -> real, c: Core, gps: GpsSample, r: real, dtEkfAvg: real)
    requires Invariant(c) && Legal(c) && r > 0.0
    requires LimitsIdle(c, 7, r, dtEkfAvg) && LimitsIdle(c, 8, r, dtEkfAvg)
    requires LimitsIdle(FusedDirect(sqrt, c, 7, gps.positionNe.x, r, dtEkfAvg), 8, r, dtEkfAvg)
    requires LimitsIdle(FusedDirect(sqrt, c, 8, gps.positionNe.y, r, dtEkfAvg), 7, r, dtEkfAvg)
    ensures NorthThenEast(sqrt, c, gps, r, dtEkfAvg).P == EastThenNorth(sqrt, c, gps, r, dtEkfAvg).P
    ensures forall i | 4 <= i < N ::
              Flat(NorthThenEast(sqrt, c, gps, r, dtEkfAvg).state)(i) == Flat(EastThenNorth(sqrt, c, gps, r, dtEkfAvg).state)(i)
  {
    hide Fused, Legal, LimitsIdle, FuseDirect, FusedDirect, Flat, Invariant, SameSettings, Updated, Gain, Corrected, First, Form;
    var x, y := gps.positionNe.x, gps.positionNe.y;
    var a, b := FuseDirect(sqrt, c, 7, c.state.position.x - x, r, dtEkfAvg).0, FuseDirect(sqrt, c, 8, c.state.position.y - y, r, dtEkfAvg).0;
    FlatPosition(c.state);
    FlatPosition(a.state);
    FlatPosition(b.state);
    DirectStep(sqrt, c, 7, x, r, dtEkfAvg);
    DirectStep(sqrt, c, 8, y, r, dtEkfAvg);
    DirectApplies(sqrt, c, 7, x, r, dtEkfAvg);
    DirectApplies(sqrt, c, 8, y, r, dtEkfAvg);
    DirectApplies(sqrt, a, 8, y, r, dtEkfAvg);
    DirectApplies(sqrt, b, 7, x, r, dtEkfAvg);
    OrderIndependent(sqrt, c, 7, x, r, 8, y, r, dtEkfAvg);
  }
}
