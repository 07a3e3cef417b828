/**
 Quadratic forms over the filter's 24-dimensional state space.

 Vectors and square tables are total functions on the integers; only indices below `N`
 take part in sums. The results used by the filter proofs are Cauchy-Schwarz for a positive
 semidefinite form, the effect of a rank-one change on a form, and the fact that
 `f * a * transpose(f)` has the form of `a` evaluated at the transposed argument.
 */
module LinearAlgebra {
  import opened Numeric

  const N: nat := 24

  type Vec = int -> real
  type Table = (int, int) -> real

  // The second termination component keeps Dafny from unfolding the sum for a literal `n`.
  function Dot(n: nat, u: Vec, v: Vec): real
    decreases n, u(0)
  {
    if n == 0 then 0.0 else Dot(n - 1, u, v) + u(n - 1) * v(n - 1)
  }

  function RowOf(a: Table, i: int): Vec { k => a(i, k) }

  function ColOf(a: Table, k: int): Vec { i => a(i, k) }

  function Unit(k: int): Vec { i => if i == k then 1.0 else 0.0 }

  function Combine(x: Vec, t: real, y: Vec): Vec { i => x(i) + Times(t, y(i)) }

  /** The matrix-vector product. */
  function Apply(a: Table, y: Vec): Vec { i => Dot(N, RowOf(a, i), y) }

  /** The product of the transpose with a vector. */
  function ApplyT(a: Table, x: Vec): Vec { k => Dot(N, x, ColOf(a, k)) }

  /** The bilinear form `xᵀ a y`. */
  function Form(a: Table, x: Vec, y: Vec): real { Dot(N, x, Apply(a, y)) }

  function Product(a: Table, b: Table): Table { (i, j) => Dot(N, RowOf(a, i), ColOf(b, j)) }

  function Transpose(a: Table): Table { (i, j) => a(j, i) }

  /** `f a fᵀ` */
  function Congruence(f: Table, a: Table): Table { Product(Product(f, a), Transpose(f)) }

  /** `a + s u uᵀ` */
  function RankOne(a: Table, s: real, u: Vec): Table { (i, j) => a(i, j) + s * (u(i) * u(j)) }

  ghost predicate Symmetric(a: Table) {
    forall i, j | 0 <= i < N && 0 <= j < N :: a(i, j) == a(j, i)
  }

  ghost predicate PositiveSemidefinite(a: Table) {
    forall x: Vec :: Form(a, x, x) >= 0.0
  }

  ghost predicate SameTable(a: Table, b: Table) {
    forall i, j | 0 <= i < N && 0 <= j < N :: a(i, j) == b(i, j)
  }

  // ---- sums ----

  lemma {:induction false} DotCongruent(n: nat, u: Vec, v: Vec, u': Vec, v': Vec)
    requires forall i | 0 <= i < n :: u(i) == u'(i) && v(i) == v'(i)
    ensures Dot(n, u, v) == Dot(n, u', v')
  {
    if n > 0 {
      DotCongruent(n - 1, u, v, u', v');
    }
  }

  lemma {:induction false} DotCommutes(n: nat, u: Vec, v: Vec)
    ensures Dot(n, u, v) == Dot(n, v, u)
  {
    if n > 0 {
      DotCommutes(n - 1, u, v);
    }
  }

  lemma {:induction false} DotZero(n: nat, u: Vec, v: Vec)
    requires forall i | 0 <= i < n :: v(i) == 0.0
    ensures Dot(n, u, v) == 0.0
  {
    if n > 0 {
      DotZero(n - 1, u, v);
    }
  }

  lemma {:induction false} DotUnit(n: nat, u: Vec, k: int)
    requires 0 <= k < n
    ensures Dot(n, u, Unit(k)) == u(k)
  {
    if k == n - 1 {
      DotZero(n - 1, u, Unit(k));
    } else {
      DotUnit(n - 1, u, k);
    }
  }

  lemma {:induction false} DotNonNegative(n: nat, u: Vec, v: Vec)
    requires forall i | 0 <= i < n :: u(i) * v(i) >= 0.0
    ensures Dot(n, u, v) >= 0.0
  {
    if n > 0 {
      DotNonNegative(n - 1, u, v);
    }
  }

  lemma {:induction false} DotLinear(n: nat, u: Vec, v: Vec, s: real, w: Vec, r: Vec)
    requires forall i | 0 <= i < n :: r(i) == v(i) + s * w(i)
    ensures Dot(n, u, r) == Dot(n, u, v) + s * Dot(n, u, w)
  {
    if n > 0 {
      DotLinear(n - 1, u, v, s, w, r);
      var a, b, c := u(n - 1), v(n - 1), w(n - 1);
      Distribute(a, b, s, c);
      Distribute(s, Dot(n - 1, u, w), 1.0, a * c);
    }
  }

  lemma Distribute(a: real, b: real, s: real, c: real)
    ensures a * (b + s * c) == a * b + s * (a * c)
  {}

  // ---- exchanging the two sums of a form ----

  function PartialRows(a: Table, n: nat, y: Vec): Vec { i => Dot(n, RowOf(a, i), y) }

  function PartialCols(a: Table, n: nat, x: Vec): Vec { k => Dot(n, x, ColOf(a, k)) }

  lemma {:induction false} SwapSums(n: nat, p: nat, a: Table, x: Vec, y: Vec)
    ensures Dot(n, x, PartialRows(a, p, y)) == Dot(p, PartialCols(a, n, x), y)
  {
    if p == 0 {
      DotZero(n, x, PartialRows(a, p, y));
    } else {
      SwapSums(n, p - 1, a, x, y);
      DotLinear(n, x, PartialRows(a, p - 1, y), y(p - 1), ColOf(a, p - 1), PartialRows(a, p, y));
    }
  }

  lemma Adjoint(a: Table, x: Vec, y: Vec)
    ensures Dot(N, x, Apply(a, y)) == Dot(N, ApplyT(a, x), y)
  {
    SwapSums(N, N, a, x, y);
    DotCongruent(N, x, PartialRows(a, N, y), x, Apply(a, y));
    DotCongruent(N, PartialCols(a, N, x), y, ApplyT(a, x), y);
  }

  // ---- forms ----

  lemma FormSymmetric(a: Table, x: Vec, y: Vec)
    requires Symmetric(a)
    ensures Form(a, x, y) == Form(a, y, x)
  {
    hide Dot;
    Adjoint(a, x, y);
    DotCommutes(N, ApplyT(a, x), y);
    forall k | 0 <= k < N ensures ApplyT(a, x)(k) == Apply(a, x)(k) {
      ApplyTIsApply(a, x, k);
    }
    DotCongruent(N, y, ApplyT(a, x), y, Apply(a, x));
  }

  lemma ApplyTIsApply(a: Table, x: Vec, k: int)
    requires Symmetric(a) && 0 <= k < N
    ensures ApplyT(a, x)(k) == Apply(a, x)(k)
  {
    hide Dot;
    DotCommutes(N, x, ColOf(a, k));
    DotCongruent(N, ColOf(a, k), x, RowOf(a, k), x);
  }

  lemma FormCongruent(a: Table, b: Table, x: Vec, y: Vec)
    requires SameTable(a, b)
    ensures Form(a, x, y) == Form(b, x, y)
  {
    hide Dot;
    forall i | 0 <= i < N ensures Apply(a, y)(i) == Apply(b, y)(i) {
      DotCongruent(N, RowOf(a, i), y, RowOf(b, i), y);
    }
    DotCongruent(N, x, Apply(a, y), x, Apply(b, y));
  }

  lemma PsdCongruent(a: Table, b: Table)
    requires SameTable(a, b) && PositiveSemidefinite(a)
    ensures PositiveSemidefinite(b)
  {
    hide Form;
    forall x: Vec ensures Form(b, x, x) >= 0.0 {
      FormCongruent(a, b, x, x);
      assert Form(a, x, x) >= 0.0;
    }
  }

  lemma FormUnit(a: Table, x: Vec, k: int)
    requires 0 <= k < N
    ensures Form(a, x, Unit(k)) == Dot(N, x, ColOf(a, k))
    ensures Form(a, Unit(k), x) == Apply(a, x)(k)
  {
    hide Dot;
    forall i | 0 <= i < N ensures Apply(a, Unit(k))(i) == ColOf(a, k)(i) {
      DotUnit(N, RowOf(a, i), k);
    }
    DotCongruent(N, x, Apply(a, Unit(k)), x, ColOf(a, k));
    DotCommutes(N, Unit(k), Apply(a, x));
    DotUnit(N, Apply(a, x), k);
  }

  lemma FormUnits(a: Table, i: int, k: int)
    requires 0 <= i < N && 0 <= k < N
    ensures Form(a, Unit(i), Unit(k)) == a(i, k)
  {
    hide Dot;
    FormUnit(a, Unit(k), i);
    DotUnit(N, RowOf(a, i), k);
  }

  /** A positive semidefinite table has no negative diagonal entry. */
  lemma DiagonalNonNegative(a: Table, k: int)
    requires PositiveSemidefinite(a) && 0 <= k < N
    ensures a(k, k) >= 0.0
  {
    hide Form;
    FormUnits(a, k, k);
    assert Form(a, Unit(k), Unit(k)) >= 0.0;
  }

  lemma FormRight(a: Table, x: Vec, y: Vec, t: real, w: Vec)
    ensures Form(a, x, Combine(y, t, w)) == Form(a, x, y) + t * Form(a, x, w)
  {
    hide Dot;
    forall i | 0 <= i < N ensures Apply(a, Combine(y, t, w))(i) == Apply(a, y)(i) + t * Apply(a, w)(i) {
      DotLinear(N, RowOf(a, i), y, t, w, Combine(y, t, w));
      assert Apply(a, Combine(y, t, w))(i) == Dot(N, RowOf(a, i), Combine(y, t, w));
      assert Apply(a, y)(i) == Dot(N, RowOf(a, i), y);
      assert Apply(a, w)(i) == Dot(N, RowOf(a, i), w);
    }
    DotLinear(N, x, Apply(a, y), t, Apply(a, w), Apply(a, Combine(y, t, w)));
  }

  lemma FormCombine(a: Table, x: Vec, t: real, y: Vec)
    requires Symmetric(a)
    ensures Form(a, Combine(x, t, y), Combine(x, t, y)) == Quadratic(Form(a, x, x), Form(a, x, y), Form(a, y, y), t)
  {
    hide Dot, Form;
    var z := Combine(x, t, y);
    FormRight(a, z, x, t, y);
    FormSymmetric(a, z, x);
    FormSymmetric(a, z, y);
    FormRight(a, x, x, t, y);
    FormRight(a, y, x, t, y);
    FormSymmetric(a, x, y);
    Expand(t, Form(a, x, x), Form(a, x, y), Form(a, y, y));
  }

  function Quadratic(p: real, q: real, r: real, t: real): real { p + 2.0 * t * q + t * t * r }

  lemma Expand(t: real, p: real, q: real, r: real)
    ensures (p + t * q) + t * (q + t * r) == Quadratic(p, q, r, t)
  {}

  lemma CauchySchwarz(a: Table, x: Vec, y: Vec)
    requires Symmetric(a) && PositiveSemidefinite(a)
    ensures Form(a, x, y) * Form(a, x, y) <= Form(a, x, x) * Form(a, y, y)
  {
    hide Dot, Form;
    var p, q, r := Form(a, x, x), Form(a, x, y), Form(a, y, y);
    forall t: real ensures Quadratic(p, q, r, t) >= 0.0 {
      FormCombine(a, x, t, y);
      assert Form(a, Combine(x, t, y), Combine(x, t, y)) >= 0.0;
    }
    assert p >= 0.0 && r >= 0.0;
    Discriminant(p, q, r);
  }

  /** A quadratic polynomial that is nowhere negative has no positive discriminant. */
  lemma Discriminant(p: real, q: real, r: real)
    requires p >= 0.0 && r >= 0.0
    requires forall t: real :: Quadratic(p, q, r, t) >= 0.0
    ensures q * q <= p * r
  {
    if r > 0.0 {
      var t := -q / r;
      assert t * r == -q;
      assert t * t * r == t * -q;
      assert Quadratic(p, q, r, t) >= 0.0;
      assert p + t * q >= 0.0;
      assert (p + t * q) * r == p * r - q * q;
    } else if q != 0.0 {
      var t := -(p + 1.0) / (2.0 * q);
      assert 2.0 * t * q == -(p + 1.0);
      var value := Quadratic(p, q, r, t);
      assert false;
    }
  }

  // ---- rank-one changes ----

  lemma RankOneForm(a: Table, s: real, u: Vec, x: Vec)
    ensures Form(RankOne(a, s, u), x, x) == Form(a, x, x) + s * (Dot(N, u, x) * Dot(N, u, x))
  {
    hide Dot;
    var d := Dot(N, u, x);
    var b := RankOne(a, s, u);
    forall i | 0 <= i < N ensures Apply(b, x)(i) == Apply(a, x)(i) + (s * d) * u(i) {
      RankOneRow(a, s, u, x, i);
    }
    DotLinear(N, x, Apply(a, x), s * d, u, Apply(b, x));
    DotCommutes(N, u, x);
    Regroup(s, d);
  }

  lemma Regroup(s: real, d: real)
    ensures (s * d) * d == s * (d * d)
  {}

  lemma RankOneRow(a: Table, s: real, u: Vec, x: Vec, i: int)
    ensures Apply(RankOne(a, s, u), x)(i) == Apply(a, x)(i) + (s * Dot(N, u, x)) * u(i)
  {
    hide Dot;
    var b, t := RankOne(a, s, u), s * u(i);
    forall j | 0 <= j < N ensures RowOf(b, i)(j) == RowOf(a, i)(j) + t * u(j) {
      assert s * (u(i) * u(j)) == t * u(j);
    }
    DotLinear(N, x, RowOf(a, i), t, u, RowOf(b, i));
    DotCommutes(N, x, RowOf(a, i));
    DotCommutes(N, x, RowOf(b, i));
    DotCommutes(N, x, u);
    assert (s * u(i)) * Dot(N, u, x) == (s * Dot(N, u, x)) * u(i);
  }

  lemma RankOneSymmetric(a: Table, s: real, u: Vec)
    requires Symmetric(a)
    ensures Symmetric(RankOne(a, s, u))
  {}

  lemma RankOneUpPsd(a: Table, s: real, u: Vec)
    requires PositiveSemidefinite(a) && s >= 0.0
    ensures PositiveSemidefinite(RankOne(a, s, u))
  {
    hide Dot, Form;
    forall x: Vec ensures Form(RankOne(a, s, u), x, x) >= 0.0 {
      RankOneForm(a, s, u, x);
      ScaledSquare(s, Dot(N, u, x));
      assert Form(a, x, x) >= 0.0;
    }
  }

  lemma ScaledSquare(s: real, d: real)
    requires s >= 0.0
    ensures s * (d * d) >= 0.0
  {}

  // ---- congruence ----

  /** Entry (i, j) of `f a fᵀ` is the form of `a` at rows i and j of `f`. */
  lemma CongruenceEntry(f: Table, a: Table, i: int, j: int)
    ensures Congruence(f, a)(i, j) == Form(a, RowOf(f, i), RowOf(f, j))
  {
    hide Dot;
    Adjoint(a, RowOf(f, i), RowOf(f, j));
    DotCongruent(N, RowOf(Product(f, a), i), ColOf(Transpose(f), j), ApplyT(a, RowOf(f, i)), RowOf(f, j));
  }

  lemma CongruenceSymmetric(f: Table, a: Table)
    requires Symmetric(a)
    ensures Symmetric(Congruence(f, a))
  {
    hide Form, Congruence;
    forall i, j | 0 <= i < N && 0 <= j < N ensures Congruence(f, a)(i, j) == Congruence(f, a)(j, i) {
      CongruenceEntry(f, a, i, j);
      CongruenceEntry(f, a, j, i);
      FormSymmetric(a, RowOf(f, i), RowOf(f, j));
    }
  }

  /** The form of `f a fᵀ` at x is the form of `a` at `fᵀ x`. */
  lemma CongruenceForm(f: Table, a: Table, x: Vec)
    ensures Form(Congruence(f, a), x, x) == Form(a, ApplyT(f, x), ApplyT(f, x))
  {
    hide Dot;
    var z, b := ApplyT(f, x), Product(f, a);
    forall i | 0 <= i < N ensures Apply(Congruence(f, a), x)(i) == Apply(b, z)(i) {
      ProductApply(b, f, x, i);
    }
    DotCongruent(N, x, Apply(Congruence(f, a), x), x, Apply(b, z));
    Adjoint(b, x, z);
    forall k | 0 <= k < N ensures ApplyT(b, x)(k) == ApplyT(a, z)(k) {
      ProductApplyT(f, a, x, k);
    }
    DotCongruent(N, ApplyT(b, x), z, ApplyT(a, z), z);
    Adjoint(a, z, z);
  }

  lemma ProductApply(b: Table, f: Table, x: Vec, i: int)
    ensures Apply(Product(b, Transpose(f)), x)(i) == Apply(b, ApplyT(f, x))(i)
  {
    hide Dot;
    var r := RowOf(b, i);
    var c := RowOf(Product(b, Transpose(f)), i);
    forall j | 0 <= j < N ensures c(j) == Apply(f, r)(j) {
      DotCommutes(N, r, RowOf(f, j));
      DotCongruent(N, r, ColOf(Transpose(f), j), r, RowOf(f, j));
    }
    DotCongruent(N, c, x, Apply(f, r), x);
    DotCommutes(N, Apply(f, r), x);
    Adjoint(f, x, r);
    DotCommutes(N, ApplyT(f, x), r);
  }

  lemma ProductApplyT(f: Table, a: Table, x: Vec, k: int)
    ensures ApplyT(Product(f, a), x)(k) == ApplyT(a, ApplyT(f, x))(k)
  {
    hide Dot;
    var c := ColOf(a, k);
    forall i | 0 <= i < N ensures ColOf(Product(f, a), k)(i) == Apply(f, c)(i) {
      assert ColOf(Product(f, a), k)(i) == Dot(N, RowOf(f, i), c);
    }
    DotCongruent(N, x, ColOf(Product(f, a), k), x, Apply(f, c));
    Adjoint(f, x, c);
  }

  lemma CongruencePsd(f: Table, a: Table)
    requires PositiveSemidefinite(a)
    ensures PositiveSemidefinite(Congruence(f, a))
  {
    hide Form, Congruence;
    forall x: Vec ensures Form(Congruence(f, a), x, x) >= 0.0 {
      CongruenceForm(f, a, x);
      assert Form(a, ApplyT(f, x), ApplyT(f, x)) >= 0.0;
    }
  }
}
