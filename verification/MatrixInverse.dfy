/**
 Closed-form inverses of 3x3 and 4x4 matrices: accepted exactly when the determinant is not taken
 for zero, and then inverse on both sides.
 */
module MatrixInverse {
  import opened Numeric
  import opened Geometry

  type Cells = seq<real>

  /** Entry (i, j) of a row-major matrix. */
  function Entry(n: int, m: Cells, i: int, j: int): real {
    if 0 <= i * n + j < |m| then m[i * n + j] else 0.0
  }

  /** The first `k` terms of entry (i, j) of a product. */
  function Sum(n: int, a: Cells, b: Cells, i: int, j: int, k: nat): real {
    if k == 0 then 0.0 else Sum(n, a, b, i, j, k - 1) + Times(Entry(n, a, i, k - 1), Entry(n, b, k - 1, j))
  }

  predicate IdentityProduct(n: nat, a: Cells, b: Cells) {
    forall i, j | 0 <= i < n && 0 <= j < n :: Sum(n, a, b, i, j, n) == if i == j then 1.0 else 0.0
  }

  predicate Inverses(n: nat, a: Cells, b: Cells) { IdentityProduct(n, a, b) && IdentityProduct(n, b, a) }

  function Scaled(m: Cells, k: real): Cells { seq(|m|, i requires 0 <= i < |m| => Times(m[i], k)) }

  // ---- the closed forms ----

  function Minor2(a: real, b: real, c: real, d: real): real { a * b - c * d }

  function Minor3(a: real, b: real, c: real, d: real, e: real, f: real, g: real, h: real, i: real): real {
    a * e * i - a * f * h - d * b * i + d * c * h + g * b * f - g * c * e
  }

  function NegatedMinor3(a: real, b: real, c: real, d: real, e: real, f: real, g: real, h: real, i: real): real {
    -a * e * i + a * f * h + d * b * i - d * c * h - g * b * f + g * c * e
  }

  function Det3(m: Cells): real
    requires |m| == 9
  {
    Times(m[0], Minor2(m[4], m[8], m[7], m[5])) - Times(m[1], Minor2(m[3], m[8], m[5], m[6])) + Times(m[2], Minor2(m[3],
        m[7], m[4], m[6]))
  }

  function Adjugate3(m: Cells): (r: Cells)
    requires |m| == 9
    ensures |r| == 9
  {
    [Minor2(m[4], m[8], m[7], m[5]),
     Minor2(m[2], m[7], m[1], m[8]),
     Minor2(m[1], m[5], m[2], m[4]),
     Minor2(m[5], m[6], m[3], m[8]),
     Minor2(m[0], m[8], m[2], m[6]),
     Minor2(m[3], m[2], m[0], m[5]),
     Minor2(m[3], m[7], m[6], m[4]),
     Minor2(m[6], m[1], m[0], m[7]),
     Minor2(m[0], m[4], m[3], m[1])]
  }

  function Adjugate4(m: Cells): (r: Cells)
    requires |m| == 16
    ensures |r| == 16
  {
    [Minor3(m[5], m[6], m[7], m[9], m[10], m[11], m[13], m[14], m[15]),
     NegatedMinor3(m[1], m[2], m[3], m[9], m[10], m[11], m[13], m[14], m[15]),
     Minor3(m[1], m[2], m[3], m[5], m[6], m[7], m[13], m[14], m[15]),
     NegatedMinor3(m[1], m[2], m[3], m[5], m[6], m[7], m[9], m[10], m[11]),
     NegatedMinor3(m[4], m[6], m[7], m[8], m[10], m[11], m[12], m[14], m[15]),
     Minor3(m[0], m[2], m[3], m[8], m[10], m[11], m[12], m[14], m[15]),
     NegatedMinor3(m[0], m[2], m[3], m[4], m[6], m[7], m[12], m[14], m[15]),
     Minor3(m[0], m[2], m[3], m[4], m[6], m[7], m[8], m[10], m[11]),
     Minor3(m[4], m[5], m[7], m[8], m[9], m[11], m[12], m[13], m[15]),
     NegatedMinor3(m[0], m[1], m[3], m[8], m[9], m[11], m[12], m[13], m[15]),
     Minor3(m[0], m[1], m[3], m[4], m[5], m[7], m[12], m[13], m[15]),
     NegatedMinor3(m[0], m[1], m[3], m[4], m[5], m[7], m[8], m[9], m[11]),
     NegatedMinor3(m[4], m[5], m[6], m[8], m[9], m[10], m[12], m[13], m[14]),
     Minor3(m[0], m[1], m[2], m[8], m[9], m[10], m[12], m[13], m[14]),
     NegatedMinor3(m[0], m[1], m[2], m[4], m[5], m[6], m[12], m[13], m[14]),
     Minor3(m[0], m[1], m[2], m[4], m[5], m[6], m[8], m[9], m[10])]
  }

  function Det4(m: Cells): real
    requires |m| == 16
  {
    var inv := Adjugate4(m);
    Times(m[0], inv[0]) + Times(m[1], inv[4]) + Times(m[2], inv[8]) + Times(m[3], inv[12])
  }

  // ---- 3x3: triple products ----

  function Transposed3(m: Cells): (r: Cells)
    requires |m| == 9
    ensures |r| == 9
  {
    [m[0], m[3], m[6], m[1], m[4], m[7], m[2], m[5], m[8]]
  }

  function Row3(m: Cells, i: int): Vector3
    requires |m| == 9 && 0 <= i < 3
  {
    Vector3(m[3 * i], m[3 * i + 1], m[3 * i + 2])
  }

  lemma TripleCycles(x: Vector3, a: Vector3, b: Vector3)
    ensures Dot3(x, Cross(a, b)) == Dot3(a, Cross(b, x))
  {}

  lemma TripleRepeats(a: Vector3, b: Vector3)
    ensures Dot3(a, Cross(a, b)) == 0.0 && Dot3(b, Cross(a, b)) == 0.0
  {
    CrossPerpendicular(a, b);
  }

  lemma MinorOrders(a: real, b: real, c: real, d: real)
    ensures Minor2(a, b, c, d) == Minor2(b, a, c, d) == Minor2(a, b, d, c) == Minor2(b, a, d, c)
  {}

  lemma CrossMinors(u: Vector3, v: Vector3)
    ensures Cross(u, v) == Vector3(Minor2(u.y, v.z, u.z, v.y), Minor2(u.z, v.x, u.x, v.z), Minor2(u.x, v.y, u.y, v.x))
  {
    MinorOrders(u.y, v.z, u.z, v.y);
  }

  /** Column `j` of the adjugate is the cross product of the two rows after row `j`, cyclically. */
  lemma CofactorColumn(m: Cells, j: int)
    requires |m| == 9 && 0 <= j < 3
    ensures var adj := Adjugate3(m);
      Vector3(adj[j], adj[3 + j], adj[6 + j]) == Cross(Row3(m, (j + 1) % 3), Row3(m, (j + 2) % 3))
  {
    hide Minor2, Cross;
    var u, v := Row3(m, (j + 1) % 3), Row3(m, (j + 2) % 3);
    CrossMinors(u, v);
    MinorOrders(u.y, v.z, u.z, v.y);
    MinorOrders(u.z, v.x, u.x, v.z);
    MinorOrders(u.x, v.y, u.y, v.x);
  }

  lemma Unrolled3(a: Cells, b: Cells, i: int, j: int)
    requires |a| == |b| == 9 && 0 <= i < 3 && 0 <= j < 3
    ensures Sum(3, a, b, i, j, 3) == Times(a[3 * i], b[j]) + Times(a[3 * i + 1], b[3 + j]) + Times(a[3 * i + 2], b[6 + j])
  {
    hide Times;
    assert Sum(3, a, b, i, j, 1) == Sum(3, a, b, i, j, 0) + Times(a[3 * i], b[j]);
    assert Sum(3, a, b, i, j, 2) == Sum(3, a, b, i, j, 1) + Times(a[3 * i + 1], b[3 + j]);
  }

  lemma SumIsDot(a: Cells, b: Cells, i: int, j: int)
    requires |a| == |b| == 9 && 0 <= i < 3 && 0 <= j < 3
    ensures Sum(3, a, b, i, j, 3) == Dot3(Row3(a, i), Vector3(b[j], b[3 + j], b[6 + j]))
  {
    hide Sum;
    Unrolled3(a, b, i, j);
  }

  lemma Determinant3(m: Cells)
    requires |m| == 9
    ensures Det3(m) == Dot3(Row3(m, 0), Cross(Row3(m, 1), Row3(m, 2))) == Det3(Transposed3(m))
  {
    DeterminantForms3(m[0], m[1], m[2], m[3], m[4], m[5], m[6], m[7], m[8]);
  }

  lemma DeterminantForms3(a: real, b: real, c: real, d: real, e: real, f: real, g: real, h: real, i: real)
    ensures a * (e * i - h * f) - b * (d * i - f * g) + c * (d * h - e * g)
            == a * (e * i - f * h) + b * (f * g - d * i) + c * (d * h - e * g)
            == a * (e * i - f * h) - d * (b * i - h * c) + g * (b * f - e * c)
  {}

  lemma RightProduct3(m: Cells, i: int, j: int)
    requires |m| == 9 && 0 <= i < 3 && 0 <= j < 3
    ensures Sum(3, m, Adjugate3(m), i, j, 3) == if i == j then Det3(m) else 0.0
  {
    hide Sum, Adjugate3, Det3, Dot3, Cross;
    SumIsDot(m, Adjugate3(m), i, j);
    CofactorColumn(m, j);
    Determinant3(m);
    var x, y, z := Row3(m, 0), Row3(m, 1), Row3(m, 2);
    TripleCycles(x, y, z);
    TripleCycles(y, z, x);
    TripleRepeats(x, y);
    TripleRepeats(y, z);
    TripleRepeats(z, x);
  }

  lemma AdjugateTransposed3(m: Cells)
    requires |m| == 9
    ensures Adjugate3(Transposed3(m)) == Transposed3(Adjugate3(m))
  {
    hide Minor2;
    var left, right := Adjugate3(Transposed3(m)), Transposed3(Adjugate3(m));
    MinorOrders(m[4], m[8], m[7], m[5]);
    MinorOrders(m[2], m[7], m[1], m[8]);
    MinorOrders(m[1], m[5], m[2], m[4]);
    MinorOrders(m[5], m[6], m[3], m[8]);
    MinorOrders(m[0], m[8], m[2], m[6]);
    MinorOrders(m[3], m[2], m[0], m[5]);
    MinorOrders(m[3], m[7], m[6], m[4]);
    MinorOrders(m[6], m[1], m[0], m[7]);
    MinorOrders(m[0], m[4], m[3], m[1]);
    assert forall k | 0 <= k < 9 :: left[k] == right[k];
  }

  lemma SumTransposed3(a: Cells, b: Cells, i: int, j: int)
    requires |a| == |b| == 9 && 0 <= i < 3 && 0 <= j < 3
    ensures Sum(3, a, b, i, j, 3) == Sum(3, Transposed3(b), Transposed3(a), j, i, 3)
  {
    hide Sum, Times;
    Unrolled3(a, b, i, j);
    Unrolled3(Transposed3(b), Transposed3(a), j, i);
    Swapped(a[3 * i], b[j]);
    Swapped(a[3 * i + 1], b[3 + j]);
    Swapped(a[3 * i + 2], b[6 + j]);
  }

  /** Entry (i, j) of the products with the adjugate: the determinant on the diagonal, zero off it. */
  lemma AdjugateProducts3(m: Cells, i: int, j: int)
    requires |m| == 9 && 0 <= i < 3 && 0 <= j < 3
    ensures Sum(3, m, Adjugate3(m), i, j, 3) == if i == j then Det3(m) else 0.0
    ensures Sum(3, Adjugate3(m), m, i, j, 3) == if i == j then Det3(m) else 0.0
  {
    hide Sum, Adjugate3, Det3, Transposed3;
    RightProduct3(m, i, j);
    SumTransposed3(Adjugate3(m), m, i, j);
    AdjugateTransposed3(m);
    RightProduct3(Transposed3(m), j, i);
    Determinant3(m);
  }

  // ---- 4x4: expansion along a row ----

  datatype Quad = Quad(x0: real, x1: real, x2: real, x3: real)

  function Row4(m: Cells, i: int): Quad
    requires |m| == 16 && 0 <= i < 4
  {
    Quad(m[4 * i], m[4 * i + 1], m[4 * i + 2], m[4 * i + 3])
  }

  /** The row `x` against the cofactors of the three rows below it. */
  function Expansion(x: Quad, a: Quad, b: Quad, c: Quad): real {
    Times(x.x0, Minor3(a.x1, a.x2, a.x3, b.x1, b.x2, b.x3, c.x1, c.x2, c.x3))
    + Times(x.x1, NegatedMinor3(a.x0, a.x2, a.x3, b.x0, b.x2, b.x3, c.x0, c.x2, c.x3))
    + Times(x.x2, Minor3(a.x0, a.x1, a.x3, b.x0, b.x1, b.x3, c.x0, c.x1, c.x3))
    + Times(x.x3, NegatedMinor3(a.x0, a.x1, a.x2, b.x0, b.x1, b.x2, c.x0, c.x1, c.x2))
  }

  /** The same with the signs of an odd row. */
  function OddExpansion(x: Quad, a: Quad, b: Quad, c: Quad): real {
    Times(x.x0, NegatedMinor3(a.x1, a.x2, a.x3, b.x1, b.x2, b.x3, c.x1, c.x2, c.x3))
    + Times(x.x1, Minor3(a.x0, a.x2, a.x3, b.x0, b.x2, b.x3, c.x0, c.x2, c.x3))
    + Times(x.x2, NegatedMinor3(a.x0, a.x1, a.x3, b.x0, b.x1, b.x3, c.x0, c.x1, c.x3))
    + Times(x.x3, Minor3(a.x0, a.x1, a.x2, b.x0, b.x1, b.x2, c.x0, c.x1, c.x2))
  }

  lemma TimesMinor(x: real, a: real, b: real, c: real, d: real, e: real, f: real, g: real, h: real, i: real)
    ensures Times(x, Minor3(a, b, c, d, e, f, g, h, i))
            == x * a * e * i - x * a * f * h - x * d * b * i + x * d * c * h + x * g * b * f - x * g * c * e
    ensures Times(x, NegatedMinor3(a, b, c, d, e, f, g, h, i)) == -Times(x, Minor3(a, b, c, d, e, f, g, h, i))
  {
    SameTimes(Minor3(a, b, c, d, e, f, g, h, i), a * e * i - a * f * h - d * b * i + d * c * h + g * b * f - g * c * e, x);
    SameTimes(NegatedMinor3(a, b, c, d, e, f, g, h, i), -Minor3(a, b, c, d, e, f, g, h, i), x);
  }

  lemma ExpansionTerms(x: Quad, a: Quad, b: Quad, c: Quad)
    ensures Expansion(x, a, b, c)
            == x.x0 * a.x1 * b.x2 * c.x3 - x.x0 * a.x1 * b.x3 * c.x2 - x.x0 * b.x1 * a.x2 * c.x3
               + x.x0 * b.x1 * a.x3 * c.x2 + x.x0 * c.x1 * a.x2 * b.x3 - x.x0 * c.x1 * a.x3 * b.x2
               - x.x1 * a.x0 * b.x2 * c.x3 + x.x1 * a.x0 * b.x3 * c.x2 + x.x1 * b.x0 * a.x2 * c.x3
               - x.x1 * b.x0 * a.x3 * c.x2 - x.x1 * c.x0 * a.x2 * b.x3 + x.x1 * c.x0 * a.x3 * b.x2
               + x.x2 * a.x0 * b.x1 * c.x3 - x.x2 * a.x0 * b.x3 * c.x1 - x.x2 * b.x0 * a.x1 * c.x3
               + x.x2 * b.x0 * a.x3 * c.x1 + x.x2 * c.x0 * a.x1 * b.x3 - x.x2 * c.x0 * a.x3 * b.x1
               - x.x3 * a.x0 * b.x1 * c.x2 + x.x3 * a.x0 * b.x2 * c.x1 + x.x3 * b.x0 * a.x1 * c.x2
               - x.x3 * b.x0 * a.x2 * c.x1 - x.x3 * c.x0 * a.x1 * b.x2 + x.x3 * c.x0 * a.x2 * b.x1
  {
    hide Times, Minor3, NegatedMinor3;
    TimesMinor(x.x0, a.x1, a.x2, a.x3, b.x1, b.x2, b.x3, c.x1, c.x2, c.x3);
    TimesMinor(x.x1, a.x0, a.x2, a.x3, b.x0, b.x2, b.x3, c.x0, c.x2, c.x3);
    TimesMinor(x.x2, a.x0, a.x1, a.x3, b.x0, b.x1, b.x3, c.x0, c.x1, c.x3);
    TimesMinor(x.x3, a.x0, a.x1, a.x2, b.x0, b.x1, b.x2, c.x0, c.x1, c.x2);
  }

  /** Exchanging two neighbouring rows changes the sign. */
  lemma RowsExchange(x: Quad, a: Quad, b: Quad, c: Quad)
    ensures Expansion(x, a, b, c) == -Expansion(a, x, b, c) == -Expansion(x, b, a, c) == -Expansion(x, a, c, b)
  {
    hide Expansion;
    ExpansionTerms(x, a, b, c);
    ExpansionTerms(a, x, b, c);
    ExpansionTerms(x, b, a, c);
    ExpansionTerms(x, a, c, b);
  }

  lemma OddIsNegated(x: Quad, a: Quad, b: Quad, c: Quad)
    ensures OddExpansion(x, a, b, c) == -Expansion(x, a, b, c)
  {
    hide Times, Minor3, NegatedMinor3;
    TimesMinor(x.x0, a.x1, a.x2, a.x3, b.x1, b.x2, b.x3, c.x1, c.x2, c.x3);
    TimesMinor(x.x1, a.x0, a.x2, a.x3, b.x0, b.x2, b.x3, c.x0, c.x2, c.x3);
    TimesMinor(x.x2, a.x0, a.x1, a.x3, b.x0, b.x1, b.x3, c.x0, c.x1, c.x3);
    TimesMinor(x.x3, a.x0, a.x1, a.x2, b.x0, b.x1, b.x2, c.x0, c.x1, c.x2);
  }

  /** Laplace: a repeated row expands to zero, and each row expands to one determinant up to the sign of its place. */
  lemma Laplace(x: Quad, a: Quad, b: Quad, c: Quad)
    ensures Expansion(a, a, b, c) == Expansion(b, a, b, c) == Expansion(c, a, b, c) == 0.0
    ensures Expansion(x, a, b, c) == -Expansion(a, x, b, c) == Expansion(b, x, a, c) == -Expansion(c, x, a, b)
  {
    hide Expansion;
    RowsExchange(a, a, b, c);
    RowsExchange(b, a, b, c);
    RowsExchange(b, b, a, c);
    RowsExchange(c, a, b, c);
    RowsExchange(c, a, c, b);
    RowsExchange(c, c, a, b);
    RowsExchange(x, a, b, c);
    RowsExchange(b, x, a, c);
    RowsExchange(x, b, a, c);
    RowsExchange(c, x, a, b);
    RowsExchange(x, c, a, b);
  }

  lemma Unrolled4(a: Cells, b: Cells, i: int, j: int)
    requires |a| == |b| == 16 && 0 <= i < 4 && 0 <= j < 4
    ensures Sum(4, a, b, i, j, 4)
            == Times(a[4 * i], b[j]) + Times(a[4 * i + 1], b[4 + j]) + Times(a[4 * i + 2], b[8 + j]) + Times(a[4 * i + 3], b[12 + j])
  {
    hide Times;
    assert Sum(4, a, b, i, j, 1) == Sum(4, a, b, i, j, 0) + Times(a[4 * i], b[j]);
    assert Sum(4, a, b, i, j, 2) == Sum(4, a, b, i, j, 1) + Times(a[4 * i + 1], b[4 + j]);
    assert Sum(4, a, b, i, j, 3) == Sum(4, a, b, i, j, 2) + Times(a[4 * i + 2], b[8 + j]);
  }

  /** Column `j` of the adjugate holds the cofactors of row `j`. */
  lemma ColumnExpands(m: Cells, i: int, j: int)
    requires |m| == 16 && 0 <= i < 4 && 0 <= j < 4
    ensures var p, q, r, s := Row4(m, 0), Row4(m, 1), Row4(m, 2), Row4(m, 3);
      Sum(4, m, Adjugate4(m), i, j, 4)
      == if j == 0 then Expansion(Row4(m, i), q, r, s) else if j == 1 then OddExpansion(Row4(m, i), p, r, s)
         else if j == 2 then Expansion(Row4(m, i), p, q, s) else OddExpansion(Row4(m, i), p, q, r)
  {
    hide Sum, Times, Minor3, NegatedMinor3;
    Unrolled4(m, Adjugate4(m), i, j);
  }

  lemma RightProduct4(m: Cells, i: int, j: int)
    requires |m| == 16 && 0 <= i < 4 && 0 <= j < 4
    ensures Sum(4, m, Adjugate4(m), i, j, 4) == if i == j then Det4(m) else 0.0
  {
    hide Sum, Expansion, OddExpansion, Adjugate4;
    var p, q, r, s := Row4(m, 0), Row4(m, 1), Row4(m, 2), Row4(m, 3);
    ColumnExpands(m, i, j);
    FirstRow(m);
    Laplace(p, q, r, s);
    OddIsNegated(Row4(m, i), p, r, s);
    OddIsNegated(Row4(m, i), p, q, r);
    Laplace(q, p, r, s);
    Laplace(r, p, q, s);
    Laplace(s, p, q, r);
  }

  lemma FirstRow(m: Cells)
    requires |m| == 16
    ensures Det4(m) == Expansion(Row4(m, 0), Row4(m, 1), Row4(m, 2), Row4(m, 3))
  {
    hide Times, Minor3, NegatedMinor3;
  }

  function Transposed4(m: Cells): (r: Cells)
    requires |m| == 16
    ensures |r| == 16
  {
    [m[0], m[4], m[8], m[12], m[1], m[5], m[9], m[13], m[2], m[6], m[10], m[14], m[3], m[7], m[11], m[15]]
  }

  lemma MinorTransposed(a: real, b: real, c: real, d: real, e: real, f: real, g: real, h: real, i: real)
    ensures Minor3(a, b, c, d, e, f, g, h, i) == Minor3(a, d, g, b, e, h, c, f, i)
    ensures NegatedMinor3(a, b, c, d, e, f, g, h, i) == NegatedMinor3(a, d, g, b, e, h, c, f, i)
  {}

  /** The `k`-th index other than `j`. */
  function Other(j: int, k: int): int { if k < j then k else k + 1 }

  /** The cofactor of row `r` and column `c`. */
  function Cofactor(m: Cells, r: int, c: int): real {
    var p, q, s, t, u, v := Other(r, 0), Other(r, 1), Other(r, 2), Other(c, 0), Other(c, 1), Other(c, 2);
    if (r + c) % 2 == 0 then
      Minor3(Entry(4, m, p, t), Entry(4, m, p, u), Entry(4, m, p, v), Entry(4, m, q, t), Entry(4, m, q, u), Entry(4, m, q, v),
             Entry(4, m, s, t), Entry(4, m, s, u), Entry(4, m, s, v))
    else
      NegatedMinor3(Entry(4, m, p, t), Entry(4, m, p, u), Entry(4, m, p, v), Entry(4, m, q, t), Entry(4, m, q, u),
                    Entry(4, m, q, v), Entry(4, m, s, t), Entry(4, m, s, u), Entry(4, m, s, v))
  }

  lemma AdjugateIsCofactors(m: Cells, i: int, j: int)
    requires |m| == 16 && 0 <= i < 4 && 0 <= j < 4
    ensures Adjugate4(m)[4 * i + j] == Cofactor(m, j, i)
  {
    hide Minor3, NegatedMinor3;
    match i
    case 0 =>
    case 1 =>
    case 2 =>
    case 3 =>
  }

  lemma EntryTransposed(m: Cells, i: int, j: int)
    requires |m| == 16 && 0 <= i < 4 && 0 <= j < 4
    ensures Entry(4, Transposed4(m), i, j) == Entry(4, m, j, i)
  {}

  lemma CofactorTransposed(m: Cells, r: int, c: int)
    requires |m| == 16 && 0 <= r < 4 && 0 <= c < 4
    ensures Cofactor(Transposed4(m), r, c) == Cofactor(m, c, r)
  {
    hide Minor3, NegatedMinor3, Entry, Transposed4;
    forall i, j | 0 <= i < 4 && 0 <= j < 4
      ensures Entry(4, Transposed4(m), i, j) == Entry(4, m, j, i)
    {
      EntryTransposed(m, i, j);
    }
    var p, q, s, t, u, v := Other(c, 0), Other(c, 1), Other(c, 2), Other(r, 0), Other(r, 1), Other(r, 2);
    MinorTransposed(Entry(4, m, p, t), Entry(4, m, p, u), Entry(4, m, p, v), Entry(4, m, q, t), Entry(4, m, q, u),
                    Entry(4, m, q, v), Entry(4, m, s, t), Entry(4, m, s, u), Entry(4, m, s, v));
  }

  lemma AdjugateTransposed4(m: Cells)
    requires |m| == 16
    ensures Adjugate4(Transposed4(m)) == Transposed4(Adjugate4(m))
  {
    hide Adjugate4, Cofactor;
    var left, right := Adjugate4(Transposed4(m)), Transposed4(Adjugate4(m));
    forall k | 0 <= k < 16
      ensures left[k] == right[k]
    {
      var i, j := k / 4, k % 4;
      AdjugateIsCofactors(Transposed4(m), i, j);
      AdjugateIsCofactors(m, j, i);
      CofactorTransposed(m, j, i);
      EntryTransposed(Adjugate4(m), i, j);
    }
  }

  lemma DeterminantTransposed4(m: Cells)
    requires |m| == 16
    ensures Det4(Transposed4(m)) == Det4(m)
  {
    hide Det4, Expansion;
    var t := Transposed4(m);
    FirstRow(m);
    FirstRow(t);
    ExpansionTerms(Row4(m, 0), Row4(m, 1), Row4(m, 2), Row4(m, 3));
    ExpansionTerms(Row4(t, 0), Row4(t, 1), Row4(t, 2), Row4(t, 3));
  }

  lemma SumTransposed4(a: Cells, b: Cells, i: int, j: int)
    requires |a| == |b| == 16 && 0 <= i < 4 && 0 <= j < 4
    ensures Sum(4, a, b, i, j, 4) == Sum(4, Transposed4(b), Transposed4(a), j, i, 4)
  {
    hide Sum, Times;
    Unrolled4(a, b, i, j);
    Unrolled4(Transposed4(b), Transposed4(a), j, i);
    Swapped(a[4 * i], b[j]);
    Swapped(a[4 * i + 1], b[4 + j]);
    Swapped(a[4 * i + 2], b[8 + j]);
    Swapped(a[4 * i + 3], b[12 + j]);
  }

  /** Entry (i, j) of the products with the adjugate: the determinant on the diagonal, zero off it. */
  lemma AdjugateProducts4(m: Cells, i: int, j: int)
    requires |m| == 16 && 0 <= i < 4 && 0 <= j < 4
    ensures Sum(4, m, Adjugate4(m), i, j, 4) == if i == j then Det4(m) else 0.0
    ensures Sum(4, Adjugate4(m), m, i, j, 4) == if i == j then Det4(m) else 0.0
  {
    hide Sum, Adjugate4, Det4, Transposed4;
    RightProduct4(m, i, j);
    SumTransposed4(Adjugate4(m), m, i, j);
    AdjugateTransposed4(m);
    RightProduct4(Transposed4(m), j, i);
    DeterminantTransposed4(m);
  }

  // ---- main results ----

  lemma {:induction false} SumScaledRight(n: int, a: Cells, b: Cells, k: real, i: int, j: int, t: nat)
    ensures Sum(n, a, Scaled(b, k), i, j, t) == Times(Sum(n, a, b, i, j, t), k)
  {
    if t == 0 {
      TimesScaled(0.0, 0.0, k);
    } else {
      SumScaledRight(n, a, b, k, i, j, t - 1);
      EntryScaled(n, b, k, t - 1, j);
      TimesScaled(Entry(n, a, i, t - 1), Entry(n, b, t - 1, j), k);
      TimesAdds(Sum(n, a, b, i, j, t - 1), Times(Entry(n, a, i, t - 1), Entry(n, b, t - 1, j)), k);
    }
    hide Times, Entry, Scaled;
  }

  lemma {:induction false} SumScaledLeft(n: int, a: Cells, b: Cells, k: real, i: int, j: int, t: nat)
    ensures Sum(n, Scaled(a, k), b, i, j, t) == Times(Sum(n, a, b, i, j, t), k)
  {
    if t == 0 {
      TimesScaled(0.0, 0.0, k);
    } else {
      SumScaledLeft(n, a, b, k, i, j, t - 1);
      EntryScaled(n, a, k, i, t - 1);
      TimesScaled(Entry(n, b, t - 1, j), Entry(n, a, i, t - 1), k);
      TimesAdds(Sum(n, a, b, i, j, t - 1), Times(Entry(n, a, i, t - 1), Entry(n, b, t - 1, j)), k);
    }
    hide Times, Entry, Scaled;
  }

  lemma EntryScaled(n: int, m: Cells, k: real, i: int, j: int)
    ensures Entry(n, Scaled(m, k), i, j) == Times(Entry(n, m, i, j), k)
  {}

  lemma TimesScaled(x: real, y: real, k: real)
    ensures Times(x, Times(y, k)) == Times(Times(x, y), k) == Times(Times(y, x), k) == Times(Times(y, k), x)
    ensures Times(0.0, k) == 0.0
  {}

  lemma TimesAdds(x: real, y: real, k: real)
    ensures Times(x + y, k) == Times(x, k) + Times(y, k)
  {}

  function Inverse3(m: Cells): (r: Cells)
    requires |m| == 9 && Det3(m) != 0.0
    ensures |r| == 9
  {
    Scaled(Adjugate3(m), 1.0 / Det3(m))
  }

  function Inverse4(m: Cells): (r: Cells)
    requires |m| == 16 && Det4(m) != 0.0
    ensures |r| == 16
  {
    Scaled(Adjugate4(m), 1.0 / Det4(m))
  }

  lemma Reciprocal(d: real)
    requires d != 0.0
    ensures Times(d, 1.0 / d) == 1.0 && Times(0.0, 1.0 / d) == 0.0
  {}

  /** With a nonzero determinant the closed form is the inverse on both sides. */
  lemma InverseCorrect3(m: Cells)
    requires |m| == 9 && Det3(m) != 0.0
    ensures Inverses(3, m, Inverse3(m))
  {
    hide Det3, Adjugate3, Sum, Times, Scaled;
    var k := 1.0 / Det3(m);
    Reciprocal(Det3(m));
    forall i, j | 0 <= i < 3 && 0 <= j < 3
      ensures Sum(3, m, Inverse3(m), i, j, 3) == Sum(3, Inverse3(m), m, i, j, 3) == if i == j then 1.0 else 0.0
    {
      AdjugateProducts3(m, i, j);
      SumScaledRight(3, m, Adjugate3(m), k, i, j, 3);
      SumScaledLeft(3, Adjugate3(m), m, k, i, j, 3);
    }
  }

  /** With a nonzero determinant the closed form is the inverse on both sides. */
  lemma InverseCorrect4(m: Cells)
    requires |m| == 16 && Det4(m) != 0.0
    ensures Inverses(4, m, Inverse4(m))
  {
    hide Det4, Adjugate4, Sum, Times, Scaled;
    var k := 1.0 / Det4(m);
    Reciprocal(Det4(m));
    forall i, j | 0 <= i < 4 && 0 <= j < 4
      ensures Sum(4, m, Inverse4(m), i, j, 4) == Sum(4, Inverse4(m), m, i, j, 4) == if i == j then 1.0 else 0.0
    {
      AdjugateProducts4(m, i, j);
      SumScaledRight(4, m, Adjugate4(m), k, i, j, 4);
      SumScaledLeft(4, Adjugate4(m), m, k, i, j, 4);
    }
  }

  /** Which matrices `mat_inverse` accepts: the zero test on the determinant is `FLT_EPSILON`, not zero. */
  predicate Accepted(dim: int, m: Cells) {
    || (dim == 3 && |m| == 9 && Abs(Det3(m)) >= FLT_EPSILON)
    || (dim == 4 && |m| == 16 && Abs(Det4(m)) >= FLT_EPSILON)
  }

  /** A thousandth of the identity has an inverse and is refused all the same. */
  lemma SmallMatrixRefused()
    ensures var k: real := 0.001; var m := [k, 0.0, 0.0, 0.0, k, 0.0, 0.0, 0.0, k];
      Det3(m) != 0.0 && Inverses(3, m, Inverse3(m)) && !Accepted(3, m)
  {
    var k: real := 0.001;
    var m := [k, 0.0, 0.0, 0.0, k, 0.0, 0.0, 0.0, k];
    assert Det3(m) == 0.000000001;
    hide Inverses, Inverse3, Det3;
    InverseCorrect3(m);
  }

  // ---- the operations, over arrays ----

  method ComputeInverse3x3(m: Cells, out: array<real>) returns (ok: bool)
    requires |m| == 9 && out.Length == 9
    modifies out
    ensures ok <==> Accepted(3, m)
    ensures if ok then Det3(m) != 0.0 && out[..] == Inverse3(m) else out[..] == old(out[..])
  {
    hide Times, Minor2;
    var det := Times(m[0], Minor2(m[4], m[8], m[7], m[5])) - Times(m[1], Minor2(m[3], m[8], m[5], m[6])) + Times(m[2],
        Minor2(m[3], m[7], m[4], m[6]));
    if IsZero(det) {
      return false;
    }
    var invdet := 1.0 / det;
    out[0] := Times(Minor2(m[4], m[8], m[7], m[5]), invdet);
    out[1] := Times(Minor2(m[2], m[7], m[1], m[8]), invdet);
    out[2] := Times(Minor2(m[1], m[5], m[2], m[4]), invdet);
    out[3] := Times(Minor2(m[5], m[6], m[3], m[8]), invdet);
    out[4] := Times(Minor2(m[0], m[8], m[2], m[6]), invdet);
    out[5] := Times(Minor2(m[3], m[2], m[0], m[5]), invdet);
    out[6] := Times(Minor2(m[3], m[7], m[6], m[4]), invdet);
    out[7] := Times(Minor2(m[6], m[1], m[0], m[7]), invdet);
    out[8] := Times(Minor2(m[0], m[4], m[3], m[1]), invdet);
    return true;
  }

  method ComputeInverse4x4(m: Cells, out: array<real>) returns (ok: bool)
    requires |m| == 16 && out.Length == 16
    modifies out
    ensures ok <==> Accepted(4, m)
    ensures if ok then Det4(m) != 0.0 && out[..] == Inverse4(m) else out[..] == old(out[..])
  {
    hide Adjugate4, Times;
    var inv := Cofactors4(m);
    var det := Times(m[0], inv[0]) + Times(m[1], inv[4]) + Times(m[2], inv[8]) + Times(m[3], inv[12]);
    if IsZero(det) {
      return false;
    }
    det := 1.0 / det;
    for i := 0 to 16
      invariant forall k | 0 <= k < 16 :: inv[k] == Adjugate4(m)[k]
      invariant forall k | 0 <= k < 16 :: out[k] == if k < i then Times(Adjugate4(m)[k], det) else old(out[k])
    {
      out[i] := Times(inv[i], det);
    }
    return true;
  }

  method Cofactors4(m: Cells) returns (inv: array<real>)
    requires |m| == 16
    ensures fresh(inv) && inv.Length == 16
    ensures forall k | 0 <= k < 16 :: inv[k] == Adjugate4(m)[k]
  {
    hide Minor3, NegatedMinor3;
    inv := new real[16];
    CofactorsEven(m, inv);
    CofactorsOdd(m, inv);
  }

  method CofactorsEven(m: Cells, inv: array<real>)
    requires |m| == 16 && inv.Length == 16
    modifies inv
    ensures forall k | 0 <= k < 16 :: inv[k] == if k % 2 == 0 then Adjugate4(m)[k] else old(inv[k])
  {
    hide Minor3, NegatedMinor3;
    inv[0] := Minor3(m[5], m[6], m[7], m[9], m[10], m[11], m[13], m[14], m[15]);
    inv[4] := NegatedMinor3(m[4], m[6], m[7], m[8], m[10], m[11], m[12], m[14], m[15]);
    inv[8] := Minor3(m[4], m[5], m[7], m[8], m[9], m[11], m[12], m[13], m[15]);
    inv[12] := NegatedMinor3(m[4], m[5], m[6], m[8], m[9], m[10], m[12], m[13], m[14]);
    inv[2] := Minor3(m[1], m[2], m[3], m[5], m[6], m[7], m[13], m[14], m[15]);
    inv[6] := NegatedMinor3(m[0], m[2], m[3], m[4], m[6], m[7], m[12], m[14], m[15]);
    inv[10] := Minor3(m[0], m[1], m[3], m[4], m[5], m[7], m[12], m[13], m[15]);
    inv[14] := NegatedMinor3(m[0], m[1], m[2], m[4], m[5], m[6], m[12], m[13], m[14]);
  }

  method CofactorsOdd(m: Cells, inv: array<real>)
    requires |m| == 16 && inv.Length == 16
    modifies inv
    ensures forall k | 0 <= k < 16 :: inv[k] == if k % 2 == 1 then Adjugate4(m)[k] else old(inv[k])
  {
    hide Minor3, NegatedMinor3;
    inv[1] := NegatedMinor3(m[1], m[2], m[3], m[9], m[10], m[11], m[13], m[14], m[15]);
    inv[5] := Minor3(m[0], m[2], m[3], m[8], m[10], m[11], m[12], m[14], m[15]);
    inv[9] := NegatedMinor3(m[0], m[1], m[3], m[8], m[9], m[11], m[12], m[13], m[15]);
    inv[13] := Minor3(m[0], m[1], m[2], m[8], m[9], m[10], m[12], m[13], m[14]);
    inv[3] := NegatedMinor3(m[1], m[2], m[3], m[5], m[6], m[7], m[9], m[10], m[11]);
    inv[7] := Minor3(m[0], m[2], m[3], m[4], m[6], m[7], m[8], m[10], m[11]);
    inv[11] := NegatedMinor3(m[0], m[1], m[3], m[4], m[5], m[7], m[8], m[9], m[11]);
    inv[15] := Minor3(m[0], m[1], m[2], m[4], m[5], m[6], m[8], m[9], m[10]);
  }

  /** `x` and `y` may be one array: the input is copied before the output is written. */
  method MatInverse(x: array<real>, y: array<real>, dim: int) returns (ok: bool)
    requires dim == 3 ==> x.Length == y.Length == 9
    requires dim == 4 ==> x.Length == y.Length == 16
    modifies y
    ensures ok <==> Accepted(dim, old(x[..]))
    ensures ok ==> Inverses(dim, old(x[..]), y[..])
    ensures !ok ==> y[..] == old(y[..])
  {
    hide Det3, Det4, Inverse3, Inverse4, Inverses, Adjugate3, Adjugate4;
    if dim == 3 {
      var m, out := new real[9], new real[9];
      CopyInto(x, m);
      ok := ComputeInverse3x3(m[..], out);
      if ok {
        InverseCorrect3(m[..]);
        CopyInto(out, y);
      }
    } else if dim == 4 {
      var m, out := new real[16], new real[16];
      CopyInto(x, m);
      ok := ComputeInverse4x4(m[..], out);
      if ok {
        InverseCorrect4(m[..]);
        CopyInto(out, y);
      }
    } else {
      ok := false;
    }
  }

  method CopyInto(a: array<real>, b: array<real>)
    requires a.Length == b.Length && a != b
    modifies b
    ensures b[..] == a[..]
  {
    for i := 0 to a.Length
      invariant forall k | 0 <= k < i :: b[k] == a[k]
    {
      b[i] := a[i];
    }
  }
}
