/**
 The dense magnetometer expressions: innovation variances, observation rows and gains of the three
 axes, proved equal to `H P Hᵀ + R` and `P Hᵀ`, with H the derivative of the predicted measurement.
 */
module MagFusion {
  import opened Numeric
  import opened LinearAlgebra

  /** The values a magnetometer update captures on entry. */
  datatype MagGeometry = MagGeometry(q0: real, q1: real, q2: real, q3: real, magN: real, magE: real, magD: real)

  // ---- the common subexpressions ----

  function SH0(g: MagGeometry): real { 2.0 * g.magD * g.q3 + 2.0 * g.magE * g.q2 + 2.0 * g.magN * g.q1 }
  function SH1(g: MagGeometry): real { 2.0 * g.magD * g.q0 - 2.0 * g.magE * g.q1 + 2.0 * g.magN * g.q2 }
  function SH2(g: MagGeometry): real { 2.0 * g.magD * g.q1 + 2.0 * g.magE * g.q0 - 2.0 * g.magN * g.q3 }
  function SH3(g: MagGeometry): real { Sq(g.q3) }
  function SH4(g: MagGeometry): real { Sq(g.q2) }
  function SH5(g: MagGeometry): real { Sq(g.q1) }
  function SH6(g: MagGeometry): real { Sq(g.q0) }
  function SH7(g: MagGeometry): real { 2.0 * g.magN * g.q0 }
  function SH8(g: MagGeometry): real { 2.0 * g.magE * g.q3 }

  function SK_MX1(g: MagGeometry): real { SH3(g) + SH4(g) - SH5(g) - SH6(g) }
  function SK_MX2(g: MagGeometry): real { SH7(g) + SH8(g) - 2.0 * g.magD * g.q2 }
  function SK_MX3(g: MagGeometry): real { 2.0 * g.q0 * g.q2 - 2.0 * g.q1 * g.q3 }
  function SK_MX4(g: MagGeometry): real { 2.0 * g.q0 * g.q3 + 2.0 * g.q1 * g.q2 }
  function SK_MY1(g: MagGeometry): real { SH3(g) - SH4(g) + SH5(g) - SH6(g) }
  function SK_MY2(g: MagGeometry): real { SH7(g) + SH8(g) - 2.0 * g.magD * g.q2 }
  function SK_MY3(g: MagGeometry): real { 2.0 * g.q0 * g.q3 - 2.0 * g.q1 * g.q2 }
  function SK_MY4(g: MagGeometry): real { 2.0 * g.q0 * g.q1 + 2.0 * g.q2 * g.q3 }
  function SK_MZ1(g: MagGeometry): real { SH3(g) - SH4(g) - SH5(g) + SH6(g) }
  function SK_MZ2(g: MagGeometry): real { SH7(g) + SH8(g) - 2.0 * g.magD * g.q2 }
  function SK_MZ3(g: MagGeometry): real { 2.0 * g.q0 * g.q1 - 2.0 * g.q2 * g.q3 }
  function SK_MZ4(g: MagGeometry): real { 2.0 * g.q0 * g.q2 + 2.0 * g.q1 * g.q3 }

  // ---- the innovation variances, with the repeated coefficients named as the gains name them ----

  /** The bracket the variance repeats for column `k`. */
  function ColumnX(g: MagGeometry, P: Table, k: int): real {
    P(19, k) + P(1, k) * SH0(g) - P(2, k) * SH1(g) + P(3, k) * SH2(g) - P(16, k) * SK_MX1(g) + P(17, k) * SK_MX4(g)
        - P(18, k) * SK_MX3(g) + P(0, k) * SK_MX2(g)
  }

  function VarInnovX(g: MagGeometry, P: Table, r: real): real {
    P(19, 19) + r + P(1, 19) * SH0(g) - P(2, 19) * SH1(g) + P(3, 19) * SH2(g) - P(16, 19) * SK_MX1(g)
    + SK_MX4(g) * ColumnX(g, P, 17)
    - SK_MX3(g) * ColumnX(g, P, 18)
    + SK_MX2(g) * ColumnX(g, P, 0)
    + P(17, 19) * SK_MX4(g) - P(18, 19) * SK_MX3(g)
    + SH0(g) * ColumnX(g, P, 1)
    - SH1(g) * ColumnX(g, P, 2)
    + SH2(g) * ColumnX(g, P, 3)
    - SK_MX1(g) * ColumnX(g, P, 16)
    + P(0, 19) * SK_MX2(g)
  }

  /** The bracket the variance repeats for column `k`. */
  function ColumnY(g: MagGeometry, P: Table, k: int): real {
    P(20, k) + P(0, k) * SH2(g) + P(1, k) * SH1(g) + P(2, k) * SH0(g) - P(17, k) * SK_MY1(g) - P(16, k) * SK_MY3(g)
        + P(18, k) * SK_MY4(g) - P(3, k) * SK_MY2(g)
  }

  function VarInnovY(g: MagGeometry, P: Table, r: real): real {
    P(20, 20) + r + P(0, 20) * SH2(g) + P(1, 20) * SH1(g) + P(2, 20) * SH0(g) - P(17, 20) * SK_MY1(g)
    - SK_MY3(g) * ColumnY(g, P, 16)
    + SK_MY4(g) * ColumnY(g, P, 18)
    - SK_MY2(g) * ColumnY(g, P, 3)
    - P(16, 20) * SK_MY3(g) + P(18, 20) * SK_MY4(g)
    + SH2(g) * ColumnY(g, P, 0)
    + SH1(g) * ColumnY(g, P, 1)
    + SH0(g) * ColumnY(g, P, 2)
    - SK_MY1(g) * ColumnY(g, P, 17)
    - P(3, 20) * SK_MY2(g)
  }

  /** The bracket the variance repeats for column `k`. */
  function ColumnZ(g: MagGeometry, P: Table, k: int): real {
    P(21, k) + P(0, k) * SH1(g) - P(1, k) * SH2(g) + P(3, k) * SH0(g) + P(18, k) * SK_MZ1(g) + P(16, k) * SK_MZ4(g)
        - P(17, k) * SK_MZ3(g) + P(2, k) * SK_MZ2(g)
  }

  function VarInnovZ(g: MagGeometry, P: Table, r: real): real {
    P(21, 21) + r + P(0, 21) * SH1(g) - P(1, 21) * SH2(g) + P(3, 21) * SH0(g) + P(18, 21) * SK_MZ1(g)
    + SK_MZ4(g) * ColumnZ(g, P, 16)
    - SK_MZ3(g) * ColumnZ(g, P, 17)
    + SK_MZ2(g) * ColumnZ(g, P, 2)
    + P(16, 21) * SK_MZ4(g) - P(17, 21) * SK_MZ3(g)
    + SH1(g) * ColumnZ(g, P, 0)
    - SH2(g) * ColumnZ(g, P, 1)
    + SH0(g) * ColumnZ(g, P, 3)
    + SK_MZ1(g) * ColumnZ(g, P, 18)
    + P(2, 21) * SK_MZ2(g)
  }

  // ---- the observation rows ----

  /** The entries of H that can be nonzero; `unit` is the slot whose entry is one. */
  datatype MagRow = MagRow(h0: real, h1: real, h2: real, h3: real, h16: real, h17: real, h18: real, unit: int)

  predicate ValidUnit(h: MagRow) { 19 <= h.unit <= 21 }

  function RowX(g: MagGeometry): (h: MagRow)
    ensures ValidUnit(h)
  {
    MagRow(SH7(g) + SH8(g) - 2.0 * g.magD * g.q2, SH0(g), -SH1(g), SH2(g), SH5(g) - SH4(g) - SH3(g) + SH6(g),
        2.0 * g.q0 * g.q3 + 2.0 * g.q1 * g.q2, 2.0 * g.q1 * g.q3 - 2.0 * g.q0 * g.q2, 19)
  }

  function RowY(g: MagGeometry): (h: MagRow)
    ensures ValidUnit(h)
  {
    MagRow(SH2(g), SH1(g), SH0(g), 2.0 * g.magD * g.q2 - SH8(g) - SH7(g), 2.0 * g.q1 * g.q2 - 2.0 * g.q0 * g.q3,
        SH4(g) - SH3(g) - SH5(g) + SH6(g), 2.0 * g.q0 * g.q1 + 2.0 * g.q2 * g.q3, 20)
  }

  function RowZ(g: MagGeometry): (h: MagRow)
    ensures ValidUnit(h)
  {
    MagRow(SH1(g), -SH2(g), SH7(g) + SH8(g) - 2.0 * g.magD * g.q2, SH0(g), 2.0 * g.q0 * g.q2 + 2.0 * g.q1 * g.q3,
        2.0 * g.q2 * g.q3 - 2.0 * g.q0 * g.q1, SH3(g) - SH4(g) - SH5(g) + SH6(g), 21)
  }

  /** Gain of the x axis times its innovation variance, from one row of P. */
  function NumeratorX(g: MagGeometry, p: Vec): real {
    p(19) + p(1) * SH0(g) - p(2) * SH1(g) + p(3) * SH2(g) + p(0) * SK_MX2(g) - p(16) * SK_MX1(g) + p(17) * SK_MX4(g)
        - p(18) * SK_MX3(g)
  }

  /** Gain of the y axis times its innovation variance, from one row of P. */
  function NumeratorY(g: MagGeometry, p: Vec): real {
    p(20) + p(0) * SH2(g) + p(1) * SH1(g) + p(2) * SH0(g) - p(3) * SK_MY2(g) - p(17) * SK_MY1(g) - p(16) * SK_MY3(g)
        + p(18) * SK_MY4(g)
  }

  /** Gain of the z axis times its innovation variance, from one row of P. */
  function NumeratorZ(g: MagGeometry, p: Vec): real {
    p(21) + p(0) * SH1(g) - p(1) * SH2(g) + p(3) * SH0(g) + p(2) * SK_MZ2(g) + p(18) * SK_MZ1(g) + p(16) * SK_MZ4(g)
        - p(17) * SK_MZ3(g)
  }

  function Place(v: Vec, k: int, c: real): Vec { i => if i == k then c else v(i) }

  /** H as a vector over all states. */
  function Dense(h: MagRow): Vec {
    Place(Place(Place(Place(Place(Place(Place(Place(i => 0.0, 0, h.h0), 1, h.h1), 2, h.h2), 3, h.h3),
                            16, h.h16), 17, h.h17), 18, h.h18), h.unit, 1.0)
  }

  function SparseDot(h: MagRow, v: Vec): real {
    Times(h.h0, v(0)) + Times(h.h1, v(1)) + Times(h.h2, v(2)) + Times(h.h3, v(3))
    + Times(h.h16, v(16)) + Times(h.h17, v(17)) + Times(h.h18, v(18)) + v(h.unit)
  }

  lemma DotPlace(u: Vec, v: Vec, k: int, c: real)
    requires 0 <= k < N && v(k) == 0.0
    ensures Dot(N, u, Place(v, k, c)) == Dot(N, u, v) + Times(c, u(k))
  {
    hide Dot;
    DotLinear(N, u, v, c, Unit(k), Place(v, k, c));
    DotUnit(N, u, k);
  }

  lemma TimesOne(a: real)
    ensures Times(1.0, a) == a == Times(a, 1.0)
  {}

  /** Eight products are the whole inner product with H. */
  lemma DenseDot(h: MagRow, u: Vec)
    requires ValidUnit(h)
    ensures Dot(N, u, Dense(h)) == SparseDot(h, u)
  {
    hide Dot, Times;
    TimesOne(u(h.unit));
    var z: Vec := i => 0.0;
    var v0 := Place(z, 0, h.h0);
    var v1 := Place(v0, 1, h.h1);
    var v2 := Place(v1, 2, h.h2);
    var v3 := Place(v2, 3, h.h3);
    var v4 := Place(v3, 16, h.h16);
    var v5 := Place(v4, 17, h.h17);
    var v6 := Place(v5, 18, h.h18);
    DotZero(N, u, z);
    DotPlace(u, z, 0, h.h0);
    DotPlace(u, v0, 1, h.h1);
    DotPlace(u, v1, 2, h.h2);
    DotPlace(u, v2, 3, h.h3);
    DotPlace(u, v3, 16, h.h16);
    DotPlace(u, v4, 17, h.h17);
    DotPlace(u, v5, 18, h.h18);
    DotPlace(u, v6, h.unit, 1.0);
    DotCongruent(N, u, Dense(h), u, Place(v6, h.unit, 1.0));
  }

  /** `H P Hᵀ` needs only the eight columns H touches. */
  lemma DenseForm(h: MagRow, P: Table)
    requires ValidUnit(h)
    ensures Form(P, Dense(h), Dense(h)) == SparseDot(h, ApplyT(P, Dense(h)))
    ensures forall k :: ApplyT(P, Dense(h))(k) == SparseDot(h, ColOf(P, k))
  {
    hide Dot, Dense, SparseDot;
    Adjoint(P, Dense(h), Dense(h));
    DenseDot(h, ApplyT(P, Dense(h)));
    forall k ensures ApplyT(P, Dense(h))(k) == SparseDot(h, ColOf(P, k)) {
      DotCommutes(N, Dense(h), ColOf(P, k));
      DenseDot(h, ColOf(P, k));
    }
  }

  /** The code's bracket for column `k` is entry `k` of `H P`. */
  lemma BracketX(g: MagGeometry, p: Vec)
    ensures NumeratorX(g, p) == SparseDot(RowX(g), p)
  {
    hide SH0, SH1, SH2, SH3, SH4, SH5, SH6, SH7, SH8;
  }

  lemma VarianceIsFormX(g: MagGeometry, P: Table, r: real)
    ensures VarInnovX(g, P, r) == Form(P, Dense(RowX(g)), Dense(RowX(g))) + r
  {
    hide Form, Dense, SparseDot, RowX, NumeratorX, ColumnX, VarInnovX, OuterX;
    var hp := ApplyT(P, Dense(RowX(g)));
    DenseForm(RowX(g), P);
    forall k ensures hp(k) == ColumnX(g, P, k) {
      BracketX(g, ColOf(P, k));
      ColumnXIs(g, P, k);
    }
    SpreadX(g, P, r);
    BracketX(g, hp);
    OuterXIsProduct(g, hp, r);
  }

  lemma SpreadXTerms(g: MagGeometry, P: Table)
    ensures P(19, 19) + P(1, 19) * SH0(g) - P(2, 19) * SH1(g) + P(3, 19) * SH2(g) - P(16, 19) * SK_MX1(g) + P(17,
        19) * SK_MX4(g) - P(18, 19) * SK_MX3(g) + P(0, 19) * SK_MX2(g) == ColumnX(g, P, 19)
  {
    hide SH0, SH1, SH2, SK_MX1, SK_MX2, SK_MX3, SK_MX4;
  }

  function OuterX(g: MagGeometry, b17: real, b18: real, b0: real, b1: real, b2: real, b3: real, b16: real, b19: real,
      r: real): real {
    b19 + r + SK_MX4(g) * b17 - SK_MX3(g) * b18 + SK_MX2(g) * b0 + SH0(g) * b1 - SH1(g) * b2 + SH2(g) * b3 - SK_MX1(g) * b16
  }

  lemma SpreadX(g: MagGeometry, P: Table, r: real)
    ensures VarInnovX(g, P, r) == OuterX(g, ColumnX(g, P, 17), ColumnX(g, P, 18), ColumnX(g, P, 0), ColumnX(g, P, 1),
        ColumnX(g, P, 2), ColumnX(g, P, 3), ColumnX(g, P, 16), ColumnX(g, P, 19), r)
  {
    SpreadXTerms(g, P);
    hide ColumnX, SH0, SH1, SH2, SK_MX1, SK_MX2, SK_MX3, SK_MX4;
  }

  lemma ColumnXIs(g: MagGeometry, P: Table, k: int)
    ensures ColumnX(g, P, k) == NumeratorX(g, ColOf(P, k))
  {
    hide SH0, SH1, SH2, SK_MX1, SK_MX2, SK_MX3, SK_MX4;
  }

  lemma OuterXIsProduct(g: MagGeometry, hp: Vec, r: real)
    ensures OuterX(g, hp(17), hp(18), hp(0), hp(1), hp(2), hp(3), hp(16), hp(19), r) == NumeratorX(g, hp) + r
  {
    hide SH0, SH1, SH2, SK_MX1, SK_MX2, SK_MX3, SK_MX4;
  }

  /** The code's bracket for column `k` is entry `k` of `H P`. */
  lemma BracketY(g: MagGeometry, p: Vec)
    ensures NumeratorY(g, p) == SparseDot(RowY(g), p)
  {
    hide SH0, SH1, SH2, SH3, SH4, SH5, SH6, SH7, SH8;
  }

  lemma VarianceIsFormY(g: MagGeometry, P: Table, r: real)
    ensures VarInnovY(g, P, r) == Form(P, Dense(RowY(g)), Dense(RowY(g))) + r
  {
    hide Form, Dense, SparseDot, RowY, NumeratorY, ColumnY, VarInnovY, OuterY;
    var hp := ApplyT(P, Dense(RowY(g)));
    DenseForm(RowY(g), P);
    forall k ensures hp(k) == ColumnY(g, P, k) {
      BracketY(g, ColOf(P, k));
      ColumnYIs(g, P, k);
    }
    SpreadY(g, P, r);
    BracketY(g, hp);
    OuterYIsProduct(g, hp, r);
  }

  lemma SpreadYTerms(g: MagGeometry, P: Table)
    ensures P(20, 20) + P(0, 20) * SH2(g) + P(1, 20) * SH1(g) + P(2, 20) * SH0(g) - P(17, 20) * SK_MY1(g) - P(16,
        20) * SK_MY3(g) + P(18, 20) * SK_MY4(g) - P(3, 20) * SK_MY2(g) == ColumnY(g, P, 20)
  {
    hide SH0, SH1, SH2, SK_MY1, SK_MY2, SK_MY3, SK_MY4;
  }

  function OuterY(g: MagGeometry, b16: real, b18: real, b3: real, b0: real, b1: real, b2: real, b17: real, b20: real,
      r: real): real {
    b20 + r - SK_MY3(g) * b16 + SK_MY4(g) * b18 - SK_MY2(g) * b3 + SH2(g) * b0 + SH1(g) * b1 + SH0(g) * b2 - SK_MY1(g) * b17
  }

  lemma SpreadY(g: MagGeometry, P: Table, r: real)
    ensures VarInnovY(g, P, r) == OuterY(g, ColumnY(g, P, 16), ColumnY(g, P, 18), ColumnY(g, P, 3), ColumnY(g, P, 0),
        ColumnY(g, P, 1), ColumnY(g, P, 2), ColumnY(g, P, 17), ColumnY(g, P, 20), r)
  {
    SpreadYTerms(g, P);
    hide ColumnY, SH0, SH1, SH2, SK_MY1, SK_MY2, SK_MY3, SK_MY4;
  }

  lemma ColumnYIs(g: MagGeometry, P: Table, k: int)
    ensures ColumnY(g, P, k) == NumeratorY(g, ColOf(P, k))
  {
    hide SH0, SH1, SH2, SK_MY1, SK_MY2, SK_MY3, SK_MY4;
  }

  lemma OuterYIsProduct(g: MagGeometry, hp: Vec, r: real)
    ensures OuterY(g, hp(16), hp(18), hp(3), hp(0), hp(1), hp(2), hp(17), hp(20), r) == NumeratorY(g, hp) + r
  {
    hide SH0, SH1, SH2, SK_MY1, SK_MY2, SK_MY3, SK_MY4;
  }

  /** The code's bracket for column `k` is entry `k` of `H P`. */
  lemma BracketZ(g: MagGeometry, p: Vec)
    ensures NumeratorZ(g, p) == SparseDot(RowZ(g), p)
  {
    hide SH0, SH1, SH2, SH3, SH4, SH5, SH6, SH7, SH8;
  }

  lemma VarianceIsFormZ(g: MagGeometry, P: Table, r: real)
    ensures VarInnovZ(g, P, r) == Form(P, Dense(RowZ(g)), Dense(RowZ(g))) + r
  {
    hide Form, Dense, SparseDot, RowZ, NumeratorZ, ColumnZ, VarInnovZ, OuterZ;
    var hp := ApplyT(P, Dense(RowZ(g)));
    DenseForm(RowZ(g), P);
    forall k ensures hp(k) == ColumnZ(g, P, k) {
      BracketZ(g, ColOf(P, k));
      ColumnZIs(g, P, k);
    }
    SpreadZ(g, P, r);
    BracketZ(g, hp);
    OuterZIsProduct(g, hp, r);
  }

  lemma SpreadZTerms(g: MagGeometry, P: Table)
    ensures P(21, 21) + P(0, 21) * SH1(g) - P(1, 21) * SH2(g) + P(3, 21) * SH0(g) + P(18, 21) * SK_MZ1(g) + P(16,
        21) * SK_MZ4(g) - P(17, 21) * SK_MZ3(g) + P(2, 21) * SK_MZ2(g) == ColumnZ(g, P, 21)
  {
    hide SH0, SH1, SH2, SK_MZ1, SK_MZ2, SK_MZ3, SK_MZ4;
  }

  function OuterZ(g: MagGeometry, b16: real, b17: real, b2: real, b0: real, b1: real, b3: real, b18: real, b21: real,
      r: real): real {
    b21 + r + SK_MZ4(g) * b16 - SK_MZ3(g) * b17 + SK_MZ2(g) * b2 + SH1(g) * b0 - SH2(g) * b1 + SH0(g) * b3 + SK_MZ1(g) * b18
  }

  lemma SpreadZ(g: MagGeometry, P: Table, r: real)
    ensures VarInnovZ(g, P, r) == OuterZ(g, ColumnZ(g, P, 16), ColumnZ(g, P, 17), ColumnZ(g, P, 2), ColumnZ(g, P, 0),
        ColumnZ(g, P, 1), ColumnZ(g, P, 3), ColumnZ(g, P, 18), ColumnZ(g, P, 21), r)
  {
    SpreadZTerms(g, P);
    hide ColumnZ, SH0, SH1, SH2, SK_MZ1, SK_MZ2, SK_MZ3, SK_MZ4;
  }

  lemma ColumnZIs(g: MagGeometry, P: Table, k: int)
    ensures ColumnZ(g, P, k) == NumeratorZ(g, ColOf(P, k))
  {
    hide SH0, SH1, SH2, SK_MZ1, SK_MZ2, SK_MZ3, SK_MZ4;
  }

  lemma OuterZIsProduct(g: MagGeometry, hp: Vec, r: real)
    ensures OuterZ(g, hp(16), hp(17), hp(2), hp(0), hp(1), hp(3), hp(18), hp(21), r) == NumeratorZ(g, hp) + r
  {
    hide SH0, SH1, SH2, SK_MZ1, SK_MZ2, SK_MZ3, SK_MZ4;
  }

  // ---- H is the derivative of the predicted measurement ----

  function GeometryAt(s: Vec): MagGeometry { MagGeometry(s(0), s(1), s(2), s(3), s(16), s(17), s(18)) }

  function Dcm00(g: MagGeometry): real { g.q0 * g.q0 + g.q1 * g.q1 - g.q2 * g.q2 - g.q3 * g.q3 }
  function Dcm01(g: MagGeometry): real { 2.0 * (g.q1 * g.q2 + g.q0 * g.q3) }
  function Dcm02(g: MagGeometry): real { 2.0 * (g.q1 * g.q3 - g.q0 * g.q2) }
  function Dcm10(g: MagGeometry): real { 2.0 * (g.q1 * g.q2 - g.q0 * g.q3) }
  function Dcm11(g: MagGeometry): real { g.q0 * g.q0 - g.q1 * g.q1 + g.q2 * g.q2 - g.q3 * g.q3 }
  function Dcm12(g: MagGeometry): real { 2.0 * (g.q2 * g.q3 + g.q0 * g.q1) }
  function Dcm20(g: MagGeometry): real { 2.0 * (g.q1 * g.q3 + g.q0 * g.q2) }
  function Dcm21(g: MagGeometry): real { 2.0 * (g.q2 * g.q3 - g.q0 * g.q1) }
  function Dcm22(g: MagGeometry): real { g.q0 * g.q0 - g.q1 * g.q1 - g.q2 * g.q2 + g.q3 * g.q3 }

  function Polar00(a: MagGeometry, b: MagGeometry): real { 2.0 * (a.q0 * b.q0 + a.q1 * b.q1 - a.q2 * b.q2 - a.q3 * b.q3) }
  function Polar01(a: MagGeometry, b: MagGeometry): real { 2.0 * (a.q1 * b.q2 + a.q2 * b.q1 + a.q0 * b.q3 + a.q3 * b.q0) }
  function Polar02(a: MagGeometry, b: MagGeometry): real { 2.0 * (a.q1 * b.q3 + a.q3 * b.q1 - a.q0 * b.q2 - a.q2 * b.q0) }
  function Polar10(a: MagGeometry, b: MagGeometry): real { 2.0 * (a.q1 * b.q2 + a.q2 * b.q1 - a.q0 * b.q3 - a.q3 * b.q0) }
  function Polar11(a: MagGeometry, b: MagGeometry): real { 2.0 * (a.q0 * b.q0 - a.q1 * b.q1 + a.q2 * b.q2 - a.q3 * b.q3) }
  function Polar12(a: MagGeometry, b: MagGeometry): real { 2.0 * (a.q2 * b.q3 + a.q3 * b.q2 + a.q0 * b.q1 + a.q1 * b.q0) }
  function Polar20(a: MagGeometry, b: MagGeometry): real { 2.0 * (a.q1 * b.q3 + a.q3 * b.q1 + a.q0 * b.q2 + a.q2 * b.q0) }
  function Polar21(a: MagGeometry, b: MagGeometry): real { 2.0 * (a.q2 * b.q3 + a.q3 * b.q2 - a.q0 * b.q1 - a.q1 * b.q0) }
  function Polar22(a: MagGeometry, b: MagGeometry): real { 2.0 * (a.q0 * b.q0 - a.q1 * b.q1 - a.q2 * b.q2 + a.q3 * b.q3) }

  /** The predicted x measurement: earth field rotated to body axes plus the body field. */
  function PredX(s: Vec): real {
    var g := GeometryAt(s);
    Times(Dcm00(g), g.magN) + Times(Dcm01(g), g.magE) + Times(Dcm02(g), g.magD) + s(19)
  }

  /** The predicted y measurement: earth field rotated to body axes plus the body field. */
  function PredY(s: Vec): real {
    var g := GeometryAt(s);
    Times(Dcm10(g), g.magN) + Times(Dcm11(g), g.magE) + Times(Dcm12(g), g.magD) + s(20)
  }

  /** The predicted z measurement: earth field rotated to body axes plus the body field. */
  function PredZ(s: Vec): real {
    var g := GeometryAt(s);
    Times(Dcm20(g), g.magN) + Times(Dcm21(g), g.magE) + Times(Dcm22(g), g.magD) + s(21)
  }

  function Moved(g: MagGeometry, e: MagGeometry, t: real): MagGeometry {
    MagGeometry(g.q0 + Times(t, e.q0), g.q1 + Times(t, e.q1), g.q2 + Times(t, e.q2), g.q3 + Times(t, e.q3),
                g.magN + Times(t, e.magN), g.magE + Times(t, e.magE), g.magD + Times(t, e.magD))
  }

  lemma MovedUnfolds(g: MagGeometry, e: MagGeometry, t: real)
    ensures Moved(g, e, t) == MagGeometry(g.q0 + t * e.q0, g.q1 + t * e.q1, g.q2 + t * e.q2, g.q3 + t * e.q3,
                                          g.magN + t * e.magN, g.magE + t * e.magE, g.magD + t * e.magD)
  {}

  lemma Dcm00Expands(g: MagGeometry, e: MagGeometry, t: real)
    ensures Dcm00(Moved(g, e, t)) == Dcm00(g) + t * Polar00(g, e) + t * t * Dcm00(e)
  {
    MovedUnfolds(g, e, t);
    hide Moved, Times;
  }

  lemma Dcm01Expands(g: MagGeometry, e: MagGeometry, t: real)
    ensures Dcm01(Moved(g, e, t)) == Dcm01(g) + t * Polar01(g, e) + t * t * Dcm01(e)
  {
    MovedUnfolds(g, e, t);
    hide Moved, Times;
  }

  lemma Dcm02Expands(g: MagGeometry, e: MagGeometry, t: real)
    ensures Dcm02(Moved(g, e, t)) == Dcm02(g) + t * Polar02(g, e) + t * t * Dcm02(e)
  {
    MovedUnfolds(g, e, t);
    hide Moved, Times;
  }

  lemma Dcm10Expands(g: MagGeometry, e: MagGeometry, t: real)
    ensures Dcm10(Moved(g, e, t)) == Dcm10(g) + t * Polar10(g, e) + t * t * Dcm10(e)
  {
    MovedUnfolds(g, e, t);
    hide Moved, Times;
  }

  lemma Dcm11Expands(g: MagGeometry, e: MagGeometry, t: real)
    ensures Dcm11(Moved(g, e, t)) == Dcm11(g) + t * Polar11(g, e) + t * t * Dcm11(e)
  {
    MovedUnfolds(g, e, t);
    hide Moved, Times;
  }

  lemma Dcm12Expands(g: MagGeometry, e: MagGeometry, t: real)
    ensures Dcm12(Moved(g, e, t)) == Dcm12(g) + t * Polar12(g, e) + t * t * Dcm12(e)
  {
    MovedUnfolds(g, e, t);
    hide Moved, Times;
  }

  lemma Dcm20Expands(g: MagGeometry, e: MagGeometry, t: real)
    ensures Dcm20(Moved(g, e, t)) == Dcm20(g) + t * Polar20(g, e) + t * t * Dcm20(e)
  {
    MovedUnfolds(g, e, t);
    hide Moved, Times;
  }

  lemma Dcm21Expands(g: MagGeometry, e: MagGeometry, t: real)
    ensures Dcm21(Moved(g, e, t)) == Dcm21(g) + t * Polar21(g, e) + t * t * Dcm21(e)
  {
    MovedUnfolds(g, e, t);
    hide Moved, Times;
  }

  lemma Dcm22Expands(g: MagGeometry, e: MagGeometry, t: real)
    ensures Dcm22(Moved(g, e, t)) == Dcm22(g) + t * Polar22(g, e) + t * t * Dcm22(e)
  {
    MovedUnfolds(g, e, t);
    hide Moved, Times;
  }

  function SecondX(g: MagGeometry, e: MagGeometry, t: real): real {
    SecondTerm(t, Polar00(g, e), Dcm00(e), g.magN, e.magN) + SecondTerm(t, Polar01(g, e), Dcm01(e), g.magE, e.magE)
    + SecondTerm(t, Polar02(g, e), Dcm02(e), g.magD, e.magD)
  }

  lemma RowXAttitude(g: MagGeometry, e: MagGeometry)
    ensures var h := RowX(g);
      Times(h.h0, e.q0) + Times(h.h1, e.q1) + Times(h.h2, e.q2) + Times(h.h3, e.q3)
      == Times(Polar00(g, e), g.magN) + Times(Polar01(g, e), g.magE) + Times(Polar02(g, e), g.magD)
  {
    hide RowX, Polar00, Polar01, Polar02, Times, Triple;
    var h := RowX(g);
    RowXCoefficients(g);
    ThreeProducts(h.h0, 1.0, g.q0, g.magN, 1.0, g.q3, g.magE, -1.0, g.q2, g.magD, e.q0);
    ThreeProducts(h.h1, 1.0, g.q3, g.magD, 1.0, g.q2, g.magE, 1.0, g.q1, g.magN, e.q1);
    ThreeProducts(h.h2, -1.0, g.q0, g.magD, 1.0, g.q1, g.magE, -1.0, g.q2, g.magN, e.q2);
    ThreeProducts(h.h3, 1.0, g.q1, g.magD, 1.0, g.q0, g.magE, -1.0, g.q3, g.magN, e.q3);
    PolarProducts0(g, e);
  }

  lemma RowXCoefficients(g: MagGeometry)
    ensures RowX(g).h0 == 2.0 * (g.q0 * g.magN) + 2.0 * (g.q3 * g.magE) - 2.0 * (g.q2 * g.magD)
    ensures RowX(g).h1 == 2.0 * (g.q3 * g.magD) + 2.0 * (g.q2 * g.magE) + 2.0 * (g.q1 * g.magN)
    ensures RowX(g).h2 == - 2.0 * (g.q0 * g.magD) + 2.0 * (g.q1 * g.magE) - 2.0 * (g.q2 * g.magN)
    ensures RowX(g).h3 == 2.0 * (g.q1 * g.magD) + 2.0 * (g.q0 * g.magE) - 2.0 * (g.q3 * g.magN)
  {
    hide SH3, SH4, SH5, SH6;
  }

  lemma PolarProducts0(g: MagGeometry, e: MagGeometry)
    ensures Times(Polar00(g, e), g.magN) == 2.0 * Triple(g.q0, g.magN, e.q0) + 2.0 * Triple(g.q1, g.magN, e.q1)
        - 2.0 * Triple(g.q2, g.magN, e.q2) - 2.0 * Triple(g.q3, g.magN, e.q3)
    ensures Times(Polar01(g, e), g.magE) == 2.0 * Triple(g.q1, g.magE, e.q2) + 2.0 * Triple(g.q2, g.magE, e.q1)
        + 2.0 * Triple(g.q0, g.magE, e.q3) + 2.0 * Triple(g.q3, g.magE, e.q0)
    ensures Times(Polar02(g, e), g.magD) == 2.0 * Triple(g.q1, g.magD, e.q3) + 2.0 * Triple(g.q3, g.magD, e.q1)
        - 2.0 * Triple(g.q0, g.magD, e.q2) - 2.0 * Triple(g.q2, g.magD, e.q0)
  {
    hide Times, Triple;
    FourProducts(Polar00(g, e), 1.0, g.q0, e.q0, 1.0, g.q1, e.q1, -1.0, g.q2, e.q2, -1.0, g.q3, e.q3, g.magN);
    FourProducts(Polar01(g, e), 1.0, g.q1, e.q2, 1.0, g.q2, e.q1, 1.0, g.q0, e.q3, 1.0, g.q3, e.q0, g.magE);
    FourProducts(Polar02(g, e), 1.0, g.q1, e.q3, 1.0, g.q3, e.q1, -1.0, g.q0, e.q2, -1.0, g.q2, e.q0, g.magD);
  }

  lemma RowXField(g: MagGeometry)
    ensures var h := RowX(g); h.h16 == Dcm00(g) && h.h17 == Dcm01(g) && h.h18 == Dcm02(g) && h.unit == 19
  {
    hide SH0, SH1, SH2, SH7, SH8;
  }

  /** Moving the state by `t d` moves the predicted x measurement by `t H d`, up to a term of second order in `t`. */
  lemma RowXIsDerivative(s: Vec, d: Vec, t: real)
    ensures PredX(Combine(s, t, d)) == PredX(s) + Times(t, Dot(N, d, Dense(RowX(GeometryAt(s))))) + Times(t * t,
        SecondX(GeometryAt(s), GeometryAt(d), t))
  {
    hide Dot, Dense, RowX, SparseDot, Times, Dcm00, Dcm01, Dcm02, Polar00, Polar01, Polar02, SecondX;
    var g, e := GeometryAt(s), GeometryAt(d);
    MovedGeometry(s, d, t);
    DenseDot(RowX(g), d);
    XMoved(g, e, t);
    RowXProducts(g, e, d);
    FirstOrder(t, Times(Polar00(g, e), g.magN) + Times(Dcm00(g), e.magN), Times(Polar01(g, e), g.magE) + Times(Dcm01(g), e.magE),
               Times(Polar02(g, e), g.magD) + Times(Dcm02(g), e.magD), d(19), SparseDot(RowX(g), d));
  }

  lemma RowXProducts(g: MagGeometry, e: MagGeometry, d: Vec)
    requires e == GeometryAt(d)
    ensures SparseDot(RowX(g), d)
            == Times(Polar00(g, e), g.magN) + Times(Dcm00(g), e.magN) + Times(Polar01(g, e), g.magE) + Times(Dcm01(g), e.magE)
               + Times(Polar02(g, e), g.magD) + Times(Dcm02(g), e.magD) + d(19)
  {
    RowXAttitude(g, e);
    RowXField(g);
    hide Times, RowX, Dcm00, Dcm01, Dcm02, Polar00, Polar01, Polar02;
  }

  lemma XMoved(g: MagGeometry, e: MagGeometry, t: real)
    ensures var p := Moved(g, e, t);
      Times(Dcm00(p), p.magN) + Times(Dcm01(p), p.magE) + Times(Dcm02(p), p.magD)
      == (Times(Dcm00(g), g.magN) + Times(Dcm01(g), g.magE) + Times(Dcm02(g), g.magD))
         + Times(t, Times(Polar00(g, e), g.magN) + Times(Dcm00(g), e.magN))
         + Times(t, Times(Polar01(g, e), g.magE) + Times(Dcm01(g), e.magE))
         + Times(t, Times(Polar02(g, e), g.magD) + Times(Dcm02(g), e.magD))
         + Times(t * t, SecondX(g, e, t))
  {
    hide Times, SecondTerm, Dcm00, Dcm01, Dcm02, Polar00, Polar01, Polar02;
    Dcm00Expands(g, e, t);
    Dcm01Expands(g, e, t);
    Dcm02Expands(g, e, t);
    ThreeTerms(t, Dcm00(Moved(g, e, t)), Dcm00(g), Polar00(g, e), Dcm00(e), Moved(g, e, t).magN, g.magN, e.magN);
    ThreeTerms(t, Dcm01(Moved(g, e, t)), Dcm01(g), Polar01(g, e), Dcm01(e), Moved(g, e, t).magE, g.magE, e.magE);
    ThreeTerms(t, Dcm02(Moved(g, e, t)), Dcm02(g), Polar02(g, e), Dcm02(e), Moved(g, e, t).magD, g.magD, e.magD);
    SumTimes(t * t, SecondTerm(t, Polar00(g, e), Dcm00(e), g.magN, e.magN), SecondTerm(t, Polar01(g, e), Dcm01(e),
        g.magE, e.magE),
             SecondTerm(t, Polar02(g, e), Dcm02(e), g.magD, e.magD));
  }

  function SecondY(g: MagGeometry, e: MagGeometry, t: real): real {
    SecondTerm(t, Polar10(g, e), Dcm10(e), g.magN, e.magN) + SecondTerm(t, Polar11(g, e), Dcm11(e), g.magE, e.magE)
    + SecondTerm(t, Polar12(g, e), Dcm12(e), g.magD, e.magD)
  }

  lemma RowYAttitude(g: MagGeometry, e: MagGeometry)
    ensures var h := RowY(g);
      Times(h.h0, e.q0) + Times(h.h1, e.q1) + Times(h.h2, e.q2) + Times(h.h3, e.q3)
      == Times(Polar10(g, e), g.magN) + Times(Polar11(g, e), g.magE) + Times(Polar12(g, e), g.magD)
  {
    hide RowY, Polar10, Polar11, Polar12, Times, Triple;
    var h := RowY(g);
    RowYCoefficients(g);
    ThreeProducts(h.h0, 1.0, g.q1, g.magD, 1.0, g.q0, g.magE, -1.0, g.q3, g.magN, e.q0);
    ThreeProducts(h.h1, 1.0, g.q0, g.magD, -1.0, g.q1, g.magE, 1.0, g.q2, g.magN, e.q1);
    ThreeProducts(h.h2, 1.0, g.q3, g.magD, 1.0, g.q2, g.magE, 1.0, g.q1, g.magN, e.q2);
    ThreeProducts(h.h3, -1.0, g.q0, g.magN, -1.0, g.q3, g.magE, 1.0, g.q2, g.magD, e.q3);
    PolarProducts1(g, e);
  }

  lemma RowYCoefficients(g: MagGeometry)
    ensures RowY(g).h0 == 2.0 * (g.q1 * g.magD) + 2.0 * (g.q0 * g.magE) - 2.0 * (g.q3 * g.magN)
    ensures RowY(g).h1 == 2.0 * (g.q0 * g.magD) - 2.0 * (g.q1 * g.magE) + 2.0 * (g.q2 * g.magN)
    ensures RowY(g).h2 == 2.0 * (g.q3 * g.magD) + 2.0 * (g.q2 * g.magE) + 2.0 * (g.q1 * g.magN)
    ensures RowY(g).h3 == - 2.0 * (g.q0 * g.magN) - 2.0 * (g.q3 * g.magE) + 2.0 * (g.q2 * g.magD)
  {
    hide SH3, SH4, SH5, SH6;
  }

  lemma PolarProducts1(g: MagGeometry, e: MagGeometry)
    ensures Times(Polar10(g, e), g.magN) == 2.0 * Triple(g.q1, g.magN, e.q2) + 2.0 * Triple(g.q2, g.magN, e.q1)
        - 2.0 * Triple(g.q0, g.magN, e.q3) - 2.0 * Triple(g.q3, g.magN, e.q0)
    ensures Times(Polar11(g, e), g.magE) == 2.0 * Triple(g.q0, g.magE, e.q0) - 2.0 * Triple(g.q1, g.magE, e.q1)
        + 2.0 * Triple(g.q2, g.magE, e.q2) - 2.0 * Triple(g.q3, g.magE, e.q3)
    ensures Times(Polar12(g, e), g.magD) == 2.0 * Triple(g.q2, g.magD, e.q3) + 2.0 * Triple(g.q3, g.magD, e.q2)
        + 2.0 * Triple(g.q0, g.magD, e.q1) + 2.0 * Triple(g.q1, g.magD, e.q0)
  {
    hide Times, Triple;
    FourProducts(Polar10(g, e), 1.0, g.q1, e.q2, 1.0, g.q2, e.q1, -1.0, g.q0, e.q3, -1.0, g.q3, e.q0, g.magN);
    FourProducts(Polar11(g, e), 1.0, g.q0, e.q0, -1.0, g.q1, e.q1, 1.0, g.q2, e.q2, -1.0, g.q3, e.q3, g.magE);
    FourProducts(Polar12(g, e), 1.0, g.q2, e.q3, 1.0, g.q3, e.q2, 1.0, g.q0, e.q1, 1.0, g.q1, e.q0, g.magD);
  }

  lemma RowYField(g: MagGeometry)
    ensures var h := RowY(g); h.h16 == Dcm10(g) && h.h17 == Dcm11(g) && h.h18 == Dcm12(g) && h.unit == 20
  {
    hide SH0, SH1, SH2, SH7, SH8;
  }

  /** Moving the state by `t d` moves the predicted y measurement by `t H d`, up to a term of second order in `t`. */
  lemma RowYIsDerivative(s: Vec, d: Vec, t: real)
    ensures PredY(Combine(s, t, d)) == PredY(s) + Times(t, Dot(N, d, Dense(RowY(GeometryAt(s))))) + Times(t * t,
        SecondY(GeometryAt(s), GeometryAt(d), t))
  {
    hide Dot, Dense, RowY, SparseDot, Times, Dcm10, Dcm11, Dcm12, Polar10, Polar11, Polar12, SecondY;
    var g, e := GeometryAt(s), GeometryAt(d);
    MovedGeometry(s, d, t);
    DenseDot(RowY(g), d);
    YMoved(g, e, t);
    RowYProducts(g, e, d);
    FirstOrder(t, Times(Polar10(g, e), g.magN) + Times(Dcm10(g), e.magN), Times(Polar11(g, e), g.magE) + Times(Dcm11(g), e.magE),
               Times(Polar12(g, e), g.magD) + Times(Dcm12(g), e.magD), d(20), SparseDot(RowY(g), d));
  }

  lemma RowYProducts(g: MagGeometry, e: MagGeometry, d: Vec)
    requires e == GeometryAt(d)
    ensures SparseDot(RowY(g), d)
            == Times(Polar10(g, e), g.magN) + Times(Dcm10(g), e.magN) + Times(Polar11(g, e), g.magE) + Times(Dcm11(g), e.magE)
               + Times(Polar12(g, e), g.magD) + Times(Dcm12(g), e.magD) + d(20)
  {
    RowYAttitude(g, e);
    RowYField(g);
    hide Times, RowY, Dcm10, Dcm11, Dcm12, Polar10, Polar11, Polar12;
  }

  lemma YMoved(g: MagGeometry, e: MagGeometry, t: real)
    ensures var p := Moved(g, e, t);
      Times(Dcm10(p), p.magN) + Times(Dcm11(p), p.magE) + Times(Dcm12(p), p.magD)
      == (Times(Dcm10(g), g.magN) + Times(Dcm11(g), g.magE) + Times(Dcm12(g), g.magD))
         + Times(t, Times(Polar10(g, e), g.magN) + Times(Dcm10(g), e.magN))
         + Times(t, Times(Polar11(g, e), g.magE) + Times(Dcm11(g), e.magE))
         + Times(t, Times(Polar12(g, e), g.magD) + Times(Dcm12(g), e.magD))
         + Times(t * t, SecondY(g, e, t))
  {
    hide Times, SecondTerm, Dcm10, Dcm11, Dcm12, Polar10, Polar11, Polar12;
    Dcm10Expands(g, e, t);
    Dcm11Expands(g, e, t);
    Dcm12Expands(g, e, t);
    ThreeTerms(t, Dcm10(Moved(g, e, t)), Dcm10(g), Polar10(g, e), Dcm10(e), Moved(g, e, t).magN, g.magN, e.magN);
    ThreeTerms(t, Dcm11(Moved(g, e, t)), Dcm11(g), Polar11(g, e), Dcm11(e), Moved(g, e, t).magE, g.magE, e.magE);
    ThreeTerms(t, Dcm12(Moved(g, e, t)), Dcm12(g), Polar12(g, e), Dcm12(e), Moved(g, e, t).magD, g.magD, e.magD);
    SumTimes(t * t, SecondTerm(t, Polar10(g, e), Dcm10(e), g.magN, e.magN), SecondTerm(t, Polar11(g, e), Dcm11(e),
        g.magE, e.magE),
             SecondTerm(t, Polar12(g, e), Dcm12(e), g.magD, e.magD));
  }

  function SecondZ(g: MagGeometry, e: MagGeometry, t: real): real {
    SecondTerm(t, Polar20(g, e), Dcm20(e), g.magN, e.magN) + SecondTerm(t, Polar21(g, e), Dcm21(e), g.magE, e.magE)
    + SecondTerm(t, Polar22(g, e), Dcm22(e), g.magD, e.magD)
  }

  lemma RowZAttitude(g: MagGeometry, e: MagGeometry)
    ensures var h := RowZ(g);
      Times(h.h0, e.q0) + Times(h.h1, e.q1) + Times(h.h2, e.q2) + Times(h.h3, e.q3)
      == Times(Polar20(g, e), g.magN) + Times(Polar21(g, e), g.magE) + Times(Polar22(g, e), g.magD)
  {
    hide RowZ, Polar20, Polar21, Polar22, Times, Triple;
    var h := RowZ(g);
    RowZCoefficients(g);
    ThreeProducts(h.h0, 1.0, g.q0, g.magD, -1.0, g.q1, g.magE, 1.0, g.q2, g.magN, e.q0);
    ThreeProducts(h.h1, -1.0, g.q1, g.magD, -1.0, g.q0, g.magE, 1.0, g.q3, g.magN, e.q1);
    ThreeProducts(h.h2, 1.0, g.q0, g.magN, 1.0, g.q3, g.magE, -1.0, g.q2, g.magD, e.q2);
    ThreeProducts(h.h3, 1.0, g.q3, g.magD, 1.0, g.q2, g.magE, 1.0, g.q1, g.magN, e.q3);
    PolarProducts2(g, e);
  }

  lemma RowZCoefficients(g: MagGeometry)
    ensures RowZ(g).h0 == 2.0 * (g.q0 * g.magD) - 2.0 * (g.q1 * g.magE) + 2.0 * (g.q2 * g.magN)
    ensures RowZ(g).h1 == - 2.0 * (g.q1 * g.magD) - 2.0 * (g.q0 * g.magE) + 2.0 * (g.q3 * g.magN)
    ensures RowZ(g).h2 == 2.0 * (g.q0 * g.magN) + 2.0 * (g.q3 * g.magE) - 2.0 * (g.q2 * g.magD)
    ensures RowZ(g).h3 == 2.0 * (g.q3 * g.magD) + 2.0 * (g.q2 * g.magE) + 2.0 * (g.q1 * g.magN)
  {
    hide SH3, SH4, SH5, SH6;
  }

  lemma PolarProducts2(g: MagGeometry, e: MagGeometry)
    ensures Times(Polar20(g, e), g.magN) == 2.0 * Triple(g.q1, g.magN, e.q3) + 2.0 * Triple(g.q3, g.magN, e.q1)
        + 2.0 * Triple(g.q0, g.magN, e.q2) + 2.0 * Triple(g.q2, g.magN, e.q0)
    ensures Times(Polar21(g, e), g.magE) == 2.0 * Triple(g.q2, g.magE, e.q3) + 2.0 * Triple(g.q3, g.magE, e.q2)
        - 2.0 * Triple(g.q0, g.magE, e.q1) - 2.0 * Triple(g.q1, g.magE, e.q0)
    ensures Times(Polar22(g, e), g.magD) == 2.0 * Triple(g.q0, g.magD, e.q0) - 2.0 * Triple(g.q1, g.magD, e.q1)
        - 2.0 * Triple(g.q2, g.magD, e.q2) + 2.0 * Triple(g.q3, g.magD, e.q3)
  {
    hide Times, Triple;
    FourProducts(Polar20(g, e), 1.0, g.q1, e.q3, 1.0, g.q3, e.q1, 1.0, g.q0, e.q2, 1.0, g.q2, e.q0, g.magN);
    FourProducts(Polar21(g, e), 1.0, g.q2, e.q3, 1.0, g.q3, e.q2, -1.0, g.q0, e.q1, -1.0, g.q1, e.q0, g.magE);
    FourProducts(Polar22(g, e), 1.0, g.q0, e.q0, -1.0, g.q1, e.q1, -1.0, g.q2, e.q2, 1.0, g.q3, e.q3, g.magD);
  }

  lemma RowZField(g: MagGeometry)
    ensures var h := RowZ(g); h.h16 == Dcm20(g) && h.h17 == Dcm21(g) && h.h18 == Dcm22(g) && h.unit == 21
  {
    hide SH0, SH1, SH2, SH7, SH8;
  }

  /** Moving the state by `t d` moves the predicted z measurement by `t H d`, up to a term of second order in `t`. */
  lemma RowZIsDerivative(s: Vec, d: Vec, t: real)
    ensures PredZ(Combine(s, t, d)) == PredZ(s) + Times(t, Dot(N, d, Dense(RowZ(GeometryAt(s))))) + Times(t * t,
        SecondZ(GeometryAt(s), GeometryAt(d), t))
  {
    hide Dot, Dense, RowZ, SparseDot, Times, Dcm20, Dcm21, Dcm22, Polar20, Polar21, Polar22, SecondZ;
    var g, e := GeometryAt(s), GeometryAt(d);
    MovedGeometry(s, d, t);
    DenseDot(RowZ(g), d);
    ZMoved(g, e, t);
    RowZProducts(g, e, d);
    FirstOrder(t, Times(Polar20(g, e), g.magN) + Times(Dcm20(g), e.magN), Times(Polar21(g, e), g.magE) + Times(Dcm21(g), e.magE),
               Times(Polar22(g, e), g.magD) + Times(Dcm22(g), e.magD), d(21), SparseDot(RowZ(g), d));
  }

  lemma RowZProducts(g: MagGeometry, e: MagGeometry, d: Vec)
    requires e == GeometryAt(d)
    ensures SparseDot(RowZ(g), d)
            == Times(Polar20(g, e), g.magN) + Times(Dcm20(g), e.magN) + Times(Polar21(g, e), g.magE) + Times(Dcm21(g), e.magE)
               + Times(Polar22(g, e), g.magD) + Times(Dcm22(g), e.magD) + d(21)
  {
    RowZAttitude(g, e);
    RowZField(g);
    hide Times, RowZ, Dcm20, Dcm21, Dcm22, Polar20, Polar21, Polar22;
  }

  lemma ZMoved(g: MagGeometry, e: MagGeometry, t: real)
    ensures var p := Moved(g, e, t);
      Times(Dcm20(p), p.magN) + Times(Dcm21(p), p.magE) + Times(Dcm22(p), p.magD)
      == (Times(Dcm20(g), g.magN) + Times(Dcm21(g), g.magE) + Times(Dcm22(g), g.magD))
         + Times(t, Times(Polar20(g, e), g.magN) + Times(Dcm20(g), e.magN))
         + Times(t, Times(Polar21(g, e), g.magE) + Times(Dcm21(g), e.magE))
         + Times(t, Times(Polar22(g, e), g.magD) + Times(Dcm22(g), e.magD))
         + Times(t * t, SecondZ(g, e, t))
  {
    hide Times, SecondTerm, Dcm20, Dcm21, Dcm22, Polar20, Polar21, Polar22;
    Dcm20Expands(g, e, t);
    Dcm21Expands(g, e, t);
    Dcm22Expands(g, e, t);
    ThreeTerms(t, Dcm20(Moved(g, e, t)), Dcm20(g), Polar20(g, e), Dcm20(e), Moved(g, e, t).magN, g.magN, e.magN);
    ThreeTerms(t, Dcm21(Moved(g, e, t)), Dcm21(g), Polar21(g, e), Dcm21(e), Moved(g, e, t).magE, g.magE, e.magE);
    ThreeTerms(t, Dcm22(Moved(g, e, t)), Dcm22(g), Polar22(g, e), Dcm22(e), Moved(g, e, t).magD, g.magD, e.magD);
    SumTimes(t * t, SecondTerm(t, Polar20(g, e), Dcm20(e), g.magN, e.magN), SecondTerm(t, Polar21(g, e), Dcm21(e),
        g.magE, e.magE),
             SecondTerm(t, Polar22(g, e), Dcm22(e), g.magD, e.magD));
  }

  lemma ThreeProducts(h: real, s: real, a: real, m: real, s1: real, b: real, n: real, s2: real, c: real, o: real, x: real)
    requires h == s * 2.0 * (a * m) + s1 * 2.0 * (b * n) + s2 * 2.0 * (c * o)
    ensures Times(h, x) == s * 2.0 * Triple(a, m, x) + s1 * 2.0 * Triple(b, n, x) + s2 * 2.0 * Triple(c, o, x)
  {}

  lemma FourProducts(p: real, s: real, a: real, x: real, s1: real, b: real, y: real, s2: real, c: real, z: real,
                     s3: real, d: real, w: real, m: real)
    requires p == s * 2.0 * (a * x) + s1 * 2.0 * (b * y) + s2 * 2.0 * (c * z) + s3 * 2.0 * (d * w)
    ensures Times(p, m) == s * 2.0 * Triple(a, m, x) + s1 * 2.0 * Triple(b, m, y) + s2 * 2.0 * Triple(c, m, z)
        + s3 * 2.0 * Triple(d, m, w)
  {}

  lemma MovedGeometry(s: Vec, d: Vec, t: real)
    ensures GeometryAt(Combine(s, t, d)) == Moved(GeometryAt(s), GeometryAt(d), t)
  {
    hide Times;
  }

  lemma FirstOrder(t: real, a: real, b: real, c: real, d: real, h: real)
    requires h == a + b + c + d
    ensures Times(t, a) + Times(t, b) + Times(t, c) + Times(t, d) == Times(t, h)
  {}

  lemma SumTimes(t: real, a: real, b: real, c: real)
    ensures Times(t, a) + Times(t, b) + Times(t, c) == Times(t, a + b + c)
  {}

  lemma ThreeTerms(t: real, d: real, a: real, b: real, c: real, k: real, m: real, n: real)
    requires d == a + t * b + t * t * c && k == m + Times(t, n)
    ensures Times(d, k) == Times(a, m) + Times(t, Times(b, m) + Times(a, n)) + Times(t * t, SecondTerm(t, b, c, m, n))
  {}

  function SecondTerm(t: real, b: real, c: real, m: real, n: real): real { c * m + b * n + t * (c * n) }

}
