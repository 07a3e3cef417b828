/**
 The generated prediction block computes `F P Fᵀ + G Q Gᵀ`.

 `F` is read off the row formulas the source writes out for the bias, magnetic field and wind
 columns; `G` carries the delta angle and delta velocity noise into the attitude and the velocity.
 The proof follows the block: every P-dependent PS value is one entry of `F P`, and every entry of
 the new covariance is a row of `F` applied to a row of `F P`, plus noise.
 */
module CovariancePropagation {
  import opened Numeric
  import opened LinearAlgebra
  import opened PredictionBlock

  // ---- the transition, row by row ----

  function Row0Of(x: Inputs, v1: real, v2: real, v3: real, v10: real, v11: real, v12: real, v0: real): real {
    -PS11(x) * v1 - PS12(x) * v2 - PS13(x) * v3 + PS6(x) * v10 + PS7(x) * v11 + PS9(x) * v12 + v0
  }

  function Row0(x: Inputs, v: Vec): real { Row0Of(x, v(1), v(2), v(3), v(10), v(11), v(12), v(0)) }

  function Row1Of(x: Inputs, v0: real, v3: real, v2: real, v10: real, v12: real, v11: real, v1: real): real {
    PS11(x) * v0 - PS12(x) * v3 + PS13(x) * v2 - PS34(x) * v10 - PS7(x) * v12 + PS9(x) * v11 + v1
  }

  function Row1(x: Inputs, v: Vec): real { Row1Of(x, v(0), v(3), v(2), v(10), v(12), v(11), v(1)) }

  function Row2Of(x: Inputs, v3: real, v0: real, v1: real, v11: real, v12: real, v10: real, v2: real): real {
    PS11(x) * v3 + PS12(x) * v0 - PS13(x) * v1 - PS34(x) * v11 + PS6(x) * v12 - PS9(x) * v10 + v2
  }

  function Row2(x: Inputs, v: Vec): real { Row2Of(x, v(3), v(0), v(1), v(11), v(12), v(10), v(2)) }

  function Row3Of(x: Inputs, v2: real, v1: real, v0: real, v12: real, v11: real, v10: real, v3: real): real {
    -PS11(x) * v2 + PS12(x) * v1 + PS13(x) * v0 - PS34(x) * v12 - PS6(x) * v11 + PS7(x) * v10 + v3
  }

  function Row3(x: Inputs, v: Vec): real { Row3Of(x, v(2), v(1), v(0), v(12), v(11), v(10), v(3)) }

  function Row4Of(x: Inputs, v15: real, v14: real, v1: real, v0: real, v2: real, v3: real, v13: real, v4: real): real {
    -PS171(x) * v15 + PS172(x) * v14 + PS173(x) * v1 + PS174(x) * v0 + PS175(x) * v2 - PS176(x) * v3 + PS43(x) * v13 + v4
  }

  function Row4(x: Inputs, v: Vec): real { Row4Of(x, v(15), v(14), v(1), v(0), v(2), v(3), v(13), v(4)) }

  function Row5Of(x: Inputs, v15: real, v13: real, v2: real, v0: real, v3: real, v1: real, v14: real, v5: real): real {
    PS190(x) * v15 - PS193(x) * v13 + PS201(x) * v2 - PS202(x) * v0 + PS203(x) * v3 - PS204(x) * v1 + PS75(x) * v14 + v5
  }

  function Row5(x: Inputs, v: Vec): real { Row5Of(x, v(15), v(13), v(2), v(0), v(3), v(1), v(14), v(5)) }

  function Row6Of(x: Inputs, v14: real, v13: real, v2: real, v3: real, v0: real, v1: real, v15: real, v6: real): real {
    -PS197(x) * v14 + PS199(x) * v13 - PS214(x) * v2 + PS215(x) * v3 + PS216(x) * v0 + PS217(x) * v1 + PS87(x) * v15 + v6
  }

  function Row6(x: Inputs, v: Vec): real { Row6Of(x, v(14), v(13), v(2), v(3), v(0), v(1), v(15), v(6)) }

  function Row7(x: Inputs, v: Vec): real {
    v(4) * x.dt + v(7)
  }

  function Row8(x: Inputs, v: Vec): real {
    v(5) * x.dt + v(8)
  }

  function Row9(x: Inputs, v: Vec): real {
    v(6) * x.dt + v(9)
  }

  function TransitionRow(x: Inputs, i: int, v: Vec): real {
    match i
    case 0 => Row0(x, v)
    case 1 => Row1(x, v)
    case 2 => Row2(x, v)
    case 3 => Row3(x, v)
    case 4 => Row4(x, v)
    case 5 => Row5(x, v)
    case 6 => Row6(x, v)
    case 7 => Row7(x, v)
    case 8 => Row8(x, v)
    case 9 => Row9(x, v)
    case _ => v(i)
  }

  /** F: entry (i, k) is row formula i applied to the k-th unit vector. */
  function Jacobian(x: Inputs): Table { (i, k) => TransitionRow(x, i, Unit(k)) }

  /** F P, computed with the row formulas. */
  function TransitionTimes(x: Inputs, P: Table): Table { (i, k) => TransitionRow(x, i, ColOf(P, k)) }

  /** F P Fᵀ, computed with the row formulas. */
  function Propagated(x: Inputs, P: Table): Table {
    (i, j) => TransitionRow(x, j, RowOf(TransitionTimes(x, P), i))
  }

  // ---- the row formulas are multiplication by F ----

  lemma RowIsLinear(x: Inputs, i: int, v: Vec, s: real, u: Vec, r: Vec)
    requires 0 <= i < N
    requires forall k | 0 <= k < N :: r(k) == v(k) + s * u(k)
    ensures TransitionRow(x, i, r) == TransitionRow(x, i, v) + s * TransitionRow(x, i, u)
  {
    hide Row0, Row1, Row2, Row3, Row4, Row5, Row6, Row7, Row8, Row9;
    match i
    case 0 => Row0IsLinear(x, v, s, u, r);
    case 1 => Row1IsLinear(x, v, s, u, r);
    case 2 => Row2IsLinear(x, v, s, u, r);
    case 3 => Row3IsLinear(x, v, s, u, r);
    case 4 => Row4IsLinear(x, v, s, u, r);
    case 5 => Row5IsLinear(x, v, s, u, r);
    case 6 => Row6IsLinear(x, v, s, u, r);
    case 7 => Row7IsLinear(x, v, s, u, r);
    case 8 => Row8IsLinear(x, v, s, u, r);
    case 9 => Row9IsLinear(x, v, s, u, r);
    case _ =>
  }

  lemma Row0IsLinear(x: Inputs, v: Vec, s: real, u: Vec, r: Vec)
    requires forall k | 0 <= k < N :: r(k) == v(k) + s * u(k)
    ensures Row0(x, r) == Row0(x, v) + s * Row0(x, u)
  {
    hide PS6, PS7, PS9, PS11, PS12, PS13;
  }

  lemma Row1IsLinear(x: Inputs, v: Vec, s: real, u: Vec, r: Vec)
    requires forall k | 0 <= k < N :: r(k) == v(k) + s * u(k)
    ensures Row1(x, r) == Row1(x, v) + s * Row1(x, u)
  {
    hide PS7, PS9, PS11, PS12, PS13, PS34;
  }

  lemma Row2IsLinear(x: Inputs, v: Vec, s: real, u: Vec, r: Vec)
    requires forall k | 0 <= k < N :: r(k) == v(k) + s * u(k)
    ensures Row2(x, r) == Row2(x, v) + s * Row2(x, u)
  {
    hide PS6, PS9, PS11, PS12, PS13, PS34;
  }

  lemma Row3IsLinear(x: Inputs, v: Vec, s: real, u: Vec, r: Vec)
    requires forall k | 0 <= k < N :: r(k) == v(k) + s * u(k)
    ensures Row3(x, r) == Row3(x, v) + s * Row3(x, u)
  {
    hide PS6, PS7, PS11, PS12, PS13, PS34;
  }

  lemma Row4IsLinear(x: Inputs, v: Vec, s: real, u: Vec, r: Vec)
    requires forall k | 0 <= k < N :: r(k) == v(k) + s * u(k)
    ensures Row4(x, r) == Row4(x, v) + s * Row4(x, u)
  {
    hide PS43, PS171, PS172, PS173, PS174, PS175, PS176;
  }

  lemma Row5IsLinear(x: Inputs, v: Vec, s: real, u: Vec, r: Vec)
    requires forall k | 0 <= k < N :: r(k) == v(k) + s * u(k)
    ensures Row5(x, r) == Row5(x, v) + s * Row5(x, u)
  {
    hide PS75, PS190, PS193, PS201, PS202, PS203, PS204;
  }

  lemma Row6IsLinear(x: Inputs, v: Vec, s: real, u: Vec, r: Vec)
    requires forall k | 0 <= k < N :: r(k) == v(k) + s * u(k)
    ensures Row6(x, r) == Row6(x, v) + s * Row6(x, u)
  {
    hide PS87, PS197, PS199, PS214, PS215, PS216, PS217;
  }

  lemma Row7IsLinear(x: Inputs, v: Vec, s: real, u: Vec, r: Vec)
    requires forall k | 0 <= k < N :: r(k) == v(k) + s * u(k)
    ensures Row7(x, r) == Row7(x, v) + s * Row7(x, u)
  {
  }

  lemma Row8IsLinear(x: Inputs, v: Vec, s: real, u: Vec, r: Vec)
    requires forall k | 0 <= k < N :: r(k) == v(k) + s * u(k)
    ensures Row8(x, r) == Row8(x, v) + s * Row8(x, u)
  {
  }

  lemma Row9IsLinear(x: Inputs, v: Vec, s: real, u: Vec, r: Vec)
    requires forall k | 0 <= k < N :: r(k) == v(k) + s * u(k)
    ensures Row9(x, r) == Row9(x, v) + s * Row9(x, u)
  {
  }

  /** `v` with the slots from `n` on replaced by zero. */
  function Prefix(v: Vec, n: nat): Vec { k => if k < n then v(k) else 0.0 }

  lemma DotStep(n: nat, u: Vec, v: Vec)
    requires n > 0
    ensures Dot(n, u, v) == Dot(n - 1, u, v) + v(n - 1) * u(n - 1)
  {}

  lemma {:induction false} RowOfPrefix(x: Inputs, i: int, v: Vec, n: nat)
    requires 0 <= i < N && n <= N
    ensures TransitionRow(x, i, Prefix(v, n)) == Dot(n, RowOf(Jacobian(x), i), v)
  {
    hide TransitionRow;
    if n == 0 {
      RowIsLinear(x, i, Prefix(v, 0), 1.0, Prefix(v, 0), Prefix(v, 0));
    } else {
      RowOfPrefix(x, i, v, n - 1);
      RowIsLinear(x, i, Prefix(v, n - 1), v(n - 1), Unit(n - 1), Prefix(v, n));
      DotStep(n, RowOf(Jacobian(x), i), v);
    }
  }

  /** A row formula is the product of that row of F with the vector. */
  lemma RowIsProduct(x: Inputs, i: int, v: Vec)
    requires 0 <= i < N
    ensures TransitionRow(x, i, v) == Dot(N, RowOf(Jacobian(x), i), v)
  {
    hide TransitionRow, Dot;
    RowOfPrefix(x, i, v, N);
    RowIsLinear(x, i, v, 0.0, v, Prefix(v, N));
  }

  lemma PropagatedIsCongruence(x: Inputs, P: Table, i: int, j: int)
    requires 0 <= i < N && 0 <= j < N
    ensures Propagated(x, P)(i, j) == Congruence(Jacobian(x), P)(i, j)
  {
    hide TransitionRow, Dot, Jacobian;
    var f, row := Jacobian(x), RowOf(TransitionTimes(x, P), i);
    RowIsProduct(x, j, row);
    forall k | 0 <= k < N ensures row(k) == RowOf(Product(f, P), i)(k) {
      RowIsProduct(x, i, ColOf(P, k));
    }
    DotCommutes(N, RowOf(f, j), row);
    DotCongruent(N, row, RowOf(f, j), RowOf(Product(f, P), i), ColOf(Transpose(f), j));
  }

  // ---- the process noise ----

  /** G on the delta angle noise: how quaternion slot `i` moves with delta angle axis `n`. */
  function GyroGain(x: Inputs, i: int, n: int): real {
    match i
    case 0 => (if n == 0 then -x.q1 else if n == 1 then -x.q2 else -x.q3) / 2.0
    case 1 => (if n == 0 then x.q0 else if n == 1 then -x.q3 else x.q2) / 2.0
    case 2 => (if n == 0 then x.q3 else if n == 1 then x.q0 else -x.q1) / 2.0
    case 3 => (if n == 0 then -x.q2 else if n == 1 then x.q1 else x.q0) / 2.0
    case _ => 0.0
  }

  /** G on the delta velocity noise: the rotation from body to earth axes. */
  function AccelGain(x: Inputs, i: int, n: int): real {
    match i
    case 4 => (if n == 0 then 1.0 - 2.0 * (x.q2 * x.q2 + x.q3 * x.q3)
               else if n == 1 then 2.0 * (x.q1 * x.q2 - x.q0 * x.q3) else 2.0 * (x.q1 * x.q3 + x.q0 * x.q2))
    case 5 => (if n == 0 then 2.0 * (x.q1 * x.q2 + x.q0 * x.q3)
               else if n == 1 then 1.0 - 2.0 * (x.q1 * x.q1 + x.q3 * x.q3) else 2.0 * (x.q2 * x.q3 - x.q0 * x.q1))
    case 6 => (if n == 0 then 2.0 * (x.q1 * x.q3 - x.q0 * x.q2)
               else if n == 1 then 2.0 * (x.q2 * x.q3 + x.q0 * x.q1) else 1.0 - 2.0 * (x.q1 * x.q1 + x.q2 * x.q2))
    case _ => 0.0
  }

  /** Entry (i, j) of G Q Gᵀ for the six independent noise sources. */
  function Noise(x: Inputs, i: int, j: int): real {
    GyroGain(x, i, 0) * GyroGain(x, j, 0) * x.daxVar
    + GyroGain(x, i, 1) * GyroGain(x, j, 1) * x.dayVar
    + GyroGain(x, i, 2) * GyroGain(x, j, 2) * x.dazVar
    + AccelGain(x, i, 0) * AccelGain(x, j, 0) * x.dvxVar
    + AccelGain(x, i, 1) * AccelGain(x, j, 1) * x.dvyVar
    + AccelGain(x, i, 2) * AccelGain(x, j, 2) * x.dvzVar
  }

  lemma NoiseElsewhere(x: Inputs, i: int, j: int)
    requires 0 <= i < 4 <= j || 7 <= j
    ensures Noise(x, i, j) == 0.0
  {}

  lemma Noise0_0(x: Inputs)
    ensures PS0(x) * PS1(x) + PS2(x) * PS3(x) + PS4(x) * PS5(x) == Noise(x, 0, 0)
  {}

  lemma Noise0_1(x: Inputs)
    ensures -PS1(x) * PS36(x) + PS3(x) * PS35(x) - PS35(x) * PS5(x) == Noise(x, 0, 1)
  {}

  lemma Noise1_1(x: Inputs)
    ensures PS1(x) * PS95(x) + PS2(x) * PS5(x) + PS3(x) * PS4(x) == Noise(x, 1, 1)
  {}

  lemma Noise0_2(x: Inputs)
    ensures -PS1(x) * PS37(x) - PS3(x) * PS38(x) + PS37(x) * PS5(x) == Noise(x, 0, 2)
  {}

  lemma Noise1_2(x: Inputs)
    ensures PS1(x) * PS40(x) - PS3(x) * PS40(x) - PS39(x) * PS5(x) == Noise(x, 1, 2)
  {}

  lemma Noise2_2(x: Inputs)
    ensures PS0(x) * PS5(x) + PS1(x) * PS4(x) + PS3(x) * PS95(x) == Noise(x, 2, 2)
  {}

  lemma Noise0_3(x: Inputs)
    ensures PS1(x) * PS39(x) - PS3(x) * PS39(x) - PS40(x) * PS5(x) == Noise(x, 0, 3)
  {}

  lemma Noise1_3(x: Inputs)
    ensures -PS1(x) * PS38(x) - PS3(x) * PS37(x) + PS38(x) * PS5(x) == Noise(x, 1, 3)
  {}

  lemma Noise2_3(x: Inputs)
    ensures -PS1(x) * PS35(x) + PS3(x) * PS36(x) - PS36(x) * PS5(x) == Noise(x, 2, 3)
  {}

  lemma Noise3_3(x: Inputs)
    ensures PS0(x) * PS3(x) + PS1(x) * PS2(x) + PS5(x) * PS95(x) == Noise(x, 3, 3)
  {}

  lemma Noise4_4(x: Inputs)
    ensures PS184(x) * Sq(PS56(x)) + PS185(x) * Sq(PS45(x)) + Sq(PS43(x)) * x.dvxVar == Noise(x, 4, 4)
  {}

  lemma Noise4_5(x: Inputs)
    ensures PS172(x) * PS195(x) - PS185(x) * PS45(x) * PS81(x) - PS193(x) * PS194(x) == Noise(x, 4, 5)
  {}

  lemma Noise5_5(x: Inputs)
    ensures PS185(x) * Sq(PS81(x)) + PS212(x) * Sq(PS76(x)) + Sq(PS75(x)) * x.dvyVar == Noise(x, 5, 5)
  {}

  lemma Noise4_6(x: Inputs)
    ensures -PS171(x) * PS198(x) - PS184(x) * PS56(x) * PS88(x) + PS194(x) * PS199(x) == Noise(x, 4, 6)
  {}

  lemma Noise5_6(x: Inputs)
    ensures PS190(x) * PS198(x) - PS195(x) * PS197(x) - PS212(x) * PS76(x) * PS90(x) == Noise(x, 5, 6)
  {}

  lemma Noise6_6(x: Inputs)
    ensures PS184(x) * Sq(PS88(x)) + PS212(x) * Sq(PS90(x)) + Sq(PS87(x)) * x.dvzVar == Noise(x, 6, 6)
  {}

  // ---- every P-dependent value of the block is an entry of F P ----

  lemma Upper0Attitude(x: Inputs, P: Table)
    ensures PS33(x, P) == Row0Of(x, P(0, 1), P(0, 2), P(0, 3), P(0, 10), P(0, 11), P(0, 12), P(0, 0))
    ensures PS23(x, P) == Row0Of(x, P(1, 1), P(1, 2), P(1, 3), P(1, 10), P(1, 11), P(1, 12), P(0, 1))
    ensures PS26(x, P) == Row0Of(x, P(1, 2), P(2, 2), P(2, 3), P(2, 10), P(2, 11), P(2, 12), P(0, 2))
    ensures PS29(x, P) == Row0Of(x, P(1, 3), P(2, 3), P(3, 3), P(3, 10), P(3, 11), P(3, 12), P(0, 3))
  {
    hide PS6, PS7, PS9, PS11, PS12, PS13, PS34;
  }

  lemma Times0Attitude(x: Inputs, P: Table)
    requires Symmetric(P)
    ensures PS33(x, P) == TransitionTimes(x, P)(0, 0)
    ensures PS23(x, P) == TransitionTimes(x, P)(0, 1)
    ensures PS26(x, P) == TransitionTimes(x, P)(0, 2)
    ensures PS29(x, P) == TransitionTimes(x, P)(0, 3)
  {
    hide Row0Of, PS33, PS23, PS26, PS29;
    Upper0Attitude(x, P);
  }

  lemma Upper0GyroBias(x: Inputs, P: Table)
    ensures PS14(x, P) == Row0Of(x, P(1, 10), P(2, 10), P(3, 10), P(10, 10), P(10, 11), P(10, 12), P(0, 10))
    ensures PS17(x, P) == Row0Of(x, P(1, 11), P(2, 11), P(3, 11), P(10, 11), P(11, 11), P(11, 12), P(0, 11))
    ensures PS20(x, P) == Row0Of(x, P(1, 12), P(2, 12), P(3, 12), P(10, 12), P(11, 12), P(12, 12), P(0, 12))
  {
    hide PS6, PS7, PS9, PS11, PS12, PS13, PS34;
  }

  lemma Times0GyroBias(x: Inputs, P: Table)
    requires Symmetric(P)
    ensures PS14(x, P) == TransitionTimes(x, P)(0, 10)
    ensures PS17(x, P) == TransitionTimes(x, P)(0, 11)
    ensures PS20(x, P) == TransitionTimes(x, P)(0, 12)
  {
    hide Row0Of, PS14, PS17, PS20;
    Upper0GyroBias(x, P);
  }

  lemma Upper0AccelBias(x: Inputs, P: Table)
    ensures PS44(x, P) == Row0Of(x, P(1, 13), P(2, 13), P(3, 13), P(10, 13), P(11, 13), P(12, 13), P(0, 13))
    ensures PS57(x, P) == Row0Of(x, P(1, 14), P(2, 14), P(3, 14), P(10, 14), P(11, 14), P(12, 14), P(0, 14))
    ensures PS46(x, P) == Row0Of(x, P(1, 15), P(2, 15), P(3, 15), P(10, 15), P(11, 15), P(12, 15), P(0, 15))
  {
    hide PS6, PS7, PS9, PS11, PS12, PS13, PS34;
  }

  lemma Times0AccelBias(x: Inputs, P: Table)
    requires Symmetric(P)
    ensures PS44(x, P) == TransitionTimes(x, P)(0, 13)
    ensures PS57(x, P) == TransitionTimes(x, P)(0, 14)
    ensures PS46(x, P) == TransitionTimes(x, P)(0, 15)
  {
    hide Row0Of, PS44, PS57, PS46;
    Upper0AccelBias(x, P);
  }

  lemma Upper0Velocity(x: Inputs, P: Table)
    ensures PS73(x, P) == Row0Of(x, P(1, 4), P(2, 4), P(3, 4), P(4, 10), P(4, 11), P(4, 12), P(0, 4))
    ensures PS86(x, P) == Row0Of(x, P(1, 5), P(2, 5), P(3, 5), P(5, 10), P(5, 11), P(5, 12), P(0, 5))
    ensures PS94(x, P) == Row0Of(x, P(1, 6), P(2, 6), P(3, 6), P(6, 10), P(6, 11), P(6, 12), P(0, 6))
  {
    hide PS6, PS7, PS9, PS11, PS12, PS13, PS34;
  }

  lemma Times0Velocity(x: Inputs, P: Table)
    requires Symmetric(P)
    ensures PS73(x, P) == TransitionTimes(x, P)(0, 4)
    ensures PS86(x, P) == TransitionTimes(x, P)(0, 5)
    ensures PS94(x, P) == TransitionTimes(x, P)(0, 6)
  {
    hide Row0Of, PS73, PS86, PS94;
    Upper0Velocity(x, P);
  }

  lemma Upper1Attitude(x: Inputs, P: Table)
    ensures PS100(x, P) == Row1Of(x, P(0, 0), P(0, 3), P(0, 2), P(0, 10), P(0, 12), P(0, 11), P(0, 1))
    ensures PS112(x, P) == Row1Of(x, P(0, 1), P(1, 3), P(1, 2), P(1, 10), P(1, 12), P(1, 11), P(1, 1))
    ensures PS102(x, P) == Row1Of(x, P(0, 2), P(2, 3), P(2, 2), P(2, 10), P(2, 12), P(2, 11), P(1, 2))
    ensures PS109(x, P) == Row1Of(x, P(0, 3), P(3, 3), P(2, 3), P(3, 10), P(3, 12), P(3, 11), P(1, 3))
  {
    hide PS6, PS7, PS9, PS11, PS12, PS13, PS34;
  }

  lemma Times1Attitude(x: Inputs, P: Table)
    requires Symmetric(P)
    ensures PS100(x, P) == TransitionTimes(x, P)(1, 0)
    ensures PS112(x, P) == TransitionTimes(x, P)(1, 1)
    ensures PS102(x, P) == TransitionTimes(x, P)(1, 2)
    ensures PS109(x, P) == TransitionTimes(x, P)(1, 3)
  {
    hide Row1Of, PS100, PS112, PS102, PS109;
    Upper1Attitude(x, P);
  }

  lemma Upper1GyroBias(x: Inputs, P: Table)
    ensures PS105(x, P) == Row1Of(x, P(0, 10), P(3, 10), P(2, 10), P(10, 10), P(10, 12), P(10, 11), P(1, 10))
    ensures PS97(x, P) == Row1Of(x, P(0, 11), P(3, 11), P(2, 11), P(10, 11), P(11, 12), P(11, 11), P(1, 11))
    ensures PS107(x, P) == Row1Of(x, P(0, 12), P(3, 12), P(2, 12), P(10, 12), P(12, 12), P(11, 12), P(1, 12))
  {
    hide PS6, PS7, PS9, PS11, PS12, PS13, PS34;
  }

  lemma Times1GyroBias(x: Inputs, P: Table)
    requires Symmetric(P)
    ensures PS105(x, P) == TransitionTimes(x, P)(1, 10)
    ensures PS97(x, P) == TransitionTimes(x, P)(1, 11)
    ensures PS107(x, P) == TransitionTimes(x, P)(1, 12)
  {
    hide Row1Of, PS105, PS97, PS107;
    Upper1GyroBias(x, P);
  }

  lemma Upper1AccelBias(x: Inputs, P: Table)
    ensures PS113(x, P) == Row1Of(x, P(0, 13), P(3, 13), P(2, 13), P(10, 13), P(12, 13), P(11, 13), P(1, 13))
    ensures PS117(x, P) == Row1Of(x, P(0, 14), P(3, 14), P(2, 14), P(10, 14), P(12, 14), P(11, 14), P(1, 14))
    ensures PS114(x, P) == Row1Of(x, P(0, 15), P(3, 15), P(2, 15), P(10, 15), P(12, 15), P(11, 15), P(1, 15))
  {
    hide PS6, PS7, PS9, PS11, PS12, PS13, PS34;
  }

  lemma Times1AccelBias(x: Inputs, P: Table)
    requires Symmetric(P)
    ensures PS113(x, P) == TransitionTimes(x, P)(1, 13)
    ensures PS117(x, P) == TransitionTimes(x, P)(1, 14)
    ensures PS114(x, P) == TransitionTimes(x, P)(1, 15)
  {
    hide Row1Of, PS113, PS117, PS114;
    Upper1AccelBias(x, P);
  }

  lemma Upper1Velocity(x: Inputs, P: Table)
    ensures PS122(x, P) == Row1Of(x, P(0, 4), P(3, 4), P(2, 4), P(4, 10), P(4, 12), P(4, 11), P(1, 4))
    ensures PS124(x, P) == Row1Of(x, P(0, 5), P(3, 5), P(2, 5), P(5, 10), P(5, 12), P(5, 11), P(1, 5))
    ensures PS125(x, P) == Row1Of(x, P(0, 6), P(3, 6), P(2, 6), P(6, 10), P(6, 12), P(6, 11), P(1, 6))
  {
    hide PS6, PS7, PS9, PS11, PS12, PS13, PS34;
  }

  lemma Times1Velocity(x: Inputs, P: Table)
    requires Symmetric(P)
    ensures PS122(x, P) == TransitionTimes(x, P)(1, 4)
    ensures PS124(x, P) == TransitionTimes(x, P)(1, 5)
    ensures PS125(x, P) == TransitionTimes(x, P)(1, 6)
  {
    hide Row1Of, PS122, PS124, PS125;
    Upper1Velocity(x, P);
  }

  lemma Upper2Attitude(x: Inputs, P: Table)
    ensures PS130(x, P) == Row2Of(x, P(0, 3), P(0, 0), P(0, 1), P(0, 11), P(0, 12), P(0, 10), P(0, 2))
    ensures PS135(x, P) == Row2Of(x, P(1, 3), P(0, 1), P(1, 1), P(1, 11), P(1, 12), P(1, 10), P(1, 2))
    ensures PS137(x, P) == Row2Of(x, P(2, 3), P(0, 2), P(1, 2), P(2, 11), P(2, 12), P(2, 10), P(2, 2))
    ensures PS128(x, P) == Row2Of(x, P(3, 3), P(0, 3), P(1, 3), P(3, 11), P(3, 12), P(3, 10), P(2, 3))
  {
    hide PS6, PS7, PS9, PS11, PS12, PS13, PS34;
  }

  lemma Times2Attitude(x: Inputs, P: Table)
    requires Symmetric(P)
    ensures PS130(x, P) == TransitionTimes(x, P)(2, 0)
    ensures PS135(x, P) == TransitionTimes(x, P)(2, 1)
    ensures PS137(x, P) == TransitionTimes(x, P)(2, 2)
    ensures PS128(x, P) == TransitionTimes(x, P)(2, 3)
  {
    hide Row2Of, PS130, PS135, PS137, PS128;
    Upper2Attitude(x, P);
  }

  lemma Upper2GyroBias(x: Inputs, P: Table)
    ensures PS133(x, P) == Row2Of(x, P(3, 10), P(0, 10), P(1, 10), P(10, 11), P(10, 12), P(10, 10), P(2, 10))
    ensures PS132(x, P) == Row2Of(x, P(3, 11), P(0, 11), P(1, 11), P(11, 11), P(11, 12), P(10, 11), P(2, 11))
    ensures PS127(x, P) == Row2Of(x, P(3, 12), P(0, 12), P(1, 12), P(11, 12), P(12, 12), P(10, 12), P(2, 12))
  {
    hide PS6, PS7, PS9, PS11, PS12, PS13, PS34;
  }

  lemma Times2GyroBias(x: Inputs, P: Table)
    requires Symmetric(P)
    ensures PS133(x, P) == TransitionTimes(x, P)(2, 10)
    ensures PS132(x, P) == TransitionTimes(x, P)(2, 11)
    ensures PS127(x, P) == TransitionTimes(x, P)(2, 12)
  {
    hide Row2Of, PS133, PS132, PS127;
    Upper2GyroBias(x, P);
  }

  lemma Upper2AccelBias(x: Inputs, P: Table)
    ensures PS138(x, P) == Row2Of(x, P(3, 13), P(0, 13), P(1, 13), P(11, 13), P(12, 13), P(10, 13), P(2, 13))
    ensures PS142(x, P) == Row2Of(x, P(3, 14), P(0, 14), P(1, 14), P(11, 14), P(12, 14), P(10, 14), P(2, 14))
    ensures PS139(x, P) == Row2Of(x, P(3, 15), P(0, 15), P(1, 15), P(11, 15), P(12, 15), P(10, 15), P(2, 15))
  {
    hide PS6, PS7, PS9, PS11, PS12, PS13, PS34;
  }

  lemma Times2AccelBias(x: Inputs, P: Table)
    requires Symmetric(P)
    ensures PS138(x, P) == TransitionTimes(x, P)(2, 13)
    ensures PS142(x, P) == TransitionTimes(x, P)(2, 14)
    ensures PS139(x, P) == TransitionTimes(x, P)(2, 15)
  {
    hide Row2Of, PS138, PS142, PS139;
    Upper2AccelBias(x, P);
  }

  lemma Upper2Velocity(x: Inputs, P: Table)
    ensures PS147(x, P) == Row2Of(x, P(3, 4), P(0, 4), P(1, 4), P(4, 11), P(4, 12), P(4, 10), P(2, 4))
    ensures PS149(x, P) == Row2Of(x, P(3, 5), P(0, 5), P(1, 5), P(5, 11), P(5, 12), P(5, 10), P(2, 5))
    ensures PS150(x, P) == Row2Of(x, P(3, 6), P(0, 6), P(1, 6), P(6, 11), P(6, 12), P(6, 10), P(2, 6))
  {
    hide PS6, PS7, PS9, PS11, PS12, PS13, PS34;
  }

  lemma Times2Velocity(x: Inputs, P: Table)
    requires Symmetric(P)
    ensures PS147(x, P) == TransitionTimes(x, P)(2, 4)
    ensures PS149(x, P) == TransitionTimes(x, P)(2, 5)
    ensures PS150(x, P) == TransitionTimes(x, P)(2, 6)
  {
    hide Row2Of, PS147, PS149, PS150;
    Upper2Velocity(x, P);
  }

  lemma Upper3Attitude(x: Inputs, P: Table)
    ensures PS153(x, P) == Row3Of(x, P(0, 2), P(0, 1), P(0, 0), P(0, 12), P(0, 11), P(0, 10), P(0, 3))
    ensures PS152(x, P) == Row3Of(x, P(1, 2), P(1, 1), P(0, 1), P(1, 12), P(1, 11), P(1, 10), P(1, 3))
    ensures PS156(x, P) == Row3Of(x, P(2, 2), P(1, 2), P(0, 2), P(2, 12), P(2, 11), P(2, 10), P(2, 3))
    ensures PS157(x, P) == Row3Of(x, P(2, 3), P(1, 3), P(0, 3), P(3, 12), P(3, 11), P(3, 10), P(3, 3))
  {
    hide PS6, PS7, PS9, PS11, PS12, PS13, PS34;
  }

  lemma Times3Attitude(x: Inputs, P: Table)
    requires Symmetric(P)
    ensures PS153(x, P) == TransitionTimes(x, P)(3, 0)
    ensures PS152(x, P) == TransitionTimes(x, P)(3, 1)
    ensures PS156(x, P) == TransitionTimes(x, P)(3, 2)
    ensures PS157(x, P) == TransitionTimes(x, P)(3, 3)
  {
    hide Row3Of, PS153, PS152, PS156, PS157;
    Upper3Attitude(x, P);
  }

  lemma Upper3GyroBias(x: Inputs, P: Table)
    ensures PS151(x, P) == Row3Of(x, P(2, 10), P(1, 10), P(0, 10), P(10, 12), P(10, 11), P(10, 10), P(3, 10))
    ensures PS155(x, P) == Row3Of(x, P(2, 11), P(1, 11), P(0, 11), P(11, 12), P(11, 11), P(10, 11), P(3, 11))
    ensures PS154(x, P) == Row3Of(x, P(2, 12), P(1, 12), P(0, 12), P(12, 12), P(11, 12), P(10, 12), P(3, 12))
  {
    hide PS6, PS7, PS9, PS11, PS12, PS13, PS34;
  }

  lemma Times3GyroBias(x: Inputs, P: Table)
    requires Symmetric(P)
    ensures PS151(x, P) == TransitionTimes(x, P)(3, 10)
    ensures PS155(x, P) == TransitionTimes(x, P)(3, 11)
    ensures PS154(x, P) == TransitionTimes(x, P)(3, 12)
  {
    hide Row3Of, PS151, PS155, PS154;
    Upper3GyroBias(x, P);
  }

  lemma Upper3AccelBias(x: Inputs, P: Table)
    ensures PS158(x, P) == Row3Of(x, P(2, 13), P(1, 13), P(0, 13), P(12, 13), P(11, 13), P(10, 13), P(3, 13))
    ensures PS162(x, P) == Row3Of(x, P(2, 14), P(1, 14), P(0, 14), P(12, 14), P(11, 14), P(10, 14), P(3, 14))
    ensures PS159(x, P) == Row3Of(x, P(2, 15), P(1, 15), P(0, 15), P(12, 15), P(11, 15), P(10, 15), P(3, 15))
  {
    hide PS6, PS7, PS9, PS11, PS12, PS13, PS34;
  }

  lemma Times3AccelBias(x: Inputs, P: Table)
    requires Symmetric(P)
    ensures PS158(x, P) == TransitionTimes(x, P)(3, 13)
    ensures PS162(x, P) == TransitionTimes(x, P)(3, 14)
    ensures PS159(x, P) == TransitionTimes(x, P)(3, 15)
  {
    hide Row3Of, PS158, PS162, PS159;
    Upper3AccelBias(x, P);
  }

  lemma Upper3Velocity(x: Inputs, P: Table)
    ensures PS167(x, P) == Row3Of(x, P(2, 4), P(1, 4), P(0, 4), P(4, 12), P(4, 11), P(4, 10), P(3, 4))
    ensures PS169(x, P) == Row3Of(x, P(2, 5), P(1, 5), P(0, 5), P(5, 12), P(5, 11), P(5, 10), P(3, 5))
    ensures PS170(x, P) == Row3Of(x, P(2, 6), P(1, 6), P(0, 6), P(6, 12), P(6, 11), P(6, 10), P(3, 6))
  {
    hide PS6, PS7, PS9, PS11, PS12, PS13, PS34;
  }

  lemma Times3Velocity(x: Inputs, P: Table)
    requires Symmetric(P)
    ensures PS167(x, P) == TransitionTimes(x, P)(3, 4)
    ensures PS169(x, P) == TransitionTimes(x, P)(3, 5)
    ensures PS170(x, P) == TransitionTimes(x, P)(3, 6)
  {
    hide Row3Of, PS167, PS169, PS170;
    Upper3Velocity(x, P);
  }

  lemma Upper4Attitude(x: Inputs, P: Table)
    ensures PS182(x, P) == Row4Of(x, P(0, 15), P(0, 14), P(0, 1), P(0, 0), P(0, 2), P(0, 3), P(0, 13), P(0, 4))
    ensures PS181(x, P) == Row4Of(x, P(1, 15), P(1, 14), P(1, 1), P(0, 1), P(1, 2), P(1, 3), P(1, 13), P(1, 4))
    ensures PS183(x, P) == Row4Of(x, P(2, 15), P(2, 14), P(1, 2), P(0, 2), P(2, 2), P(2, 3), P(2, 13), P(2, 4))
    ensures PS179(x, P) == Row4Of(x, P(3, 15), P(3, 14), P(1, 3), P(0, 3), P(2, 3), P(3, 3), P(3, 13), P(3, 4))
  {
    hide PS43, PS171, PS172, PS173, PS174, PS175, PS176;
  }

  lemma Times4Attitude(x: Inputs, P: Table)
    requires Symmetric(P)
    ensures PS182(x, P) == TransitionTimes(x, P)(4, 0)
    ensures PS181(x, P) == TransitionTimes(x, P)(4, 1)
    ensures PS183(x, P) == TransitionTimes(x, P)(4, 2)
    ensures PS179(x, P) == TransitionTimes(x, P)(4, 3)
  {
    hide Row4Of, PS182, PS181, PS183, PS179;
    Upper4Attitude(x, P);
  }

  lemma Upper4AccelBias(x: Inputs, P: Table)
    ensures PS177(x, P) == Row4Of(x, P(13, 15), P(13, 14), P(1, 13), P(0, 13), P(2, 13), P(3, 13), P(13, 13), P(4, 13))
    ensures PS180(x, P) == Row4Of(x, P(14, 15), P(14, 14), P(1, 14), P(0, 14), P(2, 14), P(3, 14), P(13, 14), P(4, 14))
    ensures PS178(x, P) == Row4Of(x, P(15, 15), P(14, 15), P(1, 15), P(0, 15), P(2, 15), P(3, 15), P(13, 15), P(4, 15))
  {
    hide PS43, PS171, PS172, PS173, PS174, PS175, PS176;
  }

  lemma Times4AccelBias(x: Inputs, P: Table)
    requires Symmetric(P)
    ensures PS177(x, P) == TransitionTimes(x, P)(4, 13)
    ensures PS180(x, P) == TransitionTimes(x, P)(4, 14)
    ensures PS178(x, P) == TransitionTimes(x, P)(4, 15)
  {
    hide Row4Of, PS177, PS180, PS178;
    Upper4AccelBias(x, P);
  }

  lemma Upper4Velocity(x: Inputs, P: Table)
    ensures PS186(x, P) == Row4Of(x, P(4, 15), P(4, 14), P(1, 4), P(0, 4), P(2, 4), P(3, 4), P(4, 13), P(4, 4))
    ensures PS196(x, P) == Row4Of(x, P(5, 15), P(5, 14), P(1, 5), P(0, 5), P(2, 5), P(3, 5), P(5, 13), P(4, 5))
    ensures PS200(x, P) == Row4Of(x, P(6, 15), P(6, 14), P(1, 6), P(0, 6), P(2, 6), P(3, 6), P(6, 13), P(4, 6))
  {
    hide PS43, PS171, PS172, PS173, PS174, PS175, PS176;
  }

  lemma Times4Velocity(x: Inputs, P: Table)
    requires Symmetric(P)
    ensures PS186(x, P) == TransitionTimes(x, P)(4, 4)
    ensures PS196(x, P) == TransitionTimes(x, P)(4, 5)
    ensures PS200(x, P) == TransitionTimes(x, P)(4, 6)
  {
    hide Row4Of, PS186, PS196, PS200;
    Upper4Velocity(x, P);
  }

  lemma Upper5Attitude(x: Inputs, P: Table)
    ensures PS207(x, P) == Row5Of(x, P(0, 15), P(0, 13), P(0, 2), P(0, 0), P(0, 3), P(0, 1), P(0, 14), P(0, 5))
    ensures PS208(x, P) == Row5Of(x, P(1, 15), P(1, 13), P(1, 2), P(0, 1), P(1, 3), P(1, 1), P(1, 14), P(1, 5))
    ensures PS210(x, P) == Row5Of(x, P(2, 15), P(2, 13), P(2, 2), P(0, 2), P(2, 3), P(1, 2), P(2, 14), P(2, 5))
    ensures PS211(x, P) == Row5Of(x, P(3, 15), P(3, 13), P(2, 3), P(0, 3), P(3, 3), P(1, 3), P(3, 14), P(3, 5))
  {
    hide PS75, PS190, PS193, PS201, PS202, PS203, PS204;
  }

  lemma Times5Attitude(x: Inputs, P: Table)
    requires Symmetric(P)
    ensures PS207(x, P) == TransitionTimes(x, P)(5, 0)
    ensures PS208(x, P) == TransitionTimes(x, P)(5, 1)
    ensures PS210(x, P) == TransitionTimes(x, P)(5, 2)
    ensures PS211(x, P) == TransitionTimes(x, P)(5, 3)
  {
    hide Row5Of, PS207, PS208, PS210, PS211;
    Upper5Attitude(x, P);
  }

  lemma Upper5AccelBias(x: Inputs, P: Table)
    ensures PS206(x, P) == Row5Of(x, P(13, 15), P(13, 13), P(2, 13), P(0, 13), P(3, 13), P(1, 13), P(13, 14), P(5, 13))
    ensures PS205(x, P) == Row5Of(x, P(14, 15), P(13, 14), P(2, 14), P(0, 14), P(3, 14), P(1, 14), P(14, 14), P(5, 14))
    ensures PS209(x, P) == Row5Of(x, P(15, 15), P(13, 15), P(2, 15), P(0, 15), P(3, 15), P(1, 15), P(14, 15), P(5, 15))
  {
    hide PS75, PS190, PS193, PS201, PS202, PS203, PS204;
  }

  lemma Times5AccelBias(x: Inputs, P: Table)
    requires Symmetric(P)
    ensures PS206(x, P) == TransitionTimes(x, P)(5, 13)
    ensures PS205(x, P) == TransitionTimes(x, P)(5, 14)
    ensures PS209(x, P) == TransitionTimes(x, P)(5, 15)
  {
    hide Row5Of, PS206, PS205, PS209;
    Upper5AccelBias(x, P);
  }

  lemma Upper5Velocity(x: Inputs, P: Table)
    ensures PS213(x, P) == Row5Of(x, P(5, 15), P(5, 13), P(2, 5), P(0, 5), P(3, 5), P(1, 5), P(5, 14), P(5, 5))
    ensures PS218(x, P) == Row5Of(x, P(6, 15), P(6, 13), P(2, 6), P(0, 6), P(3, 6), P(1, 6), P(6, 14), P(5, 6))
  {
    hide PS75, PS190, PS193, PS201, PS202, PS203, PS204;
  }

  lemma Times5Velocity(x: Inputs, P: Table)
    requires Symmetric(P)
    ensures PS213(x, P) == TransitionTimes(x, P)(5, 5)
    ensures PS218(x, P) == TransitionTimes(x, P)(5, 6)
  {
    hide Row5Of, PS213, PS218;
    Upper5Velocity(x, P);
  }

  lemma Upper6AccelBias(x: Inputs, P: Table)
    ensures PS221(x, P) == Row6Of(x, P(13, 14), P(13, 13), P(2, 13), P(3, 13), P(0, 13), P(1, 13), P(13, 15), P(6, 13))
    ensures PS220(x, P) == Row6Of(x, P(14, 14), P(13, 14), P(2, 14), P(3, 14), P(0, 14), P(1, 14), P(14, 15), P(6, 14))
    ensures PS219(x, P) == Row6Of(x, P(14, 15), P(13, 15), P(2, 15), P(3, 15), P(0, 15), P(1, 15), P(15, 15), P(6, 15))
  {
    hide PS87, PS197, PS199, PS214, PS215, PS216, PS217;
  }

  lemma Times6AccelBias(x: Inputs, P: Table)
    requires Symmetric(P)
    ensures PS221(x, P) == TransitionTimes(x, P)(6, 13)
    ensures PS220(x, P) == TransitionTimes(x, P)(6, 14)
    ensures PS219(x, P) == TransitionTimes(x, P)(6, 15)
  {
    hide Row6Of, PS221, PS220, PS219;
    Upper6AccelBias(x, P);
  }

  lemma Upper6Velocity(x: Inputs, P: Table)
    ensures PS222(x, P) == Row6Of(x, P(6, 14), P(6, 13), P(2, 6), P(3, 6), P(0, 6), P(1, 6), P(6, 15), P(6, 6))
  {
    hide PS87, PS197, PS199, PS214, PS215, PS216, PS217;
  }

  lemma Times6Velocity(x: Inputs, P: Table)
    requires Symmetric(P)
    ensures PS222(x, P) == TransitionTimes(x, P)(6, 6)
  {
    hide Row6Of, PS222;
    Upper6Velocity(x, P);
  }

  // ---- every entry of the block is an entry of F P Fᵀ + G Q Gᵀ ----

  lemma Entry0_0(x: Inputs, P: Table)
    requires Symmetric(P)
    ensures Next0_0(x, P) == Propagated(x, P)(0, 0) + Noise(x, 0, 0)
  {
    hide TransitionTimes, Noise, PS0, PS1, PS2, PS3, PS4, PS5, PS6, PS7, PS9, PS11, PS12, PS13, PS14, PS17, PS20, PS23,
        PS26, PS29, PS33;
    Times0Attitude(x, P); Times0GyroBias(x, P); Noise0_0(x);
  }

  lemma Entry0_1(x: Inputs, P: Table)
    requires Symmetric(P)
    ensures Next0_1(x, P) == Propagated(x, P)(0, 1) + Noise(x, 0, 1)
  {
    hide TransitionTimes, Noise, PS1, PS3, PS5, PS7, PS9, PS11, PS12, PS13, PS14, PS17, PS20, PS23, PS26, PS29, PS33,
        PS34, PS35, PS36;
    Times0Attitude(x, P); Times0GyroBias(x, P); Noise0_1(x);
  }

  lemma Entry1_1(x: Inputs, P: Table)
    requires Symmetric(P)
    ensures Next1_1(x, P) == Propagated(x, P)(1, 1) + Noise(x, 1, 1)
  {
    hide TransitionTimes, Noise, PS1, PS2, PS3, PS4, PS5, PS7, PS9, PS11, PS12, PS13, PS34, PS95, PS97, PS100, PS102,
        PS105, PS107, PS109, PS112;
    Times1Attitude(x, P); Times1GyroBias(x, P); Noise1_1(x);
  }

  lemma Entry0_2(x: Inputs, P: Table)
    requires Symmetric(P)
    ensures Next0_2(x, P) == Propagated(x, P)(0, 2) + Noise(x, 0, 2)
  {
    hide TransitionTimes, Noise, PS1, PS3, PS5, PS6, PS9, PS11, PS12, PS13, PS14, PS17, PS20, PS23, PS26, PS29, PS33,
        PS34, PS37, PS38;
    Times0Attitude(x, P); Times0GyroBias(x, P); Noise0_2(x);
  }

  lemma Entry1_2(x: Inputs, P: Table)
    requires Symmetric(P)
    ensures Next1_2(x, P) == Propagated(x, P)(1, 2) + Noise(x, 1, 2)
  {
    hide TransitionTimes, Noise, PS1, PS3, PS5, PS6, PS9, PS11, PS12, PS13, PS34, PS39, PS40, PS97, PS100, PS102, PS105,
        PS107, PS109, PS112;
    Times1Attitude(x, P); Times1GyroBias(x, P); Noise1_2(x);
  }

  lemma Entry2_2(x: Inputs, P: Table)
    requires Symmetric(P)
    ensures Next2_2(x, P) == Propagated(x, P)(2, 2) + Noise(x, 2, 2)
  {
    hide TransitionTimes, Noise, PS0, PS1, PS3, PS4, PS5, PS6, PS9, PS11, PS12, PS13, PS34, PS95, PS127, PS128, PS130,
        PS132, PS133, PS135, PS137;
    Times2Attitude(x, P); Times2GyroBias(x, P); Noise2_2(x);
  }

  lemma Entry0_3(x: Inputs, P: Table)
    requires Symmetric(P)
    ensures Next0_3(x, P) == Propagated(x, P)(0, 3) + Noise(x, 0, 3)
  {
    hide TransitionTimes, Noise, PS1, PS3, PS5, PS6, PS7, PS11, PS12, PS13, PS14, PS17, PS20, PS23, PS26, PS29, PS33,
        PS34, PS39, PS40;
    Times0Attitude(x, P); Times0GyroBias(x, P); Noise0_3(x);
  }

  lemma Entry1_3(x: Inputs, P: Table)
    requires Symmetric(P)
    ensures Next1_3(x, P) == Propagated(x, P)(1, 3) + Noise(x, 1, 3)
  {
    hide TransitionTimes, Noise, PS1, PS3, PS5, PS6, PS7, PS11, PS12, PS13, PS34, PS37, PS38, PS97, PS100, PS102, PS105,
        PS107, PS109, PS112;
    Times1Attitude(x, P); Times1GyroBias(x, P); Noise1_3(x);
  }

  lemma Entry2_3(x: Inputs, P: Table)
    requires Symmetric(P)
    ensures Next2_3(x, P) == Propagated(x, P)(2, 3) + Noise(x, 2, 3)
  {
    hide TransitionTimes, Noise, PS1, PS3, PS5, PS6, PS7, PS11, PS12, PS13, PS34, PS35, PS36, PS127, PS128, PS130,
        PS132, PS133, PS135, PS137;
    Times2Attitude(x, P); Times2GyroBias(x, P); Noise2_3(x);
  }

  lemma Entry3_3(x: Inputs, P: Table)
    requires Symmetric(P)
    ensures Next3_3(x, P) == Propagated(x, P)(3, 3) + Noise(x, 3, 3)
  {
    hide TransitionTimes, Noise, PS0, PS1, PS2, PS3, PS5, PS6, PS7, PS11, PS12, PS13, PS34, PS95, PS151, PS152, PS153,
        PS154, PS155, PS156, PS157;
    Times3Attitude(x, P); Times3GyroBias(x, P); Noise3_3(x);
  }

  lemma Entry0_4(x: Inputs, P: Table)
    requires Symmetric(P)
    ensures Next0_4(x, P) == Propagated(x, P)(0, 4) + Noise(x, 0, 4)
  {
    hide TransitionTimes, Noise, PS23, PS26, PS29, PS33, PS43, PS44, PS45, PS46, PS54, PS56, PS57, PS61, PS66, PS71, PS73;
    Times0Attitude(x, P); Times0AccelBias(x, P); Times0Velocity(x, P); NoiseElsewhere(x, 0, 4);
  }

  lemma Entry1_4(x: Inputs, P: Table)
    requires Symmetric(P)
    ensures Next1_4(x, P) == Propagated(x, P)(1, 4) + Noise(x, 1, 4)
  {
    hide TransitionTimes, Noise, PS43, PS45, PS54, PS56, PS61, PS66, PS71, PS100, PS102, PS109, PS112, PS113, PS114, PS117, PS122;
    Times1Attitude(x, P); Times1AccelBias(x, P); Times1Velocity(x, P); NoiseElsewhere(x, 1, 4);
  }

  lemma Entry2_4(x: Inputs, P: Table)
    requires Symmetric(P)
    ensures Next2_4(x, P) == Propagated(x, P)(2, 4) + Noise(x, 2, 4)
  {
    hide TransitionTimes, Noise, PS43, PS45, PS54, PS56, PS61, PS66, PS71, PS128, PS130, PS135, PS137, PS138, PS139, PS142, PS147;
    Times2Attitude(x, P); Times2AccelBias(x, P); Times2Velocity(x, P); NoiseElsewhere(x, 2, 4);
  }

  lemma Entry3_4(x: Inputs, P: Table)
    requires Symmetric(P)
    ensures Next3_4(x, P) == Propagated(x, P)(3, 4) + Noise(x, 3, 4)
  {
    hide TransitionTimes, Noise, PS43, PS45, PS54, PS56, PS61, PS66, PS71, PS152, PS153, PS156, PS157, PS158, PS159, PS162, PS167;
    Times3Attitude(x, P); Times3AccelBias(x, P); Times3Velocity(x, P); NoiseElsewhere(x, 3, 4);
  }

  lemma Entry4_4(x: Inputs, P: Table)
    requires Symmetric(P)
    ensures Next4_4(x, P) == Propagated(x, P)(4, 4) + Noise(x, 4, 4)
  {
    hide TransitionTimes, Noise, PS43, PS45, PS56, PS171, PS172, PS173, PS174, PS175, PS176, PS177, PS178, PS179, PS180,
        PS181, PS182, PS183, PS184, PS185, PS186;
    Times4Attitude(x, P); Times4AccelBias(x, P); Times4Velocity(x, P); Noise4_4(x);
  }

  lemma Entry0_5(x: Inputs, P: Table)
    requires Symmetric(P)
    ensures Next0_5(x, P) == Propagated(x, P)(0, 5) + Noise(x, 0, 5)
  {
    hide TransitionTimes, Noise, PS23, PS26, PS29, PS33, PS44, PS46, PS57, PS75, PS76, PS78, PS80, PS81, PS83, PS85, PS86;
    Times0Attitude(x, P); Times0AccelBias(x, P); Times0Velocity(x, P); NoiseElsewhere(x, 0, 5);
  }

  lemma Entry1_5(x: Inputs, P: Table)
    requires Symmetric(P)
    ensures Next1_5(x, P) == Propagated(x, P)(1, 5) + Noise(x, 1, 5)
  {
    hide TransitionTimes, Noise, PS75, PS76, PS78, PS80, PS81, PS83, PS85, PS100, PS102, PS109, PS112, PS113, PS114, PS117, PS124;
    Times1Attitude(x, P); Times1AccelBias(x, P); Times1Velocity(x, P); NoiseElsewhere(x, 1, 5);
  }

  lemma Entry2_5(x: Inputs, P: Table)
    requires Symmetric(P)
    ensures Next2_5(x, P) == Propagated(x, P)(2, 5) + Noise(x, 2, 5)
  {
    hide TransitionTimes, Noise, PS75, PS76, PS78, PS80, PS81, PS83, PS85, PS128, PS130, PS135, PS137, PS138, PS139, PS142, PS149;
    Times2Attitude(x, P); Times2AccelBias(x, P); Times2Velocity(x, P); NoiseElsewhere(x, 2, 5);
  }

  lemma Entry3_5(x: Inputs, P: Table)
    requires Symmetric(P)
    ensures Next3_5(x, P) == Propagated(x, P)(3, 5) + Noise(x, 3, 5)
  {
    hide TransitionTimes, Noise, PS75, PS76, PS78, PS80, PS81, PS83, PS85, PS152, PS153, PS156, PS157, PS158, PS159, PS162, PS169;
    Times3Attitude(x, P); Times3AccelBias(x, P); Times3Velocity(x, P); NoiseElsewhere(x, 3, 5);
  }

  lemma Entry4_5(x: Inputs, P: Table)
    requires Symmetric(P)
    ensures Next4_5(x, P) == Propagated(x, P)(4, 5) + Noise(x, 4, 5)
  {
    hide TransitionTimes, Noise, PS45, PS75, PS76, PS78, PS80, PS81, PS83, PS85, PS172, PS177, PS178, PS179, PS180,
        PS181, PS182, PS183, PS185, PS194, PS195, PS196;
    Times4Attitude(x, P); Times4AccelBias(x, P); Times4Velocity(x, P); Noise4_5(x);
  }

  lemma Entry5_5(x: Inputs, P: Table)
    requires Symmetric(P)
    ensures Next5_5(x, P) == Propagated(x, P)(5, 5) + Noise(x, 5, 5)
  {
    hide TransitionTimes, Noise, PS75, PS76, PS81, PS185, PS190, PS193, PS201, PS202, PS203, PS204, PS205, PS206, PS207,
        PS208, PS209, PS210, PS211, PS212, PS213;
    Times5Attitude(x, P); Times5AccelBias(x, P); Times5Velocity(x, P); Noise5_5(x);
  }

  lemma Entry0_6(x: Inputs, P: Table)
    requires Symmetric(P)
    ensures Next0_6(x, P) == Propagated(x, P)(0, 6) + Noise(x, 0, 6)
  {
    hide TransitionTimes, Noise, PS23, PS26, PS29, PS33, PS44, PS46, PS57, PS87, PS88, PS89, PS90, PS91, PS92, PS93, PS94;
    Times0Attitude(x, P); Times0AccelBias(x, P); Times0Velocity(x, P); NoiseElsewhere(x, 0, 6);
  }

  lemma Entry1_6(x: Inputs, P: Table)
    requires Symmetric(P)
    ensures Next1_6(x, P) == Propagated(x, P)(1, 6) + Noise(x, 1, 6)
  {
    hide TransitionTimes, Noise, PS87, PS88, PS89, PS90, PS91, PS92, PS93, PS100, PS102, PS109, PS112, PS113, PS114, PS117, PS125;
    Times1Attitude(x, P); Times1AccelBias(x, P); Times1Velocity(x, P); NoiseElsewhere(x, 1, 6);
  }

  lemma Entry2_6(x: Inputs, P: Table)
    requires Symmetric(P)
    ensures Next2_6(x, P) == Propagated(x, P)(2, 6) + Noise(x, 2, 6)
  {
    hide TransitionTimes, Noise, PS87, PS88, PS89, PS90, PS91, PS92, PS93, PS128, PS130, PS135, PS137, PS138, PS139, PS142, PS150;
    Times2Attitude(x, P); Times2AccelBias(x, P); Times2Velocity(x, P); NoiseElsewhere(x, 2, 6);
  }

  lemma Entry3_6(x: Inputs, P: Table)
    requires Symmetric(P)
    ensures Next3_6(x, P) == Propagated(x, P)(3, 6) + Noise(x, 3, 6)
  {
    hide TransitionTimes, Noise, PS87, PS88, PS89, PS90, PS91, PS92, PS93, PS152, PS153, PS156, PS157, PS158, PS159, PS162, PS170;
    Times3Attitude(x, P); Times3AccelBias(x, P); Times3Velocity(x, P); NoiseElsewhere(x, 3, 6);
  }

  lemma Entry4_6(x: Inputs, P: Table)
    requires Symmetric(P)
    ensures Next4_6(x, P) == Propagated(x, P)(4, 6) + Noise(x, 4, 6)
  {
    hide TransitionTimes, Noise, PS56, PS87, PS88, PS89, PS90, PS91, PS92, PS93, PS171, PS177, PS178, PS179, PS180,
        PS181, PS182, PS183, PS184, PS194, PS198, PS200;
    Times4Attitude(x, P); Times4AccelBias(x, P); Times4Velocity(x, P); Noise4_6(x);
  }

  lemma Entry5_6(x: Inputs, P: Table)
    requires Symmetric(P)
    ensures Next5_6(x, P) == Propagated(x, P)(5, 6) + Noise(x, 5, 6)
  {
    hide TransitionTimes, Noise, PS76, PS87, PS88, PS89, PS90, PS91, PS92, PS93, PS190, PS195, PS198, PS205, PS206,
        PS207, PS208, PS209, PS210, PS211, PS212, PS218;
    Times5Attitude(x, P); Times5AccelBias(x, P); Times5Velocity(x, P); Noise5_6(x);
  }

  lemma Inner6IsRow(x: Inputs, v14: real, v13: real, v2: real, v3: real, v0: real, v1: real, v15: real, v6: real)
    ensures Inner6(x, v14, v13, v2, v3, v0, v1, v15, v6) == Row6Of(x, v14, v13, v2, v3, v0, v1, v15, v6)
  {
    hide PS87, PS197, PS199, PS214, PS215, PS216, PS217;
  }

  lemma Times6Attitude(x: Inputs, P: Table)
    requires Symmetric(P)
    ensures Inner6(x, P(2, 14), P(2, 13), P(2, 2), P(2, 3), P(0, 2), P(1, 2), P(2, 15), P(2, 6)) == TransitionTimes(x, P)(6, 2)
    ensures Inner6(x, P(3, 14), P(3, 13), P(2, 3), P(3, 3), P(0, 3), P(1, 3), P(3, 15), P(3, 6)) == TransitionTimes(x, P)(6, 3)
    ensures Inner6(x, P(0, 14), P(0, 13), P(0, 2), P(0, 3), P(0, 0), P(0, 1), P(0, 15), P(0, 6)) == TransitionTimes(x, P)(6, 0)
    ensures Inner6(x, P(1, 14), P(1, 13), P(1, 2), P(1, 3), P(0, 1), P(1, 1), P(1, 15), P(1, 6)) == TransitionTimes(x, P)(6, 1)
  {
    hide Row6Of, Inner6;
    Inner6IsRow(x, P(2, 14), P(2, 13), P(2, 2), P(2, 3), P(0, 2), P(1, 2), P(2, 15), P(2, 6));
    Inner6IsRow(x, P(3, 14), P(3, 13), P(2, 3), P(3, 3), P(0, 3), P(1, 3), P(3, 15), P(3, 6));
    Inner6IsRow(x, P(0, 14), P(0, 13), P(0, 2), P(0, 3), P(0, 0), P(0, 1), P(0, 15), P(0, 6));
    Inner6IsRow(x, P(1, 14), P(1, 13), P(1, 2), P(1, 3), P(0, 1), P(1, 1), P(1, 15), P(1, 6));
  }

  lemma Entry6_6(x: Inputs, P: Table)
    requires Symmetric(P)
    ensures Next6_6(x, P) == Propagated(x, P)(6, 6) + Noise(x, 6, 6)
  {
    hide TransitionTimes, Inner6, Noise, PS87, PS88, PS90, PS184, PS197, PS199, PS212, PS214, PS215, PS216, PS217, PS219,
        PS220, PS221, PS222;
    Times6Attitude(x, P);
    Times6AccelBias(x, P);
    Times6Velocity(x, P);
    Noise6_6(x);
  }

  lemma Entry0_7(x: Inputs, P: Table)
    requires Symmetric(P)
    ensures Next0_7(x, P) == Propagated(x, P)(0, 7) + Noise(x, 0, 7)
  {
    hide Noise, PS6, PS7, PS9, PS11, PS12, PS13, PS73;
    Times0Velocity(x, P); NoiseElsewhere(x, 0, 7);
  }

  lemma Entry1_7(x: Inputs, P: Table)
    requires Symmetric(P)
    ensures Next1_7(x, P) == Propagated(x, P)(1, 7) + Noise(x, 1, 7)
  {
    hide Noise, PS7, PS9, PS11, PS12, PS13, PS34, PS122;
    Times1Velocity(x, P); NoiseElsewhere(x, 1, 7);
  }

  lemma Entry2_7(x: Inputs, P: Table)
    requires Symmetric(P)
    ensures Next2_7(x, P) == Propagated(x, P)(2, 7) + Noise(x, 2, 7)
  {
    hide Noise, PS6, PS9, PS11, PS12, PS13, PS34, PS147;
    Times2Velocity(x, P); NoiseElsewhere(x, 2, 7);
  }

  lemma Entry3_7(x: Inputs, P: Table)
    requires Symmetric(P)
    ensures Next3_7(x, P) == Propagated(x, P)(3, 7) + Noise(x, 3, 7)
  {
    hide Noise, PS6, PS7, PS11, PS12, PS13, PS34, PS167;
    Times3Velocity(x, P); NoiseElsewhere(x, 3, 7);
  }

  lemma Entry4_7(x: Inputs, P: Table)
    requires Symmetric(P)
    ensures Next4_7(x, P) == Propagated(x, P)(4, 7) + Noise(x, 4, 7)
  {
    hide Noise, PS43, PS171, PS172, PS173, PS174, PS175, PS176, PS186;
    Times4Velocity(x, P); NoiseElsewhere(x, 4, 7);
  }

  lemma Entry5_7(x: Inputs, P: Table)
    requires Symmetric(P)
    ensures Next5_7(x, P) == Propagated(x, P)(5, 7) + Noise(x, 5, 7)
  {
    hide Noise, PS75, PS190, PS193, PS201, PS202, PS203, PS204;
    Times5Velocity(x, P); NoiseElsewhere(x, 5, 7);
  }

  lemma Entry6_7(x: Inputs, P: Table)
    requires Symmetric(P)
    ensures Next6_7(x, P) == Propagated(x, P)(6, 7) + Noise(x, 6, 7)
  {
    hide Noise, PS87, PS197, PS199, PS214, PS215, PS216, PS217;
    Times6Velocity(x, P); NoiseElsewhere(x, 6, 7);
  }

  lemma PositionCorner(t: real, u: real, w: real, a: real, b: real, c: real, d: real)
    requires u == a * t + b && w == c * t + d
    ensures u * t + w == c * t + d + t * (a * t + b)
  {}

  lemma SwapFactors(t: real, a: real, b: real, b': real)
    requires b == b'
    ensures t * (a * t + b) == t * (a * t + b')
  {}

  lemma ScaledSum(v: real, w: real, a: real, d: real, t: real)
    requires v == a && w == d
    ensures v * t + w == a * t + d
  {}

  /** A position row of F P, over the entries of P. */
  lemma PositionRow(x: Inputs, P: Table, i: int, k: int)
    requires 7 <= i <= 9
    ensures RowOf(TransitionTimes(x, P), i)(k) == P(i - 3, k) * x.dt + P(i, k)
  {
    var col := ColOf(P, k);
    assert RowOf(TransitionTimes(x, P), i)(k) == TransitionRow(x, i, col);
    ScaledSum(col(i - 3), col(i), P(i - 3, k), P(i, k), x.dt);
    if i == 7 {
      assert TransitionRow(x, 7, col) == col(4) * x.dt + col(7);
    } else if i == 8 {
      assert TransitionRow(x, 8, col) == col(5) * x.dt + col(8);
    } else {
      assert TransitionRow(x, 9, col) == col(6) * x.dt + col(9);
    }
  }

  lemma Entry7_7(x: Inputs, P: Table)
    requires Symmetric(P)
    ensures Next7_7(x, P) == Propagated(x, P)(7, 7) + Noise(x, 7, 7)
  {
    hide Noise;
    NoiseElsewhere(x, 7, 7);
    PositionRow(x, P, 7, 4);
    PositionRow(x, P, 7, 7);
    var row := RowOf(TransitionTimes(x, P), 7);
    assert Propagated(x, P)(7, 7) == row(4) * x.dt + row(7);
    assert P(7, 4) == P(4, 7);
    PositionCorner(x.dt, row(4), row(7), P(4, 4), P(7, 4), P(4, 7), P(7, 7));
    SwapFactors(x.dt, P(4, 4), P(7, 4), P(4, 7));
  }

  lemma Entry0_8(x: Inputs, P: Table)
    requires Symmetric(P)
    ensures Next0_8(x, P) == Propagated(x, P)(0, 8) + Noise(x, 0, 8)
  {
    hide Noise, PS6, PS7, PS9, PS11, PS12, PS13, PS86;
    Times0Velocity(x, P); NoiseElsewhere(x, 0, 8);
  }

  lemma Entry1_8(x: Inputs, P: Table)
    requires Symmetric(P)
    ensures Next1_8(x, P) == Propagated(x, P)(1, 8) + Noise(x, 1, 8)
  {
    hide Noise, PS7, PS9, PS11, PS12, PS13, PS34, PS124;
    Times1Velocity(x, P); NoiseElsewhere(x, 1, 8);
  }

  lemma Entry2_8(x: Inputs, P: Table)
    requires Symmetric(P)
    ensures Next2_8(x, P) == Propagated(x, P)(2, 8) + Noise(x, 2, 8)
  {
    hide Noise, PS6, PS9, PS11, PS12, PS13, PS34, PS149;
    Times2Velocity(x, P); NoiseElsewhere(x, 2, 8);
  }

  lemma Entry3_8(x: Inputs, P: Table)
    requires Symmetric(P)
    ensures Next3_8(x, P) == Propagated(x, P)(3, 8) + Noise(x, 3, 8)
  {
    hide Noise, PS6, PS7, PS11, PS12, PS13, PS34, PS169;
    Times3Velocity(x, P); NoiseElsewhere(x, 3, 8);
  }

  lemma Entry4_8(x: Inputs, P: Table)
    requires Symmetric(P)
    ensures Next4_8(x, P) == Propagated(x, P)(4, 8) + Noise(x, 4, 8)
  {
    hide Noise, PS43, PS171, PS172, PS173, PS174, PS175, PS176, PS196;
    Times4Velocity(x, P); NoiseElsewhere(x, 4, 8);
  }

  lemma Entry5_8(x: Inputs, P: Table)
    requires Symmetric(P)
    ensures Next5_8(x, P) == Propagated(x, P)(5, 8) + Noise(x, 5, 8)
  {
    hide Noise, PS75, PS190, PS193, PS201, PS202, PS203, PS204, PS213;
    Times5Velocity(x, P); NoiseElsewhere(x, 5, 8);
  }

  lemma Entry6_8(x: Inputs, P: Table)
    requires Symmetric(P)
    ensures Next6_8(x, P) == Propagated(x, P)(6, 8) + Noise(x, 6, 8)
  {
    hide Noise, PS87, PS197, PS199, PS214, PS215, PS216, PS217;
    Times6Velocity(x, P); NoiseElsewhere(x, 6, 8);
  }

  lemma Entry7_8(x: Inputs, P: Table)
    requires Symmetric(P)
    ensures Next7_8(x, P) == Propagated(x, P)(7, 8) + Noise(x, 7, 8)
  {
    hide Noise;
    NoiseElsewhere(x, 7, 8);
    PositionRow(x, P, 7, 5);
    PositionRow(x, P, 7, 8);
    var row := RowOf(TransitionTimes(x, P), 7);
    assert Propagated(x, P)(7, 8) == row(5) * x.dt + row(8);
    assert P(7, 5) == P(5, 7);
    PositionCorner(x.dt, row(5), row(8), P(4, 5), P(7, 5), P(4, 8), P(7, 8));
    SwapFactors(x.dt, P(4, 5), P(7, 5), P(5, 7));
  }

  lemma Entry8_8(x: Inputs, P: Table)
    requires Symmetric(P)
    ensures Next8_8(x, P) == Propagated(x, P)(8, 8) + Noise(x, 8, 8)
  {
    hide Noise;
    NoiseElsewhere(x, 8, 8);
    PositionRow(x, P, 8, 5);
    PositionRow(x, P, 8, 8);
    var row := RowOf(TransitionTimes(x, P), 8);
    assert Propagated(x, P)(8, 8) == row(5) * x.dt + row(8);
    assert P(8, 5) == P(5, 8);
    PositionCorner(x.dt, row(5), row(8), P(5, 5), P(8, 5), P(5, 8), P(8, 8));
    SwapFactors(x.dt, P(5, 5), P(8, 5), P(5, 8));
  }

  lemma Entry0_9(x: Inputs, P: Table)
    requires Symmetric(P)
    ensures Next0_9(x, P) == Propagated(x, P)(0, 9) + Noise(x, 0, 9)
  {
    hide Noise, PS6, PS7, PS9, PS11, PS12, PS13, PS94;
    Times0Velocity(x, P); NoiseElsewhere(x, 0, 9);
  }

  lemma Entry1_9(x: Inputs, P: Table)
    requires Symmetric(P)
    ensures Next1_9(x, P) == Propagated(x, P)(1, 9) + Noise(x, 1, 9)
  {
    hide Noise, PS7, PS9, PS11, PS12, PS13, PS34, PS125;
    Times1Velocity(x, P); NoiseElsewhere(x, 1, 9);
  }

  lemma Entry2_9(x: Inputs, P: Table)
    requires Symmetric(P)
    ensures Next2_9(x, P) == Propagated(x, P)(2, 9) + Noise(x, 2, 9)
  {
    hide Noise, PS6, PS9, PS11, PS12, PS13, PS34, PS150;
    Times2Velocity(x, P); NoiseElsewhere(x, 2, 9);
  }

  lemma Entry3_9(x: Inputs, P: Table)
    requires Symmetric(P)
    ensures Next3_9(x, P) == Propagated(x, P)(3, 9) + Noise(x, 3, 9)
  {
    hide Noise, PS6, PS7, PS11, PS12, PS13, PS34, PS170;
    Times3Velocity(x, P); NoiseElsewhere(x, 3, 9);
  }

  lemma Entry4_9(x: Inputs, P: Table)
    requires Symmetric(P)
    ensures Next4_9(x, P) == Propagated(x, P)(4, 9) + Noise(x, 4, 9)
  {
    hide Noise, PS43, PS171, PS172, PS173, PS174, PS175, PS176, PS200;
    Times4Velocity(x, P); NoiseElsewhere(x, 4, 9);
  }

  lemma Entry5_9(x: Inputs, P: Table)
    requires Symmetric(P)
    ensures Next5_9(x, P) == Propagated(x, P)(5, 9) + Noise(x, 5, 9)
  {
    hide Noise, PS75, PS190, PS193, PS201, PS202, PS203, PS204, PS218;
    Times5Velocity(x, P); NoiseElsewhere(x, 5, 9);
  }

  lemma Entry6_9(x: Inputs, P: Table)
    requires Symmetric(P)
    ensures Next6_9(x, P) == Propagated(x, P)(6, 9) + Noise(x, 6, 9)
  {
    hide Noise, PS87, PS197, PS199, PS214, PS215, PS216, PS217, PS222;
    Times6Velocity(x, P); NoiseElsewhere(x, 6, 9);
  }

  lemma Entry7_9(x: Inputs, P: Table)
    requires Symmetric(P)
    ensures Next7_9(x, P) == Propagated(x, P)(7, 9) + Noise(x, 7, 9)
  {
    hide Noise;
    NoiseElsewhere(x, 7, 9);
    PositionRow(x, P, 7, 6);
    PositionRow(x, P, 7, 9);
    var row := RowOf(TransitionTimes(x, P), 7);
    assert Propagated(x, P)(7, 9) == row(6) * x.dt + row(9);
    assert P(7, 6) == P(6, 7);
    PositionCorner(x.dt, row(6), row(9), P(4, 6), P(7, 6), P(4, 9), P(7, 9));
    SwapFactors(x.dt, P(4, 6), P(7, 6), P(6, 7));
  }

  lemma Entry8_9(x: Inputs, P: Table)
    requires Symmetric(P)
    ensures Next8_9(x, P) == Propagated(x, P)(8, 9) + Noise(x, 8, 9)
  {
    hide Noise;
    NoiseElsewhere(x, 8, 9);
    PositionRow(x, P, 8, 6);
    PositionRow(x, P, 8, 9);
    var row := RowOf(TransitionTimes(x, P), 8);
    assert Propagated(x, P)(8, 9) == row(6) * x.dt + row(9);
    assert P(8, 6) == P(6, 8);
    PositionCorner(x.dt, row(6), row(9), P(5, 6), P(8, 6), P(5, 9), P(8, 9));
    SwapFactors(x.dt, P(5, 6), P(8, 6), P(6, 8));
  }

  lemma Entry9_9(x: Inputs, P: Table)
    requires Symmetric(P)
    ensures Next9_9(x, P) == Propagated(x, P)(9, 9) + Noise(x, 9, 9)
  {
    hide Noise;
    NoiseElsewhere(x, 9, 9);
    PositionRow(x, P, 9, 6);
    PositionRow(x, P, 9, 9);
    var row := RowOf(TransitionTimes(x, P), 9);
    assert Propagated(x, P)(9, 9) == row(6) * x.dt + row(9);
    assert P(9, 6) == P(6, 9);
    PositionCorner(x.dt, row(6), row(9), P(6, 6), P(9, 6), P(6, 9), P(9, 9));
    SwapFactors(x.dt, P(6, 6), P(9, 6), P(6, 9));
  }

  /** The 55 entries the block computes, above and on the diagonal. */
  function DenseEntry(x: Inputs, P: Table, i: int, j: int): real {
    match j
    case 0 => Next0_0(x, P)
    case 1 => if i == 0 then Next0_1(x, P) else Next1_1(x, P)
    case 2 => if i == 0 then Next0_2(x, P) else if i == 1 then Next1_2(x, P) else Next2_2(x, P)
    case 3 => if i == 0 then Next0_3(x, P) else if i == 1 then Next1_3(x, P) else if i == 2 then Next2_3(x, P) else Next3_3(x, P)
    case 4 => if i == 0 then Next0_4(x, P) else if i == 1 then Next1_4(x, P) else if i == 2 then Next2_4(x,
        P) else if i == 3 then Next3_4(x, P) else Next4_4(x, P)
    case 5 => if i == 0 then Next0_5(x, P) else if i == 1 then Next1_5(x, P) else if i == 2 then Next2_5(x,
        P) else if i == 3 then Next3_5(x, P) else if i == 4 then Next4_5(x, P) else Next5_5(x, P)
    case 6 => if i == 0 then Next0_6(x, P) else if i == 1 then Next1_6(x, P) else if i == 2 then Next2_6(x,
        P) else if i == 3 then Next3_6(x, P) else if i == 4 then Next4_6(x, P) else if i == 5 then Next5_6(x,
        P) else Next6_6(x, P)
    case 7 => if i == 0 then Next0_7(x, P) else if i == 1 then Next1_7(x, P) else if i == 2 then Next2_7(x,
        P) else if i == 3 then Next3_7(x, P) else if i == 4 then Next4_7(x, P) else if i == 5 then Next5_7(x,
        P) else if i == 6 then Next6_7(x, P) else Next7_7(x, P)
    case 8 => if i == 0 then Next0_8(x, P) else if i == 1 then Next1_8(x, P) else if i == 2 then Next2_8(x,
        P) else if i == 3 then Next3_8(x, P) else if i == 4 then Next4_8(x, P) else if i == 5 then Next5_8(x,
        P) else if i == 6 then Next6_8(x, P) else if i == 7 then Next7_8(x, P) else Next8_8(x, P)
    case 9 => if i == 0 then Next0_9(x, P) else if i == 1 then Next1_9(x, P) else if i == 2 then Next2_9(x,
        P) else if i == 3 then Next3_9(x, P) else if i == 4 then Next4_9(x, P) else if i == 5 then Next5_9(x,
        P) else if i == 6 then Next6_9(x, P) else if i == 7 then Next7_9(x, P) else if i == 8 then Next8_9(x,
        P) else Next9_9(x, P)
    case _ => 0.0
  }

  lemma DenseAttitude(x: Inputs, P: Table, i: int, j: int)
    requires Symmetric(P) && 0 <= i <= j && 0 <= j <= 3
    ensures DenseEntry(x, P, i, j) == Propagated(x, P)(i, j) + Noise(x, i, j)
  {
    hide Propagated, Noise, Next0_0, Next0_1, Next1_1, Next0_2, Next1_2, Next2_2, Next0_3, Next1_3, Next2_3, Next3_3;
    match j
    case 0 =>
      match i {
      case 0 => Entry0_0(x, P);
      }
    case 1 =>
      match i {
      case 0 => Entry0_1(x, P);
      case 1 => Entry1_1(x, P);
      }
    case 2 =>
      match i {
      case 0 => Entry0_2(x, P);
      case 1 => Entry1_2(x, P);
      case 2 => Entry2_2(x, P);
      }
    case 3 =>
      match i {
      case 0 => Entry0_3(x, P);
      case 1 => Entry1_3(x, P);
      case 2 => Entry2_3(x, P);
      case 3 => Entry3_3(x, P);
      }
  }

  lemma DenseVelocity(x: Inputs, P: Table, i: int, j: int)
    requires Symmetric(P) && 0 <= i <= j && 4 <= j <= 6
    ensures DenseEntry(x, P, i, j) == Propagated(x, P)(i, j) + Noise(x, i, j)
  {
    hide Propagated, Noise, Next0_4, Next1_4, Next2_4, Next3_4, Next4_4, Next0_5, Next1_5, Next2_5, Next3_5, Next4_5,
        Next5_5, Next0_6, Next1_6, Next2_6, Next3_6, Next4_6, Next5_6, Next6_6;
    match j
    case 4 =>
      match i {
      case 0 => Entry0_4(x, P);
      case 1 => Entry1_4(x, P);
      case 2 => Entry2_4(x, P);
      case 3 => Entry3_4(x, P);
      case 4 => Entry4_4(x, P);
      }
    case 5 =>
      match i {
      case 0 => Entry0_5(x, P);
      case 1 => Entry1_5(x, P);
      case 2 => Entry2_5(x, P);
      case 3 => Entry3_5(x, P);
      case 4 => Entry4_5(x, P);
      case 5 => Entry5_5(x, P);
      }
    case 6 =>
      match i {
      case 0 => Entry0_6(x, P);
      case 1 => Entry1_6(x, P);
      case 2 => Entry2_6(x, P);
      case 3 => Entry3_6(x, P);
      case 4 => Entry4_6(x, P);
      case 5 => Entry5_6(x, P);
      case 6 => Entry6_6(x, P);
      }
  }

  lemma DensePosition(x: Inputs, P: Table, i: int, j: int)
    requires Symmetric(P) && 0 <= i <= j && 7 <= j <= 9
    ensures DenseEntry(x, P, i, j) == Propagated(x, P)(i, j) + Noise(x, i, j)
  {
    hide Propagated, Noise, Next0_7, Next1_7, Next2_7, Next3_7, Next4_7, Next5_7, Next6_7, Next7_7, Next0_8, Next1_8,
        Next2_8, Next3_8, Next4_8, Next5_8, Next6_8, Next7_8, Next8_8, Next0_9, Next1_9, Next2_9, Next3_9, Next4_9,
        Next5_9, Next6_9, Next7_9, Next8_9, Next9_9;
    match j
    case 7 =>
      match i {
      case 0 => Entry0_7(x, P);
      case 1 => Entry1_7(x, P);
      case 2 => Entry2_7(x, P);
      case 3 => Entry3_7(x, P);
      case 4 => Entry4_7(x, P);
      case 5 => Entry5_7(x, P);
      case 6 => Entry6_7(x, P);
      case 7 => Entry7_7(x, P);
      }
    case 8 =>
      match i {
      case 0 => Entry0_8(x, P);
      case 1 => Entry1_8(x, P);
      case 2 => Entry2_8(x, P);
      case 3 => Entry3_8(x, P);
      case 4 => Entry4_8(x, P);
      case 5 => Entry5_8(x, P);
      case 6 => Entry6_8(x, P);
      case 7 => Entry7_8(x, P);
      case 8 => Entry8_8(x, P);
      }
    case 9 =>
      match i {
      case 0 => Entry0_9(x, P);
      case 1 => Entry1_9(x, P);
      case 2 => Entry2_9(x, P);
      case 3 => Entry3_9(x, P);
      case 4 => Entry4_9(x, P);
      case 5 => Entry5_9(x, P);
      case 6 => Entry6_9(x, P);
      case 7 => Entry7_9(x, P);
      case 8 => Entry8_9(x, P);
      case 9 => Entry9_9(x, P);
      }
  }

  lemma DenseIsPropagated(x: Inputs, P: Table, i: int, j: int)
    requires Symmetric(P) && 0 <= i <= j < 10
    ensures DenseEntry(x, P, i, j) == Propagated(x, P)(i, j) + Noise(x, i, j)
  {
    hide DenseEntry, Propagated, Noise;
    if j < 4 {
      DenseAttitude(x, P, i, j);
    } else if j < 7 {
      DenseVelocity(x, P, i, j);
    } else {
      DensePosition(x, P, i, j);
    }
  }
  /** The generated block equals F P Fᵀ + G Q Gᵀ for every symmetric covariance. */
  lemma BlockIsCongruence(x: Inputs, P: Table, i: int, j: int)
    requires Symmetric(P) && 0 <= i <= j < 10
    ensures DenseEntry(x, P, i, j) == Congruence(Jacobian(x), P)(i, j) + Noise(x, i, j)
  {
    hide DenseEntry, Propagated, Congruence, Noise;
    DenseIsPropagated(x, P, i, j);
    PropagatedIsCongruence(x, P, i, j);
  }

  // ---- the prediction of a positive semidefinite covariance is positive semidefinite ----

  function GyroColumn(x: Inputs, n: int): Vec { i => GyroGain(x, i, n) }

  function AccelColumn(x: Inputs, n: int): Vec { i => AccelGain(x, i, n) }

  function WithGyroNoise(x: Inputs, a: Table): Table {
    RankOne(RankOne(RankOne(a, x.daxVar, GyroColumn(x, 0)), x.dayVar, GyroColumn(x, 1)), x.dazVar, GyroColumn(x, 2))
  }

  function WithAccelNoise(x: Inputs, a: Table): Table {
    RankOne(RankOne(RankOne(a, x.dvxVar, AccelColumn(x, 0)), x.dvyVar, AccelColumn(x, 1)), x.dvzVar, AccelColumn(x, 2))
  }

  lemma NoiseIsRankOnes(x: Inputs, a: Table, i: int, j: int)
    ensures WithAccelNoise(x, WithGyroNoise(x, a))(i, j) == a(i, j) + Noise(x, i, j)
  {
    hide GyroGain, AccelGain;
  }

  /** F P Fᵀ + G Q Gᵀ + D, with D the process noise of the states from 10 on. */
  function Predicted(x: Inputs, P: Table, d: Vec): Table {
    (i, j) => Congruence(Jacobian(x), P)(i, j) + Noise(x, i, j) + (if i == j then d(i) else 0.0)
  }

  predicate VariancesNonNegative(x: Inputs) {
    x.daxVar >= 0.0 && x.dayVar >= 0.0 && x.dazVar >= 0.0 && x.dvxVar >= 0.0 && x.dvyVar >= 0.0 && x.dvzVar >= 0.0
  }

  function WithDiagonal(a: Table, n: int, d: Vec): Table { (i, j) => a(i, j) + (if i == j && i < n then d(i) else 0.0) }

  lemma {:induction false} DiagonalKeepsPsd(a: Table, n: nat, d: Vec)
    requires PositiveSemidefinite(a) && n <= N
    requires forall i | 0 <= i < N :: d(i) >= 0.0
    ensures PositiveSemidefinite(WithDiagonal(a, n, d))
  {
    if n == 0 {
      PsdCongruent(a, WithDiagonal(a, 0, d));
    } else {
      hide Form;
      DiagonalKeepsPsd(a, n - 1, d);
      RankOneUpPsd(WithDiagonal(a, n - 1, d), d(n - 1), Unit(n - 1));
      PsdCongruent(RankOne(WithDiagonal(a, n - 1, d), d(n - 1), Unit(n - 1)), WithDiagonal(a, n, d));
    }
  }

  /** Prediction keeps a covariance symmetric and positive semidefinite. */
  lemma PredictedPsd(x: Inputs, P: Table, d: Vec)
    requires Symmetric(P) && PositiveSemidefinite(P) && VariancesNonNegative(x)
    requires forall i | 0 <= i < N :: d(i) >= 0.0
    ensures Symmetric(Predicted(x, P, d)) && PositiveSemidefinite(Predicted(x, P, d))
  {
    hide Form, Congruence, Jacobian, RankOne, Noise;
    var a := Congruence(Jacobian(x), P);
    CongruencePsd(Jacobian(x), P);
    CongruenceSymmetric(Jacobian(x), P);
    RankOneUpPsd(a, x.daxVar, GyroColumn(x, 0));
    RankOneUpPsd(RankOne(a, x.daxVar, GyroColumn(x, 0)), x.dayVar, GyroColumn(x, 1));
    RankOneUpPsd(RankOne(RankOne(a, x.daxVar, GyroColumn(x, 0)), x.dayVar, GyroColumn(x, 1)), x.dazVar, GyroColumn(x, 2));
    var b := WithGyroNoise(x, a);
    RankOneUpPsd(b, x.dvxVar, AccelColumn(x, 0));
    RankOneUpPsd(RankOne(b, x.dvxVar, AccelColumn(x, 0)), x.dvyVar, AccelColumn(x, 1));
    RankOneUpPsd(RankOne(RankOne(b, x.dvxVar, AccelColumn(x, 0)), x.dvyVar, AccelColumn(x, 1)), x.dvzVar, AccelColumn(x, 2));
    var c := WithAccelNoise(x, b);
    DiagonalKeepsPsd(c, N, d);
    forall i, j | 0 <= i < N && 0 <= j < N
      ensures WithDiagonal(c, N, d)(i, j) == Predicted(x, P, d)(i, j) && Predicted(x, P, d)(i, j) == Predicted(x, P, d)(j, i)
    {
      NoiseIsRankOnes(x, a, i, j);
      NoiseSymmetric(x, i, j);
    }
    PsdCongruent(WithDiagonal(c, N, d), Predicted(x, P, d));
  }

  lemma NoiseSymmetric(x: Inputs, i: int, j: int)
    ensures Noise(x, i, j) == Noise(x, j, i)
  {
    hide GyroGain, AccelGain;
  }
}
