/**
 The writes of the covariance prediction into its scratch matrix: the dense columns, the
 correlation columns and the process noise, proved to leave `F P Fᵀ + G Q Gᵀ + D` in its upper
 triangle.
 */
module PredictionColumns {
  import opened Numeric
  import opened LinearAlgebra
  import opened PredictionBlock
  import opened CovariancePropagation
  import opened EkfModel
  import opened EkfPrediction
  import opened CovarianceArray

  // ---- the dense columns 0 to 9 ----

  method WriteColumn0(next: array2<real>, x: Inputs, p: Table)
    requires Square(next)
    modifies next
    ensures forall r, k | 0 <= r < N && 0 <= k < N :: next[r, k] == if k == 0 && r <= 0 then DenseEntry(x, p, r, 0) else old(next[r, k])
  {
    hide Next0_0;
    next[0, 0] := Next0_0(x, p);
  }

  method WriteColumn1(next: array2<real>, x: Inputs, p: Table)
    requires Square(next)
    modifies next
    ensures forall r, k | 0 <= r < N && 0 <= k < N :: next[r, k] == if k == 1 && r <= 1 then DenseEntry(x, p, r, 1) else old(next[r, k])
  {
    hide Next0_1, Next1_1;
    next[0, 1] := Next0_1(x, p);
    next[1, 1] := Next1_1(x, p);
  }

  method WriteColumn2(next: array2<real>, x: Inputs, p: Table)
    requires Square(next)
    modifies next
    ensures forall r, k | 0 <= r < N && 0 <= k < N :: next[r, k] == if k == 2 && r <= 2 then DenseEntry(x, p, r, 2) else old(next[r, k])
  {
    hide Next0_2, Next1_2, Next2_2;
    next[0, 2] := Next0_2(x, p);
    next[1, 2] := Next1_2(x, p);
    next[2, 2] := Next2_2(x, p);
  }

  method WriteColumn3(next: array2<real>, x: Inputs, p: Table)
    requires Square(next)
    modifies next
    ensures forall r, k | 0 <= r < N && 0 <= k < N :: next[r, k] == if k == 3 && r <= 3 then DenseEntry(x, p, r, 3) else old(next[r, k])
  {
    hide Next0_3, Next1_3, Next2_3, Next3_3;
    next[0, 3] := Next0_3(x, p);
    next[1, 3] := Next1_3(x, p);
    next[2, 3] := Next2_3(x, p);
    next[3, 3] := Next3_3(x, p);
  }

  lemma DenseColumn4(x: Inputs, p: Table)
    ensures DenseEntry(x, p, 0, 4) == Next0_4(x, p)
    ensures DenseEntry(x, p, 1, 4) == Next1_4(x, p)
    ensures DenseEntry(x, p, 2, 4) == Next2_4(x, p)
    ensures DenseEntry(x, p, 3, 4) == Next3_4(x, p)
    ensures DenseEntry(x, p, 4, 4) == Next4_4(x, p)
  {
    hide Next0_4, Next1_4, Next2_4, Next3_4, Next4_4;
  }

  method WriteColumn4(next: array2<real>, x: Inputs, p: Table)
    requires Square(next)
    modifies next
    ensures forall r, k | 0 <= r < N && 0 <= k < N :: next[r, k] == if k == 4 && r <= 4 then DenseEntry(x, p, r, 4) else old(next[r, k])
  {
    hide DenseEntry, Next0_4, Next1_4, Next2_4, Next3_4, Next4_4;
    DenseColumn4(x, p);
    next[0, 4] := Next0_4(x, p);
    next[1, 4] := Next1_4(x, p);
    next[2, 4] := Next2_4(x, p);
    next[3, 4] := Next3_4(x, p);
    next[4, 4] := Next4_4(x, p);
  }

  lemma DenseColumn5(x: Inputs, p: Table)
    ensures DenseEntry(x, p, 0, 5) == Next0_5(x, p)
    ensures DenseEntry(x, p, 1, 5) == Next1_5(x, p)
    ensures DenseEntry(x, p, 2, 5) == Next2_5(x, p)
    ensures DenseEntry(x, p, 3, 5) == Next3_5(x, p)
    ensures DenseEntry(x, p, 4, 5) == Next4_5(x, p)
    ensures DenseEntry(x, p, 5, 5) == Next5_5(x, p)
  {
    hide Next0_5, Next1_5, Next2_5, Next3_5, Next4_5, Next5_5;
  }

  method WriteColumn5(next: array2<real>, x: Inputs, p: Table)
    requires Square(next)
    modifies next
    ensures forall r, k | 0 <= r < N && 0 <= k < N :: next[r, k] == if k == 5 && r <= 5 then DenseEntry(x, p, r, 5) else old(next[r, k])
  {
    hide DenseEntry, Next0_5, Next1_5, Next2_5, Next3_5, Next4_5, Next5_5;
    DenseColumn5(x, p);
    next[0, 5] := Next0_5(x, p);
    next[1, 5] := Next1_5(x, p);
    next[2, 5] := Next2_5(x, p);
    next[3, 5] := Next3_5(x, p);
    next[4, 5] := Next4_5(x, p);
    next[5, 5] := Next5_5(x, p);
  }

  lemma DenseColumn6(x: Inputs, p: Table)
    ensures DenseEntry(x, p, 0, 6) == Next0_6(x, p)
    ensures DenseEntry(x, p, 1, 6) == Next1_6(x, p)
    ensures DenseEntry(x, p, 2, 6) == Next2_6(x, p)
    ensures DenseEntry(x, p, 3, 6) == Next3_6(x, p)
    ensures DenseEntry(x, p, 4, 6) == Next4_6(x, p)
    ensures DenseEntry(x, p, 5, 6) == Next5_6(x, p)
    ensures DenseEntry(x, p, 6, 6) == Next6_6(x, p)
  {
    hide Next0_6, Next1_6, Next2_6, Next3_6, Next4_6, Next5_6, Next6_6;
  }

  method WriteColumn6(next: array2<real>, x: Inputs, p: Table)
    requires Square(next)
    modifies next
    ensures forall r, k | 0 <= r < N && 0 <= k < N :: next[r, k] == if k == 6 && r <= 6 then DenseEntry(x, p, r, 6) else old(next[r, k])
  {
    hide DenseEntry, Next0_6, Next1_6, Next2_6, Next3_6, Next4_6, Next5_6, Next6_6;
    DenseColumn6(x, p);
    next[0, 6] := Next0_6(x, p);
    next[1, 6] := Next1_6(x, p);
    next[2, 6] := Next2_6(x, p);
    next[3, 6] := Next3_6(x, p);
    next[4, 6] := Next4_6(x, p);
    next[5, 6] := Next5_6(x, p);
    next[6, 6] := Next6_6(x, p);
  }

  lemma DenseColumn7(x: Inputs, p: Table)
    ensures DenseEntry(x, p, 0, 7) == Next0_7(x, p)
    ensures DenseEntry(x, p, 1, 7) == Next1_7(x, p)
    ensures DenseEntry(x, p, 2, 7) == Next2_7(x, p)
    ensures DenseEntry(x, p, 3, 7) == Next3_7(x, p)
    ensures DenseEntry(x, p, 4, 7) == Next4_7(x, p)
    ensures DenseEntry(x, p, 5, 7) == Next5_7(x, p)
    ensures DenseEntry(x, p, 6, 7) == Next6_7(x, p)
    ensures DenseEntry(x, p, 7, 7) == Next7_7(x, p)
  {
    hide Next0_7, Next1_7, Next2_7, Next3_7, Next4_7, Next5_7, Next6_7, Next7_7;
  }

  method WriteColumn7(next: array2<real>, x: Inputs, p: Table)
    requires Square(next)
    modifies next
    ensures forall r, k | 0 <= r < N && 0 <= k < N :: next[r, k] == if k == 7 && r <= 7 then DenseEntry(x, p, r, 7) else old(next[r, k])
  {
    hide DenseEntry, Next0_7, Next1_7, Next2_7, Next3_7, Next4_7, Next5_7, Next6_7, Next7_7;
    DenseColumn7(x, p);
    next[0, 7] := Next0_7(x, p);
    next[1, 7] := Next1_7(x, p);
    next[2, 7] := Next2_7(x, p);
    next[3, 7] := Next3_7(x, p);
    next[4, 7] := Next4_7(x, p);
    next[5, 7] := Next5_7(x, p);
    next[6, 7] := Next6_7(x, p);
    next[7, 7] := Next7_7(x, p);
  }

  lemma DenseColumn8(x: Inputs, p: Table)
    ensures DenseEntry(x, p, 0, 8) == Next0_8(x, p)
    ensures DenseEntry(x, p, 1, 8) == Next1_8(x, p)
    ensures DenseEntry(x, p, 2, 8) == Next2_8(x, p)
    ensures DenseEntry(x, p, 3, 8) == Next3_8(x, p)
    ensures DenseEntry(x, p, 4, 8) == Next4_8(x, p)
    ensures DenseEntry(x, p, 5, 8) == Next5_8(x, p)
    ensures DenseEntry(x, p, 6, 8) == Next6_8(x, p)
    ensures DenseEntry(x, p, 7, 8) == Next7_8(x, p)
    ensures DenseEntry(x, p, 8, 8) == Next8_8(x, p)
  {
    hide Next0_8, Next1_8, Next2_8, Next3_8, Next4_8, Next5_8, Next6_8, Next7_8, Next8_8;
  }

  method WriteColumn8(next: array2<real>, x: Inputs, p: Table)
    requires Square(next)
    modifies next
    ensures forall r, k | 0 <= r < N && 0 <= k < N :: next[r, k] == if k == 8 && r <= 8 then DenseEntry(x, p, r, 8) else old(next[r, k])
  {
    hide DenseEntry, Next0_8, Next1_8, Next2_8, Next3_8, Next4_8, Next5_8, Next6_8, Next7_8, Next8_8;
    DenseColumn8(x, p);
    next[0, 8] := Next0_8(x, p);
    next[1, 8] := Next1_8(x, p);
    next[2, 8] := Next2_8(x, p);
    next[3, 8] := Next3_8(x, p);
    next[4, 8] := Next4_8(x, p);
    next[5, 8] := Next5_8(x, p);
    next[6, 8] := Next6_8(x, p);
    next[7, 8] := Next7_8(x, p);
    next[8, 8] := Next8_8(x, p);
  }

  lemma DenseColumn9(x: Inputs, p: Table)
    ensures DenseEntry(x, p, 0, 9) == Next0_9(x, p)
    ensures DenseEntry(x, p, 1, 9) == Next1_9(x, p)
    ensures DenseEntry(x, p, 2, 9) == Next2_9(x, p)
    ensures DenseEntry(x, p, 3, 9) == Next3_9(x, p)
    ensures DenseEntry(x, p, 4, 9) == Next4_9(x, p)
    ensures DenseEntry(x, p, 5, 9) == Next5_9(x, p)
    ensures DenseEntry(x, p, 6, 9) == Next6_9(x, p)
    ensures DenseEntry(x, p, 7, 9) == Next7_9(x, p)
    ensures DenseEntry(x, p, 8, 9) == Next8_9(x, p)
    ensures DenseEntry(x, p, 9, 9) == Next9_9(x, p)
  {
    hide Next0_9, Next1_9, Next2_9, Next3_9, Next4_9, Next5_9, Next6_9, Next7_9, Next8_9, Next9_9;
  }

  method WriteColumn9(next: array2<real>, x: Inputs, p: Table)
    requires Square(next)
    modifies next
    ensures forall r, k | 0 <= r < N && 0 <= k < N :: next[r, k] == if k == 9 && r <= 9 then DenseEntry(x, p, r, 9) else old(next[r, k])
  {
    hide DenseEntry, Next0_9, Next1_9, Next2_9, Next3_9, Next4_9, Next5_9, Next6_9, Next7_9, Next8_9, Next9_9;
    DenseColumn9(x, p);
    next[0, 9] := Next0_9(x, p);
    next[1, 9] := Next1_9(x, p);
    next[2, 9] := Next2_9(x, p);
    next[3, 9] := Next3_9(x, p);
    next[4, 9] := Next4_9(x, p);
    next[5, 9] := Next5_9(x, p);
    next[6, 9] := Next6_9(x, p);
    next[7, 9] := Next7_9(x, p);
    next[8, 9] := Next8_9(x, p);
    next[9, 9] := Next9_9(x, p);
  }

  method WriteAttitude(next: array2<real>, x: Inputs, p: Table)
    requires Square(next)
    modifies next
    ensures forall i, j | 0 <= i <= j < 4 :: next[i, j] == DenseEntry(x, p, i, j)
  {
    hide DenseEntry;
    WriteColumn0(next, x, p);
    WriteColumn1(next, x, p);
    WriteColumn2(next, x, p);
    WriteColumn3(next, x, p);
  }

  method WriteDynamics(next: array2<real>, x: Inputs, p: Table)
    requires Square(next)
    requires forall i, j | 0 <= i <= j < 4 :: next[i, j] == DenseEntry(x, p, i, j)
    modifies next
    ensures forall i, j | 0 <= i <= j < 10 :: next[i, j] == DenseEntry(x, p, i, j)
  {
    hide DenseEntry;
    WriteColumn4(next, x, p);
    WriteColumn5(next, x, p);
    WriteColumn6(next, x, p);
    WriteColumn7(next, x, p);
    WriteColumn8(next, x, p);
    WriteColumn9(next, x, p);
  }

  // ---- the correlations with the states that have no dynamics ----

  /** Rows 0 to 9 of column `j`. */
  method WriteCorrelation(next: array2<real>, x: Inputs, p: Table, j: int)
    requires Square(next) && 10 <= j < N
    modifies next
    ensures forall r, k | 0 <= r < N && 0 <= k < N ::
              next[r, k] == if k == j && r < 10 then TransitionRow(x, r, ColOf(p, j)) else old(next[r, k])
  {
    hide Row0, Row1, Row2, Row3, Row4, Row5, Row6, Row7, Row8, Row9;
    var v := ColOf(p, j);
    next[0, j] := Row0(x, v);
    next[1, j] := Row1(x, v);
    next[2, j] := Row2(x, v);
    next[3, j] := Row3(x, v);
    next[4, j] := Row4(x, v);
    next[5, j] := Row5(x, v);
    next[6, j] := Row6(x, v);
    next[7, j] := Row7(x, v);
    next[8, j] := Row8(x, v);
    next[9, j] := Row9(x, v);
  }

  method WriteBiases(next: array2<real>, x: Inputs, p: Table)
    requires Square(next)
    modifies next
    ensures forall r, k | 0 <= r < N && 0 <= k < N :: next[r, k] == if 10 <= k <= 15 && r <= k then TransitionRow(x, r, ColOf(p, k)) else old(next[r, k])
  {
    hide Row0, Row1, Row2, Row3, Row4, Row5, Row6, Row7, Row8, Row9;
    for j := 10 to 16
      invariant forall r, k | 0 <= r < N && 0 <= k < N ::
          next[r, k] == if 10 <= k < j && (r < 10 || r == k) then TransitionRow(x, r, ColOf(p, k)) else old(next[r, k])
    {
      WriteCorrelation(next, x, p, j);
      next[j, j] := p(j, j);
    }
    for i := 10 to 16
      invariant forall r, k | 0 <= r < N && 0 <= k < N ::
          next[r, k] == if 10 <= k <= 15 && (r < i || r == k) && r <= k then TransitionRow(x, r, ColOf(p, k)) else old(next[r, k])
    {
      for j := i + 1 to 16
        invariant forall r, k | 0 <= r < N && 0 <= k < N ::
            next[r, k] == if 10 <= k <= 15 && (r < i || (r == i && k < j) || r == k) && r <= k then TransitionRow(x, r,
                ColOf(p, k)) else old(next[r, k])
      {
        next[i, j] := p(i, j);
      }
    }
  }

  /** One field or wind column, down to its diagonal entry. */
  method WriteField(next: array2<real>, x: Inputs, p: Table, j: int)
    requires Square(next) && 16 <= j < N
    modifies next
    ensures forall r, k | 0 <= r < N && 0 <= k < N :: next[r, k] == if k == j && r <= j then TransitionRow(x, r, ColOf(p, j)) else old(next[r, k])
  {
    hide Row0, Row1, Row2, Row3, Row4, Row5, Row6, Row7, Row8, Row9;
    WriteCorrelation(next, x, p, j);
    for i := 10 to j + 1
      invariant forall r, k | 0 <= r < N && 0 <= k < N :: next[r, k] == if k == j && r < i then TransitionRow(x, r, ColOf(p, j)) else old(next[r, k])
    {
      next[i, j] := p(i, j);
    }
  }

  method WriteFields(next: array2<real>, x: Inputs, p: Table, lim: int)
    requires Square(next) && (lim <= 15 || lim == 21 || lim == 23)
    modifies next
    ensures forall r, k | 0 <= r < N && 0 <= k < N :: next[r, k] == if 16 <= k <= lim && r <= k then TransitionRow(x, r, ColOf(p, k)) else old(next[r, k])
  {
    hide TransitionRow;
    if lim > 15 {
      WriteField(next, x, p, 16);
      WriteField(next, x, p, 17);
      WriteField(next, x, p, 18);
      WriteField(next, x, p, 19);
      WriteField(next, x, p, 20);
      WriteField(next, x, p, 21);
      if lim > 21 {
        WriteField(next, x, p, 22);
        WriteField(next, x, p, 23);
      }
    }
  }

  // ---- the upper triangle as a whole ----

  /** Without process noise: F P Fᵀ + G Q Gᵀ. */
  function Driven(x: Inputs, p: Table): Table { (i, j) => Congruence(Jacobian(x), p)(i, j) + Noise(x, i, j) }

  lemma CorrelationIsCongruence(x: Inputs, p: Table, i: int, j: int)
    requires 0 <= i <= j && 10 <= j < N
    ensures TransitionRow(x, i, ColOf(p, j)) == Driven(x, p)(i, j)
  {
    hide Congruence, Jacobian, Noise, Row0, Row1, Row2, Row3, Row4, Row5, Row6, Row7, Row8, Row9;
    PropagatedIsCongruence(x, p, i, j);
    NoiseAboveLimit(x, i, j);
    assert Propagated(x, p)(i, j) == RowOf(TransitionTimes(x, p), i)(j);
  }

  method WriteAbove(next: array2<real>, x: Inputs, p: Table, lim: int)
    requires Square(next) && Symmetric(p) && (9 <= lim <= 15 || lim == 21 || lim == 23)
    requires forall i, j | 0 <= i <= j < 4 :: next[i, j] == DenseEntry(x, p, i, j)
    modifies next
    ensures forall i, j | 0 <= i <= j <= lim :: next[i, j] == Driven(x, p)(i, j)
  {
    hide DenseEntry, Congruence, Jacobian, Noise, TransitionRow;
    WriteDynamics(next, x, p);
    forall i, j | 0 <= i <= j < 10 ensures DenseEntry(x, p, i, j) == Driven(x, p)(i, j) {
      BlockIsCongruence(x, p, i, j);
    }
    WriteBiases(next, x, p);
    WriteFields(next, x, p, lim);
    forall i, j | 0 <= i <= j <= lim && 10 <= j ensures TransitionRow(x, i, ColOf(p, j)) == Driven(x, p)(i, j) {
      CorrelationIsCongruence(x, p, i, j);
    }
  }

  /** The process noise of states 10 to 23, zero where the field and wind flags leave it unset. */
  method ProcessNoiseArray(h: Inhibit, t: Tuning, hgtRate: real, dt: real) returns (noise: array<real>)
    ensures fresh(noise) && noise.Length == 14
    ensures forall i | 10 <= i <= StateIndexLim(h) :: noise[i - 10] == ProcessNoiseOf(h, t, hgtRate, dt, i)
  {
    hide BiasNoise, FieldNoise, WindNoise;
    noise := new real[14](i => 0.0);
    Fill(noise, 0, 2, BiasNoise(t.gyroBiasProcessNoise, dt));
    Fill(noise, 3, 5, BiasNoise(t.accelBiasProcessNoise, dt));
    if !h.mag {
      Fill(noise, 6, 8, FieldNoise(t.magEarthProcessNoise, dt));
      Fill(noise, 9, 11, FieldNoise(t.magBodyProcessNoise, dt));
    }
    if !h.wind {
      Fill(noise, 12, 13, WindNoise(t, hgtRate, dt));
    }
  }

  method Fill(a: array<real>, first: int, last: int, v: real)
    requires 0 <= first <= last < a.Length
    modifies a
    ensures forall k | 0 <= k < a.Length :: a[k] == if first <= k <= last then v else old(a[k])
  {
    for i := first to last + 1
      invariant forall k | 0 <= k < a.Length :: a[k] == if first <= k < i then v else old(a[k])
    {
      a[i] := v;
    }
  }

  method AddProcessNoise(next: array2<real>, noise: array<real>, lim: int)
    requires Square(next) && noise.Length == 14 && 9 <= lim < N
    modifies next
    ensures forall r, k | 0 <= r < N && 0 <= k < N :: next[r, k] == if r == k && 10 <= r <= lim then old(next[r, k]) + noise[r - 10] else old(next[r, k])
  {
    for i := 10 to lim + 1
      invariant forall r, k | 0 <= r < N && 0 <= k < N :: next[r, k] == if r == k && 10 <= r < i then old(next[r, k]) + noise[r - 10] else old(next[r, k])
    {
      next[i, i] := next[i, i] + noise[i - 10];
    }
  }

  /** The process noise array as a vector over all states. */
  function NoiseVec(noise: seq<real>): Vec { i => if 10 <= i < 24 && i - 10 < |noise| then noise[i - 10] else 0.0 }

  lemma DrivenIs(x: Inputs, p: Table, d: Vec, i: int, j: int)
    ensures Driven(x, p)(i, j) + (if i == j then d(i) else 0.0) == Predicted(x, p, d)(i, j)
  {
    hide Congruence, Noise, Jacobian;
  }

  /** The scratch matrix of the normal branch. */
  method FormNext(x: Inputs, p: Table, noise: array<real>, lim: int) returns (next: array2<real>)
    requires Symmetric(p) && noise.Length == 14 && (9 <= lim <= 15 || lim == 21 || lim == 23)
    ensures fresh(next) && Square(next)
    ensures forall i, j | 0 <= i <= j <= lim :: next[i, j] == Predicted(x, p, NoiseVec(noise[..]))(i, j)
  {
    hide DenseEntry, Driven, Predicted, Symmetric;
    next := new real[N, N]((i, j) => 0.0);
    WriteAttitude(next, x, p);
    WriteAbove(next, x, p, lim);
    AddProcessNoise(next, noise, lim);
    forall i, j | 0 <= i <= j <= lim ensures next[i, j] == Predicted(x, p, NoiseVec(noise[..]))(i, j) {
      DrivenIs(x, p, NoiseVec(noise[..]), i, j);
    }
  }

  /** The attitude block of the reset branch, mirrored, with its variances limited. */
  method CopyAttitude(a: array2<real>, next: array2<real>)
    requires Square(a) && Square(next) && a != next
    modifies a
    ensures forall r, k | 0 <= r < N && 0 <= k < N ::
              a[r, k] == if r > 3 || k > 3 then old(a[r, k])
                         else if r == k then Clamp(next[r, r], 0.0, 1.0) else if r < k then next[r, k] else next[k, r]
  {
    hide Clamp;
    for row := 0 to 4
      invariant forall r, k | 0 <= r < N && 0 <= k < N ::
          a[r, k] == if r >= row || k >= row then old(a[r, k])
                     else if r == k then Clamp(next[r, r], 0.0, 1.0) else if r < k then next[r, k] else next[k, r]
    {
      a[row, row] := Clamp(next[row, row], 0.0, 1.0);
      for col := 0 to row
        invariant forall r, k | 0 <= r < N && 0 <= k < N ::
            a[r, k] == if r > row || k > row || (r == row && col <= k < row) || (k == row && col <= r < row) then old(a[r, k])
                       else if r == k then Clamp(next[r, r], 0.0, 1.0) else if r < k then next[r, k] else next[k, r]
      {
        a[row, col] := next[col, row];
        a[col, row] := next[col, row];
      }
    }
  }

  /** While the position variance is collapsed its rows and columns keep their old values. */
  method HoldPosition(next: array2<real>, a: array2<real>, lim: int)
    requires Square(next) && Square(a) && next != a && 9 <= lim < N
    modifies next
    ensures forall r, k | 0 <= r < N && 0 <= k < N ::
              next[r, k] == if (7 <= r <= 8 && k <= lim) || (7 <= k <= 8 && r <= lim) then a[r, k] else old(next[r, k])
  {
    for i := 7 to 9
      invariant forall r, k | 0 <= r < N && 0 <= k < N ::
          next[r, k] == if (7 <= r < i && k <= lim) || (7 <= k < i && r <= lim) then a[r, k] else old(next[r, k])
    {
      for j := 0 to lim + 1
        invariant forall r, k | 0 <= r < N && 0 <= k < N ::
            next[r, k] == if (7 <= r < i && k <= lim) || (7 <= k < i && r <= lim) || (r == i && k < j) || (k == i && r < j) then a[r, k] else old(next[r, k])
      {
        next[i, j] := a[i, j];
        next[j, i] := a[j, i];
      }
    }
  }

  /** The upper triangle copied back on both sides of the diagonal. */
  method CopyBack(a: array2<real>, next: array2<real>, lim: int)
    requires Square(next) && Square(a) && next != a && 0 <= lim < N
    modifies a
    ensures forall r, k | 0 <= r < N && 0 <= k < N ::
              a[r, k] == if r <= lim && k <= lim then (if r <= k then next[r, k] else next[k, r]) else old(a[r, k])
  {
    for row := 0 to lim + 1
      invariant forall r, k | 0 <= r < N && 0 <= k < N ::
          a[r, k] == if r < row && k < row then (if r <= k then next[r, k] else next[k, r]) else old(a[r, k])
    {
      a[row, row] := next[row, row];
      for col := 0 to row
        invariant forall r, k | 0 <= r < N && 0 <= k < N ::
            a[r, k] == if (r < row && k < row) || (r == row && (k < col || k == row)) || (k == row && r < col)
                       then (if r <= k then next[r, k] else next[k, r]) else old(a[r, k])
      {
        a[row, col] := next[col, row];
        a[col, row] := next[col, row];
      }
    }
  }
}
