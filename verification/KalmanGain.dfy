/** The gain and `K H P` loops of the three fusions, over arrays. */
module KalmanGain {
  import opened Numeric
  import opened LinearAlgebra
  import opened EkfModel
  import opened CovarianceArray
  import opened MagFusion
  import opened AirspeedFusion

  /** The gain array holds the gain of the specification. */
  ghost predicate Holds(kfusion: array<real>, k: Vec)
    reads kfusion
  {
    kfusion.Length == N && forall i | 0 <= i < N :: kfusion[i] == k(i)
  }

  /** The product array holds `k hp` up to the index limit. */
  ghost predicate HoldsProduct(khp: array2<real>, k: Vec, hp: Vec, lim: int)
    reads khp
  {
    Square(khp) && forall i, j | 0 <= i <= lim < N && 0 <= j <= lim :: khp[i, j] == Times(k(i), hp(j))
  }

  /** Bit `i` of the mask the magnetometer and airspeed gains test is set for the states in use. */
  method MaskedGain(h: Inhibit, numerator: Vec, sk: real) returns (kfusion: array<real>)
    ensures fresh(kfusion)
    ensures Holds(kfusion, i => if Active(h, i) then Times(sk, numerator(i)) else 0.0)
  {
    hide Times, Active;
    kfusion := new real[N](i => 0.0);
    for i := 0 to N
      invariant forall k | 0 <= k < N :: kfusion[k] == if k < i && Active(h, k) then Times(sk, numerator(k)) else 0.0
    {
      if Active(h, i) {
        kfusion[i] := Times(sk, numerator(i));
      }
    }
  }

  /** One stretch of the gain of a direct observation: column `si` scaled. */
  method GainStretch(kfusion: array<real>, p: array2<real>, si: int, first: int, last: int, sk: real)
    requires kfusion.Length == N && Square(p) && 0 <= si < N && 0 <= first <= last < N
    modifies kfusion
    ensures forall k | 0 <= k < N :: kfusion[k] == if first <= k <= last then Times(p[k, si], sk) else old(kfusion[k])
  {
    for i := first to last + 1
      invariant forall k | 0 <= k < N :: kfusion[k] == if first <= k < i then Times(p[k, si], sk) else old(kfusion[k])
    {
      kfusion[i] := p[i, si] * sk;
    }
  }

  method DirectGainArray(p: array2<real>, h: Inhibit, si: int, sk: real) returns (kfusion: array<real>)
    requires Square(p) && 0 <= si < N
    ensures fresh(kfusion) && kfusion.Length == N
    ensures forall k | 0 <= k < N :: kfusion[k] == if Active(h, k) then Times(p[k, si], sk) else 0.0
  {
    hide Times;
    kfusion := new real[N](i => 0.0);
    GainStretch(kfusion, p, si, 0, 9, sk);
    if !h.delAngBias {
      GainStretch(kfusion, p, si, 10, 12, sk);
    }
    if !h.delVelBias {
      GainStretch(kfusion, p, si, 13, 15, sk);
    }
    if !h.mag {
      GainStretch(kfusion, p, si, 16, 21, sk);
    }
    if !h.wind {
      kfusion[22] := Times(p[22, si], sk);
      kfusion[23] := Times(p[23, si], sk);
    }
  }

  method DirectProducts(p: array2<real>, kfusion: array<real>, si: int, lim: int) returns (khp: array2<real>)
    requires Square(p) && kfusion.Length == N && 0 <= si < N && 0 <= lim < N
    ensures fresh(khp) && Square(khp)
    ensures forall i, j | 0 <= i <= lim && 0 <= j <= lim :: khp[i, j] == Times(kfusion[i], p[si, j])
  {
    hide Times;
    khp := new real[N, N]((i, j) => 0.0);
    for i := 0 to lim + 1
      invariant forall r, k | 0 <= r < i && 0 <= k <= lim :: khp[r, k] == Times(kfusion[r], p[si, k])
    {
      for j := 0 to lim + 1
        invariant forall r, k | 0 <= r <= i && 0 <= k <= lim && (r < i || k < j) :: khp[r, k] == Times(kfusion[r], p[si, k])
      {
        khp[i, j] := Times(kfusion[i], p[si, j]);
      }
    }
  }

  /** Column `j` of the covariance weighted by the nonzero entries of a magnetometer row, times one gain. */
  method MagProduct(k: real, h: MagRow, p: array2<real>, j: int) returns (res: real)
    requires Square(p) && ValidUnit(h) && 0 <= j < N
    ensures res == Times(k, SparseDot(h, ColOf(Fn(Snapshot(p)), j)))
  {
    ghost var v := ColOf(Fn(Snapshot(p)), j);
    res := 0.0;
    res := res + (k * h.h0) * p[0, j];
    res := res + (k * h.h1) * p[1, j];
    res := res + (k * h.h2) * p[2, j];
    res := res + (k * h.h3) * p[3, j];
    res := res + (k * h.h16) * p[16, j];
    res := res + (k * h.h17) * p[17, j];
    res := res + (k * h.h18) * p[18, j];
    res := res + k * p[h.unit, j];
    EightProducts(k, h.h0, h.h1, h.h2, h.h3, h.h16, h.h17, h.h18, p[0, j], p[1, j], p[2, j], p[3, j], p[16, j], p[17, j], p[18, j], p[h.unit, j]);
  }

  lemma EightProducts(k: real, a: real, b: real, c: real, d: real, e: real, f: real, g: real,
                      p: real, q: real, r: real, s: real, t: real, u: real, v: real, w: real)
    ensures (k * a) * p + (k * b) * q + (k * c) * r + (k * d) * s + (k * e) * t + (k * f) * u + (k * g) * v + k * w
            == Times(k, Times(a, p) + Times(b, q) + Times(c, r) + Times(d, s) + Times(e, t) + Times(f, u) + Times(g, v) + w)
  {}

  method MagProducts(p: array2<real>, kfusion: array<real>, h: MagRow, lim: int) returns (khp: array2<real>)
    requires Square(p) && kfusion.Length == N && ValidUnit(h) && 0 <= lim < N
    ensures fresh(khp) && Square(khp)
    ensures forall i, j | 0 <= i <= lim && 0 <= j <= lim :: khp[i, j] == Times(kfusion[i], SparseDot(h, ColOf(Fn(Snapshot(p)), j)))
  {
    hide Times, SparseDot;
    khp := new real[N, N]((i, j) => 0.0);
    ghost var m := Fn(Snapshot(p));
    for i := 0 to lim + 1
      invariant forall r, k | 0 <= r < i && 0 <= k <= lim :: khp[r, k] == Times(kfusion[r], SparseDot(h, ColOf(m, k)))
    {
      for j := 0 to lim + 1
        invariant forall r, k | 0 <= r <= i && 0 <= k <= lim && (r < i || k < j) ::
            khp[r, k] == Times(kfusion[r], SparseDot(h, ColOf(m, k)))
      {
        khp[i, j] := MagProduct(kfusion[i], h, p, j);
      }
    }
  }

  method TasProduct(k: real, g: TasGeometry, p: array2<real>, j: int) returns (res: real)
    requires Square(p) && 0 <= j < N
    ensures res == Times(k, SparseTas(g, ColOf(Fn(Snapshot(p)), j)))
  {
    res := 0.0;
    res := res + (k * g.sh2) * p[4, j];
    res := res + (k * g.sh1) * p[5, j];
    res := res + (k * (g.vd * g.sh0)) * p[6, j];
    res := res + (k * -g.sh2) * p[22, j];
    res := res + (k * -g.sh1) * p[23, j];
    FiveProducts(k, g.sh2, g.sh1, g.vd * g.sh0, -g.sh2, -g.sh1, p[4, j], p[5, j], p[6, j], p[22, j], p[23, j]);
  }

  lemma FiveProducts(k: real, a: real, b: real, c: real, d: real, e: real, p: real, q: real, r: real, s: real, t: real)
    ensures (k * a) * p + (k * b) * q + (k * c) * r + (k * d) * s + (k * e) * t
            == Times(k, Times(a, p) + Times(b, q) + Times(c, r) + Times(d, s) + Times(e, t))
  {}

  method TasProducts(p: array2<real>, kfusion: array<real>, g: TasGeometry, lim: int) returns (khp: array2<real>)
    requires Square(p) && kfusion.Length == N && 0 <= lim < N
    ensures fresh(khp) && Square(khp)
    ensures forall i, j | 0 <= i <= lim && 0 <= j <= lim :: khp[i, j] == Times(kfusion[i], SparseTas(g, ColOf(Fn(Snapshot(p)), j)))
  {
    hide Times, SparseTas;
    khp := new real[N, N]((i, j) => 0.0);
    ghost var m := Fn(Snapshot(p));
    for i := 0 to lim + 1
      invariant forall r, k | 0 <= r < i && 0 <= k <= lim :: khp[r, k] == Times(kfusion[r], SparseTas(g, ColOf(m, k)))
    {
      for j := 0 to lim + 1
        invariant forall r, k | 0 <= r <= i && 0 <= k <= lim && (r < i || k < j) ::
            khp[r, k] == Times(kfusion[r], SparseTas(g, ColOf(m, k)))
      {
        khp[i, j] := TasProduct(kfusion[i], g, p, j);
      }
    }
  }

  /** The correction of every slot. */
  method StateDelta(kfusion: array<real>, innovation: real) returns (delta: seq<real>)
    requires kfusion.Length == N
    ensures |delta| == N && forall k | 0 <= k < N :: delta[k] == Times(kfusion[k], innovation)
  {
    hide Times;
    var buffer := new real[N](i => 0.0);
    for i := 0 to N
      invariant forall k | 0 <= k < i :: buffer[k] == Times(kfusion[k], innovation)
    {
      buffer[i] := Times(kfusion[i], innovation);
    }
    return buffer[..];
  }
}
