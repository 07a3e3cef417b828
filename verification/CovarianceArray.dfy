/** The loops over the covariance array that the estimator's operations share. */
module CovarianceArray {
  import opened Numeric
  import opened LinearAlgebra
  import opened EkfModel

  predicate Square(a: array2<real>) { a.Length0 == N && a.Length1 == N }

  /** The contents of the array. */
  function Snapshot(a: array2<real>): (m: Mat)
    requires Square(a)
    reads a
    ensures Dim(m)
    ensures forall i, j | 0 <= i < N && 0 <= j < N :: At(m, i, j) == a[i, j]
  {
    seq(N, i requires 0 <= i < N reads a => seq(N, j requires 0 <= j < N reads a => a[i, j]))
  }

  lemma SnapshotIs(a: array2<real>, m: Mat)
    requires Square(a) && Dim(m)
    requires forall i, j | 0 <= i < N && 0 <= j < N :: a[i, j] == At(m, i, j)
    ensures Snapshot(a) == m
  {
    SameMat(Snapshot(a), m);
  }

  method ZeroRowCol(a: array2<real>, idx: int)
    requires Square(a) && 0 <= idx < N
    modifies a
    ensures forall i, j | 0 <= i < N && 0 <= j < N :: a[i, j] == if i == idx || j == idx then 0.0 else old(a[i, j])
  {
    for k := 0 to N
      invariant forall i, j | 0 <= i < N && 0 <= j < N ::
          a[i, j] == if (i == idx && j < k) || (j == idx && i < k) then 0.0 else old(a[i, j])
    {
      a[idx, k] := 0.0;
      a[k, idx] := 0.0;
    }
  }

  method ClearRowsCols(a: array2<real>, first: int, last: int)
    requires Square(a) && 0 <= first <= last < N
    modifies a
    ensures Snapshot(a) == ZeroRowsCols(old(Snapshot(a)), first, last)
  {
    for i := first to last + 1
      invariant forall r, k | 0 <= r < N && 0 <= k < N ::
          a[r, k] == if first <= r < i || first <= k < i then 0.0 else old(a[r, k])
    {
      ZeroRowCol(a, i);
    }
    SnapshotIs(a, ZeroRowsCols(old(Snapshot(a)), first, last));
  }

  method LimitVariances(a: array2<real>, first: int, last: int, lo: real, hi: real)
    requires Square(a) && 0 <= first <= last < N
    modifies a
    ensures Snapshot(a) == ClampDiagonal(old(Snapshot(a)), first, last, lo, hi)
  {
    for i := first to last + 1
      invariant forall r, k | 0 <= r < N && 0 <= k < N ::
          a[r, k] == if r == k && first <= r < i then Clamp(old(a[r, k]), lo, hi) else old(a[r, k])
    {
      a[i, i] := Clamp(a[i, i], lo, hi);
    }
    SnapshotIs(a, ClampDiagonal(old(Snapshot(a)), first, last, lo, hi));
  }

  /** The diagonal entries from `first` to `last` set to one value. */
  method SetVariances(a: array2<real>, first: int, last: int, v: real)
    requires Square(a) && 0 <= first <= last < N
    modifies a
    ensures Snapshot(a) == SetDiagonal(old(Snapshot(a)), first, last, v)
  {
    for i := first to last + 1
      invariant forall r, k | 0 <= r < N && 0 <= k < N :: a[r, k] == if r == k && first <= r < i then v else old(a[r, k])
    {
      a[i, i] := v;
    }
    SnapshotIs(a, SetDiagonal(old(Snapshot(a)), first, last, v));
  }

  /** Each pair below and above the diagonal becomes its mean. */
  method ForceSymmetry(a: array2<real>, lim: int)
    requires Square(a) && 0 <= lim < N
    modifies a
    ensures Snapshot(a) == Symmetrised(old(Snapshot(a)), lim)
  {
    ghost var m := Snapshot(a);
    for i := 1 to lim + 1
      invariant forall r, k | 0 <= r < N && 0 <= k < N :: a[r, k] == if r < i && k < i && r != k then Mean(m, r, k) else At(m, r, k)
    {
      for j := 0 to i
        invariant forall r, k | 0 <= r < N && 0 <= k < N ::
            a[r, k] == if (r < i && k < i && r != k) || (r == i && k < j) || (k == i && r < j) then Mean(m, r, k) else At(m, r, k)
      {
        var temp := 0.5 * (a[i, j] + a[j, i]);
        a[i, j] := temp;
        a[j, i] := temp;
      }
    }
    SnapshotIs(a, Symmetrised(m, lim));
  }

  ghost function Mean(m: Mat, i: int, j: int): real { 0.5 * (At(m, i, j) + At(m, j, i)) }

  /** No product on the diagonal exceeds the variance it is to be taken from. */
  method NoneNegative(a: array2<real>, khp: array2<real>, lim: int) returns (healthy: bool)
    requires Square(a) && Square(khp) && 0 <= lim < N
    ensures healthy <==> forall i | 0 <= i <= lim :: khp[i, i] <= a[i, i]
  {
    healthy := true;
    for i := 0 to lim + 1
      invariant healthy <==> forall k | 0 <= k < i :: khp[k, k] <= a[k, k]
    {
      if khp[i, i] > a[i, i] {
        healthy := false;
      }
    }
  }

  method Subtract(a: array2<real>, khp: array2<real>, lim: int)
    requires Square(a) && Square(khp) && a != khp && 0 <= lim < N
    modifies a
    ensures forall i, j | 0 <= i < N && 0 <= j < N :: a[i, j] == if i <= lim && j <= lim then old(a[i, j]) - khp[i, j] else old(a[i, j])
  {
    for i := 0 to lim + 1
      invariant forall r, k | 0 <= r < N && 0 <= k < N :: a[r, k] == if r < i && k <= lim then old(a[r, k]) - khp[r, k] else old(a[r, k])
    {
      for j := 0 to lim + 1
        invariant forall r, k | 0 <= r < N && 0 <= k < N ::
            a[r, k] == if (r < i && k <= lim) || (r == i && k < j) then old(a[r, k]) - khp[r, k] else old(a[r, k])
      {
        a[i, j] := a[i, j] - khp[i, j];
      }
    }
  }

  method Clear(a: array2<real>)
    requires Square(a)
    modifies a
    ensures forall i, j | 0 <= i < N && 0 <= j < N :: a[i, j] == 0.0
  {
    for i := 0 to N
      invariant forall r, k | 0 <= r < i && 0 <= k < N :: a[r, k] == 0.0
    {
      for j := 0 to N
        invariant forall r, k | 0 <= r < N && 0 <= k < N && (r < i || (r == i && k < j)) :: a[r, k] == 0.0
      {
        a[i, j] := 0.0;
      }
    }
  }
}
