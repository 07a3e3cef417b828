/**
 Two parts of the direction cosine matrix estimator: the renormalisation that restores orthogonal
 unit rows, and the gyro bias integrator whose batches are clamped before they are applied.
 */
module DcmEstimator {
  import opened Numeric
  import opened Geometry
  import opened QuaternionAlgebra
  import opened AttitudeControl

  // ---- renormalisation ----

  /** A vector scaled to unit length; none when its length is out of all proportion, or zero. */
  function Renorm(sqrt: real -> real, v: Vector3): Option<Vector3> {
    var length := Length(sqrt, v);
    if length == 0.0 then None
    else
      var renormVal := 1.0 / length;
      if !(renormVal < 2.0 && renormVal > 0.5) && !(renormVal < 1000000.0 && renormVal > 0.000001) then None
      else Some(Scale(v, renormVal))
  }

  /** One row less half the error along the other. */
  function Shifted(a: Vector3, b: Vector3, e: real): Vector3 { Minus(a, Scale(b, 0.5 * e)) }

  /** The corrected rows, or none when a row cannot be scaled and the matrix must be rebuilt from the angles. */
  function Normalised(sqrt: real -> real, m: Matrix3): Option<Matrix3> {
    var e := Dot3(m.a, m.b);
    var t0, t1 := Shifted(m.a, m.b, e), Shifted(m.b, m.a, e);
    var a, b, c := Renorm(sqrt, t0), Renorm(sqrt, t1), Renorm(sqrt, Cross(t0, t1));
    if a.Some? && b.Some? && c.Some? then Some(Matrix3(a.value, b.value, c.value)) else None
  }

  /** The squared length of the new third row before scaling, for unit rows with error `e`. */
  function ThirdRowSquare(e: real): real { Times(1.0 - Sq(e), Sq(4.0 - Sq(e))) / 16.0 }

  lemma DotShift(u: Vector3, v: Vector3, k: real, w: Vector3)
    ensures Dot3(Minus(u, Scale(v, k)), w) == Dot3(u, w) - Times(k, Dot3(v, w))
    ensures Dot3(w, Minus(u, Scale(v, k))) == Dot3(u, w) - Times(k, Dot3(v, w))
  {
    DotShiftScalar(u.x, u.y, u.z, v.x, v.y, v.z, k, w.x, w.y, w.z);
  }

  lemma DotShiftScalar(a: real, b: real, c: real, d: real, e: real, f: real, k: real, x: real, y: real, z: real)
    ensures (a - d * k) * x + (b - e * k) * y + (c - f * k) * z == a * x + b * y + c * z - Times(k, d * x + e * y + f * z)
  {}

  lemma DotSymmetric(u: Vector3, v: Vector3)
    ensures Dot3(u, v) == Dot3(v, u)
  {}

  /** The shifted rows have squared length 1 - 3e²/4 and inner product e³/4. */
  lemma ShiftedRows(a: Vector3, b: Vector3)
    requires UnitVector(a) && UnitVector(b)
    ensures var e := Dot3(a, b); var t0, t1 := Shifted(a, b, e), Shifted(b, a, e);
      && LengthSquared(t0) == LengthSquared(t1) == 1.0 - 0.75 * Sq(e)
      && Dot3(t0, t1) == 0.25 * Times(e, Sq(e))
  {
    hide Dot3, Minus, Scale;
    var e := Dot3(a, b);
    var t0, t1, k := Shifted(a, b, e), Shifted(b, a, e), 0.5 * e;
    DotSymmetric(a, b);
    DotShift(a, b, k, a);
    DotShift(a, b, k, b);
    DotShift(b, a, k, a);
    DotShift(b, a, k, b);
    DotShift(a, b, k, t0);
    DotShift(a, b, k, t1);
    DotShift(b, a, k, t1);
    HalfProducts(e);
  }

  lemma HalfProducts(e: real)
    ensures Times(0.5 * e, e) == 0.5 * Sq(e) && Times(0.5 * e, 1.0) == 0.5 * e
    ensures Times(0.5 * e, e - 0.5 * e) == 0.25 * Sq(e)
    ensures Times(0.5 * e, 1.0 - 0.5 * Sq(e)) == 0.5 * e - 0.25 * Times(e, Sq(e))
  {}

  lemma ThirdRowLength(a: Vector3, b: Vector3)
    requires UnitVector(a) && UnitVector(b)
    ensures var e := Dot3(a, b); LengthSquared(Cross(Shifted(a, b, e), Shifted(b, a, e))) == ThirdRowSquare(e)
  {
    hide Dot3, LengthSquared, Shifted, Cross, UnitVector;
    var e := Dot3(a, b);
    ShiftedRows(a, b);
    CrossSquare(Shifted(a, b, e), Shifted(b, a, e));
    ThirdRowPolynomial(e);
  }

  lemma ThirdRowPolynomial(e: real)
    ensures Times(1.0 - 0.75 * Sq(e), 1.0 - 0.75 * Sq(e)) - Sq(0.25 * Times(e, Sq(e))) == ThirdRowSquare(e)
  {
    ThirdRowScalar(e * e, e * (e * e));
    assert (e * (e * e)) * (e * (e * e)) == (e * e) * (e * e) * (e * e);
  }

  lemma ThirdRowScalar(q: real, c: real)
    requires c * c == q * q * q
    ensures (1.0 - 0.75 * q) * (1.0 - 0.75 * q) - (0.25 * c) * (0.25 * c) == ((1.0 - q) * ((4.0 - q) * (4.0 - q))) / 16.0
  {}

  // ---- scaling ----

  const SMALLEST: real := 0.000000000001
  const LARGEST: real := 1000000000000.0

  lemma SquareOrder(a: real, b: real)
    requires a >= 0.0 && b >= 0.0
    ensures a < b <==> Times(a, a) < Times(b, b)
    ensures a == b <==> Times(a, a) == Times(b, b)
  {
    if a < b {
      SquaresDiffer(a, b);
    } else if b < a {
      SquaresDiffer(b, a);
    }
  }

  lemma ReciprocalBounds(x: real)
    requires x > 0.0
    ensures 1.0 / x < 1000000.0 <==> x > 0.000001
    ensures 1.0 / x > 0.000001 <==> x < 1000000.0
    ensures Times(1.0 / x, x) == 1.0
  {
    var r := 1.0 / x;
    assert r * x == 1.0;
  }

  lemma Thresholds()
    ensures Times(0.000001, 0.000001) == SMALLEST && Times(1000000.0, 1000000.0) == LARGEST && Times(0.0, 0.0) == 0.0
  {}

  /** A vector can be scaled exactly when its length is strictly between a millionth and a million. */
  lemma RenormWorks(sqrt: real -> real, v: Vector3)
    requires IsSquareRoot(sqrt)
    ensures Renorm(sqrt, v).Some? <==> SMALLEST < LengthSquared(v) < LARGEST
    ensures Renorm(sqrt, v).Some? ==> Length(sqrt, v) > 0.0 && Renorm(sqrt, v).value == Scale(v, 1.0 / Length(sqrt, v))
    ensures Renorm(sqrt, v).Some? ==> UnitVector(Renorm(sqrt, v).value)
  {
    hide LengthSquared, Times, Scale, UnitVector, IsSquareRoot, Length;
    var l := Length(sqrt, v);
    LengthLaw(sqrt, v);
    Thresholds();
    SquareOrder(l, 0.0);
    SquareOrder(0.000001, l);
    SquareOrder(l, 1000000.0);
    if l > 0.0 {
      ReciprocalBounds(l);
      ScaleUnit(v, l);
    }
  }

  lemma ScaleUnit(v: Vector3, l: real)
    requires l > 0.0 && Times(l, l) == LengthSquared(v)
    ensures UnitVector(Scale(v, 1.0 / l))
  {
    var r := 1.0 / l;
    assert Times(r, l) == 1.0;
    ScaledDot(v, v, r, r);
    Quartic(r, l);
    hide LengthSquared, Scale, Times;
  }

  lemma Quartic(r: real, l: real)
    requires Times(r, l) == 1.0
    ensures Times(Times(r, r), Times(l, l)) == 1.0
  {
    assert Times(Times(r, r), Times(l, l)) == (r * l) * (r * l);
  }

  lemma ScaledDot(u: Vector3, v: Vector3, r: real, s: real)
    ensures Dot3(Scale(u, r), Scale(v, s)) == Times(Times(r, s), Dot3(u, v))
  {
    ScaledDotScalar(u.x, u.y, u.z, v.x, v.y, v.z, r, s);
  }

  lemma ScaledDotScalar(a: real, b: real, c: real, d: real, e: real, f: real, r: real, s: real)
    ensures (a * r) * (d * s) + (b * r) * (e * s) + (c * r) * (f * s) == Times(Times(r, s), a * d + b * e + c * f)
  {}

  // ---- one step ----

  /** The error after one renormalisation: e³ / (4 - 3e²). */
  predicate NextError(e: real, e': real) { Times(e', 4.0 - 3.0 * Sq(e)) == Times(e, Sq(e)) }

  lemma ErrorAtMostOne(a: Vector3, b: Vector3)
    requires UnitVector(a) && UnitVector(b)
    ensures 0.0 <= Sq(Dot3(a, b)) <= 1.0 && -1.0 <= Dot3(a, b) <= 1.0
  {
    hide Dot3, Cross, LengthSquared;
    CrossLength(a, b);
    LengthSquaredNonNegative(Cross(a, b));
    SquareBound(Dot3(a, b), LengthSquared(Cross(a, b)));
  }

  lemma ThirdRowSmall(e: real)
    requires -1.0 <= e <= 1.0
    ensures ThirdRowSquare(e) <= 1.0
  {
    var q := Sq(e);
    assert 0.0 <= q <= 1.0 by {
      TimesBound(e);
    }
    ThirdRowSmallScalar(q);
  }

  lemma TimesBound(e: real)
    requires -1.0 <= e <= 1.0
    ensures Sq(e) <= 1.0
  {
    TimesNonNegative(1.0 - e, 1.0 + e);
    assert Times(1.0 - e, 1.0 + e) == 1.0 - Sq(e);
  }

  lemma ThirdRowSmallScalar(q: real)
    requires 0.0 <= q <= 1.0
    ensures ((1.0 - q) * ((4.0 - q) * (4.0 - q))) / 16.0 <= 1.0
  {
    var w := Times(4.0 - q, 4.0 - q);
    TimesNonNegative(q, 8.0 - q);
    assert w == 16.0 - Times(q, 8.0 - q);
    TimesNonNegative(4.0 - q, 4.0 - q);
    TimesNonNegative(q, w);
    assert (1.0 - q) * w == w - Times(q, w);
  }

  /**
   For unit rows the matrix is renormalised, rather than rebuilt from the angles, exactly when the
   third row is long enough to scale. Then all rows are unit, the third is orthogonal to the
   others, and the error between the first two is e³ / (4 - 3e²).
   */
  lemma NormaliseRestores(sqrt: real -> real, m: Matrix3)
    requires IsSquareRoot(sqrt) && UnitVector(m.a) && UnitVector(m.b)
    ensures Normalised(sqrt, m).Some? <==> ThirdRowSquare(Dot3(m.a, m.b)) > SMALLEST
    ensures Normalised(sqrt, m).Some? ==>
              var r := Normalised(sqrt, m).value;
              && UnitVector(r.a) && UnitVector(r.b) && UnitVector(r.c)
              && Dot3(r.c, r.a) == 0.0 && Dot3(r.c, r.b) == 0.0
              && NextError(Dot3(m.a, m.b), Dot3(r.a, r.b))
  {
    hide IsSquareRoot, UnitVector, Dot3, LengthSquared, Scale, Shifted, Cross, Length, Renorm, Times;
    var e := Dot3(m.a, m.b);
    var t0, t1 := Shifted(m.a, m.b, e), Shifted(m.b, m.a, e);
    var t2 := Cross(t0, t1);
    ErrorAtMostOne(m.a, m.b);
    ShiftedRows(m.a, m.b);
    ThirdRowLength(m.a, m.b);
    ThirdRowSmall(e);
    RenormWorks(sqrt, t0);
    RenormWorks(sqrt, t1);
    RenormWorks(sqrt, t2);
    if Renorm(sqrt, t2).Some? {
      var k0, k1, k2 := 1.0 / Length(sqrt, t0), 1.0 / Length(sqrt, t1), 1.0 / Length(sqrt, t2);
      LengthSame(sqrt, t0, t1);
      CrossPerpendicular(t0, t1);
      ScaledDot(t2, t0, k2, k0);
      ScaledDot(t2, t1, k2, k1);
      ScaledDot(t0, t1, k0, k1);
      TimesZero(Times(k2, k0));
      LengthLaw(sqrt, t0);
      ErrorQuotient(Length(sqrt, t0), e);
    }
  }

  lemma LengthSame(sqrt: real -> real, u: Vector3, v: Vector3)
    requires LengthSquared(u) == LengthSquared(v)
    ensures Length(sqrt, u) == Length(sqrt, v)
  {}

  lemma ErrorQuotient(l: real, e: real)
    requires l > 0.0 && Times(l, l) == 1.0 - 0.75 * Sq(e)
    ensures NextError(e, Times(Times(1.0 / l, 1.0 / l), 0.25 * Times(e, Sq(e))))
  {
    var r := 1.0 / l;
    assert Times(r, l) == 1.0;
    Quartic(r, l);
    ErrorQuotientScalar(Times(r, r), Times(l, l), Times(e, Sq(e)));
  }

  lemma ErrorQuotientScalar(r2: real, l2: real, c: real)
    requires Times(r2, l2) == 1.0
    ensures Times(Times(r2, 0.25 * c), 4.0 * l2) == c
  {
    assert Times(Times(r2, 0.25 * c), 4.0 * l2) == (r2 * l2) * c;
  }

  lemma RowLengths(c: real, s: real)
    ensures LengthSquared(Vector3(1.0, 0.0, 0.0)) == 1.0 && LengthSquared(Vector3(c, s, 0.0)) == Sq(c) + Sq(s)
    ensures Dot3(Vector3(1.0, 0.0, 0.0), Vector3(c, s, 0.0)) == c
  {
    hide Dot3;
    DotScalars(1.0, 0.0, 0.0, 1.0, 0.0, 0.0);
    DotScalars(c, s, 0.0, c, s, 0.0);
    DotScalars(1.0, 0.0, 0.0, c, s, 0.0);
  }

  lemma DotScalars(a: real, b: real, c: real, d: real, e: real, f: real)
    ensures Dot3(Vector3(a, b, c), Vector3(d, e, f)) == a * d + b * e + c * f
  {}

  lemma ThirdRowAtMost(c: real, s: real)
    requires Sq(c) + Sq(s) == 1.0
    ensures ThirdRowSquare(c) <= Sq(s)
  {
    hide Sq, Times;
    var w := Sq(4.0 - Sq(c));
    SquareIsTimes(4.0 - Sq(c));
    TimesMonotone(4.0 - Sq(c), 4.0, 4.0 - Sq(c), 4.0);
    Sixteen(Sq(s));
    TimesMonotone(Sq(s), Sq(s), w, 16.0);
  }

  lemma Sixteen(x: real)
    ensures Times(4.0, 4.0) == 16.0 && Times(x, 16.0) == 16.0 * x
  {}

  /** Unit rows that are almost parallel, though not parallel, make the third row too short: the matrix is rebuilt. */
  lemma AlmostParallel(sqrt: real -> real, c: real, s: real)
    requires IsSquareRoot(sqrt) && Sq(c) + Sq(s) == 1.0 && Sq(s) <= SMALLEST
    ensures var m := Matrix3(Vector3(1.0, 0.0, 0.0), Vector3(c, s, 0.0), ZERO3);
      UnitVector(m.a) && UnitVector(m.b) && Dot3(m.a, m.b) == c && Normalised(sqrt, m).None?
  {
    hide Normalised, IsSquareRoot, Sq, ThirdRowSquare, LengthSquared, Dot3;
    RowLengths(c, s);
    ThirdRowAtMost(c, s);
    NormaliseRestores(sqrt, Matrix3(Vector3(1.0, 0.0, 0.0), Vector3(c, s, 0.0), ZERO3));
  }

  /** Such rows exist with an error strictly below one. */
  lemma AlmostParallelRebuilds(sqrt: real -> real)
    requires IsSquareRoot(sqrt)
    ensures var k: real := 0.0000001; var d := 1.0 + k * k; var c := (1.0 - k * k) / d;
      var m := Matrix3(Vector3(1.0, 0.0, 0.0), Vector3(c, 2.0 * k / d, 0.0), ZERO3);
      UnitVector(m.a) && UnitVector(m.b) && 0.0 < Dot3(m.a, m.b) < 1.0 && Normalised(sqrt, m).None?
  {
    hide Normalised, IsSquareRoot, UnitVector, Dot3;
    var k: real := 0.0000001;
    var d := 1.0 + k * k;
    AlmostParallel(sqrt, (1.0 - k * k) / d, 2.0 * k / d);
  }

  /** The error shrinks at least to its cube in size. */
  lemma ErrorCubes(e: real, e': real)
    requires -1.0 <= e <= 1.0 && NextError(e, e')
    ensures Abs(e') <= Times(Abs(e), Sq(e)) <= Abs(e)
  {
    hide Sq;
    TimesBound(e);
    var d, c := 4.0 - 3.0 * Sq(e), Times(e, Sq(e));
    CubeSize(e);
    DivisorShrinks(e', d, c);
  }

  lemma CubeSize(e: real)
    requires Sq(e) <= 1.0
    ensures Abs(Times(e, Sq(e))) == Times(Abs(e), Sq(e)) <= Abs(e)
  {
    hide Sq;
    TimesNonNegative(Abs(e), 1.0 - Sq(e));
    TimesNonNegative(Abs(e), Sq(e));
    CubeSign(e, Sq(e));
  }

  lemma CubeSign(e: real, q: real)
    ensures Times(Abs(e), q) == if e < 0.0 then -Times(e, q) else Times(e, q)
    ensures Times(Abs(e), 1.0 - q) == Abs(e) - Times(Abs(e), q)
  {}

  lemma DivisorShrinks(x: real, d: real, c: real)
    requires d >= 1.0 && Times(x, d) == c
    ensures Abs(x) <= Abs(c)
  {
    if x >= 0.0 {
      TimesNonNegative(x, d - 1.0);
      assert Times(x, d - 1.0) == Times(x, d) - x;
    } else {
      TimesNonNegative(-x, d - 1.0);
      assert Times(-x, d - 1.0) == x - Times(x, d);
    }
  }

  // ---- repeated renormalisation ----

  function NormalisedTimes(sqrt: real -> real, m: Matrix3, n: nat): Option<Matrix3>
    decreases n
  {
    if n == 0 then Some(m)
    else
      var next := Normalised(sqrt, m);
      if next.None? then None else NormalisedTimes(sqrt, next.value, n - 1)
  }

  /** `|e| (e²)ⁿ` */
  function Decay(e: real, n: nat): real { if n == 0 then Abs(e) else Times(Decay(e, n - 1), Sq(e)) }

  lemma ThirdRowGrows(e: real, e': real)
    requires -1.0 <= e <= 1.0 && Abs(e') <= Abs(e)
    ensures ThirdRowSquare(e') >= ThirdRowSquare(e)
  {
    TimesBound(e);
    AbsSquare(e);
    AbsSquare(e');
    var q, q' := Sq(e), Sq(e');
    assert q' <= q by {
      SquareOrder(Abs(e'), Abs(e));
    }
    hide Sq;
    TimesMonotone(4.0 - q, 4.0 - q', 4.0 - q, 4.0 - q');
    TimesNonNegative(4.0 - q, 4.0 - q);
    TimesMonotone(1.0 - q, 1.0 - q', Times(4.0 - q, 4.0 - q), Times(4.0 - q', 4.0 - q'));
    assert Sq(4.0 - q) == Times(4.0 - q, 4.0 - q) by {
      SquareIsTimes(4.0 - q);
    }
    assert Sq(4.0 - q') == Times(4.0 - q', 4.0 - q') by {
      SquareIsTimes(4.0 - q');
    }
  }

  lemma AbsSquare(e: real)
    ensures Times(Abs(e), Abs(e)) == Sq(e)
  {}

  lemma TimesMonotone(a: real, a': real, b: real, b': real)
    requires 0.0 <= a <= a' && 0.0 <= b <= b'
    ensures Times(a, b) <= Times(a', b')
  {
    TimesNonNegative(a' - a, b');
    TimesNonNegative(a, b' - b);
    assert Times(a' - a, b') == Times(a', b') - Times(a, b');
    assert Times(a, b' - b) == Times(a, b') - Times(a, b);
  }

  lemma {:induction false} DecayNonNegative(e: real, n: nat)
    ensures Decay(e, n) >= 0.0
  {
    if n > 0 {
      DecayNonNegative(e, n - 1);
      TimesNonNegative(Decay(e, n - 1), Sq(e));
    }
  }

  lemma {:induction false} DecayMonotone(e: real, e': real, n: nat)
    requires -1.0 <= e <= 1.0 && Abs(e') <= Times(Abs(e), Sq(e)) <= Abs(e)
    ensures Decay(e', n) <= Decay(e, n + 1)
  {
    if n > 0 {
      DecayMonotone(e, e', n - 1);
      DecayNonNegative(e', n - 1);
      AbsSquare(e);
      AbsSquare(e');
      SquareOrder(Abs(e'), Abs(e));
      TimesMonotone(Decay(e', n - 1), Decay(e, n), Sq(e'), Sq(e));
    }
  }

  /** Once the rows are unit and the third is long enough, every later step works, and after n steps the error is at most |e| (e²)ⁿ. */
  lemma {:induction false} RepeatedNormalise(sqrt: real -> real, m: Matrix3, n: nat)
    requires IsSquareRoot(sqrt) && UnitVector(m.a) && UnitVector(m.b) && ThirdRowSquare(Dot3(m.a, m.b)) > SMALLEST
    ensures var r := NormalisedTimes(sqrt, m, n);
      r.Some? && UnitVector(r.value.a) && UnitVector(r.value.b) && Abs(Dot3(r.value.a, r.value.b)) <= Decay(Dot3(m.a, m.b), n)
    decreases n
  {
    hide IsSquareRoot, UnitVector, Dot3, Normalised, ThirdRowSquare, NextError, Decay, Times, Sq;
    if n == 0 {
      DecayStart(Dot3(m.a, m.b));
    } else {
      var e := Dot3(m.a, m.b);
      NormaliseRestores(sqrt, m);
      var r := Normalised(sqrt, m).value;
      var e' := Dot3(r.a, r.b);
      ErrorAtMostOne(m.a, m.b);
      ErrorCubes(e, e');
      ThirdRowGrows(e, e');
      RepeatedNormalise(sqrt, r, n - 1);
      DecayMonotone(e, e', n - 1);
    }
  }

  lemma DecayStart(e: real)
    ensures Decay(e, 0) == Abs(e)
  {}

  /** Bernoulli: powers of a ratio below one fall like 1/n. */
  lemma {:induction false} DecayBound(e: real, n: nat, d: real)
    requires -1.0 <= e <= 1.0 && d >= 0.0 && Times(Sq(e), 1.0 + d) <= 1.0
    ensures Times(Decay(e, n), 1.0 + n as real * d) <= 1.0
  {
    hide Sq;
    DecayNonNegative(e, n);
    if n == 0 {
      assert Times(Decay(e, 0), 1.0 + 0.0 * d) == Abs(e);
    } else {
      var x, q, k := Decay(e, n - 1), Sq(e), (n - 1) as real;
      DecayBound(e, n - 1, d);
      DecayNonNegative(e, n - 1);
      BernoulliStep(x, q, k, d);
      assert n as real == k + 1.0;
    }
  }

  lemma BernoulliStep(x: real, q: real, k: real, d: real)
    requires x >= 0.0 && q >= 0.0 && d >= 0.0 && k >= 0.0
    requires Times(x, 1.0 + k * d) <= 1.0 && Times(q, 1.0 + d) <= 1.0
    ensures Times(Times(x, q), 1.0 + (k + 1.0) * d) <= 1.0
  {
    var u, w := Times(x, 1.0 + k * d), Times(q, 1.0 + d);
    TimesNonNegative(k, d);
    TimesNonNegative(x, 1.0 + k * d);
    TimesNonNegative(q, 1.0 + d);
    TimesMonotone(u, 1.0, w, 1.0);
    TimesNonNegative(x, q);
    TimesNonNegative(Times(k, d), d);
    TimesNonNegative(Times(x, q), Times(Times(k, d), d));
    assert Times(u, w) == Times(Times(x, q), 1.0 + (k + 1.0) * d) + Times(Times(x, q), Times(Times(k, d), d));
  }

  /** Repeated renormalisation drives the error below any bound. */
  lemma ErrorVanishes(e: real, bound: real) returns (n: nat)
    requires -1.0 < e < 1.0 && bound > 0.0
    ensures Decay(e, n) < bound
  {
    TimesPositive(1.0 - e, 1.0 + e);
    assert Times(1.0 - e, 1.0 + e) == 1.0 - Sq(e);
    var q := Sq(e);
    hide Sq;
    var d := 1.0 - q;
    assert Times(q, 1.0 + d) <= 1.0 by {
      TimesNonNegative(d, d);
      assert Times(q, 1.0 + d) == 1.0 - Times(d, d);
    }
    TimesPositive(bound, d);
    var steps := Reciprocal(Times(bound, d));
    n := steps.Floor + 1;
    DecayBound(e, n, d);
    DecayNonNegative(e, n);
    if Decay(e, n) >= bound {
      Exceeds(Decay(e, n), bound, n as real, d, steps);
      assert false;
    }
  }

  function Reciprocal(x: real): (r: real)
    requires x > 0.0
    ensures r > 0.0 && Times(r, x) == 1.0
  {
    ReciprocalBounds(x);
    1.0 / x
  }

  lemma Exceeds(x: real, bound: real, k: real, d: real, steps: real)
    requires x >= bound > 0.0 && d > 0.0 && k > steps > 0.0 && Times(steps, Times(bound, d)) == 1.0
    ensures Times(x, 1.0 + k * d) > 1.0
  {
    TimesNonNegative(k, d);
    TimesMonotone(bound, x, 1.0 + k * d, 1.0 + k * d);
    TimesPositive(bound, d);
    TimesPositive(k - steps, Times(bound, d));
    assert Times(bound, 1.0 + k * d) == bound + Times(k, Times(bound, d));
    assert Times(k - steps, Times(bound, d)) == Times(k, Times(bound, d)) - Times(steps, Times(bound, d));
  }

  // ---- the matrix rebuilt from angles ----

  /** One coordinate pair turned through the roll. */
  function Across(s: real, c: real, x: real, y: real): real { s * x - c * y }

  function Along(s: real, c: real, x: real, y: real): real { c * x + s * y }

  /** A row given before the roll. */
  function RolledRow(s: real, c: real, u: Vector3): Vector3 { Vector3(u.x, Across(s, c, u.y, u.z), Along(s, c, u.y, u.z)) }

  /** The rows before the roll. */
  function PitchedRows(sp: real, cp: real, sy: real, cy: real): Matrix3 {
    Matrix3(Vector3(Times(cp, cy), Times(sp, cy), sy), Vector3(Times(cp, sy), Times(sp, sy), -cy), Vector3(-sp, cp, 0.0))
  }

  /** `from_euler`: roll about x, then pitch about y, then yaw about z. */
  function FromEuler(m: Maths, roll: real, pitch: real, yaw: real): Matrix3 {
    var s, c, rows := m.sin(roll), m.cos(roll), PitchedRows(m.sin(pitch), m.cos(pitch), m.sin(yaw), m.cos(yaw));
    Matrix3(RolledRow(s, c, rows.a), RolledRow(s, c, rows.b), RolledRow(s, c, rows.c))
  }

  /** The angles held from the last matrix; a NaN is no angle. */
  datatype Angles = Angles(roll: Option<real>, pitch: Option<real>, yaw: Option<real>)

  /** A reset may rebuild from the angles it holds. */
  predicate Recoverable(recover: bool, held: Angles) { recover && held.roll.Some? && held.pitch.Some? && held.yaw.Some? }

  /** Length of the part across the nose. */
  function AcrossLength(m: Maths, v: Vector3): real { m.sqrt(v.y * v.y + v.z * v.z) }

  /** Roll and pitch of an acceleration; level when it is too small to trust. */
  function LevelAngles(m: Maths, initial: Vector3): (real, real) {
    if Length(m.sqrt, initial) > 5.0 then
      (m.atan2(-initial.y, -initial.z), m.atan2(initial.x, AcrossLength(m, initial)))
    else (0.0, 0.0)
  }

  function RestartMatrix(m: Maths, initial: Vector3, recover: bool, held: Angles): Matrix3 {
    if Recoverable(recover, held) then FromEuler(m, held.roll.value, held.pitch.value, held.yaw.value)
    else FromEuler(m, LevelAngles(m, initial).0, LevelAngles(m, initial).1, 0.0)
  }

  function RestartAngles(m: Maths, initial: Vector3, recover: bool, held: Angles): Angles {
    if Recoverable(recover, held) then held
    else held.(roll := Some(LevelAngles(m, initial).0), pitch := Some(LevelAngles(m, initial).1))
  }

  ghost predicate UnitRows(d: Matrix3) { UnitVector(d.a) && UnitVector(d.b) && UnitVector(d.c) }

  ghost predicate Orthonormal(d: Matrix3) {
    UnitRows(d) && Dot3(d.a, d.b) == 0.0 && Dot3(d.a, d.c) == 0.0 && Dot3(d.b, d.c) == 0.0
  }

  lemma RolledPair(s: real, c: real, x: real, y: real, z: real, w: real)
    requires Sq(s) + Sq(c) == 1.0
    ensures Across(s, c, x, y) * Across(s, c, z, w) + Along(s, c, x, y) * Along(s, c, z, w) == x * z + y * w
  {
    SameTimes(Sq(s) + Sq(c), 1.0, x * z + y * w);
    assert Across(s, c, x, y) * Across(s, c, z, w) + Along(s, c, x, y) * Along(s, c, z, w) == Times(Sq(s) + Sq(c), x * z + y * w);
  }

  /** The roll keeps inner products between rows. */
  lemma RolledDot(s: real, c: real, u: Vector3, v: Vector3)
    requires Sq(s) + Sq(c) == 1.0
    ensures Dot3(RolledRow(s, c, u), RolledRow(s, c, v)) == Dot3(u, v)
  {
    hide Across, Along;
    RolledPair(s, c, u.y, u.z, v.y, v.z);
  }

  lemma PitchedScalars(sp: real, cp: real, sy: real, cy: real)
    requires Sq(sp) + Sq(cp) == 1.0 && Sq(sy) + Sq(cy) == 1.0
    ensures Times(cp, cy) * Times(cp, cy) + Times(sp, cy) * Times(sp, cy) + sy * sy == 1.0
    ensures Times(cp, sy) * Times(cp, sy) + Times(sp, sy) * Times(sp, sy) + cy * cy == 1.0
    ensures Times(cp, cy) * Times(cp, sy) + Times(sp, cy) * Times(sp, sy) - sy * cy == 0.0
    ensures -(Times(cp, cy) * sp) + Times(sp, cy) * cp == 0.0 && -(Times(cp, sy) * sp) + Times(sp, sy) * cp == 0.0
  {
    SameTimes(Sq(sp) + Sq(cp), 1.0, cy * cy);
    SameTimes(Sq(sp) + Sq(cp), 1.0, sy * sy);
    SameTimes(Sq(sp) + Sq(cp), 1.0, sy * cy);
    assert (cp * cy) * (cp * cy) + (sp * cy) * (sp * cy) == Times(Sq(sp) + Sq(cp), cy * cy);
    assert (cp * sy) * (cp * sy) + (sp * sy) * (sp * sy) == Times(Sq(sp) + Sq(cp), sy * sy);
    assert (cp * cy) * (cp * sy) + (sp * cy) * (sp * sy) == Times(Sq(sp) + Sq(cp), sy * cy);
  }

  lemma PitchedOrthonormal(sp: real, cp: real, sy: real, cy: real)
    requires Sq(sp) + Sq(cp) == 1.0 && Sq(sy) + Sq(cy) == 1.0
    ensures Orthonormal(PitchedRows(sp, cp, sy, cy))
  {
    hide Times;
    PitchedScalars(sp, cp, sy, cy);
  }

  /** A matrix rebuilt from angles is a rotation, whatever the angles. */
  lemma EulerOrthonormal(m: Maths, roll: real, pitch: real, yaw: real)
    requires Lawful(m)
    ensures Orthonormal(FromEuler(m, roll, pitch, yaw))
  {
    hide RolledRow, Dot3, PitchedRows, Sq, HalfAngleLaw, ArcCosineLaw, IsSquareRoot;
    var sr, cr := m.sin(roll), m.cos(roll);
    assert CircleLaw(m, roll) && CircleLaw(m, pitch) && CircleLaw(m, yaw);
    var p := PitchedRows(m.sin(pitch), m.cos(pitch), m.sin(yaw), m.cos(yaw));
    PitchedOrthonormal(m.sin(pitch), m.cos(pitch), m.sin(yaw), m.cos(yaw));
    RolledDot(sr, cr, p.a, p.a);
    RolledDot(sr, cr, p.b, p.b);
    RolledDot(sr, cr, p.c, p.c);
    RolledDot(sr, cr, p.a, p.b);
    RolledDot(sr, cr, p.a, p.c);
    RolledDot(sr, cr, p.b, p.c);
  }

  /** Whatever the matrix was, renormalising it leaves unit rows, and rebuilding it leaves a rotation. */
  lemma NormalizeLeavesUnitRows(m: Maths, d: Matrix3, initial: Vector3, held: Angles)
    requires Lawful(m)
    ensures var r := Normalised(m.sqrt, d);
      && UnitRows(if r.Some? then r.value else RestartMatrix(m, initial, true, held))
      && (r.None? ==> Orthonormal(RestartMatrix(m, initial, true, held)))
  {
    hide Renorm, UnitVector, FromEuler, Dot3, Cross, Shifted, LevelAngles;
    var e := Dot3(d.a, d.b);
    var t0, t1 := Shifted(d.a, d.b, e), Shifted(d.b, d.a, e);
    RenormWorks(m.sqrt, t0);
    RenormWorks(m.sqrt, t1);
    RenormWorks(m.sqrt, Cross(t0, t1));
    if Recoverable(true, held) {
      EulerOrthonormal(m, held.roll.value, held.pitch.value, held.yaw.value);
    } else {
      EulerOrthonormal(m, LevelAngles(m, initial).0, LevelAngles(m, initial).1, 0.0);
    }
  }

  // ---- the gyro bias integrator ----

  const KI: real := 0.0087
  const SPIN_RATE_LIMIT: real := 20.0 * 0.017453292519943295
  const BATCH_TIME: real := 5.0

  datatype Bias = Bias(omegaI: Vector3, sumX: real, sumY: real, sumTime: real, raDeltat: real)

  /** What one drift correction does to the bias: nothing; nothing but perhaps a rebuilt matrix; or an error to integrate. */
  datatype Outcome =
    | Skipped
    | Failed(rebuilt: bool)
    | Corrected(error: Vector3, spinRate: real)

  datatype Event =
    | Accumulate(deltat: real)
    | Correct(outcome: Outcome)
    | Yaw(step: real)
    | Reset
    | ResetGyroDrift

  const FRESH := Bias(ZERO3, 0.0, 0.0, 0.0, 0.0)

  function Contribution(error: real, time: real): real { error * KI * time }

  function Integrated(b: Bias, error: Vector3, spinRate: real): Bias {
    if spinRate < SPIN_RATE_LIMIT then
      b.(sumX := b.sumX + Contribution(error.x, b.raDeltat), sumY := b.sumY + Contribution(error.y, b.raDeltat),
         omegaI := Vector3(b.omegaI.x, b.omegaI.y, b.omegaI.z + Contribution(error.z, b.raDeltat)), sumTime := b.sumTime + b.raDeltat)
    else b
  }

  /** A batch of at least five seconds is clamped and applied. */
  function Flushed(b: Bias, maxDrift: real): Bias {
    if b.sumTime >= BATCH_TIME then
      var limit := Times(maxDrift, b.sumTime);
      b.(omegaI := Vector3(b.omegaI.x + Clamp(b.sumX, -limit, limit), b.omegaI.y + Clamp(b.sumY, -limit, limit), b.omegaI.z),
         sumX := 0.0, sumY := 0.0, sumTime := 0.0)
    else b
  }

  function Step(b: Bias, event: Event, maxDrift: real): Bias {
    match event
    case Accumulate(deltat) => b.(raDeltat := b.raDeltat + deltat)
    case Correct(Skipped) => b
    case Correct(Failed(rebuilt)) => if rebuilt then b.(omegaI := ZERO3) else b
    case Correct(Corrected(error, spinRate)) => Flushed(Integrated(b, error, spinRate), maxDrift).(raDeltat := 0.0)
    case Yaw(step) => b.(omegaI := b.omegaI.(z := b.omegaI.z + step))
    case Reset => b.(omegaI := ZERO3)
    case ResetGyroDrift => b.(omegaI := ZERO3, sumX := 0.0, sumY := 0.0, sumTime := 0.0)
  }

  function Elapsed(event: Event): real { if event.Accumulate? then event.deltat else 0.0 }

  function Run(events: seq<Event>, maxDrift: real): Bias {
    if events == [] then FRESH else Step(Run(events[..|events| - 1], maxDrift), events[|events| - 1], maxDrift)
  }

  function TotalTime(events: seq<Event>): real {
    if events == [] then 0.0 else TotalTime(events[..|events| - 1]) + Elapsed(events[|events| - 1])
  }

  /**
   An error worth integrating moves the bias its own way: what is applied and what is pending grow together by the error,
   the gain of 0.0087 and the time since the last fix, unless the batch is clamped.
   */
  lemma ErrorIntegrates(b: Bias, error: Vector3, spinRate: real, maxDrift: real)
    requires spinRate < SPIN_RATE_LIMIT
    ensures var n, t := Step(b, Correct(Corrected(error, spinRate)), maxDrift), b.raDeltat;
      var x, y := b.sumX + error.x * 0.0087 * t, b.sumY + error.y * 0.0087 * t;
      && n.omegaI.z == b.omegaI.z + error.z * 0.0087 * t && n.raDeltat == 0.0
      && (b.sumTime + t < BATCH_TIME ==> n.omegaI.x == b.omegaI.x && n.omegaI.y == b.omegaI.y && n.sumX == x && n.sumY == y && n.sumTime == b.sumTime + t)
      && (b.sumTime + t >= BATCH_TIME && Abs(x) <= Times(maxDrift, b.sumTime + t) ==> n.omegaI.x == b.omegaI.x + x && n.sumX == 0.0)
      && (b.sumTime + t >= BATCH_TIME && Abs(y) <= Times(maxDrift, b.sumTime + t) ==> n.omegaI.y == b.omegaI.y + y && n.sumY == 0.0)
  {
    hide Times;
  }

  /** Time integrated but not yet applied; the bias is bounded by the rest. */
  ghost predicate Bounded(b: Bias, total: real, maxDrift: real) {
    && b.sumTime >= 0.0 && b.raDeltat >= 0.0 && b.sumTime + b.raDeltat <= total
    && Abs(b.omegaI.x) <= Times(maxDrift, total - b.sumTime - b.raDeltat)
    && Abs(b.omegaI.y) <= Times(maxDrift, total - b.sumTime - b.raDeltat)
  }

  lemma StepBounded(b: Bias, event: Event, total: real, maxDrift: real)
    requires maxDrift >= 0.0 && Elapsed(event) >= 0.0 && Bounded(b, total, maxDrift)
    ensures Bounded(Step(b, event, maxDrift), total + Elapsed(event), maxDrift)
  {
    hide Times;
    var free := total - b.sumTime - b.raDeltat;
    TimesNonNegative(maxDrift, free);
    match event
    case Accumulate(deltat) => TimesNonNegative(maxDrift, deltat);
    case Correct(Skipped) =>
    case Correct(Failed(rebuilt)) =>
    case Correct(Corrected(error, spinRate)) =>
      var i := Integrated(b, error, spinRate);
      TimesMonotone(maxDrift, maxDrift, free, total - i.sumTime);
      TimesNonNegative(maxDrift, i.sumTime);
      TimesSplit(maxDrift, total - i.sumTime, i.sumTime);
    case Yaw(step) =>
    case Reset =>
    case ResetGyroDrift => TimesMonotone(maxDrift, maxDrift, free, total - b.raDeltat);
  }

  lemma TimesSplit(d: real, a: real, b: real)
    ensures Times(d, a) + Times(d, b) == Times(d, a + b)
  {}

  /** After any run from a fresh estimator the horizontal bias is at most the drift rate times the time integrated. */
  lemma {:induction false} BiasWithinDrift(events: seq<Event>, maxDrift: real)
    requires maxDrift >= 0.0 && forall k | 0 <= k < |events| :: Elapsed(events[k]) >= 0.0
    ensures Bounded(Run(events, maxDrift), TotalTime(events), maxDrift)
    ensures var b := Run(events, maxDrift);
      Abs(b.omegaI.x) <= Times(maxDrift, TotalTime(events)) && Abs(b.omegaI.y) <= Times(maxDrift, TotalTime(events))
  {
    hide Times, Step;
    if events == [] {
      TimesZero(maxDrift);
    } else {
      var n := |events| - 1;
      BiasWithinDrift(events[..n], maxDrift);
      StepBounded(Run(events[..n], maxDrift), events[n], TotalTime(events[..n]), maxDrift);
      var b, total := Run(events, maxDrift), TotalTime(events);
      TimesMonotone(maxDrift, maxDrift, total - b.sumTime - b.raDeltat, total);
    }
  }

  lemma SharpValues(maxDrift: real)
    requires 0.0 <= maxDrift <= 0.01
    ensures Contribution(10.0, 5.0) == 0.435 && Contribution(0.0, 5.0) == 0.0
    ensures 0.0 <= Times(maxDrift, 5.0) <= 0.05
  {}

  lemma SharpStep(maxDrift: real)
    requires 0.0 <= maxDrift <= 0.01
    ensures Step(FRESH.(raDeltat := 5.0), Correct(Corrected(Vector3(10.0, 0.0, 0.0), 0.0)), maxDrift).omegaI.x == Times(maxDrift, 5.0)
  {
    hide Contribution, Times;
    SharpValues(maxDrift);
  }

  /** The bound is met: one batch of five seconds with a large error reaches it exactly. */
  lemma BoundIsSharp(maxDrift: real)
    requires 0.0 <= maxDrift <= 0.01
    ensures var events := [Accumulate(5.0), Correct(Corrected(Vector3(10.0, 0.0, 0.0), 0.0))];
      Run(events, maxDrift).omegaI.x == Times(maxDrift, TotalTime(events))
  {
    hide Contribution, Times, Flushed, Integrated;
    var events := [Accumulate(5.0), Correct(Corrected(Vector3(10.0, 0.0, 0.0), 0.0))];
    assert events[..1] == [Accumulate(5.0)] && events[..1][..0] == [];
    assert Run(events[..1], maxDrift) == FRESH.(raDeltat := 5.0);
    assert TotalTime(events[..1]) == 5.0;
    SharpStep(maxDrift);
  }

  // ---- the estimator as an object ----

  datatype AccelReading = AccelReading(accel: Vector3, deltaVelocity: Vector3, deltaVelocityDt: real)

  /** What one reading adds to the earth-frame sum between GPS fixes. */
  function EarthSum(d: Matrix3, sample: AccelReading, deltat: real): Vector3 {
    if sample.deltaVelocityDt > 0.0 then Scale(Image(d, Divide(sample.deltaVelocity, sample.deltaVelocityDt)), deltat) else ZERO3
  }

  /** A steady acceleration adds its earth-frame value times the time. */
  lemma SteadyAcceleration(d: Matrix3, a: Vector3, dv: real, deltat: real)
    requires dv > 0.0
    ensures EarthSum(d, AccelReading(a, Scale(a, dv), dv), deltat) == Scale(Image(d, a), deltat)
  {
    hide Image;
    MeanOf(a.x, dv);
    MeanOf(a.y, dv);
    MeanOf(a.z, dv);
    assert Divide(Scale(a, dv), dv) == a;
  }

  lemma MeanOf(a: real, dv: real)
    requires dv > 0.0
    ensures a * dv / dv == a
  {}

  class AhrsDcm {
    const maths: Maths
    var dcmMatrix: Matrix3
    var held: Angles
    var omega: Vector3
    var omegaP: Vector3
    var omegaYawP: Vector3
    var omegaI: Vector3
    var omegaISumX: real
    var omegaISumY: real
    var omegaISumTime: real
    var raSum: Vector3
    var raDeltat: real
    var accelEf: Vector3
    var lastAccelX: real
    var lastInitialAccel: Vector3

    constructor (maths: Maths)
      ensures this.maths == maths && BiasOf() == FRESH && held == Angles(Some(0.0), Some(0.0), Some(0.0))
      ensures dcmMatrix == Matrix3(Vector3(1.0, 0.0, 0.0), Vector3(0.0, 1.0, 0.0), Vector3(0.0, 0.0, 1.0))
      ensures omega == omegaP == omegaYawP == raSum == accelEf == lastInitialAccel == ZERO3 && lastAccelX == 0.0
    {
      this.maths := maths;
      dcmMatrix := Matrix3(Vector3(1.0, 0.0, 0.0), Vector3(0.0, 1.0, 0.0), Vector3(0.0, 0.0, 1.0));
      held := Angles(Some(0.0), Some(0.0), Some(0.0));
      omega, omegaP, omegaYawP, omegaI := ZERO3, ZERO3, ZERO3, ZERO3;
      omegaISumX, omegaISumY, omegaISumTime, raDeltat := 0.0, 0.0, 0.0, 0.0;
      raSum, accelEf, lastInitialAccel, lastAccelX := ZERO3, ZERO3, ZERO3, 0.0;
    }

    function BiasOf(): Bias
      reads this
    {
      Bias(omegaI, omegaISumX, omegaISumY, omegaISumTime, raDeltat)
    }

    method ResetGyroDrift()
      modifies `omegaI, `omegaISumX, `omegaISumY, `omegaISumTime
      ensures BiasOf() == Step(old(BiasOf()), Event.ResetGyroDrift, 0.0)
    {
      omegaI, omegaISumX, omegaISumY, omegaISumTime := ZERO3, 0.0, 0.0, 0.0;
    }

    /** The rates restart and the matrix is rebuilt from angles; the pending batch survives. */
    method Reset(initial: Vector3, recover: bool)
      modifies `omegaI, `omegaP, `omegaYawP, `omega, `lastInitialAccel, `held, `dcmMatrix
      ensures BiasOf() == Step(old(BiasOf()), Event.Reset, 0.0) && omegaP == omegaYawP == omega == ZERO3 && lastInitialAccel == initial
      ensures dcmMatrix == RestartMatrix(maths, initial, recover, old(held)) && held == RestartAngles(maths, initial, recover, old(held))
    {
      hide FromEuler, Length, AcrossLength;
      omegaI, omegaP, omegaYawP, omega := ZERO3, ZERO3, ZERO3, ZERO3;
      lastInitialAccel := initial;
      if recover && held.roll.Some? && held.pitch.Some? && held.yaw.Some? {
        dcmMatrix := FromEuler(maths, held.roll.value, held.pitch.value, held.yaw.value);
        return;
      }
      if Length(maths.sqrt, initial) > 5.0 {
        held := held.(pitch := Some(maths.atan2(initial.x, AcrossLength(maths, initial))));
        held := held.(roll := Some(maths.atan2(-initial.y, -initial.z)));
      } else {
        held := held.(roll := Some(0.0));
        held := held.(pitch := Some(0.0));
      }
      dcmMatrix := FromEuler(maths, held.roll.value, held.pitch.value, 0.0);
    }

    method RenormRow(v: Vector3) returns (ok: bool, result: Vector3)
      ensures ok <==> Renorm(maths.sqrt, v).Some?
      ensures ok ==> result == Renorm(maths.sqrt, v).value
    {
      var length := Length(maths.sqrt, v);
      if length == 0.0 {
        return false, v;
      }
      var renormVal := 1.0 / length;
      if !(renormVal < 2.0 && renormVal > 0.5) {
        if !(renormVal < 1000000.0 && renormVal > 0.000001) {
          return false, v;
        }
      }
      return true, Scale(v, renormVal);
    }

    method Normalize()
      modifies `omegaI, `omegaP, `omegaYawP, `omega, `lastInitialAccel, `held, `dcmMatrix
      ensures var r := Normalised(maths.sqrt, old(dcmMatrix));
        if r.Some? then
          && dcmMatrix == r.value && BiasOf() == old(BiasOf()) && held == old(held)
          && omega == old(omega) && omegaP == old(omegaP) && omegaYawP == old(omegaYawP)
        else
          && dcmMatrix == RestartMatrix(maths, lastInitialAccel, true, old(held)) && held == RestartAngles(maths, lastInitialAccel, true, old(held))
          && BiasOf() == Step(old(BiasOf()), Event.Reset, 0.0) && omegaP == omegaYawP == omega == ZERO3
      ensures lastInitialAccel == old(lastInitialAccel)
    {
      hide Renorm, Shifted, Cross, Dot3, RestartMatrix, RestartAngles;
      var error := Dot3(dcmMatrix.a, dcmMatrix.b);
      var t0, t1 := Shifted(dcmMatrix.a, dcmMatrix.b, error), Shifted(dcmMatrix.b, dcmMatrix.a, error);
      var t2 := Cross(t0, t1);
      var okA, a := RenormRow(t0);
      if okA {
        dcmMatrix := dcmMatrix.(a := a);
        var okB, b := RenormRow(t1);
        if okB {
          dcmMatrix := dcmMatrix.(b := b);
          var okC, c := RenormRow(t2);
          if okC {
            dcmMatrix := dcmMatrix.(c := c);
            return;
          }
        }
      }
      Reset(lastInitialAccel, true);
    }

    method AccumulateAccel(sample: AccelReading, deltat: real)
      modifies `raSum, `accelEf, `lastAccelX, `raDeltat
      ensures BiasOf() == Step(old(BiasOf()), Accumulate(deltat), 0.0)
      ensures raSum == Add(old(raSum), EarthSum(dcmMatrix, sample, deltat))
      ensures accelEf == Image(dcmMatrix, sample.accel) && lastAccelX == sample.accel.x
    {
      hide Image, Divide;
      if sample.deltaVelocityDt > 0.0 {
        var body := Divide(sample.deltaVelocity, sample.deltaVelocityDt);
        raSum := Add(raSum, Scale(Image(dcmMatrix, body), deltat));
      }
      accelEf := Image(dcmMatrix, sample.accel);
      lastAccelX := sample.accel.x;
      raDeltat := raDeltat + deltat;
    }

    /** The integrator at the end of `drift_correction_accel`, for an error already formed. */
    method IntegrateError(error: Vector3, spinRate: real, maxDrift: real)
      modifies `omegaI, `omegaISumX, `omegaISumY, `omegaISumTime, `raSum, `raDeltat
      ensures BiasOf() == Step(old(BiasOf()), Correct(Corrected(error, spinRate)), maxDrift) && raSum == ZERO3
    {
      hide Contribution, Times, Clamp;
      if spinRate < SPIN_RATE_LIMIT {
        omegaISumX := omegaISumX + Contribution(error.x, raDeltat);
        omegaISumY := omegaISumY + Contribution(error.y, raDeltat);
        omegaI := omegaI.(z := omegaI.z + Contribution(error.z, raDeltat));
        omegaISumTime := omegaISumTime + raDeltat;
      }
      if omegaISumTime >= BATCH_TIME {
        var changeLimit := Times(maxDrift, omegaISumTime);
        omegaISumX := Clamp(omegaISumX, -changeLimit, changeLimit);
        omegaISumY := Clamp(omegaISumY, -changeLimit, changeLimit);
        omegaI := Vector3(omegaI.x + omegaISumX, omegaI.y + omegaISumY, omegaI.z);
        omegaISumX, omegaISumY, omegaISumTime := 0.0, 0.0, 0.0;
      }
      raSum, raDeltat := ZERO3, 0.0;
    }
  }
}
