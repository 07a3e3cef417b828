/** Scalar helpers shared by every component. Real arithmetic stands for the floating point of the source. */
module Numeric {

  datatype Option<T> = None | Some(value: T)

  const FLT_EPSILON: real := 1.0 / 8388608.0

  function Sq(a: real): (r: real)
    ensures r >= 0.0
  {
    a * a
  }

  /** A product as a named term, so that proofs can keep it whole. */
  function Times(a: real, b: real): real { a * b }

  /** A product of three as a named term. */
  function Triple(a: real, b: real, c: real): real { a * b * c }

  /** Equal factors, equal products: the step a product of variables does not take by itself. */
  lemma SameTimes(u: real, w: real, x: real)
    requires u == w
    ensures Times(u, x) == Times(w, x) == Times(x, u) == Times(x, w)
  {}

  lemma Swapped(a: real, b: real)
    ensures Times(a, b) == Times(b, a)
  {}

  lemma TimesPositive(a: real, b: real)
    requires a > 0.0 && b > 0.0
    ensures Times(a, b) > 0.0
  {}

  lemma TimesNonNegative(a: real, b: real)
    requires a >= 0.0 && b >= 0.0
    ensures Times(a, b) >= 0.0
  {
    if a > 0.0 && b > 0.0 {
      TimesPositive(a, b);
    }
  }

  lemma SquareNonZero(k: real)
    requires k != 0.0
    ensures Times(k, k) > 0.0
  {
    if k > 0.0 {
      TimesPositive(k, k);
    } else {
      TimesPositive(-k, -k);
      assert Times(-k, -k) == Times(k, k);
    }
  }

  lemma SquareNonNegative(a: real)
    ensures Times(a, a) >= 0.0 && (a == 0.0 ==> Times(a, a) == 0.0)
    ensures Times(a, a) == 0.0 ==> a == 0.0
  {
    if a != 0.0 {
      SquareNonZero(a);
    }
  }

  lemma SquarePositive(a: real)
    requires a > 0.0
    ensures Sq(a) > 0.0
  {
    TimesPositive(a, a);
    assert Sq(a) == Times(a, a);
  }

  lemma SquaresDiffer(a: real, b: real)
    requires 0.0 <= a < b
    ensures Times(a, a) < Times(b, b)
  {
    TimesPositive(b - a, b + a);
    assert Times(b - a, b + a) == Times(b, b) - Times(a, a);
  }

  lemma SquareBounded(v: real, b: real)
    requires -b <= v <= b
    ensures Sq(v) <= Sq(b)
  {
    TimesNonNegative(b - v, b + v);
    assert Times(b - v, b + v) == Sq(b) - Sq(v);
  }

  function Abs(a: real): real { if a < 0.0 then -a else a }

  function Min(a: real, b: real): real { if b < a then b else a }

  function Max(a: real, b: real): real { if a < b then b else a }

  /** `constrain_value`: the lower limit is tested first, so it wins when the limits cross. */
  function Clamp(v: real, lo: real, hi: real): real {
    if v < lo then lo else if v > hi then hi else v
  }

  predicate IsZero(a: real) { Abs(a) < FLT_EPSILON }

  /** The defining law of the square root; the value itself is supplied by the caller. */
  ghost predicate IsSquareRoot(sqrt: real -> real) {
    forall v: real | v >= 0.0 :: sqrt(v) >= 0.0 && sqrt(v) * sqrt(v) == v
  }
}
