/**
 Which matrices the direction cosine estimator holds: after a renormalisation the third row is along
 the cross product of the first two and these are near the ones they replace, so axes are neither
 exchanged nor reversed; a matrix rebuilt from angles is a right-handed rotation from which the angles
 read back; and one rebuilt from an acceleration has the vertical against that acceleration.
 */
module DcmOrientation {
  import opened Numeric
  import opened Geometry
  import opened QuaternionAlgebra
  import opened AttitudeControl
  import opened AttitudeErrors
  import opened DcmEstimator

  // ---- renormalisation ----

  predicate AlongCross(r: Matrix3, k: real) { k > 0.0 && r.c == Scale(Cross(r.a, r.b), k) }

  function Minor(a: real, b: real, c: real, d: real): real { a * b - c * d }

  lemma CrossMinors(u: Vector3, v: Vector3)
    ensures Cross(u, v) == Vector3(Minor(u.y, v.z, u.z, v.y), Minor(u.z, v.x, u.x, v.z), Minor(u.x, v.y, u.y, v.x))
  {}

  lemma ScaledParts(u: Vector3, k: real)
    ensures Scale(u, k) == Vector3(Times(u.x, k), Times(u.y, k), Times(u.z, k))
  {}

  lemma CrossScales(u: Vector3, v: Vector3, k: real, l: real)
    ensures Cross(Scale(u, k), Scale(v, l)) == Scale(Cross(u, v), Times(k, l))
  {
    hide Cross, Scale, Times, Minor;
    ScaledParts(u, k);
    ScaledParts(v, l);
    CrossMinors(u, v);
    CrossMinors(Scale(u, k), Scale(v, l));
    ScaledParts(Cross(u, v), Times(k, l));
    MinorScales(u.y, v.z, u.z, v.y, k, l);
    MinorScales(u.z, v.x, u.x, v.z, k, l);
    MinorScales(u.x, v.y, u.y, v.x, k, l);
  }

  lemma MinorScales(a: real, b: real, c: real, d: real, k: real, l: real)
    ensures Minor(Times(a, k), Times(b, l), Times(c, k), Times(d, l)) == Times(Minor(a, b, c, d), Times(k, l))
  {}

  lemma ScaleTwice(v: Vector3, k: real, l: real, n: real)
    requires Times(l, n) == k
    ensures Scale(Scale(v, l), n) == Scale(v, k)
  {
    hide Scale, Times;
    ScaledParts(v, l);
    ScaledParts(Scale(v, l), n);
    ScaledParts(v, k);
    TimesTwice(v.x, l, n);
    TimesTwice(v.y, l, n);
    TimesTwice(v.z, l, n);
  }

  lemma TimesTwice(x: real, l: real, n: real)
    ensures Times(Times(x, l), n) == Times(x, Times(l, n))
  {}

  /** Whatever a renormalisation returns is right-handed: the third row is a positive multiple of the cross product of the others. */
  lemma NormalisedRightHanded(sqrt: real -> real, m: Matrix3)
    requires IsSquareRoot(sqrt) && Normalised(sqrt, m).Some?
    ensures exists k: real :: AlongCross(Normalised(sqrt, m).value, k)
  {
    hide Renorm, Shifted, Cross, Scale, Length, LengthSquared, IsSquareRoot, Dot3;
    var e, r := Dot3(m.a, m.b), Normalised(sqrt, m).value;
    var t0, t1 := Shifted(m.a, m.b, e), Shifted(m.b, m.a, e);
    RenormWorks(sqrt, t0);
    RenormWorks(sqrt, t1);
    RenormWorks(sqrt, Cross(t0, t1));
    var k, l, n := 1.0 / Length(sqrt, t0), 1.0 / Length(sqrt, t1), 1.0 / Length(sqrt, Cross(t0, t1));
    CrossScales(t0, t1, k, l);
    TimesPositive(k, l);
    var q := n / Times(k, l);
    assert Times(Times(k, l), q) == n;
    assert q > 0.0 by {
      PositiveQuotient(n, Times(k, l));
    }
    ScaleTwice(Cross(t0, t1), n, Times(k, l), q);
    assert AlongCross(r, q);
  }

  lemma PositiveQuotient(a: real, b: real)
    requires a > 0.0 && b > 0.0
    ensures a / b > 0.0
  {}

  lemma DistanceSquared(u: Vector3, v: Vector3)
    requires UnitVector(u) && UnitVector(v)
    ensures LengthSquared(Minus(u, v)) == 2.0 - 2.0 * Dot3(u, v)
  {}

  lemma ScaledInner(t: Vector3, k: real, a: Vector3)
    ensures Dot3(Scale(t, k), a) == Times(Dot3(t, a), k)
  {}

  /** One row: with half the error taken off and scaled to unit length, it is within the error of the row it replaces. */
  lemma RowNear(sqrt: real -> real, a: Vector3, b: Vector3)
    requires IsSquareRoot(sqrt) && UnitVector(a) && UnitVector(b) && Renorm(sqrt, Shifted(a, b, Dot3(a, b))).Some?
    ensures LengthSquared(Minus(Renorm(sqrt, Shifted(a, b, Dot3(a, b))).value, a)) <= Sq(Dot3(a, b))
  {
    hide Renorm, Shifted, Scale, Minus, LengthSquared, Dot3, UnitVector, IsSquareRoot, Length, Times;
    var e := Dot3(a, b);
    var t := Shifted(a, b, e);
    var r, l := Renorm(sqrt, t).value, Length(sqrt, t);
    RenormWorks(sqrt, t);
    ShiftedRows(a, b);
    ErrorAtMostOne(a, b);
    LengthLaw(sqrt, t);
    DistanceSquared(r, a);
    ScaledInner(t, 1.0 / l, a);
    ShiftedInner(a, b);
    NearScalar(Sq(e), l);
  }

  lemma ShiftedInner(a: Vector3, b: Vector3)
    requires UnitVector(a) && UnitVector(b)
    ensures Dot3(Shifted(a, b, Dot3(a, b)), a) == 1.0 - 0.5 * Sq(Dot3(a, b))
  {
    hide Minus, Scale, Dot3;
    var e := Dot3(a, b);
    DotShift(a, b, 0.5 * e, a);
    DotSymmetric(a, b);
    HalfProducts(e);
    SelfInner(a);
  }

  lemma SelfInner(a: Vector3)
    ensures Dot3(a, a) == LengthSquared(a)
  {}

  lemma NearScalar(q: real, l: real)
    requires 0.0 <= q <= 1.0 && l > 0.0 && Times(l, l) == 1.0 - 0.75 * q
    ensures 2.0 - 2.0 * Times(1.0 - 0.5 * q, 1.0 / l) <= q
  {
    AtMostOne(l);
    InverseAtLeastOne(l);
    TimesNonNegative(1.0 - 0.5 * q, 1.0 / l - 1.0);
    assert Times(1.0 - 0.5 * q, 1.0 / l) == 1.0 - 0.5 * q + Times(1.0 - 0.5 * q, 1.0 / l - 1.0);
  }

  lemma AtMostOne(l: real)
    requires l > 0.0 && Times(l, l) <= 1.0
    ensures l <= 1.0
  {
    if l > 1.0 {
      SquaresDiffer(1.0, l);
    }
  }

  lemma InverseAtLeastOne(l: real)
    requires 0.0 < l <= 1.0
    ensures 1.0 / l >= 1.0
  {}

  /** For unit rows the renormalised rows are near those they replace, within the error between these; orthogonal rows stay as they are. */
  lemma NormalisedNear(sqrt: real -> real, m: Matrix3)
    requires IsSquareRoot(sqrt) && UnitVector(m.a) && UnitVector(m.b) && Normalised(sqrt, m).Some?
    ensures var r, e := Normalised(sqrt, m).value, Dot3(m.a, m.b);
      && LengthSquared(Minus(r.a, m.a)) <= Sq(e) && LengthSquared(Minus(r.b, m.b)) <= Sq(e)
      && (e == 0.0 ==> r.a == m.a && r.b == m.b)
  {
    hide Renorm, Shifted, Dot3, UnitVector, IsSquareRoot, LengthSquared, Minus, Cross;
    var r := Normalised(sqrt, m).value;
    DotSymmetric(m.a, m.b);
    RowNear(sqrt, m.a, m.b);
    RowNear(sqrt, m.b, m.a);
    if Dot3(m.a, m.b) == 0.0 {
      NoDistance(r.a, m.a);
      NoDistance(r.b, m.b);
    }
  }

  lemma NoDistance(u: Vector3, v: Vector3)
    ensures LengthSquared(Minus(u, v)) <= 0.0 ==> u == v
  {
    var x, y, z := u.x - v.x, u.y - v.y, u.z - v.z;
    assert LengthSquared(Minus(u, v)) == Times(x, x) + Times(y, y) + Times(z, z);
    SquareNonNegative(x);
    SquareNonNegative(y);
    SquareNonNegative(z);
  }

  // ---- rebuilding from angles ----

  /** The roll is a rotation of the other two coordinates, so it commutes with the cross product. */
  lemma RolledCross(s: real, c: real, u: Vector3, v: Vector3)
    requires Sq(s) + Sq(c) == 1.0
    ensures Cross(RolledRow(s, c, u), RolledRow(s, c, v)) == RolledRow(s, c, Cross(u, v))
  {
    hide Cross, RolledRow;
    RolledCrossOf(s, c, u.x, u.y, u.z, v.x, v.y, v.z);
  }

  lemma RolledCrossOf(s: real, c: real, x: real, y: real, z: real, x': real, y': real, z': real)
    requires Sq(s) + Sq(c) == 1.0
    ensures var u, v := Vector3(x, y, z), Vector3(x', y', z'); Cross(RolledRow(s, c, u), RolledRow(s, c, v)) == RolledRow(s, c, Cross(u, v))
  {
    hide Cross, Across, Along, Sq;
    RolledArea(s, c, y, z, y', z');
    RolledSide(s, c, x, y, z, x', y', z');
    CrossParts(x, y, z, x', y', z');
    CrossParts(x, Across(s, c, y, z), Along(s, c, y, z), x', Across(s, c, y', z'), Along(s, c, y', z'));
  }

  lemma CrossParts(x: real, y: real, z: real, x': real, y': real, z': real)
    ensures Cross(Vector3(x, y, z), Vector3(x', y', z')) == Vector3(y * z' - z * y', z * x' - x * z', x * y' - y * x')
  {}

  lemma RolledArea(s: real, c: real, y: real, z: real, y': real, z': real)
    requires Sq(s) + Sq(c) == 1.0
    ensures Across(s, c, y, z) * Along(s, c, y', z') - Along(s, c, y, z) * Across(s, c, y', z') == y * z' - z * y'
  {
    SameTimes(Sq(s) + Sq(c), 1.0, y * z' - z * y');
    assert Across(s, c, y, z) * Along(s, c, y', z') - Along(s, c, y, z) * Across(s, c, y', z') == Times(Sq(s) + Sq(c), y * z' - z * y');
  }

  lemma RolledSide(s: real, c: real, x: real, y: real, z: real, x': real, y': real, z': real)
    ensures Along(s, c, y, z) * x' - x * Along(s, c, y', z') == Across(s, c, z * x' - x * z', x * y' - y * x')
    ensures x * Across(s, c, y', z') - Across(s, c, y, z) * x' == Along(s, c, z * x' - x * z', x * y' - y * x')
  {}

  lemma PitchedCross(sp: real, cp: real, sy: real, cy: real)
    requires Sq(sp) + Sq(cp) == 1.0 && Sq(sy) + Sq(cy) == 1.0
    ensures var p := PitchedRows(sp, cp, sy, cy); Cross(p.a, p.b) == p.c
  {
    SameTimes(Sq(sy) + Sq(cy), 1.0, sp);
    SameTimes(Sq(sy) + Sq(cy), 1.0, cp);
    assert Times(sp, cy) * -cy - sy * Times(sp, sy) == -Times(Sq(sy) + Sq(cy), sp);
    assert sy * Times(cp, sy) - Times(cp, cy) * -cy == Times(Sq(sy) + Sq(cy), cp);
    assert Times(cp, cy) * Times(sp, sy) - Times(sp, cy) * Times(cp, sy) == 0.0;
  }

  /** A matrix rebuilt from angles is right-handed: with its rows orthonormal, a rotation and no reflection. */
  lemma EulerRightHanded(m: Maths, roll: real, pitch: real, yaw: real)
    requires Lawful(m)
    ensures var d := FromEuler(m, roll, pitch, yaw); Cross(d.a, d.b) == d.c && Orthonormal(d)
  {
    hide Cross, RolledRow, PitchedRows, HalfAngleLaw, ArcCosineLaw, IsSquareRoot, Sq, Orthonormal;
    assert CircleLaw(m, roll) && CircleLaw(m, pitch) && CircleLaw(m, yaw);
    var p := PitchedRows(m.sin(pitch), m.cos(pitch), m.sin(yaw), m.cos(yaw));
    RolledCross(m.sin(roll), m.cos(roll), p.a, p.b);
    PitchedCross(m.sin(pitch), m.cos(pitch), m.sin(yaw), m.cos(yaw));
    EulerOrthonormal(m, roll, pitch, yaw);
  }

  /** `to_euler`: the angles of a matrix, as roll, pitch and yaw. The arc sine is of an entry between -1 and 1. */
  function ToEuler(m: Maths, asin: real -> real, d: Matrix3): (real, real, real) {
    (m.atan2(d.c.y, d.c.z), -asin(d.c.x), m.atan2(d.b.x, d.a.x))
  }

  /** An angle within a half turn either way, which is what the arc tangent returns. */
  predicate WithinHalfTurn(m: Maths, a: real) { m.atan2(m.sin(a), m.cos(a)) == a }

  /** The arc tangent sees the direction only. */
  predicate DirectionLaw(m: Maths, y: real, x: real, k: real) { k > 0.0 ==> m.atan2(Times(y, k), Times(x, k)) == m.atan2(y, x) }

  /** The angles a matrix is rebuilt from read back off it, short of a vertical nose. */
  lemma EulerReadsBack(m: Maths, asin: real -> real, roll: real, pitch: real, yaw: real)
    requires (forall y: real, x: real, k: real :: DirectionLaw(m, y, x, k))
    requires WithinHalfTurn(m, roll) && WithinHalfTurn(m, yaw) && asin(-m.sin(pitch)) == -pitch && m.cos(pitch) > 0.0
    ensures ToEuler(m, asin, FromEuler(m, roll, pitch, yaw)) == (roll, pitch, yaw)
  {
    hide Times;
    var sr, cr, sp, cp, sy, cy := m.sin(roll), m.cos(roll), m.sin(pitch), m.cos(pitch), m.sin(yaw), m.cos(yaw);
    assert DirectionLaw(m, sr, cr, cp) && DirectionLaw(m, sy, cy, cp);
    EulerEntries(m, roll, pitch, yaw);
  }

  /** A reset that recovers rebuilds the matrix whose angles are those held, short of a vertical nose. */
  lemma RecoveryReadsBack(m: Maths, asin: real -> real, initial: Vector3, held: Angles)
    requires (forall y: real, x: real, k: real :: DirectionLaw(m, y, x, k)) && Recoverable(true, held)
    requires WithinHalfTurn(m, held.roll.value) && WithinHalfTurn(m, held.yaw.value)
    requires asin(-m.sin(held.pitch.value)) == -held.pitch.value && m.cos(held.pitch.value) > 0.0
    ensures var (roll, pitch, yaw) := ToEuler(m, asin, RestartMatrix(m, initial, true, held));
      held == Angles(Some(roll), Some(pitch), Some(yaw)) == RestartAngles(m, initial, true, held)
  {
    hide FromEuler, ToEuler;
    EulerReadsBack(m, asin, held.roll.value, held.pitch.value, held.yaw.value);
  }

  lemma EulerEntries(m: Maths, roll: real, pitch: real, yaw: real)
    ensures var d, cp := FromEuler(m, roll, pitch, yaw), m.cos(pitch);
      && d.c.x == -m.sin(pitch) && d.c.y == Times(m.sin(roll), cp) && d.c.z == Times(m.cos(roll), cp)
      && d.b.x == Times(m.sin(yaw), cp) && d.a.x == Times(m.cos(yaw), cp)
  {
    Flat0(m.sin(roll), m.cos(roll), m.cos(pitch));
    hide Times, Across, Along;
    Swapped(m.cos(pitch), m.sin(yaw));
    Swapped(m.cos(pitch), m.cos(yaw));
  }

  lemma Flat0(s: real, c: real, y: real)
    ensures Across(s, c, y, 0.0) == Times(s, y) && Along(s, c, y, 0.0) == Times(c, y)
  {}

  // ---- rebuilding from an acceleration ----

  /** Rebuilt from an acceleration worth trusting, the matrix has its vertical exactly against it. */
  lemma LevelAgainstAcceleration(m: Maths, initial: Vector3, recover: bool, held: Angles)
    requires Lawful(m) && AngleLaws(m) && !Recoverable(recover, held) && Length(m.sqrt, initial) > 5.0
    ensures Scale(RestartMatrix(m, initial, recover, held).c, Length(m.sqrt, initial)) == Vector3(-initial.x, -initial.y, -initial.z)
  {
    hide Lawful, AngleLaws, FromEuler, Length, AcrossLength, Times;
    var l, r := Length(m.sqrt, initial), AcrossLength(m, initial);
    var roll, pitch := LevelAngles(m, initial).0, LevelAngles(m, initial).1;
    AcrossSquared(m, initial);
    ArcAt(m, initial.x, r, l);
    EulerEntries(m, roll, pitch, 0.0);
    if r > 0.0 {
      ArcAt(m, -initial.y, -initial.z, r);
    }
    var sp, cp := m.sin(pitch), m.cos(pitch);
    Leaning(l, r, sp, cp, m.sin(roll), m.cos(roll), initial.x, initial.y, initial.z);
  }

  lemma ArcAt(m: Maths, y: real, x: real, k: real)
    requires AngleLaws(m) && k > 0.0 && Times(y, y) + Times(x, x) == Times(k, k)
    ensures Times(k, m.sin(m.atan2(y, x))) == y && Times(k, m.cos(m.atan2(y, x))) == x
  {
    assert ArcTangentLaw(m, y, x, k);
  }

  lemma AcrossSquared(m: Maths, v: Vector3)
    requires Lawful(m)
    ensures var l, r := Length(m.sqrt, v), AcrossLength(m, v);
      && r >= 0.0 && l >= 0.0
      && Times(v.x, v.x) + Times(r, r) == Times(l, l)
      && Times(-v.y, -v.y) + Times(-v.z, -v.z) == Times(r, r)
      && (r == 0.0 ==> v.y == 0.0 && v.z == 0.0)
  {
    hide Lawful, Length;
    Root(m);
    LengthLaw(m.sqrt, v);
    SquareNonNegative(v.y);
    SquareNonNegative(v.z);
    AcrossRoot(m.sqrt, v.y * v.y + v.z * v.z);
  }

  lemma AcrossRoot(sqrt: real -> real, v: real)
    requires IsSquareRoot(sqrt) && v >= 0.0
    ensures sqrt(v) >= 0.0 && Times(sqrt(v), sqrt(v)) == v
  {}

  lemma Leaning(l: real, r: real, sp: real, cp: real, sr: real, cr: real, x: real, y: real, z: real)
    requires Times(l, sp) == x && Times(l, cp) == r
    requires r != 0.0 ==> Times(r, sr) == -y && Times(r, cr) == -z
    requires r == 0.0 ==> y == 0.0 && z == 0.0
    ensures -sp * l == -x && Times(sr, cp) * l == -y && Times(cr, cp) * l == -z
  {
    SameTimes(Times(l, cp), r, sr);
    SameTimes(Times(l, cp), r, cr);
    assert Times(sr, cp) * l == Times(Times(l, cp), sr) && Times(cr, cp) * l == Times(Times(l, cp), cr);
  }

  /** With too little acceleration to go by, the matrix is level with the nose north: the identity. */
  lemma LevelWithoutAcceleration(m: Maths, initial: Vector3, recover: bool, held: Angles)
    requires m.sin(0.0) == 0.0 && m.cos(0.0) == 1.0 && !Recoverable(recover, held) && Length(m.sqrt, initial) <= 5.0
    ensures RestartMatrix(m, initial, recover, held)
            == Matrix3(Vector3(1.0, 0.0, 0.0), Vector3(0.0, 1.0, 0.0), Vector3(0.0, 0.0, 1.0))
  {
    hide Length;
  }
}
