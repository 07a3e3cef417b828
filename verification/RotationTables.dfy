/**
 The two rotation tables: the one that permutes and mixes vector components, and the one that gives
 a quaternion. They describe the same rotations.
 */
module RotationTables {
  import opened Numeric
  import opened Geometry
  import opened QuaternionAlgebra

  datatype Rotation =
    | NoTurn | Yaw45 | Yaw90 | Yaw135 | Yaw180 | Yaw225
    | Yaw270 | Yaw315 | Roll180 | Roll180Yaw45 | Roll180Yaw90 | Roll180Yaw135
    | Pitch180 | Roll180Yaw225 | Roll180Yaw270 | Roll180Yaw315 | Roll90 | Roll90Yaw45
    | Roll90Yaw90 | Roll90Yaw135 | Roll270 | Roll270Yaw45 | Roll270Yaw90 | Roll270Yaw135
    | Pitch90 | Pitch270 | Pitch180Yaw90 | Pitch180Yaw270 | Roll90Pitch90 | Roll180Pitch90
    | Roll270Pitch90 | Roll90Pitch180 | Roll270Pitch180 | Roll90Pitch270 | Roll180Pitch270 | Roll270Pitch270
    | Roll90Pitch180Yaw90 | Roll90Yaw270 | Roll90Pitch68Yaw293 | Pitch315 | Roll90Pitch315 | Pitch7
    | Roll45 | Roll315 | Max | CustomOld | Custom1 | Custom2
    | CustomEnd

  /** The square roots the tables abbreviate by decimal constants. */
  datatype Surds = Surds(h: real, s2p: real, s2m: real, shp: real, shm: real)

  /** h = √2 / 2, s2p = √(2 + √2) / 2, s2m = √(2 - √2) / 2, shp = √((2 + √2) / 2) / 2, shm = √((2 - √2) / 2) / 2. */
  predicate Exact(k: Surds) {
    && k.h > 0.0 && k.s2p > 0.0 && k.s2m > 0.0 && k.shp > 0.0 && k.shm > 0.0
    && 2.0 * Times(k.h, k.h) == 1.0
    && 2.0 * Times(k.s2p, k.s2p) == 1.0 + k.h
    && 2.0 * Times(k.s2m, k.s2m) == 1.0 - k.h
    && 4.0 * Times(k.shp, k.shp) == 1.0 + k.h
    && 4.0 * Times(k.shm, k.shm) == 1.0 - k.h
  }

  /** The rotations whose constants are square roots; the other two named ones use rounded sines, the rest are no-ops. */
  predicate Named(r: Rotation) {
    !r.Pitch7? && !r.Roll90Pitch68Yaw293? && !r.Max? && !r.CustomOld? && !r.Custom1? && !r.Custom2? && !r.CustomEnd?
  }

  /** The vector table. */
  function Rotated(k: Surds, v: Vector3, r: Rotation): Vector3 {
    match r
    case NoTurn => Vector3(v.x, v.y, v.z)
    case Yaw45 => Vector3(Times(k.h, v.x - v.y), Times(k.h, v.x + v.y), v.z)
    case Yaw90 => Vector3(-v.y, v.x, v.z)
    case Yaw135 => Vector3(-Times(k.h, v.x + v.y), Times(k.h, v.x - v.y), v.z)
    case Yaw180 => Vector3(-v.x, -v.y, v.z)
    case Yaw225 => Vector3(Times(k.h, v.y - v.x), -Times(k.h, v.x + v.y), v.z)
    case Yaw270 => Vector3(v.y, -v.x, v.z)
    case Yaw315 => Vector3(Times(k.h, v.x + v.y), Times(k.h, v.y - v.x), v.z)
    case Roll180 => Vector3(v.x, -v.y, -v.z)
    case Roll180Yaw45 => Vector3(Times(k.h, v.x + v.y), Times(k.h, v.x - v.y), -v.z)
    case Roll180Yaw90 => Vector3(v.y, v.x, -v.z)
    case Roll180Yaw135 => Vector3(Times(k.h, v.y - v.x), Times(k.h, v.x + v.y), -v.z)
    case Pitch180 => Vector3(-v.x, v.y, -v.z)
    case Roll180Yaw225 => Vector3(-Times(k.h, v.x + v.y), Times(k.h, v.y - v.x), -v.z)
    case Roll180Yaw270 => Vector3(-v.y, -v.x, -v.z)
    case Roll180Yaw315 => Vector3(Times(k.h, v.x - v.y), -Times(k.h, v.x + v.y), -v.z)
    case Roll90 => Vector3(v.x, -v.z, v.y)
    case Roll90Yaw45 => Vector3(Times(k.h, v.x + v.z), Times(k.h, v.x - v.z), v.y)
    case Roll90Yaw90 => Vector3(v.z, v.x, v.y)
    case Roll90Yaw135 => Vector3(-Times(k.h, v.x - v.z), Times(k.h, v.x + v.z), v.y)
    case Roll270 => Vector3(v.x, v.z, -v.y)
    case Roll270Yaw45 => Vector3(Times(k.h, v.x - v.z), Times(k.h, v.x + v.z), -v.y)
    case Roll270Yaw90 => Vector3(-v.z, v.x, -v.y)
    case Roll270Yaw135 => Vector3(-Times(k.h, v.x + v.z), Times(k.h, v.x - v.z), -v.y)
    case Pitch90 => Vector3(v.z, v.y, -v.x)
    case Pitch270 => Vector3(-v.z, v.y, v.x)
    case Pitch180Yaw90 => Vector3(-v.y, -v.x, -v.z)
    case Pitch180Yaw270 => Vector3(v.y, v.x, -v.z)
    case Roll90Pitch90 => Vector3(v.y, -v.z, -v.x)
    case Roll180Pitch90 => Vector3(-v.z, -v.y, -v.x)
    case Roll270Pitch90 => Vector3(-v.y, v.z, -v.x)
    case Roll90Pitch180 => Vector3(-v.x, -v.z, -v.y)
    case Roll270Pitch180 => Vector3(-v.x, v.z, v.y)
    case Roll90Pitch270 => Vector3(-v.y, -v.z, v.x)
    case Roll180Pitch270 => Vector3(v.z, -v.y, v.x)
    case Roll270Pitch270 => Vector3(v.y, v.z, v.x)
    case Roll90Pitch180Yaw90 => Vector3(v.z, -v.x, -v.y)
    case Roll90Yaw270 => Vector3(-v.z, -v.x, v.y)
    case Roll90Pitch68Yaw293 =>
      Vector3(0.14303897231223747232853327204793 * v.x + 0.36877648650320382639478111741482 * v.y
          - 0.91844638134308709265241077446262 * v.z,
              -0.33213277779664740485543461545603 * v.x - 0.85628942146641884303193137384369 * v.y
                  - 0.39554550256296522325882847326284 * v.z,
              -0.93232380121551217122544130688766 * v.x + 0.36162457008209242248497616856184 * v.y
                  + 0.00000000000000002214311861220361 * v.z)
    case Pitch315 => Vector3(Times(k.h, v.x - v.z), v.y, Times(k.h, v.x + v.z))
    case Roll90Pitch315 => Vector3(Times(k.h, v.x - v.y), -v.z, Times(k.h, v.x + v.y))
    case Pitch7 => Vector3(0.99254615164132198312785249072476 * v.x + 0.1218693434051474899781908334262 * v.z, v.y,
                           -0.1218693434051474899781908334262 * v.x + 0.99254615164132198312785249072476 * v.z)
    case Roll45 => Vector3(v.x, Times(k.h, v.y - v.z), Times(k.h, v.y + v.z))
    case Roll315 => Vector3(v.x, Times(k.h, v.y + v.z), Times(k.h, v.z - v.y))
    case _ => v
  }

  /** The quaternion table; the sentinels leave the quaternion alone. */
  function FromRotation(k: Surds, held: Quaternion, r: Rotation): Quaternion {
    match r
    case NoTurn => Quaternion(1.0, 0.0, 0.0, 0.0)
    case Yaw45 => Quaternion(k.s2p, 0.0, 0.0, k.s2m)
    case Yaw90 => Quaternion(k.h, 0.0, 0.0, k.h)
    case Yaw135 => Quaternion(k.s2m, 0.0, 0.0, k.s2p)
    case Yaw180 => Quaternion(0.0, 0.0, 0.0, 1.0)
    case Yaw225 => Quaternion(-k.s2m, 0.0, 0.0, k.s2p)
    case Yaw270 => Quaternion(k.h, 0.0, 0.0, -k.h)
    case Yaw315 => Quaternion(k.s2p, 0.0, 0.0, -k.s2m)
    case Roll180 => Quaternion(0.0, 1.0, 0.0, 0.0)
    case Roll180Yaw45 => Quaternion(0.0, k.s2p, k.s2m, 0.0)
    case Roll180Yaw90 => Quaternion(0.0, k.h, k.h, 0.0)
    case Roll180Yaw135 => Quaternion(0.0, k.s2m, k.s2p, 0.0)
    case Pitch180 => Quaternion(0.0, 0.0, 1.0, 0.0)
    case Roll180Yaw225 => Quaternion(0.0, -k.s2m, k.s2p, 0.0)
    case Roll180Yaw270 => Quaternion(0.0, -k.h, k.h, 0.0)
    case Roll180Yaw315 => Quaternion(0.0, k.s2p, -k.s2m, 0.0)
    case Roll90 => Quaternion(k.h, k.h, 0.0, 0.0)
    case Roll90Yaw45 => Quaternion(k.shp, k.shp, k.shm, k.shm)
    case Roll90Yaw90 => Quaternion(0.5, 0.5, 0.5, 0.5)
    case Roll90Yaw135 => Quaternion(k.shm, k.shm, k.shp, k.shp)
    case Roll270 => Quaternion(k.h, -k.h, 0.0, 0.0)
    case Roll270Yaw45 => Quaternion(k.shp, -k.shp, -k.shm, k.shm)
    case Roll270Yaw90 => Quaternion(0.5, -0.5, -0.5, 0.5)
    case Roll270Yaw135 => Quaternion(k.shm, -k.shm, -k.shp, k.shp)
    case Pitch90 => Quaternion(k.h, 0.0, k.h, 0.0)
    case Pitch270 => Quaternion(k.h, 0.0, -k.h, 0.0)
    case Pitch180Yaw90 => Quaternion(0.0, -k.h, k.h, 0.0)
    case Pitch180Yaw270 => Quaternion(0.0, k.h, k.h, 0.0)
    case Roll90Pitch90 => Quaternion(-0.5, -0.5, -0.5, 0.5)
    case Roll180Pitch90 => Quaternion(0.0, -k.h, 0.0, k.h)
    case Roll270Pitch90 => Quaternion(0.5, -0.5, 0.5, 0.5)
    case Roll90Pitch180 => Quaternion(0.0, 0.0, -k.h, k.h)
    case Roll270Pitch180 => Quaternion(0.0, 0.0, k.h, k.h)
    case Roll90Pitch270 => Quaternion(0.5, 0.5, -0.5, 0.5)
    case Roll180Pitch270 => Quaternion(0.0, k.h, 0.0, k.h)
    case Roll270Pitch270 => Quaternion(-0.5, 0.5, 0.5, 0.5)
    case Roll90Pitch180Yaw90 => Quaternion(-0.5, 0.5, -0.5, 0.5)
    case Roll90Yaw270 => Quaternion(-0.5, -0.5, 0.5, 0.5)
    case Roll90Pitch68Yaw293 => Quaternion(0.26774500501681575137524760066299, 0.70698804688952421315661922562867,
        0.012957683254962659713527273197542, -0.65445596665363614530264158020145)
    case Pitch315 => Quaternion(k.s2p, 0.0, -k.s2m, 0.0)
    case Roll90Pitch315 => Quaternion(k.shp, k.shp, -k.shm, k.shm)
    case Pitch7 => Quaternion(0.99813479842186692003735970502021, 0.0, 0.061048539534856872956769535676358, 0.0)
    case Roll45 => Quaternion(k.s2p, k.s2m, 0.0, 0.0)
    case Roll315 => Quaternion(k.s2p, -k.s2m, 0.0, 0.0)
    case _ => held
  }

  // ---- products of the surds ----

  lemma PositiveRoots(a: real, b: real)
    requires a > 0.0 && b > 0.0 && Times(a, a) == Times(b, b)
    ensures a == b
  {
    if a < b {
      TimesPositive(b - a, b + a);
    } else if b < a {
      TimesPositive(a - b, a + b);
    }
  }

  lemma ProductSquared(a: real, b: real)
    ensures Times(Times(a, b), Times(a, b)) == Times(Times(a, a), Times(b, b))
  {}

  lemma HalfSquared(h: real)
    requires 2.0 * Times(h, h) == 1.0
    ensures Times(0.5 * (1.0 + h), 0.5 * (1.0 - h)) == Times(0.5 * h, 0.5 * h)
    ensures Times(0.25 * (1.0 + h), 0.25 * (1.0 - h)) == Times(0.25 * h, 0.25 * h)
  {}

  lemma MixedProducts(k: Surds)
    requires Exact(k)
    ensures Times(k.s2p, k.s2m) == 0.5 * k.h && Times(k.shp, k.shm) == 0.25 * k.h
  {
    hide Times;
    ProductSquared(k.s2p, k.s2m);
    ProductSquared(k.shp, k.shm);
    assert Times(k.s2p, k.s2p) == 0.5 * (1.0 + k.h) && Times(k.s2m, k.s2m) == 0.5 * (1.0 - k.h);
    assert Times(k.shp, k.shp) == 0.25 * (1.0 + k.h) && Times(k.shm, k.shm) == 0.25 * (1.0 - k.h);
    HalfSquared(k.h);
    TimesPositive(k.s2p, k.s2m);
    TimesPositive(k.shp, k.shm);
    PositiveRoots(Times(k.s2p, k.s2m), 0.5 * k.h);
    PositiveRoots(Times(k.shp, k.shm), 0.25 * k.h);
  }

  /** The products of surds in the single-axis quaternions. */
  lemma SurdProducts(k: Surds)
    requires Exact(k)
    ensures k.h * k.h == 0.5 && k.s2p * k.s2p == 0.5 * (1.0 + k.h) && k.s2m * k.s2m == 0.5 * (1.0
        - k.h) && k.s2p * k.s2m == 0.5 * k.h
  {
    MixedProducts(k);
  }

  /** The products of surds in the quaternions that mix all four slots. */
  lemma MixedSurdProducts(k: Surds)
    requires Exact(k)
    ensures k.shp * k.shp == 0.25 * (1.0 + k.h) && k.shm * k.shm == 0.25 * (1.0 - k.h) && k.shp * k.shm == 0.25 * k.h
  {
    MixedProducts(k);
  }

  // ---- each rotation ----

  lemma AgreeNoTurn(k: Surds, held: Quaternion, v: Vector3)
    requires Exact(k)
    ensures var q := FromRotation(k, held, NoTurn); UnitQuaternion(q) && Rotate(q, v) == Rotated(k, v, NoTurn)
  {
    hide Rotate, Exact;
    var q := Quaternion(1.0, 0.0, 0.0, 0.0);
    RotateIsImage(q, v);
    assert MatrixOf(q) == Matrix3(Vector3(1.0, 0.0, 0.0), Vector3(0.0, 1.0, 0.0), Vector3(0.0, 0.0, 1.0));
  }

  lemma AgreeYaw45(k: Surds, held: Quaternion, v: Vector3)
    requires Exact(k)
    ensures var q := FromRotation(k, held, Yaw45); UnitQuaternion(q) && Rotate(q, v) == Rotated(k, v, Yaw45)
  {
    hide Rotate, Exact;
    SurdProducts(k);
    var q := Quaternion(k.s2p, 0.0, 0.0, k.s2m);
    RotateIsImage(q, v);
    assert MatrixOf(q) == Matrix3(Vector3(k.h, -k.h, 0.0), Vector3(k.h, k.h, 0.0), Vector3(0.0, 0.0, 1.0));
  }

  lemma AgreeYaw90(k: Surds, held: Quaternion, v: Vector3)
    requires Exact(k)
    ensures var q := FromRotation(k, held, Yaw90); UnitQuaternion(q) && Rotate(q, v) == Rotated(k, v, Yaw90)
  {
    hide Rotate, Exact;
    SurdProducts(k);
    var q := Quaternion(k.h, 0.0, 0.0, k.h);
    RotateIsImage(q, v);
    assert MatrixOf(q) == Matrix3(Vector3(0.0, -1.0, 0.0), Vector3(1.0, 0.0, 0.0), Vector3(0.0, 0.0, 1.0));
  }

  lemma AgreeYaw135(k: Surds, held: Quaternion, v: Vector3)
    requires Exact(k)
    ensures var q := FromRotation(k, held, Yaw135); UnitQuaternion(q) && Rotate(q, v) == Rotated(k, v, Yaw135)
  {
    hide Rotate, Exact;
    SurdProducts(k);
    var q := Quaternion(k.s2m, 0.0, 0.0, k.s2p);
    RotateIsImage(q, v);
    assert MatrixOf(q) == Matrix3(Vector3(-k.h, -k.h, 0.0), Vector3(k.h, -k.h, 0.0), Vector3(0.0, 0.0, 1.0));
  }

  lemma AgreeYaw180(k: Surds, held: Quaternion, v: Vector3)
    requires Exact(k)
    ensures var q := FromRotation(k, held, Yaw180); UnitQuaternion(q) && Rotate(q, v) == Rotated(k, v, Yaw180)
  {
    hide Rotate, Exact;
    var q := Quaternion(0.0, 0.0, 0.0, 1.0);
    RotateIsImage(q, v);
    assert MatrixOf(q) == Matrix3(Vector3(-1.0, 0.0, 0.0), Vector3(0.0, -1.0, 0.0), Vector3(0.0, 0.0, 1.0));
  }

  lemma AgreeYaw225(k: Surds, held: Quaternion, v: Vector3)
    requires Exact(k)
    ensures var q := FromRotation(k, held, Yaw225); UnitQuaternion(q) && Rotate(q, v) == Rotated(k, v, Yaw225)
  {
    hide Rotate, Exact;
    SurdProducts(k);
    var q := Quaternion(-k.s2m, 0.0, 0.0, k.s2p);
    RotateIsImage(q, v);
    assert MatrixOf(q) == Matrix3(Vector3(-k.h, k.h, 0.0), Vector3(-k.h, -k.h, 0.0), Vector3(0.0, 0.0, 1.0));
  }

  lemma AgreeYaw270(k: Surds, held: Quaternion, v: Vector3)
    requires Exact(k)
    ensures var q := FromRotation(k, held, Yaw270); UnitQuaternion(q) && Rotate(q, v) == Rotated(k, v, Yaw270)
  {
    hide Rotate, Exact;
    SurdProducts(k);
    var q := Quaternion(k.h, 0.0, 0.0, -k.h);
    RotateIsImage(q, v);
    assert MatrixOf(q) == Matrix3(Vector3(0.0, 1.0, 0.0), Vector3(-1.0, 0.0, 0.0), Vector3(0.0, 0.0, 1.0));
  }

  lemma AgreeYaw315(k: Surds, held: Quaternion, v: Vector3)
    requires Exact(k)
    ensures var q := FromRotation(k, held, Yaw315); UnitQuaternion(q) && Rotate(q, v) == Rotated(k, v, Yaw315)
  {
    hide Rotate, Exact;
    SurdProducts(k);
    var q := Quaternion(k.s2p, 0.0, 0.0, -k.s2m);
    RotateIsImage(q, v);
    assert MatrixOf(q) == Matrix3(Vector3(k.h, k.h, 0.0), Vector3(-k.h, k.h, 0.0), Vector3(0.0, 0.0, 1.0));
  }

  lemma AgreeRoll180(k: Surds, held: Quaternion, v: Vector3)
    requires Exact(k)
    ensures var q := FromRotation(k, held, Roll180); UnitQuaternion(q) && Rotate(q, v) == Rotated(k, v, Roll180)
  {
    hide Rotate, Exact;
    var q := Quaternion(0.0, 1.0, 0.0, 0.0);
    RotateIsImage(q, v);
    assert MatrixOf(q) == Matrix3(Vector3(1.0, 0.0, 0.0), Vector3(0.0, -1.0, 0.0), Vector3(0.0, 0.0, -1.0));
  }

  lemma AgreeRoll180Yaw45(k: Surds, held: Quaternion, v: Vector3)
    requires Exact(k)
    ensures var q := FromRotation(k, held, Roll180Yaw45); UnitQuaternion(q) && Rotate(q, v) == Rotated(k, v, Roll180Yaw45)
  {
    hide Rotate, Exact;
    SurdProducts(k);
    var q := Quaternion(0.0, k.s2p, k.s2m, 0.0);
    RotateIsImage(q, v);
    assert MatrixOf(q) == Matrix3(Vector3(k.h, k.h, 0.0), Vector3(k.h, -k.h, 0.0), Vector3(0.0, 0.0, -1.0));
  }

  lemma AgreeRoll180Yaw90(k: Surds, held: Quaternion, v: Vector3)
    requires Exact(k)
    ensures var q := FromRotation(k, held, Roll180Yaw90); UnitQuaternion(q) && Rotate(q, v) == Rotated(k, v, Roll180Yaw90)
  {
    hide Rotate, Exact;
    SurdProducts(k);
    var q := Quaternion(0.0, k.h, k.h, 0.0);
    RotateIsImage(q, v);
    assert MatrixOf(q) == Matrix3(Vector3(0.0, 1.0, 0.0), Vector3(1.0, 0.0, 0.0), Vector3(0.0, 0.0, -1.0));
  }

  lemma AgreeRoll180Yaw135(k: Surds, held: Quaternion, v: Vector3)
    requires Exact(k)
    ensures var q := FromRotation(k, held, Roll180Yaw135); UnitQuaternion(q) && Rotate(q, v) == Rotated(k, v, Roll180Yaw135)
  {
    hide Rotate, Exact;
    SurdProducts(k);
    var q := Quaternion(0.0, k.s2m, k.s2p, 0.0);
    RotateIsImage(q, v);
    assert MatrixOf(q) == Matrix3(Vector3(-k.h, k.h, 0.0), Vector3(k.h, k.h, 0.0), Vector3(0.0, 0.0, -1.0));
  }

  lemma AgreePitch180(k: Surds, held: Quaternion, v: Vector3)
    requires Exact(k)
    ensures var q := FromRotation(k, held, Pitch180); UnitQuaternion(q) && Rotate(q, v) == Rotated(k, v, Pitch180)
  {
    hide Rotate, Exact;
    var q := Quaternion(0.0, 0.0, 1.0, 0.0);
    RotateIsImage(q, v);
    assert MatrixOf(q) == Matrix3(Vector3(-1.0, 0.0, 0.0), Vector3(0.0, 1.0, 0.0), Vector3(0.0, 0.0, -1.0));
  }

  lemma AgreeRoll180Yaw225(k: Surds, held: Quaternion, v: Vector3)
    requires Exact(k)
    ensures var q := FromRotation(k, held, Roll180Yaw225); UnitQuaternion(q) && Rotate(q, v) == Rotated(k, v, Roll180Yaw225)
  {
    hide Rotate, Exact;
    SurdProducts(k);
    var q := Quaternion(0.0, -k.s2m, k.s2p, 0.0);
    RotateIsImage(q, v);
    assert MatrixOf(q) == Matrix3(Vector3(-k.h, -k.h, 0.0), Vector3(-k.h, k.h, 0.0), Vector3(0.0, 0.0, -1.0));
  }

  lemma AgreeRoll180Yaw270(k: Surds, held: Quaternion, v: Vector3)
    requires Exact(k)
    ensures var q := FromRotation(k, held, Roll180Yaw270); UnitQuaternion(q) && Rotate(q, v) == Rotated(k, v, Roll180Yaw270)
  {
    hide Rotate, Exact;
    SurdProducts(k);
    var q := Quaternion(0.0, -k.h, k.h, 0.0);
    RotateIsImage(q, v);
    assert MatrixOf(q) == Matrix3(Vector3(0.0, -1.0, 0.0), Vector3(-1.0, 0.0, 0.0), Vector3(0.0, 0.0, -1.0));
  }

  lemma AgreeRoll180Yaw315(k: Surds, held: Quaternion, v: Vector3)
    requires Exact(k)
    ensures var q := FromRotation(k, held, Roll180Yaw315); UnitQuaternion(q) && Rotate(q, v) == Rotated(k, v, Roll180Yaw315)
  {
    hide Rotate, Exact;
    SurdProducts(k);
    var q := Quaternion(0.0, k.s2p, -k.s2m, 0.0);
    RotateIsImage(q, v);
    assert MatrixOf(q) == Matrix3(Vector3(k.h, -k.h, 0.0), Vector3(-k.h, -k.h, 0.0), Vector3(0.0, 0.0, -1.0));
  }

  lemma AgreeRoll90(k: Surds, held: Quaternion, v: Vector3)
    requires Exact(k)
    ensures var q := FromRotation(k, held, Roll90); UnitQuaternion(q) && Rotate(q, v) == Rotated(k, v, Roll90)
  {
    hide Rotate, Exact;
    SurdProducts(k);
    var q := Quaternion(k.h, k.h, 0.0, 0.0);
    RotateIsImage(q, v);
    assert MatrixOf(q) == Matrix3(Vector3(1.0, 0.0, 0.0), Vector3(0.0, 0.0, -1.0), Vector3(0.0, 1.0, 0.0));
  }

  lemma AgreeRoll90Yaw45(k: Surds, held: Quaternion, v: Vector3)
    requires Exact(k)
    ensures var q := FromRotation(k, held, Roll90Yaw45); UnitQuaternion(q) && Rotate(q, v) == Rotated(k, v, Roll90Yaw45)
  {
    hide Rotate, Exact;
    MixedSurdProducts(k);
    var q := Quaternion(k.shp, k.shp, k.shm, k.shm);
    RotateIsImage(q, v);
    assert MatrixOf(q) == Matrix3(Vector3(k.h, 0.0, k.h), Vector3(k.h, 0.0, -k.h), Vector3(0.0, 1.0, 0.0));
  }

  lemma AgreeRoll90Yaw90(k: Surds, held: Quaternion, v: Vector3)
    requires Exact(k)
    ensures var q := FromRotation(k, held, Roll90Yaw90); UnitQuaternion(q) && Rotate(q, v) == Rotated(k, v, Roll90Yaw90)
  {
    hide Rotate, Exact;
    var q := Quaternion(0.5, 0.5, 0.5, 0.5);
    RotateIsImage(q, v);
    assert MatrixOf(q) == Matrix3(Vector3(0.0, 0.0, 1.0), Vector3(1.0, 0.0, 0.0), Vector3(0.0, 1.0, 0.0));
  }

  lemma AgreeRoll90Yaw135(k: Surds, held: Quaternion, v: Vector3)
    requires Exact(k)
    ensures var q := FromRotation(k, held, Roll90Yaw135); UnitQuaternion(q) && Rotate(q, v) == Rotated(k, v, Roll90Yaw135)
  {
    hide Rotate, Exact;
    MixedSurdProducts(k);
    var q := Quaternion(k.shm, k.shm, k.shp, k.shp);
    RotateIsImage(q, v);
    assert MatrixOf(q) == Matrix3(Vector3(-k.h, 0.0, k.h), Vector3(k.h, 0.0, k.h), Vector3(0.0, 1.0, 0.0));
  }

  lemma AgreeRoll270(k: Surds, held: Quaternion, v: Vector3)
    requires Exact(k)
    ensures var q := FromRotation(k, held, Roll270); UnitQuaternion(q) && Rotate(q, v) == Rotated(k, v, Roll270)
  {
    hide Rotate, Exact;
    SurdProducts(k);
    var q := Quaternion(k.h, -k.h, 0.0, 0.0);
    RotateIsImage(q, v);
    assert MatrixOf(q) == Matrix3(Vector3(1.0, 0.0, 0.0), Vector3(0.0, 0.0, 1.0), Vector3(0.0, -1.0, 0.0));
  }

  lemma AgreeRoll270Yaw45(k: Surds, held: Quaternion, v: Vector3)
    requires Exact(k)
    ensures var q := FromRotation(k, held, Roll270Yaw45); UnitQuaternion(q) && Rotate(q, v) == Rotated(k, v, Roll270Yaw45)
  {
    hide Rotate, Exact;
    MixedSurdProducts(k);
    var q := Quaternion(k.shp, -k.shp, -k.shm, k.shm);
    RotateIsImage(q, v);
    assert MatrixOf(q) == Matrix3(Vector3(k.h, 0.0, -k.h), Vector3(k.h, 0.0, k.h), Vector3(0.0, -1.0, 0.0));
  }

  lemma AgreeRoll270Yaw90(k: Surds, held: Quaternion, v: Vector3)
    requires Exact(k)
    ensures var q := FromRotation(k, held, Roll270Yaw90); UnitQuaternion(q) && Rotate(q, v) == Rotated(k, v, Roll270Yaw90)
  {
    hide Rotate, Exact;
    var q := Quaternion(0.5, -0.5, -0.5, 0.5);
    RotateIsImage(q, v);
    assert MatrixOf(q) == Matrix3(Vector3(0.0, 0.0, -1.0), Vector3(1.0, 0.0, 0.0), Vector3(0.0, -1.0, 0.0));
  }

  lemma AgreeRoll270Yaw135(k: Surds, held: Quaternion, v: Vector3)
    requires Exact(k)
    ensures var q := FromRotation(k, held, Roll270Yaw135); UnitQuaternion(q) && Rotate(q, v) == Rotated(k, v, Roll270Yaw135)
  {
    hide Rotate, Exact;
    MixedSurdProducts(k);
    var q := Quaternion(k.shm, -k.shm, -k.shp, k.shp);
    RotateIsImage(q, v);
    assert MatrixOf(q) == Matrix3(Vector3(-k.h, 0.0, -k.h), Vector3(k.h, 0.0, -k.h), Vector3(0.0, -1.0, 0.0));
  }

  lemma AgreePitch90(k: Surds, held: Quaternion, v: Vector3)
    requires Exact(k)
    ensures var q := FromRotation(k, held, Pitch90); UnitQuaternion(q) && Rotate(q, v) == Rotated(k, v, Pitch90)
  {
    hide Rotate, Exact;
    SurdProducts(k);
    var q := Quaternion(k.h, 0.0, k.h, 0.0);
    RotateIsImage(q, v);
    assert MatrixOf(q) == Matrix3(Vector3(0.0, 0.0, 1.0), Vector3(0.0, 1.0, 0.0), Vector3(-1.0, 0.0, 0.0));
  }

  lemma AgreePitch270(k: Surds, held: Quaternion, v: Vector3)
    requires Exact(k)
    ensures var q := FromRotation(k, held, Pitch270); UnitQuaternion(q) && Rotate(q, v) == Rotated(k, v, Pitch270)
  {
    hide Rotate, Exact;
    SurdProducts(k);
    var q := Quaternion(k.h, 0.0, -k.h, 0.0);
    RotateIsImage(q, v);
    assert MatrixOf(q) == Matrix3(Vector3(0.0, 0.0, -1.0), Vector3(0.0, 1.0, 0.0), Vector3(1.0, 0.0, 0.0));
  }

  lemma AgreeRoll90Pitch90(k: Surds, held: Quaternion, v: Vector3)
    requires Exact(k)
    ensures var q := FromRotation(k, held, Roll90Pitch90); UnitQuaternion(q) && Rotate(q, v) == Rotated(k, v, Roll90Pitch90)
  {
    hide Rotate, Exact;
    var q := Quaternion(-0.5, -0.5, -0.5, 0.5);
    RotateIsImage(q, v);
    assert MatrixOf(q) == Matrix3(Vector3(0.0, 1.0, 0.0), Vector3(0.0, 0.0, -1.0), Vector3(-1.0, 0.0, 0.0));
  }

  lemma AgreeRoll180Pitch90(k: Surds, held: Quaternion, v: Vector3)
    requires Exact(k)
    ensures var q := FromRotation(k, held, Roll180Pitch90); UnitQuaternion(q) && Rotate(q, v) == Rotated(k, v, Roll180Pitch90)
  {
    hide Rotate, Exact;
    SurdProducts(k);
    var q := Quaternion(0.0, -k.h, 0.0, k.h);
    RotateIsImage(q, v);
    assert MatrixOf(q) == Matrix3(Vector3(0.0, 0.0, -1.0), Vector3(0.0, -1.0, 0.0), Vector3(-1.0, 0.0, 0.0));
  }

  lemma AgreeRoll270Pitch90(k: Surds, held: Quaternion, v: Vector3)
    requires Exact(k)
    ensures var q := FromRotation(k, held, Roll270Pitch90); UnitQuaternion(q) && Rotate(q, v) == Rotated(k, v, Roll270Pitch90)
  {
    hide Rotate, Exact;
    var q := Quaternion(0.5, -0.5, 0.5, 0.5);
    RotateIsImage(q, v);
    assert MatrixOf(q) == Matrix3(Vector3(0.0, -1.0, 0.0), Vector3(0.0, 0.0, 1.0), Vector3(-1.0, 0.0, 0.0));
  }

  lemma AgreeRoll90Pitch180(k: Surds, held: Quaternion, v: Vector3)
    requires Exact(k)
    ensures var q := FromRotation(k, held, Roll90Pitch180); UnitQuaternion(q) && Rotate(q, v) == Rotated(k, v, Roll90Pitch180)
  {
    hide Rotate, Exact;
    SurdProducts(k);
    var q := Quaternion(0.0, 0.0, -k.h, k.h);
    RotateIsImage(q, v);
    assert MatrixOf(q) == Matrix3(Vector3(-1.0, 0.0, 0.0), Vector3(0.0, 0.0, -1.0), Vector3(0.0, -1.0, 0.0));
  }

  lemma AgreeRoll270Pitch180(k: Surds, held: Quaternion, v: Vector3)
    requires Exact(k)
    ensures var q := FromRotation(k, held, Roll270Pitch180); UnitQuaternion(q) && Rotate(q, v) == Rotated(k, v, Roll270Pitch180)
  {
    hide Rotate, Exact;
    SurdProducts(k);
    var q := Quaternion(0.0, 0.0, k.h, k.h);
    RotateIsImage(q, v);
    assert MatrixOf(q) == Matrix3(Vector3(-1.0, 0.0, 0.0), Vector3(0.0, 0.0, 1.0), Vector3(0.0, 1.0, 0.0));
  }

  lemma AgreeRoll90Pitch270(k: Surds, held: Quaternion, v: Vector3)
    requires Exact(k)
    ensures var q := FromRotation(k, held, Roll90Pitch270); UnitQuaternion(q) && Rotate(q, v) == Rotated(k, v, Roll90Pitch270)
  {
    hide Rotate, Exact;
    var q := Quaternion(0.5, 0.5, -0.5, 0.5);
    RotateIsImage(q, v);
    assert MatrixOf(q) == Matrix3(Vector3(0.0, -1.0, 0.0), Vector3(0.0, 0.0, -1.0), Vector3(1.0, 0.0, 0.0));
  }

  lemma AgreeRoll180Pitch270(k: Surds, held: Quaternion, v: Vector3)
    requires Exact(k)
    ensures var q := FromRotation(k, held, Roll180Pitch270); UnitQuaternion(q) && Rotate(q, v) == Rotated(k, v, Roll180Pitch270)
  {
    hide Rotate, Exact;
    SurdProducts(k);
    var q := Quaternion(0.0, k.h, 0.0, k.h);
    RotateIsImage(q, v);
    assert MatrixOf(q) == Matrix3(Vector3(0.0, 0.0, 1.0), Vector3(0.0, -1.0, 0.0), Vector3(1.0, 0.0, 0.0));
  }

  lemma AgreeRoll270Pitch270(k: Surds, held: Quaternion, v: Vector3)
    requires Exact(k)
    ensures var q := FromRotation(k, held, Roll270Pitch270); UnitQuaternion(q) && Rotate(q, v) == Rotated(k, v, Roll270Pitch270)
  {
    hide Rotate, Exact;
    var q := Quaternion(-0.5, 0.5, 0.5, 0.5);
    RotateIsImage(q, v);
    assert MatrixOf(q) == Matrix3(Vector3(0.0, 1.0, 0.0), Vector3(0.0, 0.0, 1.0), Vector3(1.0, 0.0, 0.0));
  }

  lemma AgreeRoll90Pitch180Yaw90(k: Surds, held: Quaternion, v: Vector3)
    requires Exact(k)
    ensures var q := FromRotation(k, held, Roll90Pitch180Yaw90); UnitQuaternion(q) && Rotate(q, v) == Rotated(k, v,
        Roll90Pitch180Yaw90)
  {
    hide Rotate, Exact;
    var q := Quaternion(-0.5, 0.5, -0.5, 0.5);
    RotateIsImage(q, v);
    assert MatrixOf(q) == Matrix3(Vector3(0.0, 0.0, 1.0), Vector3(-1.0, 0.0, 0.0), Vector3(0.0, -1.0, 0.0));
  }

  lemma AgreeRoll90Yaw270(k: Surds, held: Quaternion, v: Vector3)
    requires Exact(k)
    ensures var q := FromRotation(k, held, Roll90Yaw270); UnitQuaternion(q) && Rotate(q, v) == Rotated(k, v, Roll90Yaw270)
  {
    hide Rotate, Exact;
    var q := Quaternion(-0.5, -0.5, 0.5, 0.5);
    RotateIsImage(q, v);
    assert MatrixOf(q) == Matrix3(Vector3(0.0, 0.0, -1.0), Vector3(-1.0, 0.0, 0.0), Vector3(0.0, 1.0, 0.0));
  }

  lemma AgreePitch315(k: Surds, held: Quaternion, v: Vector3)
    requires Exact(k)
    ensures var q := FromRotation(k, held, Pitch315); UnitQuaternion(q) && Rotate(q, v) == Rotated(k, v, Pitch315)
  {
    hide Rotate, Exact;
    SurdProducts(k);
    var q := Quaternion(k.s2p, 0.0, -k.s2m, 0.0);
    RotateIsImage(q, v);
    assert MatrixOf(q) == Matrix3(Vector3(k.h, 0.0, -k.h), Vector3(0.0, 1.0, 0.0), Vector3(k.h, 0.0, k.h));
  }

  lemma AgreeRoll90Pitch315(k: Surds, held: Quaternion, v: Vector3)
    requires Exact(k)
    ensures var q := FromRotation(k, held, Roll90Pitch315); UnitQuaternion(q) && Rotate(q, v) == Rotated(k, v, Roll90Pitch315)
  {
    hide Rotate, Exact;
    MixedSurdProducts(k);
    var q := Quaternion(k.shp, k.shp, -k.shm, k.shm);
    RotateIsImage(q, v);
    assert MatrixOf(q) == Matrix3(Vector3(k.h, -k.h, 0.0), Vector3(0.0, 0.0, -1.0), Vector3(k.h, k.h, 0.0));
  }

  lemma AgreeRoll45(k: Surds, held: Quaternion, v: Vector3)
    requires Exact(k)
    ensures var q := FromRotation(k, held, Roll45); UnitQuaternion(q) && Rotate(q, v) == Rotated(k, v, Roll45)
  {
    hide Rotate, Exact;
    SurdProducts(k);
    var q := Quaternion(k.s2p, k.s2m, 0.0, 0.0);
    RotateIsImage(q, v);
    assert MatrixOf(q) == Matrix3(Vector3(1.0, 0.0, 0.0), Vector3(0.0, k.h, -k.h), Vector3(0.0, k.h, k.h));
  }

  lemma AgreeRoll315(k: Surds, held: Quaternion, v: Vector3)
    requires Exact(k)
    ensures var q := FromRotation(k, held, Roll315); UnitQuaternion(q) && Rotate(q, v) == Rotated(k, v, Roll315)
  {
    hide Rotate, Exact;
    SurdProducts(k);
    var q := Quaternion(k.s2p, -k.s2m, 0.0, 0.0);
    RotateIsImage(q, v);
    assert MatrixOf(q) == Matrix3(Vector3(1.0, 0.0, 0.0), Vector3(0.0, k.h, k.h), Vector3(0.0, -k.h, k.h));
  }

  /** The two tables agree: moving components is rotating by the quaternion, which has unit length. */
  lemma TablesAgree(k: Surds, held: Quaternion, v: Vector3, r: Rotation)
    requires Exact(k) && Named(r)
    ensures Rotate(FromRotation(k, held, r), v) == Rotated(k, v, r)
    ensures UnitQuaternion(FromRotation(k, held, r))
  {
    hide Rotate, Exact, UnitQuaternion;
    match r
    case NoTurn => AgreeNoTurn(k, held, v);
    case Yaw45 => AgreeYaw45(k, held, v);
    case Yaw90 => AgreeYaw90(k, held, v);
    case Yaw135 => AgreeYaw135(k, held, v);
    case Yaw180 => AgreeYaw180(k, held, v);
    case Yaw225 => AgreeYaw225(k, held, v);
    case Yaw270 => AgreeYaw270(k, held, v);
    case Yaw315 => AgreeYaw315(k, held, v);
    case Roll180 => AgreeRoll180(k, held, v);
    case Roll180Yaw45 => AgreeRoll180Yaw45(k, held, v);
    case Roll180Yaw90 => AgreeRoll180Yaw90(k, held, v);
    case Roll180Yaw135 => AgreeRoll180Yaw135(k, held, v);
    case Pitch180 => AgreePitch180(k, held, v);
    case Roll180Yaw225 => AgreeRoll180Yaw225(k, held, v);
    case Roll180Yaw270 => AgreeRoll180Yaw270(k, held, v);
    case Roll180Yaw315 => AgreeRoll180Yaw315(k, held, v);
    case Roll90 => AgreeRoll90(k, held, v);
    case Roll90Yaw45 => AgreeRoll90Yaw45(k, held, v);
    case Roll90Yaw90 => AgreeRoll90Yaw90(k, held, v);
    case Roll90Yaw135 => AgreeRoll90Yaw135(k, held, v);
    case Roll270 => AgreeRoll270(k, held, v);
    case Roll270Yaw45 => AgreeRoll270Yaw45(k, held, v);
    case Roll270Yaw90 => AgreeRoll270Yaw90(k, held, v);
    case Roll270Yaw135 => AgreeRoll270Yaw135(k, held, v);
    case Pitch90 => AgreePitch90(k, held, v);
    case Pitch270 => AgreePitch270(k, held, v);
    case Pitch180Yaw90 => AgreeRoll180Yaw270(k, held, v);
    case Pitch180Yaw270 => AgreeRoll180Yaw90(k, held, v);
    case Roll90Pitch90 => AgreeRoll90Pitch90(k, held, v);
    case Roll180Pitch90 => AgreeRoll180Pitch90(k, held, v);
    case Roll270Pitch90 => AgreeRoll270Pitch90(k, held, v);
    case Roll90Pitch180 => AgreeRoll90Pitch180(k, held, v);
    case Roll270Pitch180 => AgreeRoll270Pitch180(k, held, v);
    case Roll90Pitch270 => AgreeRoll90Pitch270(k, held, v);
    case Roll180Pitch270 => AgreeRoll180Pitch270(k, held, v);
    case Roll270Pitch270 => AgreeRoll270Pitch270(k, held, v);
    case Roll90Pitch180Yaw90 => AgreeRoll90Pitch180Yaw90(k, held, v);
    case Roll90Yaw270 => AgreeRoll90Yaw270(k, held, v);
    case Pitch315 => AgreePitch315(k, held, v);
    case Roll90Pitch315 => AgreeRoll90Pitch315(k, held, v);
    case Roll45 => AgreeRoll45(k, held, v);
    case Roll315 => AgreeRoll315(k, held, v);
    case _ =>
  }

  // ---- a rigid map, undone by rotate_inverse ----

  /** `mul_transpose`: the inner products with the columns. */
  function MulTranspose(m: Matrix3, v: Vector3): Vector3 {
    Vector3(Dot3(Vector3(m.a.x, m.b.x, m.c.x), v), Dot3(Vector3(m.a.y, m.b.y, m.c.y), v), Dot3(Vector3(m.a.z, m.b.z, m.c.z), v))
  }

  /** The matrix with the given columns. */
  function Columns(x: Vector3, y: Vector3, z: Vector3): Matrix3 {
    Matrix3(Vector3(x.x, y.x, z.x), Vector3(x.y, y.y, z.y), Vector3(x.z, y.z, z.z))
  }

  function RotatedInverse(k: Surds, v: Vector3, r: Rotation): Vector3 {
    MulTranspose(Columns(Rotated(k, X_AXIS, r), Rotated(k, Y_AXIS, r), Rotated(k, Z_AXIS, r)), v)
  }

  lemma Coordinates(v: Vector3)
    ensures Dot3(X_AXIS, v) == v.x && Dot3(Y_AXIS, v) == v.y && Dot3(Z_AXIS, v) == v.z
  {}

  /** The vector table keeps lengths and its inverse undoes it, on either side. */
  lemma RigidAndUndone(k: Surds, v: Vector3, r: Rotation)
    requires Exact(k) && Named(r)
    ensures LengthSquared(Rotated(k, v, r)) == LengthSquared(v)
    ensures RotatedInverse(k, Rotated(k, v, r), r) == v
    ensures Rotated(k, RotatedInverse(k, v, r), r) == v
  {
    hide Rotate, Rotated, FromRotation, UnitQuaternion, Dot3, LengthSquared, Exact, Named, Inverse;
    var q, w := FromRotation(k, IDENTITY, r), RotatedInverse(k, v, r);
    TablesAgree(k, IDENTITY, v, r);
    TablesAgree(k, IDENTITY, w, r);
    TablesAgree(k, IDENTITY, X_AXIS, r);
    TablesAgree(k, IDENTITY, Y_AXIS, r);
    TablesAgree(k, IDENTITY, Z_AXIS, r);
    RotateKeepsLength(q, v);
    RotateKeepsDot(q, X_AXIS, v);
    RotateKeepsDot(q, Y_AXIS, v);
    RotateKeepsDot(q, Z_AXIS, v);
    Coordinates(v);
    // w has the coordinates of the vector that rotates to v
    var p := Rotate(Inverse(q), v);
    RotateInverse(q, v);
    RotateKeepsDot(q, X_AXIS, p);
    RotateKeepsDot(q, Y_AXIS, p);
    RotateKeepsDot(q, Z_AXIS, p);
    Coordinates(p);
  }

  // ---- the two tables as the objects that use them ----

  /** A vector whose components `rotate` overwrites. */
  class MutableVector {
    var x: real
    var y: real
    var z: real

    constructor (v: Vector3)
      ensures Value() == v
    {
      x, y, z := v.x, v.y, v.z;
    }

    function Value(): Vector3
      reads this
    {
      Vector3(x, y, z)
    }

    method Rotate(k: Surds, rotation: Rotation)
      modifies this
      ensures Value() == Rotated(k, old(Value()), rotation)
    {
      hide Rotated;
      x, y, z := RotateImpl(k, x, y, z, rotation);
    }

    method RotateInverse(k: Surds, rotation: Rotation)
      modifies this
      ensures Value() == RotatedInverse(k, old(Value()), rotation)
    {
      hide Rotated, Dot3;
      var xVec := new MutableVector(X_AXIS);
      var yVec := new MutableVector(Y_AXIS);
      var zVec := new MutableVector(Z_AXIS);
      xVec.Rotate(k, rotation);
      yVec.Rotate(k, rotation);
      zVec.Rotate(k, rotation);
      var m := Columns(xVec.Value(), yVec.Value(), zVec.Value());
      var v := MulTranspose(m, Value());
      x, y, z := v.x, v.y, v.z;
    }
  }

  // ---- the vector table, step by step ----

  predicate Yawed(r: Rotation) {
    r.NoTurn? || r.Yaw45? || r.Yaw90? || r.Yaw135? || r.Yaw180? || r.Yaw225? || r.Yaw270? || r.Yaw315?
  }

  predicate Inverted(r: Rotation) {
    r.Roll180? || r.Roll180Yaw45? || r.Roll180Yaw90? || r.Pitch180Yaw270? || r.Roll180Yaw135? || r.Pitch180?
    || r.Roll180Yaw225? || r.Roll180Yaw270? || r.Pitch180Yaw90? || r.Roll180Yaw315?
  }

  predicate Rolled(r: Rotation) {
    r.Roll90? || r.Roll90Yaw45? || r.Roll90Yaw90? || r.Roll90Yaw135? || r.Roll270? || r.Roll270Yaw45?
    || r.Roll270Yaw90? || r.Roll270Yaw135? || r.Roll90Yaw270?
  }

  predicate Pitched(r: Rotation) {
    r.Pitch90? || r.Pitch270? || r.Roll90Pitch90? || r.Roll180Pitch90? || r.Roll270Pitch90? || r.Roll90Pitch180?
    || r.Roll270Pitch180? || r.Roll90Pitch270? || r.Roll180Pitch270? || r.Roll270Pitch270?
    || r.Roll90Pitch180Yaw90?
  }

  predicate Slanted(r: Rotation) {
    r.Pitch315? || r.Roll90Pitch315? || r.Roll45? || r.Roll315?
  }

  predicate Irregular(r: Rotation) {
    r.Pitch7? || r.Roll90Pitch68Yaw293?
  }

  /** Turns about the vertical. */
  method RotateYawed(k: Surds, x0: real, y0: real, z0: real, rotation: Rotation) returns (x: real, y: real, z: real)
    requires Yawed(rotation)
    ensures Vector3(x, y, z) == Rotated(k, Vector3(x0, y0, z0), rotation)
  {
    hide Times;
    x, y, z := x0, y0, z0;
    var tmp := 0.0;
    match rotation
    case NoTurn =>
    case Yaw45 => tmp := Times(k.h, x - y); y := Times(k.h, x + y); x := tmp;
    case Yaw90 => tmp := x; x := -y; y := tmp;
    case Yaw135 => tmp := -Times(k.h, x + y); y := Times(k.h, x - y); x := tmp;
    case Yaw180 => x := -x; y := -y;
    case Yaw225 => tmp := Times(k.h, y - x); y := -Times(k.h, x + y); x := tmp;
    case Yaw270 => tmp := x; x := y; y := -tmp;
    case Yaw315 => tmp := Times(k.h, x + y); y := Times(k.h, y - x); x := tmp;
  }

  /** Upside down. */
  method RotateInverted(k: Surds, x0: real, y0: real, z0: real, rotation: Rotation) returns (x: real, y: real, z: real)
    requires Inverted(rotation)
    ensures Vector3(x, y, z) == Rotated(k, Vector3(x0, y0, z0), rotation)
  {
    hide Times;
    x, y, z := x0, y0, z0;
    var tmp := 0.0;
    match rotation
    case Roll180 => y := -y; z := -z;
    case Roll180Yaw45 => tmp := Times(k.h, x + y); y := Times(k.h, x - y); x := tmp; z := -z;
    case Roll180Yaw90 => tmp := x; x := y; y := tmp; z := -z;
    case Pitch180Yaw270 => tmp := x; x := y; y := tmp; z := -z;
    case Roll180Yaw135 => tmp := Times(k.h, y - x); y := Times(k.h, y + x); x := tmp; z := -z;
    case Pitch180 => x := -x; z := -z;
    case Roll180Yaw225 => tmp := -Times(k.h, x + y); y := Times(k.h, y - x); x := tmp; z := -z;
    case Roll180Yaw270 => tmp := x; x := -y; y := -tmp; z := -z;
    case Pitch180Yaw90 => tmp := x; x := -y; y := -tmp; z := -z;
    case Roll180Yaw315 => tmp := Times(k.h, x - y); y := -Times(k.h, x + y); x := tmp; z := -z;
  }

  /** On one side. */
  method RotateRolled(k: Surds, x0: real, y0: real, z0: real, rotation: Rotation) returns (x: real, y: real, z: real)
    requires Rolled(rotation)
    ensures Vector3(x, y, z) == Rotated(k, Vector3(x0, y0, z0), rotation)
  {
    hide Times;
    x, y, z := x0, y0, z0;
    var tmp := 0.0;
    match rotation
    case Roll90 => tmp := z; z := y; y := -tmp;
    case Roll90Yaw45 => tmp := z; z := y; y := -tmp; tmp := Times(k.h, x - y); y := Times(k.h, x + y); x := tmp;
    case Roll90Yaw90 => tmp := z; z := y; y := -tmp; tmp := x; x := -y; y := tmp;
    case Roll90Yaw135 => tmp := z; z := y; y := -tmp; tmp := -Times(k.h, x + y); y := Times(k.h, x - y); x := tmp;
    case Roll270 => tmp := z; z := -y; y := tmp;
    case Roll270Yaw45 => tmp := z; z := -y; y := tmp; tmp := Times(k.h, x - y); y := Times(k.h, x + y); x := tmp;
    case Roll270Yaw90 => tmp := z; z := -y; y := tmp; tmp := x; x := -y; y := tmp;
    case Roll270Yaw135 => tmp := z; z := -y; y := tmp; tmp := -Times(k.h, x + y); y := Times(k.h, x - y); x := tmp;
    case Roll90Yaw270 => tmp := z; z := y; y := -tmp; tmp := x; x := y; y := -tmp;
  }

  /** Pitched by right angles. */
  method RotatePitched(k: Surds, x0: real, y0: real, z0: real, rotation: Rotation) returns (x: real, y: real, z: real)
    requires Pitched(rotation)
    ensures Vector3(x, y, z) == Rotated(k, Vector3(x0, y0, z0), rotation)
  {
    hide Times;
    x, y, z := x0, y0, z0;
    var tmp := 0.0;
    match rotation
    case Pitch90 => tmp := z; z := -x; x := tmp;
    case Pitch270 => tmp := z; z := x; x := -tmp;
    case Roll90Pitch90 => tmp := z; z := y; y := -tmp; tmp := z; z := -x; x := tmp;
    case Roll180Pitch90 => y := -y; z := -z; tmp := z; z := -x; x := tmp;
    case Roll270Pitch90 => tmp := z; z := -y; y := tmp; tmp := z; z := -x; x := tmp;
    case Roll90Pitch180 => tmp := z; z := y; y := -tmp; x := -x; z := -z;
    case Roll270Pitch180 => tmp := z; z := -y; y := tmp; x := -x; z := -z;
    case Roll90Pitch270 => tmp := z; z := y; y := -tmp; tmp := z; z := x; x := -tmp;
    case Roll180Pitch270 => y := -y; z := -z; tmp := z; z := x; x := -tmp;
    case Roll270Pitch270 => tmp := z; z := -y; y := tmp; tmp := z; z := x; x := -tmp;
    case Roll90Pitch180Yaw90 => tmp := z; z := y; y := -tmp; x := -x; z := -z; tmp := x; x := -y; y := tmp;
  }

  /** By half a right angle. */
  method RotateSlanted(k: Surds, x0: real, y0: real, z0: real, rotation: Rotation) returns (x: real, y: real, z: real)
    requires Slanted(rotation)
    ensures Vector3(x, y, z) == Rotated(k, Vector3(x0, y0, z0), rotation)
  {
    hide Times;
    x, y, z := x0, y0, z0;
    var tmp := 0.0;
    match rotation
    case Pitch315 => tmp := Times(k.h, x - z); z := Times(k.h, x + z); x := tmp;
    case Roll90Pitch315 => tmp := z; z := y; y := -tmp; tmp := Times(k.h, x - z); z := Times(k.h, x + z); x := tmp;
    case Roll45 => tmp := Times(k.h, y - z); z := Times(k.h, y + z); y := tmp;
    case Roll315 => tmp := Times(k.h, y + z); z := Times(k.h, z - y); y := tmp;
  }

  /** The two given by rounded decimals. */
  method RotateIrregular(k: Surds, x0: real, y0: real, z0: real, rotation: Rotation) returns (x: real, y: real, z: real)
    requires Irregular(rotation)
    ensures Vector3(x, y, z) == Rotated(k, Vector3(x0, y0, z0), rotation)
  {
    hide Times;
    x, y, z := x0, y0, z0;
    match rotation
    case Pitch7 =>
      var tmpx, tmpz := x, z;
      x := 0.99254615164132198312785249072476 * tmpx + 0.1218693434051474899781908334262 * tmpz;
      z := -0.1218693434051474899781908334262 * tmpx + 0.99254615164132198312785249072476 * tmpz;
    case Roll90Pitch68Yaw293 =>
      var tmpx, tmpy, tmpz := x, y, z;
      x := 0.14303897231223747232853327204793 * tmpx + 0.36877648650320382639478111741482 * tmpy
          + -0.91844638134308709265241077446262 * tmpz;
      y := -0.33213277779664740485543461545603 * tmpx + -0.85628942146641884303193137384369 * tmpy
          + -0.39554550256296522325882847326284 * tmpz;
      z := -0.93232380121551217122544130688766 * tmpx + 0.36162457008209242248497616856184 * tmpy
          + 0.00000000000000002214311861220361 * tmpz;
  }

  /** The components passed by reference come back as results; the sentinels leave them alone. */
  method RotateImpl(k: Surds, x0: real, y0: real, z0: real, rotation: Rotation) returns (x: real, y: real, z: real)
    ensures Vector3(x, y, z) == Rotated(k, Vector3(x0, y0, z0), rotation)
  {
    if Yawed(rotation) {
      x, y, z := RotateYawed(k, x0, y0, z0, rotation);
    } else if Inverted(rotation) {
      x, y, z := RotateInverted(k, x0, y0, z0, rotation);
    } else if Rolled(rotation) {
      x, y, z := RotateRolled(k, x0, y0, z0, rotation);
    } else if Pitched(rotation) {
      x, y, z := RotatePitched(k, x0, y0, z0, rotation);
    } else if Slanted(rotation) {
      x, y, z := RotateSlanted(k, x0, y0, z0, rotation);
    } else if Irregular(rotation) {
      x, y, z := RotateIrregular(k, x0, y0, z0, rotation);
    } else {
      x, y, z := x0, y0, z0;
    }
  }
}
