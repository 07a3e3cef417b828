/**
 The binary16 codec. Bit patterns are integers, masks and shifts their arithmetic; the two float
 products with a power of two follow the binary32 rounding rule (round to nearest, ties to even).
 Magnitudes are counted in units of the smallest subnormal, so that every value is an integer.
 */
module Float16 {

  function Pow2(n: nat): (r: nat)
    ensures r >= 1
  {
    if n == 0 then 1 else 2 * Pow2(n - 1)
  }

  lemma {:induction false} Pow2Add(a: nat, b: nat)
    ensures Pow2(a + b) == Pow2(a) * Pow2(b)
  {
    if a > 0 {
      Pow2Add(a - 1, b);
      Associate(2, Pow2(a - 1), Pow2(b));
    }
  }

  lemma Associate(a: int, b: int, c: int)
    ensures a * (b * c) == (a * b) * c
  {}

  // ---- binary32 and binary16 patterns ----

  const TWO23: nat := 0x80_0000
  const SIGN32: nat := 0x8000_0000
  const INF32: nat := 255 * TWO23
  const INF16: nat := 0x7C00
  const SIGN16: nat := 0x8000

  type Bits32 = n: nat | n < 0x1_0000_0000

  type Bits16 = n: nat | n < 0x1_0000

  function Magnitude(b: Bits32): Bits32 { b % SIGN32 }

  predicate Negative(b: Bits32) { b >= SIGN32 }

  predicate IsNan32(b: Bits32) { Magnitude(b) > INF32 }

  predicate IsNan16(h: Bits16) { h % SIGN16 > INF16 }

  /** The significand of a magnitude, hidden bit included. */
  function Significand(b: Bits32): nat { if b < TWO23 then b else TWO23 + b % TWO23 }

  /** The exponent field, subnormals sharing the smallest exponent. */
  function Exponent(b: Bits32): (e: nat)
    ensures e >= 1
  {
    if b < TWO23 then 1 else b / TWO23
  }

  /** A binary32 magnitude in units of 2^-149; infinity takes the value its pattern extends to. */
  function Units32(b: Bits32): nat { Significand(b) * Pow2(Exponent(b) - 1) }

  /** A binary16 magnitude in units of 2^-24. */
  function Units16(h: nat): nat { if h < 1024 then h else (1024 + h % 1024) * Pow2(h / 1024 - 1) }

  /** A unit of binary16 in units of binary32. */
  const UNIT: nat := Pow2(125)

  // ---- the codec ----

  function RoundEven(s: nat, d: nat): nat
    requires d > 0
  {
    var q, r := s / d, s % d;
    if 2 * r > d || (2 * r == d && q % 2 == 1) then q + 1 else q
  }

  /** A magnitude times 2^-112, rounded to binary32. */
  function ScaledDown(b: Bits32): Bits32
    requires b < INF32
  {
    if b / TWO23 > 112 then b - 112 * TWO23
    else
      RoundedFits(b);
      RoundEven(Significand(b), Pow2(113 - Exponent(b)))
  }

  lemma RoundedFits(b: Bits32)
    requires b / TWO23 <= 112
    ensures Exponent(b) <= 112 && RoundEven(Significand(b), Pow2(113 - Exponent(b))) <= TWO23
  {
    var d := Pow2(113 - Exponent(b));
    assert d >= 2;
    assert Significand(b) < 2 * TWO23;
    HalfOf(Significand(b), d);
  }

  lemma HalfOf(s: nat, d: nat)
    requires d >= 2 && s < 2 * TWO23
    ensures RoundEven(s, d) <= TWO23
  {
    QuotientAtMostHalf(s, d);
  }

  lemma QuotientAtMostHalf(s: nat, d: nat)
    requires d >= 2
    ensures 2 * (s / d) <= s
  {
    var q := s / d;
    assert q * d <= s;
    assert q * (d - 2) >= 0;
  }

  /** The position of the highest bit. */
  function Log2(n: nat): (p: nat)
    requires n > 0
    ensures Pow2(p) <= n < Pow2(p + 1)
  {
    if n == 1 then 0 else Log2(n / 2) + 1
  }

  lemma {:induction false} Log2Below(n: nat, k: nat)
    requires 0 < n < Pow2(k)
    ensures Log2(n) < k
  {
    if n > 1 && k > 0 {
      Log2Below(n / 2, k - 1);
    }
  }

  lemma Pow2Of23()
    ensures Pow2(23) == TWO23
  {
    Pow2Add(12, 11);
  }

  /** A subnormal with highest bit `p` made normal. */
  function Normalised(b: nat, p: nat): nat
    requires p < 23 && Pow2(p) <= b
  {
    (p + 90) * TWO23 + (b - Pow2(p)) * Pow2(23 - p)
  }

  /** A magnitude below the 32nd exponent times 2^112, which is exact. */
  function ScaledUp(b: Bits32): nat
    requires b < 32 * TWO23
  {
    if b >= TWO23 then b + 112 * TWO23
    else if b == 0 then 0
    else
      Pow2Of23();
      Log2Below(b, 23);
      Normalised(b, Log2(b))
  }

  function Get(h: Bits16): nat {
    var scaled := ScaledUp((h % SIGN16) * 8192);
    (if scaled >= (127 + 16) * TWO23 then 255 * TWO23 + scaled % TWO23 else scaled) + (if h >= SIGN16 then SIGN32 else 0)
  }

  /** `set` on a finite magnitude: mask, scale, add the rounding bit, limit, drop the low bits. */
  function SetMagnitude(b: Bits32): nat
    requires b < INF32
  {
    var scaled := ScaledDown(b - b % 4096);
    var rounded := (scaled + 0x1_0000_0000 - 0xFFFF_F000) % 0x1_0000_0000;
    (if rounded > 31 * TWO23 then 31 * TWO23 else rounded) / 8192
  }

  function Set(b: Bits32): nat {
    var m := Magnitude(b);
    (if m >= INF32 then (if m > INF32 then 0x7FFF else INF16) else SetMagnitude(m)) + (if Negative(b) then SIGN16 else 0)
  }

  // ---- correct rounding ----

  /** `h` is the last pattern whose lower midpoint is not above `u`: rounding to nearest, ties away from zero, overflow included. */
  predicate Nearest(u: nat, h: nat) {
    && h <= INF16
    && (h > 0 ==> (Units16(h - 1) + Units16(h)) * UNIT <= 2 * u)
    && (h < INF16 ==> 2 * u < (Units16(h) + Units16(h + 1)) * UNIT)
  }

  lemma Units16Next(h: nat)
    ensures Units16(h) < Units16(h + 1)
  {
    if h >= 1024 && h % 1024 == 1023 {
      assert (h + 1) / 1024 == h / 1024 + 1 && (h + 1) % 1024 == 0;
    } else if h >= 1024 {
      assert (h + 1) / 1024 == h / 1024 && (h + 1) % 1024 == h % 1024 + 1;
      NextProduct(1024 + h % 1024, Pow2(h / 1024 - 1));
    }
  }

  lemma NextProduct(a: nat, p: nat)
    requires p >= 1
    ensures (a + 1) * p == a * p + p > a * p
  {}

  /** Larger patterns are larger values. */
  lemma {:induction false} Units16Grows(a: nat, b: nat)
    requires a <= b
    ensures Units16(a) <= Units16(b) && (a < b ==> Units16(a) < Units16(b))
    decreases b - a
  {
    if a < b {
      Units16Next(b - 1);
      Units16Grows(a, b - 1);
    }
  }

  /** `h` with mantissa `k` in exponent `x`, `k` possibly carried over. */
  lemma Units16At(x: nat, k: nat)
    requires x >= 1 && k <= 1024
    ensures Units16(x * 1024 + k) == (1024 + k) * Pow2(x - 1)
  {
    if k < 1024 {
      assert (x * 1024 + k) / 1024 == x && (x * 1024 + k) % 1024 == k;
    } else {
      assert (x * 1024 + k) / 1024 == x + 1 && (x * 1024 + k) % 1024 == 0;
      assert Pow2(x) == 2 * Pow2(x - 1);
    }
  }

  lemma Fields(b: Bits32)
    requires TWO23 <= b < INF32
    ensures b == (b / TWO23) * TWO23 + b % TWO23 && Significand(b) == TWO23 + b % TWO23 && Exponent(b) == b / TWO23 <= 254
  {}

  lemma UnitSplits(n: nat)
    requires n <= 112
    ensures UNIT == Pow2(n) * Pow2(125 - n)
  {
    Pow2Add(n, 125 - n);
  }

  lemma Pow2Of13()
    ensures Pow2(13) == 8192 && Pow2(12) == 4096
  {}

  lemma MaskedNormal(b: Bits32, x: nat, m: nat)
    requires b < INF32 && b / TWO23 == x + 112 && x >= 1 && m == b % TWO23
    ensures ScaledDown(b - b % 4096) == x * TWO23 + (m - m % 4096) && m < TWO23 && x <= 142
  {
    var masked := b - b % 4096;
    assert b == (x + 112) * TWO23 + m;
    assert b % 4096 == m % 4096;
    assert masked / TWO23 == x + 112;
  }

  /** The rounding bit, the limit and the shift on a scaled normal magnitude. */
  lemma RoundedNormal(x: nat, m: nat, k: nat, scaled: nat)
    requires m < TWO23 && x <= 142 && k == (m + 4096) / 8192 && scaled == x * TWO23 + (m - m % 4096)
    ensures k <= 1024
    ensures var rounded := (scaled + 0x1_0000_0000 - 0xFFFF_F000) % 0x1_0000_0000;
      (if rounded > 31 * TWO23 then 31 * TWO23 else rounded) / 8192 == if x * 1024 + k <= INF16 then x * 1024 + k else INF16
  {
    var n := m / 4096;
    assert m - m % 4096 == n * 4096 && k == (n + 1) / 2;
    assert scaled + 4096 == (x * 2048 + n + 1) * 4096;
  }

  lemma NormalPattern(b: Bits32, x: nat, m: nat, k: nat)
    requires b < INF32 && b / TWO23 == x + 112 && x >= 1 && m == b % TWO23 && k == (m + 4096) / 8192
    ensures k <= 1024
    ensures SetMagnitude(b) == if x * 1024 + k <= INF16 then x * 1024 + k else INF16
  {
    hide ScaledDown;
    MaskedNormal(b, x, m);
    RoundedNormal(x, m, k, ScaledDown(b - b % 4096));
  }

  // ---- magnitudes whose scaled exponent stays normal ----

  lemma Scale(a: int, b: int, p: nat)
    requires a <= b
    ensures a * p <= b * p
  {}

  lemma ScaleStrict(a: int, b: int, p: nat)
    requires a < b && p >= 1
    ensures a * p < b * p
  {}

  lemma Midpoint(t: nat, p: nat)
    requires t >= 1
    ensures ((t - 1) * p + t * p) * 8192 == ((2 * t - 1) * 8192) * p
    ensures (t * p + (t + 1) * p) * 8192 == ((2 * t + 1) * 8192) * p
  {}

  lemma NormalMidpoints(x: nat, m: nat, k: nat, p: nat)
    requires x >= 1 && m < TWO23 && k == (m + 4096) / 8192 && p == Pow2(x - 1)
    ensures var h := x * 1024 + k;
      && (Units16(h - 1) + Units16(h)) * 8192 <= (2 * (TWO23 + m)) * p
      && (2 * (TWO23 + m)) * p < (Units16(h) + Units16(h + 1)) * 8192
  {
    hide Units16, Pow2;
    var h, t := x * 1024 + k, 1024 + k;
    Units16At(x, k);
    Midpoint(t, p);
    if k > 0 {
      Units16At(x, k - 1);
      Scale((2 * t - 1) * 8192, 2 * (TWO23 + m), p);
    } else {
      Units16Next(h - 1);
      Scale(2048 * 8192, 2 * (TWO23 + m), p);
    }
    ScaleStrict(2 * (TWO23 + m), (2 * t + 1) * 8192, p);
    if k < 1024 {
      Units16At(x, k + 1);
    } else {
      Units16At(x + 1, 1);
      Doubling(x, p);
    }
  }

  lemma Doubling(x: nat, p: nat)
    requires x >= 1 && p == Pow2(x - 1)
    ensures Pow2(x + 1 - 1) == 2 * p && 1025 * (2 * p) >= 1025 * p
  {}

  lemma UnitIs8192()
    ensures UNIT == 8192 * Pow2(112)
  {
    Pow2Add(13, 112);
    Pow2Of13();
  }

  /** A comparison at the half's precision carries over to binary32 units. */
  lemma Rescale(a: nat, u: nat, v: nat, w: nat)
    requires w >= 1 && v == u * w
    ensures a * 8192 <= 2 * u ==> a * (8192 * w) <= 2 * v
    ensures 2 * u < a * 8192 ==> 2 * v < a * (8192 * w)
  {
    if a * 8192 <= 2 * u {
      Scale(a * 8192, 2 * u, w);
    } else {
      ScaleStrict(2 * u, a * 8192, w);
    }
    assert (a * 8192) * w == a * (8192 * w) && (2 * u) * w == 2 * v;
  }

  lemma NormalUnits(b: Bits32, x: nat, m: nat, p: nat, w: nat)
    requires TWO23 <= b < INF32 && b / TWO23 == x + 112 && x >= 1 && m == b % TWO23 && p == Pow2(x - 1) && w == Pow2(112)
    ensures Units32(b) == ((TWO23 + m) * p) * w
  {
    Fields(b);
    Pow2Add(x - 1, 112);
    Associate(TWO23 + m, p, w);
  }

  lemma NormalIsNearest(b: Bits32)
    requires b < INF32 && b / TWO23 > 112
    ensures Nearest(Units32(b), SetMagnitude(b))
  {
    hide Units16, Units32, Pow2, SetMagnitude, ScaledDown;
    var e, m := b / TWO23, b % TWO23;
    var x, k := e - 112, (m + 4096) / 8192;
    var p, w := Pow2(x - 1), Pow2(112);
    NormalPattern(b, x, m, k);
    NormalUnits(b, x, m, p, w);
    UnitIs8192();
    var u, h := (TWO23 + m) * p, x * 1024 + k;
    NormalMidpoints(x, m, k, p);
    Associate(2, TWO23 + m, p);
    Rescale(Units16(h - 1) + Units16(h), u, Units32(b), w);
    Rescale(Units16(h) + Units16(h + 1), u, Units32(b), w);
    if h > INF16 {
      Units16Grows(INF16 - 1, h - 1);
      Units16Grows(INF16, h);
      Rescale(Units16(INF16 - 1) + Units16(INF16), u, Units32(b), w);
    }
  }

  // ---- magnitudes that become subnormal ----

  /** Below the first normal exponent, and just above, a half counts its units directly. */
  lemma Units16Small(h: nat)
    requires h <= 2047
    ensures Units16(h) == h
  {}

  lemma RoundEvenExact(s: nat, d: nat)
    requires d >= 1 && s % d == 0
    ensures RoundEven(s, d) == s / d && s == (s / d) * d
  {}

  /** Masking the low bits masks the significand. */
  lemma MaskedSignificand(b: Bits32)
    requires b < INF32
    ensures var c := b - b % 4096;
      && Significand(c) == Significand(b) - Significand(b) % 4096 && Exponent(c) == Exponent(b) && c / TWO23 == b / TWO23
      && Significand(b) < 2 * TWO23
  {}

  /** The pattern a small magnitude gets: the units of 2^-24 nearest to it. */
  lemma SmallPattern(b: Bits32, q: nat)
    requires b / TWO23 <= 112 && q == 113 - Exponent(b)
    ensures var s := Significand(b) - Significand(b) % 4096;
      SetMagnitude(b) == (RoundEven(s, Pow2(q)) + 4096) / 8192 <= 1024
  {
    hide Pow2, RoundEven, Significand, Exponent;
    MaskedSignificand(b);
    RoundedFits(b - b % 4096);
  }

  lemma Divides(s: nat, q: nat)
    requires s % 4096 == 0 && q <= 12
    ensures s % Pow2(q) == 0 && 4096 == Pow2(q) * Pow2(12 - q)
  {
    hide Pow2;
    Pow2Add(q, 12 - q);
    Pow2Of13();
    var d, r := Pow2(q), Pow2(12 - q);
    var n := s / 4096;
    assert s == n * 4096;
    Associate(n, r, d);
    assert s == (n * r) * d;
    Multiple(n * r, d);
  }

  lemma Multiple(n: nat, d: nat)
    requires d >= 1
    ensures (n * d) % d == 0
  {
    assert (n * d) / d == n by {
      QuotientOf(n, d);
    }
  }

  lemma QuotientOf(n: nat, d: nat)
    requires d >= 1
    ensures (n * d) / d == n
  {
    var x := n * d;
    var y := x / d;
    assert x == y * d + x % d;
    if y < n {
      Scale(y + 1, n, d);
    } else if y > n {
      Scale(n + 1, y, d);
    }
  }

  /** With the rounding position inside the masked bits the division is exact and the half is nearest. */
  lemma ShallowMidpoints(f: nat, q: nat, h: nat)
    requires 1 <= q <= 12
    requires var s := f - f % 4096; h == (RoundEven(s, Pow2(q)) + 4096) / 8192
    ensures (2 * h - 1) * (4096 * Pow2(q)) <= f < (2 * h + 1) * (4096 * Pow2(q))
  {
    hide Pow2, RoundEven;
    var s, d := f - f % 4096, Pow2(q);
    Divides(s, q);
    RoundEvenExact(s, d);
    var v := s / d;
    Scale((2 * h - 1) * 4096, v, d);
    ScaleStrict(v, (2 * h + 1) * 4096, d);
    Associate(2 * h - 1, 4096, d);
    Associate(2 * h + 1, 4096, d);
    Regroup(2 * h + 1, d);
    BelowMultiple(f, (2 * h + 1) * d);
  }

  lemma Regroup(a: int, d: int)
    ensures a * (4096 * d) == (a * d) * 4096
  {}

  /** A bound that is a multiple of 4096 and above the masked value is above the value. */
  lemma BelowMultiple(f: nat, t: int)
    requires f - f % 4096 < t * 4096
    ensures f < t * 4096
  {}

  /** With the rounding position above them the half is zero. */
  lemma DeepMidpoints(f: nat, q: nat)
    requires q >= 13 && f < 2 * TWO23
    ensures (RoundEven(f - f % 4096, Pow2(q)) + 4096) / 8192 == 0
    ensures f < 4096 * Pow2(q)
  {
    hide Pow2;
    AtLeast8192(q);
    DeepScalar(f, Pow2(q));
  }

  lemma AtLeast8192(q: nat)
    requires q >= 13
    ensures Pow2(q) >= 8192
  {
    hide Pow2;
    Pow2Add(13, q - 13);
    Pow2Of13();
    Scale(1, Pow2(q - 13), 8192);
  }

  lemma DeepScalar(f: nat, d: nat)
    requires d >= 8192 && f < 2 * TWO23
    ensures (RoundEven(f - f % 4096, d) + 4096) / 8192 == 0 && f < 4096 * d
  {
    var s := f - f % 4096;
    var v := s / d;
    assert v * d <= s;
    Scale(8192, d, v);
    assert RoundEven(s, d) <= v + 1;
  }

  lemma SmallUnits(b: Bits32, q: nat)
    requires b / TWO23 <= 112 && q == 113 - Exponent(b)
    ensures Units32(b) == Significand(b) * Pow2(112 - q) && UNIT == (8192 * Pow2(q)) * Pow2(112 - q)
  {
    hide Pow2, Significand, Exponent;
    ExponentRange(b);
    Pow2Add(13, q);
    Pow2Of13();
    UnitSplits(112 - q);
    assert 125 - (112 - q) == 13 + q;
  }

  lemma SmallIsNearest(b: Bits32)
    requires b / TWO23 <= 112
    ensures Nearest(Units32(b), SetMagnitude(b))
  {
    hide Units16, Units32, Pow2, SetMagnitude, ScaledDown, RoundEven, Exponent, Significand;
    var q, f := 113 - Exponent(b), Significand(b);
    MaskedSignificand(b);
    ExponentRange(b);
    SmallPattern(b, q);
    SmallUnits(b, q);
    var h, d, w := SetMagnitude(b), Pow2(q), Pow2(112 - q);
    if q <= 12 {
      ShallowMidpoints(f, q, h);
    } else {
      DeepMidpoints(f, q);
    }
    SmallScaling(f, h, d, w);
    Units16Small(h);
    Units16Small(h + 1);
    if h > 0 {
      Units16Small(h - 1);
    }
  }

  lemma ExponentRange(b: Bits32)
    requires b / TWO23 <= 112
    ensures 1 <= Exponent(b) <= 112
  {}

  lemma SmallScaling(f: nat, h: nat, d: nat, w: nat)
    requires w >= 1 && d >= 1
    requires h > 0 ==> (2 * h - 1) * (4096 * d) <= f
    requires f < (2 * h + 1) * (4096 * d)
    ensures h > 0 ==> (h - 1 + h) * ((8192 * d) * w) <= 2 * (f * w)
    ensures 2 * (f * w) < (h + (h + 1)) * ((8192 * d) * w)
  {
    Associate(2 * h + 1, 8192 * d, w);
    ScaleStrict(2 * f, (2 * h + 1) * (8192 * d), w);
    assert (2 * h + 1) * (8192 * d) == 2 * ((2 * h + 1) * (4096 * d));
    Associate(2, f, w);
    if h > 0 {
      Associate(2 * h - 1, 8192 * d, w);
      assert (2 * h - 1) * (8192 * d) == 2 * ((2 * h - 1) * (4096 * d));
      Scale((2 * h - 1) * (8192 * d), 2 * f, w);
    }
  }

  // ---- main results ----

  /** `set` rounds every finite magnitude to the nearest half, ties away from zero, subnormals and overflow included. */
  lemma SetIsNearest(b: Bits32)
    requires b < INF32
    ensures Nearest(Units32(b), SetMagnitude(b))
  {
    if b / TWO23 > 112 {
      NormalIsNearest(b);
    } else {
      SmallIsNearest(b);
    }
  }

  function Distance(a: int, b: int): nat { if a < b then b - a else a - b }

  /**
   What nearest means: infinity exactly from the midpoint above the largest finite half on,
   otherwise no finite half is closer, and of two as close the larger is taken.
   */
  lemma NearestIsRounding(u: nat, h: nat, k: nat)
    requires Nearest(u, h) && k < INF16
    ensures h == INF16 <==> 2 * u >= (Units16(INF16 - 1) + Units16(INF16)) * UNIT
    ensures h < INF16 ==> Distance(Units16(h) * UNIT, u) <= Distance(Units16(k) * UNIT, u)
    ensures h < INF16 && k != h && Distance(Units16(h) * UNIT, u) == Distance(Units16(k) * UNIT, u) ==> Units16(k) < Units16(h)
  {
    hide Units16, Pow2;
    if h < INF16 {
      Units16Grows(h, INF16 - 1);
      Units16Grows(h + 1, INF16);
      Scale(Units16(h) + Units16(h + 1), Units16(INF16 - 1) + Units16(INF16), UNIT);
      if k > h {
        Units16Grows(h + 1, k);
        Scale(Units16(h) + Units16(h + 1), Units16(h) + Units16(k), UNIT);
        SumTimes(Units16(h), Units16(k), UNIT);
        Units16Grows(h, k);
        ScaleStrict(Units16(h), Units16(k), UNIT);
      } else if k < h {
        Units16Grows(k, h - 1);
        Scale(Units16(k) + Units16(h), Units16(h - 1) + Units16(h), UNIT);
        SumTimes(Units16(h), Units16(k), UNIT);
        Units16Grows(k, h);
        ScaleStrict(Units16(k), Units16(h), UNIT);
      }
    }
  }

  lemma SumTimes(a: nat, b: nat, w: nat)
    ensures (a + b) * w == a * w + b * w
  {}

  /** Rounding keeps order. */
  lemma NearestMonotone(u: nat, v: nat, h: nat, k: nat)
    requires Nearest(u, h) && Nearest(v, k) && u <= v
    ensures h <= k
  {
    hide Units16, Pow2;
    if h > k {
      Units16Grows(k + 1, h);
      Units16Grows(k, h - 1);
      Scale(Units16(k) + Units16(k + 1), Units16(h - 1) + Units16(h), UNIT);
    }
  }

  /** A half's own value rounds to itself. */
  lemma NearestOfHalf(h: nat)
    requires h <= INF16
    ensures Nearest(Units16(h) * UNIT, h)
  {
    hide Units16, Pow2;
    Units16Next(h);
    Associate(2, Units16(h), UNIT);
    ScaleStrict(2 * Units16(h), Units16(h) + Units16(h + 1), UNIT);
    if h > 0 {
      Units16Next(h - 1);
      Scale(Units16(h - 1) + Units16(h), 2 * Units16(h), UNIT);
    }
  }

  // ---- get ----

  lemma ScaledUpNormal(m: nat)
    requires 1024 <= m < 32 * 1024
    ensures ScaledUp(m * 8192) == (m + 112 * 1024) * 8192
  {}

  lemma NormalValue(m: nat)
    requires 1024 <= m < 32 * 1024
    ensures var b := (m + 112 * 1024) * 8192; b < 0x1_0000_0000 && Units32(b) == Units16(m) * UNIT
  {
    hide Pow2;
    var b, x, f := (m + 112 * 1024) * 8192, m / 1024, m % 1024;
    assert b / TWO23 == x + 112 && b % TWO23 == f * 8192;
    Pow2Add(x - 1, 112);
    UnitIs8192();
    var p, w := Pow2(x - 1), Pow2(112);
    assert Units32(b) == ((1024 + f) * 8192) * (p * w);
    assert ((1024 + f) * 8192) * (p * w) == ((1024 + f) * p) * (8192 * w);
  }

  lemma SubnormalForm(n: nat, p: nat, d: nat, r: nat)
    requires 0 < n < TWO23 && p == Log2(n) && d == Pow2(p) && p < 23 && r == Pow2(23 - p)
    ensures d <= n < 2 * d && d * r == TWO23
    ensures ScaledUp(n) == (p + 90) * TWO23 + (n - d) * r
  {
    hide Log2;
    Pow2Of23();
    Pow2Add(p, 23 - p);
  }

  lemma SubnormalPowers(p: nat)
    requires p < 23
    ensures UNIT == 8192 * Pow2(112) && Pow2(112) == Pow2(23 - p) * Pow2(p + 89)
  {
    hide Pow2;
    UnitIs8192();
    Pow2Add(23 - p, p + 89);
  }

  lemma SubnormalValue(m: nat)
    requires 0 < m < 1024
    ensures var b := ScaledUp(m * 8192); b < 143 * TWO23 && Units32(b) == Units16(m) * UNIT
  {
    hide Pow2, Log2, Units32, Units16, ScaledUp;
    var n := m * 8192;
    Pow2Of23();
    Log2Below(n, 23);
    var p := Log2(n);
    var d, r, w := Pow2(p), Pow2(23 - p), Pow2(p + 89);
    SubnormalForm(n, p, d, r);
    MantissaFits(n, d, r);
    PackedValue(p, (n - d) * r);
    Spread(n, d, r);
    SubnormalPowers(p);
    Units16Small(m);
    Associate(n, r, w);
    Associate(m, 8192, Pow2(112));
  }

  lemma Spread(n: nat, d: nat, r: nat)
    requires d <= n && d * r == TWO23
    ensures TWO23 + (n - d) * r == n * r
  {}

  lemma MantissaFits(n: nat, d: nat, r: nat)
    requires d <= n < 2 * d && d * r == TWO23
    ensures 0 <= (n - d) * r < TWO23
  {
    ScaleStrict(n - d, d, r);
  }

  lemma PackedValue(p: nat, f: nat)
    requires p < 23 && f < TWO23
    ensures var b := (p + 90) * TWO23 + f; b < 143 * TWO23 && Units32(b) == (TWO23 + f) * Pow2(p + 89)
  {
    hide Pow2;
    var b := (p + 90) * TWO23 + f;
    assert b / TWO23 == p + 90 && b % TWO23 == f;
  }

  /** `get` without its sign. */
  function GetMagnitude(m: nat): nat
    requires m < SIGN16
  {
    var scaled := ScaledUp(m * 8192);
    if scaled >= (127 + 16) * TWO23 then 255 * TWO23 + scaled % TWO23 else scaled
  }

  /** `get` is exact on every finite half, and takes infinity to infinity and NaN to NaN. */
  lemma GetIsExact(m: nat)
    requires m < SIGN16
    ensures GetMagnitude(m) < SIGN32
    ensures m < INF16 ==> GetMagnitude(m) < INF32 && Units32(GetMagnitude(m)) == Units16(m) * UNIT
    ensures m == INF16 ==> GetMagnitude(m) == INF32
    ensures m > INF16 ==> GetMagnitude(m) > INF32
  {
    hide Pow2, Units32, Units16;
    if m == 0 {
      ZeroValue();
    } else if m < 1024 {
      SubnormalValue(m);
    } else {
      ScaledUpNormal(m);
      NormalValue(m);
      assert m < INF16 ==> (m + 112 * 1024) * 8192 < 143 * TWO23;
    }
  }

  lemma ZeroValue()
    ensures GetMagnitude(0) == 0 && Units32(0) == 0 && Units16(0) == 0
  {}

  lemma GetParts(h: Bits16)
    ensures Get(h) == GetMagnitude(h % SIGN16) + (if h >= SIGN16 then SIGN32 else 0)
  {}

  /** Encoding what was decoded gives the same pattern, for every half that is not a NaN. */
  lemma RoundTrip(h: Bits16)
    requires !IsNan16(h)
    ensures Get(h) < 0x1_0000_0000 && Set(Get(h)) == h
  {
    hide GetMagnitude, SetMagnitude, Get, Units16, Units32, Pow2;
    var m := h % SIGN16;
    GetParts(h);
    GetIsExact(m);
    var b := GetMagnitude(m);
    assert Magnitude(Get(h)) == b && (Negative(Get(h)) <==> h >= SIGN16);
    if m < INF16 {
      SetIsNearest(b);
      NearestOfHalf(m);
      NearestMonotone(Units32(b), Units32(b), SetMagnitude(b), m);
      NearestMonotone(Units32(b), Units32(b), m, SetMagnitude(b));
    }
  }

  // ---- order over signed values ----

  /** The value of a binary32 pattern that is not a NaN, in units of 2^-149. */
  function Value32(b: Bits32): int { if Negative(b) then 0 - Units32(Magnitude(b)) as int else Units32(Magnitude(b)) }

  /** The value of a binary16 pattern that is not a NaN, in units of 2^-24. */
  function Value16(h: nat): int { if h >= SIGN16 then 0 - Units16(h - SIGN16) as int else Units16(h) }

  /** The pattern `set` gives a magnitude that is not a NaN. */
  function Encoded(m: nat): nat
    requires m <= INF32
  {
    if m == INF32 then INF16 else SetMagnitude(m)
  }

  lemma InfinityIsNearest()
    ensures Nearest(Units32(INF32), INF16)
  {
    hide Pow2;
    Pow2Add(30, 224);
    Pow2Add(29, 225);
    Pow2Add(1, 29);
    Pow2Add(112, 112);
    UnitIs8192();
    var w, p, t := Pow2(112), Pow2(29), Pow2(30);
    assert Units16(INF16) == 1024 * t && Units16(INF16 - 1) == 2047 * p;
    assert Pow2(1) == 2 by {
      Pow2Of1();
    }
    assert t == 2 * p;
    assert Units32(INF32) == TWO23 * Pow2(254);
    assert Pow2(254) == t * (w * w);
    Scale(1, w, t * w);
    InfinityScalar(p, w, Pow2(254));
  }

  lemma Pow2Of1()
    ensures Pow2(1) == 2
  {}

  lemma InfinityScalar(p: nat, w: nat, v: nat)
    requires w >= 1 && v >= (2 * p) * w
    ensures (2047 * p + 1024 * (2 * p)) * (8192 * w) <= 2 * (TWO23 * v)
  {
    assert (2047 * p + 1024 * (2 * p)) * (8192 * w) == 4095 * 8192 * (p * w);
    assert p * w >= 0;
  }

  lemma EncodedIsNearest(m: Bits32)
    requires m <= INF32
    ensures Nearest(Units32(m), Encoded(m))
  {
    if m == INF32 {
      InfinityIsNearest();
    } else {
      SetIsNearest(m);
    }
  }

  lemma SetParts(b: Bits32)
    requires !IsNan32(b)
    ensures Encoded(Magnitude(b)) <= INF16
    ensures Set(b) == Encoded(Magnitude(b)) + (if Negative(b) then SIGN16 else 0)
  {
    hide SetMagnitude, Units32, Units16, Pow2;
    EncodedIsNearest(Magnitude(b));
  }

  /** `set` keeps order over every pair of inputs that are not NaN, infinities and signed zeros included. */
  lemma SetIsMonotone(a: Bits32, b: Bits32)
    requires !IsNan32(a) && !IsNan32(b) && Value32(a) <= Value32(b)
    ensures Value16(Set(a)) <= Value16(Set(b))
  {
    hide Encoded, Set, Units16, Units32, Pow2;
    var m, n := Magnitude(a), Magnitude(b);
    SetParts(a);
    SetParts(b);
    EncodedIsNearest(m);
    EncodedIsNearest(n);
    if !Negative(a) && !Negative(b) {
      NearestMonotone(Units32(m), Units32(n), Encoded(m), Encoded(n));
      Units16Grows(Encoded(m), Encoded(n));
    } else if Negative(a) && Negative(b) {
      NearestMonotone(Units32(n), Units32(m), Encoded(n), Encoded(m));
      Units16Grows(Encoded(n), Encoded(m));
    } else if !Negative(a) {
      // both magnitudes are zero
      ZeroValue();
      NearestMonotone(Units32(m), Units32(n), Encoded(m), Encoded(n));
      NearestMonotone(Units32(n), Units32(m), Encoded(n), Encoded(m));
      NearestOfHalf(0);
      NearestMonotone(Units32(m), Units32(m), Encoded(m), 0);
    }
  }

  // ---- the codec as an object ----

  class Half {
    var v16: Bits16

    constructor ()
      ensures v16 == 0
    {
      v16 := 0;
    }

    method GetFloat() returns (bits: Bits32)
      ensures bits == Get(v16)
    {
      hide ScaledUp, Units16, Units32, Pow2;
      GetParts(v16);
      GetIsExact(v16 % SIGN16);
      var scaled := ScaledUp((v16 % SIGN16) * 8192);
      var out := scaled;
      if scaled >= (127 + 16) * TWO23 {
        out := 255 * TWO23 + scaled % TWO23;
      }
      if v16 >= SIGN16 {
        out := out + SIGN32;
      }
      bits := out;
    }

    method SetFloat(value: Bits32)
      modifies this
      ensures v16 == Set(value)
    {
      hide ScaledDown, Units16, Units32, Pow2;
      var inBits := value;
      var sign := if inBits >= SIGN32 then SIGN32 else 0;
      inBits := inBits - sign;
      v16 := 0;
      if inBits >= INF32 {
        v16 := if inBits > INF32 then 0x7FFF else 0x7C00;
      } else {
        inBits := inBits - inBits % 4096;
        inBits := ScaledDown(inBits);
        inBits := (inBits + 0x1_0000_0000 - 0xFFFF_F000) % 0x1_0000_0000;
        if inBits > 31 * TWO23 {
          inBits := 31 * TWO23;
        }
        v16 := inBits / 8192;
      }
      v16 := v16 + sign / 0x1_0000;
    }
  }
}
