/**
 Positions in ten-millionths of a degree and the north and east distance between two of them, with
 longitudes compared the short way round.
 */
module Geodesy {
  import opened Numeric

  const SCALING_FACTOR: real := 0.011131884502145034
  const HALF_TURN: int := 1_800_000_000
  const RADIANS_PER_UNIT: real := 0.0000001 * 0.017453292519943295

  datatype Place = Place(lat: int, lng: int)

  /** The shrinking of a degree of longitude with latitude, never taken for zero. */
  function LongitudeScale(cos: real -> real, lat: int): (scale: real)
    ensures scale > 0.0
  {
    var c := cos(lat as real * RADIANS_PER_UNIT);
    if c > 0.01 then c else 0.01
  }

  /** The difference of two longitudes; with equal signs there is nothing to wrap. */
  function DiffLongitude(a: int, b: int): int {
    var d := a - b;
    if (a < 0) == (b < 0) then d
    else if d > HALF_TURN then d - 2 * HALF_TURN
    else if d < -HALF_TURN then d + 2 * HALF_TURN
    else d
  }

  /** Division towards zero. */
  function Halved(a: int): int { if a < 0 then -(-a / 2) else a / 2 }

  /** `get_distance_NE`, in metres. */
  function North(from: Place, to: Place): real { (to.lat - from.lat) as real * SCALING_FACTOR }

  function East(cos: real -> real, from: Place, to: Place): real {
    Times(DiffLongitude(to.lng, from.lng) as real * SCALING_FACTOR, LongitudeScale(cos, Halved(to.lat + from.lat)))
  }

  predicate OnGlobe(p: Place) { -HALF_TURN <= p.lng <= HALF_TURN }

  /** The wrapped difference is the difference up to whole turns, and goes the short way round. */
  lemma ShortWayRound(a: Place, b: Place)
    requires OnGlobe(a) && OnGlobe(b)
    ensures var d := DiffLongitude(a.lng, b.lng);
      && -HALF_TURN <= d <= HALF_TURN
      && (d == a.lng - b.lng || d == a.lng - b.lng + 2 * HALF_TURN || d == a.lng - b.lng - 2 * HALF_TURN)
      && DiffLongitude(b.lng, a.lng) == -d
  {}

  /** North is towards higher latitude and east towards higher longitude, the short way round; the same place is at no distance. */
  lemma CompassPoints(cos: real -> real, from: Place, to: Place)
    ensures North(from, to) > 0.0 <==> to.lat > from.lat
    ensures North(from, to) < 0.0 <==> to.lat < from.lat
    ensures East(cos, from, to) > 0.0 <==> DiffLongitude(to.lng, from.lng) > 0
    ensures East(cos, from, to) < 0.0 <==> DiffLongitude(to.lng, from.lng) < 0
  {
    var d, k := DiffLongitude(to.lng, from.lng) as real * SCALING_FACTOR, LongitudeScale(cos, Halved(to.lat + from.lat));
    if d > 0.0 {
      TimesPositive(d, k);
    } else if d < 0.0 {
      TimesPositive(-d, k);
      assert Times(-d, k) == -Times(d, k);
    } else {
      assert Times(0.0, k) == 0.0;
    }
  }

  /** Going there and back cancels. */
  lemma ThereAndBack(cos: real -> real, a: Place, b: Place)
    requires OnGlobe(a) && OnGlobe(b)
    ensures North(a, b) == -North(b, a) && East(cos, a, b) == -East(cos, b, a)
  {
    ShortWayRound(a, b);
    var d, k := DiffLongitude(a.lng, b.lng) as real * SCALING_FACTOR, LongitudeScale(cos, Halved(a.lat + b.lat));
    assert Times(-d, k) == -Times(d, k);
  }
}
