/**
 The square-root controller and its inverse: linear near the set point, and beyond that as fast as a
 given deceleration can still stop.
 */
module SquareRootController {
  import opened Numeric

  predicate IsPositive(a: real) { a >= FLT_EPSILON }

  /** `safe_sqrt` */
  function SafeSqrt(sqrt: real -> real, v: real): real { if v >= 0.0 then sqrt(v) else 0.0 }

  /** Where the linear region ends: the error, and the rate there. */
  function LinearError(p: real, limit: real): real
    requires p != 0.0
  {
    limit / p / p
  }

  function LinearRate(p: real, limit: real): real
    requires p != 0.0
  {
    limit / p
  }

  /** The rate asked for before the overshoot limit. */
  function Rate(sqrt: real -> real, error: real, p: real, limit: real): real {
    if !IsPositive(limit) then Times(error, p)
    else if IsZero(p) then
      if IsPositive(error) then SafeSqrt(sqrt, Times(2.0 * limit, error))
      else if IsPositive(-error) then -SafeSqrt(sqrt, Times(2.0 * limit, -error))
      else 0.0
    else if error > LinearError(p, limit) then SafeSqrt(sqrt, Times(2.0 * limit, error - LinearError(p, limit) / 2.0))
    else if error < -LinearError(p, limit) then -SafeSqrt(sqrt, Times(2.0 * limit, -error - LinearError(p, limit) / 2.0))
    else Times(error, p)
  }

  /** `sqrt_controller`: with a time step, no rate overshoots the error. */
  function Controlled(sqrt: real -> real, error: real, p: real, limit: real, dt: real): real {
    var rate := Rate(sqrt, error, p, limit);
    if IsPositive(dt) then Clamp(rate, -Abs(error) / dt, Abs(error) / dt) else rate
  }

  /** `inv_sqrt_controller`: the error at which a rate is asked for. */
  function InverseControlled(output: real, p: real, limit: real): real {
    if IsPositive(limit) then
      if IsZero(p) then output * output / (2.0 * limit)
      else if Abs(output) < LinearRate(p, limit) then output / p
      else
        var distance := LinearError(p, limit) * 0.5 + output * output / (2.0 * limit);
        if IsPositive(output) then distance else -distance
    else if IsZero(p) then 0.0
    else output / p
  }

  // ---- the two regions ----

  /** With both a gain and a limit the linear region reaches to `u` in the rate and to `d` in the error. */
  lemma Regions(p: real, limit: real)
    requires p > 0.0 && limit > 0.0
    ensures var u, d := LinearRate(p, limit), LinearError(p, limit);
      u > 0.0 && d > 0.0 && Times(u, p) == limit && Times(d, p) == u && Times(limit, d) == Times(u, u)
  {
    var u, d := LinearRate(p, limit), LinearError(p, limit);
    Divided(limit, p);
    Divided(u, p);
    SharedFactor(d, u, p, limit);
  }

  lemma Divided(a: real, b: real)
    requires a > 0.0 && b > 0.0
    ensures a / b > 0.0 && Times(a / b, b) == a
  {}

  lemma SharedFactor(d: real, u: real, p: real, limit: real)
    requires Times(u, p) == limit && Times(d, p) == u
    ensures Times(limit, d) == Times(u, u)
  {
    SameTimes(Times(u, p), limit, d);
    SameTimes(Times(d, p), u, u);
    assert Times(Times(u, p), d) == Times(Times(d, p), u);
  }

  /** The stopping distance of a rate past the linear region, and the rate at that distance. */
  lemma PastLinear(sqrt: real -> real, output: real, p: real, limit: real)
    requires IsSquareRoot(sqrt) && p > 0.0 && limit > 0.0 && output >= LinearRate(p, limit)
    ensures var d := LinearError(p, limit); var e := d * 0.5 + output * output / (2.0 * limit);
      && (output > LinearRate(p, limit) ==> e > d) && (output == LinearRate(p, limit) ==> e == d)
      && sqrt(Times(2.0 * limit, e - d / 2.0)) == output
  {
    Regions(p, limit);
    var u, d := LinearRate(p, limit), LinearError(p, limit);
    var q := output * output / (2.0 * limit);
    var e := d * 0.5 + q;
    assert e - d / 2.0 == q;
    assert 2.0 * limit * q == output * output;
    SquareBack(sqrt, output, Times(2.0 * limit, e - d / 2.0));
    Beyond(limit, d, u, output, q);
  }

  lemma Beyond(limit: real, d: real, u: real, output: real, q: real)
    requires limit > 0.0 && 0.0 < u <= output && Times(limit, d) == Times(u, u) && 2.0 * limit * q == output * output
    ensures output > u ==> q > d / 2.0
    ensures output == u ==> q == d / 2.0
  {
    var gap := 2.0 * q - d;
    assert Times(limit, gap) == Times(output, output) - Times(u, u);
    SignOfFactor(limit, gap);
    if output > u {
      SquaresDiffer(u, output);
    }
  }

  lemma SignOfFactor(k: real, a: real)
    requires k > 0.0
    ensures (Times(k, a) > 0.0 <==> a > 0.0) && (Times(k, a) == 0.0 <==> a == 0.0) && Times(a, k) == Times(k, a)
  {
    assert Times(k, -a) == -Times(k, a);
    if a > 0.0 {
      TimesPositive(k, a);
    } else if a < 0.0 {
      TimesPositive(k, -a);
    }
  }

  lemma SquareBack(sqrt: real -> real, a: real, v: real)
    requires IsSquareRoot(sqrt) && a >= 0.0 && v == a * a
    ensures v >= 0.0 && sqrt(v) == a
  {
    SquareNonNegative(a);
    assert v == Times(a, a);
    var r := sqrt(v);
    assert Times(r, r) == Times(a, a);
    if r < a {
      SquaresDiffer(r, a);
    } else if a < r {
      SquaresDiffer(a, r);
    }
  }

  lemma InversePositive(output: real, p: real, limit: real)
    requires IsPositive(output) && IsPositive(p) && IsPositive(limit)
    ensures InverseControlled(output, p, limit) > 0.0
  {
    hide LinearRate, LinearError;
    Regions(p, limit);
    Divided(output, p);
    TimesPositive(output, output);
    Divided(Times(output, output), 2.0 * limit);
  }

  // ---- each undoes the other ----

  /** A rate past the linear region that is positive but taken for none: its sign is lost. */
  predicate LostSign(output: real, p: real, limit: real)
    requires p != 0.0
  {
    0.0 < output < FLT_EPSILON && output >= LinearRate(p, limit)
  }

  /** Both are odd. */
  lemma Mirrored(sqrt: real -> real, a: real, p: real, limit: real)
    requires IsPositive(p) && IsPositive(limit)
    ensures Rate(sqrt, -a, p, limit) == -Rate(sqrt, a, p, limit)
    ensures !LostSign(a, p, limit) && !LostSign(-a, p, limit) ==> InverseControlled(-a, p, limit) == -InverseControlled(a, p, limit)
  {
    hide IsSquareRoot, LinearRate, LinearError, SafeSqrt, Times;
    Regions(p, limit);
    NegatedProducts(a, p);
  }

  lemma NegatedProducts(a: real, p: real)
    requires p > 0.0
    ensures Times(-a, p) == -Times(a, p) && -a / p == -(a / p) && -a * -a == a * a
  {}

  /** A gain and a limit in use: the controller asks for a rate at the error its inverse gives, unless the sign of the rate is lost. */
  lemma InverseThenControl(sqrt: real -> real, output: real, p: real, limit: real)
    requires IsSquareRoot(sqrt) && IsPositive(p) && IsPositive(limit)
    ensures Controlled(sqrt, InverseControlled(output, p, limit), p, limit, 0.0) == output <==> !LostSign(output, p, limit)
  {
    hide IsSquareRoot, LinearRate, LinearError, Rate, Times;
    Regions(p, limit);
    if Abs(output) < LinearRate(p, limit) {
      LinearRateBack(sqrt, output, p, limit);
    } else if output > 0.0 {
      PastRate(sqrt, output, p, limit);
    } else {
      PastRate(sqrt, -output, p, limit);
      NegatedProducts(output, p);
    }
  }

  lemma LinearRateBack(sqrt: real -> real, output: real, p: real, limit: real)
    requires IsPositive(p) && IsPositive(limit) && Abs(output) < LinearRate(p, limit)
    ensures Rate(sqrt, output / p, p, limit) == output
  {
    hide LinearRate, LinearError, SafeSqrt, Times;
    Regions(p, limit);
    LinearBack(output, p, LinearRate(p, limit), LinearError(p, limit));
  }

  /** Inside the linear region both are the gain. */
  lemma LinearBack(output: real, p: real, u: real, d: real)
    requires p > 0.0 && Abs(output) < u && Times(d, p) == u
    ensures Times(output / p, p) == output && Abs(output / p) < d
  {
    var e := output / p;
    assert Times(e, p) == output;
    SignOfFactor(p, d - e);
    SignOfFactor(p, d + e);
    assert Times(d - e, p) == Times(d, p) - Times(e, p) && Times(d + e, p) == Times(d, p) + Times(e, p);
  }

  /** At the stopping distance of a rate the controller asks for that rate, in either direction. */
  lemma PastRate(sqrt: real -> real, output: real, p: real, limit: real)
    requires IsSquareRoot(sqrt) && IsPositive(p) && IsPositive(limit) && output >= LinearRate(p, limit)
    ensures var e := LinearError(p, limit) * 0.5 + output * output / (2.0 * limit);
      Rate(sqrt, e, p, limit) == output && Rate(sqrt, -e, p, limit) == -output
  {
    Regions(p, limit);
    PastLinear(sqrt, output, p, limit);
    var d := LinearError(p, limit);
    var e := d * 0.5 + output * output / (2.0 * limit);
    assert Times(2.0 * limit, e - d / 2.0) >= 0.0 by {
      TimesNonNegative(2.0 * limit, e - d / 2.0);
          }
    assert Times(-e, p) == -Times(e, p);
  }

  /** And the inverse finds the error a rate was asked for, unless that sign is lost. */
  lemma ControlThenInverse(sqrt: real -> real, error: real, p: real, limit: real)
    requires IsSquareRoot(sqrt) && IsPositive(p) && IsPositive(limit)
    ensures InverseControlled(Rate(sqrt, error, p, limit), p, limit) == error <==> !LostSign(Rate(sqrt, error, p, limit), p, limit)
  {
    hide IsSquareRoot, LinearRate, LinearError, Rate, Times;
    Regions(p, limit);
    if error >= 0.0 {
      StopsAt(sqrt, error, p, limit);
    } else {
      StopsAt(sqrt, -error, p, limit);
      Mirrored(sqrt, error, p, limit);
      NegatedProducts(Rate(sqrt, error, p, limit), p);
    }
  }

  /** The rate asked for at an error lies in the region of that error, and its distance there is the error. */
  lemma StopsAt(sqrt: real -> real, error: real, p: real, limit: real)
    requires IsSquareRoot(sqrt) && IsPositive(p) && IsPositive(limit) && error >= 0.0
    ensures var r, u, d := Rate(sqrt, error, p, limit), LinearRate(p, limit), LinearError(p, limit);
      && r >= 0.0 && (error > 0.0 ==> r > 0.0) && (error == 0.0 ==> r == 0.0)
      && (if error < d then r < u && r / p == error else r >= u && d * 0.5 + r * r / (2.0 * limit) == error)
  {
    hide IsSquareRoot, LinearRate, LinearError, Times;
    Regions(p, limit);
    var r, u, d := Rate(sqrt, error, p, limit), LinearRate(p, limit), LinearError(p, limit);
    InsideLinear(error, p, d);
    if error <= d {
      DistanceAt(u, d, limit);
    } else {
      RootPast(sqrt, error, limit, d, u);
      RootSquared(sqrt, Times(2.0 * limit, error - d / 2.0), r);
      DistanceAtRoot(r, error - d / 2.0, limit);
    }
  }

  lemma InsideLinear(error: real, p: real, d: real)
    requires p > 0.0
    ensures Times(error, p) / p == error
    ensures (error > 0.0 <==> Times(error, p) > 0.0) && (error == 0.0 <==> Times(error, p) == 0.0)
    ensures (error < d <==> Times(error, p) < Times(d, p)) && (error == d <==> Times(error, p) == Times(d, p))
  {
    SignOfFactor(p, error);
    SignOfFactor(p, d - error);
    assert Times(d - error, p) == Times(d, p) - Times(error, p);
  }

  lemma DistanceAt(u: real, d: real, limit: real)
    requires limit > 0.0 && Times(limit, d) == Times(u, u)
    ensures d * 0.5 + u * u / (2.0 * limit) == d
  {
    DistanceAtRoot(u, d / 2.0, limit);
  }

  lemma DistanceAtRoot(r: real, x: real, limit: real)
    requires limit > 0.0 && Times(r, r) == Times(2.0 * limit, x)
    ensures r * r / (2.0 * limit) == x
  {}

  lemma RootSquared(sqrt: real -> real, v: real, r: real)
    requires IsSquareRoot(sqrt) && r > 0.0 && r == SafeSqrt(sqrt, v)
    ensures Times(r, r) == v
  {}

  /** With a time step the controller never asks for more than the error, whatever its gain and limit. */
  lemma NoOvershoot(sqrt: real -> real, error: real, p: real, limit: real, dt: real)
    requires IsPositive(dt)
    ensures Times(Abs(Controlled(sqrt, error, p, limit, dt)), dt) <= Abs(error)
  {
    var rate, most := Controlled(sqrt, error, p, limit, dt), Abs(error) / dt;
    assert Times(most, dt) == Abs(error);
    NegatedProducts(Abs(error), dt);
    NonNegativeQuotient(Abs(error), dt);
    assert Abs(rate) <= most;
    TimesNonNegative(most - Abs(rate), dt);
    assert Times(most - Abs(rate), dt) == Times(most, dt) - Times(Abs(rate), dt);
  }

  lemma NonNegativeQuotient(a: real, b: real)
    requires a >= 0.0 && b > 0.0
    ensures a / b >= 0.0
  {}

  /** A larger error never asks for a lower rate. */
  lemma RateGrows(sqrt: real -> real, a: real, b: real, p: real, limit: real)
    requires IsSquareRoot(sqrt) && IsPositive(p) && IsPositive(limit) && 0.0 <= a <= b
    ensures Rate(sqrt, a, p, limit) <= Rate(sqrt, b, p, limit)
  {
    hide LinearRate, LinearError, IsSquareRoot;
    Regions(p, limit);
    var u, d := LinearRate(p, limit), LinearError(p, limit);
    if b <= d {
      TimesNonNegative(b - a, p);
      assert Times(b - a, p) == Times(b, p) - Times(a, p);
    } else {
      RootPast(sqrt, b, limit, d, u);
      if a <= d {
        TimesNonNegative(d - a, p);
        assert Times(d - a, p) == Times(d, p) - Times(a, p);
      } else {
        RootGrows(sqrt, a, b, limit, d);
      }
    }
  }

  lemma RootPast(sqrt: real -> real, b: real, limit: real, d: real, u: real)
    requires IsSquareRoot(sqrt) && limit > 0.0 && b > d > 0.0 && u > 0.0 && Times(limit, d) == Times(u, u)
    ensures SafeSqrt(sqrt, Times(2.0 * limit, b - d / 2.0)) >= u
  {
    var v := Times(2.0 * limit, b - d / 2.0);
    TimesPositive(limit, b - d);
    assert v == 2.0 * Times(limit, b - d) + Times(limit, d);
    SquareNonNegative(u);
    var r := sqrt(v);
    assert Times(r, r) == v;
    if r < u {
      SquaresDiffer(r, u);
    }
  }

  lemma RootGrows(sqrt: real -> real, a: real, b: real, limit: real, d: real)
    requires IsSquareRoot(sqrt) && limit > 0.0 && 0.0 < d < a <= b
    ensures SafeSqrt(sqrt, Times(2.0 * limit, a - d / 2.0)) <= SafeSqrt(sqrt, Times(2.0 * limit, b - d / 2.0))
  {
    var v, w := Times(2.0 * limit, a - d / 2.0), Times(2.0 * limit, b - d / 2.0);
    TimesPositive(limit, a - d / 2.0);
    TimesNonNegative(limit, b - a);
    assert v == 2.0 * Times(limit, a - d / 2.0) && w == v + 2.0 * Times(limit, b - a);
    var r, s := sqrt(v), sqrt(w);
    assert Times(r, r) == v && Times(s, s) == w;
    if s < r {
      SquaresDiffer(s, r);
    }
  }
}
