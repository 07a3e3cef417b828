/**
 The lift law of a vertical-takeoff model: a climb-rate controller with an integral trim around the
 hover command, the lift assist that fades out with airspeed, and the latch that ends a transition.
 The plant, its frame and the fixed-wing vehicle enter as inputs.
 */
module VtolLift {
  import opened Numeric

  const SUB_DT: real := 0.0025
  const SUBSTEPS: nat := 8
  const MAX_STEPS: nat := 64

  datatype Mode = Manual | Fbwa | Fbwb | Cruise | Auto | Rtl | Loiter | Takeoff | Qhover | Qland | Unknown

  datatype Status = Ok | NotInitialized | BadMode | ModeRefused | BadModel

  datatype Gains = Gains(
    climb: real, trim: real, climbMax: real, landRate: real, assistFull: real, assistZero: real, capture: real, cruise: real)

  predicate Vertical(m: Mode) { m == Qhover || m == Qland }

  /** The check a vertical-takeoff model must pass. */
  predicate Consistent(g: Gains) {
    g.assistZero > g.assistFull && g.assistZero <= g.cruise && g.climbMax > 0.0 && g.landRate > 0.0
  }

  // ---- the hover command ----

  /** The collective whose thrust is `h` under the exponent `e`; `root` is the square root of the discriminant. */
  function HoverCommand(e: real, h: real, root: real): real {
    if e <= 0.000001 then h else (-(1.0 - e) + root) / (2.0 * e)
  }

  function Discriminant(e: real, h: real): real { Times(1.0 - e, 1.0 - e) + 4.0 * Times(e, h) }

  /** The hover command of a hover thrust in [0, 1] is in [0, 1], and above the cut-off it produces that thrust. */
  lemma HoverCommandFits(e: real, h: real, root: real)
    requires 0.0 <= e <= 1.0 && 0.0 <= h <= 1.0
    requires root >= 0.0 && Times(root, root) == Discriminant(e, h)
    ensures var c := HoverCommand(e, h, root);
      0.0 <= c <= 1.0 && (e > 0.000001 ==> Times(1.0 - e, c) + Times(e, Times(c, c)) == h)
  {
    if e > 0.000001 {
      var c := HoverCommand(e, h, root);
      RootBetween(e, h, root);
      Quotient(-(1.0 - e) + root, 2.0 * e, c);
      assert root == 1.0 - e + 2.0 * Times(e, c) by {
        assert c * (2.0 * e) == 2.0 * Times(e, c);
      }
      Thrust(e, h, c, root);
    }
  }

  lemma RootBetween(e: real, h: real, root: real)
    requires 0.0 < e <= 1.0 && 0.0 <= h <= 1.0 && root >= 0.0 && Times(root, root) == Discriminant(e, h)
    ensures 1.0 - e <= root <= 1.0 + e
  {
    var lo, hi := 1.0 - e, 1.0 + e;
    TimesNonNegative(e, h);
    TimesNonNegative(e, 1.0 - h);
    assert Times(e, 1.0 - h) == e - Times(e, h);
    assert Times(hi, hi) == Times(lo, lo) + 4.0 * e;
    if root < lo {
      SquaresDiffer(root, lo);
    }
    if root > hi {
      SquaresDiffer(hi, root);
    }
  }

  lemma Quotient(a: real, b: real, q: real)
    requires b > 0.0 && q == a / b && 0.0 <= a <= b
    ensures q * b == a && 0.0 <= q <= 1.0
  {
    assert Times(-q, b) == -a && Times(q - 1.0, b) == a - b;
    if q < 0.0 {
      TimesPositive(-q, b);
    }
    if q > 1.0 {
      TimesPositive(q - 1.0, b);
    }
  }

  lemma Thrust(e: real, h: real, c: real, root: real)
    requires e > 0.0 && root == 1.0 - e + 2.0 * Times(e, c) && Times(root, root) == Discriminant(e, h)
    ensures Times(1.0 - e, c) + Times(e, Times(c, c)) == h
  {
    var t := Times(1.0 - e, c) + Times(e, Times(c, c));
    assert Times(root, root) == Times(1.0 - e, 1.0 - e) + 4.0 * Times(e, t);
    assert Times(e, t) == Times(e, h);
    CancelFactor(e, t, h);
  }

  lemma CancelFactor(e: real, a: real, b: real)
    requires e > 0.0 && Times(e, a) == Times(e, b)
    ensures a == b
  {
    assert Times(e, b - a) == Times(e, b) - Times(e, a) && Times(e, a - b) == Times(e, a) - Times(e, b);
    if a < b {
      TimesPositive(e, b - a);
    } else if b < a {
      TimesPositive(e, a - b);
    }
  }

  // ---- the law of one sub-step ----

  /** What the law reads of the plant at a sub-step, and the throttle stick. */
  datatype Sample = Sample(climbRate: real, onGround: bool, airspeed: real, throttle: int)

  datatype Lift = Lift(
    ready: bool, vtol: bool, mode: Mode, hover: real, trim: real, done: bool, latched: bool, dist: real, gains: Gains)

  function Stick(throttle: int): real { Clamp((throttle as real - 1500.0) / 400.0, -1.0, 1.0) }

  /** The climb rate asked for; a landing waits at its height until the position is captured. */
  function Demand(s: Lift, x: Sample): real {
    if s.mode == Qhover then Times(Stick(x.throttle), s.gains.climbMax)
    else if s.latched && s.dist > s.gains.capture then 0.0
    else -s.gains.landRate
  }

  function Error(s: Lift, x: Sample): real { Demand(s, x) - x.climbRate }

  function Unsaturated(s: Lift, x: Sample): real { s.hover + s.trim + Times(s.gains.climb, Error(s, x)) }

  /** The output is saturated and the error would drive it further. */
  predicate Wound(s: Lift, x: Sample) {
    || (Unsaturated(s, x) <= 0.0 && Error(s, x) < 0.0)
    || (Unsaturated(s, x) >= 1.0 && Error(s, x) > 0.0)
  }

  predicate Grounded(s: Lift, x: Sample) { s.mode == Qland && x.onGround }

  function Increment(s: Lift, x: Sample): real { Times(Times(s.gains.trim, Error(s, x)), SUB_DT) }

  function NextTrim(s: Lift, x: Sample): real {
    if !Vertical(s.mode) then s.trim
    else if Grounded(s, x) then 0.0
    else if Wound(s, x) then s.trim
    else Clamp(s.trim + Increment(s, x), -s.hover, 1.0 - s.hover)
  }

  function AssistShare(g: Gains, airspeed: real): real
    requires g.assistZero > g.assistFull
  {
    Clamp((g.assistZero - airspeed) / (g.assistZero - g.assistFull), 0.0, 1.0)
  }

  function Collective(s: Lift, x: Sample): real
    requires !Vertical(s.mode) ==> s.gains.assistZero > s.gains.assistFull
  {
    if !Vertical(s.mode) then Times(s.hover + s.trim, AssistShare(s.gains, x.airspeed))
    else if Grounded(s, x) then 0.0
    else Clamp(s.hover + NextTrim(s, x) + Times(s.gains.climb, Error(s, x)), 0.0, 1.0)
  }

  predicate TrimFits(s: Lift) { 0.0 <= s.hover <= 1.0 && -s.hover <= s.trim <= 1.0 - s.hover }

  /** The trim keeps the hover collective within its range, and the output is a collective. */
  lemma LawFits(s: Lift, x: Sample)
    requires TrimFits(s) && s.gains.assistZero > s.gains.assistFull
    ensures TrimFits(s.(trim := NextTrim(s, x))) && 0.0 <= Collective(s, x) <= 1.0
  {
    if !Vertical(s.mode) {
      var a, b := s.hover + s.trim, AssistShare(s.gains, x.airspeed);
      TimesNonNegative(a, b);
      TimesNonNegative(1.0 - a, b);
      assert Times(1.0 - a, b) == b - Times(a, b);
    }
  }

  /**
   The integrator. It moves only the way the error points; it never moves further into a saturated output, and
   passes saturation by at most the one increment that reached it; and it unwinds at once when the error turns.
   */
  lemma AntiWindup(s: Lift, x: Sample)
    requires TrimFits(s) && Vertical(s.mode) && !Grounded(s, x) && s.gains.trim >= 0.0
    ensures var n, e := NextTrim(s, x), Error(s, x);
      && (n > s.trim ==> e > 0.0 && Unsaturated(s, x) < 1.0 && n - s.trim <= Increment(s, x))
      && (n < s.trim ==> e < 0.0 && Unsaturated(s, x) > 0.0 && s.trim - n <= -Increment(s, x))
      && (n > s.trim ==> Unsaturated(s.(trim := n), x) < 1.0 + Increment(s, x))
      && (n < s.trim ==> Unsaturated(s.(trim := n), x) > Increment(s, x))
      && (s.gains.trim > 0.0 && e < 0.0 && Unsaturated(s, x) > 0.0 && s.trim > -s.hover ==> n < s.trim)
      && (s.gains.trim > 0.0 && e > 0.0 && Unsaturated(s, x) < 1.0 && s.trim < 1.0 - s.hover ==> n > s.trim)
  {
    IncrementSign(s.gains.trim, Error(s, x));
  }

  lemma IncrementSign(g: real, e: real)
    requires g >= 0.0
    ensures e >= 0.0 ==> Times(Times(g, e), SUB_DT) >= 0.0
    ensures e <= 0.0 ==> Times(Times(g, e), SUB_DT) <= 0.0
    ensures g > 0.0 && e > 0.0 ==> Times(Times(g, e), SUB_DT) > 0.0
    ensures g > 0.0 && e < 0.0 ==> Times(Times(g, e), SUB_DT) < 0.0
  {
    if e >= 0.0 {
      TimesNonNegative(g, e);
    } else {
      TimesNonNegative(g, -e);
      assert Times(g, -e) == -Times(g, e);
    }
    if g > 0.0 && e > 0.0 {
      TimesPositive(g, e);
    } else if g > 0.0 && e < 0.0 {
      TimesPositive(g, -e);
    }
  }

  /** The stick asks for no climb in the middle, for more the higher it is, and for the whole climb rate at its ends. */
  lemma StickDemands(s: Lift, x: Sample, y: Sample)
    requires s.mode == Qhover && s.gains.climbMax >= 0.0
    ensures x.throttle == 1500 ==> Demand(s, x) == 0.0
    ensures x.throttle <= y.throttle ==> Demand(s, x) <= Demand(s, y)
    ensures x.throttle >= 1900 ==> Demand(s, x) == s.gains.climbMax
    ensures x.throttle <= 1100 ==> Demand(s, x) == -s.gains.climbMax
  {
    var p, q, c := Stick(x.throttle), Stick(y.throttle), s.gains.climbMax;
    if p <= q {
      TimesNonNegative(q - p, c);
      assert Times(q - p, c) == Times(q, c) - Times(p, c);
    }
    assert Times(0.0, c) == 0.0 && Times(1.0, c) == c && Times(-1.0, c) == -c;
  }

  /** A landing keeps its height until it is over the point, and then comes down. */
  lemma LandingDemands(s: Lift, x: Sample)
    requires s.mode == Qland && s.gains.landRate > 0.0
    ensures Demand(s, x) < 0.0 <==> !s.latched || s.dist <= s.gains.capture
    ensures s.latched && s.dist > s.gains.capture ==> Demand(s, x) == 0.0
  {}

  /** The law works against the error: climbing faster never gets more collective, at the output or in the trim. */
  lemma FeedbackOpposes(s: Lift, x: Sample, y: Sample)
    requires TrimFits(s) && Vertical(s.mode) && s.gains.climb >= 0.0 && s.gains.trim >= 0.0 && s.gains.assistZero > s.gains.assistFull
    requires y == x.(climbRate := y.climbRate) && x.climbRate <= y.climbRate
    ensures Collective(s, y) <= Collective(s, x)
    ensures !Wound(s, x) && !Wound(s, y) ==> NextTrim(s, y) <= NextTrim(s, x)
  {
    var e, f := Error(s, x), Error(s, y);
    TimesNonNegative(s.gains.climb, e - f);
    assert Times(s.gains.climb, e - f) == Times(s.gains.climb, e) - Times(s.gains.climb, f);
    IncrementGrows(s.gains.trim, f, e);
    LawFits(s, x);
    LawFits(s, y);
    IncrementSign(s.gains.trim, e);
    IncrementSign(s.gains.trim, f);
  }

  lemma IncrementGrows(g: real, f: real, e: real)
    requires g >= 0.0 && f <= e
    ensures Times(Times(g, f), SUB_DT) <= Times(Times(g, e), SUB_DT)
  {
    TimesNonNegative(g, e - f);
    assert Times(g, e - f) == Times(g, e) - Times(g, f);
  }

  /** The assist is full up to one airspeed, none from the other on, and never grows with airspeed. */
  lemma AssistFades(s: Lift, x: Sample, y: Sample)
    requires TrimFits(s) && !Vertical(s.mode) && s.gains.assistZero > s.gains.assistFull
    ensures x.airspeed <= y.airspeed ==> Collective(s, y) <= Collective(s, x)
    ensures x.airspeed <= s.gains.assistFull ==> Collective(s, x) == s.hover + s.trim
    ensures x.airspeed >= s.gains.assistZero ==> Collective(s, x) == 0.0
  {
    var g, a := s.gains, s.hover + s.trim;
    var w := g.assistZero - g.assistFull;
    RatioGrows(g.assistZero - y.airspeed, g.assistZero - x.airspeed, w);
    RatioGrows(w, g.assistZero - x.airspeed, w);
    RatioGrows(g.assistZero - x.airspeed, 0.0, w);
    var p, q := AssistShare(g, x.airspeed), AssistShare(g, y.airspeed);
    if q <= p {
      TimesNonNegative(a, p - q);
      assert Times(a, p - q) == Times(a, p) - Times(a, q);
    }
    assert Times(a, 1.0) == a && Times(a, 0.0) == 0.0;
  }

  lemma RatioGrows(a: real, b: real, w: real)
    requires w > 0.0
    ensures a <= b ==> a / w <= b / w
    ensures 0.0 / w == 0.0 && w / w == 1.0
  {
    assert Times(a / w - b / w, w) == a - b;
    if a <= b && a / w > b / w {
      TimesPositive(a / w - b / w, w);
    }
  }

  // ---- sub-steps, ticks and commands ----

  function SubStep(s: Lift, x: Sample): Lift { s.(trim := NextTrim(s, x)) }

  function SubSteps(s: Lift, xs: seq<Sample>): Lift {
    if |xs| == 0 then s else SubStep(SubSteps(s, xs[..|xs| - 1]), xs[|xs| - 1])
  }

  /** The collectives a sequence of sub-steps applies. */
  function Outputs(s: Lift, xs: seq<Sample>): (out: seq<real>)
    requires s.gains.assistZero > s.gains.assistFull
    ensures |out| == |xs|
  {
    if |xs| == 0 then []
    else
      var n := |xs| - 1;
      SameSettings(s, xs[..n]);
      Outputs(s, xs[..n]) + [Collective(SubSteps(s, xs[..n]), xs[n])]
  }

  /** Sub-steps change the trim alone. */
  lemma {:induction false} SameSettings(s: Lift, xs: seq<Sample>)
    ensures SubSteps(s, xs) == s.(trim := SubSteps(s, xs).trim)
  {
    if |xs| > 0 {
      SameSettings(s, xs[..|xs| - 1]);
    }
  }

  /**
   One 20 ms tick: `landDue` says that the automatic mission has reached its landing item, `deflected` that a
   roll or pitch stick is held, `dist` is the distance to the held position.
   */
  datatype Tick = Tick(landDue: bool, deflected: bool, dist: real, airspeed: real, samples: seq<Sample>)

  /** The landing takeover: a vertical landing at the item, with a fresh trim. */
  function TakeOver(s: Lift, t: Tick): Lift {
    if t.landDue && s.mode != Qland then s.(mode := Qland, latched := true, trim := 0.0) else s
  }

  function Latch(s: Lift, airspeed: real): Lift {
    if Vertical(s.mode) then s.(done := false)
    else if airspeed >= s.gains.cruise then s.(done := true)
    else s
  }

  function HoldPosition(s: Lift, t: Tick): Lift {
    if !Vertical(s.mode) then s
    else if s.mode == Qhover && t.deflected then s.(latched := false)
    else s.(latched := true, dist := t.dist)
  }

  predicate Flying(s: Lift) { s.ready && s.vtol }

  /** The state in which the sub-steps of a tick run. */
  function Prepared(s: Lift, t: Tick): Lift { HoldPosition(Latch(TakeOver(s, t), t.airspeed), t) }

  /** A tick of a landing, taken over or commanded: it descends exactly over the point, from a fresh trim when it has just taken over, with the transition still to come. */
  lemma LandingTick(s: Lift, t: Tick, x: Sample)
    requires (s.mode == Qland || t.landDue) && s.gains.landRate > 0.0
    ensures var p := Prepared(s, t);
      && p.mode == Qland && !p.done
      && p.trim == (if s.mode == Qland then s.trim else 0.0)
      && (Demand(p, x) < 0.0 <==> t.dist <= s.gains.capture) && (t.dist > s.gains.capture ==> Demand(p, x) == 0.0)
  {
    LandingDemands(Prepared(s, t), x);
  }

  function Ticked(s: Lift, t: Tick): Lift {
    if Flying(s) then SubSteps(Prepared(s, t), t.samples) else s
  }

  /** The speed controller's limits are held during a transition. */
  predicate Transitioning(s: Lift) { !Vertical(s.mode) && !s.done }

  /** What INIT finds in place of a model: nothing, something unreadable, or a model. */
  datatype Model = NoModel | Unreadable | Given(vtol: bool, frameOk: bool, applied: bool, hover: real, gains: Gains)

  const DEFAULTS: Gains := Gains(0.08, 0.05, 2.5, 1.0, 8.0, 16.0, 15.0, 12.0)

  predicate Usable(m: Model) {
    m.NoModel? || (m.Given? && m.applied && (m.vtol ==> m.frameOk && Consistent(m.gains)))
  }

  function Initialised(m: Model, hover: real): Lift {
    var blank := Lift(Usable(m), false, Manual, hover, 0.0, false, false, 0.0, DEFAULTS);
    if !m.Given? then blank
    else if !m.vtol then blank.(gains := m.gains)
    else if !m.frameOk then blank.(vtol := true)
    else blank.(vtol := true, hover := m.hover, gains := m.gains)
  }

  /** A mode command; `accepted` is the fixed-wing vehicle's own answer. */
  function Commanded(s: Lift, m: Mode): Lift {
    if !s.ready then s
    else if Vertical(m) then if s.vtol then s.(mode := m, latched := false) else s
    else if m == Unknown then s
    else s.(mode := Manual)
  }

  function CommandStatus(s: Lift, m: Mode, accepted: bool): Status {
    if !s.ready then NotInitialized
    else if Vertical(m) then if s.vtol then Ok else BadMode
    else if m == Unknown then BadMode
    else if accepted then Ok else ModeRefused
  }

  datatype Event = Init(model: Model, hover: real) | Command(mode: Mode, accepted: bool) | Step(tick: Tick)

  function Happen(s: Lift, e: Event): Lift {
    match e
    case Init(m, hover) => Initialised(m, hover)
    case Command(m, _) => Commanded(s, m)
    case Step(t) => Ticked(s, t)
  }

  function Run(s: Lift, events: seq<Event>): Lift {
    if |events| == 0 then s else Happen(Run(s, events[..|events| - 1]), events[|events| - 1])
  }

  /** The frames in use hover within their range. */
  predicate HoverInRange(e: Event) {
    e.Init? ==> 0.0 <= e.hover <= 1.0 && (e.model.Given? ==> 0.0 <= e.model.hover <= 1.0)
  }

  predicate AllInRange(events: seq<Event>) { forall i :: 0 <= i < |events| ==> HoverInRange(events[i]) }

  // ---- whole runs ----

  predicate Sound(s: Lift) { TrimFits(s) && (Flying(s) ==> Consistent(s.gains)) }

  lemma {:induction false} SubStepsFit(s: Lift, xs: seq<Sample>)
    requires TrimFits(s) && s.gains.assistZero > s.gains.assistFull
    ensures TrimFits(SubSteps(s, xs))
    ensures forall i :: 0 <= i < |xs| ==> 0.0 <= Outputs(s, xs)[i] <= 1.0
  {
    hide NextTrim, Collective, TrimFits;
    if |xs| > 0 {
      var n := |xs| - 1;
      SubStepsFit(s, xs[..n]);
      SameSettings(s, xs[..n]);
      LawFits(SubSteps(s, xs[..n]), xs[n]);
    }
  }

  lemma TickFits(s: Lift, t: Tick)
    requires Sound(s)
    ensures Sound(Ticked(s, t))
    ensures Flying(s) ==> forall i :: 0 <= i < |t.samples| ==> 0.0 <= Outputs(Prepared(s, t), t.samples)[i] <= 1.0
  {
    hide SubSteps, Outputs;
    if Flying(s) {
      SubStepsFit(Prepared(s, t), t.samples);
      SameSettings(Prepared(s, t), t.samples);
    }
  }

  /** What a tick applies to the lift motors is a collective. */
  predicate AppliesCollectives(s: Lift, e: Event) {
    e.Step? && Flying(s) ==>
      && Consistent(s.gains)
      && forall k :: 0 <= k < |e.tick.samples| ==> 0.0 <= Outputs(Prepared(s, e.tick), e.tick.samples)[k] <= 1.0
  }

  /** In every reachable state the trim keeps the hover collective in [0, 1], and every collective applied is in [0, 1]. */
  lemma {:induction false} RunFits(s: Lift, events: seq<Event>)
    requires Sound(s) && AllInRange(events)
    ensures Sound(Run(s, events))
    ensures forall i :: 0 <= i < |events| ==> AppliesCollectives(Run(s, events[..i]), events[i])
  {
    hide Outputs, Prepared, Ticked, TrimFits, Consistent;
    if |events| > 0 {
      var n := |events| - 1;
      RunFits(s, events[..n]);
      forall i | 0 <= i < n
        ensures events[..n][..i] == events[..i] && events[..n][i] == events[i]
      {}
      if events[n].Step? {
        TickFits(Run(s, events[..n]), events[n].tick);
      } else {
        EventFits(Run(s, events[..n]), events[n]);
      }
    }
  }

  lemma EventFits(s: Lift, e: Event)
    requires Sound(s) && HoverInRange(e) && !e.Step?
    ensures Sound(Happen(s, e))
  {}

  // ---- the transition latch ----

  /** A tick flown vertically. */
  predicate VerticalTick(s: Lift, e: Event) { e.Step? && Flying(s) && Vertical(TakeOver(s, e.tick).mode) }

  /** A tick flown on the wing at cruise speed. */
  predicate FastTick(s: Lift, e: Event) {
    e.Step? && Flying(s) && !Vertical(TakeOver(s, e.tick).mode) && e.tick.airspeed >= s.gains.cruise
  }

  /** Event `i` set the latch and nothing since has cleared it. */
  predicate LatchedAt(s: Lift, events: seq<Event>, i: nat)
    requires i < |events|
  {
    && FastTick(Run(s, events[..i]), events[i])
    && forall j :: i < j < |events| ==> !events[j].Init? && !VerticalTick(Run(s, events[..j]), events[j])
  }

  lemma LatchStep(s: Lift, e: Event)
    ensures Happen(s, e).done <==> !e.Init? && !VerticalTick(s, e) && (s.done || FastTick(s, e))
    ensures FastTick(s, e) ==> !e.Init? && !VerticalTick(s, e)
  {
    hide SubSteps;
    if e.Step? {
      SameSettings(Prepared(s, e.tick), e.tick.samples);
    }
  }

  /** The transition counts as done exactly when cruise was reached and no vertical tick and no INIT came since. */
  lemma {:induction false} LatchHistory(s: Lift, events: seq<Event>)
    requires !s.done
    ensures Run(s, events).done <==> exists i: nat :: i < |events| && LatchedAt(s, events, i)
  {
    hide Happen, VerticalTick, FastTick;
    if |events| > 0 {
      var n := |events| - 1;
      var was := Run(s, events[..n]);
      LatchHistory(s, events[..n]);
      LatchStep(was, events[n]);
      LatchedLonger(s, events, n);
      if was.done {
        var i: nat :| i < n && LatchedAt(s, events[..n], i);
        LatchedLonger(s, events, i);
      }
      if i: nat :| i < |events| && LatchedAt(s, events, i) {
        LatchedLonger(s, events, i);
      }
    }
  }

  lemma LatchedLonger(s: Lift, events: seq<Event>, i: nat)
    requires i < |events|
    ensures var n := |events| - 1;
      LatchedAt(s, events, i) <==>
        if i == n then FastTick(Run(s, events[..n]), events[n])
        else LatchedAt(s, events[..n], i) && !events[n].Init? && !VerticalTick(Run(s, events[..n]), events[n])
  {
    hide Run, VerticalTick, FastTick;
    var n := |events| - 1;
    forall j | 0 <= j < n
      ensures events[..n][..j] == events[..j] && events[..n][j] == events[j]
    {}
  }

  /** Entering a vertical mode does not itself clear the latch: left again before a tick, it keeps the guard of the next transition off. */
  lemma LatchSurvivesHoverCommand(s: Lift)
    requires Flying(s) && s.done
    ensures var t := Run(s, [Command(Qhover, true), Command(Cruise, true)]); t.done && !Vertical(t.mode) && !Transitioning(t)
  {
    var events := [Command(Qhover, true), Command(Cruise, true)];
    assert events[..1] == [Command(Qhover, true)] && [Command(Qhover, true)][..0] == [];
    assert Run(s, [Command(Qhover, true)]) == s.(mode := Qhover, latched := false);
    assert Run(s, events) == Commanded(Run(s, events[..1]), Cruise);
  }

  /**
   A command that fails leaves everything as it was, except that a fixed-wing mode the vehicle refuses has already
   ended the vertical law.
   */
  lemma RefusalLeavesHover(s: Lift, m: Mode, accepted: bool)
    requires CommandStatus(s, m, accepted) != Ok
    ensures Commanded(s, m) == s <==> !(s.ready && !Vertical(m) && m != Unknown && s.mode != Manual)
    ensures Commanded(s, m) != s ==> CommandStatus(s, m, accepted) == ModeRefused && Commanded(s, m) == s.(mode := Manual)
  {}

  /** Nothing in the event hands the aircraft to the vertical law or starts over. */
  predicate Quiet(s: Lift, e: Event) {
    match e
    case Init(_, _) => false
    case Command(m, accepted) => !(Vertical(m) && CommandStatus(s, m, accepted) == Ok)
    case Step(t) => !(Flying(s) && t.landDue)
  }

  /** Off the vertical law, exactly an accepted vertical command or a landing takeover brings it back, and a quiet event keeps the trim. */
  lemma QuietExactly(s: Lift, e: Event)
    requires !Vertical(s.mode)
    ensures Vertical(Happen(s, e).mode) <==> !e.Init? && !Quiet(s, e)
    ensures Quiet(s, e) ==> Happen(s, e).trim == s.trim
  {
    hide SubSteps;
    if e.Step? && Flying(s) {
      var p := Prepared(s, e.tick);
      SameSettings(p, e.tick.samples);
      if !Vertical(p.mode) {
        TrimRests(p, e.tick.samples);
      }
    }
  }

  lemma {:induction false} TrimRests(s: Lift, xs: seq<Sample>)
    requires !Vertical(s.mode)
    ensures SubSteps(s, xs).trim == s.trim
  {
    if |xs| > 0 {
      TrimRests(s, xs[..|xs| - 1]);
      SameSettings(s, xs[..|xs| - 1]);
    }
  }

  /** After a fixed-wing command, accepted or refused, the vertical law is off and the trim rests until an event that is not quiet. */
  lemma {:induction false} LawStaysOff(s: Lift, m: Mode, events: seq<Event>)
    requires s.ready && !Vertical(m) && m != Unknown
    requires forall i :: 0 <= i < |events| ==> Quiet(Run(Commanded(s, m), events[..i]), events[i])
    ensures var t := Run(Commanded(s, m), events); !Vertical(t.mode) && t.trim == s.trim
  {
    hide Quiet, Happen;
    if |events| > 0 {
      var n := |events| - 1;
      forall i | 0 <= i < n
        ensures Quiet(Run(Commanded(s, m), events[..n][..i]), events[..n][i])
      {
        assert events[..n][..i] == events[..i];
      }
      LawStaysOff(s, m, events[..n]);
      QuietExactly(Run(Commanded(s, m), events[..n]), events[n]);
    }
  }

  // ---- the bridge ----

  class Bridge {
    var ready: bool
    var vtol: bool
    var mode: Mode
    var hover: real
    var hoverTrim: real
    var transitionDone: bool
    var latched: bool
    var dist: real
    var gains: Gains
    var lastLift: real
    var applied: seq<real>

    ghost function State(): Lift
      reads this
    {
      Lift(ready, vtol, mode, hover, hoverTrim, transitionDone, latched, dist, gains)
    }

    constructor ()
      ensures Sound(State()) && !ready && applied == []
    {
      ready, vtol, mode, hover, hoverTrim := false, false, Manual, 0.0, 0.0;
      transitionDone, latched, dist, gains := false, false, 0.0, DEFAULTS;
      lastLift, applied := 0.0, [];
    }

    method Initialise(model: Model, frameHover: real) returns (status: Status)
      modifies this
      ensures State() == Initialised(model, frameHover) && applied == old(applied)
      ensures status == if Usable(model) then Ok else BadModel
    {
      vtol, mode, hoverTrim, transitionDone, latched, dist := false, Manual, 0.0, false, false, 0.0;
      hover, gains := frameHover, DEFAULTS;
      ready := false;
      match model {
        case NoModel =>
        case Unreadable =>
          return BadModel;
        case Given(flag, frameOk, applies, modelHover, g) =>
          vtol := flag;
          if vtol {
            if !frameOk {
              return BadModel;
            }
            hover := modelHover;
          }
          gains := g;
          if !applies {
            return BadModel;
          }
          if vtol && !(g.assistZero > g.assistFull && g.assistZero <= g.cruise && g.climbMax > 0.0 && g.landRate > 0.0) {
            return BadModel;
          }
      }
      ready := true;
      return Ok;
    }

    method SetMode(requested: Mode, accepted: bool) returns (status: Status)
      modifies this
      ensures State() == old(Commanded(State(), requested)) && applied == old(applied)
      ensures status == old(CommandStatus(State(), requested, accepted))
    {
      if !ready {
        return NotInitialized;
      }
      if requested == Qhover || requested == Qland {
        if !vtol {
          return BadMode;
        }
        mode := requested;
        latched := false;
        return Ok;
      }
      if requested == Unknown {
        return BadMode;
      }
      mode := Manual;
      if !accepted {
        return ModeRefused;
      }
      return Ok;
    }

    method VtolCollective(x: Sample) returns (lift: real)
      requires Flying(State()) && Consistent(gains)
      modifies this
      ensures State() == old(SubStep(State(), x)) && lift == old(Collective(State(), x)) && applied == old(applied)
    {
      if mode == Qhover || mode == Qland {
        var climbDem: real;
        if mode == Qhover {
          climbDem := Times(Stick(x.throttle), gains.climbMax);
        } else {
          if x.onGround {
            hoverTrim := 0.0;
            return 0.0;
          }
          climbDem := if latched && dist > gains.capture then 0.0 else -gains.landRate;
        }
        var err := climbDem - x.climbRate;
        var pTerm := Times(gains.climb, err);
        var unsat := hover + hoverTrim + pTerm;
        var woundLow := unsat <= 0.0 && err < 0.0;
        var woundHigh := unsat >= 1.0 && err > 0.0;
        if !woundLow && !woundHigh {
          hoverTrim := Clamp(hoverTrim + Times(Times(gains.trim, err), SUB_DT), -hover, 1.0 - hover);
        }
        return Clamp(hover + hoverTrim + pTerm, 0.0, 1.0);
      }
      return Times(hover + hoverTrim, Clamp((gains.assistZero - x.airspeed) / (gains.assistZero - gains.assistFull), 0.0, 1.0));
    }

    /** Takeover, latch and position hold at the head of a tick. */
    method Prepare(t: Tick) returns (limits: bool)
      modifies this
      ensures State() == old(Prepared(State(), t)) && applied == old(applied)
      ensures limits <==> Transitioning(State())
    {
      if t.landDue && mode != Qland {
        mode, latched, hoverTrim := Qland, true, 0.0;
      }
      if mode == Qhover || mode == Qland {
        transitionDone := false;
      } else if t.airspeed >= gains.cruise {
        transitionDone := true;
      }
      limits := mode != Qhover && mode != Qland && !transitionDone;
      if mode == Qhover || mode == Qland {
        if mode == Qhover && t.deflected {
          latched := false;
        } else {
          latched, dist := true, t.dist;
        }
      }
    }

    /** One tick; the speed controller's limits are held exactly during a transition. */
    method RunTick(t: Tick) returns (limits: bool)
      requires Flying(State()) && Consistent(gains) && |t.samples| == SUBSTEPS
      modifies this
      ensures State() == old(Ticked(State(), t))
      ensures applied == old(applied + Outputs(Prepared(State(), t), t.samples))
      ensures limits <==> old(Transitioning(Prepared(State(), t)))
    {
      hide Outputs, SubSteps, SubStep, Collective, Transitioning;
      limits := Prepare(t);
      ghost var start := State();
      FirstSubStep(start, t.samples);
      for k := 0 to SUBSTEPS
        invariant State() == SubSteps(start, t.samples[..k])
        invariant applied == old(applied) + Outputs(start, t.samples[..k])
      {
        SameSettings(start, t.samples[..k]);
        NextSubStep(start, t.samples, k);
        lastLift := VtolCollective(t.samples[k]);
        applied := applied + [lastLift];
      }
      assert t.samples[..SUBSTEPS] == t.samples;
    }

    /** A step request: up to 64 ticks, of which none runs before INIT; a fixed-wing model runs them without the lift law. */
    method StepTicks(ticks: seq<Tick>) returns (status: Status)
      requires Sound(State()) && forall i :: 0 <= i < |ticks| ==> |ticks[i].samples| == SUBSTEPS
      modifies this
      ensures status == if old(ready) then Ok else NotInitialized
      ensures var n := if |ticks| > MAX_STEPS then MAX_STEPS else |ticks|;
        State() == old(Run(State(), seq(n, i requires 0 <= i < n => Step(ticks[i]))))
    {
      var n := if |ticks| > MAX_STEPS then MAX_STEPS else |ticks|;
      ghost var events := seq(n, i requires 0 <= i < n => Step(ticks[i]));
      ghost var start := State();
      if !ready {
        NotFlying(start, events);
        return NotInitialized;
      }
      if !vtol {
        NotFlying(start, events);
        return Ok;
      }
      hide Ticked, TrimFits;
      assert events[..0] == [];
      for i := 0 to n
        invariant State() == Run(start, events[..i]) && Sound(State()) && ready && vtol
      {
        assert events[..i + 1][..i] == events[..i];
        TickFits(State(), ticks[i]);
        KeepsFlying(State(), ticks[i]);
        var limits := RunTick(ticks[i]);
      }
      assert events[..n] == events;
      return Ok;
    }
  }

  lemma FirstSubStep(s: Lift, xs: seq<Sample>)
    requires s.gains.assistZero > s.gains.assistFull
    ensures SubSteps(s, xs[..0]) == s && Outputs(s, xs[..0]) == []
  {}

  lemma NextSubStep(s: Lift, xs: seq<Sample>, k: nat)
    requires k < |xs| && s.gains.assistZero > s.gains.assistFull
    ensures var t := SubSteps(s, xs[..k]);
      && t.gains == s.gains
      && SubSteps(s, xs[..k + 1]) == SubStep(t, xs[k])
      && Outputs(s, xs[..k + 1]) == Outputs(s, xs[..k]) + [Collective(t, xs[k])]
  {
    SameSettings(s, xs[..k]);
    assert xs[..k + 1][..k] == xs[..k];
  }

  lemma KeepsFlying(s: Lift, t: Tick)
    requires Flying(s)
    ensures Flying(Ticked(s, t)) && Ticked(s, t).gains == s.gains
  {
    SameSettings(Prepared(s, t), t.samples);
  }

  lemma {:induction false} NotFlying(s: Lift, events: seq<Event>)
    requires !Flying(s) && forall i :: 0 <= i < |events| ==> events[i].Step?
    ensures Run(s, events) == s
  {
    if |events| > 0 {
      NotFlying(s, events[..|events| - 1]);
    }
  }
}
