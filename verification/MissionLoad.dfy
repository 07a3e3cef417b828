/**
 Loading an uploaded mission into the vehicle: rows are converted one by one and the mission is
 replaced only when every row could be.
 */
module MissionLoad {
  import opened Geodesy
  import opened MavlinkItem

  const MAX_ITEMS: nat := 32

  const NAV_WAYPOINT: U16 := 16
  const NAV_LAND: U16 := 21
  const NAV_TAKEOFF: U16 := 22

  datatype Command = Waypoint | Takeoff | Land

  datatype Item = Item(command: Command, north: real, east: real, up: real, radius: real, pitch: real)

  /** The home position, with the cosine the distances use and the value `float` gives a bit pattern. */
  datatype Home = Home(alt: real, place: Place, cos: real -> real, float: U32 -> real)

  predicate KnownFrame(r: Row) { r.frame == 0 || r.frame == 3 || r.frame == 5 || r.frame == 6 }

  predicate IsHome(r: Row) { r.seqNo == 0 && r.command == NAV_WAYPOINT }

  predicate KnownCommand(r: Row) { r.command == NAV_WAYPOINT || r.command == NAV_TAKEOFF || r.command == NAV_LAND }

  predicate Acceptable(r: Row) { KnownFrame(r) && KnownCommand(r) }

  predicate Relative(r: Row) { r.frame == 3 || r.frame == 6 }

  function Positive(x: real): real { if x > 0.0 then x else 0.0 }

  /** A row as the vehicle flies it; altitudes in absolute frames are taken from the home altitude. */
  function Convert(r: Row, home: Home): Item {
    Item(
      if r.command == NAV_WAYPOINT then Waypoint else if r.command == NAV_TAKEOFF then Takeoff else Land,
      North(home.place, Place(r.lat, r.lng)),
      East(home.cos, home.place, Place(r.lat, r.lng)),
      if Relative(r) then home.float(r.z) else home.float(r.z) - home.alt,
      if r.command == NAV_WAYPOINT then Positive(home.float(r.p2)) else 0.0,
      if r.command == NAV_TAKEOFF then home.float(r.p1) else 0.0)
  }

  /** What a converted row means: the altitude it names over its own reference, the directions from home, and the parameter of its command. */
  lemma ConvertMeans(r: Row, home: Home)
    requires Acceptable(r)
    ensures var m, d := Convert(r, home), DiffLongitude(r.lng, home.place.lng);
      && home.float(r.z) == m.up + (if Relative(r) then 0.0 else home.alt)
      && (m.north > 0.0 <==> r.lat > home.place.lat) && (m.north < 0.0 <==> r.lat < home.place.lat)
      && (m.east > 0.0 <==> d > 0) && (m.east < 0.0 <==> d < 0)
      && (m.command.Waypoint? <==> r.command == 16) && (m.command.Takeoff? <==> r.command == 22) && (m.command.Land? <==> r.command == 21)
      && m.radius >= 0.0
      && (m.command.Waypoint? && home.float(r.p2) >= 0.0 ==> m.radius == home.float(r.p2))
      && (m.command.Takeoff? ==> m.pitch == home.float(r.p1))
  {
    hide North, East;
    CompassPoints(home.cos, home.place, Place(r.lat, r.lng));
  }

  /** A relative row and an absolute one, higher by the altitude of home, lead to the same place. */
  lemma FramesAgree(r: Row, a: Row, home: Home)
    requires Acceptable(r) && Acceptable(a) && Relative(r) && !Relative(a)
    requires r.lat == a.lat && r.lng == a.lng && home.float(a.z) == home.float(r.z) + home.alt
    ensures var m, n := Convert(r, home), Convert(a, home); m.north == n.north && m.east == n.east && m.up == n.up
  {}

  /** The rows that are flown, in order. */
  function Flown(rows: seq<Row>): (f: seq<Row>)
    ensures |f| <= |rows|
  {
    if |rows| == 0 then [] else
    var front, r := Flown(rows[..|rows| - 1]), rows[|rows| - 1];
    if IsHome(r) then front else front + [r]
  }

  /** Of rows numbered from zero all are flown, but for a waypoint at the very first: that one is the home position. */
  lemma {:induction false} FlownInSequence(rows: seq<Row>)
    requires |rows| >= 1 && forall i :: 0 <= i < |rows| ==> rows[i].seqNo == i
    ensures Flown(rows) == if rows[0].command == 16 then rows[1..] else rows
  {
    var n := |rows| - 1;
    if n == 0 {
      assert Flown(rows[..0]) == [];
    } else {
      FlownInSequence(rows[..n]);
      assert rows[..n] + [rows[n]] == rows && rows[1..n] + [rows[n]] == rows[1..] && rows[..n][1..] == rows[1..n];
    }
  }

  function Converted(rows: seq<Row>, home: Home): (items: seq<Item>)
    ensures |items| == |Flown(rows)|
    ensures forall i :: 0 <= i < |items| ==> items[i] == Convert(Flown(rows)[i], home)
  {
    seq(|Flown(rows)|, i requires 0 <= i < |Flown(rows)| => Convert(Flown(rows)[i], home))
  }

  predicate AllAcceptable(rows: seq<Row>) { forall i :: 0 <= i < |rows| ==> Acceptable(rows[i]) }

  /** The vehicle can fly the whole upload. */
  predicate Loadable(rows: seq<Row>) { AllAcceptable(rows) && 1 <= |Flown(rows)| <= MAX_ITEMS }

  /** The refusal row `i` causes, the rows before it being fine. */
  predicate Faulty(rows: seq<Row>, i: nat, code: int)
    requires i < |rows|
  {
    if !KnownFrame(rows[i]) then code == -2
    else if IsHome(rows[i]) then false
    else if !KnownCommand(rows[i]) then code == -3
    else |Flown(rows[..i])| == MAX_ITEMS && code == -4
  }

  predicate FirstFault(rows: seq<Row>, i: nat, code: int)
    requires i < |rows|
  {
    AllAcceptable(rows[..i]) && |Flown(rows[..i])| <= MAX_ITEMS && Faulty(rows, i, code)
  }

  /** `code` is the refusal of the first row that cannot be loaded, or -5 when nothing would be flown. */
  predicate Refused(rows: seq<Row>, code: int) {
    || (exists i: nat :: i < |rows| && FirstFault(rows, i, code))
    || (AllAcceptable(rows) && |Flown(rows)| == 0 && code == -5)
  }

  lemma FlownNext(rows: seq<Row>, i: nat)
    requires i < |rows|
    ensures Flown(rows[..i + 1]) == if IsHome(rows[i]) then Flown(rows[..i]) else Flown(rows[..i]) + [rows[i]]
  {
    assert rows[..i + 1][..i] == rows[..i];
  }

  lemma {:induction false} FlownGrows(rows: seq<Row>, i: nat)
    requires i <= |rows|
    ensures |Flown(rows[..i])| <= |Flown(rows)|
    decreases |rows| - i
  {
    if i < |rows| {
      FlownNext(rows, i);
      FlownGrows(rows, i + 1);
    } else {
      assert rows[..i] == rows;
    }
  }

  /** No upload is both loadable and refused. */
  lemma RefusedIsNotLoadable(rows: seq<Row>, code: int)
    requires Refused(rows, code)
    ensures !Loadable(rows) && -5 <= code <= -2
  {
    if i: nat :| i < |rows| && FirstFault(rows, i, code) {
      FlownNext(rows, i);
      FlownGrows(rows, i + 1);
    }
  }

  /** The first row that cannot be taken decides the refusal. */
  lemma RowRefuses(rows: seq<Row>, i: nat, code: int)
    requires i < |rows| && AllAcceptable(rows[..i]) && |Flown(rows[..i])| <= MAX_ITEMS && Faulty(rows, i, code)
    ensures Refused(rows, code) && !Loadable(rows) && code < 0
  {
    hide Loadable, AllAcceptable, Flown, Faulty;
    assert FirstFault(rows, i, code);
    RefusedIsNotLoadable(rows, code);
  }

  /** An acceptable row is added to what is flown, unless it is the home row. */
  lemma RowTaken(rows: seq<Row>, i: nat, home: Home)
    requires i < |rows| && AllAcceptable(rows[..i]) && Acceptable(rows[i])
    ensures AllAcceptable(rows[..i + 1])
    ensures Converted(rows[..i + 1], home)
            == Converted(rows[..i], home) + if IsHome(rows[i]) then [] else [Convert(rows[i], home)]
  {
    hide Convert;
    FlownNext(rows, i);
    assert rows[..i + 1] == rows[..i] + [rows[i]];
  }

  lemma NothingTaken(home: Home)
    ensures AllAcceptable([]) && Converted([], home) == []
  {}

  /** Once every row has been taken only an empty mission is left to refuse. */
  lemma AllTaken(rows: seq<Row>)
    requires AllAcceptable(rows) && |Flown(rows)| <= MAX_ITEMS
    ensures if |Flown(rows)| == 0 then Refused(rows, -5) && !Loadable(rows) else Loadable(rows)
  {
    hide AllAcceptable, Flown;
  }

  class Bridge {
    var initialized: bool
    var home: Home
    var mission: seq<Item>
    var current: nat

    constructor (home: Home)
      ensures !initialized && mission == [] && current == 0 && this.home == home
    {
      initialized := false;
      this.home := home;
      mission := [];
      current := 0;
    }

    /** The mission's own load: refuses what does not fit and leaves the old mission. */
    method Load(items: seq<Item>) returns (ok: bool)
      modifies this`mission, this`current
      ensures ok <==> |items| <= MAX_ITEMS
      ensures ok ==> mission == items && current == 0
      ensures !ok ==> mission == old(mission) && current == old(current)
    {
      if |items| > MAX_ITEMS {
        return false;
      }
      mission := items;
      current := 0;
      return true;
    }

    /** The flyable count, or the reason for refusing as a negative number. */
    method GcsMissionLoad(rows: array<Row>, n: nat) returns (result: int)
      requires n <= rows.Length
      modifies this`mission, this`current
      ensures result > 0 <==> initialized && Loadable(rows[..n])
      ensures result > 0 ==> result == |Flown(rows[..n])| && mission == Converted(rows[..n], home) && current == 0
      ensures result <= 0 ==> mission == old(mission) && current == old(current)
      ensures result <= 0 ==> (if initialized then Refused(rows[..n], result) else result == -1)
    {
      hide Flown, Converted, Convert, AllAcceptable, Loadable, Refused;
      if !initialized {
        return -1;
      }
      ghost var all := rows[..n];
      var converted: seq<Item> := [];
      assert all[..0] == [];
      NothingTaken(home);
      for i := 0 to n
        invariant all == rows[..n] && mission == old(mission) && current == old(current)
        invariant AllAcceptable(all[..i])
        invariant converted == Converted(all[..i], home) && |converted| <= MAX_ITEMS
      {
        var r := rows[i];
        assert r == all[i];
        if !KnownFrame(r) {
          RowRefuses(all, i, -2);
          return -2;
        }
        if IsHome(r) {
          RowTaken(all, i, home);
          continue;
        }
        if !KnownCommand(r) {
          RowRefuses(all, i, -3);
          return -3;
        }
        if |converted| >= MAX_ITEMS {
          RowRefuses(all, i, -4);
          return -4;
        }
        RowTaken(all, i, home);
        converted := converted + [Convert(r, home)];
      }
      assert all[..n] == all;
      AllTaken(all);
      if |converted| == 0 {
        return -5;
      }
      var ok := Load(converted);
      if !ok {
        return -1;
      }
      result := |converted|;
    }
  }
}
