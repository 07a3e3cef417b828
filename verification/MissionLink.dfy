/**
 The mission session of the ground-station link: upload row by row, load and cache the complete
 set, serve the cached set for download.
 */
module MissionLink {
  import opened MavlinkItem
  import opened MissionLoad

  const MAX_ROWS: nat := 64

  const COUNT_ID: nat := 44
  const REQUEST_ID: nat := 51
  const ITEM_ID: nat := 73
  const LIST_ID: nat := 43
  const ACK_ID: nat := 47

  datatype Frame = Frame(msgid: nat, payload: seq<Byte>)

  function Ack(kind: Byte): Frame { Frame(ACK_ID, [255, 0, kind, 0]) }

  function Request(n: U16): Frame { Frame(REQUEST_ID, BytesU16(n) + [255, 0, 0]) }

  function CountOf(n: U16): Frame { Frame(COUNT_ID, BytesU16(n) + [255, 0, 0]) }

  function ItemOf(r: Row): Frame { Frame(ITEM_ID, ItemPayload(r)) }

  // ---- the session as a state machine ----

  /** The link's session and cache together with what the bridge flies. */
  datatype Station = Station(
    sysid: Byte, active: bool, count: nat, next: nat, rows: seq<Row>, cached: seq<Row>, cachedCount: nat,
    initialized: bool, home: Home, mission: seq<Item>)

  /** An active session still waits for a row that fits; the cache fits. */
  predicate Sound(s: Station) {
    && |s.rows| == MAX_ROWS && |s.cached| == MAX_ROWS
    && s.cachedCount <= MAX_ROWS
    && (s.active ==> s.next < s.count <= MAX_ROWS)
  }

  predicate Addressed(s: Station, p: seq<Byte>) { At(p, 2) == 0 || At(p, 2) == s.sysid }

  predicate Starts(n: U16) { 0 < n <= MAX_ROWS }

  function AfterCount(s: Station, p: seq<Byte>): Station {
    if !Addressed(s, p) then s
    else if Starts(ReadU16(p, 0)) then s.(active := true, count := ReadU16(p, 0), next := 0)
    else s.(active := false)
  }

  /** The item is the one the session waits for. */
  predicate Expected(s: Station, p: seq<Byte>) { s.active && ReadU16(p, 28) == s.next }

  predicate Last(s: Station) { s.next + 1 >= s.count }

  function Filled(s: Station, p: seq<Byte>): (rows: seq<Row>)
    requires Sound(s) && Expected(s, p)
    ensures |rows| == MAX_ROWS
  {
    s.rows[s.next := ParseItem(p)]
  }

  /** The bridge accepts the upload this item completes. */
  predicate Accepts(s: Station, p: seq<Byte>)
    requires Sound(s) && Expected(s, p)
  {
    s.initialized && Loadable(Filled(s, p)[..s.count])
  }

  function AfterItem(s: Station, p: seq<Byte>): Station
    requires Sound(s)
  {
    if !Expected(s, p) then s
    else
      var rows := Filled(s, p);
      if !Last(s) then s.(rows := rows, next := s.next + 1)
      else if Accepts(s, p) then
        s.(rows := rows, next := s.next + 1, active := false, cached := rows, cachedCount := s.count, mission := Converted(rows[..s.count], s.home))
      else s.(rows := rows, next := s.next + 1, active := false)
  }

  function After(s: Station, f: Frame): (t: Station)
    requires Sound(s)
    ensures Sound(t)
    ensures t.sysid == s.sysid && t.initialized == s.initialized && t.home == s.home
  {
    if f.msgid == COUNT_ID then AfterCount(s, f.payload)
    else if f.msgid == ITEM_ID then AfterItem(s, f.payload)
    else s
  }

  /** What the link answers. */
  predicate Answers(s: Station, f: Frame, sent: seq<Frame>)
    requires Sound(s)
  {
    var p := f.payload;
    if f.msgid == COUNT_ID then
      if !Addressed(s, p) then sent == []
      else if Starts(ReadU16(p, 0)) then sent == [Request(0)]
      else sent == [Ack(if ReadU16(p, 0) == 0 then 0 else 1)]
    else if f.msgid == ITEM_ID then
      if !s.active then sent == []
      else if !Expected(s, p) then sent == [Request(s.next)]
      else if !Last(s) then sent == [Request(s.next + 1)]
      else if Accepts(s, p) then sent == [Ack(0)]
      else if !s.initialized then sent == [Ack(1)]
      else exists code: Byte :: Refused(Filled(s, p)[..s.count], -(code as int)) && sent == [Ack(code)]
    else if f.msgid == LIST_ID then sent == [CountOf(s.cachedCount)]
    else if f.msgid == REQUEST_ID then
      var n := ReadU16(p, 0);
      if n < s.cachedCount then sent == [ItemOf(s.cached[n])] else sent == []
    else sent == []
  }

  // ---- single steps ----

  /** The cache and the mission change only on the item that completes an upload the bridge accepts, and then together. */
  lemma ChangesOnlyOnAccept(s: Station, f: Frame)
    requires Sound(s)
    ensures var t := After(s, f);
      if f.msgid == ITEM_ID && Expected(s, f.payload) && Last(s) && Accepts(s, f.payload) then
        && t.cachedCount == s.count && t.cached[..s.next] == s.rows[..s.next] && t.cached[s.next] == ParseItem(f.payload)
        && t.mission == Converted(t.cached[..t.cachedCount], s.home) && 1 <= |t.mission| <= MAX_ITEMS
        && !t.active && Answers(s, f, [Ack(0)])
      else t.cached == s.cached && t.cachedCount == s.cachedCount && t.mission == s.mission
  {}

  /** A refused upload tells why, ends the session and leaves the mission and the cache. */
  lemma RefusalLeavesAll(s: Station, p: seq<Byte>, code: Byte)
    requires Sound(s) && s.initialized && Expected(s, p) && Last(s) && Refused(Filled(s, p)[..s.count], -(code as int))
    ensures var t := After(s, Frame(ITEM_ID, p));
      && t == s.(rows := t.rows, next := s.count, active := false)
      && Answers(s, Frame(ITEM_ID, p), [Ack(code)]) && 2 <= code <= 5
  {
    RefusedIsNotLoadable(Filled(s, p)[..s.count], -(code as int));
  }

  /** What an item does depends on the bytes a row keeps alone, hence not on the system it is addressed to. */
  lemma OnlyKeptBytesCount(s: Station, p: seq<Byte>, q: seq<Byte>)
    requires Sound(s) && forall i: nat :: Kept(i) ==> At(p, i) == At(q, i)
    ensures After(s, Frame(ITEM_ID, p)) == After(s, Frame(ITEM_ID, q))
  {
    hide At, Converted, Loadable, ParseItem, ReadU16;
    SameFields(p, q);
  }

  lemma SameFields(p: seq<Byte>, q: seq<Byte>)
    requires forall i: nat :: Kept(i) ==> At(p, i) == At(q, i)
    ensures ParseItem(p) == ParseItem(q) && ReadU16(p, 28) == ReadU16(q, 28)
  {
    hide At;
  }

  // ---- the link ----

  method PutU16(p: array<Byte>, at: nat, v: U16)
    requires at + 2 <= p.Length
    modifies p
    ensures p[..at + 2] == old(p[..at]) + BytesU16(v) && p[at + 2..] == old(p[at + 2..])
  {
    p[at] := v % 256;
    p[at + 1] := v / 256;
  }

  method PutU32(p: array<Byte>, at: nat, v: U32)
    requires at + 4 <= p.Length
    modifies p
    ensures p[..at + 4] == old(p[..at]) + BytesU32(v) && p[at + 4..] == old(p[at + 4..])
  {
    PutU16(p, at, v % 0x1_0000);
    PutU16(p, at + 2, v / 0x1_0000);
    assert p[at + 4..] == p[at + 2..][2..];
    assert old(p[at + 4..]) == old(p[at + 2..])[2..];
  }

  method PutI32(p: array<Byte>, at: nat, v: I32)
    requires at + 4 <= p.Length
    modifies p
    ensures p[..at + 4] == old(p[..at]) + BytesI32(v) && p[at + 4..] == old(p[at + 4..])
  {
    PutU32(p, at, if v < 0 then v + 0x1_0000_0000 else v);
  }

  method PutFields(p: array<Byte>, r: Row)
    requires p[..] == Zeros(38)
    modifies p
    ensures p[..32] == ItemPayload(r)[..32]
  {
    hide BytesU16, BytesU32, BytesI32;
    Widths(r);
    assert p[..0] == [];
    PutU32(p, 0, r.p1);
    assert p[4..] == Zeros(34);
    PutU32(p, 4, r.p2);
    assert p[8..] == Zeros(30);
    assert p[..16] == p[..8] + Zeros(8);
    PutI32(p, 16, r.lat);
    PutI32(p, 20, r.lng);
    PutU32(p, 24, r.z);
    PutU16(p, 28, r.seqNo);
    PutU16(p, 30, r.command);
  }

  method BuildItem(r: Row) returns (p: array<Byte>)
    ensures fresh(p) && p[..] == ItemPayload(r)
  {
    hide BytesU16, BytesU32, BytesI32;
    Widths(r);
    p := new Byte[38](_ => 0);
    assert p[..] == Zeros(38);
    PutFields(p, r);
    ghost var fields := p[..32];
    p[32] := 255;
    p[33] := 0;
    p[34] := r.frame;
    p[35] := if r.seqNo == 0 then 1 else 0;
    p[36] := 1;
    p[37] := 0;
    assert p[..] == fields + [255, 0, r.frame, if r.seqNo == 0 then 1 else 0, 1, 0];
  }

  class GcsLink {
    const sysid: Byte
    var upActive: bool
    var upCount: U16
    var upNext: U16
    const rows: array<Row>
    const cachedRows: array<Row>
    var cachedCount: U16
    var sent: seq<Frame>

    ghost predicate Valid(bridge: Bridge)
      reads this, rows, cachedRows, bridge
    {
      rows != cachedRows && Sound(View(bridge))
    }

    ghost function View(bridge: Bridge): Station
      reads this, rows, cachedRows, bridge
    {
      Station(sysid, upActive, upCount, upNext, rows[..], cachedRows[..], cachedCount, bridge.initialized, bridge.home, bridge.mission)
    }

    constructor (sysid: Byte, bridge: Bridge)
      ensures Valid(bridge) && fresh(rows) && fresh(cachedRows)
      ensures this.sysid == sysid && !upActive && cachedCount == 0 && sent == []
    {
      this.sysid := sysid;
      upActive, upCount, upNext, cachedCount := false, 0, 0, 0;
      rows := new Row[MAX_ROWS](_ => BLANK);
      cachedRows := new Row[MAX_ROWS](_ => BLANK);
      sent := [];
    }

    method SendFrame(f: Frame)
      modifies this`sent
      ensures sent == old(sent) + [f]
    {
      sent := sent + [f];
    }

    method HandleCount(bridge: Bridge, p: seq<Byte>)
      requires Valid(bridge)
      modifies this`sent, this`upActive, this`upCount, this`upNext
      ensures View(bridge) == AfterCount(old(View(bridge)), p)
      ensures exists news :: sent == old(sent) + news && Answers(old(View(bridge)), Frame(COUNT_ID, p), news)
    {
      if At(p, 2) != 0 && At(p, 2) != sysid {
        assert sent == old(sent) + [];
        return;
      }
      var count := ReadU16(p, 0);
      if count == 0 || count > MAX_ROWS {
        SendFrame(Ack(if count == 0 then 0 else 1));
        upActive := false;
        return;
      }
      upActive, upCount, upNext := true, count, 0;
      SendFrame(Request(0));
    }

    method HandleItem(bridge: Bridge, p: seq<Byte>)
      requires Valid(bridge)
      modifies this`sent, this`upActive, this`upNext, this`cachedCount, rows, cachedRows, bridge`mission, bridge`current
      ensures View(bridge) == AfterItem(old(View(bridge)), p)
      ensures exists news :: sent == old(sent) + news && Answers(old(View(bridge)), Frame(ITEM_ID, p), news)
    {
      if !upActive {
        assert sent == old(sent) + [];
        return;
      }
      var seqNo := ReadU16(p, 28);
      if seqNo != upNext {
        SendFrame(Request(upNext));
        return;
      }
      ghost var was := View(bridge);
      rows[seqNo] := ParseItem(p);
      assert rows[..] == Filled(was, p);
      upNext := upNext + 1;
      if upNext < upCount {
        SendFrame(Request(upNext));
        return;
      }
      Complete(bridge, was, p);
    }

    /** The last row has arrived: load, and cache what was loaded. */
    method Complete(bridge: Bridge, ghost was: Station, p: seq<Byte>)
      requires Sound(was) && Expected(was, p) && Last(was) && rows != cachedRows && cachedRows.Length == MAX_ROWS
      requires View(bridge) == was.(rows := Filled(was, p), next := was.next + 1)
      modifies this`sent, this`upActive, this`cachedCount, cachedRows, bridge`mission, bridge`current
      ensures View(bridge) == AfterItem(was, p)
      ensures exists news :: sent == old(sent) + news && Answers(was, Frame(ITEM_ID, p), news)
    {
      hide Flown, Converted, ParseItem, Ack, Loadable, Refused;
      upActive := false;
      var loaded := bridge.GcsMissionLoad(rows, upCount);
      assert rows[..upCount] == Filled(was, p)[..was.count];
      if loaded > 0 {
        forall i | 0 <= i < MAX_ROWS {
          cachedRows[i] := rows[i];
        }
        assert cachedRows[..] == rows[..];
        cachedCount := upCount;
        SendFrame(Ack(0));
      } else {
        if bridge.initialized {
          RefusedIsNotLoadable(rows[..upCount], loaded);
        }
        var code: Byte := -loaded;
        SendFrame(Ack(code));
        assert -(code as int) == loaded;
      }
    }

    method HandleFrame(bridge: Bridge, f: Frame)
      requires Valid(bridge)
      modifies this`sent, this`upActive, this`upCount, this`upNext, this`cachedCount, rows, cachedRows, bridge`mission, bridge`current
      ensures Valid(bridge) && View(bridge) == After(old(View(bridge)), f)
      ensures exists news :: sent == old(sent) + news && Answers(old(View(bridge)), f, news)
    {
      var p := f.payload;
      if f.msgid == COUNT_ID {
        HandleCount(bridge, p);
        assert f == Frame(COUNT_ID, p);
      } else if f.msgid == ITEM_ID {
        HandleItem(bridge, p);
        assert f == Frame(ITEM_ID, p);
      } else if f.msgid == LIST_ID {
        SendFrame(CountOf(cachedCount));
      } else if f.msgid == REQUEST_ID {
        var n := ReadU16(p, 0);
        if n < cachedCount {
          var item := BuildItem(cachedRows[n]);
          SendFrame(Frame(ITEM_ID, item[..]));
        } else {
          assert sent == old(sent) + [];
        }
      } else {
        assert sent == old(sent) + [];
      }
    }
  }
}
