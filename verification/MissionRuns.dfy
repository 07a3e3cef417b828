/**
 Whole runs of the mission session: where every stored and every served row came from, and that
 an upload sent in order is loaded, cached and handed back.
 */
module MissionRuns {
  import opened MavlinkItem
  import opened MissionLoad
  import opened MissionLink

  /** A frame from the ground station, or the host replacing the mission or starting over. */
  datatype Event = Received(frame: Frame) | HostMission(items: seq<Item>) | Restarted(ready: bool, home: Home)

  function Happen(s: Station, e: Event): (t: Station)
    requires Sound(s)
    ensures Sound(t)
  {
    match e
    case Received(f) => After(s, f)
    case HostMission(items) => s.(mission := items)
    case Restarted(ready, home) => s.(initialized := ready, home := home, mission := [])
  }

  function Run(s: Station, events: seq<Event>): (t: Station)
    requires Sound(s)
    ensures Sound(t)
  {
    if |events| == 0 then s else Happen(Run(s, events[..|events| - 1]), events[|events| - 1])
  }

  // ---- where rows come from ----

  predicate IsItem(e: Event, n: nat) { e.Received? && e.frame.msgid == ITEM_ID && ReadU16(e.frame.payload, 28) == n }

  /** A MISSION_COUNT frame for this vehicle. */
  predicate IsCount(e: Event, sysid: Byte) {
    e.Received? && e.frame.msgid == COUNT_ID && (At(e.frame.payload, 2) == 0 || At(e.frame.payload, 2) == sysid)
  }

  /**
   `picks` are the events, in order and all after the count at `start`, that brought rows 0, 1, 2, ... of `rows`.
   */
  predicate Brought(events: seq<Event>, start: nat, picks: seq<nat>, rows: seq<Row>) {
    && |picks| <= |rows|
    && (forall k :: 0 <= k < |picks| ==> start < picks[k] < |events|)
    && (forall k :: 0 <= k < |picks| ==> IsItem(events[picks[k]], k) && rows[k] == ParseItem(events[picks[k]].frame.payload))
    && (forall j, k :: 0 <= j < k < |picks| ==> picks[j] < picks[k])
  }

  /** The open session was started by the last count, which announced `count` rows. */
  predicate Opened(events: seq<Event>, start: nat, sysid: Byte, count: nat) {
    && start < |events| && IsCount(events[start], sysid) && ReadU16(events[start].frame.payload, 0) == count
    && forall i :: start < i < |events| ==> !IsCount(events[i], sysid)
  }

  predicate Announced(events: seq<Event>, start: nat, sysid: Byte, count: nat) {
    start < |events| && IsCount(events[start], sysid) && ReadU16(events[start].frame.payload, 0) == count
  }

  /** Only ground-station frames from event `from` on. */
  predicate OnlyFrames(events: seq<Event>, from: nat) { forall i :: from <= i < |events| ==> events[i].Received? }

  datatype Origin = Origin(start: nat, picks: seq<nat>)

  predicate SessionFrom(s: Station, events: seq<Event>, o: Origin) {
    s.active ==>
      && Opened(events, o.start, s.sysid, s.count) && |o.picks| == s.next && Brought(events, o.start, o.picks, s.rows)
  }

  predicate CacheFrom(s: Station, events: seq<Event>, o: Origin) {
    s.cachedCount > 0 ==>
      && Announced(events, o.start, s.sysid, s.cachedCount) && |o.picks| == s.cachedCount <= |s.cached|
      && Brought(events, o.start, o.picks, s.cached) && Loadable(s.cached[..s.cachedCount])
      && (OnlyFrames(events, o.picks[|o.picks| - 1]) ==> s.initialized && s.mission == Converted(s.cached[..s.cachedCount], s.home))
  }

  lemma BroughtLonger(events: seq<Event>, e: Event, start: nat, picks: seq<nat>, rows: seq<Row>)
    requires Brought(events, start, picks, rows)
    ensures Brought(events + [e], start, picks, rows)
  {
    hide ParseItem, IsItem;
    var more := events + [e];
    forall k | 0 <= k < |picks|
      ensures more[picks[k]] == events[picks[k]]
    {}
  }

  lemma BroughtNext(events: seq<Event>, p: seq<Byte>, start: nat, picks: seq<nat>, rows: seq<Row>)
    requires Brought(events, start, picks, rows) && start < |events| && |picks| < |rows| && ReadU16(p, 28) == |picks|
    ensures Brought(events + [Received(Frame(ITEM_ID, p))], start, picks + [|events|], rows[|picks| := ParseItem(p)])
  {
    BroughtLonger(events, Received(Frame(ITEM_ID, p)), start, picks, rows);
    hide ParseItem, ReadU16;
  }

  /** An open session keeps its origin over any event that does not close or fill it. */
  lemma OpenedLonger(events: seq<Event>, e: Event, start: nat, sysid: Byte, count: nat)
    requires Opened(events, start, sysid, count) && !IsCount(e, sysid)
    ensures Opened(events + [e], start, sysid, count)
  {
    hide IsCount;
    var more := events + [e];
    forall i | start < i < |more|
      ensures !IsCount(more[i], sysid)
    {
      if i < |events| {
        assert more[i] == events[i];
      }
    }
  }

  /** The session's origin after one more event. */
  lemma SessionStep(s: Station, events: seq<Event>, e: Event, o: Origin) returns (next: Origin)
    requires Sound(s) && SessionFrom(s, events, o)
    ensures SessionFrom(Happen(s, e), events + [e], next)
  {
    hide ParseItem, ReadU16, Loadable, Converted, Flown;
    next := o;
    if IsCount(e, s.sysid) {
      next := Origin(|events|, []);
    } else if s.active {
      OpenedLonger(events, e, o.start, s.sysid, s.count);
      if e.Received? && e.frame.msgid == ITEM_ID && Expected(s, e.frame.payload) {
        BroughtNext(events, e.frame.payload, o.start, o.picks, s.rows);
        next := Origin(o.start, o.picks + [|events|]);
        assert e == Received(Frame(ITEM_ID, e.frame.payload));
      } else {
        BroughtLonger(events, e, o.start, o.picks, s.rows);
      }
    }
  }

  /** The item completes an upload that is loaded. */
  predicate Completes(s: Station, e: Event)
    requires Sound(s)
  {
    e.Received? && e.frame.msgid == ITEM_ID && Expected(s, e.frame.payload) && Last(s) && Accepts(s, e.frame.payload)
  }

  lemma CacheStep(s: Station, events: seq<Event>, e: Event, o: Origin, session: Origin) returns (next: Origin)
    requires Sound(s) && CacheFrom(s, events, o) && SessionFrom(s, events, session)
    ensures CacheFrom(Happen(s, e), events + [e], next)
  {
    hide ParseItem, ReadU16, Loadable, Converted, Flown;
    next := o;
    if Completes(s, e) {
      var p := e.frame.payload;
      assert e == Received(Frame(ITEM_ID, p));
      BroughtNext(events, p, session.start, session.picks, s.rows);
      next := Origin(session.start, session.picks + [|events|]);
    } else if s.cachedCount > 0 {
      BroughtLonger(events, e, o.start, o.picks, s.cached);
      var from := o.picks[|o.picks| - 1];
      if OnlyFrames(events + [e], from) {
        assert (events + [e])[|events|] == e;
        assert OnlyFrames(events, from) by {
          forall i | from <= i < |events|
            ensures events[i].Received?
          {
            assert (events + [e])[i] == events[i];
          }
        }
      }
    }
  }

  /** A station nothing has been uploaded to yet. */
  predicate Fresh(s: Station) { Sound(s) && !s.active && s.cachedCount == 0 }

  /**
   In every reachable state the rows of an open session were brought, strictly in sequence, since the last
   MISSION_COUNT, and the cached rows by a complete upload the vehicle accepted; unless the host stepped in
   since, that upload is what the vehicle flies.
   */
  lemma {:induction false} RowsHaveOrigins(s: Station, events: seq<Event>) returns (session: Origin, cache: Origin)
    requires Fresh(s)
    ensures SessionFrom(Run(s, events), events, session)
    ensures CacheFrom(Run(s, events), events, cache)
  {
    hide Happen, Brought, Opened, Announced, Loadable;
    if |events| == 0 {
      session, cache := Origin(0, []), Origin(0, []);
    } else {
      var n := |events| - 1;
      var was := Run(s, events[..n]);
      assert events[..n] + [events[n]] == events;
      session, cache := RowsHaveOrigins(s, events[..n]);
      cache := CacheStep(was, events[..n], events[n], cache, session);
      session := SessionStep(was, events[..n], events[n], session);
    }
  }

  ghost predicate SameRow(p: seq<Byte>, q: seq<Byte>) {
    ParseItem(p) == ParseItem(q) && forall i: nat :: Kept(i) ==> At(p, i) == At(q, i)
  }

  /** What a download request is answered with carries the bytes of the item message that was uploaded for that row. */
  lemma DownloadReturnsUpload(s: Station, events: seq<Event>, p: seq<Byte>) returns (origin: nat)
    requires Fresh(s) && ReadU16(p, 0) < Run(s, events).cachedCount
    ensures origin < |events| && IsItem(events[origin], ReadU16(p, 0))
    ensures exists served: Frame :: Answers(Run(s, events), Frame(REQUEST_ID, p), [served]) && SameRow(served.payload, events[origin].frame.payload)
  {
    var t, n := Run(s, events), ReadU16(p, 0);
    var session, cache := RowsHaveOrigins(s, events);
    origin := cache.picks[n];
    var row := t.cached[n];
    hide Run, ParseItem, ItemPayload, ReadU16;
    ItemRoundTrip(row);
    BytesSurvive(events[origin].frame.payload);
    assert Answers(t, Frame(REQUEST_ID, p), [ItemOf(row)]);
  }

  // ---- an upload sent in order ----

  /** The frames a ground station sends for `items`: a count and each item once, in order. */
  predicate InOrder(frames: seq<Frame>, sysid: Byte) {
    && 2 <= |frames| <= MAX_ROWS + 1
    && frames[0].msgid == COUNT_ID && (At(frames[0].payload, 2) == 0 || At(frames[0].payload, 2) == sysid)
    && ReadU16(frames[0].payload, 0) == |frames| - 1
    && forall k :: 1 <= k < |frames| ==> frames[k].msgid == ITEM_ID && ReadU16(frames[k].payload, 28) == k - 1
  }

  function RowsOf(frames: seq<Frame>): (rows: seq<Row>)
    requires |frames| >= 1
    ensures |rows| == |frames| - 1
  {
    seq(|frames| - 1, k requires 0 <= k < |frames| - 1 => ParseItem(frames[k + 1].payload))
  }

  function Send(s: Station, frames: seq<Frame>): (t: Station)
    requires Sound(s)
    ensures Sound(t)
  {
    if |frames| == 0 then s else After(Send(s, frames[..|frames| - 1]), frames[|frames| - 1])
  }

  lemma SendNext(s: Station, frames: seq<Frame>, k: nat)
    requires Sound(s) && k < |frames|
    ensures Send(s, frames[..k + 1]) == After(Send(s, frames[..k]), frames[k])
  {
    assert frames[..k + 1][..k] == frames[..k];
  }

  /** The session waits for row `k` of `rows` and holds the rows before it. */
  predicate Holding(s: Station, rows: seq<Row>, k: nat) {
    Sound(s) && s.active && s.count == |rows| && s.next == k < |rows| && s.rows[..k] == rows[..k]
  }

  /** Nothing but the session differs. */
  ghost predicate SameButSession(s: Station, t: Station) { t == s.(active := t.active, count := t.count, next := t.next, rows := t.rows) }

  lemma FirstFrame(s: Station, f: Frame, rows: seq<Row>)
    requires Sound(s) && f.msgid == COUNT_ID && Addressed(s, f.payload) && ReadU16(f.payload, 0) == |rows| && 1 <= |rows| <= MAX_ROWS
    ensures Holding(After(s, f), rows, 0) && SameButSession(s, After(s, f))
  {
    hide ReadU16;
  }

  lemma NextItem(s: Station, f: Frame, rows: seq<Row>, k: nat)
    requires Holding(s, rows, k) && k + 1 < |rows|
    requires f.msgid == ITEM_ID && ReadU16(f.payload, 28) == k && rows[k] == ParseItem(f.payload)
    ensures Holding(After(s, f), rows, k + 1) && SameButSession(s, After(s, f))
  {
    hide ReadU16, ParseItem, Loadable, Converted, Flown;
    assert s.rows[k := rows[k]][..k + 1] == rows[..k + 1];
  }

  lemma {:induction false} SendInOrder(s: Station, frames: seq<Frame>, k: nat)
    requires Sound(s) && InOrder(frames, s.sysid) && 1 <= k < |frames|
    ensures Holding(Send(s, frames[..k]), RowsOf(frames), k - 1) && SameButSession(s, Send(s, frames[..k]))
  {
    hide ParseItem, ReadU16, After, Holding;
    SendNext(s, frames, k - 1);
    if k == 1 {
      assert Send(s, frames[..0]) == s;
      FirstFrame(s, frames[0], RowsOf(frames));
    } else {
      SendInOrder(s, frames, k - 1);
      NextItem(Send(s, frames[..k - 1]), frames[k - 1], RowsOf(frames), k - 2);
    }
  }

  lemma LastItem(s: Station, p: seq<Byte>, rows: seq<Row>)
    requires Holding(s, rows, s.next) && s.next + 1 == |rows| && ReadU16(p, 28) == s.next && rows[s.next] == ParseItem(p)
    ensures var t := After(s, Frame(ITEM_ID, p));
      && !t.active
      && (if s.initialized && Loadable(rows) then
            t.mission == Converted(rows, s.home) && t.cachedCount == |rows| && t.cached[..|rows|] == rows
          else t.mission == s.mission && t.cachedCount == s.cachedCount && t.cached == s.cached)
  {
    hide ParseItem, ReadU16, Loadable, Converted, Flown;
    assert Filled(s, p)[..|rows|] == rows;
  }

  /**
   Whatever the session was doing, an upload sent in order ends it with the vehicle flying exactly the uploaded
   rows and the cache holding them, if the vehicle can fly them, and otherwise changes neither.
   */
  lemma UploadDecides(s: Station, frames: seq<Frame>)
    requires Sound(s) && InOrder(frames, s.sysid)
    ensures var t, rows := Send(s, frames), RowsOf(frames);
      && !t.active
      && (if s.initialized && Loadable(rows) then
            t.mission == Converted(rows, s.home) && t.cachedCount == |rows| && t.cached[..|rows|] == rows
          else t.mission == s.mission && t.cachedCount == s.cachedCount && t.cached == s.cached)
  {
    hide ParseItem, ReadU16, Loadable, Converted, Flown, After;
    var n := |frames| - 1;
    SendInOrder(s, frames, n);
    SendNext(s, frames, n);
    assert frames[..n + 1] == frames;
    LastItem(Send(s, frames[..n]), frames[n].payload, RowsOf(frames));
  }

  // ---- a download ----

  /** What a download brings: the answer to a list request, and the answers to requests for each row it announces, in order. */
  predicate Served(s: Station, down: seq<Frame>)
    requires Sound(s)
  {
    && |down| >= 1 && Answers(s, Frame(LIST_ID, []), [down[0]]) && |down| == ReadU16(down[0].payload, 0) + 1
    && forall k :: 1 <= k < |down| && k - 1 < 0x1_0000 ==> Answers(s, Request(k - 1), [down[k]])
  }

  /** An accepted upload downloads as an upload of the same rows, addressed to system 255. */
  lemma DownloadIsUpload(s: Station, frames: seq<Frame>, down: seq<Frame>)
    requires Sound(s) && InOrder(frames, s.sysid) && s.initialized && Loadable(RowsOf(frames)) && Served(Send(s, frames), down)
    ensures |down| == |frames| && InOrder(down, 255) && RowsOf(down) == RowsOf(frames)
  {
    hide ParseItem, Loadable, Converted, Flown, Send, BytesU16, ReadU16, ItemPayload;
    UploadDecides(s, frames);
    var t, rows := Send(s, frames), RowsOf(frames);
    CountReads(|rows|);
    forall k | 1 <= k < |down|
      ensures down[k].msgid == ITEM_ID && ReadU16(down[k].payload, 28) == k - 1 && ParseItem(down[k].payload) == rows[k - 1]
    {
      RequestReads(k - 1);
      assert Answers(t, Request(k - 1), [down[k]]);
      assert t.cached[..|rows|][k - 1] == rows[k - 1];
      ItemRoundTrip(rows[k - 1]);
      NumberRead(frames[k].payload);
      NumberRead(down[k].payload);
    }
  }

  lemma CountReads(n: U16)
    ensures ReadU16(CountOf(n).payload, 0) == n && At(CountOf(n).payload, 2) == 255
  {
    Announces(n);
  }

  lemma RequestReads(n: U16)
    ensures ReadU16(Request(n).payload, 0) == n
  {
    Announces(n);
  }

  lemma Announces(n: U16)
    ensures var p := BytesU16(n) + [255, 0, 0]; ReadU16(p, 0) == n && At(p, 2) == 255
  {
    var p: seq<Byte> := BytesU16(n) + [255, 0, 0];
    assert p[0] == n % 256 && p[1] == n / 256;
  }

  lemma NumberRead(p: seq<Byte>)
    ensures ParseItem(p).seqNo == ReadU16(p, 28)
  {}

  // ---- an upload sent as it is asked for ----

  lemma RequestsDiffer(n: U16, m: U16)
    ensures Request(n) == Request(m) ==> n == m
  {
    if Request(n) == Request(m) {
      var p, q := BytesU16(n) + [255, 0, 0], BytesU16(m) + [255, 0, 0];
      assert Request(n).payload == p && Request(m).payload == q;
      assert p[0] == n % 256 && p[1] == n / 256 && q[0] == m % 256 && q[1] == m / 256;
    }
  }

  /** The ground station answers a request for a row with that row's item. */
  predicate Obeys(frames: seq<Frame>, asked: seq<Frame>, f: Frame) {
    exists n: U16 :: asked == [Request(n)] && n + 1 < |frames| && f == frames[n + 1]
  }

  /** A conversation: the station opens with its count, and sends whatever item each answer asks for. */
  predicate Conversation(s: Station, frames: seq<Frame>, talk: seq<Frame>, answers: seq<seq<Frame>>)
    requires Sound(s)
  {
    && |frames| >= 1 && |talk| == |answers| && |talk| >= 1 && talk[0] == frames[0]
    && (forall k :: 0 <= k < |talk| ==> Answers(Send(s, talk[..k]), talk[k], answers[k]))
    && (forall k :: 0 < k < |talk| ==> Obeys(frames, answers[k - 1], talk[k]))
  }

  lemma AsksFirst(s: Station, f: Frame, count: nat, sent: seq<Frame>)
    requires Sound(s) && f.msgid == COUNT_ID && Addressed(s, f.payload) && ReadU16(f.payload, 0) == count && 1 <= count <= MAX_ROWS
    requires Answers(s, f, sent)
    ensures sent == [Request(0)]
  {
    hide ParseItem, ReadU16, At, Loadable, Refused, Ack, Request;
  }

  lemma AsksNext(s: Station, f: Frame, rows: seq<Row>, k: nat, sent: seq<Frame>)
    requires Holding(s, rows, k) && k + 1 < |rows| && f.msgid == ITEM_ID && ReadU16(f.payload, 28) == k && Answers(s, f, sent)
    ensures sent == [Request(k + 1)]
  {
    hide ParseItem, ReadU16, At, Loadable, Refused, Ack, Request;
  }

  /** After frame `k` of an upload in order the link asks for row `k`, or closes when that was the last; it closes with success exactly when it loads. */
  lemma AsksInOrder(s: Station, frames: seq<Frame>, k: nat, sent: seq<Frame>)
    requires Sound(s) && InOrder(frames, s.sysid) && k < |frames| && Answers(Send(s, frames[..k]), frames[k], sent)
    ensures if k < |frames| - 1 then sent == [Request(k)]
            else exists code: Byte :: sent == [Ack(code)] && (code == 0 <==> s.initialized && Loadable(RowsOf(frames)))
  {
    hide ParseItem, ReadU16, At, Loadable, After, Answers, Holding, Ack, Request, Send;
    if k == 0 {
      SendNothing(s, frames);
      AsksFirst(s, frames[0], |frames| - 1, sent);
    } else {
      SendInOrder(s, frames, k);
      var t := Send(s, frames[..k]);
      if k == |frames| - 1 {
        HeldNext(t, RowsOf(frames), k - 1);
        ClosesWith(t, frames[k].payload, RowsOf(frames), sent);
      } else {
        AsksNext(t, frames[k], RowsOf(frames), k - 1, sent);
      }
    }
  }

  lemma SendNothing(s: Station, frames: seq<Frame>)
    requires Sound(s)
    ensures Send(s, frames[..0]) == s
  {}

  lemma HeldNext(s: Station, rows: seq<Row>, k: nat)
    requires Holding(s, rows, k)
    ensures s.next == k && Sound(s)
  {}

  lemma ClosesWith(s: Station, p: seq<Byte>, rows: seq<Row>, sent: seq<Frame>)
    requires Holding(s, rows, s.next) && s.next + 1 == |rows| && ReadU16(p, 28) == s.next && rows[s.next] == ParseItem(p)
    requires Answers(s, Frame(ITEM_ID, p), sent)
    ensures exists code: Byte :: sent == [Ack(code)] && (code == 0 <==> s.initialized && Loadable(rows))
  {
    hide ParseItem, ReadU16, Loadable, Refused, Ack, Request;
    assert Filled(s, p)[..|rows|] == rows;
    if s.initialized && !Accepts(s, p) {
      var code: Byte :| Refused(rows, -(code as int)) && sent == [Ack(code)];
      RefusedIsNotLoadable(rows, -(code as int));
    }
  }

  lemma NextTalk(s: Station, frames: seq<Frame>, talk: seq<Frame>, answers: seq<seq<Frame>>)
    requires Sound(s) && InOrder(frames, s.sysid) && Conversation(s, frames, talk, answers)
    requires var n := |talk| - 1; n > 0 && n <= |frames| && talk[..n] == frames[..n]
    ensures var n := |talk| - 1; n < |frames| && talk[n] == frames[n]
  {
    hide Answers, Send, Request, Obeys, At, ReadU16, Ack;
    var k := |talk| - 2;
    assert talk[..k + 1][..k] == talk[..k] && frames[..k + 1][..k] == frames[..k];
    assert talk[k] == talk[..k + 1][k] == frames[k];
    AsksInOrder(s, frames, k, answers[k]);
    AskedRow(frames, answers[k], talk[k + 1], k);
  }

  /**
   A ground station that follows the requests sends exactly its count and its items, each once and in order: with
   `UploadDecides`, the conversation completes the upload.
   */
  lemma {:induction false} RequestsLeadThrough(s: Station, frames: seq<Frame>, talk: seq<Frame>, answers: seq<seq<Frame>>)
    requires Sound(s) && InOrder(frames, s.sysid) && Conversation(s, frames, talk, answers)
    ensures |talk| <= |frames| && talk == frames[..|talk|]
    decreases |talk|
  {
    hide Answers, Send, Request, Obeys, At, ReadU16, ParseItem;
    var n := |talk| - 1;
    if n == 0 {
      assert talk == frames[..1];
    } else {
      ShorterTalk(s, frames, talk, answers);
      RequestsLeadThrough(s, frames, talk[..n], answers[..n]);
      NextTalk(s, frames, talk, answers);
      assert talk == talk[..n] + [talk[n]];
      assert frames[..n + 1] == frames[..n] + [frames[n]];
    }
  }

  lemma ShorterTalk(s: Station, frames: seq<Frame>, talk: seq<Frame>, answers: seq<seq<Frame>>)
    requires Sound(s) && Conversation(s, frames, talk, answers) && |talk| > 1
    ensures var n := |talk| - 1; Conversation(s, frames, talk[..n], answers[..n])
  {
    hide Answers, Send, Obeys;
    var n := |talk| - 1;
    forall k | 0 <= k < n
      ensures Answers(Send(s, talk[..n][..k]), talk[..n][k], answers[..n][k])
    {
      assert talk[..n][..k] == talk[..k];
    }
  }

  lemma AskedRow(frames: seq<Frame>, asked: seq<Frame>, f: Frame, k: nat)
    requires Obeys(frames, asked, f) && k < |frames| && |frames| <= MAX_ROWS + 1
    requires if k < |frames| - 1 then asked == [Request(k)] else exists code: Byte :: asked == [Ack(code)]
    ensures k < |frames| - 1 && f == frames[k + 1]
  {
    var n: U16 :| asked == [Request(n)] && n + 1 < |frames| && f == frames[n + 1];
    if k < |frames| - 1 {
      assert [Request(n)][0] == [Request(k)][0];
      RequestsDiffer(n, k);
    } else {
      NoClosing(n);
    }
  }

  lemma NoClosing(n: U16)
    ensures forall code: Byte :: [Request(n)] != [Ack(code)]
  {
    forall code: Byte
      ensures [Request(n)] != [Ack(code)]
    {
      assert [Request(n)][0].msgid != [Ack(code)][0].msgid;
    }
  }
}
