/**
 The mission messages on the wire: little-endian fields at fixed places of a payload, and the rows
 they carry. A float travels as its bit pattern.
 */
module MavlinkItem {

  type Byte = n: nat | n < 0x100

  type U16 = n: nat | n < 0x1_0000

  type U32 = n: nat | n < 0x1_0000_0000

  type I32 = n: int | -0x8000_0000 <= n < 0x8000_0000

  /** Reads past the end of a payload see zeros, which undoes the truncation of trailing zeros. */
  function At(p: seq<Byte>, i: nat): Byte { if i < |p| then p[i] else 0 }

  function ReadU16(p: seq<Byte>, i: nat): U16 { At(p, i) + 256 * At(p, i + 1) }

  function ReadU32(p: seq<Byte>, i: nat): U32 { ReadU16(p, i) + 0x1_0000 * ReadU16(p, i + 2) }

  function ReadI32(p: seq<Byte>, i: nat): I32 {
    var u: int := ReadU32(p, i);
    if u < 0x8000_0000 then u else u - 0x1_0000_0000
  }

  function BytesU16(v: U16): seq<Byte> { [v % 256, v / 256] }

  function BytesU32(v: U32): seq<Byte> { BytesU16(v % 0x1_0000) + BytesU16(v / 0x1_0000) }

  function BytesI32(v: I32): seq<Byte> { BytesU32(if v < 0 then v + 0x1_0000_0000 else v) }

  predicate HasAt(p: seq<Byte>, i: nat, part: seq<Byte>) {
    i + |part| <= |p| && p[i..i + |part|] == part
  }

  lemma ReadBackU16(p: seq<Byte>, i: nat, v: U16)
    requires HasAt(p, i, BytesU16(v))
    ensures ReadU16(p, i) == v
  {
    assert p[i] == p[i..i + 2][0] && p[i + 1] == p[i..i + 2][1];
  }

  lemma ReadBackU32(p: seq<Byte>, i: nat, v: U32)
    requires HasAt(p, i, BytesU32(v))
    ensures ReadU32(p, i) == v
  {
    assert p[i..i + 2] == p[i..i + 4][..2];
    assert p[i + 2..i + 4] == p[i..i + 4][2..];
    ReadBackU16(p, i, v % 0x1_0000);
    ReadBackU16(p, i + 2, v / 0x1_0000);
  }

  lemma ReadBackI32(p: seq<Byte>, i: nat, v: I32)
    requires HasAt(p, i, BytesI32(v))
    ensures ReadI32(p, i) == v
  {
    ReadBackU32(p, i, if v < 0 then v + 0x1_0000_0000 else v);
  }

  // ---- rows ----

  /** A geodetic mission row; `p1`, `p2` and `z` are binary32 patterns. */
  datatype Row = Row(seqNo: U16, command: U16, frame: Byte, p1: U32, p2: U32, lat: I32, lng: I32, z: U32)

  const BLANK: Row := Row(0, 0, 0, 0, 0, 0, 0, 0)

  function ParseItem(p: seq<Byte>): Row {
    Row(ReadU16(p, 28), ReadU16(p, 30), At(p, 34), ReadU32(p, 0), ReadU32(p, 4), ReadI32(p, 16), ReadI32(p, 20), ReadU32(p, 24))
  }

  function Zeros(n: nat): (z: seq<Byte>)
    ensures |z| == n
  {
    seq(n, _ => 0)
  }

  function ItemPayload(r: Row): (p: seq<Byte>)
    ensures |p| == 38
  {
    BytesU32(r.p1) + BytesU32(r.p2) + Zeros(8) + BytesI32(r.lat) + BytesI32(r.lng) + BytesU32(r.z)
    + BytesU16(r.seqNo) + BytesU16(r.command) + [255, 0, r.frame, if r.seqNo == 0 then 1 else 0, 1, 0]
  }

  /** What is sent for a row reads back as that row. */
  lemma ItemRoundTrip(r: Row)
    ensures ParseItem(ItemPayload(r)) == r
  {
    hide BytesU16, BytesU32, BytesI32, ReadU16, ReadU32, ReadI32;
    var p := ItemPayload(r);
    Widths(r);
    assert HasAt(p, 0, BytesU32(r.p1));
    ReadBackU32(p, 0, r.p1);
    assert HasAt(p, 4, BytesU32(r.p2));
    ReadBackU32(p, 4, r.p2);
    assert HasAt(p, 16, BytesI32(r.lat));
    ReadBackI32(p, 16, r.lat);
    assert HasAt(p, 20, BytesI32(r.lng));
    ReadBackI32(p, 20, r.lng);
    assert HasAt(p, 24, BytesU32(r.z));
    ReadBackU32(p, 24, r.z);
    assert HasAt(p, 28, BytesU16(r.seqNo));
    ReadBackU16(p, 28, r.seqNo);
    assert HasAt(p, 30, BytesU16(r.command));
    ReadBackU16(p, 30, r.command);
  }

  lemma Widths(r: Row)
    ensures |BytesU32(r.p1)| == |BytesU32(r.p2)| == |BytesU32(r.z)| == 4
    ensures |BytesI32(r.lat)| == |BytesI32(r.lng)| == 4
    ensures |BytesU16(r.seqNo)| == |BytesU16(r.command)| == 2
  {}

  /** The bytes of an item message that a row keeps: all but parameters 3 and 4, the addressing and the flags. */
  predicate Kept(i: nat) { i < 8 || 16 <= i < 32 || i == 34 }

  lemma BytesReadU16(p: seq<Byte>, i: nat)
    ensures BytesU16(ReadU16(p, i)) == [At(p, i), At(p, i + 1)]
  {}

  lemma BytesReadU32(p: seq<Byte>, i: nat)
    ensures BytesU32(ReadU32(p, i)) == [At(p, i), At(p, i + 1), At(p, i + 2), At(p, i + 3)]
  {
    hide ReadU16;
    var u := ReadU32(p, i);
    assert u % 0x1_0000 == ReadU16(p, i) && u / 0x1_0000 == ReadU16(p, i + 2);
    BytesReadU16(p, i);
    BytesReadU16(p, i + 2);
  }

  lemma BytesReadI32(p: seq<Byte>, i: nat)
    ensures BytesI32(ReadI32(p, i)) == [At(p, i), At(p, i + 1), At(p, i + 2), At(p, i + 3)]
  {
    hide ReadU32, BytesU32;
    BytesReadU32(p, i);
  }

  /** An item that is stored and sent again carries the bytes it came with. */
  lemma BytesSurvive(p: seq<Byte>)
    ensures forall i: nat :: Kept(i) ==> At(ItemPayload(ParseItem(p)), i) == At(p, i)
  {
    hide BytesU16, BytesU32, BytesI32, ReadU16, ReadU32, ReadI32;
    BytesReadU32(p, 0);
    BytesReadU32(p, 4);
    BytesReadI32(p, 16);
    BytesReadI32(p, 20);
    BytesReadU32(p, 24);
    BytesReadU16(p, 28);
    BytesReadU16(p, 30);
  }

  // ---- the library's own packing ----

  /** A mission item as the link library holds it, in the order of its fields on the wire. */
  datatype MissionItem = MissionItem(
    param1: U32, param2: U32, param3: U32, param4: U32, x: I32, y: I32, z: U32, seqNo: U16, command: U16,
    targetSystem: Byte, targetComponent: Byte, frame: Byte, current: Byte, autocontinue: Byte, missionType: Byte)

  function Words(i: MissionItem): (p: seq<Byte>)
    ensures |p| == 28
  {
    BytesU32(i.param1) + BytesU32(i.param2) + BytesU32(i.param3) + BytesU32(i.param4) + BytesI32(i.x) + BytesI32(i.y) + BytesU32(i.z)
  }

  /** `pack_mission_item_int`: fields by falling size. */
  function Pack(i: MissionItem): (p: seq<Byte>)
    ensures |p| == 38
  {
    Words(i) + BytesU16(i.seqNo) + BytesU16(i.command)
    + [i.targetSystem, i.targetComponent, i.frame, i.current, i.autocontinue, i.missionType]
  }

  /** The two encoders of the message agree: what the library packs is read as the row of its fields, and what is sent for a row is what the library packs. */
  lemma PackingsAgree(i: MissionItem, r: Row)
    ensures ParseItem(Pack(i)) == Row(i.seqNo, i.command, i.frame, i.param1, i.param2, i.x, i.y, i.z)
    ensures ItemPayload(r) == Pack(MissionItem(r.p1, r.p2, 0, 0, r.lat, r.lng, r.z, r.seqNo, r.command, 255, 0, r.frame, if r.seqNo == 0 then 1 else 0, 1, 0))
  {
    hide BytesU16, BytesU32, BytesI32, ReadU16, ReadU32, ReadI32;
    var p := Pack(i);
    PartsOf(i);
    ReadBackU32(p, 0, i.param1);
    ReadBackU32(p, 4, i.param2);
    ReadBackI32(p, 16, i.x);
    ReadBackI32(p, 20, i.y);
    ReadBackU32(p, 24, i.z);
    ReadBackU16(p, 28, i.seqNo);
    ReadBackU16(p, 30, i.command);
    BlankParameters();
  }

  lemma PartsOf(i: MissionItem)
    ensures var p := Pack(i);
      && HasAt(p, 0, BytesU32(i.param1)) && HasAt(p, 4, BytesU32(i.param2)) && HasAt(p, 16, BytesI32(i.x)) && HasAt(p, 20, BytesI32(i.y))
      && HasAt(p, 24, BytesU32(i.z)) && HasAt(p, 28, BytesU16(i.seqNo)) && HasAt(p, 30, BytesU16(i.command)) && At(p, 34) == i.frame
  {
    hide BytesU16, BytesU32, BytesI32, Words, HasAt;
    var w, p := Words(i), Pack(i);
    var flags := [i.targetSystem, i.targetComponent, i.frame, i.current, i.autocontinue, i.missionType];
    WordWidths(i);
    WordParts(i);
    Placed(w, BytesU16(i.seqNo), BytesU16(i.command) + flags);
    Placed(w + BytesU16(i.seqNo), BytesU16(i.command), flags);
    assert p == w + (BytesU16(i.seqNo) + (BytesU16(i.command) + flags));
    assert p == w + BytesU16(i.seqNo) + (BytesU16(i.command) + flags);
    var rest := BytesU16(i.seqNo) + (BytesU16(i.command) + flags);
    StaysAt(w, rest, 0, BytesU32(i.param1));
    StaysAt(w, rest, 4, BytesU32(i.param2));
    StaysAt(w, rest, 16, BytesI32(i.x));
    StaysAt(w, rest, 20, BytesI32(i.y));
    StaysAt(w, rest, 24, BytesU32(i.z));
  }

  lemma WordParts(i: MissionItem)
    ensures var w := Words(i);
      && HasAt(w, 0, BytesU32(i.param1)) && HasAt(w, 4, BytesU32(i.param2)) && HasAt(w, 16, BytesI32(i.x)) && HasAt(w, 20, BytesI32(i.y))
      && HasAt(w, 24, BytesU32(i.z))
  {
    hide BytesU16, BytesU32, BytesI32;
    WordWidths(i);
  }

  lemma Placed(before: seq<Byte>, part: seq<Byte>, after: seq<Byte>)
    ensures HasAt(before + (part + after), |before|, part) && HasAt(before + part + after, |before|, part)
  {
    assert before + (part + after) == before + part + after;
  }

  lemma StaysAt(p: seq<Byte>, rest: seq<Byte>, i: nat, part: seq<Byte>)
    requires HasAt(p, i, part)
    ensures HasAt(p + rest, i, part)
  {
    assert (p + rest)[i..i + |part|] == p[i..i + |part|];
  }

  lemma WordWidths(i: MissionItem)
    ensures |BytesU32(i.param1)| == |BytesU32(i.param2)| == |BytesU32(i.param3)| == |BytesU32(i.param4)| == |BytesU32(i.z)| == 4
    ensures |BytesI32(i.x)| == |BytesI32(i.y)| == 4 && |BytesU16(i.seqNo)| == |BytesU16(i.command)| == 2
  {}

  lemma BlankParameters()
    ensures BytesU32(0) + BytesU32(0) == Zeros(8)
  {}
}
