/**
  The protocol buffers wire format as far as the server's own fields need it
  (Protocol Buffers encoding guide, sections "Base 128 Varints" and "Message
  Structure"): unsigned varint fields are kept, every other field is skipped.
*/
module Protobuf {
  import opened Bytes
  import opened Wrappers

  function Varint(v: nat): (s: seq<byte>)
    ensures |s| >= 1
    decreases v
  {
    if v < 128 then [v as byte] else [(128 + v % 128) as byte] + Varint(v / 128)
  }

  /** The varint at the front of s, at most `limit` bytes long, and its length. */
  function VarintAt(s: seq<byte>, limit: nat): (r: Option<(nat, nat)>)
    ensures r.Some? ==> 1 <= r.value.1 <= |s| && r.value.1 <= limit
  {
    if s == [] || limit == 0 then None
    else if s[0] < 128 then Some((s[0] as nat, 1))
    else
      match VarintAt(s[1..], limit - 1)
      case None => None
      case Some(tail) => Some((s[0] as nat - 128 + 128 * tail.0, 1 + tail.1))
  }

  /** Number of values a varint of `length` bytes can hold. */
  function VarintRange(length: nat): nat {
    if length == 0 then 1 else 128 * VarintRange(length - 1)
  }

  lemma VarintRanges()
    ensures VarintRange(1) == 0x80 && VarintRange(5) >= U32 && VarintRange(10) >= U64
  {
    assert VarintRange(3) == 0x20_0000;
    assert VarintRange(5) == 0x8_0000_0000;
    assert VarintRange(8) == 0x100_0000_0000_0000;
  }

  lemma {:induction false} VarintRoundTrip(v: nat, limit: nat, rest: seq<byte>)
    requires v < VarintRange(limit) && limit > 0
    ensures VarintAt(Varint(v) + rest, limit) == Some((v, |Varint(v)|))
    ensures |Varint(v)| <= limit
    decreases v
  {
    if v >= 128 {
      assert limit > 1 by {
        if limit == 1 {
          VarintRanges();
          assert false;
        }
      }
      VarintRoundTrip(v / 128, limit - 1, rest);
      assert (Varint(v) + rest)[1..] == Varint(v / 128) + rest;
    }
  }

  /** A scalar field of varint type; proto3 omits the default value zero. */
  function VarintField(number: nat, v: nat): seq<byte> {
    if v == 0 then [] else Varint(8 * number) + Varint(v)
  }

  datatype FieldValue = FieldValue(number: nat, value: nat)

  /** Bytes a field of this wire type occupies after its tag. Groups are not skipped. */
  function SkipLength(wireType: nat, s: seq<byte>): (r: Option<nat>)
    ensures r.Some? ==> r.value <= |s|
  {
    match wireType
    case 0 => var v := VarintAt(s, 10); if v.None? then None else Some(v.value.1)
    case 1 => if |s| < 8 then None else Some(8)
    case 2 =>
      var length := VarintAt(s, 5);
      if length.None? || length.value.0 > |s| - length.value.1 then None
      else Some(length.value.1 + length.value.0)
    case 5 => if |s| < 4 then None else Some(4)
    case _ => None
  }

  datatype Entry = Entry(kept: seq<FieldValue>, used: nat)

  /** The field at the front of a message and its length; None when it is malformed. */
  function EntryAt(s: seq<byte>): (r: Option<Entry>)
    ensures r.Some? ==> 1 <= r.value.used <= |s|
  {
    var tag := VarintAt(s, 5);
    if tag.None? then None
    else
      var number, wireType, rest := TagNumber(tag.value.0), tag.value.0 % 8, s[tag.value.1..];
      var n := SkipLength(wireType, rest);
      if n.None? || number == 0 then None
      else
        var kept := if wireType == 0 then [FieldValue(number, Low64(VarintAt(rest, 10).value.0))] else [];
        Some(Entry(kept, tag.value.1 + n.value))
  }

  /** The varint fields of a message in order, up to its end or to the first malformed field. */
  function Fields(s: seq<byte>): seq<FieldValue> {
    match EntryAt(s)
    case None => []
    case Some(entry) => entry.kept + Fields(s[entry.used..])
  }

  /** The field number of a tag, which keeps 32 bits. */
  function TagNumber(tag: nat): nat {
    tag % 0x1_0000_0000 / 8
  }

  function Low32(v: nat): (r: u32)
    ensures v < U32 ==> r == v
  {
    v % 0x1_0000_0000
  }

  function Low64(v: nat): (r: u64)
    ensures v < U64 ==> r == v
  {
    v % 0x1_0000_0000_0000_0000
  }

  /** The last occurrence of a scalar field wins; a missing one is zero. */
  function Scalar(fields: seq<FieldValue>, number: nat): nat {
    if fields == [] then 0
    else if fields[|fields| - 1].number == number then fields[|fields| - 1].value
    else Scalar(fields[..|fields| - 1], number)
  }

  lemma EntryOf(s: seq<byte>, number: nat, t: nat, v: nat, n: nat)
    requires 1 <= number < 0x1000_0000 && v < U64 && t <= |s|
    requires VarintAt(s, 5) == Some((8 * number, t)) && VarintAt(s[t..], 10) == Some((v, n))
    ensures EntryAt(s) == Some(Entry([FieldValue(number, v)], t + n))
  {
    assert TagNumber(8 * number) == number && 8 * number % 8 == 0;
    assert SkipLength(0, s[t..]) == Some(n);
  }

  lemma FieldParsed(number: nat, v: nat, rest: seq<byte>)
    requires 1 <= number < 0x1000_0000 && 0 < v < U64
    ensures Fields(VarintField(number, v) + rest) == [FieldValue(number, v)] + Fields(rest)
  {
    var tag, value := Varint(8 * number), Varint(v);
    var s := tag + (value + rest);
    assert VarintField(number, v) + rest == s;
    VarintRanges();
    VarintRoundTrip(8 * number, 5, value + rest);
    VarintRoundTrip(v, 10, rest);
    assert s[|tag|..] == value + rest && s[|tag| + |value|..] == rest;
    EntryOf(s, number, |tag|, v, |value|);
  }

  /** A field as written reads back as itself, and as nothing when it is zero. */
  lemma OptionalFieldParsed(number: nat, v: nat, rest: seq<byte>)
    requires 1 <= number < 0x1000_0000 && v < U64
    ensures Fields(VarintField(number, v) + rest)
            == (if v == 0 then [] else [FieldValue(number, v)]) + Fields(rest)
  {
    if v == 0 {
      assert VarintField(number, v) + rest == rest;
      assert [] + Fields(rest) == Fields(rest);
    } else {
      FieldParsed(number, v, rest);
    }
  }

  datatype PacketHead = PacketHead(clientSequenceId: u32, timestamp: u64)

  function HeadBytes(h: PacketHead): (s: seq<byte>)
    ensures |s| <= 17
  {
    HeadLengths(h);
    VarintField(3, h.clientSequenceId) + VarintField(6, h.timestamp)
  }

  lemma HeadLengths(h: PacketHead)
    ensures |VarintField(3, h.clientSequenceId)| <= 6 && |VarintField(6, h.timestamp)| <= 11
  {
    VarintRanges();
    VarintRoundTrip(24, 1, []);
    VarintRoundTrip(48, 1, []);
    VarintRoundTrip(h.clientSequenceId, 5, []);
    VarintRoundTrip(h.timestamp, 10, []);
  }

  /** What ParseFromArray leaves in the message, whether or not it reports success. */
  function ParseHead(s: seq<byte>): PacketHead {
    var fields := Fields(s);
    PacketHead(Low32(Scalar(fields, 3)), Low64(Scalar(fields, 6)))
  }

  lemma HeadRoundTrip(h: PacketHead)
    ensures ParseHead(HeadBytes(h)) == h
  {
    var tail := VarintField(6, h.timestamp);
    OptionalFieldParsed(6, h.timestamp, []);
    assert tail + [] == tail && Fields([]) == [];
    OptionalFieldParsed(3, h.clientSequenceId, tail);
    assert Fields(HeadBytes(h)) == HeadFields(h);
    ScalarPair(h);
  }

  function HeadFields(h: PacketHead): seq<FieldValue> {
    (if h.clientSequenceId == 0 then [] else [FieldValue(3, h.clientSequenceId)])
    + (if h.timestamp == 0 then [] else [FieldValue(6, h.timestamp)])
  }

  lemma ScalarPair(h: PacketHead)
    ensures Scalar(HeadFields(h), 3) == h.clientSequenceId && Scalar(HeadFields(h), 6) == h.timestamp
  {
    var all := HeadFields(h);
    if h.timestamp > 0 {
      assert all[|all| - 1] == FieldValue(6, h.timestamp);
      assert all[..|all| - 1] == if h.clientSequenceId == 0 then [] else [FieldValue(3, h.clientSequenceId)];
    } else if h.clientSequenceId > 0 {
      assert all == [FieldValue(3, h.clientSequenceId)] && all[..0] == [];
    }
  }

  /** PingReq.client_time is field 14, PingRsp.client_time field 8. */
  function PingReqClientTime(body: seq<byte>): u32 {
    Low32(Scalar(Fields(body), 14))
  }

  function PingRspBytes(clientTime: u32): seq<byte> {
    VarintField(8, clientTime)
  }

  function PingRspClientTime(body: seq<byte>): u32 {
    Low32(Scalar(Fields(body), 8))
  }

  lemma PingRspRoundTrip(clientTime: u32)
    ensures PingRspClientTime(PingRspBytes(clientTime)) == clientTime
    ensures |PingRspBytes(clientTime)| <= 6
  {
    VarintRanges();
    VarintRoundTrip(64, 1, []);
    VarintRoundTrip(clientTime, 5, []);
    OptionalFieldParsed(8, clientTime, []);
    assert PingRspBytes(clientTime) + [] == PingRspBytes(clientTime) && Fields([]) == [];
    assert clientTime > 0 ==> Scalar([FieldValue(8, clientTime)], 8) == clientTime;
  }
}
