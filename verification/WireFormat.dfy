/**
  Messages as any peer may encode them: fields of every kind, in any order and
  any number, and what the server reads out of them (Protocol Buffers encoding
  guide, section "Message Structure").
*/
module WireFormat {
  import opened Bytes
  import opened Wrappers
  import opened Protobuf
  import opened Seqs

  // ----- varints, byte by byte -----

  lemma {:induction false} VarintLow(v: nat)
    ensures Varint(v)[0] as nat == v % 128 + if v < 128 then 0 else 128
    ensures v >= 128 ==> Varint(v)[1..] == Varint(v / 128)
    ensures v < 128 ==> |Varint(v)| == 1
  {
  }

  /** A varint has no more bytes than its value needs: seven bits a byte. */
  lemma {:induction false} VarintShortest(v: nat)
    ensures v < VarintRange(|Varint(v)|)
    ensures |Varint(v)| > 1 ==> v >= VarintRange(|Varint(v)| - 1)
  {
    if v >= 128 {
      VarintShortest(v / 128);
      VarintLow(v);
      assert v >= 128 * (v / 128);
      if |Varint(v / 128)| == 1 {
        assert VarintRange(1) == 128;
      }
    } else {
      assert VarintRange(1) == 128;
    }
  }

  lemma VarintExample()
    ensures Varint(300) == [0xAC, 0x02]
  {
    assert Varint(2) == [0x02];
  }

  // ----- fields of any kind -----

  datatype WireField =
    | Number(number: nat, value: nat)
    | Fixed64(number: nat, raw: seq<byte>)
    | Delimited(number: nat, raw: seq<byte>)
    | Fixed32(number: nat, raw: seq<byte>)
  {
    predicate Valid() {
      && 1 <= number < 0x2000_0000
      && match this
         case Number(_, value) => value < VarintRange(10)
         case Fixed64(_, raw) => |raw| == 8
         case Delimited(_, raw) => |raw| < U32
         case Fixed32(_, raw) => |raw| == 4
    }

    function WireType(): nat {
      match this
      case Number(_, _) => 0
      case Fixed64(_, _) => 1
      case Delimited(_, _) => 2
      case Fixed32(_, _) => 5
    }

    function Payload(): seq<byte> {
      match this
      case Number(_, value) => Varint(value)
      case Delimited(_, raw) => Varint(|raw|) + raw
      case _ => raw
    }

    function Bytes(): (s: seq<byte>)
      ensures |s| >= 1
    {
      Varint(8 * number + WireType()) + Payload()
    }

    function Kept(): seq<FieldValue> {
      if Number? then [FieldValue(number, value % 0x1_0000_0000_0000_0000)] else []
    }
  }

  predicate AllValid(fields: seq<WireField>) {
    forall i :: 0 <= i < |fields| ==> fields[i].Valid()
  }

  function Encoding(fields: seq<WireField>): seq<byte> {
    if fields == [] then [] else fields[0].Bytes() + Encoding(fields[1..])
  }

  /** The numbers among the fields, in order. */
  function Numbers(fields: seq<WireField>): seq<FieldValue> {
    if fields == [] then [] else fields[0].Kept() + Numbers(fields[1..])
  }

  lemma PayloadSkipped(f: WireField, rest: seq<byte>)
    requires f.Valid()
    ensures SkipLength(f.WireType(), f.Payload() + rest) == Some(|f.Payload()|)
    ensures f.Number? ==> VarintAt(f.Payload() + rest, 10) == Some((f.value, |f.Payload()|))
  {
    VarintRanges();
    match f
    case Number(_, value) => VarintRoundTrip(value, 10, rest);
    case Delimited(_, raw) =>
      VarintRoundTrip(|raw|, 5, raw + rest);
      assert f.Payload() + rest == Varint(|raw|) + (raw + rest);
    case _ =>
  }

  lemma TagRead(number: nat, wireType: nat, rest: seq<byte>)
    requires 1 <= number < 0x2000_0000 && wireType < 8
    ensures var tag := Varint(8 * number + wireType);
            VarintAt(tag + rest, 5) == Some((8 * number + wireType, |tag|))
    ensures TagNumber(8 * number + wireType) == number && (8 * number + wireType) % 8 == wireType
  {
    VarintRanges();
    VarintRoundTrip(8 * number + wireType, 5, rest);
  }

  lemma EntryFrom(s: seq<byte>, number: nat, wireType: nat, t: nat, n: nat, kept: seq<FieldValue>)
    requires number >= 1 && 1 <= t <= |s| && VarintAt(s, 5) == Some((8 * number + wireType, t))
    requires TagNumber(8 * number + wireType) == number && (8 * number + wireType) % 8 == wireType
    requires SkipLength(wireType, s[t..]) == Some(n)
    requires kept == if wireType == 0 then [FieldValue(number, Low64(VarintAt(s[t..], 10).value.0))] else []
    ensures EntryAt(s) == Some(Entry(kept, t + n))
  {
  }

  /** One field at the front of a message is taken off whole, and kept if it is a number. */
  lemma EntryRead(f: WireField, rest: seq<byte>)
    requires f.Valid()
    ensures EntryAt(f.Bytes() + rest) == Some(Entry(f.Kept(), |f.Bytes()|))
  {
    var tag, payload := Varint(8 * f.number + f.WireType()), f.Payload();
    TagRead(f.number, f.WireType(), payload + rest);
    PayloadSkipped(f, rest);
    Regrouped(tag, payload, rest);
    assert (tag + (payload + rest))[|tag|..] == payload + rest;
    EntryFrom(tag + (payload + rest), f.number, f.WireType(), |tag|, |payload|, f.Kept());
  }

  lemma FieldsStep(field: seq<byte>, kept: seq<FieldValue>, tail: seq<byte>)
    requires |field| >= 1 && EntryAt(field + tail) == Some(Entry(kept, |field|))
    ensures Fields(field + tail) == kept + Fields(tail)
  {
    assert (field + tail)[|field|..] == tail;
  }

  /** Whatever fields a message is made of, what is read are its numbers, and then what follows. */
  lemma {:induction false} FieldsRead(fields: seq<WireField>, rest: seq<byte>)
    requires AllValid(fields)
    ensures Fields(Encoding(fields) + rest) == Numbers(fields) + Fields(rest)
  {
    if fields == [] {
      assert Encoding(fields) + rest == rest;
    } else {
      var field, kept, others := fields[0].Bytes(), fields[0].Kept(), fields[1..];
      EntryRead(fields[0], Encoding(others) + rest);
      FieldsStep(field, kept, Encoding(others) + rest);
      FieldsRead(others, rest);
      Regrouped(field, Encoding(others), rest);
      Regrouped(kept, Numbers(others), Fields(rest));
    }
  }

  /** A group, an unknown wire type or field number zero ends what is read. */
  lemma MalformedStops(fields: seq<WireField>, b: byte, rest: seq<byte>)
    requires AllValid(fields) && b < 128 && (b as nat % 8 in {3, 4, 6, 7} || b as nat / 8 == 0)
    ensures Fields(Encoding(fields) + ([b] + rest)) == Numbers(fields)
  {
    FieldsRead(fields, [b] + rest);
    NothingRead(b, rest);
  }

  lemma NothingRead(b: byte, rest: seq<byte>)
    requires b < 128 && (b as nat % 8 in {3, 4, 6, 7} || b as nat / 8 == 0)
    ensures Fields([b] + rest) == []
  {
    assert ([b] + rest)[0] == b && VarintAt([b] + rest, 5) == Some((b as nat, 1));
  }

  /** Bytes that all ask for another one. */
  predicate Unended(s: seq<byte>) {
    forall i :: 0 <= i < |s| ==> s[i] >= 128
  }

  lemma {:induction false} UnendedVarint(s: seq<byte>, limit: nat, rest: seq<byte>)
    requires |s| == limit && Unended(s)
    ensures VarintAt(s + rest, limit) == None
  {
    if s != [] {
      UnendedVarint(s[1..], limit - 1, rest);
      assert (s + rest)[1..] == s[1..] + rest;
    }
  }

  /** A tag of more than five bytes ends what is read, whatever stands after it. */
  lemma LongTagStops(s: seq<byte>, rest: seq<byte>)
    requires |s| == 5 && Unended(s)
    ensures Fields(s + rest) == []
  {
    UnendedVarint(s, 5, rest);
  }

  /** So does a number of more than ten bytes. */
  lemma LongNumberStops(tag: byte, s: seq<byte>, rest: seq<byte>)
    requires 8 <= tag < 128 && tag as nat % 8 == 0 && |s| == 10 && Unended(s)
    ensures Fields([tag] + (s + rest)) == []
  {
    UnendedVarint(s, 10, rest);
    TagAlone(tag, s + rest);
  }

  /** And a string that says it is longer than what is left. */
  lemma LongStringStops(tag: byte, length: nat, raw: seq<byte>)
    requires 8 <= tag < 128 && tag as nat % 8 == 2 && |raw| < length < U32
    ensures Fields([tag] + (Varint(length) + raw)) == []
  {
    VarintRanges();
    VarintRoundTrip(length, 5, raw);
    TagAlone(tag, Varint(length) + raw);
  }

  lemma TagAlone(tag: byte, s: seq<byte>)
    requires 8 <= tag < 128
    ensures VarintAt([tag] + s, 5) == Some((tag as nat, 1)) && ([tag] + s)[1..] == s
    ensures SkipLength(tag as nat % 8, s) == None ==> Fields([tag] + s) == []
  {
    assert ([tag] + s)[0] == tag;
    assert TagNumber(tag as nat) == tag as nat / 8;
  }

  // ----- the last number of a field -----

  /** Entry i is the last number of its field. */
  predicate IsLast(fields: seq<WireField>, number: nat, i: nat) {
    && i < |fields| && fields[i].Number? && fields[i].number == number
    && forall j :: i < j < |fields| && fields[j].Number? ==> fields[j].number != number
  }

  lemma ScalarPush(values: seq<FieldValue>, v: FieldValue, number: nat)
    ensures Scalar(values + [v], number) == if v.number == number then v.value else Scalar(values, number)
  {
    assert (values + [v])[..|values|] == values;
  }

  lemma NumbersPush(fields: seq<WireField>, f: WireField)
    ensures Numbers(fields + [f]) == Numbers(fields) + f.Kept()
    decreases fields
  {
    if fields == [] {
      assert [] + [f] == [f] && Numbers([f]) == f.Kept() + Numbers([]);
    } else {
      NumbersPush(fields[1..], f);
      Regroup(fields, [f]);
      Regrouped(fields[0].Kept(), Numbers(fields[1..]), f.Kept());
      assert (fields + [f])[1..] == fields[1..] + [f];
    }
  }

  lemma ScalarStep(before: seq<WireField>, f: WireField, number: nat)
    ensures Scalar(Numbers(before + [f]), number)
            == if f.Number? && f.number == number then f.value % U64 else Scalar(Numbers(before), number)
  {
    NumbersPush(before, f);
    if f.Number? {
      ScalarPush(Numbers(before), FieldValue(f.number, f.value % U64), number);
    } else {
      assert Numbers(before) + [] == Numbers(before);
    }
  }

  /** A scalar reads as the last number of its field, or zero without one. */
  lemma {:induction false} ScalarRead(fields: seq<WireField>, number: nat)
    ensures forall i: nat :: IsLast(fields, number, i) ==> Scalar(Numbers(fields), number) == fields[i].value % U64
    ensures (forall i :: 0 <= i < |fields| && fields[i].Number? ==> fields[i].number != number) ==>
              Scalar(Numbers(fields), number) == 0
    decreases |fields|
  {
    if fields != [] {
      var before, f := fields[..|fields| - 1], fields[|fields| - 1];
      SplitLast(fields);
      ScalarRead(before, number);
      ScalarStep(before, f, number);
      forall i: nat | IsLast(fields, number, i)
        ensures Scalar(Numbers(fields), number) == fields[i].value % U64
      {
        assert i < |before| ==> IsLast(before, number, i);
      }
    }
  }

  // ----- the head -----

  /** The head as it stands on the wire: tags 0x18 and 0x30, a zero left out. */
  lemma HeadOnWire(h: PacketHead)
    ensures HeadBytes(h) == (if h.clientSequenceId == 0 then [] else [0x18] + Varint(h.clientSequenceId))
                            + (if h.timestamp == 0 then [] else [0x30] + Varint(h.timestamp))
  {
    assert Varint(24) == [0x18] && Varint(48) == [0x30];
  }

  lemma WholeRead(fields: seq<WireField>)
    requires AllValid(fields)
    ensures Fields(Encoding(fields)) == Numbers(fields)
  {
    FieldsRead(fields, []);
    assert Encoding(fields) + [] == Encoding(fields) && Fields([]) == [];
  }

  /** Whatever a peer puts into its head, field 3 is the sequence id and field 6 the time, and the last one counts. */
  lemma HeadRead(fields: seq<WireField>)
    requires AllValid(fields)
    ensures forall i: nat :: IsLast(fields, 3, i) ==>
              ParseHead(Encoding(fields)).clientSequenceId == fields[i].value % 0x1_0000_0000_0000_0000 % 0x1_0000_0000
    ensures forall i: nat :: IsLast(fields, 6, i) ==>
              ParseHead(Encoding(fields)).timestamp == fields[i].value % 0x1_0000_0000_0000_0000
  {
    WholeRead(fields);
    ScalarRead(fields, 3);
    ScalarRead(fields, 6);
  }

  // ----- pings -----

  /** The fields of a ping request. */
  datatype PingField =
    | Seq(v: u32)
    | ClientTime(v: u32)
    | ScData(raw: seq<byte>)
    | TotalTickTime(raw: seq<byte>)
    | UeTime(raw: seq<byte>)
  {
    predicate Valid() {
      match this
      case ScData(raw) => |raw| < U32
      case TotalTickTime(raw) => |raw| == 8
      case UeTime(raw) => |raw| == 4
      case _ => true
    }

    function Bytes(): seq<byte> {
      match this
      case Seq(v) => [0x10] + Varint(v)
      case ClientTime(v) => [0x70] + Varint(v)
      case ScData(raw) => [0x5A] + Varint(|raw|) + raw
      case TotalTickTime(raw) => [0x61] + raw
      case UeTime(raw) => [0x7D] + raw
    }

    function Field(): WireField {
      match this
      case Seq(v) => Number(2, v)
      case ClientTime(v) => Number(14, v)
      case ScData(raw) => Delimited(11, raw)
      case TotalTickTime(raw) => Fixed64(12, raw)
      case UeTime(raw) => Fixed32(15, raw)
    }
  }

  function PingBody(fields: seq<PingField>): seq<byte> {
    if fields == [] then [] else fields[0].Bytes() + PingBody(fields[1..])
  }

  function WireFields(fields: seq<PingField>): (r: seq<WireField>)
    ensures |r| == |fields| && forall i :: 0 <= i < |r| ==> r[i] == fields[i].Field()
  {
    if fields == [] then [] else [fields[0].Field()] + WireFields(fields[1..])
  }

  lemma PingTags(f: PingField)
    ensures f.Bytes() == f.Field().Bytes()
  {
    match f
    case Seq(_) => OneByte(16);
    case ClientTime(_) => OneByte(112);
    case ScData(raw) =>
      OneByte(90);
      Regrouped([0x5A], Varint(|raw|), raw);
    case TotalTickTime(_) => OneByte(97);
    case UeTime(_) => OneByte(125);
  }

  lemma OneByte(v: nat)
    requires v < 128
    ensures Varint(v) == [v as byte]
  {
  }

  lemma {:induction false} PingIsWire(fields: seq<PingField>)
    ensures PingBody(fields) == Encoding(WireFields(fields))
  {
    if fields != [] {
      PingTags(fields[0]);
      PingIsWire(fields[1..]);
      assert WireFields(fields)[1..] == WireFields(fields[1..]);
    }
  }

  /** Entry i is the last client time of the ping. */
  predicate IsTime(fields: seq<PingField>, i: nat) {
    && i < |fields| && fields[i].ClientTime?
    && forall j :: i < j < |fields| ==> !fields[j].ClientTime?
  }

  predicate ValidPing(fields: seq<PingField>) {
    forall i :: 0 <= i < |fields| ==> fields[i].Valid()
  }

  lemma ValidWire(fields: seq<PingField>)
    requires ValidPing(fields)
    ensures AllValid(WireFields(fields))
  {
    forall i | 0 <= i < |fields|
      ensures WireFields(fields)[i].Valid()
    {
      assert fields[i].Valid();
    }
  }

  lemma PingScalar(fields: seq<PingField>)
    requires ValidPing(fields)
    ensures PingReqClientTime(PingBody(fields)) == Low32(Scalar(Numbers(WireFields(fields)), 14))
  {
    ValidWire(fields);
    PingIsWire(fields);
    WholeRead(WireFields(fields));
  }

  lemma TimeIsLast(fields: seq<PingField>, wire: seq<WireField>, i: nat)
    requires |wire| == |fields| && forall j :: 0 <= j < |wire| ==> wire[j] == fields[j].Field()
    requires IsTime(fields, i)
    ensures IsLast(wire, 14, i) && wire[i].value % U64 == fields[i].v
  {
  }

  /** A ping's client time is read from field 14 and no other, wherever it stands. */
  lemma PingRead(fields: seq<PingField>, i: nat)
    requires ValidPing(fields) && IsTime(fields, i)
    ensures PingReqClientTime(PingBody(fields)) == fields[i].v
  {
    PingScalar(fields);
    ScalarRead(WireFields(fields), 14);
    TimeIsLast(fields, WireFields(fields), i);
  }

  /** And it is zero when it is left out. */
  lemma PingWithoutTime(fields: seq<PingField>)
    requires ValidPing(fields) && forall i :: 0 <= i < |fields| ==> !fields[i].ClientTime?
    ensures PingReqClientTime(PingBody(fields)) == 0
  {
    PingScalar(fields);
    ScalarRead(WireFields(fields), 14);
    NoTime(fields, WireFields(fields));
  }

  lemma NoTime(fields: seq<PingField>, wire: seq<WireField>)
    requires |wire| == |fields| && forall j :: 0 <= j < |wire| ==> wire[j] == fields[j].Field()
    requires forall i :: 0 <= i < |fields| ==> !fields[i].ClientTime?
    ensures forall j :: 0 <= j < |wire| && wire[j].Number? ==> wire[j].number != 14
  {
  }

  /** A ping as a client serialises it: every field, in the order of the numbers. */
  lemma PingInOrder(sequence: u32, scData: seq<byte>, tickTime: seq<byte>, clientTime: u32, ueTime: seq<byte>)
    requires |scData| < U32 && |tickTime| == 8 && |ueTime| == 4
    ensures PingReqClientTime(([0x10] + Varint(sequence)) + (([0x5A] + Varint(|scData|) + scData) + (([0x61] + tickTime)
                              + (([0x70] + Varint(clientTime)) + ([0x7D] + ueTime))))) == clientTime
  {
    var fields := [Seq(sequence), ScData(scData), TotalTickTime(tickTime), ClientTime(clientTime), UeTime(ueTime)];
    PingRead(fields, 3);
    FiveFields(fields);
  }

  lemma FiveFields(fields: seq<PingField>)
    requires |fields| == 5
    ensures PingBody(fields)
            == fields[0].Bytes() + (fields[1].Bytes() + (fields[2].Bytes() + (fields[3].Bytes() + fields[4].Bytes())))
  {
    BodyFrom(fields, 4);
    BodyFrom(fields, 3);
    BodyFrom(fields, 2);
    BodyFrom(fields, 1);
    BodyFrom(fields, 0);
    assert fields[0..] == fields && fields[4].Bytes() + [] == fields[4].Bytes();
  }

  lemma BodyFrom(fields: seq<PingField>, i: nat)
    requires i < |fields|
    ensures PingBody(fields[i..]) == fields[i].Bytes() + PingBody(fields[i + 1..])
    ensures fields[|fields|..] == [] && PingBody([]) == []
  {
    assert fields[i..][1..] == fields[i + 1..];
  }

  /** A ping reply on the wire: field 8 alone, left out when it is zero. */
  lemma PingRspOnWire(clientTime: u32)
    ensures PingRspBytes(clientTime) == if clientTime == 0 then [] else [0x40] + Varint(clientTime)
  {
    assert Varint(64) == [0x40];
  }
}
