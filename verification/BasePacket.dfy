/**
  The frame `4567 | id | metadata size | data size | PacketHead | data | 89ab`:
  its parsing and building constructors.
*/
module Frames {
  import opened Bytes
  import opened Wrappers
  import opened Buffers
  import opened Seqs
  import opened Protobuf

  const MAGIC_START: u16 := 0x4567
  const MAGIC_END: u16 := 0x89ab

  datatype Packet = Packet(
    magicStart: u16, id: u16, metadataSize: u16, dataSize: u32,
    head: PacketHead, data: seq<byte>, magicEnd: u16)

  datatype FrameHeader = FrameHeader(magicStart: u16, id: u16, metadataSize: u16, dataSize: u32) {
    /** The length of the whole frame the header announces. */
    function Length(): nat {
      12 + metadataSize + dataSize
    }
  }

  function HeaderAt(s: seq<byte>): FrameHeader
    requires |s| >= 10
  {
    FrameHeader(U16At(s, 0), U16At(s, 2), U16At(s, 4), U32At(s, 6))
  }

  function FrameLength(s: seq<byte>): nat
    requires |s| >= 10
  {
    HeaderAt(s).Length()
  }

  function PacketAt(s: seq<byte>, h: FrameHeader): Packet
    requires |s| >= h.Length()
  {
    var m: nat, d: nat := h.metadataSize, h.dataSize;
    Packet(h.magicStart, h.id, h.metadataSize, h.dataSize,
           ParseHead(s[10..10 + m]), s[10 + m..10 + m + d], U16At(s, 10 + m + d))
  }

  /** The packet at the front of s. The magics are read but not compared with anything. */
  function Parse(s: seq<byte>): Option<Packet> {
    if |s| < 10 || |s| < FrameLength(s) then None else Some(PacketAt(s, HeaderAt(s)))
  }

  function Header(id: u16, metadataSize: nat, dataSize: nat): (s: seq<byte>)
    ensures |s| == 10
  {
    BigEndian(MAGIC_START, 2) + BigEndian(id, 2)
    + BigEndian(metadataSize % 0x1_0000, 2) + BigEndian(dataSize % 0x1_0000_0000, 4)
  }

  function Frame(id: u16, head: PacketHead, data: seq<byte>): seq<byte> {
    Header(id, |HeadBytes(head)|, |data|) + HeadBytes(head) + data + BigEndian(MAGIC_END, 2)
  }

  /** A frame byte by byte: magics, id, both lengths, and what lies between. */
  lemma FrameOnWire(id: u16, head: PacketHead, data: seq<byte>)
    ensures var s, m, n := Frame(id, head, data), |HeadBytes(head)|, |data|;
            && |s| == 12 + m + n
            && s[0..2] == [0x45, 0x67] && s[10 + m + n..] == [0x89, 0xab]
            && BigValue(s[2..4]) == id && BigValue(s[4..6]) == m && BigValue(s[6..10]) == n % 0x1_0000_0000
            && s[10..10 + m] == HeadBytes(head) && s[10 + m..10 + m + n] == data
  {
    var s, m, n := Frame(id, head, data), |HeadBytes(head)|, |data|;
    MagicBytes();
    Ranges();
    SmallMod(m, U16);
    FrameCuts(BigEndian(MAGIC_START, 2), BigEndian(id, 2), BigEndian(m, 2), BigEndian(n % U32, 4), HeadBytes(head),
              data, BigEndian(MAGIC_END, 2));
    BigRoundTrip(id, 2);
    BigRoundTrip(m, 2);
    BigRoundTrip(n % U32, 4);
  }

  lemma FrameCuts(start: seq<byte>, id: seq<byte>, metadataSize: seq<byte>, dataSize: seq<byte>, meta: seq<byte>,
                  data: seq<byte>, ending: seq<byte>)
    requires |start| == |id| == |metadataSize| == |ending| == 2 && |dataSize| == 4
    ensures var s, m, n := start + id + metadataSize + dataSize + meta + data + ending, |meta|, |data|;
            && s[0..2] == start && s[2..4] == id && s[4..6] == metadataSize && s[6..10] == dataSize
            && s[10..10 + m] == meta && s[10 + m..10 + m + n] == data && s[10 + m + n..] == ending
  {
  }

  lemma MagicBytes()
    ensures BigEndian(MAGIC_START, 2) == [0x45, 0x67] && BigEndian(MAGIC_END, 2) == [0x89, 0xab]
  {
    assert LittleEndian(0x45, 1) == [0x45] && LittleEndian(0x89, 1) == [0x89];
    assert LittleEndian(0x4567, 2) == [0x67, 0x45] && LittleEndian(0x89ab, 2) == [0xab, 0x89];
  }

  lemma SmallMod(n: nat, m: nat)
    requires n < m
    ensures n % m == n
  {
  }

  lemma HeaderParsed(id: u16, metadataSize: u16, dataSize: nat, rest: seq<byte>)
    ensures var s := Header(id, metadataSize, dataSize) + rest;
            HeaderAt(s) == FrameHeader(MAGIC_START, id, metadataSize, dataSize % 0x1_0000_0000)
  {
    var s := Header(id, metadataSize, dataSize) + rest;
    Ranges();
    SmallMod(metadataSize, U16);
    assert s[0..2] == BigEndian(MAGIC_START, 2);
    assert s[2..4] == BigEndian(id, 2);
    assert s[4..6] == BigEndian(metadataSize, 2);
    assert s[6..10] == BigEndian(dataSize % U32, 4);
    BigRoundTrip(MAGIC_START, 2);
    BigRoundTrip(id, 2);
    BigRoundTrip(metadataSize, 2);
    BigRoundTrip(dataSize % U32, 4);
  }

  lemma BodyParsed(h: FrameHeader, meta: seq<byte>, data: seq<byte>, ending: seq<byte>, front: seq<byte>,
                   rest: seq<byte>)
    requires |front| == 10 && |meta| == h.metadataSize && |data| == h.dataSize && |ending| == 2
    ensures var s := front + (meta + data + ending + rest);
            && |s| >= h.Length()
            && PacketAt(s, h) == Packet(h.magicStart, h.id, |meta|, |data|, ParseHead(meta), data, U16At(ending, 0))
  {
    var s, m, n := front + (meta + data + ending + rest), |meta|, |data|;
    assert s[10..10 + m] == meta;
    assert s[10 + m..10 + m + n] == data;
    assert s[10 + m + n..12 + m + n] == ending == ending[0..2];
  }

  lemma FrameShape(id: u16, head: PacketHead, data: seq<byte>, rest: seq<byte>)
    ensures Frame(id, head, data) + rest
            == Header(id, |HeadBytes(head)|, |data|) + (HeadBytes(head) + data + BigEndian(MAGIC_END, 2) + rest)
  {
  }

  /** A frame followed by anything at all parses to exactly what it was built from. */
  lemma FrameRoundTrip(id: u16, head: PacketHead, data: seq<byte>, rest: seq<byte>)
    requires |data| < U32
    ensures var s := Frame(id, head, data) + rest;
            Parse(s) == Some(Packet(MAGIC_START, id, |HeadBytes(head)|, |data|, head, data, MAGIC_END))
            && FrameLength(s) == |Frame(id, head, data)|
  {
    var meta, ending := HeadBytes(head), BigEndian(MAGIC_END, 2);
    var tail := meta + data + ending + rest;
    FrameShape(id, head, data, rest);
    HeaderParsed(id, |meta|, |data|, tail);
    SmallMod(|data|, U32);
    BodyParsed(FrameHeader(MAGIC_START, id, |meta|, |data|), meta, data, ending, Header(id, |meta|, |data|), rest);
    HeadRoundTrip(head);
    EndingParsed();
  }

  lemma EndingParsed()
    ensures U16At(BigEndian(MAGIC_END, 2), 0) == MAGIC_END
  {
    Ranges();
    BigRoundTrip(MAGIC_END, 2);
    assert BigEndian(MAGIC_END, 2)[0..2] == BigEndian(MAGIC_END, 2);
  }

  /** The 32-bit size field is the only limit: a larger body does not survive the trip. */
  lemma FrameRoundTripExactly(id: u16, head: PacketHead, data: seq<byte>)
    ensures Parse(Frame(id, head, data)).Some?
    ensures Parse(Frame(id, head, data)).value.data == data <==> |data| < U32
  {
    var s, meta := Frame(id, head, data), HeadBytes(head);
    assert s == s + [];
    if |data| < U32 {
      FrameRoundTrip(id, head, data, []);
    } else {
      FrameShape(id, head, data, []);
      HeaderParsed(id, |meta|, |data|, meta + data + BigEndian(MAGIC_END, 2) + []);
    }
  }

  lemma SlicesAgree(s: seq<byte>, n: nat, rest: seq<byte>, lo: nat, hi: nat)
    requires lo <= hi <= n <= |s|
    ensures (s[..n] + rest)[lo..hi] == s[lo..hi]
  {
  }

  /**
    The parser succeeds exactly when the input is as long as its own header
    claims, and then what follows the claimed length makes no difference.
  */
  lemma ParseExactness(s: seq<byte>, rest: seq<byte>)
    ensures Parse(s).Some? <==> |s| >= 10 && |s| >= 12 + BigValue(s[4..6]) + BigValue(s[6..10])
    ensures Parse(s).Some? ==> Parse(s[..FrameLength(s)] + rest) == Parse(s)
    ensures Parse(s).Some? ==> FrameLength(s[..FrameLength(s)] + rest) == FrameLength(s)
  {
    if Parse(s).Some? {
      var n, m: nat, d: nat := FrameLength(s), U16At(s, 4), U32At(s, 6);
      SlicesAgree(s, n, rest, 0, 2);
      SlicesAgree(s, n, rest, 2, 4);
      SlicesAgree(s, n, rest, 4, 6);
      SlicesAgree(s, n, rest, 6, 10);
      SlicesAgree(s, n, rest, 10, 10 + m);
      SlicesAgree(s, n, rest, 10 + m, 10 + m + d);
      SlicesAgree(s, n, rest, 10 + m + d, 12 + m + d);
    }
  }

  type Body = s: seq<byte> | |s| < 0x1_0000_0000

  /** What a frame carries. */
  datatype Message = Message(id: u16, head: PacketHead, body: Body) {
    function Bytes(): seq<byte> {
      Frame(id, head, body)
    }
  }

  function Carried(p: Packet): Message
    requires |p.data| < U32
  {
    Message(p.id, p.head, p.data)
  }

  lemma MessageRoundTrip(m: Message, rest: seq<byte>)
    ensures Parse(m.Bytes() + rest).Some? && |Parse(m.Bytes() + rest).value.data| < U32
    ensures Carried(Parse(m.Bytes() + rest).value) == m
    ensures FrameLength(m.Bytes() + rest) == |m.Bytes()| <= |m.Bytes() + rest|
  {
    FrameRoundTrip(m.id, m.head, m.body, rest);
  }

  /** Frames are self-delimiting: none is a proper prefix of another. */
  lemma FramesPrefixFree(a: Message, b: Message, rest: seq<byte>)
    requires a.Bytes() + rest == b.Bytes()
    ensures a == b && rest == []
  {
    MessageRoundTrip(a, rest);
    MessageRoundTrip(b, []);
    assert b.Bytes() + [] == b.Bytes();
  }

  function MessageBytes(m: Message): seq<byte> {
    m.Bytes()
  }

  function Concat(messages: seq<Message>): seq<byte> {
    Collect(messages, MessageBytes)
  }

  /** Cuts a byte stream into the packets it consists of. */
  function Split(s: seq<byte>): Option<seq<Packet>>
    decreases |s|
  {
    if s == [] then Some([])
    else if Parse(s).None? then None
    else
      var others := Split(s[FrameLength(s)..]);
      if others.None? then None else Some([Parse(s).value] + others.value)
  }

  predicate Recovered(packets: seq<Packet>, messages: seq<Message>) {
    && |packets| == |messages|
    && forall i :: 0 <= i < |messages| ==> |packets[i].data| < U32 && Carried(packets[i]) == messages[i]
  }

  lemma SplitFirst(m: Message, rest: seq<byte>)
    ensures var r, others := Split(m.Bytes() + rest), Split(rest);
            && r.Some? == others.Some?
            && (r.Some? ==> r.value == [Parse(m.Bytes() + rest).value] + others.value)
  {
    MessageRoundTrip(m, rest);
    assert (m.Bytes() + rest)[|m.Bytes()|..] == rest;
  }

  lemma {:induction false} SplitConcat(messages: seq<Message>)
    ensures Split(Concat(messages)).Some? && Recovered(Split(Concat(messages)).value, messages)
  {
    if messages != [] {
      SplitConcat(messages[1..]);
      MessageRoundTrip(messages[0], Concat(messages[1..]));
      SplitFirst(messages[0], Concat(messages[1..]));
    }
  }

  /** Any concatenation of frames comes from one list only. */
  lemma ConcatInjective(a: seq<Message>, b: seq<Message>)
    requires Concat(a) == Concat(b)
    ensures a == b
  {
    SplitConcat(a);
    SplitConcat(b);
    assert |a| == |b| && forall i :: 0 <= i < |a| ==> a[i] == b[i];
  }

  /** A parsed packet as the server holds it: its data is a view, not a copy. */
  datatype BasePacket = BasePacket(
    magicStart: u16, id: u16, metadataSize: u16, dataSize: u32,
    head: PacketHead, data: Span, magicEnd: u16)
  {
    ghost function Value(): Packet
      requires data.Valid()
      reads data.base
    {
      Packet(magicStart, id, metadataSize, dataSize, head, data.Content(), magicEnd)
    }

    ghost predicate Holds(p: Packet)
      reads data.base
    {
      data.Valid() && Value() == p
    }
  }

  /** The next big-endian word; None stands for the exception of a read past the end. */
  method ReadWord(view: BufferView, width: nat) returns (r: Option<nat>)
    requires view.Valid()
    modifies view`cursor, view`bytesRead
    ensures view.Valid() && r.Some? == (old(view.cursor) + width <= view.view.size)
    ensures view.cursor == old(view.cursor) + if r.Some? then width else 0
    ensures r.Some? ==> r.value == WordAt(view.view.Content(), old(view.cursor), width) < Range(width)
  {
    r := view.Read(width, true);
    if r.Some? {
      BigBound(view.view.Content()[old(view.cursor)..view.cursor]);
    }
  }

  method ReadHeader(view: BufferView) returns (r: Option<FrameHeader>)
    requires view.Valid() && view.cursor == 0
    modifies view`cursor, view`bytesRead
    ensures view.Valid() && r.Some? == (view.view.size >= 10)
    ensures if r.Some? then view.cursor == 10 else view.cursor <= view.view.size
    ensures r.Some? ==> r.value == HeaderAt(view.view.Content())
  {
    Ranges();
    var magicStart := ReadWord(view, 2);
    if magicStart.None? {
      return None;
    }
    var id := ReadWord(view, 2);
    if id.None? {
      return None;
    }
    var metadataSize := ReadWord(view, 2);
    if metadataSize.None? {
      return None;
    }
    var dataSize := ReadWord(view, 4);
    if dataSize.None? {
      return None;
    }
    return Some(FrameHeader(magicStart.value, id.value, metadataSize.value, dataSize.value));
  }

  method ReadMetadata(view: BufferView, size: nat) returns (r: Option<PacketHead>)
    requires view.Valid()
    modifies view`cursor, view`bytesRead
    ensures view.Valid() && r.Some? == (old(view.cursor) + size <= view.view.size)
    ensures view.cursor == old(view.cursor) + if r.Some? then size else 0
    ensures r.Some? ==> r.value == ParseHead(view.view.Content()[old(view.cursor)..view.cursor])
  {
    var metadata := view.ReadView(size);
    if metadata.None? {
      return None;
    }
    view.view.Part(old(view.cursor), view.cursor);
    var bytes := BytesOf(metadata.value);
    return Some(ParseHead(bytes));
  }

  method BytesOf(span: Span) returns (s: seq<byte>)
    requires span.Valid()
    ensures s == span.Content()
  {
    s := span.base[span.start..span.start + span.size];
  }

  /** Metadata, data and closing magic, after the header. */
  method ReadBody(view: BufferView, h: FrameHeader) returns (r: Option<BasePacket>)
    requires view.Valid() && view.cursor == 10 && view.view.size >= 10
    modifies view`cursor, view`bytesRead
    ensures view.Valid() && r.Some? == (view.view.size >= h.Length())
    ensures if r.Some? then view.cursor == h.Length() else view.cursor <= view.view.size
    ensures r.Some? ==> r.value.data.base == view.view.base && r.value.Holds(PacketAt(view.view.Content(), h))
  {
    ghost var m: nat, d: nat := h.metadataSize, h.dataSize;
    r := None;
    var head := ReadMetadata(view, h.metadataSize);
    if head.Some? {
      var body := view.ReadView(h.dataSize);
      if body.Some? {
        Ranges();
        var magicEnd := ReadWord(view, 2);
        if magicEnd.Some? {
          r := Some(BasePacket(h.magicStart, h.id, h.metadataSize, h.dataSize, head.value, body.value, magicEnd.value));
          view.view.Part(10 + m, 10 + m + d);
        }
      }
    }
  }

  /** The parsing constructor; None stands for its exception, `used` is the final cursor. */
  method ParsePacket(data: Span) returns (r: Option<BasePacket>, used: nat)
    requires data.Valid()
    ensures r.Some? == Parse(data.Content()).Some?
    ensures r.Some? ==> r.value.data.base == data.base && r.value.Holds(Parse(data.Content()).value)
    ensures if r.Some? then used == FrameLength(data.Content()) else used <= data.size
  {
    var view := new BufferView(data);
    var header := ReadHeader(view);
    if header.Some? {
      r := ReadBody(view, header.value);
    } else {
      r := None;
    }
    used := view.cursor;
  }

  type int16 = x: int | -0x8000 <= x < 0x8000
  type int32 = x: int | -0x8000_0000 <= x < 0x8000_0000

  /** The head a building constructor stamps on its frame. */
  function Stamped(clientSequence: int32, now: u64): PacketHead {
    PacketHead(clientSequence % 0x1_0000_0000, now)
  }

  method WriteHeader(packet: BufferView, id: u16, metadataSize: nat, dataSize: nat)
    requires packet.Valid() && packet.vector.bytes == []
    modifies packet`cursor, packet.vector
    ensures packet.Valid() && packet.vector.bytes == Header(id, metadataSize, dataSize)
    ensures packet.cursor == old(packet.cursor) + 10
  {
    packet.Write(MAGIC_START, 2, true);
    packet.Write(id, 2, true);
    packet.Write(metadataSize % 0x1_0000, 2, true);
    packet.Write(dataSize % 0x1_0000_0000, 4, true);
  }

  /** The building constructors: the frame ends up in the buffer's own vector. */
  method BuildPacket(data: Span, packetId: int16, clientSequence: int32, now: u64) returns (packet: BufferView)
    requires data.Valid()
    ensures fresh(packet) && fresh(packet.vector) && packet.Valid()
    ensures packet.vector.bytes == Frame(packetId % 0x1_0000, Stamped(clientSequence, now), data.Content())
    ensures packet.cursor == |packet.vector.bytes|
  {
    packet := new BufferView(data);
    var metadata := HeadBytes(Stamped(clientSequence, now));
    WriteHeader(packet, packetId % 0x1_0000, |metadata|, data.size);
    packet.WriteArray(metadata);
    packet.WriteArray(data.base[data.start..data.start + data.size]);
    packet.Write(MAGIC_END, 2, true);
  }
}
