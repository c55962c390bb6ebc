/** The five big-endian words that open a session, and the reply to them. */
module Handshakes {
  import opened Bytes
  import opened Buffers

  const LEN: nat := 20
  const CONNECT_1: u32 := 0xFF
  const CONNECT_2: u32 := 0xFFFFFFFF
  const SEND_BACK_1: u32 := 0x145
  const SEND_BACK_2: u32 := 0x14514545
  const DEFAULT_DATA: u32 := 1234567890

  datatype Words = Words(magic1: u32, conv: u32, token: u32, data: u32, magic2: u32)

  function WordsBytes(w: Words): (s: seq<byte>)
    ensures |s| == LEN
  {
    BigEndian(w.magic1, 4) + BigEndian(w.conv, 4) + BigEndian(w.token, 4) + BigEndian(w.data, 4)
    + BigEndian(w.magic2, 4)
  }

  function WordsAt(s: seq<byte>): Words
    requires |s| >= LEN
  {
    Words(U32At(s, 0), U32At(s, 4), U32At(s, 8), U32At(s, 12), U32At(s, 16))
  }

  /** A datagram that opens a session; what follows the twenty bytes is not looked at. */
  predicate Connects(s: seq<byte>) {
    |s| >= LEN && WordsAt(s).magic1 == CONNECT_1 && WordsAt(s).magic2 == CONNECT_2
  }

  lemma U32Parsed(v: u32, s: seq<byte>, at: nat)
    requires at + 4 <= |s| && s[at..at + 4] == BigEndian(v, 4)
    ensures U32At(s, at) == v
  {
    Ranges();
    BigRoundTrip(v, 4);
  }

  lemma WordsRoundTrip(w: Words, rest: seq<byte>)
    ensures WordsAt(WordsBytes(w) + rest) == w
  {
    var s := WordsBytes(w) + rest;
    U32Parsed(w.magic1, s, 0);
    U32Parsed(w.conv, s, 4);
    U32Parsed(w.token, s, 8);
    U32Parsed(w.data, s, 12);
    U32Parsed(w.magic2, s, 16);
  }

  /** Exactly the datagrams that spell the two connect magics, byte for byte, open a session. */
  lemma ConnectsExactly(s: seq<byte>)
    ensures Connects(s) <==>
            && |s| >= 20
            && s[0..4] == [0x00, 0x00, 0x00, 0xFF]
            && s[16..20] == [0xFF, 0xFF, 0xFF, 0xFF]
  {
    if |s| >= 20 {
      ValueOfFour(s[0..4]);
      ValueOfFour(s[16..20]);
    }
  }

  lemma ValueOfFour(b: seq<byte>)
    requires |b| == 4
    ensures BigValue(b) == b[3] as nat + 256 * (b[2] as nat + 256 * (b[1] as nat + 256 * b[0] as nat))
  {
    var r0 := Reverse(b);
    var r1 := r0[1..];
    var r2 := r1[1..];
    var r3 := r2[1..];
    assert r0[0] == b[3] && r1[0] == b[2] && r2[0] == b[1] && r3 == [b[0]];
    assert LittleValue(r3) == b[0] as nat;
    assert LittleValue(r2) == b[1] as nat + 256 * LittleValue(r3);
    assert LittleValue(r1) == b[2] as nat + 256 * LittleValue(r2);
  }

  /** The reply to an accepted handshake. */
  function Reply(conv: u32, token: u32): seq<byte> {
    WordsBytes(Words(SEND_BACK_1, conv, token, DEFAULT_DATA, SEND_BACK_2))
  }

  lemma ReplyWords(conv: u32, token: u32)
    ensures WordsAt(Reply(conv, token)) == Words(0x145, conv, token, 1234567890, 0x14514545)
    ensures !Connects(Reply(conv, token))
  {
    WordsRoundTrip(Words(SEND_BACK_1, conv, token, DEFAULT_DATA, SEND_BACK_2), []);
    assert Reply(conv, token) + [] == Reply(conv, token);
  }

  lemma AppendWords(s: seq<byte>, w: Words)
    ensures s + BigEndian(w.magic1, 4) + BigEndian(w.conv, 4) + BigEndian(w.token, 4) + BigEndian(w.data, 4)
            + BigEndian(w.magic2, 4) == s + WordsBytes(w)
  {
  }

  method NextWord(view: BufferView) returns (v: u32)
    requires view.Valid() && view.cursor + 4 <= view.view.size
    modifies view`cursor, view`bytesRead
    ensures view.Valid() && view.cursor == old(view.cursor) + 4
    ensures v == U32At(view.view.Content(), old(view.cursor))
  {
    var r := view.Read(4, true);
    Ranges();
    BigBound(view.view.Content()[old(view.cursor)..view.cursor]);
    v := r.value;
  }

  method NextWords(view: BufferView) returns (w: Words)
    requires view.Valid() && view.cursor == 0 && LEN <= view.view.size
    modifies view`cursor, view`bytesRead
    ensures w == WordsAt(view.view.Content())
  {
    var magic1 := NextWord(view);
    var conv := NextWord(view);
    var token := NextWord(view);
    var data := NextWord(view);
    var magic2 := NextWord(view);
    w := Words(magic1, conv, token, data, magic2);
  }

  class Handshake {
    var magic1: u32
    var conv: u32
    var token: u32
    var data: u32
    var magic2: u32
    const buffer: DynamicBuffer

    ghost predicate Valid()
      reads this, buffer, buffer.vector
    {
      buffer.Valid()
    }

    function Fields(): Words
      reads this
    {
      Words(magic1, conv, token, data, magic2)
    }

    constructor ()
      ensures Valid() && Fields() == Words(0, 1, 1, DEFAULT_DATA, 0)
      ensures fresh(buffer) && fresh(buffer.vector) && buffer.vector.bytes == []
    {
      magic1, conv, token, data, magic2 := 0, 1, 1, DEFAULT_DATA, 0;
      buffer := new DynamicBuffer(0);
    }

    /** Decode with verifyMagic set. A datagram that is too short leaves the fields alone. */
    method Decode(packet: Span) returns (ok: bool)
      requires packet.Valid()
      modifies this
      ensures ok == Connects(packet.Content())
      ensures Fields() == if packet.size < LEN then old(Fields()) else WordsAt(packet.Content())
    {
      if packet.size < LEN {
        return false;
      }
      var view := new BufferView(packet);
      var w := NextWords(view);
      magic1, conv, token, data, magic2 := w.magic1, w.conv, w.token, w.data, w.magic2;
      return magic1 == CONNECT_1 && magic2 == CONNECT_2;
    }

    /** Appends the words and returns the buffer's first twenty bytes. */
    method Encode() returns (s: seq<byte>)
      requires Valid()
      modifies buffer`curOffset, buffer.vector
      ensures Valid() && buffer.vector.bytes == old(buffer.vector.bytes) + WordsBytes(Fields())
      ensures s == buffer.vector.bytes[..LEN]
    {
      buffer.Write(magic1, 4, true);
      buffer.Write(conv, 4, true);
      buffer.Write(token, 4, true);
      buffer.Write(data, 4, true);
      buffer.Write(magic2, 4, true);
      AppendWords(old(buffer.vector.bytes), Fields());
      return buffer.vector.bytes[..LEN];
    }
  }
}
