/** What the outbound log of a session says to a peer who knows the keys. */
module Transcripts {
  import opened Bytes
  import opened Wrappers
  import opened Crypto
  import opened Protobuf
  import opened Frames
  import opened Seqs
  import opened Sessions
  import opened SessionLaws
  import WireFormat

  /** The message a peer finds on the wire, decrypting with the key of the given kind. */
  function OpenedReply(env: Env, wire: seq<byte>, dispatch: bool): Option<Packet> {
    Parse(XorBytes(wire, if dispatch then env.dispatchKey else env.SessionKey()))
  }

  /** Built, encrypted, decrypted and parsed: every field comes back, and the cursor ends at the end. */
  lemma EncryptedRoundTrip(id: u16, head: PacketHead, data: seq<byte>, key: Key)
    requires |data| < U32
    ensures var s := XorBytes(XorBytes(Frame(id, head, data), key), key);
            && Parse(s) == Some(Packet(MAGIC_START, id, |HeadBytes(head)|, |data|, head, data, MAGIC_END))
            && FrameLength(s) == |s|
  {
    XorInvolution(Frame(id, head, data), key);
    FrameRoundTrip(id, head, data, []);
    assert Frame(id, head, data) + [] == Frame(id, head, data);
  }

  lemma WireOpens(env: Env, o: Outgoing)
    ensures var p := OpenedReply(env, Wire(env, o), o.dispatch);
            p.Some? && |p.value.data| < U32 && Carried(p.value) == o.message
  {
    XorInvolution(o.message.Bytes(), if o.dispatch then env.dispatchKey else env.SessionKey());
    MessageRoundTrip(o.message, []);
    assert o.message.Bytes() + [] == o.message.Bytes();
  }

  /** The reply frames each kind of request is answered with, in order. */
  function ReplyIds(id: u16): seq<u16> {
    if id == 109 then [131]
    else if id == 32 then [17]
    else if id == 141 then [119, 631, 609, 1695, 209, 131]
    else []
  }

  function RequestReplyIds(request: Packet): seq<u16> {
    ReplyIds(request.id)
  }

  function AllReplyIds(requests: seq<Packet>): seq<u16> {
    Collect(requests, RequestReplyIds)
  }

  /** What a ping asks to be echoed: its sequence id and its client time. */
  function PingOf(request: Packet): seq<(u32, u32)> {
    if request.id == PING_REQ then [(request.head.clientSequenceId, PingReqClientTime(request.data))] else []
  }

  function Pings(requests: seq<Packet>): seq<(u32, u32)> {
    Collect(requests, PingOf)
  }

  /** The same pair, as a ping reply carries it. */
  function PongOf(m: Message): seq<(u32, u32)> {
    if m.id == PING_RSP then [(m.head.clientSequenceId, PingRspClientTime(m.body))] else []
  }

  function Pongs(messages: seq<Message>): seq<(u32, u32)> {
    Collect(messages, PongOf)
  }

  function Messages(out: seq<Outgoing>): (r: seq<Message>)
    ensures |r| == |out|
  {
    seq(|out|, i requires 0 <= i < |out| => out[i].message)
  }

  function IdsOf(messages: seq<Message>): (r: seq<u16>)
    ensures |r| == |messages|
  {
    seq(|messages|, i requires 0 <= i < |messages| => messages[i].id)
  }

  lemma ReplyMessages(h: Handled)
    ensures IdsOf(Messages(Replies(h))) == ReplyIds(h.request.id)
    ensures Pongs(Messages(Replies(h)))
            == PingOf(h.request)
  {
    var messages := Messages(Replies(h));
    if h.request.id == PING_REQ {
      PingRspRoundTrip(PingReqClientTime(h.request.data));
      assert messages == [PingReply(h)];
      CollectOne(PingReply(h), PongOf);
    } else {
      NoPongs(messages);
    }
  }

  lemma {:induction false} NoPongs(messages: seq<Message>)
    requires forall i :: 0 <= i < |messages| ==> messages[i].id != PING_RSP
    ensures Pongs(messages) == []
  {
    if messages != [] {
      NoPongs(messages[1..]);
    }
  }

  lemma MessagesAppend(a: seq<Outgoing>, b: seq<Outgoing>)
    ensures Messages(a + b) == Messages(a) + Messages(b)
    ensures IdsOf(Messages(a + b)) == IdsOf(Messages(a)) + IdsOf(Messages(b))
    ensures Pongs(Messages(a + b)) == Pongs(Messages(a)) + Pongs(Messages(b))
  {
    assert Messages(a + b) == Messages(a) + Messages(b);
    CollectAppend(Messages(a), Messages(b), PongOf);
  }

  lemma {:induction false} TranscriptMessages(handled: seq<Handled>)
    ensures IdsOf(Messages(Transcript(handled))) == AllReplyIds(Requests(handled))
    ensures Pongs(Messages(Transcript(handled))) == Pings(Requests(handled))
  {
    if handled == [] {
      assert IdsOf(Messages([])) == [];
    } else {
      var h, rest := handled[0], handled[1..];
      TranscriptMessages(rest);
      ReplyMessages(h);
      MessagesAppend(Replies(h), Transcript(rest));
      assert Requests(handled)[1..] == Requests(rest);
    }
  }

  // ----- what each request is answered with -----

  lemma TokenAnswered(h: Handled)
    requires h.request.id == 109
    ensures Replies(h) == [Outgoing(Message(131, PacketHead(0, h.stamps[0].time), h.stamps[0].body), true)]
  {
  }

  /** A ping whose last client time is field i is answered with that time, in field 8, and its own sequence id. */
  lemma PingAnswered(h: Handled, fields: seq<WireFormat.PingField>, i: nat)
    requires h.request.id == 32 && h.request.data == WireFormat.PingBody(fields)
    requires WireFormat.ValidPing(fields) && WireFormat.IsTime(fields, i)
    ensures var t := fields[i].v;
            var body: seq<byte> := if t == 0 then [] else [0x40] + Varint(t);
            var head := PacketHead(h.request.head.clientSequenceId, h.stamps[0].time);
            |body| < U32 && Replies(h) == [Outgoing(Message(17, head, body), false)]
  {
    WireFormat.PingRead(fields, i);
    WireFormat.PingRspOnWire(fields[i].v);
    PingRspRoundTrip(fields[i].v);
  }

  /** Five notices under the session key and, under the dispatch key, what should have been the login reply. */
  lemma LoginAnswered(h: Handled)
    requires h.request.id == 141
    ensures |Replies(h)| == 6
    ensures forall i :: 0 <= i < 6 ==>
              var id := [119, 631, 609, 1695, 209, 131][i];
              Replies(h)[i] == Outgoing(Message(id, PacketHead(0, h.stamps[i].time), h.stamps[i].body), i == 5)
  {
  }

  lemma OthersUnanswered(h: Handled)
    requires h.request.id !in {109, 32, 141}
    ensures Replies(h) == []
  {
  }

  /** The key a reply goes out under is told by its id. */
  function ReplyKey(env: Env, m: Message): Key {
    if m.id == 131 then env.dispatchKey else env.SessionKey()
  }

  lemma ReplyKeys(h: Handled, i: nat)
    requires i < |Replies(h)|
    ensures Replies(h)[i].dispatch <==> Replies(h)[i].message.id == 131
  {
  }

  /** In every transcript the replies with id 131 go under the dispatch key, and no others. */
  lemma {:induction false} TranscriptKeys(handled: seq<Handled>, i: nat)
    requires i < |Transcript(handled)|
    ensures Transcript(handled)[i].dispatch <==> Transcript(handled)[i].message.id == 131
    decreases |handled|
  {
    var first := Replies(handled[0]);
    assert Transcript(handled) == first + Transcript(handled[1..]);
    if i < |first| {
      ReplyKeys(handled[0], i);
    } else {
      TranscriptKeys(handled[1..], i - |first|);
    }
  }

  /** A frame that opens, with the key of its id, to its message. */
  predicate OpensTo(env: Env, wire: seq<byte>, m: Message) {
    var p := Parse(XorBytes(wire, ReplyKey(env, m)));
    wire == XorBytes(m.Bytes(), ReplyKey(env, m)) && p.Some? && |p.value.data| < U32 && Carried(p.value) == m
  }

  lemma ReplyOpens(env: Env, o: Outgoing)
    requires o.dispatch <==> o.message.id == 131
    ensures OpensTo(env, Wire(env, o), o.message)
  {
    WireOpens(env, o);
  }

  /**
    In every state a session can reach, its outbound log is one list of messages,
    each under the key its id tells: the replies of each settled request in turn
    (token one, ping one, login six, anything else none), where the ping replies
    echo, in order, the sequence id and client time of each settled ping.
  */
  lemma OutboundLog(env: Env, s: Session)
    requires SessionInv(env, s)
    ensures var settled := Settled(s.fault, s.pc, s.handled);
            var out := Messages(Transcript(settled));
            && |s.sent| == |out|
            && (forall i :: 0 <= i < |out| ==> OpensTo(env, s.sent[i], out[i]))
            && IdsOf(out) == AllReplyIds(Requests(settled))
            && Pongs(out) == Pings(Requests(settled))
  {
    var settled := Settled(s.fault, s.pc, s.handled);
    var out := Transcript(settled);
    forall i | 0 <= i < |out|
      ensures OpensTo(env, s.sent[i], Messages(out)[i])
    {
      assert s.sent[i] == Wire(env, out[i]);
      TranscriptKeys(settled, i);
      ReplyOpens(env, out[i]);
    }
    TranscriptMessages(settled);
  }
}
