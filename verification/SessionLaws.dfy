/** What every step of a session keeps. */
module SessionLaws {
  import opened Bytes
  import opened Crypto
  import opened Frames
  import opened Seqs
  import opened Sessions
  import Handshakes

  function Requests(handled: seq<Handled>): (r: seq<Packet>)
    ensures |r| == |handled|
    ensures forall i :: 0 <= i < |r| ==> r[i] == handled[i].request
  {
    seq(|handled|, i requires 0 <= i < |handled| => handled[i].request)
  }

  predicate HasToken(packets: seq<Packet>) {
    exists i :: 0 <= i < |packets| && packets[i].id == GET_PLAYER_TOKEN_REQ
  }

  /** Requests whose replies go out under the session key. */
  predicate NeedsKey(id: u16) {
    id == PING_REQ || id == PLAYER_LOGIN_REQ
  }

  /** Nothing that needs the session key comes before the first token request. */
  predicate TokenFirst(packets: seq<Packet>) {
    forall i :: 0 <= i < |packets| && NeedsKey(packets[i].id) ==> HasToken(packets[..i])
  }

  function Wire(env: Env, o: Outgoing): seq<byte> {
    XorBytes(o.message.Bytes(), if o.dispatch then env.dispatchKey else env.SessionKey())
  }

  function Wires(env: Env, out: seq<Outgoing>): (r: seq<seq<byte>>)
    ensures |r| == |out|
  {
    seq(|out|, i requires 0 <= i < |out| => Wire(env, out[i]))
  }

  /** All replies of the requests handled so far, request by request. */
  function Transcript(handled: seq<Handled>): seq<Outgoing> {
    Collect(handled, Replies)
  }

  /** The requests that have got their replies: not the one in progress, nor one that ended the program. */
  function Settled(fault: Fault, pc: HandlerPc, handled: seq<Handled>): seq<Handled> {
    if handled != [] && (!pc.Idle? || fault == EmptyKeyOnSend || fault == UidNotANumber) then handled[..|handled| - 1]
    else handled
  }

  /** No token request among them stops the handler. */
  predicate UidsConvert(env: Env, packets: seq<Packet>) {
    forall i :: 0 <= i < |packets| ==> !Refused(env, packets[i])
  }

  /** The requests whose handler was not stopped by its account uid. */
  function Begun(fault: Fault, handled: seq<Handled>): seq<Handled> {
    if fault == UidNotANumber && handled != [] then handled[..|handled| - 1] else handled
  }

  predicate KeyInv(env: Env, useMT: bool, mtKey: seq<byte>, pc: HandlerPc, handled: seq<Handled>) {
    && (mtKey == [] || mtKey == env.SessionKey())
    && (mtKey != [] ==> useMT)
    && (pc.FlagSet? ==> useMT)
    && (pc.KeyReady? ==> mtKey != [])
    && (!pc.FlagSet? ==> useMT == (mtKey != []))
    && useMT == HasToken(Requests(handled))
    && (!pc.Idle? ==> pc.taken.request.id == GET_PLAYER_TOKEN_REQ)
  }

  predicate QueueInv(enqueued: seq<Packet>, handled: seq<Handled>, queue: seq<Packet>) {
    enqueued == Requests(handled) + Reverse(queue)
  }

  predicate TranscriptInv(env: Env, fault: Fault, pc: HandlerPc, mtKey: seq<byte>, handled: seq<Handled>,
                          sent: seq<seq<byte>>)
  {
    && sent == Wires(env, Transcript(Settled(fault, pc, handled)))
    && (!pc.Idle? ==> handled != [] && handled[|handled| - 1] == pc.taken)
    && (fault == EmptyKeyOnSend || fault == UidNotANumber ==> pc.Idle? && handled != [])
    && (sent != [] ==> mtKey != [])
    && (fault == EmptyKeyOnSend <==> !TokenFirst(Requests(handled)))
    && (fault == UidNotANumber <==> !UidsConvert(env, Requests(handled)))
    && (fault == EmptyKeyOnReceive ==> pc.FlagSet? && mtKey == [])
  }

  /** One handshake reply, carrying the numbers the session was given when it was accepted. */
  predicate IdentityInv(id: Identity) {
    && id.created
    && id.key == RouteKey(id.endpoint)
    && id.conv == ConvAt(id.answeredAt) && id.token == TokenAt(id.answeredAt)
    && id.replies == [Handshakes.Reply(id.conv, id.token)]
  }

  predicate SessionInv(env: Env, s: Session) {
    && (s.state == Connected || s.state == Disconnected)
    && IdentityInv(s.id)
    && KeyInv(env, s.useMT, s.mtKey, s.pc, Begun(s.fault, s.handled))
    && QueueInv(s.enqueued, s.handled, s.queue)
    && TranscriptInv(env, s.fault, s.pc, s.mtKey, s.handled, s.sent)
  }

  lemma OpenInv(env: Env, uid: nat, ep: Endpoint, now: nat)
    ensures SessionInv(env, Open(uid, ep, now))
  {
    var s := Open(uid, ep, now);
    assert Requests(s.handled) == [] && Reverse(s.queue) == [];
    assert Wires(env, Transcript(s.handled)) == [];
  }

  lemma ReceiveInv(env: Env, s: Session, from: Endpoint, now: nat, delivered: seq<seq<byte>>)
    requires SessionInv(env, s) && s.fault == NoFault
    ensures SessionInv(env, Receive(s, from, now, delivered))
  {
    ReceiveOnly(s, from, now, delivered);
  }

  /** What receiving changes, and what it can find out. */
  lemma ReceiveOnly(s: Session, from: Endpoint, now: nat, delivered: seq<seq<byte>>)
    requires s.state == Connected || s.state == Disconnected
    ensures var t := Receive(s, from, now, delivered);
            && t == s.(lastPacketTime := now, inbox := t.inbox, inHand := t.inHand, sources := t.sources,
                       fault := t.fault)
            && (t.fault == s.fault || t.fault == ReceiveOverrun)
  {
  }

  lemma EnqueueInv(enqueued: seq<Packet>, handled: seq<Handled>, queue: seq<Packet>, p: Packet)
    requires QueueInv(enqueued, handled, queue)
    ensures QueueInv(enqueued + [p], handled, [p] + queue)
  {
    ReversePush(p, queue);
  }

  lemma DequeueInv(enqueued: seq<Packet>, handled: seq<Handled>, queue: seq<Packet>, stamps: Stamps)
    requires QueueInv(enqueued, handled, queue) && queue != []
    ensures QueueInv(enqueued, handled + [Handled(queue[|queue| - 1], stamps)], queue[..|queue| - 1])
  {
    var last := |queue| - 1;
    assert Reverse(queue) == [queue[last]] + Reverse(queue[..last]);
    RequestsPush(handled, Handled(queue[last], stamps));
  }

  lemma DecryptInv(env: Env, s: Session)
    requires SessionInv(env, s) && s.inHand.Some? && s.fault == NoFault
    ensures SessionInv(env, Decrypt(env, s))
  {
    var key := if s.useMT then s.mtKey else env.dispatchKey;
    if key != [] && Parse(XorBytes(s.inHand.value, key)).Some? {
      EnqueueInv(s.enqueued, s.handled, s.queue, Parse(XorBytes(s.inHand.value, key)).value);
    }
  }

  lemma TickInv(env: Env, s: Session, now: nat)
    requires SessionInv(env, s)
    ensures SessionInv(env, Tick(s, now))
  {
  }

  lemma WiresAppend(env: Env, a: seq<Outgoing>, b: seq<Outgoing>)
    ensures Wires(env, a + b) == Wires(env, a) + Wires(env, b)
  {
  }

  lemma WiresFirst(env: Env, sent: seq<seq<byte>>, out: seq<Outgoing>)
    requires out != []
    ensures (sent + [Wire(env, out[0])]) + Wires(env, out[1..]) == sent + Wires(env, out)
  {
    assert Wires(env, out) == [Wire(env, out[0])] + Wires(env, out[1..]);
    Regrouped(sent, [Wire(env, out[0])], Wires(env, out[1..]));
  }

  lemma {:induction false} SendAllReady(env: Env, s: Session, out: seq<Outgoing>)
    requires s.fault == NoFault && s.mtKey == env.SessionKey()
    ensures SendAll(env, s, out) == s.(sent := s.sent + Wires(env, out))
    decreases |out|
  {
    if out == [] {
      assert s.sent + Wires(env, out) == s.sent;
    } else {
      var s' := Send(env, s, out[0]);
      SendAllReady(env, s', out[1..]);
      WiresFirst(env, s.sent, out);
    }
  }

  /** Without a session key the first reply of a ping or login already fails. */
  lemma SendAllWithoutKey(env: Env, s: Session, out: seq<Outgoing>)
    requires s.fault == NoFault && s.mtKey == []
    requires out != [] && !out[0].dispatch
    ensures SendAll(env, s, out) == s.(fault := EmptyKeyOnSend)
  {
  }

  lemma RequestsPush(handled: seq<Handled>, h: Handled)
    ensures Requests(handled + [h]) == Requests(handled) + [h.request]
  {
  }

  lemma HasTokenPush(packets: seq<Packet>, p: Packet)
    ensures HasToken(packets + [p]) <==> HasToken(packets) || p.id == GET_PLAYER_TOKEN_REQ
  {
    var all := packets + [p];
    assert all[|packets|] == p;
    if HasToken(packets) {
      var i :| 0 <= i < |packets| && packets[i].id == GET_PLAYER_TOKEN_REQ;
      assert all[i] == packets[i];
    }
  }

  lemma TokenFirstPush(packets: seq<Packet>, p: Packet)
    ensures TokenFirst(packets + [p]) <==> TokenFirst(packets) && (NeedsKey(p.id) ==> HasToken(packets))
  {
    var all := packets + [p];
    assert all[..|packets|] == packets && all[|packets|] == p;
    assert forall i :: 0 <= i < |packets| ==> all[i] == packets[i] && all[..i] == packets[..i];
  }

  lemma UidsConvertPush(env: Env, packets: seq<Packet>, p: Packet)
    ensures UidsConvert(env, packets + [p]) <==> UidsConvert(env, packets) && !Refused(env, p)
  {
    var all := packets + [p];
    assert all[|packets|] == p;
    assert forall i :: 0 <= i < |packets| ==> all[i] == packets[i];
  }

  lemma TranscriptPush(env: Env, handled: seq<Handled>, h: Handled)
    ensures Transcript(handled + [h]) == Transcript(handled) + Replies(h)
    ensures Wires(env, Transcript(handled + [h])) == Wires(env, Transcript(handled)) + Wires(env, Replies(h))
  {
    CollectPush(handled, h, Replies);
    WiresAppend(env, Transcript(handled), Replies(h));
  }

  lemma TakenKeyInv(env: Env, useMT: bool, mtKey: seq<byte>, handled: seq<Handled>, taken: Handled)
    requires KeyInv(env, useMT, mtKey, Idle, handled)
    ensures taken.request.id != GET_PLAYER_TOKEN_REQ ==> KeyInv(env, useMT, mtKey, Idle, handled + [taken])
    ensures taken.request.id == GET_PLAYER_TOKEN_REQ ==> KeyInv(env, true, mtKey, FlagSet(taken), handled + [taken])
  {
    RequestsPush(handled, taken);
    HasTokenPush(Requests(handled), taken.request);
  }

  /** The next request is sent its replies, is owed them, or needs a key that is not there yet. */
  lemma TakenTranscriptInv(env: Env, mtKey: seq<byte>, handled: seq<Handled>, sent: seq<seq<byte>>, taken: Handled)
    requires TranscriptInv(env, NoFault, Idle, mtKey, handled, sent)
    requires HasToken(Requests(handled)) == (mtKey != [])
    ensures var all, out := handled + [taken], Replies(taken);
            if Refused(env, taken.request) then
              TranscriptInv(env, UidNotANumber, Idle, mtKey, all, sent)
            else if NeedsKey(taken.request.id) && mtKey == [] then
              TranscriptInv(env, EmptyKeyOnSend, Idle, mtKey, all, sent)
            else
              (mtKey != [] || out == [] ==> TranscriptInv(env, NoFault, Idle, mtKey, all, sent + Wires(env, out)))
              && TranscriptInv(env, NoFault, FlagSet(taken), mtKey, all, sent)
  {
    RequestsPush(handled, taken);
    TokenFirstPush(Requests(handled), taken.request);
    UidsConvertPush(env, Requests(handled), taken.request);
    TranscriptPush(env, handled, taken);
    assert (handled + [taken])[..|handled|] == handled;
  }

  /** What dispatching leaves of the session, by the kind of request. */
  lemma BeginCases(env: Env, t: Session, taken: Handled)
    requires t.fault == NoFault && (t.mtKey == [] || t.mtKey == env.SessionKey())
    ensures Begin(env, t, taken) ==
            if Refused(env, taken.request) then t.(fault := UidNotANumber)
            else if taken.request.id == GET_PLAYER_TOKEN_REQ then t.(useMT := true, pc := FlagSet(taken))
            else if NeedsKey(taken.request.id) && t.mtKey == [] then t.(fault := EmptyKeyOnSend)
            else t.(sent := t.sent + Wires(env, Replies(taken)))
  {
    var id, out := taken.request.id, Replies(taken);
    if id != GET_PLAYER_TOKEN_REQ {
      if !NeedsKey(id) {
        NothingOwed(env, t.sent);
      } else if t.mtKey == [] {
        SendAllWithoutKey(env, t, out);
      } else {
        SendAllReady(env, t, out);
      }
    }
  }

  lemma TakeInv(env: Env, s: Session, stamps: Stamps)
    requires SessionInv(env, s) && s.fault == NoFault && s.pc.Idle? && s.queue != []
    ensures SessionInv(env, HandlerStep(env, s, stamps))
  {
    var last := |s.queue| - 1;
    DequeueInv(s.enqueued, s.handled, s.queue, stamps);
    TakenInv(env, s, s.queue[..last], Handled(s.queue[last], stamps));
  }

  lemma TakenInv(env: Env, s: Session, rest: seq<Packet>, taken: Handled)
    requires SessionInv(env, s) && s.fault == NoFault && s.pc.Idle?
    requires QueueInv(s.enqueued, s.handled + [taken], rest)
    ensures SessionInv(env, Begin(env, s.(queue := rest, handled := s.handled + [taken]), taken))
  {
    var t := s.(queue := rest, handled := s.handled + [taken]);
    TakenKeyInv(env, s.useMT, s.mtKey, s.handled, taken);
    TakenTranscriptInv(env, s.mtKey, s.handled, s.sent, taken);
    BeginCases(env, t, taken);
    assert (s.handled + [taken])[..|s.handled|] == s.handled;
  }

  lemma NothingOwed(env: Env, sent: seq<seq<byte>>)
    ensures sent + Wires(env, []) == sent
  {
  }

  lemma ReplyInv(env: Env, s: Session, stamps: Stamps)
    requires SessionInv(env, s) && s.fault == NoFault && s.pc.KeyReady?
    ensures SessionInv(env, HandlerStep(env, s, stamps))
  {
    var last := |s.handled| - 1;
    SendAllReady(env, s.(pc := Idle), Replies(s.pc.taken));
    TranscriptPush(env, s.handled[..last], s.handled[last]);
    assert s.handled == s.handled[..last] + [s.handled[last]];
  }

  lemma HandlerInv(env: Env, s: Session, stamps: Stamps)
    requires SessionInv(env, s) && s.fault == NoFault
    ensures SessionInv(env, HandlerStep(env, s, stamps))
  {
    match s.pc
    case Idle =>
      if s.queue != [] {
        TakeInv(env, s, stamps);
      }
    case FlagSet(_) =>
    case KeyReady(_) => ReplyInv(env, s, stamps);
  }

  /** What taking a request from between two others ends the program with. */
  function TakenDoom(env: Env, request: Packet, mtKey: seq<byte>): Fault {
    if Refused(env, request) then UidNotANumber
    else if NeedsKey(request.id) && mtKey == [] then EmptyKeyOnSend
    else NoFault
  }

  /**
    The handler ends the program exactly by taking a ping or login while there is
    no key, or a token request whose account uid is not a number.
  */
  lemma HandlerDoom(env: Env, s: Session, stamps: Stamps)
    requires s.fault == NoFault && (s.mtKey == [] || s.mtKey == env.SessionKey()) && (s.pc.KeyReady? ==> s.mtKey != [])
    ensures HandlerStep(env, s, stamps).fault ==
            if s.pc.Idle? && s.queue != [] then TakenDoom(env, s.queue[|s.queue| - 1], s.mtKey) else NoFault
  {
    match s.pc
    case Idle =>
      if s.queue != [] {
        var last := |s.queue| - 1;
        var taken := Handled(s.queue[last], stamps);
        BeginCases(env, s.(queue := s.queue[..last], handled := s.handled + [taken]), taken);
      }
    case FlagSet(_) =>
    case KeyReady(taken) => SendAllReady(env, s.(pc := Idle), Replies(taken));
  }
}
