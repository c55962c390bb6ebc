/** When a step ends the program, and runs that get there. */
module Faults {
  import opened Bytes
  import opened Wrappers
  import opened Crypto
  import opened Frames
  import opened Sessions
  import opened SessionLaws
  import opened Servers
  import opened ServerLaws
  import opened RunLaws

  /** The message Recv turns to when these messages have been delivered, or none. */
  function Oldest(s: Session, delivered: seq<seq<byte>>): seq<byte> {
    var box := s.inbox + delivered;
    if box == [] then [] else box[0]
  }

  /** What a step does to a session that runs, as far as it ends the program. */
  function Doom(env: Env, sv: Server, e: Event, uid: nat): Fault
    requires uid < |sv.sessions|
  {
    var s := sv.sessions[uid];
    match e
    case Arrive(_, _, delivered) =>
      if Reaches(sv, e, s.id.key) && |Oldest(s, delivered)| > 65534 then ReceiveOverrun else NoFault
    case Decrypted(u) =>
      if u == uid && s.inHand.Some? && s.useMT && s.mtKey == [] then EmptyKeyOnReceive else NoFault
    case Handle(u, _) =>
      if u == uid && s.pc.Idle? && s.queue != [] then TakenDoom(env, s.queue[|s.queue| - 1], s.mtKey) else NoFault
    case _ => NoFault
  }

  /**
    A running session ends the program in exactly four ways: a message longer than
    the receive buffer is received, a message is decrypted while the flag is set and
    the key is not, a ping or login is taken while there is no key, or a token
    request is taken whose account uid is not a number.
  */
  lemma FaultExactly(env: Env, sv: Server, e: Event, uid: nat)
    requires ServerInv(env, sv) && Live(sv, uid)
    ensures uid < |Step(env, sv, e).sessions|
    ensures Step(env, sv, e).sessions[uid].fault == Doom(env, sv, e, uid)
  {
    var s := sv.sessions[uid];
    StepAfter(env, sv, e, uid);
    assert Sound(env, s, sv.clock);
    match e
    case Arrive(from, _, delivered) => ReceiveDoom(s, from, sv.clock, delivered);
    case Decrypted(_) =>
    case Handle(_, stamps) => HandlerDoom(env, s, stamps);
    case Background(_) =>
    case Wait(_) =>
  }

  /** Recv stays inside its buffer exactly when the oldest message is no longer than it. */
  lemma ReceiveDoom(s: Session, from: Endpoint, now: nat, delivered: seq<seq<byte>>)
    requires Runs(s)
    ensures Receive(s, from, now, delivered).fault == if |Oldest(s, delivered)| > 65534 then ReceiveOverrun else NoFault
  {
  }

  /** The receive path divides by zero exactly in the window between the flag and the key of a token request. */
  lemma ReceiveFaultExactly(env: Env, sv: Server, uid: nat)
    requires ServerInv(env, sv) && Live(sv, uid) && sv.sessions[uid].inHand.Some?
    ensures var s, t := sv.sessions[uid], Step(env, sv, Decrypted(uid)).sessions[uid];
            && (t.fault == EmptyKeyOnReceive <==> s.useMT && s.mtKey == [])
            && (t.fault == EmptyKeyOnReceive <==> s.pc.FlagSet? && s.mtKey == [])
  {
    FaultExactly(env, sv, Decrypted(uid), uid);
    assert Sound(env, sv.sessions[uid], sv.clock);
  }

  // ----- runs that get there -----

  /** A server with one session. */
  function Solo(s: Session): Server {
    Server([s], map[s.id.key := 0], 0)
  }

  lemma SoloOpen(env: Env, ep: Endpoint)
    ensures Step(env, INITIAL, Arrive(ep, CONNECT, [])) == Solo(Open(0, ep, 0))
  {
    ConnectAccepted();
  }

  lemma SoloArrive(env: Env, s: Session, ep: Endpoint, delivered: seq<seq<byte>>)
    requires Runs(s) && s.inHand.None? && s.id.key == RouteKey(ep)
    ensures Step(env, Solo(s), Arrive(ep, [], delivered)) == Solo(Receive(s, ep, 0, delivered))
  {
    var t := Receive(s, ep, 0, delivered);
    assert [s][0 := t] == [t];
  }

  lemma SoloDecrypted(env: Env, s: Session)
    requires Runs(s) && s.inHand.Some?
    ensures Step(env, Solo(s), Decrypted(0)) == Solo(Decrypt(env, s))
  {
    assert [s][0 := Decrypt(env, s)] == [Decrypt(env, s)];
  }

  lemma SoloHandle(env: Env, s: Session, stamps: Stamps)
    requires Runs(s)
    ensures Step(env, Solo(s), Handle(0, stamps)) == Solo(HandlerStep(env, s, stamps))
  {
    HandlerKeeps(env, s, stamps);
    assert [s][0 := HandlerStep(env, s, stamps)] == [HandlerStep(env, s, stamps)];
  }

  /** One message over a fresh connection is copied past the receive buffer exactly when it does not fit. */
  lemma OversizeOverruns(env: Env, ep: Endpoint, message: seq<byte>)
    ensures var sv := Run(env, INITIAL, [Arrive(ep, CONNECT, []), Arrive(ep, [], [message])]);
            |sv.sessions| == 1 && (sv.sessions[0].fault == ReceiveOverrun <==> |message| > 65534)
  {
    var s := Open(0, ep, 0);
    RunTwo(env, INITIAL, Arrive(ep, CONNECT, []), Arrive(ep, [], [message]));
    SoloOpen(env, ep);
    SoloArrive(env, s, ep, [message]);
    ReceiveDoom(s, ep, 0, [message]);
    assert s.inbox + [message] == [message];
  }

  predicate SameContent(p: Packet, m: Message) {
    p.id == m.id && p.data == m.body
  }

  lemma DispatchOpens(env: Env, m: Message)
    ensures var wire := XorBytes(m.Bytes(), env.dispatchKey);
            var p := Parse(XorBytes(wire, env.dispatchKey));
            && |wire| >= 12 && |wire| == |m.Bytes()|
            && p.Some? && SameContent(p.value, m)
  {
    XorInvolution(m.Bytes(), env.dispatchKey);
    MessageRoundTrip(m, []);
    assert m.Bytes() + [] == m.Bytes();
  }

  lemma TakesOldest(s: Session, ep: Endpoint, now: nat, wire: seq<byte>, others: seq<seq<byte>>)
    requires Runs(s) && s.inbox == [] && 0 < |wire| <= RECV_BUFFER_SIZE
    ensures Receive(s, ep, now, [wire] + others) ==
            s.(lastPacketTime := now, inbox := others, inHand := Some(wire), sources := s.sources + {ep})
  {
    assert s.inbox + ([wire] + others) == [wire] + others && ([wire] + others)[1..] == others;
  }

  /** A frame that arrives under the dispatch key, on its way from the wire to the queue of a session without a key. */
  lemma Queues(env: Env, s: Session, ep: Endpoint, now: nat, m: Message, others: seq<seq<byte>>)
    requires Runs(s) && s.inbox == [] && s.inHand.None? && !s.useMT && |m.Bytes()| <= RECV_BUFFER_SIZE
    ensures var t := Receive(s, ep, now, [XorBytes(m.Bytes(), env.dispatchKey)] + others);
            && Runs(t) && t.inHand.Some?
            && var d := Decrypt(env, t);
               && Runs(d) && d.id == s.id && d.inHand.None? && d.inbox == others && d.pc == s.pc && d.mtKey == s.mtKey
               && |d.queue| == |s.queue| + 1 && SameContent(d.queue[0], m) && d.queue[1..] == s.queue
  {
    DispatchOpens(env, m);
    TakesOldest(s, ep, now, XorBytes(m.Bytes(), env.dispatchKey), others);
  }

  /** A new connection, and a first message on it, decrypted; `others` arrive with the message. */
  function Opening(env: Env, ep: Endpoint, m: Message, others: seq<seq<byte>>): seq<Event> {
    [Arrive(ep, CONNECT, []), Arrive(ep, [], [XorBytes(m.Bytes(), env.dispatchKey)] + others), Decrypted(0)]
  }

  /** The session of that connection, with the first message in hand, and with it in the queue. */
  function Heard(env: Env, ep: Endpoint, m: Message, others: seq<seq<byte>>): (s: Session)
    requires |m.Bytes()| <= RECV_BUFFER_SIZE
    ensures Runs(s) && s.inHand.Some?
  {
    Queues(env, Open(0, ep, 0), ep, 0, m, others);
    Receive(Open(0, ep, 0), ep, 0, [XorBytes(m.Bytes(), env.dispatchKey)] + others)
  }

  function Opened(env: Env, ep: Endpoint, m: Message, others: seq<seq<byte>>): (s: Session)
    requires |m.Bytes()| <= RECV_BUFFER_SIZE
    ensures Runs(s) && s.id.key == RouteKey(ep) && s.inHand.None? && s.inbox == others && s.pc.Idle? && s.mtKey == []
    ensures |s.queue| == 1 && SameContent(s.queue[0], m)
  {
    Queues(env, Open(0, ep, 0), ep, 0, m, others);
    Decrypt(env, Heard(env, ep, m, others))
  }

  lemma OpeningRun(env: Env, ep: Endpoint, m: Message, others: seq<seq<byte>>)
    requires |m.Bytes()| <= RECV_BUFFER_SIZE
    ensures Run(env, INITIAL, Opening(env, ep, m, others)) == Solo(Opened(env, ep, m, others))
  {
    var connect, first := Arrive(ep, CONNECT, []), Arrive(ep, [], [XorBytes(m.Bytes(), env.dispatchKey)] + others);
    SoloOpen(env, ep);
    SoloArrive(env, Open(0, ep, 0), ep, first.delivered);
    SoloDecrypted(env, Heard(env, ep, m, others));
    RunThree(env, INITIAL, connect, first, Decrypted(0));
  }

  lemma RunThree(env: Env, sv: Server, first: Event, second: Event, third: Event)
    ensures Run(env, sv, [first, second, third]) == Step(env, Step(env, Step(env, sv, first), second), third)
  {
    assert [first, second, third][1..] == [second, third];
    assert Run(env, sv, [first, second, third]) == Run(env, Step(env, sv, first), [second, third]);
    RunTwo(env, Step(env, sv, first), second, third);
  }

  lemma RunPush(env: Env, sv: Server, events: seq<Event>, e: Event)
    ensures Run(env, sv, events + [e]) == Step(env, Run(env, sv, events), e)
  {
    RunAppend(env, sv, events, [e]);
    assert [e][1..] == [];
    assert Run(env, Run(env, sv, events), [e]) == Run(env, Step(env, Run(env, sv, events), e), []);
  }

  /** A client whose first request is a ping or a login: answering it divides by the length of a missing key. */
  lemma PingFirstFaults(env: Env, ep: Endpoint, m: Message, stamps: Stamps)
    requires NeedsKey(m.id) && |m.Bytes()| <= RECV_BUFFER_SIZE
    ensures var sv := Run(env, INITIAL, Opening(env, ep, m, []) + [Handle(0, stamps)]);
            |sv.sessions| == 1 && sv.sessions[0].fault == EmptyKeyOnSend
  {
    var s := Opened(env, ep, m, []);
    OpeningRun(env, ep, m, []);
    RunPush(env, INITIAL, Opening(env, ep, m, []), Handle(0, stamps));
    SoloHandle(env, s, stamps);
    NeedyTaken(env, s, stamps);
  }

  /** A token request whose account uid is not a number: what std::stol throws ends the program. */
  lemma BadUidFaults(env: Env, ep: Endpoint, m: Message, stamps: Stamps)
    requires m.id == GET_PLAYER_TOKEN_REQ && !env.uidConverts(m.body) && |m.Bytes()| <= RECV_BUFFER_SIZE
    ensures var sv := Run(env, INITIAL, Opening(env, ep, m, []) + [Handle(0, stamps)]);
            |sv.sessions| == 1 && sv.sessions[0].fault == UidNotANumber
  {
    var s := Opened(env, ep, m, []);
    OpeningRun(env, ep, m, []);
    RunPush(env, INITIAL, Opening(env, ep, m, []), Handle(0, stamps));
    SoloHandle(env, s, stamps);
    HandlerDoom(env, s, stamps);
  }

  lemma NeedyTaken(env: Env, s: Session, stamps: Stamps)
    requires Runs(s) && s.pc.Idle? && |s.queue| == 1 && NeedsKey(s.queue[0].id) && s.mtKey == []
    ensures HandlerStep(env, s, stamps).fault == EmptyKeyOnSend
  {
    var taken := Handled(s.queue[0], stamps);
    BeginCases(env, s.(queue := s.queue[..0], handled := s.handled + [taken]), taken);
  }

  /** Taking a token request sets the flag and leaves the key for later. */
  lemma TokenTaken(env: Env, s: Session, stamps: Stamps)
    requires s.pc.Idle? && |s.queue| == 1
    requires s.queue[0].id == GET_PLAYER_TOKEN_REQ && env.uidConverts(s.queue[0].data)
    ensures var t := HandlerStep(env, s, stamps);
            t == s.(queue := [], handled := t.handled, useMT := true, pc := t.pc)
  {
  }

  /** Between the flag and the key, the oldest message is decrypted with no key. */
  lemma DecryptedTooEarly(env: Env, s: Session, ep: Endpoint, now: nat)
    requires Runs(s) && s.useMT && s.mtKey == [] && s.inbox != [] && 0 < |s.inbox[0]| <= RECV_BUFFER_SIZE
    ensures var t := Receive(s, ep, now, []);
            Runs(t) && t.inHand.Some? && Decrypt(env, t).fault == EmptyKeyOnReceive
  {
    assert s.inbox + [] == s.inbox;
  }

  /**
    A client that does not wait for its token reply: whatever it sends after the
    request, under whatever key, can be decrypted between the flag and the key.
  */
  lemma ImpatientFaults(env: Env, ep: Endpoint, m: Message, more: seq<byte>, stamps: Stamps)
    requires m.id == GET_PLAYER_TOKEN_REQ && env.uidConverts(m.body) && |m.Bytes()| <= RECV_BUFFER_SIZE
    requires 0 < |more| <= RECV_BUFFER_SIZE
    ensures var opening := Opening(env, ep, m, [more]);
            var sv := Run(env, INITIAL, opening + [Handle(0, stamps)] + [Arrive(ep, [], [])] + [Decrypted(0)]);
            |sv.sessions| == 1 && sv.sessions[0].fault == EmptyKeyOnReceive
  {
    var s, opening := Opened(env, ep, m, [more]), Opening(env, ep, m, [more]);
    var flagged := HandlerStep(env, s, stamps);
    OpeningRun(env, ep, m, [more]);
    RunPush(env, INITIAL, opening, Handle(0, stamps));
    SoloHandle(env, s, stamps);
    TokenTaken(env, s, stamps);
    RunPush(env, INITIAL, opening + [Handle(0, stamps)], Arrive(ep, [], []));
    SoloArrive(env, flagged, ep, []);
    DecryptedTooEarly(env, flagged, ep, 0);
    RunPush(env, INITIAL, opening + [Handle(0, stamps)] + [Arrive(ep, [], [])], Decrypted(0));
    SoloDecrypted(env, Receive(flagged, ep, 0, []));
  }
}
