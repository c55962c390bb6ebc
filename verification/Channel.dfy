/**
  A client, the reliable link, and the session serving it: with the key changing
  hands in the middle, the whole still behaves as a plain first-in first-out
  channel of messages.
*/
module Channels {
  import opened Bytes
  import opened Wrappers
  import opened Crypto
  import opened Frames
  import opened Sessions
  import opened SessionLaws
  import opened Transcripts
  import opened ServerLaws
  import opened Seqs

  /** Which key the client encrypts with: Waiting is the silence between its token request and the reply. */
  datatype Phase = UsesDispatch | Waiting | UsesDerived

  /** `wire` are the client's messages the link has not delivered, `read` counts those of the server it has read. */
  datatype System = System(
    phase: Phase, said: seq<Message>, wire: seq<seq<byte>>, read: nat, session: Session, clock: nat)

  datatype Action =
    | Say(m: Message)
    | Listen
    | Deliver(n: nat)
    | DecryptNext
    | Serve(stamps: Stamps)
    | Background
    | Wait(seconds: nat)

  function Start(uid: nat, ep: Endpoint, now: nat): System {
    System(UsesDispatch, [], [], 0, Open(uid, ep, now), now)
  }

  function ClientKey(env: Env, phase: Phase): Key {
    if phase.UsesDerived? then env.SessionKey() else env.dispatchKey
  }

  /** The client asks for a token before it pings or logs in, and then waits for the reply. */
  predicate MaySay(env: Env, phase: Phase, m: Message) {
    |m.Bytes()| <= RECV_BUFFER_SIZE &&
    (m.id == GET_PLAYER_TOKEN_REQ ==> env.uidConverts(m.body)) &&
    match phase
    case UsesDispatch => !NeedsKey(m.id)
    case Waiting => false
    case UsesDerived => true
  }

  predicate Possible(env: Env, sys: System, a: Action) {
    match a
    case Say(m) => MaySay(env, sys.phase, m)
    case Listen => sys.read < |sys.session.sent|
    case Deliver(n) => Runs(sys.session) && sys.session.inHand.None? && n <= |sys.wire|
    case DecryptNext => Runs(sys.session) && sys.session.inHand.Some?
    case Serve(_) => Runs(sys.session)
    case Background => Runs(sys.session)
    case Wait(_) => true
  }

  predicate IsTokenReply(env: Env, wire: seq<byte>) {
    var p := OpenedReply(env, wire, true);
    p.Some? && p.value.id == GET_PLAYER_TOKEN_RSP
  }

  function Act(env: Env, sys: System, a: Action): System
    requires Possible(env, sys, a)
  {
    match a
    case Say(m) =>
      sys.(said := sys.said + [m], wire := sys.wire + [XorBytes(m.Bytes(), ClientKey(env, sys.phase))],
           phase := if sys.phase.UsesDispatch? && m.id == GET_PLAYER_TOKEN_REQ then Waiting else sys.phase)
    case Listen =>
      var answered := sys.phase.Waiting? && IsTokenReply(env, sys.session.sent[sys.read]);
      sys.(read := sys.read + 1, phase := if answered then UsesDerived else sys.phase)
    case Deliver(n) =>
      sys.(wire := sys.wire[n..],
           session := Receive(sys.session, sys.session.id.endpoint, sys.clock, sys.wire[..n]))
    case DecryptNext => sys.(session := Decrypt(env, sys.session))
    case Serve(stamps) => sys.(session := HandlerStep(env, sys.session, stamps))
    case Background => sys.(session := Tick(sys.session, sys.clock))
    case Wait(seconds) => sys.(clock := sys.clock + seconds)
  }

  function Next(env: Env, sys: System, a: Action): System {
    if Possible(env, sys, a) then Act(env, sys, a) else sys
  }

  function Run(env: Env, sys: System, actions: seq<Action>): System
    decreases |actions|
  {
    if actions == [] then sys else Run(env, Next(env, sys, actions[0]), actions[1..])
  }

  lemma RunFirst(env: Env, sys: System, a: Action, rest: seq<Action>)
    ensures Run(env, sys, [a] + rest) == Run(env, Next(env, sys, a), rest)
  {
    assert ([a] + rest)[1..] == rest;
  }

  lemma {:induction false} RunAppend(env: Env, sys: System, a: seq<Action>, b: seq<Action>)
    ensures Run(env, sys, a + b) == Run(env, Run(env, sys, a), b)
    decreases |a|
  {
    if a == [] {
      assert a + b == b;
    } else {
      RunAppend(env, Next(env, sys, a[0]), a[1..], b);
      RunFirst(env, sys, a[0], a[1..]);
      RunFirst(env, sys, a[0], a[1..] + b);
      Regroup(a, b);
    }
  }

  // ----- the pipeline -----

  predicate AsksToken(said: seq<Message>) {
    exists i :: 0 <= i < |said| && said[i].id == GET_PLAYER_TOKEN_REQ
  }

  /** A message travels under the derived key exactly when a token request went before it. */
  function KeyAt(env: Env, said: seq<Message>, i: nat): Key
    requires i <= |said|
  {
    if AsksToken(said[..i]) then env.SessionKey() else env.dispatchKey
  }

  function Encrypted(env: Env, said: seq<Message>, i: nat): seq<byte>
    requires i < |said|
  {
    XorBytes(said[i].Bytes(), KeyAt(env, said, i))
  }

  /** Everything on its way between the client and the server's queue, oldest first. */
  function InFlight(inHand: Option<seq<byte>>, inbox: seq<seq<byte>>, wire: seq<seq<byte>>): seq<seq<byte>> {
    (if inHand.Some? then [inHand.value] else []) + inbox + wire
  }

  predicate IsCopy(p: Packet, m: Message) {
    |p.data| < U32 && Carried(p) == m
  }

  predicate Arrived(enqueued: seq<Packet>, said: seq<Message>) {
    && |enqueued| <= |said|
    && forall i :: 0 <= i < |enqueued| ==> IsCopy(enqueued[i], said[i])
  }

  /** All that was said, as it was sent. */
  function Ciphers(env: Env, said: seq<Message>): (r: seq<seq<byte>>)
    ensures |r| == |said|
  {
    seq(|said|, i requires 0 <= i < |said| => Encrypted(env, said, i))
  }

  /** The bytes on their way are the messages from number e on. */
  predicate Carries(env: Env, said: seq<Message>, e: nat, flight: seq<seq<byte>>) {
    e <= |said| && flight == Ciphers(env, said)[e..]
  }

  lemma CarriesAt(env: Env, said: seq<Message>, e: nat, flight: seq<seq<byte>>, i: nat)
    requires Carries(env, said, e, flight) && i < |flight|
    ensures e + i < |said| && flight[i] == Encrypted(env, said, e + i)
  {
  }

  predicate PipelineInv(env: Env, said: seq<Message>, enqueued: seq<Packet>, flight: seq<seq<byte>>) {
    && Arrived(enqueued, said)
    && Carries(env, said, |enqueued|, flight)
  }

  predicate PhaseInv(phase: Phase, said: seq<Message>, mtKey: seq<byte>) {
    && (AsksToken(said) <==> !phase.UsesDispatch?)
    && (phase.Waiting? ==> said != [] && !AsksToken(said[..|said| - 1]))
    && (phase.UsesDerived? ==> mtKey != [])
  }

  predicate ClientInv(env: Env, phase: Phase, said: seq<Message>, mtKey: seq<byte>) {
    && PhaseInv(phase, said, mtKey)
    && (forall i :: 0 <= i < |said| && NeedsKey(said[i].id) ==> AsksToken(said[..i]))
    && (forall i :: 0 <= i < |said| ==> |said[i].Bytes()| <= RECV_BUFFER_SIZE)
    && (forall i :: 0 <= i < |said| && said[i].id == GET_PLAYER_TOKEN_REQ ==> env.uidConverts(said[i].body))
  }

  predicate SystemInv(env: Env, sys: System) {
    var s := sys.session;
    && SessionInv(env, s)
    && s.fault == NoFault
    && PipelineInv(env, sys.said, s.enqueued, InFlight(s.inHand, s.inbox, sys.wire))
    && ClientInv(env, sys.phase, sys.said, s.mtKey)
    && (!sys.phase.UsesDerived? ==> sys.read == 0)
  }

  lemma StartInv(env: Env, uid: nat, ep: Endpoint, now: nat)
    ensures SystemInv(env, Start(uid, ep, now))
  {
    OpenInv(env, uid, ep, now);
  }

  lemma AsksTokenPush(said: seq<Message>, m: Message)
    ensures AsksToken(said + [m]) <==> AsksToken(said) || m.id == GET_PLAYER_TOKEN_REQ
  {
    var all := said + [m];
    assert all[|said|] == m;
    if AsksToken(said) {
      var i :| 0 <= i < |said| && said[i].id == GET_PLAYER_TOKEN_REQ;
      assert all[i] == said[i];
    }
  }

  lemma AsksTokenMonotone(said: seq<Message>, i: nat, j: nat)
    requires i <= j <= |said| && AsksToken(said[..i])
    ensures AsksToken(said[..j])
  {
    var k :| 0 <= k < |said[..i]| && said[..i][k].id == GET_PLAYER_TOKEN_REQ;
    assert said[..j][k] == said[..i][k];
  }

  lemma CiphersPush(env: Env, said: seq<Message>, m: Message)
    ensures Ciphers(env, said + [m]) == Ciphers(env, said) + [XorBytes(m.Bytes(), KeyAt(env, said, |said|))]
  {
    var said' := said + [m];
    assert said'[..|said|] == said == said[..|said|];
    forall i | 0 <= i < |said|
      ensures Ciphers(env, said')[i] == Ciphers(env, said)[i]
    {
      assert said'[..i] == said[..i];
    }
  }

  lemma SayPipeline(env: Env, said: seq<Message>, enqueued: seq<Packet>, flight: seq<seq<byte>>, m: Message)
    requires PipelineInv(env, said, enqueued, flight)
    ensures PipelineInv(env, said + [m], enqueued, flight + [XorBytes(m.Bytes(), KeyAt(env, said, |said|))])
  {
    CiphersPush(env, said, m);
    TailPush(Ciphers(env, said), |enqueued|, XorBytes(m.Bytes(), KeyAt(env, said, |said|)));
  }

  lemma SayClient(env: Env, phase: Phase, said: seq<Message>, mtKey: seq<byte>, m: Message)
    requires ClientInv(env, phase, said, mtKey) && MaySay(env, phase, m)
    ensures var next := if phase.UsesDispatch? && m.id == GET_PLAYER_TOKEN_REQ then Waiting else phase;
            ClientInv(env, next, said + [m], mtKey)
  {
    var said' := said + [m];
    AsksTokenPush(said, m);
    assert said'[..|said|] == said;
    assert forall i :: 0 <= i < |said| ==> said'[..i] == said[..i];
  }

  lemma SayInv(env: Env, sys: System, m: Message)
    requires SystemInv(env, sys) && MaySay(env, sys.phase, m)
    ensures SystemInv(env, Next(env, sys, Say(m)))
  {
    var s := sys.session;
    var bytes := XorBytes(m.Bytes(), ClientKey(env, sys.phase));
    assert sys.said[..|sys.said|] == sys.said;
    assert KeyAt(env, sys.said, |sys.said|) == ClientKey(env, sys.phase);
    SayPipeline(env, sys.said, s.enqueued, InFlight(s.inHand, s.inbox, sys.wire), m);
    assert InFlight(s.inHand, s.inbox, sys.wire + [bytes]) == InFlight(s.inHand, s.inbox, sys.wire) + [bytes];
    SayClient(env, sys.phase, sys.said, s.mtKey, m);
  }

  /** In a token-first session the first reply of all is the token reply. */
  lemma {:induction false} FirstReply(handled: seq<Handled>)
    requires TokenFirst(Requests(handled)) && Transcript(handled) != []
    ensures var first := Transcript(handled)[0];
            first.dispatch && first.message.id == GET_PLAYER_TOKEN_RSP
    ensures HasToken(Requests(handled))
    decreases |handled|
  {
    var h, rest := handled[0], handled[1..];
    var requests := Requests(handled);
    assert requests[..0] == [] && Transcript(handled) == Replies(h) + Transcript(rest);
    if h.request.id == GET_PLAYER_TOKEN_REQ {
      assert requests[0].id == GET_PLAYER_TOKEN_REQ;
    } else {
      assert requests[0] == h.request && !NeedsKey(h.request.id);
      assert Transcript(handled) == Transcript(rest);
      assert Requests(rest) == requests[1..];
      TailTokenFirst(requests);
      FirstReply(rest);
      var k :| 0 <= k < |Requests(rest)| && Requests(rest)[k].id == GET_PLAYER_TOKEN_REQ;
      assert requests[k + 1] == Requests(rest)[k];
    }
  }

  lemma TailTokenFirst(requests: seq<Packet>)
    requires TokenFirst(requests) && requests != [] && requests[0].id != GET_PLAYER_TOKEN_REQ
    ensures TokenFirst(requests[1..])
  {
    forall i | 0 <= i < |requests[1..]| && NeedsKey(requests[1..][i].id)
      ensures HasToken(requests[1..][..i])
    {
      assert requests[i + 1] == requests[1..][i];
      var k :| 0 <= k < |requests[..i + 1]| && requests[..i + 1][k].id == GET_PLAYER_TOKEN_REQ;
      assert requests[1..][..i][k - 1] == requests[..i + 1][k];
    }
  }

  lemma FirstWire(env: Env, handled: seq<Handled>, settled: seq<Handled>, sent: seq<seq<byte>>)
    requires settled == handled || (handled != [] && settled == handled[..|handled| - 1])
    requires sent == Wires(env, Transcript(settled)) && sent != []
    ensures Transcript(handled) != [] && sent[0] == Wire(env, Transcript(handled)[0])
  {
    if settled != handled {
      TranscriptPush(env, settled, handled[|settled|]);
      assert handled == settled + [handled[|settled|]];
    }
  }

  /** So the first message the client can read is a token reply, and there is none before it asked. */
  lemma FirstSent(env: Env, sys: System)
    requires SystemInv(env, sys) && sys.session.sent != []
    ensures IsTokenReply(env, sys.session.sent[0]) && !sys.phase.UsesDispatch? && sys.session.mtKey != []
  {
    var s := sys.session;
    FirstWire(env, s.handled, Settled(s.fault, s.pc, s.handled), s.sent);
    FirstReply(s.handled);
    WireOpens(env, Transcript(s.handled)[0]);
    HandledTokenSaid(s.enqueued, Requests(s.handled), sys.said);
  }

  lemma HandledTokenSaid(enqueued: seq<Packet>, requests: seq<Packet>, said: seq<Message>)
    requires Arrived(enqueued, said) && requests <= enqueued && HasToken(requests)
    ensures AsksToken(said)
  {
    TokenWasSaid(enqueued, requests, said);
    AsksTokenMonotone(said, |enqueued|, |said|);
    assert said[..|said|] == said;
  }

  lemma ListenInv(env: Env, sys: System)
    requires SystemInv(env, sys)
    ensures SystemInv(env, Next(env, sys, Listen))
  {
    if Possible(env, sys, Listen) {
      FirstSent(env, sys);
    }
  }

  /** Delivery moves messages along the link; the oldest goes into the receiver's hand, as no frame is empty. */
  lemma DeliverFlight(inbox: seq<seq<byte>>, wire: seq<seq<byte>>, n: nat)
    requires n <= |wire|
    requires inbox + wire != [] ==> 0 < |(inbox + wire)[0]| <= RECV_BUFFER_SIZE
    ensures var box := inbox + wire[..n];
            InFlight(None, inbox, wire) ==
            if box == [] then InFlight(None, box, wire[n..]) else InFlight(Some(box[0]), box[1..], wire[n..])
    ensures inbox + wire[..n] != [] ==> 0 < |(inbox + wire[..n])[0]| <= RECV_BUFFER_SIZE
  {
    var box := inbox + wire[..n];
    NothingInHand(inbox, wire);
    assert inbox + wire == box + wire[n..];
    if box == [] {
      NothingInHand(box, wire[n..]);
    } else {
      assert box == [box[0]] + box[1..];
    }
  }

  lemma ReceiveValue(s: Session, now: nat, delivered: seq<seq<byte>>)
    requires s.state == Connected
    requires s.inbox + delivered != [] ==> 0 < |(s.inbox + delivered)[0]| <= RECV_BUFFER_SIZE
    ensures var box, t := s.inbox + delivered, Receive(s, s.id.endpoint, now, delivered);
            && t.inHand == (if box == [] then None else Some(box[0]))
            && t.inbox == (if box == [] then box else box[1..])
            && t.fault == s.fault && t.enqueued == s.enqueued && t.mtKey == s.mtKey
  {
  }

  lemma DeliverInv(env: Env, sys: System, n: nat)
    requires SystemInv(env, sys) && Possible(env, sys, Deliver(n))
    ensures SystemInv(env, Next(env, sys, Deliver(n)))
  {
    var s := sys.session;
    ReceiveInv(env, s, s.id.endpoint, sys.clock, sys.wire[..n]);
    FlightFrames(env, sys.said, s.enqueued, s.inbox, sys.wire);
    DeliverFlight(s.inbox, sys.wire, n);
    ReceiveValue(s, sys.clock, sys.wire[..n]);
  }

  lemma FlightFrames(env: Env, said: seq<Message>, enqueued: seq<Packet>, inbox: seq<seq<byte>>, wire: seq<seq<byte>>)
    requires PipelineInv(env, said, enqueued, InFlight(None, inbox, wire))
    requires forall i :: 0 <= i < |said| ==> |said[i].Bytes()| <= RECV_BUFFER_SIZE
    ensures InFlight(None, inbox, wire) == inbox + wire
    ensures inbox + wire != [] ==> 0 < |(inbox + wire)[0]| <= RECV_BUFFER_SIZE
  {
    NothingInHand(inbox, wire);
    if inbox + wire != [] {
      OldestFits(env, said, enqueued, inbox + wire);
    }
  }

  lemma NothingInHand(inbox: seq<seq<byte>>, wire: seq<seq<byte>>)
    ensures InFlight(None, inbox, wire) == inbox + wire
  {
  }

  lemma OldestFits(env: Env, said: seq<Message>, enqueued: seq<Packet>, flight: seq<seq<byte>>)
    requires PipelineInv(env, said, enqueued, flight) && flight != []
    requires forall i :: 0 <= i < |said| ==> |said[i].Bytes()| <= RECV_BUFFER_SIZE
    ensures 0 < |flight[0]| <= RECV_BUFFER_SIZE
  {
    CarriesAt(env, said, |enqueued|, flight, 0);
    EncryptedNotEmpty(env, said, |enqueued|);
  }

  lemma EncryptedNotEmpty(env: Env, said: seq<Message>, i: nat)
    requires i < |said|
    ensures Encrypted(env, said, i) != []
  {
    assert |said[i].Bytes()| >= 12;
  }

  /** A token request that has arrived was followed by silence until the session had its key. */
  lemma AskedHasKey(phase: Phase, said: seq<Message>, mtKey: seq<byte>, e: nat)
    requires PhaseInv(phase, said, mtKey) && e < |said| && AsksToken(said[..e])
    ensures mtKey != []
  {
    AsksTokenMonotone(said, e, |said| - 1);
    AsksTokenMonotone(said, e, |said|);
    assert said[..|said|] == said;
  }

  lemma KeyMatches(env: Env, phase: Phase, said: seq<Message>, useMT: bool, mtKey: seq<byte>,
                   enqueued: seq<Packet>, requests: seq<Packet>)
    requires ClientInv(env, phase, said, mtKey) && Arrived(enqueued, said) && |enqueued| < |said|
    requires requests <= enqueued && useMT == HasToken(requests)
    requires (mtKey == [] || mtKey == env.SessionKey()) && (mtKey != [] ==> useMT)
    ensures (if useMT then mtKey else env.dispatchKey) == KeyAt(env, said, |enqueued|)
  {
    if useMT {
      TokenWasSaid(enqueued, requests, said);
    }
    if AsksToken(said[..|enqueued|]) {
      AskedHasKey(phase, said, mtKey, |enqueued|);
    }
  }

  /** The key the server picks is the key the message was encrypted with. */
  lemma KeysAgree(env: Env, sys: System)
    requires SystemInv(env, sys) && sys.session.inHand.Some?
    ensures var s := sys.session;
            && |s.enqueued| < |sys.said|
            && (if s.useMT then s.mtKey else env.dispatchKey) == KeyAt(env, sys.said, |s.enqueued|)
  {
    var s := sys.session;
    FlightHead(s.inHand.value, s.inbox, sys.wire);
    KeyMatches(env, sys.phase, sys.said, s.useMT, s.mtKey, s.enqueued, Requests(s.handled));
  }

  lemma FlightHead(data: seq<byte>, inbox: seq<seq<byte>>, wire: seq<seq<byte>>)
    ensures var flight := InFlight(Some(data), inbox, wire);
            flight != [] && flight[0] == data && flight[1..] == InFlight(None, inbox, wire)
  {
  }

  lemma TokenWasSaid(enqueued: seq<Packet>, requests: seq<Packet>, said: seq<Message>)
    requires Arrived(enqueued, said) && requests <= enqueued && HasToken(requests)
    ensures AsksToken(said[..|enqueued|])
  {
    var i :| 0 <= i < |requests| && requests[i].id == GET_PLAYER_TOKEN_REQ;
    assert requests[i] == enqueued[i] && IsCopy(enqueued[i], said[i]);
    assert said[..|enqueued|][i] == said[i];
  }

  lemma DecryptOne(m: Message, key: Key)
    ensures var p := Parse(XorBytes(XorBytes(m.Bytes(), key), key));
            p.Some? && IsCopy(p.value, m)
  {
    XorInvolution(m.Bytes(), key);
    MessageRoundTrip(m, []);
    assert m.Bytes() + [] == m.Bytes();
  }

  lemma EnqueuePipeline(env: Env, said: seq<Message>, enqueued: seq<Packet>, flight: seq<seq<byte>>, p: Packet)
    requires PipelineInv(env, said, enqueued, flight) && flight != [] && IsCopy(p, said[|enqueued|])
    ensures PipelineInv(env, said, enqueued + [p], flight[1..])
  {
    TailTail(Ciphers(env, said), |enqueued|);
    ArrivedPush(enqueued, said, p);
  }

  lemma ArrivedPush(enqueued: seq<Packet>, said: seq<Message>, p: Packet)
    requires Arrived(enqueued, said) && |enqueued| < |said| && IsCopy(p, said[|enqueued|])
    ensures Arrived(enqueued + [p], said)
  {
  }

  lemma DecryptValue(env: Env, s: Session, key: seq<byte>, p: Packet)
    requires s.inHand.Some? && key != [] && key == (if s.useMT then s.mtKey else env.dispatchKey)
    requires Parse(XorBytes(s.inHand.value, key)) == Some(p)
    ensures Decrypt(env, s) == s.(inHand := None, queue := [p] + s.queue, enqueued := s.enqueued + [p])
  {
  }

  lemma DecryptNextInv(env: Env, sys: System)
    requires SystemInv(env, sys) && Possible(env, sys, DecryptNext)
    ensures SystemInv(env, Next(env, sys, DecryptNext))
  {
    var s := sys.session;
    var e, flight := |s.enqueued|, InFlight(s.inHand, s.inbox, sys.wire);
    DecryptInv(env, s);
    KeysAgree(env, sys);
    var key := KeyAt(env, sys.said, e);
    FlightHead(s.inHand.value, s.inbox, sys.wire);
    CarriesAt(env, sys.said, e, flight, 0);
    DecryptOne(sys.said[e], key);
    var p := Parse(XorBytes(s.inHand.value, key)).value;
    DecryptValue(env, s, key, p);
    EnqueuePipeline(env, sys.said, s.enqueued, flight, p);
  }

  lemma HandledTokenFirst(enqueued: seq<Packet>, requests: seq<Packet>, said: seq<Message>)
    requires Arrived(enqueued, said) && requests <= enqueued
    requires forall i :: 0 <= i < |said| && NeedsKey(said[i].id) ==> AsksToken(said[..i])
    ensures TokenFirst(requests)
  {
    forall i | 0 <= i < |requests| && NeedsKey(requests[i].id)
      ensures HasToken(requests[..i])
    {
      assert requests[i] == enqueued[i] && IsCopy(enqueued[i], said[i]);
      var k :| 0 <= k < |said[..i]| && said[..i][k].id == GET_PLAYER_TOKEN_REQ;
      assert IsCopy(enqueued[k], said[k]) && requests[..i][k] == enqueued[k];
    }
  }

  lemma ServeInv(env: Env, sys: System, stamps: Stamps)
    requires SystemInv(env, sys)
    ensures SystemInv(env, Next(env, sys, Serve(stamps)))
  {
    if Runs(sys.session) {
      HandlerSafe(env, sys, stamps);
      HandlerKeeps(env, sys.session, stamps);
    }
  }

  /** The handler meets no fault. */
  lemma HandlerSafe(env: Env, sys: System, stamps: Stamps)
    requires SystemInv(env, sys)
    ensures SessionInv(env, HandlerStep(env, sys.session, stamps))
    ensures HandlerStep(env, sys.session, stamps).fault == NoFault
  {
    var s, t := sys.session, HandlerStep(env, sys.session, stamps);
    HandlerInv(env, s, stamps);
    HandlerKeeps(env, s, stamps);
    HandlerDoom(env, s, stamps);
    TakenTokenFirst(env, t, sys.said);
    TakenConvert(env, t, sys.said);
  }

  /** What the handler has taken is token-first because what the client said is. */
  lemma TakenTokenFirst(env: Env, s: Session, said: seq<Message>)
    requires SessionInv(env, s) && Arrived(s.enqueued, said)
    requires forall i :: 0 <= i < |said| && NeedsKey(said[i].id) ==> AsksToken(said[..i])
    ensures s.fault != EmptyKeyOnSend
  {
    assert Requests(s.handled) <= s.enqueued;
    HandledTokenFirst(s.enqueued, Requests(s.handled), said);
  }

  /** And no token request of it stops the handler. */
  lemma TakenConvert(env: Env, s: Session, said: seq<Message>)
    requires SessionInv(env, s) && Arrived(s.enqueued, said)
    requires forall i :: 0 <= i < |said| && said[i].id == GET_PLAYER_TOKEN_REQ ==> env.uidConverts(said[i].body)
    ensures s.fault != UidNotANumber
  {
    var requests := Requests(s.handled);
    forall i | 0 <= i < |requests|
      ensures !Refused(env, requests[i])
    {
      assert requests[i] == s.enqueued[i] && IsCopy(s.enqueued[i], said[i]);
    }
  }

  lemma NextInv(env: Env, sys: System, a: Action)
    requires SystemInv(env, sys)
    ensures SystemInv(env, Next(env, sys, a))
  {
    match a
    case Say(m) =>
      if MaySay(env, sys.phase, m) {
        SayInv(env, sys, m);
      }
    case Listen => ListenInv(env, sys);
    case Deliver(n) =>
      if Possible(env, sys, a) {
        DeliverInv(env, sys, n);
      }
    case DecryptNext =>
      if Possible(env, sys, a) {
        DecryptNextInv(env, sys);
      }
    case Serve(stamps) => ServeInv(env, sys, stamps);
    case Background => TickInv(env, sys.session, sys.clock);
    case Wait(_) =>
  }

  lemma {:induction false} RunInv(env: Env, sys: System, actions: seq<Action>)
    requires SystemInv(env, sys)
    ensures SystemInv(env, Run(env, sys, actions))
    decreases |actions|
  {
    if actions != [] {
      NextInv(env, sys, actions[0]);
      RunInv(env, Next(env, sys, actions[0]), actions[1..]);
    }
  }

  // ----- the plain channel -----

  /** A queue of messages in clear: what was taken out of it, and what is still in it. */
  datatype Fifo = Fifo(taken: seq<Option<Message>>, waiting: seq<Option<Message>>)

  /** The message a packet carries, if it is one a client could have said. */
  function Copy(p: Packet): Option<Message> {
    if |p.data| < U32 then Some(Carried(p)) else None
  }

  function Copies(packets: seq<Packet>): (r: seq<Option<Message>>)
    ensures |r| == |packets|
  {
    seq(|packets|, i requires 0 <= i < |packets| => Copy(packets[i]))
  }

  function Plain(said: seq<Message>): (r: seq<Option<Message>>)
    ensures |r| == |said|
  {
    seq(|said|, i requires 0 <= i < |said| => Some(said[i]))
  }

  function Opens(data: seq<byte>, key: Key): Option<Message> {
    var p := Parse(XorBytes(data, key));
    if p.Some? then Copy(p.value) else None
  }

  predicate IsTokenReq(m: Option<Message>) {
    m.Some? && m.value.id == GET_PLAYER_TOKEN_REQ
  }

  /** What encrypted bytes say, before and after a token request. */
  function Opener(env: Env): (seq<byte>, bool) -> Option<Message> {
    (data, asked) => Opens(data, if asked then env.SessionKey() else env.dispatchKey)
  }

  /** What these encrypted messages say one after the other: the key changes behind a token request. */
  function Decoded(opens: (seq<byte>, bool) -> Option<Message>, asked: bool, flight: seq<seq<byte>>)
    : seq<Option<Message>>
    decreases |flight|
  {
    if flight == [] then []
    else
      var m := opens(flight[0], asked);
      [m] + Decoded(opens, asked || IsTokenReq(m), flight[1..])
  }

  /**
    The channel the server's side of a system stands for: taken are the handled
    requests; waiting are the queued ones, and behind them what the bytes in hand,
    in the inbox and on the wire decrypt to.
  */
  function Abstract(env: Env, sys: System): Fifo {
    var s := sys.session;
    Fifo(Copies(Requests(s.handled)),
         Copies(Reverse(s.queue)) + Decoded(Opener(env), HasToken(s.enqueued), InFlight(s.inHand, s.inbox, sys.wire)))
  }

  /** The handler is between requests and finds one. */
  predicate Takes(env: Env, sys: System, a: Action) {
    a.Serve? && Possible(env, sys, a) && sys.session.pc.Idle? && sys.session.queue != []
  }

  /** What an action does to the plain channel: saying puts a message at the back, taking removes the one in front. */
  function FifoNext(env: Env, sys: System, a: Action, f: Fifo): Fifo
    requires Takes(env, sys, a) ==> f.waiting != []
  {
    if a.Say? && Possible(env, sys, a) then Fifo(f.taken, f.waiting + [Some(a.m)])
    else if Takes(env, sys, a) then Fifo(f.taken + [f.waiting[0]], f.waiting[1..])
    else f
  }

  lemma CiphersOpen(env: Env, said: seq<Message>)
    ensures forall i :: 0 <= i < |said| ==> Opener(env)(Ciphers(env, said)[i], AsksToken(said[..i])) == Some(said[i])
  {
    forall i | 0 <= i < |said|
      ensures Opener(env)(Ciphers(env, said)[i], AsksToken(said[..i])) == Some(said[i])
    {
      EncryptedOpens(env, said, i);
      OpenerOpens(env, said, i);
    }
  }

  lemma OpenerOpens(env: Env, said: seq<Message>, i: nat)
    requires i < |said| && Opens(Encrypted(env, said, i), KeyAt(env, said, i)) == Some(said[i])
    ensures Opener(env)(Encrypted(env, said, i), AsksToken(said[..i])) == Some(said[i])
  {
  }

  lemma EncryptedOpens(env: Env, said: seq<Message>, i: nat)
    requires i < |said|
    ensures Opens(Encrypted(env, said, i), KeyAt(env, said, i)) == Some(said[i])
  {
    DecryptOne(said[i], KeyAt(env, said, i));
  }

  lemma {:induction false} DecodedFlight(opens: (seq<byte>, bool) -> Option<Message>, said: seq<Message>,
                                         ciphers: seq<seq<byte>>, e: nat)
    requires |ciphers| == |said| && e <= |said|
    requires forall i :: 0 <= i < |said| ==> opens(ciphers[i], AsksToken(said[..i])) == Some(said[i])
    ensures Decoded(opens, AsksToken(said[..e]), ciphers[e..]) == Plain(said[e..])
    decreases |said| - e
  {
    if e < |said| {
      assert said[..e + 1] == said[..e] + [said[e]];
      AsksTokenPush(said[..e], said[e]);
      TailTail(ciphers, e);
      DecodedFlight(opens, said, ciphers, e + 1);
      PlainFirst(said, e);
    }
  }

  lemma PlainFirst(said: seq<Message>, e: nat)
    requires e < |said|
    ensures Plain(said[e..]) == [Some(said[e])] + Plain(said[e + 1..])
  {
  }

  lemma TokenArrived(enqueued: seq<Packet>, said: seq<Message>)
    requires Arrived(enqueued, said)
    ensures HasToken(enqueued) == AsksToken(said[..|enqueued|])
  {
    var asked := said[..|enqueued|];
    if HasToken(enqueued) {
      TokenWasSaid(enqueued, enqueued, said);
    }
    if AsksToken(asked) {
      var i :| 0 <= i < |asked| && asked[i].id == GET_PLAYER_TOKEN_REQ;
      assert IsCopy(enqueued[i], said[i]) && enqueued[i].id == GET_PLAYER_TOKEN_REQ;
    }
  }

  lemma CopiesArrived(enqueued: seq<Packet>, said: seq<Message>)
    requires Arrived(enqueued, said)
    ensures Copies(enqueued) == Plain(said[..|enqueued|])
  {
    forall i | 0 <= i < |enqueued|
      ensures Copies(enqueued)[i] == Plain(said[..|enqueued|])[i]
    {
      assert IsCopy(enqueued[i], said[i]);
    }
  }

  /** The order of the queue: what is enqueued splits into what is handled and what waits. */
  lemma CopiesSplit(packets: seq<Packet>, a: seq<Packet>, b: seq<Packet>, said: seq<Message>)
    requires packets == a + b && |packets| <= |said| && Copies(packets) == Plain(said[..|packets|])
    ensures Copies(a) == Plain(said[..|a|])
    ensures Copies(b) + Plain(said[|packets|..]) == Plain(said[|a|..])
  {
    var all := Copies(packets);
    assert Copies(a) == all[..|a|] && Copies(b) == all[|a|..];
    assert Plain(said[..|a|]) == all[..|a|];
    assert Plain(said[|a|..|packets|]) == all[|a|..];
    assert Plain(said[|a|..]) == Plain(said[|a|..|packets|]) + Plain(said[|packets|..]);
  }

  /** The server's side holds, handled, queued and encrypted, exactly what the client said, in order. */
  lemma AbstractIsSaid(env: Env, sys: System)
    requires SystemInv(env, sys)
    ensures |sys.session.handled| <= |sys.said|
    ensures var n := |sys.session.handled|;
            Abstract(env, sys) == Fifo(Plain(sys.said[..n]), Plain(sys.said[n..]))
  {
    var s := sys.session;
    var flight := InFlight(s.inHand, s.inbox, sys.wire);
    PipelineIsSaid(env, sys.said, s.enqueued, Requests(s.handled), Reverse(s.queue), flight);
  }

  lemma PipelineIsSaid(env: Env, said: seq<Message>, enqueued: seq<Packet>, taken: seq<Packet>, queued: seq<Packet>,
                       flight: seq<seq<byte>>)
    requires PipelineInv(env, said, enqueued, flight) && enqueued == taken + queued
    ensures Copies(taken) == Plain(said[..|taken|])
    ensures Copies(queued) + Decoded(Opener(env), HasToken(enqueued), flight) == Plain(said[|taken|..])
  {
    CopiesArrived(enqueued, said);
    CopiesSplit(enqueued, taken, queued, said);
    TokenArrived(enqueued, said);
    FlightDecodes(env, said, |enqueued|, flight);
  }

  lemma FlightDecodes(env: Env, said: seq<Message>, e: nat, flight: seq<seq<byte>>)
    requires Carries(env, said, e, flight)
    ensures Decoded(Opener(env), AsksToken(said[..e]), flight) == Plain(said[e..])
  {
    CiphersOpen(env, said);
    DecodedFlight(Opener(env), said, Ciphers(env, said), e);
  }

  /** What the handler has taken are, one by one, the messages the client said first. */
  lemma HandledIsPrefix(env: Env, sys: System)
    requires SystemInv(env, sys)
    ensures |sys.session.handled| <= |sys.said|
    ensures forall i :: 0 <= i < |sys.session.handled| ==> IsCopy(sys.session.handled[i].request, sys.said[i])
    ensures var s := sys.session;
            |sys.said| == |s.handled| + |s.queue| + (if s.inHand.Some? then 1 else 0) + |s.inbox| + |sys.wire|
  {
    var s := sys.session;
    forall i | 0 <= i < |s.handled|
      ensures IsCopy(s.handled[i].request, sys.said[i])
    {
      assert s.enqueued[i] == Requests(s.handled)[i];
      assert IsCopy(s.enqueued[i], sys.said[i]);
    }
  }

  lemma SayRefines(said: seq<Message>, n: nat, m: Message)
    requires n <= |said|
    ensures Plain((said + [m])[..n]) == Plain(said[..n])
    ensures Plain((said + [m])[n..]) == Plain(said[n..]) + [Some(m)]
  {
    assert (said + [m])[..n] == said[..n] && (said + [m])[n..] == said[n..] + [m];
  }

  lemma TakeRefines(said: seq<Message>, n: nat)
    requires n < |said|
    ensures Plain(said[n..]) != []
    ensures Plain(said[..n + 1]) == Plain(said[..n]) + [Plain(said[n..])[0]]
    ensures Plain(said[n + 1..]) == Plain(said[n..])[1..]
  {
  }

  /** What an action does to the two ends of the channel. */
  lemma NextEnds(env: Env, sys: System, a: Action)
    ensures var next := Next(env, sys, a);
            && next.said == (if a.Say? && Possible(env, sys, a) then sys.said + [a.m] else sys.said)
            && |next.session.handled| == |sys.session.handled| + if Takes(env, sys, a) then 1 else 0
  {
    if a.Serve? {
      HandlerTakes(env, sys.session, a.stamps);
    }
  }

  /** Each step of the encrypted system is the same step of the plain channel. */
  lemma StepRefines(env: Env, sys: System, a: Action)
    requires SystemInv(env, sys)
    ensures Takes(env, sys, a) ==> Abstract(env, sys).waiting != []
    ensures Abstract(env, Next(env, sys, a)) == FifoNext(env, sys, a, Abstract(env, sys))
  {
    var next, n := Next(env, sys, a), |sys.session.handled|;
    NextInv(env, sys, a);
    AbstractIsSaid(env, sys);
    AbstractIsSaid(env, next);
    NextEnds(env, sys, a);
    if next.said != sys.said {
      SayRefines(sys.said, n, a.m);
    } else if Takes(env, sys, a) {
      TakeRefines(sys.said, n);
    }
  }

  /**
    In every interleaving of client, link, receiver, packet handler and timer,
    no step ends the program, the handled requests are exactly the first messages
    the client said, and what is queued and what the encrypted bytes on their way
    hold are exactly the others, in order.
  */
  lemma SessionIsFifo(env: Env, uid: nat, ep: Endpoint, now: nat, actions: seq<Action>)
    ensures var sys := Run(env, Start(uid, ep, now), actions);
            var s, f := sys.session, Abstract(env, sys);
            && s.fault == NoFault
            && f.taken == Copies(Requests(s.handled))
            && f.taken + f.waiting == Plain(sys.said)
            && |s.handled| <= |sys.said|
            && (forall i :: 0 <= i < |s.handled| ==> IsCopy(s.handled[i].request, sys.said[i]))
            && |sys.said| == |s.handled| + |s.queue| + (if s.inHand.Some? then 1 else 0) + |s.inbox| + |sys.wire|
  {
    var sys := Run(env, Start(uid, ep, now), actions);
    StartInv(env, uid, ep, now);
    RunInv(env, Start(uid, ep, now), actions);
    HandledIsPrefix(env, sys);
    AbstractIsSaid(env, sys);
    PlainSplit(sys.said, |sys.session.handled|);
  }

  lemma PlainSplit(said: seq<Message>, n: nat)
    requires n <= |said|
    ensures Plain(said[..n]) + Plain(said[n..]) == Plain(said)
  {
  }

  /** From any point of any run, whatever happens next is one step of the plain channel, or none. */
  lemma EveryStepRefines(env: Env, uid: nat, ep: Endpoint, now: nat, actions: seq<Action>, a: Action)
    ensures var sys := Run(env, Start(uid, ep, now), actions);
            && (Takes(env, sys, a) ==> Abstract(env, sys).waiting != [])
            && Abstract(env, Next(env, sys, a)) == FifoNext(env, sys, a, Abstract(env, sys))
  {
    StartInv(env, uid, ep, now);
    RunInv(env, Start(uid, ep, now), actions);
    StepRefines(env, Run(env, Start(uid, ep, now), actions), a);
  }
}
