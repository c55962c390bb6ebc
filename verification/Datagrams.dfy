/** What one datagram can do to the server, told from its bytes. */
module Datagrams {
  import opened Bytes
  import opened Wrappers
  import opened Crypto
  import opened Frames
  import opened Protobuf
  import opened Sessions
  import opened Servers
  import opened ServerLaws
  import opened RunLaws
  import opened Faults
  import Handshakes

  /** The bytes are as long as they say themselves, at offsets 4 and 6. */
  predicate IsFrame(s: seq<byte>) {
    |s| >= 10 && |s| >= 12 + BigValue(s[4..6]) + BigValue(s[6..10])
  }

  /** The data of a frame is what lies between its head and its last two bytes. */
  lemma FrameParts(s: seq<byte>)
    ensures Parse(s).Some? <==> IsFrame(s)
    ensures IsFrame(s) ==>
              var m, d := BigValue(s[4..6]), BigValue(s[6..10]);
              && Parse(s).value.magicStart == BigValue(s[0..2]) && Parse(s).value.id == BigValue(s[2..4])
              && Parse(s).value.metadataSize == m && Parse(s).value.dataSize == d
              && Parse(s).value.head == ParseHead(s[10..10 + m]) && Parse(s).value.data == s[10 + m..10 + m + d]
              && Parse(s).value.magicEnd == BigValue(s[10 + m + d..12 + m + d])
  {
    ParseExactness(s, []);
  }

  function KeyOf(env: Env, s: Session): seq<byte> {
    if s.useMT then s.mtKey else env.dispatchKey
  }

  /** What has changed between two servers is, at most, the session of this uid. */
  predicate OnlySession(before: Server, after: Server, uid: nat) {
    && after.clients == before.clients && after.clock == before.clock
    && |after.sessions| == |before.sessions|
    && forall v :: 0 <= v < |before.sessions| && v != uid ==> after.sessions[v] == before.sessions[v]
  }

  /** The queue of a session after the bytes have come out of Xor as `plain`. */
  predicate QueuedExactly(s: Session, t: Session, plain: seq<byte>) {
    && (t.queue == s.queue <==> !IsFrame(plain))
    && (t.enqueued == s.enqueued <==> !IsFrame(plain))
    && (IsFrame(plain) ==>
          |t.queue| == |s.queue| + 1 && t.queue[1..] == s.queue && t.enqueued == s.enqueued + [t.queue[0]])
    && (IsFrame(plain) ==>
          var m, d := BigValue(plain[4..6]), BigValue(plain[6..10]);
          t.queue[0].id == BigValue(plain[2..4]) && t.queue[0].data == plain[10 + m..10 + m + d])
    && t.handled == s.handled && t.sent == s.sent && t.useMT == s.useMT && t.mtKey == s.mtKey && t.id == s.id
  }

  lemma DecryptExactly(env: Env, s: Session)
    requires s.inHand.Some? && KeyOf(env, s) != []
    ensures QueuedExactly(s, Decrypt(env, s), XorBytes(s.inHand.value, KeyOf(env, s)))
  {
    var plain := XorBytes(s.inHand.value, KeyOf(env, s));
    FrameParts(plain);
    if IsFrame(plain) {
      assert ([Parse(plain).value] + s.queue)[1..] == s.queue;
    }
  }

  /** The message Recv hands out once these messages have been delivered. */
  function HandedOut(s: Session, delivered: seq<seq<byte>>): seq<byte> {
    var message := Oldest(s, delivered);
    if |message| > 65534 then [] else message
  }

  lemma ReceiveHands(s: Session, from: Endpoint, now: nat, delivered: seq<seq<byte>>)
    requires Runs(s) && s.inHand.None?
    ensures var t, message := Receive(s, from, now, delivered), HandedOut(s, delivered);
            && t.inHand == (if message == [] then None else Some(message))
            && t.queue == s.queue && t.enqueued == s.enqueued && t.handled == s.handled && t.sent == s.sent
            && t.useMT == s.useMT && t.mtKey == s.mtKey && t.id == s.id && t.state == s.state
            && (message != [] ==> t.fault == NoFault)
  {
  }

  /** A session after a datagram: received, and decrypted when there is something in hand. */
  function Served(env: Env, s: Session, from: Endpoint, now: nat, delivered: seq<seq<byte>>): Session {
    var t := Receive(s, from, now, delivered);
    if t.inHand.Some? && Runs(t) then Decrypt(env, t) else t
  }

  lemma ServedExactly(env: Env, s: Session, from: Endpoint, now: nat, delivered: seq<seq<byte>>)
    requires Runs(s) && s.inHand.None? && KeyOf(env, s) != []
    ensures QueuedExactly(s, Served(env, s, from, now, delivered), XorBytes(HandedOut(s, delivered), KeyOf(env, s)))
  {
    var t, u := Receive(s, from, now, delivered), Served(env, s, from, now, delivered);
    var plain := XorBytes(HandedOut(s, delivered), KeyOf(env, s));
    ReceiveHands(s, from, now, delivered);
    if t.inHand.Some? {
      DecryptExactly(env, t);
    }
    QueuedSince(s, t, u, plain);
  }

  /** Receiving, as far as the queue and the handler are concerned, is nothing yet. */
  lemma QueuedSince(s: Session, t: Session, u: Session, plain: seq<byte>)
    requires t.queue == s.queue && t.enqueued == s.enqueued && t.handled == s.handled && t.sent == s.sent
    requires t.useMT == s.useMT && t.mtKey == s.mtKey && t.id == s.id
    requires QueuedExactly(t, u, plain) || (u == t && plain == [])
    ensures QueuedExactly(s, u, plain)
  {
  }

  lemma DatagramServes(env: Env, sv: Server, from: Endpoint, datagram: seq<byte>, delivered: seq<seq<byte>>)
    requires Enabled(sv, Arrive(from, datagram, delivered)) && RouteKey(from) in sv.clients
    ensures var uid := sv.clients[RouteKey(from)];
            Run(env, sv, [Arrive(from, datagram, delivered), Decrypted(uid)]) ==
            sv.(sessions := sv.sessions[uid := Served(env, sv.sessions[uid], from, sv.clock, delivered)])
  {
    var uid, arrive := sv.clients[RouteKey(from)], Arrive(from, datagram, delivered);
    var t := Receive(sv.sessions[uid], from, sv.clock, delivered);
    var sv1 := Step(env, sv, arrive);
    RunTwo(env, sv, arrive, Decrypted(uid));
    assert sv1 == sv.(sessions := sv.sessions[uid := t]);
  }

  /**
    A datagram for a registered session, receive and decryption together: the
    registry and every other session stay as they are, and so does the queue if
    and only if what the message decrypts to is too short, by its own lengths, to
    be a frame. Otherwise exactly that frame's packet is put at the front.
  */
  lemma DatagramExactly(env: Env, sv: Server, from: Endpoint, datagram: seq<byte>, delivered: seq<seq<byte>>)
    requires Enabled(sv, Arrive(from, datagram, delivered)) && RouteKey(from) in sv.clients
    requires KeyOf(env, sv.sessions[sv.clients[RouteKey(from)]]) != []
    ensures var uid := sv.clients[RouteKey(from)];
            var s, after := sv.sessions[uid], Run(env, sv, [Arrive(from, datagram, delivered), Decrypted(uid)]);
            && OnlySession(sv, after, uid)
            && QueuedExactly(s, after.sessions[uid], XorBytes(HandedOut(s, delivered), KeyOf(env, s)))
  {
    DatagramServes(env, sv, from, datagram, delivered);
    ServedExactly(env, sv.sessions[sv.clients[RouteKey(from)]], from, sv.clock, delivered);
  }

  /** A datagram enters a key into the registry exactly when it is a handshake of an endpoint whose key is free. */
  lemma RegistryGrowsExactly(env: Env, sv: Server, from: Endpoint, datagram: seq<byte>, delivered: seq<seq<byte>>)
    requires Enabled(sv, Arrive(from, datagram, delivered))
    ensures var after := Step(env, sv, Arrive(from, datagram, delivered));
            && (after.clients != sv.clients <==>
                  && RouteKey(from) !in sv.clients && |datagram| >= 20
                  && datagram[0..4] == [0x00, 0x00, 0x00, 0xFF] && datagram[16..20] == [0xFF, 0xFF, 0xFF, 0xFF])
            && (after.clients != sv.clients ==>
                  after.clients == sv.clients[RouteKey(from) := |sv.sessions|] && |after.sessions| == |sv.sessions| + 1)
            && (RouteKey(from) !in sv.clients && after.clients == sv.clients ==> after == sv)
  {
    Handshakes.ConnectsExactly(datagram);
  }

  // ----- a message Recv cannot hand out -----

  /** The oldest message has no bytes, which Recv takes for no message at all, or more than its buffer. */
  predicate Blocked(s: Session) {
    s.inbox != [] && (|s.inbox[0]| == 0 || |s.inbox[0]| > 65534)
  }

  lemma BlockedReceive(s: Session, from: Endpoint, now: nat, delivered: seq<seq<byte>>)
    requires Blocked(s)
    ensures var t := Receive(s, from, now, delivered);
            Blocked(t) && t.inHand.None? && t.enqueued == s.enqueued
  {
  }

  lemma BlockedStep(env: Env, sv: Server, e: Event, uid: nat)
    requires ServerInv(env, sv) && uid < |sv.sessions| && Blocked(sv.sessions[uid]) && sv.sessions[uid].inHand.None?
    ensures uid < |Step(env, sv, e).sessions|
    ensures var s, t := sv.sessions[uid], Step(env, sv, e).sessions[uid];
            Blocked(t) && t.inHand.None? && t.enqueued == s.enqueued
  {
    var s := sv.sessions[uid];
    StepAfter(env, sv, e, uid);
    match e
    case Arrive(from, _, delivered) => BlockedReceive(s, from, sv.clock, delivered);
    case Handle(_, stamps) => HandlerKeeps(env, s, stamps);
    case _ =>
  }

  lemma {:induction false} BlockedRun(env: Env, sv: Server, events: seq<Event>, uid: nat)
    requires ServerInv(env, sv) && uid < |sv.sessions| && Blocked(sv.sessions[uid]) && sv.sessions[uid].inHand.None?
    ensures uid < |Run(env, sv, events).sessions|
    ensures var t := Run(env, sv, events).sessions[uid];
            Blocked(t) && t.inHand.None? && t.enqueued == sv.sessions[uid].enqueued
    decreases |events|
  {
    if events != [] {
      StepInv(env, sv, events[0]);
      BlockedStep(env, sv, events[0], uid);
      BlockedRun(env, Step(env, sv, events[0]), events[1..], uid);
    }
  }

  /** The next datagram of its own endpoint hands a session its oldest message, unless it is blocked. */
  lemma UnblockedReceives(env: Env, sv: Server, uid: nat)
    requires ServerInv(env, sv) && Live(sv, uid) && sv.sessions[uid].inHand.None? && !Blocked(sv.sessions[uid])
    ensures var e := Arrive(sv.sessions[uid].id.endpoint, [], [[0]]);
            uid < |Run(env, sv, [e]).sessions| && Run(env, sv, [e]).sessions[uid].inHand.Some?
  {
    var s := sv.sessions[uid];
    var e := Arrive(s.id.endpoint, [], [[0]]);
    assert Accounted(sv.clients, Labels(sv.sessions), uid);
    KeyOfSession(env, sv, uid);
    StepAfter(env, sv, e, uid);
    ReceiveHands(s, s.id.endpoint, sv.clock, [[0]]);
    assert [e][1..] == [];
    assert Run(env, sv, [e]) == Run(env, Step(env, sv, e), []);
  }

  /**
    A running session receives nothing more, whatever happens, if and only if its
    oldest message is empty or does not fit the receive buffer.
  */
  lemma BlockedExactly(env: Env, sv: Server, uid: nat)
    requires ServerInv(env, sv) && Live(sv, uid) && sv.sessions[uid].inHand.None?
    ensures Blocked(sv.sessions[uid]) <==>
            forall events: seq<Event> :: uid < |Run(env, sv, events).sessions|
              && Run(env, sv, events).sessions[uid].inHand.None?
    ensures Blocked(sv.sessions[uid]) ==>
              forall events: seq<Event> :: uid < |Run(env, sv, events).sessions|
                && Run(env, sv, events).sessions[uid].enqueued == sv.sessions[uid].enqueued
  {
    if Blocked(sv.sessions[uid]) {
      forall events: seq<Event>
        ensures uid < |Run(env, sv, events).sessions| && Run(env, sv, events).sessions[uid].inHand.None?
        ensures Run(env, sv, events).sessions[uid].enqueued == sv.sessions[uid].enqueued
      {
        BlockedRun(env, sv, events, uid);
      }
    } else {
      UnblockedReceives(env, sv, uid);
    }
  }
}
