/** Properties of whole runs of the server, whatever its threads and peers do. */
module RunLaws {
  import opened Bytes
  import opened Frames
  import opened Sessions
  import opened SessionLaws
  import opened Servers
  import opened ServerLaws
  import opened Transcripts
  import Handshakes

  lemma InitialInv(env: Env)
    ensures ServerInv(env, INITIAL)
  {
  }

  lemma FromStart(env: Env, events: seq<Event>)
    ensures ServerInv(env, Run(env, INITIAL, events))
  {
    InitialInv(env);
    RunInv(env, INITIAL, events);
  }

  /** No key ever has two live sessions, and the registry is exactly the live sessions. */
  lemma RegistryInEveryRun(env: Env, events: seq<Event>)
    ensures var sv := Run(env, INITIAL, events);
            && (forall key :: key in sv.clients ==>
                  && sv.clients[key] < |sv.sessions|
                  && var s := sv.sessions[sv.clients[key]];
                     s.state == Connected && s.id.created && s.id.key == key == RouteKey(s.id.endpoint))
            && (forall u :: 0 <= u < |sv.sessions| && sv.sessions[u].state == Connected ==>
                  sv.sessions[u].id.key in sv.clients && sv.clients[sv.sessions[u].id.key] == u)
  {
    FromStart(env, events);
    var sv := Run(env, INITIAL, events);
    forall key | key in sv.clients
      ensures sv.clients[key] < |sv.sessions|
      ensures var s := sv.sessions[sv.clients[key]];
              s.state == Connected && s.id.created && s.id.key == key == RouteKey(s.id.endpoint)
    {
      assert Registered(sv.clients, Labels(sv.sessions), key);
      assert Sound(env, sv.sessions[sv.clients[key]], sv.clock);
    }
    forall u | 0 <= u < |sv.sessions| && sv.sessions[u].state == Connected
      ensures sv.sessions[u].id.key in sv.clients && sv.clients[sv.sessions[u].id.key] == u
    {
      assert Accounted(sv.clients, Labels(sv.sessions), u);
    }
  }

  /** The key is absent or the derived one; outside a token request the flag says which. */
  lemma KeysInEveryRun(env: Env, events: seq<Event>, uid: nat)
    requires uid < |Run(env, INITIAL, events).sessions|
    ensures var s := Run(env, INITIAL, events).sessions[uid];
            && (s.mtKey == [] || s.mtKey == env.SessionKey())
            && (s.pc.Idle? ==> (s.useMT <==> |s.mtKey| == 4096))
            && (s.useMT <==> HasToken(Requests(Begun(s.fault, s.handled))))
  {
    FromStart(env, events);
    assert Sound(env, Run(env, INITIAL, events).sessions[uid], Run(env, INITIAL, events).clock);
  }

  /** Packets are handled in the order they were queued, and none is lost or made up. */
  lemma QueueInEveryRun(env: Env, events: seq<Event>, uid: nat)
    requires uid < |Run(env, INITIAL, events).sessions|
    ensures var s := Run(env, INITIAL, events).sessions[uid];
            && s.enqueued == Requests(s.handled) + Reverse(s.queue)
            && s.id.replies == [Handshakes.Reply(s.id.conv, s.id.token)]
            && s.id.conv == s.id.answeredAt % U32
            && s.id.token == XorBits(0xFFCCEEBB, s.id.answeredAt / U32 % U32, 32)
  {
    FromStart(env, events);
    assert Sound(env, Run(env, INITIAL, events).sessions[uid], Run(env, INITIAL, events).clock);
  }

  /**
    The handler ends the program exactly in the runs that are not token-first, by
    dividing by zero, and those with a token request whose account uid is no number.
  */
  lemma SendFaultExactly(env: Env, events: seq<Event>, uid: nat)
    requires uid < |Run(env, INITIAL, events).sessions|
    ensures var s := Run(env, INITIAL, events).sessions[uid];
            && (s.fault == EmptyKeyOnSend <==> !TokenFirst(Requests(s.handled)))
            && (s.fault == UidNotANumber <==> !UidsConvert(env, Requests(s.handled)))
            && (s.fault == EmptyKeyOnReceive ==> s.pc.FlagSet? && s.mtKey == [])
  {
    FromStart(env, events);
    assert Sound(env, Run(env, INITIAL, events).sessions[uid], Run(env, INITIAL, events).clock);
  }

  /**
    In every run, at every moment and after every fault, the outbound log is the
    replies of the requests that are settled, which are all handled ones but the
    one in progress or the one that ended the program.
  */
  lemma TranscriptInEveryRun(env: Env, events: seq<Event>, uid: nat)
    requires uid < |Run(env, INITIAL, events).sessions|
    ensures var s := Run(env, INITIAL, events).sessions[uid];
            var settled := Settled(s.fault, s.pc, s.handled);
            var out := Messages(Transcript(settled));
            && |s.sent| == |out|
            && (forall i :: 0 <= i < |out| ==> OpensTo(env, s.sent[i], out[i]))
            && IdsOf(out) == AllReplyIds(Requests(settled))
            && Pongs(out) == Pings(Requests(settled))
  {
    FromStart(env, events);
    var s := Run(env, INITIAL, events).sessions[uid];
    assert Sound(env, s, Run(env, INITIAL, events).clock);
    OutboundLog(env, s);
  }

  // ----- one session over time -----

  /** What never goes back. */
  predicate Evolves(s: Session, t: Session) {
    && t.id == s.id
    && (s.state == Disconnected ==> t.state == Disconnected)
    && (s.useMT ==> t.useMT)
    && (s.mtKey != [] ==> t.mtKey == s.mtKey)
    && s.enqueued <= t.enqueued && s.handled <= t.handled && s.sent <= t.sent
    && s.sources <= t.sources
    && s.lastPacketTime <= t.lastPacketTime
  }

  lemma ReceiveEvolves(s: Session, from: Endpoint, now: nat, delivered: seq<seq<byte>>)
    requires s.state == Connected && s.lastPacketTime <= now
    ensures Evolves(s, Receive(s, from, now, delivered))
  {
  }

  lemma DecryptEvolves(env: Env, s: Session)
    requires s.inHand.Some?
    ensures Evolves(s, Decrypt(env, s))
  {
  }

  lemma HandlerEvolves(env: Env, s: Session, stamps: Stamps)
    requires SessionInv(env, s)
    ensures Evolves(s, HandlerStep(env, s, stamps))
  {
    HandlerKeeps(env, s, stamps);
  }

  lemma TickEvolves(s: Session, now: nat)
    ensures Evolves(s, Tick(s, now))
  {
  }

  /** An event that brings a datagram for a registry key. */
  predicate Reaches(sv: Server, e: Event, key: u32) {
    e.Arrive? && Enabled(sv, e) && RouteKey(e.from) == key
  }

  /** What an event makes of one session. */
  function After(env: Env, sv: Server, e: Event, uid: nat): Session
    requires uid < |sv.sessions|
  {
    var s := sv.sessions[uid];
    match e
    case Arrive(from, _, delivered) =>
      if s.state == Connected && Reaches(sv, e, s.id.key) then Receive(s, from, sv.clock, delivered) else s
    case Decrypted(u) => if u == uid && Enabled(sv, e) then Decrypt(env, s) else s
    case Handle(u, stamps) => if u == uid && Enabled(sv, e) then HandlerStep(env, s, stamps) else s
    case Background(u) => if u == uid && Enabled(sv, e) then Tick(s, sv.clock) else s
    case Wait(_) => s
  }

  lemma ArriveAfter(env: Env, sv: Server, from: Endpoint, datagram: seq<byte>, delivered: seq<seq<byte>>, uid: nat)
    requires ServerInv(env, sv) && uid < |sv.sessions|
    ensures var e := Arrive(from, datagram, delivered);
            uid < |Step(env, sv, e).sessions| && Step(env, sv, e).sessions[uid] == After(env, sv, e, uid)
  {
    assert Accounted(sv.clients, Labels(sv.sessions), uid);
    if RouteKey(from) in sv.clients {
      assert Registered(sv.clients, Labels(sv.sessions), RouteKey(from));
    }
  }

  lemma StepAfter(env: Env, sv: Server, e: Event, uid: nat)
    requires ServerInv(env, sv) && uid < |sv.sessions|
    ensures uid < |Step(env, sv, e).sessions| && Step(env, sv, e).sessions[uid] == After(env, sv, e, uid)
  {
    match e
    case Arrive(from, datagram, delivered) => ArriveAfter(env, sv, from, datagram, delivered, uid);
    case _ =>
  }

  lemma StepEvolves(env: Env, sv: Server, e: Event, uid: nat)
    requires ServerInv(env, sv) && uid < |sv.sessions|
    ensures uid < |Step(env, sv, e).sessions| && Evolves(sv.sessions[uid], Step(env, sv, e).sessions[uid])
  {
    var s, t := sv.sessions[uid], After(env, sv, e, uid);
    StepAfter(env, sv, e, uid);
    assert Sound(env, s, sv.clock);
    if t != s {
      match e
      case Arrive(from, _, delivered) => ReceiveEvolves(s, from, sv.clock, delivered);
      case Decrypted(_) => DecryptEvolves(env, s);
      case Handle(_, stamps) => HandlerEvolves(env, s, stamps);
      case Background(_) => TickEvolves(s, sv.clock);
      case Wait(_) =>
    }
  }

  lemma EvolvesTransitive(r: Session, s: Session, t: Session)
    requires Evolves(r, s) && Evolves(s, t)
    ensures Evolves(r, t)
  {
  }

  /**
    From any point of any run onwards a session keeps its identity (with conv,
    token and its single handshake reply), its key flag and its key, and only
    adds to what it has received, handled and sent.
  */
  lemma {:induction false} RunEvolves(env: Env, sv: Server, events: seq<Event>, uid: nat)
    requires ServerInv(env, sv) && uid < |sv.sessions|
    ensures uid < |Run(env, sv, events).sessions| && Evolves(sv.sessions[uid], Run(env, sv, events).sessions[uid])
    decreases |events|
  {
    if events != [] {
      var next := Step(env, sv, events[0]);
      StepInv(env, sv, events[0]);
      StepEvolves(env, sv, events[0], uid);
      RunEvolves(env, next, events[1..], uid);
      EvolvesTransitive(sv.sessions[uid], next.sessions[uid], Run(env, next, events[1..]).sessions[uid]);
    }
  }

  // ----- routing -----

  predicate AllFrom(events: seq<Event>, endpoints: set<Endpoint>) {
    forall i :: 0 <= i < |events| && events[i].Arrive? ==> events[i].from in endpoints
  }

  /** Every session has only heard from the endpoint that opened it. */
  predicate OwnFed(sv: Server, endpoints: set<Endpoint>) {
    forall uid :: 0 <= uid < |sv.sessions| ==>
      sv.sessions[uid].id.endpoint in endpoints && sv.sessions[uid].sources == {sv.sessions[uid].id.endpoint}
  }

  ghost predicate KeysDiffer(endpoints: set<Endpoint>) {
    forall a, b :: a in endpoints && b in endpoints && RouteKey(a) == RouteKey(b) ==> a == b
  }

  lemma StepOwnFed(env: Env, sv: Server, e: Event, endpoints: set<Endpoint>)
    requires ServerInv(env, sv) && OwnFed(sv, endpoints) && KeysDiffer(endpoints)
    requires e.Arrive? ==> e.from in endpoints
    ensures OwnFed(Step(env, sv, e), endpoints)
  {
    var sv' := Step(env, sv, e);
    forall uid | 0 <= uid < |sv'.sessions|
      ensures sv'.sessions[uid].id.endpoint in endpoints && sv'.sessions[uid].sources == {sv'.sessions[uid].id.endpoint}
    {
      if uid < |sv.sessions| {
        StepSources(env, sv, e, uid);
        KeyOfSession(env, sv, uid);
      } else {
        NewSession(env, sv, e, uid);
      }
    }
  }

  /** A session a step adds is opened by the endpoint of the event. */
  lemma NewSession(env: Env, sv: Server, e: Event, uid: nat)
    requires |sv.sessions| <= uid < |Step(env, sv, e).sessions|
    ensures e.Arrive? && Step(env, sv, e).sessions[uid] == Open(uid, e.from, sv.clock)
  {
  }

  /** What an event may add to the sources of a session: an endpoint of the session's key. */
  predicate HearsOwnKey(s: Session, t: Session, e: Event) {
    && t.id == s.id
    && (t.sources == s.sources
        || (e.Arrive? && RouteKey(e.from) == s.id.key && t.sources == s.sources + {e.from}))
  }

  lemma DecryptSources(env: Env, s: Session)
    requires s.inHand.Some?
    ensures Decrypt(env, s).id == s.id && Decrypt(env, s).sources == s.sources
  {
  }

  lemma StepSources(env: Env, sv: Server, e: Event, uid: nat)
    requires ServerInv(env, sv) && uid < |sv.sessions|
    ensures uid < |Step(env, sv, e).sessions| && HearsOwnKey(sv.sessions[uid], Step(env, sv, e).sessions[uid], e)
  {
    var s := sv.sessions[uid];
    StepAfter(env, sv, e, uid);
    if After(env, sv, e, uid) != s {
      match e
      case Arrive(_, _, _) =>
      case Decrypted(_) => DecryptSources(env, s);
      case Handle(_, stamps) => HandlerKeeps(env, s, stamps);
      case Background(_) =>
      case Wait(_) =>
    }
  }

  lemma KeyOfSession(env: Env, sv: Server, uid: nat)
    requires ServerInv(env, sv) && uid < |sv.sessions|
    ensures sv.sessions[uid].id.key == RouteKey(sv.sessions[uid].id.endpoint)
  {
    assert Sound(env, sv.sessions[uid], sv.clock);
  }

  lemma {:induction false} RunOwnFed(env: Env, sv: Server, events: seq<Event>, endpoints: set<Endpoint>)
    requires ServerInv(env, sv) && OwnFed(sv, endpoints) && KeysDiffer(endpoints) && AllFrom(events, endpoints)
    ensures OwnFed(Run(env, sv, events), endpoints)
    decreases |events|
  {
    if events != [] {
      StepInv(env, sv, events[0]);
      StepOwnFed(env, sv, events[0], endpoints);
      RunOwnFed(env, Step(env, sv, events[0]), events[1..], endpoints);
    }
  }

  const CONNECT := Handshakes.WordsBytes(Handshakes.Words(Handshakes.CONNECT_1, 0, 0, 0, Handshakes.CONNECT_2))

  lemma ConnectAccepted()
    ensures Handshakes.Connects(CONNECT)
  {
    Handshakes.WordsRoundTrip(Handshakes.Words(Handshakes.CONNECT_1, 0, 0, 0, Handshakes.CONNECT_2), []);
    assert CONNECT + [] == CONNECT;
  }

  /** Two endpoints with one key: the second one's datagram goes to the first one's session. */
  lemma Misrouted(env: Env, a: Endpoint, b: Endpoint, connect: seq<byte>)
    requires a != b && RouteKey(a) == RouteKey(b) && Handshakes.Connects(connect)
    ensures var sv := Run(env, INITIAL, [Arrive(a, connect, []), Arrive(b, [], [])]);
            |sv.sessions| == 1 && sv.sessions[0].id.endpoint == a && b in sv.sessions[0].sources
  {
    var first, second := Arrive(a, connect, []), Arrive(b, [], []);
    var sv1 := Step(env, INITIAL, first);
    assert sv1 == Server([Open(0, a, 0)], map[RouteKey(a) := 0], 0);
    JoinedStep(env, Open(0, a, 0), b);
    RunTwo(env, INITIAL, first, second);
  }

  lemma RunTwo(env: Env, sv: Server, first: Event, second: Event)
    ensures Run(env, sv, [first, second]) == Step(env, Step(env, sv, first), second)
  {
    var sv1 := Step(env, sv, first);
    assert [first, second][1..] == [second] && [second][1..] == [];
    assert Run(env, sv, [first, second]) == Run(env, sv1, [second]);
    assert Run(env, sv1, [second]) == Run(env, Step(env, sv1, second), []);
  }

  lemma JoinedStep(env: Env, s: Session, b: Endpoint)
    requires Runs(s) && s.inHand.None?
    ensures Step(env, Server([s], map[RouteKey(b) := 0], 0), Arrive(b, [], [])).sessions == [Receive(s, b, 0, [])]
  {
  }

  lemma RoutedHome(env: Env, endpoints: set<Endpoint>, events: seq<Event>)
    requires KeysDiffer(endpoints) && AllFrom(events, endpoints)
    ensures OwnFed(Run(env, INITIAL, events), endpoints)
  {
    InitialInv(env);
    RunOwnFed(env, INITIAL, events, endpoints);
  }

  lemma SomeMisrouted(env: Env, endpoints: set<Endpoint>) returns (events: seq<Event>)
    requires !KeysDiffer(endpoints)
    ensures AllFrom(events, endpoints) && !OwnFed(Run(env, INITIAL, events), endpoints)
  {
    var a, b :| a in endpoints && b in endpoints && RouteKey(a) == RouteKey(b) && a != b;
    ConnectAccepted();
    Misrouted(env, a, b, CONNECT);
    events := [Arrive(a, CONNECT, []), Arrive(b, [], [])];
    var s := Run(env, INITIAL, events).sessions[0];
    assert s.id.endpoint == a && b in s.sources;
  }

  /** Every run over a set of endpoints routes each datagram home, if and only if no two of them share a key. */
  lemma RoutingExactly(env: Env, endpoints: set<Endpoint>)
    ensures KeysDiffer(endpoints) <==>
            forall events: seq<Event> :: AllFrom(events, endpoints) ==> OwnFed(Run(env, INITIAL, events), endpoints)
  {
    if KeysDiffer(endpoints) {
      forall events: seq<Event> | AllFrom(events, endpoints)
        ensures OwnFed(Run(env, INITIAL, events), endpoints)
      {
        RoutedHome(env, endpoints, events);
      }
    } else {
      var events := SomeMisrouted(env, endpoints);
    }
  }

  /** The shorter way round between two addresses. */
  function CyclicDistance(x: u32, y: u32): nat {
    var d := (x - y) % 0x1_0000_0000;
    if d <= 0x8000_0000 then d else 0x1_0000_0000 - d
  }

  lemma SameKeyExactly(a: Endpoint, b: Endpoint)
    ensures RouteKey(a) == RouteKey(b) <==> (a.ip - b.ip + a.port - b.port) % U32 == 0
  {
  }

  lemma Remainder(x: nat)
    requires x < 0x2_0000_0000
    ensures x % 0x1_0000_0000 == if x < 0x1_0000_0000 then x else x - 0x1_0000_0000
  {
  }

  lemma Difference(x: u32, y: u32)
    ensures (x - y) % 0x1_0000_0000 == if x < y then x - y + 0x1_0000_0000 else x - y
  {
  }

  /** Endpoints with one key are less than 65536 addresses apart; at one address they are one. */
  lemma CloseAddresses(a: Endpoint, b: Endpoint)
    requires RouteKey(a) == RouteKey(b)
    ensures CyclicDistance(a.ip, b.ip) < 0x1_0000 && (a.ip == b.ip ==> a.port == b.port)
  {
    Remainder(a.ip + a.port);
    Remainder(b.ip + b.port);
    Difference(a.ip, b.ip);
  }

  /** Addresses at least 65536 apart, the wrap-around included, can never collide. */
  lemma SpacedKeysDiffer(endpoints: set<Endpoint>)
    requires forall a, b :: a in endpoints && b in endpoints && a.ip != b.ip ==> CyclicDistance(a.ip, b.ip) >= 0x1_0000
    ensures KeysDiffer(endpoints)
  {
    forall a, b | a in endpoints && b in endpoints && RouteKey(a) == RouteKey(b)
      ensures a == b
    {
      CloseAddresses(a, b);
    }
  }

  // ----- idle time -----

  /** When, in a run, the last datagram for a key came in; `last` if none does. */
  function LastHeard(env: Env, sv: Server, events: seq<Event>, key: u32, last: nat): nat
    decreases |events|
  {
    if events == [] then last
    else
      var last := if Reaches(sv, events[0], key) then sv.clock else last;
      LastHeard(env, Step(env, sv, events[0]), events[1..], key, last)
  }

  /** At no moment of the run is the last datagram for the key more than 20 seconds old. */
  predicate Punctual(env: Env, sv: Server, events: seq<Event>, key: u32, last: nat)
    decreases |events|
  {
    sv.clock - last <= 20 &&
    (events != [] ==>
       var last := if Reaches(sv, events[0], key) then sv.clock else last;
       Punctual(env, Step(env, sv, events[0]), events[1..], key, last))
  }

  lemma StepHeard(env: Env, sv: Server, e: Event, uid: nat)
    requires ServerInv(env, sv) && uid < |sv.sessions| && sv.sessions[uid].state == Connected
    ensures uid < |Step(env, sv, e).sessions|
    ensures var s, t := sv.sessions[uid], Step(env, sv, e).sessions[uid];
            && t.id == s.id
            && t.lastPacketTime == (if Reaches(sv, e, s.id.key) then sv.clock else s.lastPacketTime)
            && (t.state == Connected || (e == Background(uid) && sv.clock - s.lastPacketTime > IDLE_SECONDS))
  {
    var s := sv.sessions[uid];
    StepAfter(env, sv, e, uid);
    if After(env, sv, e, uid) != s {
      match e
      case Arrive(from, _, delivered) => ReceiveHeard(s, from, sv.clock, delivered);
      case Decrypted(_) => DecryptHeard(env, s);
      case Handle(_, stamps) => HandlerKeeps(env, s, stamps);
      case Background(_) =>
      case Wait(_) =>
    }
  }

  lemma ReceiveHeard(s: Session, from: Endpoint, now: nat, delivered: seq<seq<byte>>)
    requires s.state == Connected
    ensures var t := Receive(s, from, now, delivered);
            t.id == s.id && t.lastPacketTime == now && t.state == Connected
  {
  }

  lemma DecryptHeard(env: Env, s: Session)
    requires s.inHand.Some?
    ensures var t := Decrypt(env, s);
            t.id == s.id && t.lastPacketTime == s.lastPacketTime && t.state == s.state
  {
  }

  lemma {:induction false} RunHeard(env: Env, sv: Server, events: seq<Event>, uid: nat)
    requires ServerInv(env, sv) && uid < |sv.sessions| && sv.sessions[uid].state == Connected
    ensures uid < |Run(env, sv, events).sessions|
    ensures var s, t := sv.sessions[uid], Run(env, sv, events).sessions[uid];
            && t.id == s.id
            && (t.state == Connected ==> t.lastPacketTime == LastHeard(env, sv, events, s.id.key, s.lastPacketTime))
            && (Punctual(env, sv, events, s.id.key, s.lastPacketTime) ==> t.state == Connected)
    decreases |events|
  {
    if events != [] {
      var next := Step(env, sv, events[0]);
      StepInv(env, sv, events[0]);
      StepHeard(env, sv, events[0], uid);
      if next.sessions[uid].state == Connected {
        RunHeard(env, next, events[1..], uid);
      } else {
        RunEvolves(env, next, events[1..], uid);
      }
    }
  }

  /** The background thread releases a session exactly when its last datagram is more than 20 seconds old. */
  lemma ReleasedExactlyWhenIdle(env: Env, sv: Server, events: seq<Event>, uid: nat)
    requires ServerInv(env, sv) && uid < |sv.sessions| && sv.sessions[uid].state == Connected
    requires Live(Run(env, sv, events), uid)
    ensures var end, key := Run(env, sv, events), sv.sessions[uid].id.key;
            var idle := end.clock - LastHeard(env, sv, events, key, sv.sessions[uid].lastPacketTime);
            var after := Step(env, end, Background(uid));
            && (after.sessions[uid].state == Disconnected <==> idle > 20)
            && after.clients == (if idle > 20 then map k | k in end.clients && end.clients[k] != uid :: end.clients[k]
                                 else end.clients)
  {
    RunInv(env, sv, events);
    RunHeard(env, sv, events, uid);
    RetireInv(env, Run(env, sv, events), uid);
  }

  // ----- since the handshake -----

  /** A session a step opens is stamped, numbered and answered by the clock of that very event. */
  lemma OpenedNow(env: Env, sv: Server, e: Event)
    requires |Step(env, sv, e).sessions| > |sv.sessions|
    ensures e.Arrive? && (e.from.ip + e.from.port) % 0x1_0000_0000 !in sv.clients
    ensures var after := Step(env, sv, e);
            var s := after.sessions[|sv.sessions|];
            var conv := sv.clock % 0x1_0000_0000;
            var token := XorBits(0xFFCCEEBB, sv.clock / 0x1_0000_0000 % 0x1_0000_0000, 32);
            && |after.sessions| == |sv.sessions| + 1
            && s.state == Connected && s.lastPacketTime == s.id.answeredAt == sv.clock
            && s.id.endpoint == e.from && s.id.key == (e.from.ip + e.from.port) % 0x1_0000_0000
            && s.id.conv == conv && s.id.token == token
            && s.id.replies == [BigEndian(0x145, 4) + BigEndian(conv, 4) + BigEndian(token, 4)
                                + BigEndian(1234567890, 4) + BigEndian(0x14514545, 4)]
            && s.inbox == [] && s.queue == [] && s.enqueued == [] && s.handled == [] && s.sent == []
            && !s.useMT && s.mtKey == [] && s.fault == NoFault && s.pc.Idle? && s.inHand.None?
            && after.clients == sv.clients[s.id.key := |sv.sessions|]
  {
    NewSession(env, sv, e, |sv.sessions|);
  }

  /** After this run of the server, the datagram opens a session for the endpoint. */
  predicate Greets(env: Env, earlier: seq<Event>, from: Endpoint, datagram: seq<byte>) {
    RouteKey(from) !in Run(env, INITIAL, earlier).clients && Handshakes.Connects(datagram)
  }

  function NextUid(env: Env, earlier: seq<Event>): nat {
    |Run(env, INITIAL, earlier).sessions|
  }

  /** The server after it. */
  function Greeted(env: Env, earlier: seq<Event>, from: Endpoint, datagram: seq<byte>): Server {
    Step(env, Run(env, INITIAL, earlier), Arrive(from, datagram, []))
  }

  lemma GreetedInv(env: Env, earlier: seq<Event>, from: Endpoint, datagram: seq<byte>)
    requires Greets(env, earlier, from, datagram)
    ensures var sv, greeted := Run(env, INITIAL, earlier), Greeted(env, earlier, from, datagram);
            && ServerInv(env, greeted) && |greeted.sessions| == |sv.sessions| + 1
            && var s := greeted.sessions[|sv.sessions|];
               s.state == Connected && s.id.key == RouteKey(from) && s.lastPacketTime == sv.clock
  {
    FromStart(env, earlier);
    StepInv(env, Run(env, INITIAL, earlier), Arrive(from, datagram, []));
  }

  /**
    After any run from its handshake a session is released if and only if more than
    20 seconds have passed since the handshake or the last datagram after it.
  */
  lemma ReleasedSinceHandshake(env: Env, earlier: seq<Event>, from: Endpoint, datagram: seq<byte>, events: seq<Event>)
    requires Greets(env, earlier, from, datagram)
    requires Live(Run(env, Greeted(env, earlier, from, datagram), events), NextUid(env, earlier))
    ensures var sv, greeted := Run(env, INITIAL, earlier), Greeted(env, earlier, from, datagram);
            var uid, end := |sv.sessions|, Run(env, greeted, events);
            var idle := end.clock - LastHeard(env, greeted, events, RouteKey(from), sv.clock);
            var after := Step(env, end, Background(uid));
            && (after.sessions[uid].state == Disconnected <==> idle > 20)
            && after.clients == (if idle > 20 then map k | k in end.clients && end.clients[k] != uid :: end.clients[k]
                                 else end.clients)
  {
    GreetedInv(env, earlier, from, datagram);
    ReleasedExactlyWhenIdle(env, Greeted(env, earlier, from, datagram), events, NextUid(env, earlier));
  }

  /** The step that releases a session comes more than 20 seconds after the last datagram for its key. */
  lemma {:induction false} FirstRelease(env: Env, sv: Server, events: seq<Event>, uid: nat) returns (k: nat)
    requires ServerInv(env, sv) && uid < |sv.sessions| && sv.sessions[uid].state == Connected
    requires uid < |Run(env, sv, events).sessions| && Run(env, sv, events).sessions[uid].state == Disconnected
    ensures k < |events| && events[k] == Background(uid)
    ensures var end := Run(env, sv, events[..k]);
            end.clock - LastHeard(env, sv, events[..k], sv.sessions[uid].id.key, sv.sessions[uid].lastPacketTime) > 20
    decreases |events|
  {
    var next := Step(env, sv, events[0]);
    StepInv(env, sv, events[0]);
    StepHeard(env, sv, events[0], uid);
    if next.sessions[uid].state == Connected {
      var rest := FirstRelease(env, next, events[1..], uid);
      k := rest + 1;
      assert events[..k][1..] == events[1..][..rest] && events[..k][0] == events[0];
    } else {
      k := 0;
      assert events[..0] == [];
    }
  }

  lemma FirstReleaseSinceHandshake(env: Env, earlier: seq<Event>, from: Endpoint, datagram: seq<byte>,
                                   events: seq<Event>)
    returns (k: nat)
    requires Greets(env, earlier, from, datagram)
    requires var uid, end := NextUid(env, earlier), Run(env, Greeted(env, earlier, from, datagram), events);
             uid < |end.sessions| && end.sessions[uid].state == Disconnected
    ensures k < |events| && events[k] == Background(NextUid(env, earlier))
    ensures var sv, greeted := Run(env, INITIAL, earlier), Greeted(env, earlier, from, datagram);
            Run(env, greeted, events[..k]).clock
            - LastHeard(env, greeted, events[..k], RouteKey(from), sv.clock) > 20
  {
    GreetedInv(env, earlier, from, datagram);
    k := FirstRelease(env, Greeted(env, earlier, from, datagram), events, NextUid(env, earlier));
  }

  /** A peer whose datagrams are never more than 20 seconds apart keeps its session through any run. */
  lemma PunctualNeverReleased(env: Env, sv: Server, events: seq<Event>, uid: nat)
    requires ServerInv(env, sv) && uid < |sv.sessions| && sv.sessions[uid].state == Connected
    requires Punctual(env, sv, events, sv.sessions[uid].id.key, sv.sessions[uid].lastPacketTime)
    ensures var end := Run(env, sv, events);
            uid < |end.sessions| && end.sessions[uid].state == Connected
            && sv.sessions[uid].id.key in end.clients && end.clients[sv.sessions[uid].id.key] == uid
  {
    RunInv(env, sv, events);
    RunHeard(env, sv, events, uid);
    assert Accounted(Run(env, sv, events).clients, Labels(Run(env, sv, events).sessions), uid);
  }

  lemma PunctualSinceHandshake(env: Env, earlier: seq<Event>, from: Endpoint, datagram: seq<byte>, events: seq<Event>)
    requires Greets(env, earlier, from, datagram)
    requires var clock := Run(env, INITIAL, earlier).clock;
             Punctual(env, Greeted(env, earlier, from, datagram), events, RouteKey(from), clock)
    ensures var uid, end := NextUid(env, earlier), Run(env, Greeted(env, earlier, from, datagram), events);
            && uid < |end.sessions| && end.sessions[uid].state == Connected
            && RouteKey(from) in end.clients && end.clients[RouteKey(from)] == uid
  {
    GreetedInv(env, earlier, from, datagram);
    PunctualNeverReleased(env, Greeted(env, earlier, from, datagram), events, NextUid(env, earlier));
  }
}
