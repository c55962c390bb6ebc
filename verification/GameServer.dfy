/** The receiving coroutine: datagrams in, registry and packet queues updated. */
module GameServers {
  import opened Bytes
  import opened Wrappers
  import opened Crypto
  import opened Frames
  import opened Sessions
  import opened KcpSessions
  import opened Servers
  import opened SessionLaws
  import opened RunLaws
  import Handshakes

  /** What one datagram does to a registered session, from Input to the queue. */
  function Fed(env: Env, s: Session, from: Endpoint, now: nat, delivered: seq<seq<byte>>): Session {
    var s := Receive(s, from, now, delivered);
    if s.inHand.Some? then Decrypt(env, s) else s
  }

  /** What one datagram does to the server. */
  function Parsed(env: Env, sv: Server, from: Endpoint, datagram: seq<byte>, delivered: seq<seq<byte>>): Server
    requires RouteKey(from) in sv.clients ==> sv.clients[RouteKey(from)] < |sv.sessions|
  {
    var key := RouteKey(from);
    if key in sv.clients then
      var uid := sv.clients[key];
      sv.(sessions := sv.sessions[uid := Fed(env, sv.sessions[uid], from, sv.clock, delivered)])
    else Accept(sv, from, datagram, delivered)
  }

  function Turned(env: Env, sv: Server, uid: nat, stamps: Stamps): Server
    requires uid < |sv.sessions|
  {
    sv.(sessions := sv.sessions[uid := Turn(env, sv.sessions[uid], stamps)])
  }

  /** A datagram processed without interruption is an arrival, and a decryption when a message is in hand. */
  lemma ParsedIsRun(env: Env, sv: Server, from: Endpoint, datagram: seq<byte>, delivered: seq<seq<byte>>)
    requires Enabled(sv, Arrive(from, datagram, delivered))
    ensures var key := RouteKey(from);
            Parsed(env, sv, from, datagram, delivered) ==
            if key in sv.clients then Run(env, sv, [Arrive(from, datagram, delivered), Decrypted(sv.clients[key])])
            else Run(env, sv, [Arrive(from, datagram, delivered)])
  {
    var key, arrive := RouteKey(from), Arrive(from, datagram, delivered);
    var sv1 := Step(env, sv, arrive);
    assert [arrive][1..] == [];
    if key in sv.clients {
      var uid := sv.clients[key];
      var decrypt := Decrypted(uid);
      assert [arrive, decrypt][1..] == [decrypt] && [decrypt][1..] == [];
      assert Run(env, sv, [arrive, decrypt]) == Run(env, sv1, [decrypt]);
      assert Run(env, sv1, [decrypt]) == Run(env, Step(env, sv1, decrypt), []);
      assert sv1.sessions[uid] == Receive(sv.sessions[uid], from, sv.clock, delivered);
    } else {
      assert Run(env, sv, [arrive]) == Run(env, sv1, []);
    }
  }

  /** A turn's first two steps leave the session running when a third is to follow. */
  lemma TurnKeepsRunning(env: Env, s: Session, stamps: Stamps)
    requires Runs(s) && s.pc.Idle? && (s.mtKey == [] || s.mtKey == env.SessionKey())
    requires !HandlerStep(env, s, stamps).pc.Idle?
    ensures var s1 := HandlerStep(env, s, stamps);
            Runs(s1) && Runs(HandlerStep(env, s1, stamps))
  {
    var last := |s.queue| - 1;
    var taken := Handled(s.queue[last], stamps);
    BeginCases(env, s.(queue := s.queue[..last], handled := s.handled + [taken]), taken);
  }

  lemma HandleReplaces(env: Env, sv: Server, uid: nat, s: Session, stamps: Stamps)
    requires uid < |sv.sessions| && Runs(s)
    ensures Step(env, sv.(sessions := sv.sessions[uid := s]), Handle(uid, stamps)) ==
            sv.(sessions := sv.sessions[uid := HandlerStep(env, s, stamps)])
  {
    var sessions := sv.sessions[uid := s];
    assert sessions[uid := HandlerStep(env, s, stamps)] == sv.sessions[uid := HandlerStep(env, s, stamps)];
  }

  lemma RunThrice(env: Env, sv: Server, e: Event)
    ensures Run(env, sv, [e]) == Step(env, sv, e)
    ensures Run(env, sv, [e, e, e]) == Step(env, Step(env, Step(env, sv, e), e), e)
  {
    var sv1 := Step(env, sv, e);
    assert [e][1..] == [] && [e, e, e][1..] == [e, e];
    assert Run(env, sv, [e]) == Run(env, sv1, []);
    assert Run(env, sv, [e, e, e]) == Run(env, sv1, [e, e]);
    RunTwo(env, sv1, e, e);
  }

  /** An uninterrupted turn of the handler is one step, or the three of a token request. */
  lemma TurnedIsRun(env: Env, sv: Server, uid: nat, stamps: Stamps)
    requires Live(sv, uid) && sv.sessions[uid].pc.Idle?
    requires sv.sessions[uid].mtKey == [] || sv.sessions[uid].mtKey == env.SessionKey()
    ensures var h := Handle(uid, stamps);
            Turned(env, sv, uid, stamps) ==
            Run(env, sv, if HandlerStep(env, sv.sessions[uid], stamps).pc.Idle? then [h] else [h, h, h])
  {
    var s := sv.sessions[uid];
    TurnIsSteps(env, s, stamps);
    RunThrice(env, sv, Handle(uid, stamps));
    assert sv == sv.(sessions := sv.sessions[uid := s]);
    HandleReplaces(env, sv, uid, s, stamps);
    var s1 := HandlerStep(env, s, stamps);
    if !s1.pc.Idle? {
      TurnKeepsRunning(env, s, stamps);
      HandleReplaces(env, sv, uid, s1, stamps);
      HandleReplaces(env, sv, uid, HandlerStep(env, s1, stamps), stamps);
    }
  }

  /** Decrypts into a fresh array and parses it there. */
  method DecryptPacket(data: Span, key: Key) returns (packet: Option<BasePacket>)
    requires data.Valid()
    ensures packet.Some? == Parse(XorBytes(data.Content(), key)).Some?
    ensures packet.Some? ==> fresh(packet.value.data.base)
    ensures packet.Some? ==> packet.value.Holds(Parse(XorBytes(data.Content(), key)).value)
  {
    var decrypted := Xor(data, key);
    var span := Span(decrypted, 0, decrypted.Length);
    assert span.Content() == decrypted[..];
    var used;
    packet, used := ParsePacket(span);
  }

  /** Chooses the key, decrypts, parses and queues the packet at the front. */
  method DecryptAndQueue(client: Kcp, data: Span)
    requires client.Valid() && data.Valid() && data.base == client.recvBuf
    modifies client`packetQueue, client`queued, client`past, client`arrays
    ensures client.Valid()
    ensures client.View() == Queued(old(client.View()), Parse(XorBytes(data.Content(), client.Key())))
    ensures forall a :: a in client.arrays ==> a in old(client.arrays) || fresh(a)
  {
    ghost var parsed := Parse(XorBytes(data.Content(), client.Key()));
    var packet := DecryptPacket(data, client.Key());
    if packet.Some? {
      client.PushPacket(packet.value, parsed.value);
    }
  }

  /** Input and Recv: what is handed out is the content of the receive buffer. */
  method Hear(client: Kcp, from: Endpoint, now: nat, delivered: seq<seq<byte>>) returns (data: Span)
    requires client.Valid()
    modifies client, client.recvBuf
    ensures client.Valid() && data.Valid() && data.base == client.recvBuf && client.arrays == old(client.arrays)
    ensures client.View().(inHand := if data.size == 0 then None else Some(data.Content()))
            == Receive(old(client.View()), from, now, delivered)
    ensures client.View().inHand == None
  {
    client.Input(now, delivered);
    client.past := client.past.(sources := client.past.sources + {from});
    data := client.Recv();
  }

  method Feed(client: Kcp, from: Endpoint, now: nat, delivered: seq<seq<byte>>)
    requires client.Valid()
    modifies client, client.recvBuf
    ensures client.Valid()
    ensures client.View() == Fed(client.env, old(client.View()), from, now, delivered)
    ensures forall a :: a in client.arrays ==> a in old(client.arrays) || fresh(a)
  {
    var data := Hear(client, from, now, delivered);
    if data.size > 0 {
      DecryptAndQueue(client, data);
    }
  }

  /** No session's receive buffer is an array that any queued packet points into. */
  ghost predicate Separate(all: seq<Kcp>)
    reads all
  {
    forall i, j :: 0 <= i < |all| && 0 <= j < |all| ==> all[i].recvBuf !in all[j].arrays
  }

  ghost predicate Member(kcp: Kcp, uid: nat, env: Env, registry: Registry)
    reads kcp, kcp.arrays
  {
    kcp.uid == uid && kcp.env == env && kcp.registry == registry && kcp.Valid()
  }

  ghost predicate Members(all: seq<Kcp>, env: Env, registry: Registry)
    reads all, set i, a | 0 <= i < |all| && a in all[i].arrays :: a
  {
    forall i :: 0 <= i < |all| ==> Member(all[i], i, env, registry)
  }

  /** A session with the next uid and a receive buffer of its own. */
  ghost predicate Newcomer(all: seq<Kcp>, env: Env, registry: Registry, kcp: Kcp)
    reads all, kcp, kcp.arrays
  {
    && Member(kcp, |all|, env, registry) && kcp.arrays == {}
    && forall i :: 0 <= i < |all| ==> kcp.recvBuf !in all[i].arrays
  }

  /** The registry holds sessions of this server only. */
  ghost predicate Known(all: seq<Kcp>, clients: map<u32, Kcp>) {
    forall key :: key in clients ==> clients[key].uid < |all| && all[clients[key].uid] == clients[key]
  }

  ghost function Uids(clients: map<u32, Kcp>): map<u32, nat> {
    map key | key in clients :: clients[key].uid
  }

  lemma UidsPush(clients: map<u32, Kcp>, key: u32, kcp: Kcp)
    ensures Uids(clients[key := kcp]) == Uids(clients)[key := kcp.uid]
  {
  }

  lemma UidsRemove(clients: map<u32, Kcp>, key: u32)
    ensures Uids(clients - {key}) == Uids(clients) - {key}
  {
  }

  lemma MembersPush(all: seq<Kcp>, env: Env, registry: Registry, kcp: Kcp)
    requires Members(all, env, registry) && Member(kcp, |all|, env, registry)
    ensures Members(all + [kcp], env, registry)
  {
  }

  lemma SeparatePush(all: seq<Kcp>, kcp: Kcp)
    requires Separate(all) && kcp.arrays == {}
    requires forall i :: 0 <= i < |all| ==> kcp.recvBuf !in all[i].arrays
    ensures Separate(all + [kcp])
  {
  }

  lemma KnownPush(all: seq<Kcp>, clients: map<u32, Kcp>, key: u32, kcp: Kcp)
    requires Known(all, clients) && kcp.uid == |all|
    ensures Known(all + [kcp], clients[key := kcp])
  {
  }

  class GameServer {
    const env: Env
    const registry: Registry
    /** Every session object ever created, by uid. */
    ghost var all: seq<Kcp>

    ghost predicate Valid()
      reads this, registry, all, set i, a | 0 <= i < |all| && a in all[i].arrays :: a
    {
      Separate(all) && Members(all, env, registry) && Known(all, registry.clients)
    }

    ghost function View(now: nat): Server
      reads this, registry, all
    {
      Server(Views(all), Uids(registry.clients), now)
    }

    constructor (env: Env)
      ensures Valid() && View(0) == INITIAL && this.env == env && fresh(registry)
    {
      this.env := env;
      registry := new Registry();
      all := [];
    }

    /** The receiving coroutine's work on one datagram. */
    method ParsePacket(from: Endpoint, datagram: Span, delivered: seq<seq<byte>>, now: nat)
      requires Valid() && datagram.Valid()
      modifies this`all, registry, all, set i | 0 <= i < |all| :: all[i].recvBuf
      ensures Valid()
      ensures View(now) == Parsed(env, old(View(now)), from, old(datagram.Content()), delivered)
    {
      var key := RouteKey(from);
      if key in registry.clients {
        FeedRegistered(registry.clients[key], from, delivered, now);
      } else {
        TryHandshake(from, datagram, now);
      }
    }

    method FeedRegistered(client: Kcp, from: Endpoint, delivered: seq<seq<byte>>, now: nat)
      requires Valid() && client in registry.clients.Values
      modifies client, client.recvBuf
      ensures Valid() && client.uid < |all|
      ensures Views(all) == old(Views(all))[client.uid := Fed(env, old(Views(all))[client.uid], from, now, delivered)]
    {
      ghost var before := Views(all);
      ViewsAt(all);
      FeedMember(client, from, delivered, now);
      ViewsAre(all, before[client.uid := client.View()]);
    }

    /** The other sessions' queues keep out of the way of this one's receive buffer, and the other way round. */
    method FeedMember(client: Kcp, from: Endpoint, delivered: seq<seq<byte>>, now: nat)
      requires Valid() && client in registry.clients.Values
      modifies client, client.recvBuf
      ensures Valid() && client.uid < |all| && all[client.uid] == client
      ensures client.View() == Fed(env, old(client.View()), from, now, delivered)
    {
      Feed(client, from, now, delivered);
    }

    method TryHandshake(from: Endpoint, datagram: Span, now: nat)
      requires Valid() && datagram.Valid() && RouteKey(from) !in registry.clients
      modifies this`all, registry
      ensures Valid()
      ensures View(now) == Admit(old(View(now)), from, datagram.Content())
    {
      var kcp := Connect(env, registry, |all|, from, datagram, now);
      assert Valid() && View(now) == old(View(now));
      if kcp != null {
        AddClient(RouteKey(from), kcp);
      }
    }

    /** One turn of a session's packet handler. */
    method HandleQueue(client: Kcp, stamps: Stamps, ghost now: nat) returns (running: bool)
      requires Valid() && client in all && client.fault == NoFault
      modifies client
      ensures Valid() && client.uid < |all|
      ensures View(now) == if running then Turned(env, old(View(now)), client.uid, stamps) else old(View(now))
    {
      ghost var before := Views(all);
      ViewsAt(all);
      running := HandleMember(client, stamps);
      ViewsAre(all, before[client.uid := client.View()]);
    }

    method HandleMember(client: Kcp, stamps: Stamps) returns (running: bool)
      requires Valid() && client in all && client.fault == NoFault
      modifies client
      ensures Valid() && client.uid < |all| && all[client.uid] == client
      ensures client.View() == if running then Turn(env, old(client.View()), stamps) else old(client.View())
    {
      running := client.PacketQueueHandler(stamps);
    }

    /** One turn of a session's background loop. */
    method CheckIdle(client: Kcp, now: nat) returns (released: bool)
      requires Valid() && client in all
      modifies client`state, registry
      ensures Valid() && client.uid < |all|
      ensures View(now) == Retire(old(View(now)), client.uid)
    {
      ghost var before := Views(all);
      ViewsAt(all);
      UidsRemove(registry.clients, client.ipPortNum);
      released := client.Background(now);
      ViewsAre(all, before[client.uid := client.View()]);
    }

    method AddClient(key: u32, kcp: Kcp)
      requires Valid() && Newcomer(all, env, registry, kcp)
      modifies this`all, registry
      ensures Valid()
      ensures Views(all) == old(Views(all)) + [kcp.View()]
      ensures Uids(registry.clients) == old(Uids(registry.clients))[key := kcp.uid]
    {
      KnownPush(all, registry.clients, key, kcp);
      UidsPush(registry.clients, key, kcp);
      MembersPush(all, env, registry, kcp);
      SeparatePush(all, kcp);
      ViewsPush(all, kcp);
      all := all + [kcp];
      registry.clients := registry.clients[key := kcp];
    }
  }

  /** Answers the handshake of a new session and files it under its key. */
  method Establish(kcp: Kcp, now: nat)
    requires kcp.Valid() && kcp.View() == Unopened(kcp.uid, kcp.endpoint)
    modifies kcp
    ensures kcp.Valid() && kcp.arrays == old(kcp.arrays)
    ensures kcp.View() == Open(kcp.uid, kcp.endpoint, now)
  {
    kcp.AcceptNonblock();
    kcp.past := kcp.past.(sources := {kcp.endpoint});
    kcp.Input(now, []);
    kcp.ipPortNum := RouteKey(kcp.endpoint);
  }

  /** Makes a session for a valid handshake, and nothing for another datagram. */
  method Connect(env: Env, registry: Registry, ghost uid: nat, from: Endpoint, datagram: Span, now: nat)
    returns (kcp: Kcp?)
    requires datagram.Valid()
    ensures (kcp != null) == Handshakes.Connects(datagram.Content())
    ensures kcp != null ==>
              && fresh(kcp) && fresh(kcp.recvBuf) && kcp.arrays == {}
              && Member(kcp, uid, env, registry) && kcp.View() == Open(uid, from, now)
  {
    var handshake := new Handshakes.Handshake();
    var accepted := handshake.Decode(datagram);
    if !accepted {
      return null;
    }
    kcp := new Kcp(env, registry, uid, from, now);
    Establish(kcp, now);
  }

  ghost function Views(all: seq<Kcp>): (r: seq<Session>)
    reads all
    ensures |r| == |all|
  {
    if all == [] then [] else [all[0].View()] + Views(all[1..])
  }

  lemma {:induction false} ViewsAt(all: seq<Kcp>)
    ensures forall i :: 0 <= i < |all| ==> Views(all)[i] == all[i].View()
  {
    if all != [] {
      ViewsAt(all[1..]);
    }
  }

  lemma ViewsAre(all: seq<Kcp>, views: seq<Session>)
    requires |views| == |all| && forall i :: 0 <= i < |all| ==> all[i].View() == views[i]
    ensures Views(all) == views
  {
    ViewsAt(all);
  }

  lemma {:induction false} ViewsPush(all: seq<Kcp>, kcp: Kcp)
    ensures Views(all + [kcp]) == Views(all) + [kcp.View()]
  {
    if all == [] {
      assert all + [kcp] == [kcp];
    } else {
      assert (all + [kcp])[0] == all[0] && (all + [kcp])[1..] == all[1..] + [kcp];
      ViewsPush(all[1..], kcp);
    }
  }
}
