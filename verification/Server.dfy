/**
  The server as a value: every session ever opened, the registry of the live
  ones, and the clock. A run is any list of events; an event that cannot happen
  where it stands is passed over.
*/
module Servers {
  import opened Bytes
  import opened Sessions
  import Handshakes

  /** `clients` maps a registry key to the uid of a session, its index in `sessions`. */
  datatype Server = Server(sessions: seq<Session>, clients: map<u32, nat>, clock: nat)

  datatype Event =
    | Arrive(from: Endpoint, datagram: seq<byte>, delivered: seq<seq<byte>>)
    | Decrypted(uid: nat)
    | Handle(uid: nat, stamps: Stamps)
    | Background(uid: nat)
    | Wait(seconds: nat)

  const INITIAL := Server([], map[], 0)

  predicate Live(sv: Server, uid: nat) {
    uid < |sv.sessions| && Runs(sv.sessions[uid])
  }

  predicate Enabled(sv: Server, e: Event) {
    match e
    case Arrive(from, _, _) =>
      var key := RouteKey(from);
      key in sv.clients ==> Live(sv, sv.clients[key]) && sv.sessions[sv.clients[key]].inHand.None?
    case Decrypted(uid) => Live(sv, uid) && sv.sessions[uid].inHand.Some?
    case Handle(uid, _) => Live(sv, uid)
    case Background(uid) => Live(sv, uid)
    case Wait(_) => true
  }

  /** The destructor takes whatever entry carries the session's key out of the registry. */
  function Retire(sv: Server, uid: nat): Server
    requires uid < |sv.sessions|
  {
    var s := Tick(sv.sessions[uid], sv.clock);
    sv.(sessions := sv.sessions[uid := s],
        clients := if s.state == Disconnected then sv.clients - {s.id.key} else sv.clients)
  }

  /** ParsePacket up to and including Recv. */
  function Accept(sv: Server, from: Endpoint, datagram: seq<byte>, delivered: seq<seq<byte>>): Server
    requires RouteKey(from) in sv.clients ==> sv.clients[RouteKey(from)] < |sv.sessions|
  {
    var key := RouteKey(from);
    if key in sv.clients then
      var uid := sv.clients[key];
      sv.(sessions := sv.sessions[uid := Receive(sv.sessions[uid], from, sv.clock, delivered)])
    else Admit(sv, from, datagram)
  }

  /** A datagram of an unknown endpoint opens a session when it is a handshake. */
  function Admit(sv: Server, from: Endpoint, datagram: seq<byte>): Server {
    if Handshakes.Connects(datagram) then Entered(sv, from) else sv
  }

  function Entered(sv: Server, from: Endpoint): Server {
    sv.(sessions := sv.sessions + [Open(|sv.sessions|, from, sv.clock)],
        clients := sv.clients[RouteKey(from) := |sv.sessions|])
  }

  function Apply(env: Env, sv: Server, e: Event): Server
    requires Enabled(sv, e)
  {
    match e
    case Arrive(from, datagram, delivered) => Accept(sv, from, datagram, delivered)
    case Decrypted(uid) => sv.(sessions := sv.sessions[uid := Decrypt(env, sv.sessions[uid])])
    case Handle(uid, stamps) => sv.(sessions := sv.sessions[uid := HandlerStep(env, sv.sessions[uid], stamps)])
    case Background(uid) => Retire(sv, uid)
    case Wait(seconds) => sv.(clock := sv.clock + seconds)
  }

  function Step(env: Env, sv: Server, e: Event): Server {
    if Enabled(sv, e) then Apply(env, sv, e) else sv
  }

  function Run(env: Env, sv: Server, events: seq<Event>): Server
    decreases |events|
  {
    if events == [] then sv else Run(env, Step(env, sv, events[0]), events[1..])
  }

  lemma {:induction false} RunAppend(env: Env, sv: Server, a: seq<Event>, b: seq<Event>)
    ensures Run(env, sv, a + b) == Run(env, Run(env, sv, a), b)
    decreases |a|
  {
    if a == [] {
      assert a + b == b;
    } else {
      RunAppend(env, Step(env, sv, a[0]), a[1..], b);
      assert (a + b)[1..] == a[1..] + b;
    }
  }
}
