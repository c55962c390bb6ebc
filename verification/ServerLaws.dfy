/** What holds of the server in every run. */
module ServerLaws {
  import opened Bytes
  import opened Sessions
  import opened SessionLaws
  import opened Servers
  import Handshakes

  // ----- the registry -----

  /** What the registry depends on. */
  datatype Label = Label(id: Identity, connected: bool)

  function Labels(sessions: seq<Session>): (r: seq<Label>)
    ensures |r| == |sessions|
  {
    seq(|sessions|, i requires 0 <= i < |sessions| => Label(sessions[i].id, sessions[i].state == Connected))
  }

  /** The entry under a key is a connected session of that key, created by the handshake. */
  predicate Registered(clients: map<u32, nat>, labels: seq<Label>, key: u32)
    requires key in clients
  {
    clients[key] < |labels| &&
    var l := labels[clients[key]];
    l.connected && l.id.created && l.id.key == key
  }

  /** A connected session is the one its key leads to, so no key has two of them. */
  predicate Accounted(clients: map<u32, nat>, labels: seq<Label>, uid: nat)
    requires uid < |labels|
  {
    var l := labels[uid];
    l.id.uid == uid && (l.connected ==> l.id.key in clients && clients[l.id.key] == uid)
  }

  ghost predicate RegistryInv(clients: map<u32, nat>, labels: seq<Label>) {
    && (forall key :: key in clients ==> Registered(clients, labels, key))
    && (forall uid :: 0 <= uid < |labels| ==> Accounted(clients, labels, uid))
  }

  predicate Sound(env: Env, s: Session, clock: nat) {
    SessionInv(env, s) && s.lastPacketTime <= clock
  }

  ghost predicate AllSound(env: Env, sessions: seq<Session>, clock: nat) {
    forall uid :: 0 <= uid < |sessions| ==> Sound(env, sessions[uid], clock)
  }

  ghost predicate ServerInv(env: Env, sv: Server) {
    RegistryInv(sv.clients, Labels(sv.sessions)) && AllSound(env, sv.sessions, sv.clock)
  }

  lemma AllSoundUpdate(env: Env, sessions: seq<Session>, clock: nat, uid: nat, s: Session)
    requires AllSound(env, sessions, clock) && uid < |sessions| && Sound(env, s, clock)
    ensures AllSound(env, sessions[uid := s], clock)
  {
  }

  lemma AllSoundPush(env: Env, sessions: seq<Session>, clock: nat, s: Session)
    requires AllSound(env, sessions, clock) && Sound(env, s, clock)
    ensures AllSound(env, sessions + [s], clock)
  {
  }

  /** A step of one session that leaves it under the same name and as connected as it was. */
  lemma SessionStepInv(env: Env, sv: Server, uid: nat, s: Session)
    requires ServerInv(env, sv) && uid < |sv.sessions|
    requires Sound(env, s, sv.clock) && s.id == sv.sessions[uid].id && s.state == sv.sessions[uid].state
    ensures ServerInv(env, sv.(sessions := sv.sessions[uid := s]))
  {
    AllSoundUpdate(env, sv.sessions, sv.clock, uid, s);
    assert Labels(sv.sessions[uid := s]) == Labels(sv.sessions);
  }

  /** Releasing a connected session removes its own entry and no other. */
  lemma ReleaseRegistry(clients: map<u32, nat>, labels: seq<Label>, uid: nat)
    requires RegistryInv(clients, labels) && uid < |labels| && labels[uid].connected
    ensures RegistryInv(clients - {labels[uid].id.key}, labels[uid := labels[uid].(connected := false)])
    ensures clients - {labels[uid].id.key} == map key | key in clients && clients[key] != uid :: clients[key]
  {
    var rest, labels' := clients - {labels[uid].id.key}, labels[uid := labels[uid].(connected := false)];
    assert Accounted(clients, labels, uid);
    forall key | key in rest
      ensures Registered(rest, labels', key) && clients[key] != uid
    {
      assert Registered(clients, labels, key);
    }
    forall u | 0 <= u < |labels'|
      ensures Accounted(rest, labels', u)
    {
      assert Accounted(clients, labels, u);
    }
  }

  lemma RetireInv(env: Env, sv: Server, uid: nat)
    requires ServerInv(env, sv) && uid < |sv.sessions| && sv.sessions[uid].state == Connected
    ensures ServerInv(env, Retire(sv, uid))
    ensures Retire(sv, uid).clients ==
            if !Expired(sv.sessions[uid], sv.clock) then sv.clients
            else map key | key in sv.clients && sv.clients[key] != uid :: sv.clients[key]
  {
    var s := sv.sessions[uid];
    var t := Tick(s, sv.clock);
    TickInv(env, s, sv.clock);
    AllSoundUpdate(env, sv.sessions, sv.clock, uid, t);
    if Expired(s, sv.clock) {
      ReleaseRegistry(sv.clients, Labels(sv.sessions), uid);
      assert Labels(sv.sessions[uid := t]) == Labels(sv.sessions)[uid := Label(s.id, false)];
    } else {
      assert sv.sessions[uid := t] == sv.sessions;
    }
  }

  lemma OpenRegistry(clients: map<u32, nat>, labels: seq<Label>, l: Label)
    requires RegistryInv(clients, labels)
    requires l.connected && l.id.created && l.id.uid == |labels| && l.id.key !in clients
    ensures RegistryInv(clients[l.id.key := |labels|], labels + [l])
  {
    var clients', labels' := clients[l.id.key := |labels|], labels + [l];
    forall key | key in clients'
      ensures Registered(clients', labels', key)
    {
      assert key in clients ==> Registered(clients, labels, key);
    }
    forall u | 0 <= u < |labels'|
      ensures Accounted(clients', labels', u)
    {
      assert u < |labels| ==> Accounted(clients, labels, u);
    }
  }

  /** A new session enters under a key nobody holds. */
  lemma EnterInv(env: Env, sv: Server, s: Session)
    requires ServerInv(env, sv) && Sound(env, s, sv.clock)
    requires s.state == Connected && s.id.uid == |sv.sessions| && s.id.key !in sv.clients
    ensures ServerInv(env, sv.(sessions := sv.sessions + [s], clients := sv.clients[s.id.key := |sv.sessions|]))
  {
    AllSoundPush(env, sv.sessions, sv.clock, s);
    OpenRegistry(sv.clients, Labels(sv.sessions), Label(s.id, true));
    assert Labels(sv.sessions + [s]) == Labels(sv.sessions) + [Label(s.id, true)];
  }

  lemma StepInv(env: Env, sv: Server, e: Event)
    requires ServerInv(env, sv)
    ensures ServerInv(env, Step(env, sv, e))
  {
    if Enabled(sv, e) {
      match e
      case Arrive(from, datagram, delivered) => AcceptInv(env, sv, from, datagram, delivered);
      case Decrypted(uid) =>
        DecryptInv(env, sv.sessions[uid]);
        SessionStepInv(env, sv, uid, Decrypt(env, sv.sessions[uid]));
      case Handle(uid, stamps) =>
        HandlerInv(env, sv.sessions[uid], stamps);
        HandlerKeeps(env, sv.sessions[uid], stamps);
        SessionStepInv(env, sv, uid, HandlerStep(env, sv.sessions[uid], stamps));
      case Background(uid) => RetireInv(env, sv, uid);
      case Wait(_) =>
    }
  }

  lemma AcceptInv(env: Env, sv: Server, from: Endpoint, datagram: seq<byte>, delivered: seq<seq<byte>>)
    requires ServerInv(env, sv)
    requires Enabled(sv, Arrive(from, datagram, delivered))
    ensures ServerInv(env, Accept(sv, from, datagram, delivered))
  {
    var key := RouteKey(from);
    if key in sv.clients {
      var uid := sv.clients[key];
      assert Registered(sv.clients, Labels(sv.sessions), key);
      ReceiveInv(env, sv.sessions[uid], from, sv.clock, delivered);
      SessionStepInv(env, sv, uid, Receive(sv.sessions[uid], from, sv.clock, delivered));
    } else if Handshakes.Connects(datagram) {
      OpenInv(env, |sv.sessions|, from, sv.clock);
      EnterInv(env, sv, Open(|sv.sessions|, from, sv.clock));
    }
  }

  lemma {:induction false} SendAllKeeps(env: Env, s: Session, out: seq<Outgoing>)
    ensures var t := SendAll(env, s, out);
            t == s.(fault := t.fault, sent := t.sent) && s.sent <= t.sent && (s.fault != NoFault ==> t == s)
    decreases |out|
  {
    if out != [] && s.fault == NoFault {
      SendAllKeeps(env, Send(env, s, out[0]), out[1..]);
    }
  }

  /** The handler touches neither the receiving side nor the identity of the session. */
  lemma HandlerKeeps(env: Env, s: Session, stamps: Stamps)
    ensures var t := HandlerStep(env, s, stamps);
            && t.id == s.id && t.state == s.state && t.lastPacketTime == s.lastPacketTime
            && t.inbox == s.inbox && t.inHand == s.inHand && t.sources == s.sources && t.enqueued == s.enqueued
            && s.handled <= t.handled && s.sent <= t.sent && (s.useMT ==> t.useMT)
            && (s.mtKey == [] || t.mtKey == s.mtKey || t.mtKey == env.SessionKey())
  {
    match s.pc
    case Idle =>
      if s.queue != [] {
        var taken := Handled(s.queue[|s.queue| - 1], stamps);
        SendAllKeeps(env, s.(queue := s.queue[..|s.queue| - 1], handled := s.handled + [taken]), Replies(taken));
      }
    case FlagSet(_) =>
    case KeyReady(taken) => SendAllKeeps(env, s.(pc := Idle), Replies(taken));
  }

  /** A handler step takes the oldest request off the queue when it is between requests, and otherwise none. */
  lemma HandlerTakes(env: Env, s: Session, stamps: Stamps)
    ensures var t, last := HandlerStep(env, s, stamps), |s.queue| - 1;
            if s.pc.Idle? && s.queue != [] then
              t.queue == s.queue[..last] && t.handled == s.handled + [Handled(s.queue[last], stamps)]
            else t.queue == s.queue && t.handled == s.handled
  {
    match s.pc
    case Idle =>
      if s.queue != [] {
        var taken := Handled(s.queue[|s.queue| - 1], stamps);
        SendAllKeeps(env, s.(queue := s.queue[..|s.queue| - 1], handled := s.handled + [taken]), Replies(taken));
      }
    case FlagSet(_) =>
    case KeyReady(taken) => SendAllKeeps(env, s.(pc := Idle), Replies(taken));
  }

  lemma {:induction false} RunInv(env: Env, sv: Server, events: seq<Event>)
    requires ServerInv(env, sv)
    ensures ServerInv(env, Run(env, sv, events))
    decreases |events|
  {
    if events != [] {
      StepInv(env, sv, events[0]);
      RunInv(env, Step(env, sv, events[0]), events[1..]);
    }
  }
}
