/**
  The channel delivers: whatever has happened, the messages on their way can all
  be brought to the handler, with one datagram for each that is not received yet.
*/
module Progress {
  import opened Bytes
  import opened Frames
  import opened Sessions
  import opened SessionLaws
  import opened ServerLaws
  import opened Channels
  import opened Seqs

  /** The messages the receiver has not been handed yet. */
  function Backlog(sys: System): nat {
    |sys.session.inbox| + |sys.wire|
  }

  /** Steps of the handler still to come for its queue and the request in progress. */
  function Turns(queue: seq<Packet>, pc: HandlerPc): nat {
    4 * |queue| + match pc case Idle => 0 case FlagSet(_) => 2 case KeyReady(_) => 1
  }

  /** Steps of the handler and the receiver that are still to come, for what is on its way. */
  function Pending(sys: System): nat {
    6 * Backlog(sys) + (if sys.session.inHand.Some? then 5 else 0) + Turns(sys.session.queue, sys.session.pc)
  }

  predicate IsServerSide(a: Action) {
    a.Deliver? || a.DecryptNext? || a.Serve?
  }

  predicate ServerSide(actions: seq<Action>) {
    forall i :: 0 <= i < |actions| ==> IsServerSide(actions[i])
  }

  function Deliveries(actions: seq<Action>): nat {
    if actions == [] then 0 else (if actions[0].Deliver? then 1 else 0) + Deliveries(actions[1..])
  }

  lemma DeliveriesFirst(a: Action, rest: seq<Action>)
    ensures Deliveries([a] + rest) == Deliveries([a]) + Deliveries(rest)
    ensures IsServerSide(a) && ServerSide(rest) ==> ServerSide([a] + rest)
  {
    assert ([a] + rest)[1..] == rest && [a][1..] == [];
  }

  /** The next thing to do for what is on its way. */
  function Forward(sys: System, stamps: Stamps): Action {
    if sys.session.inHand.Some? then DecryptNext
    else if !sys.session.pc.Idle? || sys.session.queue != [] then Serve(stamps)
    else Deliver(|sys.wire|)
  }

  predicate SameClient(sys: System, next: System) {
    next.said == sys.said && next.phase == sys.phase && next.read == sys.read && next.clock == sys.clock
  }

  lemma DecryptForward(env: Env, sys: System)
    requires SystemInv(env, sys) && Runs(sys.session) && sys.session.inHand.Some?
    ensures var next := Next(env, sys, DecryptNext);
            SameClient(sys, next) && Runs(next.session) && Backlog(next) == Backlog(sys) && Pending(next) < Pending(sys)
  {
    var s := sys.session;
    DecryptNextInv(env, sys);
    DecryptKeeps(env, s);
  }

  lemma DecryptKeeps(env: Env, s: Session)
    requires s.inHand.Some?
    ensures var t := Decrypt(env, s);
            && t.state == s.state && t.inbox == s.inbox && t.inHand.None? && t.pc == s.pc
            && |t.queue| <= |s.queue| + 1
  {
  }

  lemma ServeForward(env: Env, sys: System, stamps: Stamps)
    requires SystemInv(env, sys) && Runs(sys.session) && (!sys.session.pc.Idle? || sys.session.queue != [])
    ensures var next := Next(env, sys, Serve(stamps));
            SameClient(sys, next) && Runs(next.session) && Backlog(next) == Backlog(sys) && Pending(next) < Pending(sys)
  {
    var s := sys.session;
    ServeSafe(env, sys, stamps);
    HandlerTurns(env, s, stamps);
  }

  lemma ServeSafe(env: Env, sys: System, stamps: Stamps)
    requires SystemInv(env, sys) && Runs(sys.session)
    ensures var t := HandlerStep(env, sys.session, stamps);
            && Next(env, sys, Serve(stamps)) == sys.(session := t)
            && Runs(t) && t.inbox == sys.session.inbox && t.inHand == sys.session.inHand
  {
    ServeValue(env, sys, stamps);
    HandlerSafe(env, sys, stamps);
    HandlerKeeps(env, sys.session, stamps);
  }

  lemma ServeValue(env: Env, sys: System, stamps: Stamps)
    requires Runs(sys.session)
    ensures Next(env, sys, Serve(stamps)) == sys.(session := HandlerStep(env, sys.session, stamps))
  {
  }

  /** The steps of a request follow each other, and then the next one is taken. */
  lemma HandlerTurns(env: Env, s: Session, stamps: Stamps)
    requires !s.pc.Idle? || s.queue != []
    ensures Turns(HandlerStep(env, s, stamps).queue, HandlerStep(env, s, stamps).pc) < Turns(s.queue, s.pc)
  {
    match s.pc
    case Idle =>
      var taken := Handled(s.queue[|s.queue| - 1], stamps);
      SendAllKeeps(env, s.(queue := s.queue[..|s.queue| - 1], handled := s.handled + [taken]), Replies(taken));
    case FlagSet(_) =>
    case KeyReady(taken) => SendAllKeeps(env, s.(pc := Idle), Replies(taken));
  }

  lemma DeliverForward(env: Env, sys: System)
    requires SystemInv(env, sys) && Runs(sys.session) && sys.session.inHand.None? && Backlog(sys) > 0
    ensures var next := Next(env, sys, Deliver(|sys.wire|));
            && SameClient(sys, next) && Runs(next.session)
            && Backlog(next) == Backlog(sys) - 1 && Pending(next) < Pending(sys)
  {
    var s := sys.session;
    DeliverSafe(env, sys);
    FlightFrames(env, sys.said, s.enqueued, s.inbox, sys.wire);
    assert sys.wire[..|sys.wire|] == sys.wire;
    ReceiveKeeps(s, sys.clock, sys.wire);
  }

  lemma DeliverSafe(env: Env, sys: System)
    requires SystemInv(env, sys) && Runs(sys.session) && sys.session.inHand.None?
    ensures Possible(env, sys, Deliver(|sys.wire|)) && SystemInv(env, Next(env, sys, Deliver(|sys.wire|)))
  {
    DeliverInv(env, sys, |sys.wire|);
  }

  lemma ReceiveKeeps(s: Session, now: nat, delivered: seq<seq<byte>>)
    requires s.state == Connected && s.inbox + delivered != []
    requires 0 < |(s.inbox + delivered)[0]| <= RECV_BUFFER_SIZE
    ensures var t := Receive(s, s.id.endpoint, now, delivered);
            && t.state == s.state && t.inbox == (s.inbox + delivered)[1..] && t.inHand.Some? && t.pc == s.pc
            && t.queue == s.queue && t.fault == s.fault
  {
  }

  lemma ForwardWorks(env: Env, sys: System, stamps: Stamps)
    requires SystemInv(env, sys) && Runs(sys.session) && Pending(sys) > 0
    ensures var a := Forward(sys, stamps);
            var next := Next(env, sys, a);
            && IsServerSide(a) && SystemInv(env, next) && Runs(next.session) && SameClient(sys, next)
            && Pending(next) < Pending(sys) && Backlog(next) + Deliveries([a]) == Backlog(sys)
  {
    var a := Forward(sys, stamps);
    NextInv(env, sys, a);
    assert [a][1..] == [];
    match a
    case DecryptNext => DecryptForward(env, sys);
    case Serve(_) => ServeForward(env, sys, stamps);
    case Deliver(_) => DeliverForward(env, sys);
  }

  /** Everything on its way is brought to its end; the datagrams are counted. */
  lemma {:induction false} Drain(env: Env, sys: System, stamps: Stamps) returns (actions: seq<Action>)
    requires SystemInv(env, sys) && Runs(sys.session)
    ensures ServerSide(actions)
    ensures Deliveries(actions) == Backlog(sys)
    ensures var end := Run(env, sys, actions);
            SystemInv(env, end) && Runs(end.session) && SameClient(sys, end) && Pending(end) == 0
    decreases Pending(sys)
  {
    actions := [];
    if Pending(sys) > 0 {
      var a := Forward(sys, stamps);
      ForwardWorks(env, sys, stamps);
      var rest := Drain(env, Next(env, sys, a), stamps);
      actions := [a] + rest;
      RunFirst(env, sys, a, rest);
      DeliveriesFirst(a, rest);
    }
  }

  /**
    From any point of any run in which the session is still connected, the server
    can go on by itself until it has handled everything the client has said, and
    one datagram for each message not yet received is enough.
  */
  lemma EverythingIsHandled(env: Env, uid: nat, ep: Endpoint, now: nat, actions: seq<Action>, stamps: Stamps)
    returns (rest: seq<Action>)
    requires Run(env, Start(uid, ep, now), actions).session.state == Connected
    ensures ServerSide(rest)
    ensures var sys, end := Run(env, Start(uid, ep, now), actions), Run(env, Start(uid, ep, now), actions + rest);
            && Deliveries(rest) == Backlog(sys)
            && end.said == sys.said && end.session.fault == NoFault
            && Copies(Requests(end.session.handled)) == Plain(sys.said)
  {
    var start := Start(uid, ep, now);
    var sys := Run(env, start, actions);
    StartInv(env, uid, ep, now);
    Channels.RunInv(env, start, actions);
    rest := Drain(env, sys, stamps);
    RunAppend(env, start, actions, rest);
    DrainedIsHandled(env, Run(env, sys, rest));
  }

  /** With nothing on its way, everything said has been handled. */
  lemma DrainedIsHandled(env: Env, sys: System)
    requires SystemInv(env, sys) && Pending(sys) == 0
    ensures |sys.session.handled| == |sys.said| && Copies(Requests(sys.session.handled)) == Plain(sys.said)
  {
    HandledIsPrefix(env, sys);
    AbstractIsSaid(env, sys);
    Whole(sys.said);
  }

  // ----- no fewer datagrams will do -----

  lemma HandsAtMostOne(env: Env, sys: System, a: Action)
    ensures Backlog(Next(env, sys, a)) + Deliveries([a]) >= Backlog(sys)
  {
    assert [a][1..] == [];
    match a
    case Deliver(n) =>
      if Possible(env, sys, a) {
        PopsAtMostOne(sys.session, sys.clock, sys.wire[..n]);
      }
    case DecryptNext =>
      if Possible(env, sys, a) {
        DecryptKeeps(env, sys.session);
      }
    case Serve(stamps) => HandlerKeeps(env, sys.session, stamps);
    case _ =>
  }

  /** A datagram hands over one message at most, whatever it completes. */
  lemma PopsAtMostOne(s: Session, now: nat, delivered: seq<seq<byte>>)
    ensures |Receive(s, s.id.endpoint, now, delivered).inbox| >= |s.inbox| + |delivered| - 1
            || s.state != Connected
  {
  }

  /** In any run at all, a backlog goes down by at most one message for each datagram. */
  lemma {:induction false} BacklogNeedsDatagrams(env: Env, sys: System, actions: seq<Action>)
    ensures Backlog(Run(env, sys, actions)) + Deliveries(actions) >= Backlog(sys)
    decreases |actions|
  {
    if actions != [] {
      HandsAtMostOne(env, sys, actions[0]);
      assert [actions[0]][1..] == [];
      BacklogNeedsDatagrams(env, Next(env, sys, actions[0]), actions[1..]);
    }
  }

  /** So a run after which everything said has been handled took a datagram for each message not yet received. */
  lemma HandlingNeedsDatagrams(env: Env, sys: System, actions: seq<Action>)
    requires SystemInv(env, sys)
    requires |Run(env, sys, actions).session.handled| == |Run(env, sys, actions).said|
    ensures Deliveries(actions) >= Backlog(sys)
  {
    Channels.RunInv(env, sys, actions);
    HandledIsPrefix(env, Run(env, sys, actions));
    BacklogNeedsDatagrams(env, sys, actions);
  }
}
