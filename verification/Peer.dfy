/**
  One client among all the peers of a server: what the server's run looks like
  from its session is a run of the channel.
*/
module Peers {
  import opened Bytes
  import opened Frames
  import opened Sessions
  import opened SessionLaws
  import opened Servers
  import opened ServerLaws
  import opened RunLaws
  import Channels
  import Handshakes

  /** The whole server, and the client of one of its sessions. */
  datatype World = World(server: Server, phase: Channels.Phase, said: seq<Message>, wire: seq<seq<byte>>, read: nat)

  datatype Move = Says(m: Message) | Listens | Happens(e: Event)

  /** The client and its own session. */
  function Project(w: World, uid: nat): Channels.System
    requires uid < |w.server.sessions|
  {
    Channels.System(w.phase, w.said, w.wire, w.read, w.server.sessions[uid], w.server.clock)
  }

  /** An event that feeds the session. */
  predicate Feeds(sv: Server, uid: nat, e: Event)
    requires uid < |sv.sessions|
  {
    sv.sessions[uid].state == Connected && Reaches(sv, e, sv.sessions[uid].id.key)
  }

  /** What the link completes for the session is the client's oldest messages on their way. */
  predicate Follows(w: World, uid: nat, move: Move)
    requires uid < |w.server.sessions|
  {
    move.Happens? && Feeds(w.server, uid, move.e) ==> move.e.delivered <= w.wire
  }

  /** The part of the channel a move plays; events of other sessions are time standing still. */
  function ActionOf(w: World, uid: nat, move: Move): Channels.Action
    requires uid < |w.server.sessions|
  {
    var none := Channels.Wait(0);
    match move
    case Says(m) => Channels.Say(m)
    case Listens => Channels.Listen
    case Happens(e) =>
      match e
      case Arrive(_, _, delivered) => if Feeds(w.server, uid, e) then Channels.Deliver(|delivered|) else none
      case Decrypted(u) => if u == uid then Channels.DecryptNext else none
      case Handle(u, stamps) => if u == uid then Channels.Serve(stamps) else none
      case Background(u) => if u == uid then Channels.Background else none
      case Wait(seconds) => Channels.Wait(seconds)
  }

  function Moved(env: Env, w: World, uid: nat, move: Move): World
    requires uid < |w.server.sessions| && Follows(w, uid, move)
  {
    match move
    case Happens(e) =>
      w.(server := Step(env, w.server, e), wire := if Feeds(w.server, uid, e) then w.wire[|e.delivered|..] else w.wire)
    case _ =>
      var next := Channels.Next(env, Project(w, uid), ActionOf(w, uid, move));
      w.(phase := next.phase, said := next.said, wire := next.wire, read := next.read)
  }

  lemma StepClock(env: Env, sv: Server, e: Event)
    ensures Step(env, sv, e).clock == sv.clock + if e.Wait? then e.seconds else 0
  {
  }

  predicate FromOne(move: Move, endpoints: set<Endpoint>) {
    move.Happens? && move.e.Arrive? ==> move.e.from in endpoints
  }

  /** A datagram that feeds the session is delivered by the channel, from the session's own endpoint. */
  lemma FeedProjects(env: Env, w: World, uid: nat, e: Event, endpoints: set<Endpoint>)
    requires ServerInv(env, w.server) && uid < |w.server.sessions| && Follows(w, uid, Happens(e))
    requires KeysDiffer(endpoints) && w.server.sessions[uid].id.endpoint in endpoints && FromOne(Happens(e), endpoints)
    requires Feeds(w.server, uid, e)
    ensures Channels.Possible(env, Project(w, uid), Channels.Deliver(|e.delivered|))
    ensures e.from == w.server.sessions[uid].id.endpoint && w.wire[..|e.delivered|] == e.delivered
  {
    assert Accounted(w.server.clients, Labels(w.server.sessions), uid);
    KeyOfSession(env, w.server, uid);
  }

  /** An event of another session leaves the client's system as it is. */
  predicate Elsewhere(w: World, uid: nat, e: Event)
    requires uid < |w.server.sessions|
  {
    match e
    case Arrive(_, _, _) => !Feeds(w.server, uid, e)
    case Decrypted(u) => u != uid
    case Handle(u, _) => u != uid
    case Background(u) => u != uid
    case Wait(_) => false
  }

  lemma ElsewhereStands(env: Env, w: World, uid: nat, e: Event)
    requires uid < |w.server.sessions| && Elsewhere(w, uid, e)
    ensures ActionOf(w, uid, Happens(e)) == Channels.Wait(0) && After(env, w.server, e, uid) == w.server.sessions[uid]
  {
  }

  lemma ElsewhereProjects(env: Env, w: World, uid: nat, e: Event)
    requires uid < |w.server.sessions| && Elsewhere(w, uid, e) && Follows(w, uid, Happens(e))
    ensures Channels.Next(env, Project(w, uid), ActionOf(w, uid, Happens(e))) == Expected(env, w, uid, e)
  {
    ElsewhereStands(env, w, uid, e);
    Stands(env, Project(w, uid));
  }

  /** What an event makes of the client's own system, seen from the server. */
  function Expected(env: Env, w: World, uid: nat, e: Event): Channels.System
    requires uid < |w.server.sessions| && Follows(w, uid, Happens(e))
  {
    Project(w, uid).(session := After(env, w.server, e, uid),
                     clock := w.server.clock + if e.Wait? then e.seconds else 0,
                     wire := if Feeds(w.server, uid, e) then w.wire[|e.delivered|..] else w.wire)
  }

  lemma EventProjects(env: Env, w: World, uid: nat, e: Event, endpoints: set<Endpoint>)
    requires ServerInv(env, w.server) && uid < |w.server.sessions| && Follows(w, uid, Happens(e))
    requires KeysDiffer(endpoints) && w.server.sessions[uid].id.endpoint in endpoints && FromOne(Happens(e), endpoints)
    ensures Channels.Next(env, Project(w, uid), ActionOf(w, uid, Happens(e))) == Expected(env, w, uid, e)
  {
    if Elsewhere(w, uid, e) {
      ElsewhereProjects(env, w, uid, e);
    } else if e.Arrive? {
      ArriveProjects(env, w, uid, e, endpoints);
    } else if e.Wait? {
      WaitProjects(env, w, uid, e);
    } else {
      OwnProjects(env, w, uid, e);
    }
  }

  lemma WaitProjects(env: Env, w: World, uid: nat, e: Event)
    requires uid < |w.server.sessions| && e.Wait? && Follows(w, uid, Happens(e))
    ensures Channels.Next(env, Project(w, uid), ActionOf(w, uid, Happens(e))) == Expected(env, w, uid, e)
  {
  }

  lemma OwnProjects(env: Env, w: World, uid: nat, e: Event)
    requires uid < |w.server.sessions|
    requires e == Decrypted(uid) || (e.Handle? && e.uid == uid) || e == Background(uid)
    requires Follows(w, uid, Happens(e))
    ensures Channels.Next(env, Project(w, uid), ActionOf(w, uid, Happens(e))) == Expected(env, w, uid, e)
  {
  }

  lemma ArriveProjects(env: Env, w: World, uid: nat, e: Event, endpoints: set<Endpoint>)
    requires ServerInv(env, w.server) && uid < |w.server.sessions| && Follows(w, uid, Happens(e))
    requires KeysDiffer(endpoints) && w.server.sessions[uid].id.endpoint in endpoints && FromOne(Happens(e), endpoints)
    requires Feeds(w.server, uid, e)
    ensures Channels.Next(env, Project(w, uid), ActionOf(w, uid, Happens(e))) == Expected(env, w, uid, e)
  {
    FeedProjects(env, w, uid, e, endpoints);
  }

  lemma Stands(env: Env, sys: Channels.System)
    ensures Channels.Next(env, sys, Channels.Wait(0)) == sys
  {
  }

  /** Every move of the world is the projected action of the channel. */
  lemma MoveProjects(env: Env, w: World, uid: nat, move: Move, endpoints: set<Endpoint>)
    requires ServerInv(env, w.server) && uid < |w.server.sessions| && Follows(w, uid, move)
    requires KeysDiffer(endpoints) && w.server.sessions[uid].id.endpoint in endpoints && FromOne(move, endpoints)
    ensures uid < |Moved(env, w, uid, move).server.sessions|
    ensures Project(Moved(env, w, uid, move), uid) == Channels.Next(env, Project(w, uid), ActionOf(w, uid, move))
  {
    if move.Happens? {
      StepAfter(env, w.server, move.e, uid);
      StepClock(env, w.server, move.e);
      EventProjects(env, w, uid, move.e, endpoints);
    }
  }

  lemma MoveKeeps(env: Env, w: World, uid: nat, move: Move)
    requires ServerInv(env, w.server) && uid < |w.server.sessions| && Follows(w, uid, move)
    ensures var next := Moved(env, w, uid, move);
            && ServerInv(env, next.server) && uid < |next.server.sessions|
            && next.server.sessions[uid].id == w.server.sessions[uid].id
  {
    if move.Happens? {
      StepInv(env, w.server, move.e);
      StepEvolves(env, w.server, move.e, uid);
    }
  }

  /** Every move follows the client, where it comes to it. */
  ghost predicate AllFollow(env: Env, w: World, uid: nat, moves: seq<Move>)
    requires uid < |w.server.sessions|
    decreases |moves|
  {
    moves != [] ==>
      && Follows(w, uid, moves[0])
      && uid < |Moved(env, w, uid, moves[0]).server.sessions|
      && AllFollow(env, Moved(env, w, uid, moves[0]), uid, moves[1..])
  }

  ghost function RunMoves(env: Env, w: World, uid: nat, moves: seq<Move>): World
    requires uid < |w.server.sessions| && AllFollow(env, w, uid, moves)
    decreases |moves|
  {
    if moves == [] then w else RunMoves(env, Moved(env, w, uid, moves[0]), uid, moves[1..])
  }

  ghost function Actions(env: Env, w: World, uid: nat, moves: seq<Move>): seq<Channels.Action>
    requires uid < |w.server.sessions| && AllFollow(env, w, uid, moves)
    decreases |moves|
  {
    if moves == [] then []
    else [ActionOf(w, uid, moves[0])] + Actions(env, Moved(env, w, uid, moves[0]), uid, moves[1..])
  }

  lemma {:induction false} RunProjects(env: Env, w: World, uid: nat, moves: seq<Move>, endpoints: set<Endpoint>)
    requires ServerInv(env, w.server) && uid < |w.server.sessions| && AllFollow(env, w, uid, moves)
    requires KeysDiffer(endpoints) && w.server.sessions[uid].id.endpoint in endpoints
    requires forall i :: 0 <= i < |moves| ==> FromOne(moves[i], endpoints)
    ensures uid < |RunMoves(env, w, uid, moves).server.sessions|
    ensures Project(RunMoves(env, w, uid, moves), uid)
            == Channels.Run(env, Project(w, uid), Actions(env, w, uid, moves))
    decreases |moves|
  {
    if moves != [] {
      var next := Moved(env, w, uid, moves[0]);
      MoveProjects(env, w, uid, moves[0], endpoints);
      MoveKeeps(env, w, uid, moves[0]);
      RunProjects(env, next, uid, moves[1..], endpoints);
      Channels.RunFirst(env, Project(w, uid), ActionOf(w, uid, moves[0]), Actions(env, next, uid, moves[1..]));
    }
  }

  /** A handshake accepted after any run of the server, and a client that has said nothing yet. */
  function Joined(env: Env, earlier: seq<Event>, ep: Endpoint, datagram: seq<byte>): (w: World)
    requires RouteKey(ep) !in Run(env, INITIAL, earlier).clients && Handshakes.Connects(datagram)
    ensures |w.server.sessions| == |Run(env, INITIAL, earlier).sessions| + 1
  {
    World(Step(env, Run(env, INITIAL, earlier), Arrive(ep, datagram, [])), Channels.UsesDispatch, [], [], 0)
  }

  lemma JoinedIsStart(env: Env, earlier: seq<Event>, ep: Endpoint, datagram: seq<byte>)
    requires RouteKey(ep) !in Run(env, INITIAL, earlier).clients && Handshakes.Connects(datagram)
    ensures var sv, w := Run(env, INITIAL, earlier), Joined(env, earlier, ep, datagram);
            && ServerInv(env, w.server)
            && Project(w, |sv.sessions|) == Channels.Start(|sv.sessions|, ep, sv.clock)
  {
    FromStart(env, earlier);
    StepInv(env, Run(env, INITIAL, earlier), Arrive(ep, datagram, []));
  }

  /**
    In any run of the whole server, its other peers doing what they like, a client
    that joins at any point and keeps to the rules is served as by a plain channel:
    its session holds, handled, queued and on their way, exactly what it said, in
    order, as long as no two endpoints share a registry key.
  */
  lemma EveryClientIsFifo(env: Env, endpoints: set<Endpoint>, earlier: seq<Event>, ep: Endpoint, datagram: seq<byte>,
                          moves: seq<Move>)
    requires KeysDiffer(endpoints) && ep in endpoints
    requires forall i :: 0 <= i < |moves| ==> FromOne(moves[i], endpoints)
    requires RouteKey(ep) !in Run(env, INITIAL, earlier).clients && Handshakes.Connects(datagram)
    requires AllFollow(env, Joined(env, earlier, ep, datagram), |Run(env, INITIAL, earlier).sessions|, moves)
    ensures var uid := |Run(env, INITIAL, earlier).sessions|;
            var end := RunMoves(env, Joined(env, earlier, ep, datagram), uid, moves);
            && uid < |end.server.sessions|
            && var s, f := end.server.sessions[uid], Channels.Abstract(env, Project(end, uid));
               && s.fault == NoFault
               && f.taken == Channels.Copies(Requests(s.handled))
               && f.taken + f.waiting == Channels.Plain(end.said)
  {
    var sv, w := Run(env, INITIAL, earlier), Joined(env, earlier, ep, datagram);
    var uid := |sv.sessions|;
    JoinedIsStart(env, earlier, ep, datagram);
    assert Project(w, uid).session.id.endpoint == ep;
    RunProjects(env, w, uid, moves, endpoints);
    Channels.SessionIsFifo(env, uid, ep, sv.clock, Actions(env, w, uid, moves));
  }
}
