/**
  The rules the channel asks its client to keep are needed: whoever first breaks
  one can be answered by an interleaving that ends the program.
*/
module Discipline {
  import opened Bytes
  import opened Wrappers
  import opened Crypto
  import opened Frames
  import opened Seqs
  import opened Sessions
  import opened SessionLaws
  import opened Channels
  import opened Progress
  import opened Transcripts
  import Faults

  /** What a client can have said that has kept the rules. */
  predicate Permitted(env: Env, said: seq<Message>) {
    && (forall i :: 0 <= i < |said| && NeedsKey(said[i].id) ==> AsksToken(said[..i]))
    && (forall i :: 0 <= i < |said| ==> |said[i].Bytes()| <= RECV_BUFFER_SIZE)
    && (forall i :: 0 <= i < |said| && said[i].id == GET_PLAYER_TOKEN_REQ ==> env.uidConverts(said[i].body))
  }

  /** Where a client that has said this can be: it waits, if it does, right after its first token request. */
  predicate PhaseFits(phase: Phase, said: seq<Message>) {
    && (AsksToken(said) <==> !phase.UsesDispatch?)
    && (phase.Waiting? ==> said != [] && !AsksToken(said[..|said| - 1]))
  }

  /** The client says a message, whether or not it may. */
  function Blurt(env: Env, sys: System, m: Message): System {
    sys.(said := sys.said + [m], wire := sys.wire + [XorBytes(m.Bytes(), ClientKey(env, sys.phase))],
         phase := if sys.phase.UsesDispatch? && m.id == GET_PLAYER_TOKEN_REQ then Waiting else sys.phase)
  }

  /** Everything said has been handled, and the client knows. */
  predicate Calm(env: Env, sys: System) {
    SystemInv(env, sys) && Runs(sys.session) && Pending(sys) == 0 && !sys.phase.Waiting?
  }

  // ----- a run that gets there -----

  lemma {:induction false} TokenIsAnswered(handled: seq<Handled>)
    requires HasToken(Requests(handled))
    ensures Transcript(handled) != []
  {
    var i :| 0 <= i < |handled| && Requests(handled)[i].id == GET_PLAYER_TOKEN_REQ;
    if i > 0 {
      assert Requests(handled[1..])[i - 1].id == GET_PLAYER_TOKEN_REQ;
      TokenIsAnswered(handled[1..]);
    }
  }

  /** When all is handled and the client still waits, the reply is there for it to read. */
  lemma ReplyEndsWaiting(env: Env, sys: System)
    requires SystemInv(env, sys) && Runs(sys.session) && Pending(sys) == 0 && sys.phase.Waiting?
    ensures Next(env, sys, Listen) == sys.(read := 1, phase := UsesDerived)
    ensures Calm(env, Next(env, sys, Listen))
  {
    AnswerIsThere(env, sys);
    FirstSent(env, sys);
    ListenInv(env, sys);
    ListenValue(env, sys);
  }

  lemma ListenValue(env: Env, sys: System)
    requires sys.phase.Waiting? && sys.read == 0 && sys.session.sent != [] && IsTokenReply(env, sys.session.sent[0])
    ensures Next(env, sys, Listen) == sys.(read := 1, phase := UsesDerived)
  {
  }

  lemma AnswerIsThere(env: Env, sys: System)
    requires SystemInv(env, sys) && Pending(sys) == 0 && AsksToken(sys.said)
    ensures sys.session.sent != []
  {
    var s := sys.session;
    AllTaken(env, sys);
    TokenArrived(s.enqueued, sys.said);
    TokenIsAnswered(s.handled);
  }

  lemma AllTaken(env: Env, sys: System)
    requires SystemInv(env, sys) && Pending(sys) == 0
    ensures sys.session.enqueued == Requests(sys.session.handled) && sys.said[..|sys.session.enqueued|] == sys.said
    ensures Settled(sys.session.fault, sys.session.pc, sys.session.handled) == sys.session.handled
  {
    DrainedIsHandled(env, sys);
    Whole(sys.said);
    assert Reverse(sys.session.queue) == [];
  }

  lemma PermittedPrefix(env: Env, said: seq<Message>)
    requires Permitted(env, said) && said != []
    ensures Permitted(env, said[..|said| - 1])
  {
    var before := said[..|said| - 1];
    assert forall i :: 0 <= i < |before| ==> before[i] == said[i] && before[..i] == said[..i];
  }

  /** The next permitted message, once all is calm, and what it takes for all to be calm again. */
  lemma CalmAgain(env: Env, sys: System, m: Message, stamps: Stamps) returns (actions: seq<Action>)
    requires Calm(env, sys) && MaySay(env, sys.phase, m)
    ensures Calm(env, Run(env, sys, actions)) && Run(env, sys, actions).said == sys.said + [m]
  {
    var spoken := Next(env, sys, Say(m));
    NextInv(env, sys, Say(m));
    var drain := Drain(env, spoken, stamps);
    var drained := Run(env, spoken, drain);
    RunFirst(env, sys, Say(m), drain);
    actions := [Say(m)] + drain;
    if drained.phase.Waiting? {
      ReplyEndsWaiting(env, drained);
      RunAppend(env, sys, actions, [Listen]);
      RunOne(env, drained, Listen);
      actions := actions + [Listen];
    }
  }

  lemma RunOne(env: Env, sys: System, a: Action)
    ensures Run(env, sys, [a]) == Next(env, sys, a)
  {
    RunFirst(env, sys, a, []);
    assert [a] + [] == [a];
  }

  /** A client that keeps the rules can say anything they allow, and see it all handled. */
  lemma {:induction false} CalmAfter(env: Env, start: System, said: seq<Message>, stamps: Stamps)
    returns (actions: seq<Action>)
    requires Calm(env, start) && start.said == [] && Permitted(env, said)
    ensures Calm(env, Run(env, start, actions)) && Run(env, start, actions).said == said
    decreases |said|
  {
    actions := [];
    if said != [] {
      var before, m := said[..|said| - 1], said[|said| - 1];
      SplitLast(said);
      PermittedPrefix(env, said);
      var first := CalmAfter(env, start, before, stamps);
      actions := OneMore(env, start, first, m, stamps);
    }
  }

  lemma StartCalm(env: Env, uid: nat, ep: Endpoint, now: nat)
    ensures Calm(env, Start(uid, ep, now)) && Start(uid, ep, now).said == []
  {
    StartInv(env, uid, ep, now);
  }

  lemma OneMore(env: Env, start: System, first: seq<Action>, m: Message, stamps: Stamps) returns (actions: seq<Action>)
    requires Calm(env, Run(env, start, first)) && Permitted(env, Run(env, start, first).said + [m])
    ensures Calm(env, Run(env, start, actions))
    ensures Run(env, start, actions).said == Run(env, start, first).said + [m]
  {
    MaySayNext(env, Run(env, start, first), m);
    var next := CalmAgain(env, Run(env, start, first), m, stamps);
    RunAppend(env, start, first, next);
    actions := first + next;
  }

  lemma MaySayNext(env: Env, sys: System, m: Message)
    requires Calm(env, sys) && Permitted(env, sys.said + [m])
    ensures MaySay(env, sys.phase, m)
  {
    var said := sys.said + [m];
    assert said[|sys.said|] == m && said[..|sys.said|] == sys.said;
  }

  // ----- the breach -----

  lemma RunThree(env: Env, sys: System, a: Action, b: Action, c: Action)
    ensures Run(env, sys, [a, b, c]) == Next(env, Next(env, Next(env, sys, a), b), c)
  {
    assert [a, b, c] == [a] + [b, c] && [b, c] == [b] + [c];
    RunFirst(env, sys, a, [b, c]);
    RunFirst(env, Next(env, sys, a), b, [c]);
    RunOne(env, Next(env, Next(env, sys, a), b), c);
  }

  /** Nothing is on its way, and the server decrypts with the key the client uses. */
  predicate Ready(env: Env, sys: System) {
    var s := sys.session;
    && Runs(s) && s.inHand.None? && s.inbox == [] && s.queue == [] && s.pc.Idle? && sys.wire == []
    && (if s.useMT then s.mtKey else env.dispatchKey) == ClientKey(env, sys.phase)
    && (sys.phase.UsesDispatch? <==> s.mtKey == [])
    && (s.mtKey == [] || s.mtKey == env.SessionKey())
  }

  lemma CalmReady(env: Env, sys: System)
    requires Calm(env, sys)
    ensures Ready(env, sys)
  {
    AllTaken(env, sys);
    TokenArrived(sys.session.enqueued, sys.said);
  }

  lemma DeliverFits(env: Env, sys: System, oldest: seq<byte>, others: seq<seq<byte>>)
    requires Runs(sys.session) && sys.session.inHand.None? && sys.session.inbox == []
    requires sys.wire == [oldest] + others && 0 < |oldest| <= RECV_BUFFER_SIZE
    ensures var s := sys.session;
            Next(env, sys, Deliver(|sys.wire|)) ==
            sys.(wire := [], session := s.(lastPacketTime := sys.clock, inbox := others, inHand := Some(oldest),
                                           sources := s.sources + {s.id.endpoint}))
  {
    Faults.TakesOldest(sys.session, sys.session.id.endpoint, sys.clock, oldest, others);
    assert sys.wire[..|sys.wire|] == sys.wire && sys.wire[|sys.wire|..] == [];
  }

  lemma DeliverTooLong(env: Env, sys: System, n: nat)
    requires Runs(sys.session) && sys.session.inHand.None? && n <= |sys.wire|
    requires var box := sys.session.inbox + sys.wire[..n]; box != [] && |box[0]| > RECV_BUFFER_SIZE
    ensures Next(env, sys, Deliver(n)).session.fault == ReceiveOverrun
  {
  }

  /** A message in hand that was encrypted with the receiver's key goes to the front of the queue. */
  lemma DecryptOnto(env: Env, sys: System, m: Message, key: Key)
    requires Runs(sys.session) && sys.session.inHand == Some(XorBytes(m.Bytes(), key))
    requires key == if sys.session.useMT then sys.session.mtKey else env.dispatchKey
    ensures var s, t := sys.session, Next(env, sys, DecryptNext).session;
            && t.queue != [] && IsCopy(t.queue[0], m)
            && t == s.(inHand := None, queue := [t.queue[0]] + s.queue, enqueued := t.enqueued)
    ensures Next(env, sys, DecryptNext).wire == sys.wire
  {
    NextDecrypts(env, sys);
    DecryptOne(m, key);
    DecryptValue(env, sys.session, key, Parse(XorBytes(sys.session.inHand.value, key)).value);
  }

  lemma NextDecrypts(env: Env, sys: System)
    requires Runs(sys.session) && sys.session.inHand.Some?
    ensures Next(env, sys, DecryptNext) == sys.(session := Decrypt(env, sys.session))
  {
  }

  lemma CipherLength(m: Message, key: Key)
    ensures 12 <= |XorBytes(m.Bytes(), key)| == |m.Bytes()|
  {
  }

  /** What the client's next message ends the program with, if it is handled at once when all is calm. */
  function Verdict(env: Env, phase: Phase, m: Message): Fault {
    if |m.Bytes()| > RECV_BUFFER_SIZE then ReceiveOverrun
    else if m.id == GET_PLAYER_TOKEN_REQ && !env.uidConverts(m.body) then UidNotANumber
    else if NeedsKey(m.id) && phase.UsesDispatch? then EmptyKeyOnSend
    else NoFault
  }

  lemma VerdictIsRule(env: Env, phase: Phase, m: Message)
    requires !phase.Waiting?
    ensures MaySay(env, phase, m) <==> Verdict(env, phase, m) == NoFault
  {
  }

  /** Handled at once, a message meets its verdict. */
  lemma OneHandled(env: Env, sys: System, m: Message, stamps: Stamps)
    requires Ready(env, sys)
    ensures Run(env, Blurt(env, sys, m), [Deliver(1), DecryptNext, Serve(stamps)]).session.fault
            == Verdict(env, sys.phase, m)
  {
    var spoken := Blurt(env, sys, m);
    RunThree(env, spoken, Deliver(1), DecryptNext, Serve(stamps));
    if |m.Bytes()| > RECV_BUFFER_SIZE {
      OneTooLong(env, sys, m);
    } else {
      OneTaken(env, sys, m);
      OneServed(env, Next(env, Next(env, spoken, Deliver(1)), DecryptNext), sys.phase, m, stamps);
    }
  }

  lemma OneTooLong(env: Env, sys: System, m: Message)
    requires Ready(env, sys) && |m.Bytes()| > RECV_BUFFER_SIZE
    ensures Next(env, Blurt(env, sys, m), Deliver(1)).session.fault == ReceiveOverrun
  {
    CipherLength(m, ClientKey(env, sys.phase));
    DeliverTooLong(env, Blurt(env, sys, m), 1);
  }

  lemma OneServed(env: Env, sys: System, phase: Phase, m: Message, stamps: Stamps)
    requires var s := sys.session;
             && Runs(s) && s.pc.Idle? && |s.queue| == 1 && IsCopy(s.queue[0], m)
             && (s.mtKey == [] || s.mtKey == env.SessionKey()) && (phase.UsesDispatch? <==> s.mtKey == [])
    requires |m.Bytes()| <= RECV_BUFFER_SIZE
    ensures Next(env, sys, Serve(stamps)).session.fault == Verdict(env, phase, m)
  {
    ServeValue(env, sys, stamps);
    HandlerDoom(env, sys.session, stamps);
  }

  /** It goes through the wire and the receiver to the queue of a session that is otherwise as it was. */
  lemma OneTaken(env: Env, sys: System, m: Message)
    requires Ready(env, sys) && |m.Bytes()| <= RECV_BUFFER_SIZE
    ensures var s, t := sys.session, Next(env, Next(env, Blurt(env, sys, m), Deliver(1)), DecryptNext).session;
            && Runs(t) && t.pc.Idle? && |t.queue| == 1 && IsCopy(t.queue[0], m) && t.mtKey == s.mtKey
            && (s.mtKey == [] || s.mtKey == env.SessionKey()) && (sys.phase.UsesDispatch? <==> s.mtKey == [])
  {
    var spoken, key := Blurt(env, sys, m), ClientKey(env, sys.phase);
    CipherLength(m, key);
    assert spoken.wire == [XorBytes(m.Bytes(), key)] + [];
    DeliverFits(env, spoken, XorBytes(m.Bytes(), key), []);
    DecryptOnto(env, Next(env, spoken, Deliver(1)), m, key);
  }

  /** The flag is up, the key is not there, and the client's next message is. */
  predicate Exposed(s: Session, next: seq<byte>) {
    Runs(s) && s.inHand.None? && s.inbox == [next] && s.useMT && s.mtKey == []
  }

  lemma TokenExposes(env: Env, sys: System, token: Message, m: Message, stamps: Stamps)
    requires Ready(env, sys) && sys.phase.UsesDispatch? && MaySay(env, sys.phase, token)
    requires token.id == GET_PLAYER_TOKEN_REQ
    ensures var waiting := Blurt(env, Next(env, sys, Say(token)), m);
            Exposed(Run(env, waiting, [Deliver(2), DecryptNext, Serve(stamps)]).session,
                    XorBytes(m.Bytes(), env.dispatchKey))
  {
    var waiting, key := Blurt(env, Next(env, sys, Say(token)), m), ClientKey(env, sys.phase);
    var wire, next := XorBytes(token.Bytes(), key), XorBytes(m.Bytes(), key);
    var first := Next(env, waiting, Deliver(2));
    var second := Next(env, first, DecryptNext);
    RunThree(env, waiting, Deliver(2), DecryptNext, Serve(stamps));
    CipherLength(token, key);
    assert waiting.wire == [wire] + [next];
    DeliverFits(env, waiting, wire, [next]);
    DecryptOnto(env, first, token, key);
    ServeValue(env, second, stamps);
    Faults.TokenTaken(env, second.session, stamps);
  }

  /** The next datagram, whatever it brings, then ends the program. */
  lemma ExposedFaults(env: Env, sys: System, next: seq<byte>)
    requires Exposed(sys.session, next) && next != []
    ensures Run(env, sys, [Deliver(0), DecryptNext]).session.fault != NoFault
  {
    RunFirst(env, sys, Deliver(0), [DecryptNext]);
    assert [Deliver(0)] + [DecryptNext] == [Deliver(0), DecryptNext];
    RunOne(env, Next(env, sys, Deliver(0)), DecryptNext);
    assert sys.session.inbox + sys.wire[..0] == [next];
    if |next| > RECV_BUFFER_SIZE {
      DeliverTooLong(env, sys, 0);
    } else {
      assert sys.wire[..0] == [];
      Faults.DecryptedTooEarly(env, sys.session, sys.session.id.endpoint, sys.clock);
    }
  }

  /** The first message that breaks the rules, and an interleaving that makes it the program's last. */
  lemma BreachFaults(env: Env, uid: nat, ep: Endpoint, now: nat, said: seq<Message>, phase: Phase, m: Message,
                     stamps: Stamps)
    returns (before: seq<Action>, after: seq<Action>)
    requires Permitted(env, said) && PhaseFits(phase, said) && !MaySay(env, phase, m)
    ensures var sys := Run(env, Start(uid, ep, now), before);
            && sys.said == said && sys.phase == phase
            && Run(env, Blurt(env, sys, m), after).session.fault != NoFault
  {
    var start := Start(uid, ep, now);
    StartCalm(env, uid, ep, now);
    if phase.Waiting? {
      before, after := ImpatientBreach(env, start, said, m, stamps);
    } else {
      before := CalmAfter(env, start, said, stamps);
      after := [Deliver(1), DecryptNext, Serve(stamps)];
      CalmReady(env, Run(env, start, before));
      OneHandled(env, Run(env, start, before), m, stamps);
      VerdictIsRule(env, phase, m);
    }
  }

  lemma ImpatientBreach(env: Env, start: System, said: seq<Message>, m: Message, stamps: Stamps)
    returns (before: seq<Action>, after: seq<Action>)
    requires Calm(env, start) && start.said == [] && Permitted(env, said) && PhaseFits(Waiting, said)
    ensures var sys := Run(env, start, before);
            && sys.said == said && sys.phase == Waiting
            && Run(env, Blurt(env, sys, m), after).session.fault != NoFault
  {
    var earlier, token := said[..|said| - 1], said[|said| - 1];
    SplitLast(said);
    AsksTokenPush(earlier, token);
    PermittedPrefix(env, said);
    var calm := CalmAfter(env, start, earlier, stamps);
    var sys := Run(env, start, calm);
    MaySayNext(env, sys, token);
    CalmReady(env, sys);
    SayLast(env, start, calm, token);
    before := calm + [Say(token)];
    after := GapFaults(env, sys, token, m, stamps);
  }

  lemma SayLast(env: Env, start: System, calm: seq<Action>, m: Message)
    ensures Run(env, start, calm + [Say(m)]) == Next(env, Run(env, start, calm), Say(m))
  {
    RunAppend(env, start, calm, [Say(m)]);
    RunOne(env, Run(env, start, calm), Say(m));
  }

  /** Behind a token request, and before its reply, any message can meet the gap between the flag and the key. */
  lemma GapFaults(env: Env, sys: System, token: Message, m: Message, stamps: Stamps) returns (after: seq<Action>)
    requires Ready(env, sys) && sys.phase.UsesDispatch? && MaySay(env, sys.phase, token)
    requires token.id == GET_PLAYER_TOKEN_REQ
    ensures Run(env, Blurt(env, Next(env, sys, Say(token)), m), after).session.fault != NoFault
  {
    var waiting := Blurt(env, Next(env, sys, Say(token)), m);
    var exposing := [Deliver(2), DecryptNext, Serve(stamps)];
    CipherLength(m, env.dispatchKey);
    TokenExposes(env, sys, token, m, stamps);
    after := exposing + [Deliver(0), DecryptNext];
    RunAppend(env, waiting, exposing, [Deliver(0), DecryptNext]);
    ExposedFaults(env, Run(env, waiting, exposing), XorBytes(m.Bytes(), env.dispatchKey));
  }

  /**
    For a client that has kept the rules so far, wherever it is: it may say its
    next message if and only if no interleaving, before or after, ends the program.
  */
  lemma RulesExactly(env: Env, uid: nat, ep: Endpoint, now: nat, said: seq<Message>, phase: Phase, m: Message)
    requires Permitted(env, said) && PhaseFits(phase, said)
    ensures MaySay(env, phase, m) <==>
            forall before: seq<Action>, after: seq<Action> ::
              var sys := Run(env, Start(uid, ep, now), before);
              sys.said == said && sys.phase == phase ==> Run(env, Blurt(env, sys, m), after).session.fault == NoFault
  {
    var start := Start(uid, ep, now);
    if MaySay(env, phase, m) {
      forall before: seq<Action>, after: seq<Action>
        ensures var sys := Run(env, start, before);
                sys.said == said && sys.phase == phase ==> Run(env, Blurt(env, sys, m), after).session.fault == NoFault
      {
        var sys := Run(env, start, before);
        if sys.phase == phase {
          StartInv(env, uid, ep, now);
          Channels.RunInv(env, start, before);
          SayInv(env, sys, m);
          Channels.RunInv(env, Blurt(env, sys, m), after);
        }
      }
    } else {
      var stamps := seq(6, i => Stamp(0, []));
      var before, after := BreachFaults(env, uid, ep, now, said, phase, m, stamps);
    }
  }

  // ----- whole conversations -----

  function ReplyIdsOf(m: Message): seq<u16> {
    ReplyIds(m.id)
  }

  /** The ids a client that has said this is answered with. */
  function AnswerIds(said: seq<Message>): seq<u16> {
    Collect(said, ReplyIdsOf)
  }

  lemma {:induction false} CopiesAnswered(requests: seq<Packet>, said: seq<Message>)
    requires Copies(requests) == Plain(said)
    ensures AllReplyIds(requests) == AnswerIds(said)
    decreases |said|
  {
    assert |Copies(requests)| == |Plain(said)|;
    if said != [] {
      assert Copies(requests)[0] == Plain(said)[0];
      assert Copies(requests[1..]) == Copies(requests)[1..] == Plain(said)[1..] == Plain(said[1..]);
      CopiesAnswered(requests[1..], said[1..]);
    }
  }

  /**
    A client that keeps the rules has a run in which everything it says is answered:
    the server's log is one list of messages, each under the key its id tells, with
    the ids its messages call for, in order.
  */
  lemma Conversation(env: Env, uid: nat, ep: Endpoint, now: nat, said: seq<Message>, stamps: Stamps)
    returns (actions: seq<Action>, out: seq<Message>)
    requires Permitted(env, said)
    ensures var s := Run(env, Start(uid, ep, now), actions).session;
            && Copies(Requests(s.handled)) == Plain(said)
            && |s.sent| == |out| && (forall i :: 0 <= i < |out| ==> OpensTo(env, s.sent[i], out[i]))
            && IdsOf(out) == AnswerIds(said)
  {
    var start := Start(uid, ep, now);
    StartCalm(env, uid, ep, now);
    actions := CalmAfter(env, start, said, stamps);
    var sys := Run(env, start, actions);
    out := Messages(Transcript(sys.session.handled));
    AllTaken(env, sys);
    DrainedIsHandled(env, sys);
    OutboundLog(env, sys.session);
    CopiesAnswered(Requests(sys.session.handled), said);
  }

  /** A token request, a ping and a login, packets 109, 32 and 141: eight frames come back. */
  lemma TokenPingLogin(env: Env, uid: nat, ep: Endpoint, now: nat, said: seq<Message>, stamps: Stamps)
    returns (actions: seq<Action>, out: seq<Message>)
    requires |said| == 3 && said[0].id == 109 && said[1].id == 32 && said[2].id == 141
    requires env.uidConverts(said[0].body) && forall i :: 0 <= i < 3 ==> |said[i].Bytes()| <= 65534
    ensures var s := Run(env, Start(uid, ep, now), actions).session;
            && |s.sent| == |out| && (forall i :: 0 <= i < |out| ==> OpensTo(env, s.sent[i], out[i]))
            && IdsOf(out) == [131, 17, 119, 631, 609, 1695, 209, 131]
  {
    ThreePermitted(env, said);
    actions, out := Conversation(env, uid, ep, now, said, stamps);
    ThreeAnswered(said);
  }

  lemma ThreePermitted(env: Env, said: seq<Message>)
    requires |said| == 3 && said[0].id == 109 && said[1].id == 32 && said[2].id == 141
    requires env.uidConverts(said[0].body) && forall i :: 0 <= i < 3 ==> |said[i].Bytes()| <= 65534
    ensures Permitted(env, said)
  {
    forall i | 0 <= i < |said| && NeedsKey(said[i].id)
      ensures AsksToken(said[..i])
    {
      AskedFirst(said, i);
    }
  }

  lemma AskedFirst(said: seq<Message>, i: nat)
    requires 0 < i <= |said| && said[0].id == GET_PLAYER_TOKEN_REQ
    ensures AsksToken(said[..i])
  {
    assert said[..i][0] == said[0];
  }

  lemma ThreeAnswered(said: seq<Message>)
    requires |said| == 3 && said[0].id == 109 && said[1].id == 32 && said[2].id == 141
    ensures AnswerIds(said) == [131, 17, 119, 631, 609, 1695, 209, 131]
  {
    assert said == [said[0]] + ([said[1]] + [said[2]]);
    CollectOne(said[0], ReplyIdsOf);
    CollectOne(said[1], ReplyIdsOf);
    CollectOne(said[2], ReplyIdsOf);
    CollectAppend([said[1]], [said[2]], ReplyIdsOf);
    CollectAppend([said[0]], [said[1]] + [said[2]], ReplyIdsOf);
  }
}
