/** The session object: the fields its three threads share, and the steps they take on them. */
module KcpSessions {
  import opened Bytes
  import opened Wrappers
  import opened Crypto
  import opened Buffers
  import opened Protobuf
  import opened Frames
  import opened Sessions
  import opened SessionLaws
  import Handshakes

  /** One turn of the packet handler's loop. */
  function Turn(env: Env, s: Session, stamps: Stamps): Session {
    if s.queue == [] then s
    else
      var last := |s.queue| - 1;
      var taken := Handled(s.queue[last], stamps);
      Dispatched(env, s.(queue := s.queue[..last], handled := s.handled + [taken]), taken)
  }

  /** The whole effect of the switch on the packet id. */
  function Dispatched(env: Env, s: Session, taken: Handled): Session {
    if Refused(env, taken.request) then s.(fault := UidNotANumber)
    else if NeedsKey(taken.request.id) && s.mtKey == [] then s.(fault := EmptyKeyOnSend)
    else WithKey(s, taken.request.id == GET_PLAYER_TOKEN_REQ, env.SessionKey(), Wires(env, Replies(taken)))
  }

  /** What is sent, after a switch to the key when it was asked for. */
  function WithKey(s: Session, token: bool, key: seq<byte>, out: seq<seq<byte>>): Session {
    s.(useMT := s.useMT || token, mtKey := if token then key else s.mtKey, sent := s.sent + out)
  }

  /** The steps of one turn when nothing comes between them: one, or three for a token request. */
  function Steps(env: Env, s: Session, stamps: Stamps): Session {
    var s1 := HandlerStep(env, s, stamps);
    if s1.pc.Idle? then s1 else HandlerStep(env, HandlerStep(env, s1, stamps), stamps)
  }

  lemma TurnIsSteps(env: Env, s: Session, stamps: Stamps)
    requires s.pc.Idle? && s.fault == NoFault && (s.mtKey == [] || s.mtKey == env.SessionKey())
    ensures Turn(env, s, stamps) == Steps(env, s, stamps)
  {
    if s.queue != [] {
      var last := |s.queue| - 1;
      var taken := Handled(s.queue[last], stamps);
      var t := s.(queue := s.queue[..last], handled := s.handled + [taken]);
      BeginCases(env, t, taken);
      if taken.request.id == GET_PLAYER_TOKEN_REQ {
        SendAllReady(env, t.(useMT := true, mtKey := env.SessionKey()), Replies(taken));
      }
    }
  }

  method HandshakeReply(conv: u32, token: u32) returns (reply: seq<byte>)
    ensures reply == Handshakes.Reply(conv, token)
  {
    var handshake := new Handshakes.Handshake();
    handshake.magic1, handshake.magic2 := Handshakes.SEND_BACK_1, Handshakes.SEND_BACK_2;
    handshake.conv, handshake.token := conv, token;
    reply := handshake.Encode();
  }

  /** A session object that has not been told what it is for. */
  function Unopened(uid: nat, endpoint: Endpoint): Session {
    Session(Identity(uid, 0, endpoint, 0, false, 0, 0, []), Closed, 0, [], None, [],
            false, [], Idle, NoFault, {}, [], [], [])
  }

  /** Every packet of the queue still reads as it did when it was queued. */
  ghost predicate Intact(queue: seq<BasePacket>, queued: seq<Packet>, arrays: set<array<byte>>)
    reads arrays
  {
    && |queued| == |queue|
    && forall i :: 0 <= i < |queue| ==> queue[i].data.base in arrays && queue[i].Holds(queued[i])
  }

  /** Between two turns of the handler the flag says whether there is a key. */
  predicate KeySound(env: Env, useMT: bool, mtKey: seq<byte>) {
    useMT == (mtKey != []) && (mtKey == [] || mtKey == env.SessionKey())
  }

  /** The registry, g_Clients. */
  class Registry {
    var clients: map<u32, Kcp>

    constructor ()
      ensures clients == map[]
    {
      clients := map[];
    }
  }

  /** What has happened to a session that no other field tells. */
  datatype History = History(
    answeredAt: nat, replies: seq<seq<byte>>, sources: set<Endpoint>, enqueued: seq<Packet>, handled: seq<Handled>)

  class Kcp {
    const env: Env
    const registry: Registry
    ghost const uid: nat
    const endpoint: Endpoint
    const startTime: nat
    const recvBuf: array<byte>
    var ipPortNum: u32
    var state: ConnectionState
    var created: bool
    var conv: u32
    var token: u32
    var lastPacketTime: nat
    /** The complete messages waiting inside the ikcpcb object. */
    var inbox: seq<seq<byte>>
    var packetQueue: seq<BasePacket>
    var shouldUseMT: bool
    var mtKey: seq<byte>
    /** What ended the program in this session, if anything did. */
    var fault: Fault
    ghost var sent: seq<seq<byte>>
    ghost var past: History
    /** The queued packets as they read when they were put there, and still do. */
    ghost var queued: seq<Packet>
    /** The decrypted arrays the queued packets point into. */
    ghost var arrays: set<array<byte>>

    ghost predicate Valid()
      reads this`arrays, this`packetQueue, this`queued, this`shouldUseMT, this`mtKey, arrays
    {
      && recvBuf.Length == RECV_BUFFER_SIZE
      && recvBuf !in arrays
      && Intact(packetQueue, queued, arrays)
      && KeySound(env, shouldUseMT, mtKey)
    }

    ghost function Id(): Identity
      reads this
    {
      Identity(uid, ipPortNum, endpoint, past.answeredAt, created, conv, token, past.replies)
    }

    ghost function View(): Session
      reads this
    {
      Session(Id(), state, lastPacketTime, inbox, None, queued, shouldUseMT, mtKey, Idle, fault,
              past.sources, past.enqueued, past.handled, sent)
    }

    constructor (env: Env, registry: Registry, ghost uid: nat, endpoint: Endpoint, now: nat)
      ensures Valid() && this.env == env && this.registry == registry && fresh(recvBuf) && arrays == {}
      ensures this.uid == uid && this.endpoint == endpoint && View() == Unopened(uid, endpoint)
    {
      this.env, this.registry, this.endpoint, startTime := env, registry, endpoint, now;
      this.uid := uid;
      recvBuf := new byte[RECV_BUFFER_SIZE];
      ipPortNum, state, created, conv, token, lastPacketTime := 0, Closed, false, 0, 0, 0;
      inbox, packetQueue, shouldUseMT, mtKey := [], [], false, [];
      fault := NoFault;
      past, sent, queued, arrays := History(0, [], {}, [], []), [], [], {};
    }

    /** The key incoming messages are decrypted with; never empty between two turns of the handler. */
    function Key(): Key
      requires Valid()
      reads this, arrays
    {
      if shouldUseMT then mtKey else env.dispatchKey
    }

    method AcceptNonblock()
      modifies this`state
      ensures state == HandshakeWait
    {
      state := HandshakeWait;
    }

    method Initialize()
      modifies this`state, this`created
      ensures created && state == Connected
    {
      created := true;
      state := Connected;
    }

    /** The numbers of the session, and the datagram that tells them to the peer. */
    method Identify(now: nat)
      modifies this`conv, this`token, this`past
      ensures conv == ConvAt(now) && token == TokenAt(now)
      ensures past == old(past).(answeredAt := now, replies := old(past.replies) + [Handshakes.Reply(conv, token)])
    {
      conv, token := ConvAt(now), TokenAt(now);
      var reply := HandshakeReply(conv, token);
      past := past.(answeredAt := now, replies := past.replies + [reply]);
    }

    method AnswerHandshake(now: nat)
      modifies this`conv, this`token, this`past, this`created, this`state
      ensures View() == old(View()).(state := Connected, id := Answered(old(Id()), now))
    {
      Identify(now);
      Initialize();
    }

    /** `delivered` are the messages the reliable layer completes with this datagram. */
    method Input(now: nat, delivered: seq<seq<byte>>)
      requires Valid()
      modifies this`lastPacketTime, this`inbox, this`conv, this`token, this`past, this`created, this`state
      ensures Valid()
      ensures View() == Sessions.Input(old(View()), now, delivered)
    {
      lastPacketTime := now;
      if state == Connected {
        inbox := inbox + delivered;
      } else if state == HandshakeWait {
        AnswerHandshake(now);
      }
    }

    /**
      The oldest message, copied into the one receive buffer every call returns a
      view of. A message longer than the buffer is copied past its end.
    */
    method Recv() returns (data: Span)
      requires Valid()
      modifies this`inbox, this`fault, recvBuf
      ensures Valid() && data.Valid() && data.base == recvBuf
      ensures (View(), data.Content()) == Sessions.Recv(old(View()))
    {
      if inbox == [] || |inbox[0]| == 0 || |inbox[0]| > RECV_BUFFER_SIZE {
        fault := if inbox != [] && |inbox[0]| > RECV_BUFFER_SIZE then ReceiveOverrun else fault;
        data := Span(recvBuf, 0, 0);
        assert data.Content() == [];
        return;
      }
      var message := inbox[0];
      inbox := inbox[1..];
      forall i | 0 <= i < |message| {
        recvBuf[i] := message[i];
      }
      data := Span(recvBuf, 0, |message|);
      assert data.Content() == message;
    }

    method SetUseMT(state: bool)
      modifies this`shouldUseMT
      ensures shouldUseMT == state
    {
      shouldUseMT := state;
    }

    method GenerateMTKey(seed: u64)
      modifies this`mtKey
      ensures mtKey == DerivedKey(env.stream, seed) && |mtKey| == 4096
      ensures forall k :: 0 <= k < 4096 ==> mtKey[k] == BigEndian(env.stream(env.stream(seed, 0), 1 + k / 8), 8)[k % 8]
    {
      mtKey := GenerateKey(env.stream, seed);
    }

    /** Encrypts the built frame under one of the two keys and hands it to the reliable layer. */
    method Send(packet: BufferView, useDispatchKey: bool) returns (alive: bool)
      requires mtKey == [] || mtKey == env.SessionKey()
      modifies this`sent, this`fault
      ensures alive == (useDispatchKey || mtKey != [] || packet.vector.bytes == [])
      ensures fault == if alive then old(fault) else EmptyKeyOnSend
      ensures var key := if useDispatchKey then env.dispatchKey else env.SessionKey();
              sent == old(sent) + if alive then [XorBytes(packet.vector.bytes, key)] else []
    {
      if !useDispatchKey && mtKey == [] && packet.vector.bytes != [] {
        fault := EmptyKeyOnSend;
        return false;
      }
      var encrypted := XorVector(packet.vector.bytes, if useDispatchKey then env.dispatchKey else mtKey);
      sent := sent + [encrypted[..]];
      return true;
    }

    /** A reply without a request of its own: the sequence id is zero. */
    method SendNotice(id: u16, stamp: Stamp, useDispatchKey: bool) returns (alive: bool)
      requires (mtKey == [] || mtKey == env.SessionKey()) && id < 0x8000
      modifies this`sent, this`fault
      ensures alive == (useDispatchKey || mtKey != [])
      ensures fault == if alive then old(fault) else EmptyKeyOnSend
      ensures sent == old(sent) + if alive then [Wire(env, Outgoing(Notice(id, stamp), useDispatchKey))] else []
    {
      var packet := BuildMessage(stamp.body, id, 0, stamp.time);
      alive := Send(packet, useDispatchKey);
    }

    method HandlePlayerTokenReq(taken: Handled)
      requires taken.request.id == GET_PLAYER_TOKEN_REQ
      modifies this`sent, this`fault, this`shouldUseMT, this`mtKey
      ensures if env.uidConverts(taken.request.data) then
                shouldUseMT && mtKey == env.SessionKey() && fault == old(fault)
              else
                shouldUseMT == old(shouldUseMT) && mtKey == old(mtKey) && fault == UidNotANumber
      ensures sent == old(sent) + if env.uidConverts(taken.request.data) then Wires(env, Replies(taken)) else []
    {
      if !env.uidConverts(taken.request.data) {
        fault := UidNotANumber;
        return;
      }
      SetUseMT(true);
      GenerateMTKey(SECRET_KEY_SEED);
      var _ := SendNotice(GET_PLAYER_TOKEN_RSP, taken.stamps[0], true);
    }

    method HandlePingReq(taken: Handled)
      requires (mtKey == [] || mtKey == env.SessionKey()) && taken.request.id == PING_REQ
      modifies this`sent, this`fault
      ensures fault == if mtKey == [] then EmptyKeyOnSend else old(fault)
      ensures sent == old(sent) + if mtKey == [] then [] else Wires(env, Replies(taken))
    {
      var clientTime := PingReqClientTime(taken.request.data);
      PingRspRoundTrip(clientTime);
      var sequence := taken.request.head.clientSequenceId;
      var packet := BuildMessage(PingRspBytes(clientTime), PING_RSP, sequence, taken.stamps[0].time);
      var _ := Send(packet, false);
    }

    /** Six sends; when the first one finds no key the program ends there. */
    method HandlePlayerLoginReq(taken: Handled)
      requires (mtKey == [] || mtKey == env.SessionKey()) && taken.request.id == PLAYER_LOGIN_REQ
      modifies this`sent, this`fault
      ensures fault == if mtKey == [] then EmptyKeyOnSend else old(fault)
      ensures sent == old(sent) + if mtKey == [] then [] else Wires(env, Replies(taken))
    {
      var alive := SendNotice(OPEN_STATE_UPDATE_NOTIFY, taken.stamps[0], false);
      if alive {
        alive := SendNotice(STORE_WEIGHT_LIMIT_NOTIFY, taken.stamps[1], false);
        alive := SendNotice(PLAYER_STORE_NOTIFY, taken.stamps[2], false);
        alive := SendNotice(AVATAR_DATA_NOTIFY, taken.stamps[3], false);
        alive := SendNotice(PLAYER_ENTER_SCENE_NOTIFY, taken.stamps[4], false);
        alive := SendNotice(GET_PLAYER_TOKEN_RSP, taken.stamps[5], true);
        ghost var out := Wires(env, Replies(taken));
        SixPushed(old(sent), out);
      }
    }

    /** The switch on the packet id. */
    method Dispatch(taken: Handled)
      requires mtKey == [] || mtKey == env.SessionKey()
      modifies this`sent, this`fault, this`shouldUseMT, this`mtKey
      ensures var refused, failed := Refused(env, taken.request), NeedsKey(taken.request.id) && old(mtKey) == [];
              var token := taken.request.id == GET_PLAYER_TOKEN_REQ && !refused;
              && fault == (if refused then UidNotANumber else if failed then EmptyKeyOnSend else old(fault))
              && sent == old(sent) + (if refused || failed then [] else Wires(env, Replies(taken)))
              && shouldUseMT == (old(shouldUseMT) || token)
              && mtKey == if token then env.SessionKey() else old(mtKey)
    {
      if taken.request.id == GET_PLAYER_TOKEN_REQ {
        HandlePlayerTokenReq(taken);
      } else if taken.request.id == PING_REQ {
        HandlePingReq(taken);
      } else if taken.request.id == PLAYER_LOGIN_REQ {
        HandlePlayerLoginReq(taken);
      } else {
        NothingOwed(env, sent);
      }
    }

    /** push_front(). */
    method PushPacket(packet: BasePacket, ghost value: Packet)
      requires Valid() && packet.Holds(value) && packet.data.base != recvBuf
      modifies this`packetQueue, this`queued, this`past, this`arrays
      ensures Valid() && arrays == old(arrays) + {packet.data.base}
      ensures queued == [value] + old(queued) && past == old(past).(enqueued := old(past.enqueued) + [value])
    {
      packetQueue, queued := [packet] + packetQueue, [value] + queued;
      past := past.(enqueued := past.enqueued + [value]);
      arrays := arrays + {packet.data.base};
    }

    /** back() and pop_back(). */
    method PopPacket(stamps: Stamps) returns (taken: Handled)
      requires Valid() && packetQueue != []
      modifies this`packetQueue, this`queued, this`past
      ensures Valid() && taken == Handled(old(queued)[old(|queued|) - 1], stamps)
      ensures View() == old(View()).(queue := old(queued)[..old(|queued|) - 1], handled := old(past.handled) + [taken])
    {
      var last := |packetQueue| - 1;
      var packet := packetQueue[last];
      assert packet.Holds(queued[last]);
      var data := packet.data.base[packet.data.start..packet.data.start + packet.data.size];
      taken := Handled(Packet(packet.magicStart, packet.id, packet.metadataSize, packet.dataSize,
                              packet.head, data, packet.magicEnd), stamps);
      packetQueue, queued := packetQueue[..last], queued[..last];
      past := past.(handled := past.handled + [taken]);
    }

    method Answer(taken: Handled)
      requires Valid()
      modifies this`sent, this`fault, this`shouldUseMT, this`mtKey
      ensures Valid() && View() == Dispatched(env, old(View()), taken)
    {
      ghost var s := View();
      Dispatch(taken);
      assert View() == s.(useMT := shouldUseMT, mtKey := mtKey, fault := fault, sent := sent);
    }

    /** One turn of the handler's loop; it ends with the connection. */
    method PacketQueueHandler(stamps: Stamps) returns (running: bool)
      requires Valid() && fault == NoFault
      modifies this`packetQueue, this`queued, this`past, this`sent, this`fault, this`shouldUseMT, this`mtKey
      ensures Valid() && running == (old(state) == Connected)
      ensures View() == if running then Turn(env, old(View()), stamps) else old(View())
    {
      running := state == Connected;
      if running && packetQueue != [] {
        var taken := PopPacket(stamps);
        Answer(taken);
      }
    }

    /** One turn of the background loop: an idle or closed session takes its entry out of the registry. */
    method Background(now: nat) returns (released: bool)
      requires Valid()
      modifies this`state, registry
      ensures Valid() && View() == Tick(old(View()), now)
      ensures released == (old(state) != Connected || now - old(lastPacketTime) > 20)
      ensures state == if released then Disconnected else old(state)
      ensures registry.clients == if released then old(registry.clients) - {ipPortNum} else old(registry.clients)
    {
      released := state != Connected || now - lastPacketTime > IDLE_SECONDS;
      if released {
        state := Disconnected;
        registry.clients := registry.clients - {ipPortNum};
      }
    }
  }

  lemma SixPushed<T>(s: seq<T>, t: seq<T>)
    requires |t| == 6
    ensures s + [t[0]] + [t[1]] + [t[2]] + [t[3]] + [t[4]] + [t[5]] == s + t
  {
  }

  /** The conversion of an unsigned field to the constructor's int, undone by the field's own type. */
  function AsInt32(v: u32): (r: int32)
    ensures r % 0x1_0000_0000 == v
  {
    if v < 0x8000_0000 then v else v - 0x1_0000_0000
  }

  /** A std::string body wrapped in its frame. */
  method BuildMessage(body: Body, id: u16, clientSequence: u32, time: u64) returns (packet: BufferView)
    requires id < 0x8000
    ensures fresh(packet) && packet.vector.bytes == Message(id, PacketHead(clientSequence, time), body).Bytes()
  {
    var base := new byte[|body|](i requires 0 <= i < |body| => body[i]);
    var data := Span(base, 0, |body|);
    assert data.Content() == body;
    var signed := AsInt32(clientSequence);
    SmallMod(id, U16);
    packet := BuildPacket(data, id, signed, time);
    assert Stamped(signed, time) == PacketHead(clientSequence, time);
  }
}
