/**
  One session of the server as a value: what each of its steps does, whichever
  thread takes it. The packet handler is split where another thread can observe
  it: the key flag is set before the key exists, and the key before the reply.
*/
module Sessions {
  import opened Bytes
  import opened Wrappers
  import opened Crypto
  import opened Protobuf
  import opened Frames
  import Handshakes

  const SECRET_KEY_SEED: u64 := 0x123456789ABCDEF0
  const IDLE_SECONDS: int := 20
  /** The size of the one buffer a session receives into. */
  const RECV_BUFFER_SIZE: nat := 65534

  const GET_PLAYER_TOKEN_REQ: u16 := 109
  const GET_PLAYER_TOKEN_RSP: u16 := 131
  const PING_REQ: u16 := 32
  const PING_RSP: u16 := 17
  const PLAYER_LOGIN_REQ: u16 := 141
  const OPEN_STATE_UPDATE_NOTIFY: u16 := 119
  const STORE_WEIGHT_LIMIT_NOTIFY: u16 := 631
  const PLAYER_STORE_NOTIFY: u16 := 609
  const AVATAR_DATA_NOTIFY: u16 := 1695
  const PLAYER_ENTER_SCENE_NOTIFY: u16 := 209

  datatype Endpoint = Endpoint(ip: u32, port: u16)

  /** The registry key of an endpoint: a 32-bit sum. */
  function RouteKey(ep: Endpoint): u32 {
    (ep.ip + ep.port) % 0x1_0000_0000
  }

  type Key = k: seq<byte> | |k| > 0 witness [0]

  /**
    What the server is started with: its dispatch key file and its random engine.
    `uidConverts` tells the token request bodies whose account uid std::stol accepts.
  */
  datatype Env = Env(dispatchKey: Key, stream: Stream, uidConverts: seq<byte> -> bool) {
    function SessionKey(): Key {
      DerivedKey(stream, SECRET_KEY_SEED)
    }
  }

  /** The key of every session: 512 outputs of the engine seeded with its first output for 0x123456789ABCDEF0. */
  lemma SessionKeyBytes(env: Env, k: nat)
    requires k < 4096
    ensures |env.SessionKey()| == 4096
    ensures env.SessionKey()[k] == BigEndian(env.stream(env.stream(0x123456789ABCDEF0, 0), 1 + k / 8), 8)[k % 8]
  {
  }

  datatype ConnectionState = Closed | Disconnected | HandshakeConnect | HandshakeWait | Connected

  /** Where time(0) and the protobuf library leave the content of a reply open. */
  datatype Stamp = Stamp(time: u64, body: Body)
  type Stamps = s: seq<Stamp> | |s| == 6 witness seq(6, i => Stamp(0, []))

  /** A request taken off the queue, with what its replies will be filled with. */
  datatype Handled = Handled(request: Packet, stamps: Stamps)

  /** Where the packet handler stands inside a token request. */
  datatype HandlerPc = Idle | FlagSet(taken: Handled) | KeyReady(taken: Handled)

  /**
    What can end the program: Xor divides by the key's length, Recv copies a
    message into the receive buffer whatever its length, and nothing in the handler
    thread catches what std::stol throws.
  */
  datatype Fault = NoFault | EmptyKeyOnReceive | EmptyKeyOnSend | ReceiveOverrun | UidNotANumber

  /** What a session is given when it is accepted, at the time `answeredAt`; `replies` are its handshake replies. */
  datatype Identity = Identity(
    uid: nat, key: u32, endpoint: Endpoint, answeredAt: nat,
    created: bool, conv: u32, token: u32, replies: seq<seq<byte>>)

  /** The last four fields record what has happened so far. */
  datatype Session = Session(
    id: Identity, state: ConnectionState, lastPacketTime: nat,
    inbox: seq<seq<byte>>, inHand: Option<seq<byte>>, queue: seq<Packet>,
    useMT: bool, mtKey: seq<byte>, pc: HandlerPc, fault: Fault,
    sources: set<Endpoint>, enqueued: seq<Packet>, handled: seq<Handled>, sent: seq<seq<byte>>)

  // ----- the receiving coroutine -----

  function ConvAt(now: nat): u32 {
    now % 0x1_0000_0000
  }

  function TokenAt(now: nat): u32 {
    XorBound(0xFFCCEEBB, now / 0x1_0000_0000 % 0x1_0000_0000, 32);
    TwoToThirtyTwo();
    XorBits(0xFFCCEEBB, now / 0x1_0000_0000 % 0x1_0000_0000, 32)
  }

  lemma TwoToThirtyTwo()
    ensures TwoTo(32) == U32
  {
    assert TwoTo(8) == 0x100 by { assert TwoTo(4) == 16; }
    assert TwoTo(16) == 0x1_0000 by { assert TwoTo(12) == 0x1000; }
    assert TwoTo(24) == 0x100_0000 by { assert TwoTo(20) == 0x10_0000; }
    assert TwoTo(28) == 0x1000_0000;
  }

  /** The handshake fixes conv and token, is answered, and creates the reliable layer's object. */
  function Answered(id: Identity, now: nat): Identity {
    var conv, token := ConvAt(now), TokenAt(now);
    id.(answeredAt := now, conv := conv, token := token, created := true,
        replies := id.replies + [Handshakes.Reply(conv, token)])
  }

  /**
    Input at time `now`. `delivered` are the messages the reliable layer completes
    with this datagram; in the handshake state they play no part.
  */
  function Input(s: Session, now: nat, delivered: seq<seq<byte>>): Session {
    var s := s.(lastPacketTime := now);
    match s.state
    case Connected => s.(inbox := s.inbox + delivered)
    case HandshakeWait => s.(state := Connected, id := Answered(s.id, now))
    case _ => s
  }

  /** In any state the time is stamped; only a connected session takes messages, only a waiting one is answered. */
  lemma InputStamps(s: Session, now: nat, delivered: seq<seq<byte>>)
    ensures var t := Input(s, now, delivered);
            && t.lastPacketTime == now
            && t.inbox == s.inbox + (if s.state == Connected then delivered else [])
            && t.state == (if s.state == HandshakeWait then Connected else s.state)
            && (s.state != HandshakeWait ==> t == s.(lastPacketTime := now, inbox := t.inbox))
  {
  }

  /** Recv: the oldest complete message, unless it is empty. */
  function Recv(s: Session): (Session, seq<byte>) {
    if s.inbox == [] || s.inbox[0] == [] then (s, [])
    else if |s.inbox[0]| > RECV_BUFFER_SIZE then (s.(fault := ReceiveOverrun), [])
    else (s.(inbox := s.inbox[1..]), s.inbox[0])
  }

  function Receive(s: Session, from: Endpoint, now: nat, delivered: seq<seq<byte>>): Session {
    var (s, data) := Recv(Input(s, now, delivered));
    s.(inHand := if data == [] then None else Some(data), sources := s.sources + {from})
  }

  /** Key choice, decryption, parsing and enqueueing of the message in hand. */
  function Decrypt(env: Env, s: Session): Session
    requires s.inHand.Some?
  {
    var data, s := s.inHand.value, s.(inHand := None);
    var key := if s.useMT then s.mtKey else env.dispatchKey;
    if key == [] then s.(fault := EmptyKeyOnReceive) else Queued(s, Parse(XorBytes(data, key)))
  }

  /** A frame goes to the front of the queue; anything else is dropped with the exception. */
  function Queued(s: Session, parsed: Option<Packet>): Session {
    match parsed
    case None => s
    case Some(packet) => s.(queue := [packet] + s.queue, enqueued := s.enqueued + [packet])
  }

  function Open(uid: nat, ep: Endpoint, now: nat): Session {
    var id := Identity(uid, RouteKey(ep), ep, 0, false, 0, 0, []);
    Input(Session(id, HandshakeWait, 0, [], None, [], false, [], Idle, NoFault, {ep}, [], [], []), now, [])
  }

  // ----- the packet handler thread -----

  datatype Outgoing = Outgoing(message: Message, dispatch: bool)

  function Notice(id: u16, stamp: Stamp): Message {
    Message(id, PacketHead(0, stamp.time), stamp.body)
  }

  function PingReply(h: Handled): Message {
    PingRspRoundTrip(PingReqClientTime(h.request.data));
    Message(PING_RSP, PacketHead(h.request.head.clientSequenceId, h.stamps[0].time),
            PingRspBytes(PingReqClientTime(h.request.data)))
  }

  function Replies(h: Handled): seq<Outgoing> {
    var id, st := h.request.id, h.stamps;
    if id == GET_PLAYER_TOKEN_REQ then [Outgoing(Notice(GET_PLAYER_TOKEN_RSP, st[0]), true)]
    else if id == PING_REQ then [Outgoing(PingReply(h), false)]
    else if id == PLAYER_LOGIN_REQ then
      [ Outgoing(Notice(OPEN_STATE_UPDATE_NOTIFY, st[0]), false),
        Outgoing(Notice(STORE_WEIGHT_LIMIT_NOTIFY, st[1]), false),
        Outgoing(Notice(PLAYER_STORE_NOTIFY, st[2]), false),
        Outgoing(Notice(AVATAR_DATA_NOTIFY, st[3]), false),
        Outgoing(Notice(PLAYER_ENTER_SCENE_NOTIFY, st[4]), false),
        Outgoing(Notice(GET_PLAYER_TOKEN_RSP, st[5]), true) ]
    else []
  }

  function Send(env: Env, s: Session, o: Outgoing): Session {
    var key := if o.dispatch then env.dispatchKey else s.mtKey;
    if key == [] then s.(fault := EmptyKeyOnSend)
    else s.(sent := s.sent + [XorBytes(o.message.Bytes(), key)])
  }

  function SendAll(env: Env, s: Session, out: seq<Outgoing>): Session
    decreases |out|
  {
    if out == [] || s.fault != NoFault then s else SendAll(env, Send(env, s, out[0]), out[1..])
  }

  /** A token request whose account uid is not a number. */
  predicate Refused(env: Env, request: Packet) {
    request.id == GET_PLAYER_TOKEN_REQ && !env.uidConverts(request.data)
  }

  /** The dispatch on the packet id. */
  function Begin(env: Env, s: Session, taken: Handled): Session {
    if Refused(env, taken.request) then s.(fault := UidNotANumber)
    else if taken.request.id == GET_PLAYER_TOKEN_REQ then s.(useMT := true, pc := FlagSet(taken))
    else SendAll(env, s, Replies(taken))
  }

  function HandlerStep(env: Env, s: Session, stamps: Stamps): Session {
    match s.pc
    case Idle =>
      if s.queue == [] then s
      else
        var last := |s.queue| - 1;
        var taken := Handled(s.queue[last], stamps);
        Begin(env, s.(queue := s.queue[..last], handled := s.handled + [taken]), taken)
    case FlagSet(taken) => s.(mtKey := env.SessionKey(), pc := KeyReady(taken))
    case KeyReady(taken) => SendAll(env, s.(pc := Idle), Replies(taken))
  }

  // ----- the background thread -----

  predicate Expired(s: Session, now: nat) {
    s.state != Connected || now - s.lastPacketTime > IDLE_SECONDS
  }

  function Tick(s: Session, now: nat): Session {
    if Expired(s, now) then s.(state := Disconnected) else s
  }

  /** A retired session takes no more steps, nor does one whose program has faulted. */
  predicate Runs(s: Session) {
    s.state == Connected && s.fault == NoFault
  }
}
