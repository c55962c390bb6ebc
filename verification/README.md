# A verified model of the encrypted packet session

The server speaks to its players in encrypted frames over a reliable datagram
layer. Three threads share each session: the coroutine that receives datagrams,
decrypts them and queues the packets; the packet handler that takes packets off
the queue, answers them and, on a token request, switches the session to a
derived key; and the background loop that releases a session gone quiet. This
project models that path from single bytes up to whole runs, and proves:

* **The session is a plain FIFO channel.** A client that encrypts with the
  dispatch key until it has read the token reply, says nothing while it waits
  for it, and with the derived key afterwards, is served as if there were no
  encryption at all. What the server's side holds (the requests it handled, the
  packets in its queue, and what the encrypted bytes in hand, in the inbox and on
  the wire decrypt to) is a queue of messages in clear; in every interleaving of
  client, link, receiver, handler and timer it is exactly what the client said,
  and each action does to it what its name says, even though the flag, the key
  and the reply are set at different moments in another thread than the one
  decrypting (`Channels.SessionIsFifo`, `Channels.EveryStepRefines`). The same
  holds of one client among all the peers of a whole server, whenever it joins
  (`Peers.EveryClientIsFifo`).
* **And it delivers.** As long as it is connected, the server can go on by itself
  until everything the client has said is handled; that takes one further
  datagram for each message not received yet, and no fewer will do
  (`Progress.EverythingIsHandled`, `Progress.HandlingNeedsDatagrams`).
* **The client's rules are exactly the needed ones.** Besides waiting for the
  token reply, the client asks for its token before it pings or logs in, gives an
  account uid that is a number, and says nothing over 65534 bytes. For every list
  of messages that keeps the rules, wherever the client then is, its next message
  keeps them if and only if no interleaving ends the program
  (`Discipline.RulesExactly`).
* **Exactly when a step ends the program**: a session that runs stops in four
  ways and no other (`Faults.FaultExactly`), and there is a run from the start to
  each: a ping or login before the token request, a message decrypted between the
  key flag and the key, a message longer than the receive buffer, and a token
  request whose account uid `std::stol` does not accept. Which bodies those are is
  a parameter.
* **Invariants of every run of the server**, whatever peers and threads do: the
  registry is exactly the connected sessions; the key is absent or the derived
  one; packets are handled in the order they were queued; the outbound log is
  the replies of the handled requests, in order, and opens to them, at every
  moment and after every fault; the handler fails in exactly the runs that ping or
  log in before asking for a token, or ask with an account uid that is no number;
  a session is released exactly when it has been silent for more than 20
  seconds; and datagrams are routed home in every run over a set of endpoints
  if and only if no two of them share `(ip + port) mod 2^32`.
* **Exactly what a datagram can do**: it changes the queue if and only if the
  decrypted bytes are as long as their own header claims, the registry if and
  only if it is a handshake from an endpoint whose key is free, and never another
  session; and a session receives nothing more, in any continuation, if and only
  if its oldest message is empty or longer than the buffer.
* **Round trips of the wire formats**: a frame built, encrypted, decrypted and
  parsed gives back every field, exactly when its body is shorter than 2^32
  bytes; frames are self-delimiting, so a concatenation of them comes from one
  list only; any script of fields written by `DynamicBuffer` is read back by
  `BufferView`, to the last byte; the parser accepts exactly the inputs as long
  as their header claims.
* **The bytes themselves, told with the numbers of the wire**: which bits `Xor`
  sets (`Crypto.XorExactly`), the 4096 bytes of the session key
  (`Sessions.SessionKeyBytes`), a frame from `45 67` to `89 ab`
  (`Frames.FrameOnWire`), what is read from any protobuf head or ping, whatever
  fields it has and in whatever order (`WireFormat.HeadRead`,
  `WireFormat.PingRead`), and what packets 109, 32 and 141 are answered with
  (`Transcripts.TokenAnswered`, `Transcripts.PingAnswered`,
  `Transcripts.LoginAnswered`, `Discipline.TokenPingLogin`).
* **The objects do this**: the classes `BufferView`, `DynamicBuffer`,
  `Handshake`, `Kcp` and `GameServer` update their fields, buffers and the
  registry in place, and each method is proved against the functions the
  theorems are about. In particular a queued packet is a view into an array of
  its own, so it still reads the same after any number of later receives into
  the one reused receive buffer.

## Layers

| files | contents |
|---|---|
| `Bytes`, `Seqs`, `Wrappers` | octets, byte order, exclusive or, spans |
| `Buffers`, `FieldScript` | the reader and the appender, and their round trip |
| `Protobuf`, `WireFormat`, `BasePacket` | the frame head, messages as any peer may encode them, the frame, its two constructors |
| `Crypto`, `Handshake` | the cipher, key derivation, the opening datagram |
| `Session`, `SessionLaws`, `Transcript` | one session as a value, and what its steps keep |
| `Server`, `ServerLaws`, `RunLaws` | registry, clock, events; theorems about every run |
| `Faults`, `Datagrams` | which steps end the program; what one datagram does |
| `Channel`, `Peer` | client, link and session together: the FIFO refinement; one client of a whole server |
| `Progress`, `Discipline` | the channel delivers; the client's rules are needed |
| `Kcp`, `GameServer` | the mutable objects, proved against the layers above |

## How the concurrency is modelled

A run is any list of events: a datagram for an endpoint, the decryption of the
message that a datagram made available, one observable step of a packet handler,
one tick of a background loop, the passing of time. An event that cannot happen
where it stands is passed over, so a theorem over all event lists is a theorem
over all interleavings. The handler's work on a token request is three events,
because the receiving coroutine can see the flag before the key and the key
before the reply. Decisions behind this:

* KCP is an ordered reliable list of messages: each datagram comes with the
  messages it completes, and `Recv` takes one per datagram, so a backlog waits. The
  client reads what the server sent in order, too.
  An empty message at the head blocks `Recv` for good, as in the code
  (`src/game/Kcp.cpp:100-109`, `Datagrams.BlockedExactly`).
* Queue operations are atomic. The class has a mutex but no code locks it
  (`src/game/Kcp.h:74`).
* The handler and background threads start inside `Initialize`, before
  `ip_port_num` and the registry entry are set (`src/game/GameServer.cpp:119-122`);
  accepting a handshake is one event here.
* A released session takes no more steps. The code deletes the object while its
  handler thread may still poll it (`src/game/Kcp.cpp:34-38`).
* One call of `ParsePacket` or one turn of a thread reads the clock once, so conv
  and token are cut from the same time, that of `Input`; the code reads it anew
  for each (`src/game/Kcp.cpp:118-140`). The clock never goes back and fits the
  field that holds it. The constructor's own reading, `startTime`, is kept by the
  object and read by nothing.
* Lookups, insertions and erasures in the registry are atomic, too: the map is
  shared by the receiving coroutine and every background thread without a lock.
* The dispatch key file is not empty: an empty one would make every receive
  divide by zero.
* Constructor arguments and fields the code leaves unset (`_State` before
  `AcceptNonblock`, `lastPacketTime` before `Input`) have fixed values here;
  nothing reads them before they are set.
* A non-empty packet with an empty key is a division by zero in `Xor`
  (`src/util/Crypto.cpp:14`), and a message longer than 65534 bytes is copied past
  the end of the receive buffer (`src/game/Kcp.cpp:100-103`). An account uid that
  is not a number makes `std::stol` throw in the detached handler thread, where
  nothing catches it (`src/game/packets/PlayerTokenReq.cpp:23`). All three are
  faults, a field of the session, after which it takes no more steps. Which token
  request bodies `std::stol` accepts is a parameter, `uidConverts`.
* `ReadView(0)` at the very end of the data is the empty slice. The code takes the
  address of the element one past the end there (`src/util/BufferView.cpp:70-71`).
* The random engine is its output stream, a function of seed and index, as
  section 26.5.3.2 [rand.eng.mers] of ISO/IEC 14882:2011 fixes it.
* Protocol Buffers fields follow the encoding guide, sections "Base 128 Varints"
  and "Message Structure". `ParseFromArray`'s result is not looked at by the
  code, so what was parsed before a malformed field is kept.

## Model

| member | source | states |
|---|---|---|
| Channels.SessionIsFifo | src/game/GameServer.cpp:128-143 | in every run of client, link and session the handled requests are the first messages the client said, and the queued packets and what the bytes in hand, in the inbox and on the wire decrypt to are all the others, in order; no step ends the program, the account uids of the client's token requests being numbers |
| Channels.EveryStepRefines | src/game/GameServer.cpp:128-143 | from any reachable state a permitted saying puts its message at the back of the queue of decrypted messages the server's side stands for, a handler step that takes a request takes the front one, and every other action leaves that queue as it is |
| Channels.StepRefines | src/game/Kcp.cpp:65-83 | the same from any state satisfying the system invariant |
| Channels.RunInv | src/game/GameServer.cpp:136-143 | the system invariant survives any list of actions |
| Channels.NextInv | src/game/GameServer.cpp:136-143 | each action of client, link, receiver, handler or timer keeps the system invariant |
| Channels.HandledIsPrefix | src/game/Kcp.cpp:67-68 | in a state satisfying the invariant handled requests copy the first messages said, and the counts of handled, queued, in hand, in the inbox and on the wire add up to what was said |
| Channels.KeysAgree | src/game/GameServer.cpp:136-139 | the key the receiver picks is the key the message in hand was encrypted with, whatever the handler is in the middle of |
| Channels.DecryptNextInv | src/game/GameServer.cpp:136-143 | decrypting the message in hand queues a copy of the next message said, whose sender used the very same key |
| Channels.ServeInv | src/game/Kcp.cpp:65-83 | a handler step, including the half-finished token request, keeps the system invariant and meets no empty key |
| Channels.ListenInv | src/game/packets/PlayerTokenReq.cpp:36-40 | a client that starts using the derived key on reading the token reply does so only once the server has that key |
| Channels.FirstReply | src/game/packets/PlayerTokenReq.cpp:39-40 | the first thing a session ever sends is the reply to the client's token request, under the dispatch key |
| Channels.AbstractIsSaid | src/game/GameServer.cpp:128-143 | under the invariant, handled requests, then queue, then the decrypted bytes on their way are the client's messages, one for one |
| Channels.DecodedFlight | src/game/GameServer.cpp:136-139 | decrypting a pipeline front to back, with the key changing behind a token request, gives the messages said |
| Channels.NextEnds | src/game/Kcp.cpp:65-68 | an action adds to what was said only by a permitted saying, and to what was handled only by taking one request |
| Progress.EverythingIsHandled | src/game/Kcp.cpp:56-110 | from any point of any run with the session still connected there are deliveries, decryptions and handler steps after which the handled requests are copies of everything said, with one delivery for each message not yet received |
| Progress.HandlingNeedsDatagrams | src/game/GameServer.cpp:129-130 | whatever the run, to have everything handled takes at least that many datagrams |
| Progress.BacklogNeedsDatagrams | src/game/GameServer.cpp:129-130 | in any run at all a backlog shrinks by at most one message for each datagram |
| Progress.PopsAtMostOne | src/game/GameServer.cpp:129-130 | a datagram hands over one message at most, however many it completes |
| Progress.Drain | src/game/Kcp.cpp:56-110 | under the system invariant what is on its way is brought to its end, the client's side staying as it is |
| Progress.ForwardWorks | src/game/Kcp.cpp:56-110 | the next step of receiver or handler always brings that end nearer and meets no fault |
| Discipline.RulesExactly | src/game/GameServer.cpp:128-143 | for a client that has kept the rules, in any of its phases, the next message keeps them if and only if no interleaving before or after it ends the program |
| Discipline.Conversation | src/game/Kcp.cpp:56-110 | whatever a client that keeps the rules says, there is a run in which all of it is handled and the log is the replies called for, in order, each under the key its id tells |
| Discipline.TokenPingLogin | src/game/Kcp.cpp:70-83 | packets 109, 32, 141 are answered with 131, 17, 119, 631, 609, 1695, 209, 131 |
| Discipline.BreachFaults | src/game/GameServer.cpp:128-143 | for every list of messages and the first one that breaks a rule there is an interleaving, given by the lemma, that ends the program |
| Discipline.OneHandled | src/game/Kcp.cpp:70-110 | a message that finds everything calm ends the program exactly with the fault of the rule it breaks, and with none when it breaks none |
| Discipline.GapFaults | src/game/packets/PlayerTokenReq.cpp:36-37 | any message said behind a token request, before its reply is read, can be decrypted between the flag and the key |
| Discipline.CalmAfter | src/game/Kcp.cpp:56-86 | a client that keeps the rules can say anything they allow and find it all handled |
| Discipline.ReplyEndsWaiting | src/game/packets/PlayerTokenReq.cpp:36-40 | when all is handled and the client still waits, its reply is there, and reading it makes the client change keys |
| Peers.EveryClientIsFifo | src/game/GameServer.cpp:96-155 | in any run of the whole server over endpoints with distinct keys, a client that joins at any point is served as by a plain channel, whatever the other peers do |
| Peers.RunProjects | src/game/GameServer.cpp:101-143 | a run of the server, seen from one session and its client, is a run of the channel |
| Peers.MoveProjects | src/game/GameServer.cpp:101-143 | each event of the server is one action of that channel, or none |
| Peers.JoinedIsStart | src/game/GameServer.cpp:104-122 | a handshake accepted after any run starts the channel |
| Faults.FaultExactly | src/game/Kcp.cpp:70-103 | a step stops a running session in exactly four cases, and with the fault of the case: an oldest message over 65534 bytes received, a decryption with the flag and no key, a ping or login taken with no key, a token request taken whose account uid std::stol does not accept |
| Faults.ReceiveFaultExactly | src/game/GameServer.cpp:136-139 | a decryption divides by zero if and only if the flag is set and the key is not, that is between the first two steps of a token request |
| Faults.BadUidFaults | src/game/packets/PlayerTokenReq.cpp:23-23 | the run handshake, token request with such a uid, decrypt, handle ends with what std::stol throws |
| Faults.OversizeOverruns | src/game/Kcp.cpp:98-110 | over a fresh connection one message overruns the buffer if and only if it is longer |
| Faults.PingFirstFaults | src/game/Kcp.cpp:178-180 | the run handshake, ping or login under the dispatch key, decrypt, handle ends in a division by the empty key |
| Faults.ImpatientFaults | src/game/packets/PlayerTokenReq.cpp:36-37 | the run handshake, token request and any further bytes at once, decrypt, one handler step, an empty delivery, decrypt ends in one, too |
| Faults.OpeningRun | src/game/GameServer.cpp:104-143 | a handshake and a first frame under the dispatch key end with that frame alone in the queue |
| SessionLaws.HandlerDoom | src/game/Kcp.cpp:70-83 | a handler step stops the session if and only if it takes a ping or login while there is no key, or a token request whose account uid is not a number |
| ServerLaws.HandlerTakes | src/game/Kcp.cpp:65-68 | a handler step takes exactly the request at the back, when it is between requests and there is one |
| Datagrams.DecryptExactly | src/game/GameServer.cpp:141-153 | the same of decryption alone, from any state with a key |
| Datagrams.FrameParts | src/util/BasePacket.cpp:5-14 | the parser takes exactly the inputs as long as they claim, and each of its fields is read from its place in the bytes |
| Datagrams.RegistryGrowsExactly | src/game/GameServer.cpp:104-122 | a datagram changes the registry if and only if its key is free and it spells the two connect magics; then by one entry, to one new session, and otherwise an unknown peer's datagram changes nothing |
| Datagrams.BlockedExactly | src/game/Kcp.cpp:100-109 | a running session is handed no message in any continuation if and only if its oldest one is empty or longer than the buffer; then nothing is ever queued again |
| Datagrams.BlockedRun | src/game/Kcp.cpp:100-109 | such a message stays at the head through any run |
| Datagrams.UnblockedReceives | src/game/Kcp.cpp:100-106 | without one, the next datagram of the session's endpoint hands a message out |
| RunLaws.RegistryInEveryRun | src/game/GameServer.cpp:101-122 | in every run each registry entry is a connected session whose KCP object exists and whose stored key is its map key, and each connected session is the entry of its key |
| RunLaws.KeysInEveryRun | src/game/packets/PlayerTokenReq.cpp:23-37 | in every run the key is empty or the one derived from the fixed seed, the flag is set exactly when a token request was taken that its uid did not stop, and between turns exactly when the key has 4096 bytes |
| RunLaws.QueueInEveryRun | src/game/Kcp.cpp:65-68 | in every run the packets queued are those handled followed by the queue read back to front; the session answered one handshake, with conv the low half and token the masked high half of the time of its Input |
| RunLaws.SendFaultExactly | src/game/Kcp.cpp:70-83 | the send path meets an empty key in exactly the runs where a ping or login was handled before any token request, and the handler throws in exactly those where a token request with a uid that is no number was; a session the receive path stopped is between the flag and the key |
| RunLaws.TranscriptInEveryRun | src/game/Kcp.cpp:70-83 | at every moment of every run, after each kind of fault too, the outbound log is, in order, the replies of all handled requests but one in progress or one that ended the program; each entry is the frame of its message under the dispatch key if its id is 131 and under the session key otherwise, and opens to it; the ids are those each request calls for and each ping is echoed |
| RunLaws.RunEvolves | src/game/Kcp.cpp:138-150 | from any point onwards a session keeps its conv, token, key flag, key and single handshake reply, stays disconnected once it is, and only adds to what it queued, handled and sent |
| Datagrams.DatagramExactly | src/game/GameServer.cpp:126-153 | a datagram for a registered session leaves registry and every other session alone, and the queue too if and only if the decrypted message has n < 10 or n < 12 + M + D; otherwise the one packet with the id and data at those places is put at the front |
| RunLaws.RoutingExactly | src/game/GameServer.cpp:101-129 | every run over a set of endpoints feeds each datagram only to the session its own endpoint opened, if and only if no two of the endpoints share a registry key |
| RunLaws.RoutedHome | src/game/GameServer.cpp:101-129 | with distinct keys every run routes every datagram home |
| RunLaws.SomeMisrouted | src/game/GameServer.cpp:101-129 | for two endpoints with one key there is a run, found by the lemma, that feeds one's datagram to the other's session |
| RunLaws.SameKeyExactly | src/game/GameServer.cpp:101-101 | two endpoints share a key exactly when their address and port differences cancel modulo 2^32 |
| RunLaws.SpacedKeysDiffer | src/game/GameServer.cpp:101-101 | endpoints whose distinct addresses are at cyclic distance 65536 or more never share a key |
| RunLaws.ReleasedExactlyWhenIdle | src/game/Kcp.cpp:34-39 | after any run from a server with a connected session the background loop releases it if and only if the last datagram for it, or its last packet time at the start when there was none, is more than 20 seconds old, and then removes its own registry entry and no other |
| RunLaws.PunctualNeverReleased | src/game/Kcp.cpp:34-39 | a peer whose datagrams are never more than 20 seconds apart stays connected and registered through any run |
| RunLaws.OpenedNow | src/game/GameServer.cpp:115-122 | whenever a step opens a session, its last packet time, conv, token, key and handshake reply are those of the clock and the endpoint of that event, byte for byte, and everything else is empty |
| RunLaws.ReleasedSinceHandshake | src/game/Kcp.cpp:34-39 | after any run from its handshake, itself after any run, a session is released if and only if more than 20 seconds have passed since the handshake or the last datagram after it |
| RunLaws.FirstReleaseSinceHandshake | src/game/Kcp.cpp:34-39 | in any run that ends with the session released there is the tick that did it, and it came more than 20 seconds after the handshake or the last datagram |
| RunLaws.PunctualSinceHandshake | src/game/Kcp.cpp:34-39 | a peer that is never silent for more than 20 seconds from its handshake on stays connected and registered |
| RunLaws.RunHeard | src/game/Kcp.cpp:112-118 | through any run a connected session's last packet time is the time of the last datagram for its key, from where it stood |
| RunLaws.StepSources | src/game/GameServer.cpp:126-129 | a step feeds a session at most the datagram of an endpoint with the session's own key |
| RunLaws.StepAfter | src/game/GameServer.cpp:126-143 | what any event does to one session depends on that session alone: arrivals for another key and steps of other sessions leave it as it is |
| ServerLaws.StepInv | src/game/GameServer.cpp:96-155 | every event keeps the registry and session invariants |
| ServerLaws.RunInv | src/game/GameServer.cpp:85-89 | every list of events keeps them |
| ServerLaws.ReleaseRegistry | src/game/Kcp.cpp:21-24 | erasing a connected session's key removes exactly its own entry and keeps the registry invariant |
| ServerLaws.RetireInv | src/game/Kcp.cpp:30-39 | a background tick keeps the server invariant; the registry loses exactly the expired session |
| ServerLaws.OpenRegistry | src/game/GameServer.cpp:122-122 | entering a new session under a free key keeps the registry invariant |
| ServerLaws.AcceptInv | src/game/GameServer.cpp:96-130 | a datagram, known or unknown, keeps the server invariant |
| ServerLaws.HandlerKeeps | src/game/Kcp.cpp:65-83 | a handler step leaves identity, state, inbox and enqueued packets alone and only adds to what was handled and sent |
| SessionLaws.OpenInv | src/game/Kcp.cpp:138-150 | an accepted session answers one handshake and satisfies the session invariant |
| SessionLaws.DecryptInv | src/game/GameServer.cpp:136-143 | decryption keeps the session invariant, whichever key it meets and whether or not the frame parses |
| SessionLaws.HandlerInv | src/game/Kcp.cpp:65-83 | every handler step keeps the session invariant: key state, queue order, transcript |
| SessionLaws.DequeueInv | src/game/Kcp.cpp:67-68 | taking the back of the queue keeps the order packets were queued in |
| SessionLaws.EnqueueInv | src/game/GameServer.cpp:143-143 | adding at the front of the queue keeps that order |
| SessionLaws.BeginCases | src/game/Kcp.cpp:70-83 | what dispatching a request leaves: a thrown exception, a set flag, a failed send, or exactly the request's encrypted replies |
| SessionLaws.SendAllReady | src/game/Kcp.cpp:178-187 | with a key a list of replies is sent completely and in order |
| SessionLaws.SendAllWithoutKey | src/game/Kcp.cpp:178-180 | without one, the first reply under the session key already fails and nothing is sent |
| Transcripts.OutboundLog | src/game/packets/PlayerLoginReq.cpp:42-117 | the same of any state under the session invariant |
| Transcripts.TranscriptMessages | src/game/packets/PingReq.cpp:10-17 | over any handled requests: reply ids 131 for 109, 17 for 32, 119, 631, 609, 1695, 209 and 131 for 141, none otherwise; sequence ids and client times of the ping replies are those of the pings, in order |
| Transcripts.ReplyMessages | src/game/Kcp.cpp:70-83 | the same for one request |
| Transcripts.TokenAnswered | src/game/packets/PlayerTokenReq.cpp:39-40 | packet 109 is answered with 131 under the dispatch key, sequence id zero |
| Transcripts.PingAnswered | src/game/packets/PingReq.cpp:8-17 | packet 32, a ping of any fields, is answered with 17 under the session key, with its own sequence id and, in field 8, its last client time |
| Transcripts.LoginAnswered | src/game/packets/PlayerLoginReq.cpp:42-117 | packet 141 is answered with 119, 631, 609, 1695, 209 under the session key and 131 under the dispatch key |
| Transcripts.TranscriptKeys | src/game/packets/PlayerLoginReq.cpp:42-117 | of all replies to any requests exactly those with id 131 go under the dispatch key |
| Transcripts.EncryptedRoundTrip | src/game/Kcp.cpp:178-181 | a frame built, encrypted, decrypted and parsed under one key gives back magics, id, both lengths, head and body, with the cursor at the end |
| Transcripts.WireOpens | src/game/Kcp.cpp:178-181 | what is sent opens, with its key, to the message that was sent |
| Frames.FrameOnWire | src/util/BasePacket.cpp:25-34 | a frame is 45 67, id, length of the head, length of the body modulo 2^32, head, body, 89 ab, all big-endian |
| Frames.FrameRoundTrip | src/util/BasePacket.cpp:3-35 | a built frame followed by anything parses to exactly its own fields, and its length is what its header says |
| Frames.FrameRoundTripExactly | src/util/BasePacket.cpp:28-32 | the body survives if and only if it is shorter than 2^32 bytes |
| Frames.ParseExactness | src/util/BasePacket.cpp:5-14 | parsing succeeds if and only if there are 12 + M + D bytes, M and D read at offsets 4 and 6, and does not depend on anything after them |
| Frames.MessageRoundTrip | src/util/BasePacket.cpp:3-54 | the id, head and body of any message come back, whatever follows it |
| Frames.FramesPrefixFree | src/util/BasePacket.cpp:25-34 | no frame is a proper prefix of another |
| Frames.SplitConcat | src/util/BasePacket.cpp:3-54 | cutting a concatenation of frames gives back the list |
| Frames.ConcatInjective | src/util/BasePacket.cpp:25-34 | a byte stream is the concatenation of at most one list of messages |
| Frames.ReadHeader | src/util/BasePacket.cpp:5-8 | reads the four header words, or fails exactly when fewer than ten bytes are there |
| Frames.ReadMetadata | src/util/BasePacket.cpp:10-11 | reads the head from the next bytes, or fails without moving |
| Frames.ReadBody | src/util/BasePacket.cpp:10-14 | after the header, yields the packet exactly when the announced length is there, its data a view of the input |
| Frames.ParsePacket | src/util/BasePacket.cpp:3-15 | the parsing constructor agrees with the parse function on every input, never reads past the end, and stops at the frame's length |
| Frames.BuildPacket | src/util/BasePacket.cpp:18-54 | the building constructors leave exactly the frame of the given id, sequence id, time and data in the buffer |
| Frames.WriteHeader | src/util/BasePacket.cpp:25-29 | the first ten bytes of it |
| Protobuf.VarintRoundTrip | proto/PacketHead.proto:6-9 | a varint within the limit's range is read back with its length, whatever follows |
| Protobuf.OptionalFieldParsed | proto/PacketHead.proto:6-9 | a scalar field as written reads back as itself, and an omitted zero as nothing |
| Protobuf.HeadRoundTrip | proto/PacketHead.proto:6-9 | every head survives serialising and parsing, omitted zeros included |
| WireFormat.HeadOnWire | proto/PacketHead.proto:6-9 | the head on the wire: 18 and the sequence id, 30 and the time, each left out when it is zero |
| WireFormat.HeadRead | proto/PacketHead.proto:6-9 | of any fields in any order a peer's head is made of, the last number 3 is the sequence id and the last number 6 the time, cut to 32 and 64 bits |
| WireFormat.FieldsRead | src/util/BasePacket.cpp:10-11 | from any message, fields of every kind in any order, exactly its numbers are read, and then what follows |
| WireFormat.MalformedStops | src/util/BasePacket.cpp:10-11 | a group, an unknown wire type or field number zero ends what is read, and what was read before stays |
| WireFormat.VarintShortest | proto/PacketHead.proto:6-9 | a varint has as many bytes as its value has groups of seven bits |
| WireFormat.PingRead | proto/PingReq.proto:9-15 | of any fields in any order a ping is made of, its client time is the last number 14 |
| WireFormat.PingInOrder | proto/PingReq.proto:9-15 | a ping as a client serialises it, every field given, is read as its client time |
| WireFormat.PingWithoutTime | proto/PingReq.proto:9-15 | without that field it is zero |
| WireFormat.PingRspOnWire | proto/PingRsp.proto:8-12 | a ping reply is 40 and the client time, or nothing when it is zero |
| Protobuf.HeadBytes | src/util/BasePacket.cpp:23-28 | a serialised head has at most 17 bytes, so its 16-bit length never truncates |
| Protobuf.PingRspRoundTrip | src/game/packets/PingReq.cpp:13-16 | the client time put into a ping reply is the one a peer reads from it |
| FieldScript.WriteThenRead | src/util/DynamicBuffer.cpp:12-52 | any list of fields written with DynamicBuffer is read back by the same script with BufferView, with no byte left |
| FieldScript.ScriptRoundTrip | src/util/DynamicBuffer.cpp:12-52 | the encoding of any fitting fields decodes to them, leaving what follows |
| FieldScript.FieldRoundTrip | src/util/DynamicBuffer.h:18-25 | the same for one number of either byte order or one string |
| FieldScript.FitsExactly | src/util/DynamicBuffer.cpp:12-38 | what fits: numbers of 8, 16, 32 and 64 bits, strings up to 254 bytes, long ones up to 65534; and how many bytes each takes |
| FieldScript.EncodeAppends | src/util/DynamicBuffer.cpp:40-52 | fields stand in the order they were written in |
| FieldScript.EncodeInjective | src/util/BufferView.h:16-33 | under one script different fields never have the same bytes |
| FieldScript.WriteField | src/util/DynamicBuffer.cpp:12-38 | writes the field's bytes, or nothing when its string is too long |
| FieldScript.WriteFields | src/util/DynamicBuffer.cpp:12-38 | writes exactly the fields before the first refused string |
| FieldScript.AllAccepted | src/util/DynamicBuffer.cpp:14-17 | a script is written whole if and only if no string in it is too long |
| FieldScript.ReadNumber | src/util/BufferView.h:16-24 | a typed read agrees with the decoder and never passes the end |
| FieldScript.ReadField | src/util/BufferView.cpp:10-60 | reading one field agrees with the decoder on every input, short ones included |
| FieldScript.ReadFields | src/util/BufferView.cpp:10-92 | so does reading a whole script |
| Buffers.WordRoundTrip | src/util/BufferView.h:16-33 | a number that fits its width reads back the same in either byte order |
| Buffers.BufferView.constructor | src/util/BufferView.cpp:5-8 | nothing read, nothing written |
| Buffers.BufferView.ReadImpl | src/util/BufferView.cpp:79-92 | copies the next bytes and moves past them, or changes nothing when too few are left |
| Buffers.BufferView.Read | src/util/BufferView.h:16-24 | the value of the next bytes in the byte order asked for, through the in-place reversal |
| Buffers.BufferView.ReadView | src/util/BufferView.cpp:62-77 | the next bytes as a view, not a copy |
| Buffers.BufferView.ReadString | src/util/BufferView.cpp:10-60 | the length-prefixed string at the cursor; the prefix stays consumed when the string is cut short |
| Buffers.BufferView.WriteArray | src/util/BufferView.cpp:94-106 | appends the data; the cursor stays bytes read plus bytes written, and the insert never has to grow the storage |
| Buffers.BufferView.GrowBuffer | src/util/BufferView.cpp:108-112 | capacity grows by at least the amount asked for, content unchanged |
| Buffers.BufferView.Write | src/util/BufferView.h:26-33 | appends the value's bytes in the byte order asked for |
| Buffers.DynamicBuffer.constructor | src/util/DynamicBuffer.cpp:7-10 | empty, with the capacity asked for |
| Buffers.DynamicBuffer.WriteArray | src/util/DynamicBuffer.cpp:40-52 | appends the data; as long as no Seek went back, the insert never has to grow the storage |
| Buffers.DynamicBuffer.GrowBuffer | src/util/DynamicBuffer.cpp:65-69 | capacity grows by at least the amount asked for |
| Buffers.DynamicBuffer.Write | src/util/DynamicBuffer.h:18-25 | appends the value's bytes in the byte order asked for |
| Buffers.DynamicBuffer.WriteString | src/util/DynamicBuffer.cpp:12-38 | length prefix and string, or nothing and a failure exactly when the string is as long as the prefix's largest value or longer |
| Buffers.DynamicBuffer.WriteToOffset | src/util/DynamicBuffer.cpp:54-63 | replaces exactly the bytes at the offset; refused exactly when the patch would reach the last byte |
| Buffers.DynamicBuffer.Seek | src/util/DynamicBuffer.cpp:71-74 | sets the offset and leaves the content alone |
| Bytes.ReverseEndianness | src/util/util.h:7-13 | the bytes of the word end up reversed, in place |
| Bytes.BigRoundTrip | src/util/util.h:7-13 | a number that fits survives the big-endian form |
| Bytes.BigBytes | src/util/util.h:7-13 | and so do the bytes the other way round |
| Bytes.XorBitwise | src/util/Crypto.cpp:14-14 | bit i of the arithmetic exclusive or is set exactly when the operands differ there |
| Bytes.BitsAddUp | src/util/Crypto.cpp:14-14 | the bits of a word add up to it, each with its power of two |
| Bytes.BigFirst | src/util/util.h:7-13 | the first byte of a big-endian word is its highest digit in base 256 |
| Crypto.XorExactly | src/util/Crypto.cpp:4-17 | the ciphertext of any data under any key is the one and only byte string whose bit i of byte k is set exactly when bit i of data byte k and of key byte k mod the key's length differ |
| Crypto.XorCiphers | src/util/Crypto.cpp:12-15 | the cipher sets those bits |
| Crypto.XorExample | src/util/Crypto.cpp:14-14 | 45 under the key 01 is 44 |
| Crypto.XorInvolution | src/util/Crypto.cpp:4-17 | encrypting twice with one non-empty key is the identity, at any length |
| Crypto.XorInjective | src/util/Crypto.cpp:4-17 | different packets have different ciphertexts under one key |
| Crypto.XorCommutes | src/util/Crypto.cpp:4-17 | two keys commute |
| Crypto.XorSplit | src/util/Crypto.cpp:12-15 | encrypting a concatenation is encrypting the parts, the second under the key rotated by the first part's length |
| Crypto.ModSum | src/util/Crypto.cpp:14-14 | the key index of a shifted position wraps at most once |
| Crypto.XorInPlace | src/util/Crypto.cpp:12-15 | the index loop computes the cyclic cipher of what the buffer held, told as a function and bit by bit |
| Crypto.Xor | src/util/Crypto.cpp:4-17 | the cipher in a fresh array, told as a function and bit by bit; the input is untouched |
| Crypto.XorVector | src/util/Crypto.cpp:19-32 | the same for a vector |
| Crypto.GenerateKey | src/util/Crypto.cpp:34-49 | for every seed, 4096 bytes: byte k is big-endian byte k mod 8 of output 1 + k/8 after reseeding once, with the first output; said of the stream itself |
| Sessions.SessionKeyBytes | src/game/packets/PlayerTokenReq.cpp:14-37 | the same of the key of every session, whose seed is 0x123456789ABCDEF0 |
| Crypto.KeyPrefixStep | src/util/Crypto.cpp:44-47 | eight more bytes of the key are one more output |
| Crypto.Engine.Seed | src/util/Crypto.cpp:38-39 | the outputs start over with the seed |
| Crypto.Engine.Draw | src/util/Crypto.cpp:39-40 | the next output of the stream |
| Handshakes.ConnectsExactly | src/game/Kcp.cpp:242-256 | a datagram opens a session if and only if it has 20 bytes and spells the two connect magics at both ends |
| Handshakes.ReplyWords | src/game/Kcp.cpp:142-148 | the reply carries the send-back magics, conv, token and 1234567890, and would not itself open a session |
| Handshakes.WordsRoundTrip | src/game/Kcp.cpp:242-268 | any five words encoded are decoded, whatever follows |
| Handshakes.Handshake.constructor | src/game/Kcp.cpp:232-240 | the default fields, and an empty buffer |
| Handshakes.Handshake.Decode | src/game/Kcp.cpp:242-256 | accepts exactly the connecting datagrams; the fields become the five words, or stay when the datagram is too short |
| Handshakes.NextWords | src/game/Kcp.cpp:247-251 | the five words at the front of the datagram, in order |
| Handshakes.Handshake.Encode | src/game/Kcp.cpp:258-268 | appends the five words and returns the buffer's first twenty bytes |
| KcpSessions.HandshakeReply | src/game/Kcp.cpp:142-147 | the bytes of the reply for the session's conv and token |
| KcpSessions.Kcp.constructor | src/game/Kcp.cpp:12-19 | a closed session with no key and nothing received or sent, and a receive buffer of its own |
| KcpSessions.Kcp.AcceptNonblock | src/game/Kcp.cpp:189-192 | waits for the handshake |
| KcpSessions.Kcp.Initialize | src/game/Kcp.cpp:194-207 | the KCP object exists and the session is connected |
| KcpSessions.Kcp.AnswerHandshake | src/game/Kcp.cpp:138-150 | conv and token are fixed from the clock, one reply is sent, the session is connected, and nothing else changes |
| KcpSessions.Kcp.Identify | src/game/Kcp.cpp:139-148 | conv, token and the reply that carries them |
| Sessions.InputStamps | src/game/Kcp.cpp:112-156 | in every connection state the time is stamped; only a connected session takes messages and only a waiting one becomes connected |
| KcpSessions.Kcp.Input | src/game/Kcp.cpp:112-156 | the whole session becomes what the step model's Input makes of it, in each connection state |
| KcpSessions.Kcp.Recv | src/game/Kcp.cpp:98-110 | the oldest message as a view of the reused buffer, or the fault when it does not fit; every queued packet still reads as before |
| KcpSessions.Kcp.SetUseMT | src/game/Kcp.cpp:213-216 | sets the flag and nothing else |
| KcpSessions.Kcp.GenerateMTKey | src/game/Kcp.cpp:217-220 | the key becomes the one derived from the seed, byte for byte |
| KcpSessions.Kcp.Send | src/game/Kcp.cpp:178-187 | the frame goes out encrypted under the key asked for, or the program ends, exactly when that key is missing and the frame is not empty |
| KcpSessions.Kcp.SendNotice | src/game/packets/PlayerLoginReq.cpp:55-56 | a frame with sequence id zero goes out, or the program ends without a key |
| KcpSessions.Kcp.HandlePlayerTokenReq | src/game/packets/PlayerTokenReq.cpp:23-40 | flag and derived key are set and the log grows by the token reply, or, when the uid is not a number, nothing changes but the fault |
| KcpSessions.Kcp.HandlePingReq | src/game/packets/PingReq.cpp:8-17 | the log grows by the ping reply with the request's sequence id and client time, or the program ends without a key |
| KcpSessions.Kcp.HandlePlayerLoginReq | src/game/packets/PlayerLoginReq.cpp:42-117 | the log grows by the six replies in order, the last under the dispatch key, or the program ends at the first without a key |
| KcpSessions.Kcp.Dispatch | src/game/Kcp.cpp:70-83 | the log grows by the request's replies, unless they need a missing key or the uid is not a number, and only an accepted token request changes flag and key |
| KcpSessions.Kcp.Answer | src/game/Kcp.cpp:70-83 | seen on the whole session, nothing else changes |
| KcpSessions.Kcp.PushPacket | src/game/GameServer.cpp:143-143 | the packet is at the front; every queued packet still reads as when it was queued |
| KcpSessions.Kcp.PopPacket | src/game/Kcp.cpp:67-68 | yields the value the oldest packet had when it was queued |
| KcpSessions.Kcp.PacketQueueHandler | src/game/Kcp.cpp:58-85 | one turn of the loop makes of the session what an uninterrupted turn of the step model does, or ends with the connection |
| KcpSessions.Kcp.Background | src/game/Kcp.cpp:30-39 | releases the session exactly when it is not connected or its last packet is more than 20 seconds old, erasing its key from the registry |
| KcpSessions.TurnIsSteps | src/game/Kcp.cpp:65-83 | an uninterrupted turn is the one or three handler steps that make it up |
| KcpSessions.BuildMessage | src/util/BasePacket.cpp:37-54 | a string body in the frame of its id, sequence id and time |
| KcpSessions.AsInt32 | src/util/BasePacket.cpp:37-39 | the sequence id passed as a signed int comes back as the unsigned field it was |
| GameServers.GameServer.constructor | src/game/GameServer.cpp:63-77 | an empty registry and no sessions |
| GameServers.GameServer.ParsePacket | src/game/GameServer.cpp:96-155 | one datagram turns the server, all sessions and the registry, into what the step model makes of it, and every queued packet keeps its value |
| GameServers.GameServer.FeedRegistered | src/game/GameServer.cpp:126-147 | only the session of the key changes |
| GameServers.GameServer.FeedMember | src/game/GameServer.cpp:126-147 | no array a queued packet points into is a receive buffer, of any session, after the datagram either |
| GameServers.GameServer.TryHandshake | src/game/GameServer.cpp:104-124 | a valid handshake adds one connected session under the key, any other datagram changes nothing |
| GameServers.GameServer.AddClient | src/game/GameServer.cpp:120-122 | the new session is added and its key leads to it |
| GameServers.GameServer.HandleQueue | src/game/Kcp.cpp:56-86 | a handler turn of one session, seen from the whole server: no other session and no registry entry changes |
| GameServers.GameServer.HandleMember | src/game/Kcp.cpp:56-86 | the turn keeps the server's invariant, the separation of queued packets from receive buffers included |
| GameServers.GameServer.CheckIdle | src/game/Kcp.cpp:30-39 | a background turn is the step model's, on sessions and registry alike |
| GameServers.Connect | src/game/GameServer.cpp:106-120 | a session exactly when the datagram is a handshake, opened and answered |
| GameServers.Establish | src/game/GameServer.cpp:116-120 | a fresh session becomes the open session of its endpoint |
| GameServers.Feed | src/game/GameServer.cpp:128-146 | input, receive, key choice, decryption and queueing agree with the step model |
| GameServers.Hear | src/game/GameServer.cpp:129-130 | input and receive alone, with the message handed out in the receive buffer |
| GameServers.DecryptAndQueue | src/game/GameServer.cpp:136-143 | queues the decrypted packet, or nothing when it does not parse; the arrays it adds are fresh |
| GameServers.DecryptPacket | src/game/GameServer.cpp:136-141 | the parsed packet is a view of a fresh array, not of the receive buffer |
| GameServers.ParsedIsRun | src/game/GameServer.cpp:96-155 | a datagram processed without interruption is a run of one or two events, so the theorems about runs apply to it |
| GameServers.TurnedIsRun | src/game/Kcp.cpp:65-83 | so is a handler's turn: one event, or the three of a token request |

## Left out

- The HTTP side, sockets, coroutine scheduling, sleeping, `printf` and `ReadFile`: foreign code or input and output; a datagram, its sender and the time are parameters, and what is sent goes to an outbound log.
- KCP's own algorithm (`ikcp_*`): not part of the repository's logic; only ordered delivery of whole messages is used. KCP output on the socket, acknowledgements included, is not modelled.
- mt19937_64's arithmetic: only the determinism of its output stream matters to the key.
- The bodies of token and login messages: they are arbitrary bytes shorter than 2^32, so nothing is said about their fields, but that the account uid of a token request is a number or not. The open-state loop of the login reply and the security command buffer are part of those bodies.
- Memory: leaks, `free` of arrays from `new`, the uninitialised tail of a buffer, and use of a deleted session by its still running handler thread.
- `Handshake::Decode` without `verifyMagic`, the magics of a disconnect, `ReadArray`, `GetRemainingBytes`, floating point fields, and handlers that are not dispatched: no caller uses them.
- `GetDataOwnership`: the buffer's content is read where the code moves it out; the buffer left behind is not described.
- Outbound keys of the client's side for the last login reply: the code sends it with the token reply's id under the dispatch key (src/game/packets/PlayerLoginReq.cpp:115-117); the log records just that.
- Crypto.XorInPlace: does not model the `int` index overflowing on packets of 2^31 bytes or more.
- Crypto.Xor: requires a key when there is data, because the code divides by the key's length; callers record the missing key as a fault.
- KcpSessions.Kcp.PacketQueueHandler: one uninterrupted turn while the program runs; interleavings inside a turn are in the step model (Sessions.HandlerStep).
- KcpSessions.Kcp.Background: the KCP update and the sleep between turns are left out.
- KcpSessions.Kcp.Initialize: starting the two threads is what lets handler and background events happen from then on; it is not a statement of its own.
- GameServers.GameServer.HandleQueue: the repository has no such method; it is the turn of one session's handler thread, placed in the server to say what it leaves alone. The same holds for GameServers.GameServer.CheckIdle.
- Buffers.ByteVector.Reserve: a std::vector may reserve more than asked for; only the lower bound is used by any proof.
- Protobuf.EntryAt: groups (wire types 3 and 4) count as malformed, where the library can skip them as unknown fields; only varint fields are kept.
- Channels.SessionIsFifo: the client asks for its token before it pings or logs in, with a numeric account uid, is silent while it waits, and says nothing over 65534 bytes; Discipline.RulesExactly says that each of these is needed.
- RunLaws.RunEvolves: conv and token stay fixed because no step after the handshake writes them; a second handshake from a connected endpoint is handed to KCP as data, as in the code.
