# et-client, verified

A Dafny model of the Rust client for Eternal Terminal: the resumable encrypted connection
(`backed.rs`, `crypto.rs`, `packet.rs`, `framing.rs`), its reconnect supervisor (`client.rs`), the
port-forward engine (`forward.rs`) and the pump between them (`session.rs`). `dafny verify
dfyconfig.toml` checks the whole project.

## How it is built

- `Bytes`, `Crypto`, `Packet`, `Framing`: bytes on the wire. The cipher is a parameter, a pair of
  functions of which only `Correct` is assumed: opening undoes sealing and sealing adds 16 bytes.
  Nothing is assumed about wrong nonces except, in `RepetitionKills`, for the one packet in question.
- `Endpoint`: one end of a session described by its history, that is the log of accepted messages, the
  oldest one still backed up, and what was delivered. `Backed` is the actor itself, a class with
  counters, a newest-first queue and a byte ledger, whose methods are proved to refine it.
- `Session`: two endpoints and any number of sockets. A socket keeps its whole history; losing
  in-flight data is a reader that never takes the rest. Runs are arbitrary interleavings. `Resume`
  shows how two peers bring a session back, `Stranded` when they never can, and `Carriage` that a
  session is a first-in first-out link that loses refused writes and nothing else.
- `Supervisor`: the client's actor loop with its program counter, both bounded queues and the
  supervisor, on top of the two-party machine. It discharges the one assumption `Session` makes of
  recovers.
- `Exchange`, `RecoverIo`, `Keepalive`: the exchange as byte channels, its chunked and time-bounded IO,
  and the keepalive timer. Clocks, delays and IO outcomes are arbitrary inputs.
- `Forward`: the engine's tables and handlers as a class with a functional specification. `Tunnel`
  joins two engines, each in both roles, by links that may lose any frame; `TunnelView` is what one
  tunnel sees of them, `Pair` turns the result round for the tunnels of the other end, and `EndToEnd`
  puts both engines on top of a session with its outages.
- `Pump`: who waits for whom between the actor, the supervisor, the pump and the engine.
- `TunnelArgs`: the tunnel argument parser.

## Where the code and its comments differ

- The comment in `write` says the packet that kills a socket stays backed up. It does exactly when it
  fits the 64 MiB backup on its own (`KillingPacketKept`, `KillingPacketLost`).
- The module comment of `backed.rs` says the symmetric exchange cannot deadlock. Two catch-ups (or
  two headers) that both exceed what the socket buffers hold do block each other until the idle bound
  abandons both (`SticksExactlyWhen`).
- The comment at `deliver_to_engine` says a pump parked behind a stalled engine cannot hang once the
  session has died. Its tick asks whether the supervisor is gone, and the supervisor may itself be held
  up by the pump: the pump hangs for as long as the stall lasts, unless what the supervisor still has
  to say fits the client's queue and no reconnect lies in its way (`ReleasedExactlyWhen`,
  `DeadSessionHoldsPump`).
- Two packets that the 64 MiB backup and the 64 MiB offline buffer take, one each, can make a catch-up
  above the 128 MiB the peer reads. Every later exchange over it fails (`ComesUpExactlyWhen`,
  `UnreadableCatchup`).
- A live write of 2^32 bytes or more has its length prefix cut to 32 bits, and the peer may take a
  fragment for the packet (`ArrivesAsItself`, `OversizeWriteKills`).
- `source_conn_ids` is the inverse of `source_sockets` exactly until the peer ends a connection or
  repeats a socket id (`InverseExactlyUnless`, `StaleEntryArises`), and after 2^32 accepted connections
  it may miss one (`KeysMappedExactlyUnless`, `OrphanArises`). The last is about a release build, where
  `next_conn_id += 1` wraps around; a debug build stops with an overflow panic at that point.
- A drawn socket id is unique only among the open destinations. One that is also a connection id of the
  same engine, or that was in use before, can put bytes on the wrong tunnel (`ReadRoutedExactlyWhen`,
  `SharedIdArises`, `RedrawnIdMixes`).
- The engine's byte streams survive lost frames exactly until something is sent behind the loss: a
  frame given up at shutdown, or skipped by the session, may be followed by one that is sent
  (`TunnelsKeepTheirBytes`, `LossTearsStream`).
- After 2^31 delivered packets a resume is always refused, never silently wrong (`TruncationExact`).

## Model

| member | source | states |
|---|---|---|
| `Sessions.ExactlyOnceInOrder` | crates/et-proto/src/backed.rs:439-646 | Two endpoints with mirrored nonce directions, over every interleaving of writes, deliveries, keepalive ticks, socket deaths that lose any in-flight suffix, and recover attempts that fail or succeed on one side only: what each side delivered is always a prefix (headers and payloads) of what the other accepted, and no session died of a crypto mismatch, as long as no live write has a length prefix that makes the reader take a fragment of it. |
| `Sessions.OversizeWriteKills` | crates/et-proto/src/backed.rs:505-532 | The other side of that condition, for every such packet: a run of three steps from the start in which the peer takes the fragment for the packet, and dies of a mismatch exactly when the fragment does not open, always when it is too short to hold one. |
| `Sessions.NothingLost` | crates/et-proto/src/backed.rs:565-646 | When both sides use the same socket and the receiver has drained it, everything the sender ever accepted, before and during every outage, has been delivered. |
| `Carriages.StepIsQueueStep` | crates/et-proto/src/backed.rs:377-646 | Every step of a session is a step of a first-in first-out queue each way: a delivery takes the first packet out, a write or ping that was not refused adds one at the end, and socket deaths, failed and successful recovers leave it alone. |
| `Carriages.DeliveredThenInTransit` | crates/et-proto/src/backed.rs:377-646 | Over every run, what one side delivered followed by what is in transit is exactly what was written at the other. |
| `Carriages.AllWrittenExactlyWhen` | crates/et-proto/src/backed.rs:477-490 | Everything a side was asked to write is in what it wrote exactly when no write was skipped. |
| `Carriages.LosslessUnlessRefused` | crates/et-client/src/session.rs:286-330 | The link under the tunnels, which ignores the result of its writes: as long as no write was skipped, what arrives is, pings aside, a prefix of everything the pump was given. |
| `Resumes.ResumeRestores` | crates/et-proto/src/backed.rs:565-646 | The other half of safety: from every reachable state in which both ends serve with empty inboxes and can answer each other's headers with catch-ups within the 128 MiB the reader takes, whatever sockets died and whatever was lost before, the exchange over a new socket is possible and leaves both ends on it with everything the other ever accepted delivered, in order. |
| `Resumes.ReachesResumed` | crates/et-proto/src/backed.rs:580-645 | The four-step exchange of both peers, step by step, leads to the state in which each has the other's log from its own count on in its inbox. |
| `Resumes.ComesUp` | crates/et-proto/src/backed.rs:580-646 | One end alone needs only that both answers exist and that the one it reads is within the cap. |
| `Stranding.ComesUpExactlyWhen` | crates/et-proto/src/backed.rs:565-646 | From every reachable state in which an end is down, whatever both ends are doing, in the middle of an exchange, stopped, live, with frames unread or packets undelivered: some continuation brings it back on a socket if and only if it has not stopped and either its own exchange can end with what is already on the stream, or the peer has not stopped, it can answer a header that the peer can get to by finishing its own exchange or reading on (or has answered the header of the exchange both are in), and the peer can answer its header with a catch-up within 128 MiB. |
| `Stranding.DownForever` | crates/et-proto/src/backed.rs:594-626 | An end that cannot finish its exchange and that lacks a catch-up above the cap or too old, or whose peer lacks too much at every point it can get to, or is gone, is never back, whatever the two sides, their sockets and their retries do from then on. |
| `Stranding.UnreadableCatchup` | crates/et-proto/src/backed.rs:477-503 | Such a state from the start, for every two packets of which the backup takes one and the offline buffer the other and which together exceed 128 MiB. |
| `Stranding.HonestAnswerRead` | crates/et-proto/src/backed.rs:594-626 | In every reachable state, the answer to a peer that lacks only what fits the backup, or only what was accepted since the socket went down, exists and is within the cap. |
| `Sessions.ResumeNeverRefused` | crates/et-proto/src/backed.rs:594-618 | In every reachable state the header of a peer that lacks only what fits the backup, or only what was accepted since the socket went down, is answered with exactly what it lacks. |
| `Sessions.NoNonceReuse` | crates/et-proto/src/backed.rs:458-494 | Over every run, no two packets of either direction are sealed with the same nonce, across any number of sockets and catch-ups, for up to 256^23 packets each way. |
| `Sessions.StepKeeps` | crates/et-proto/src/backed.rs:439-646 | Every step of the two-party machine keeps the invariant that ties both logs, both inboxes, every socket's history and every half-finished exchange together. |
| `Sessions.EmptyInboxNeeded` | crates/et-proto/src/backed.rs:565-646 | Catch-up that joins the inbox continues the stream exactly when the inbox was empty when the exchange began. |
| `Sessions.RepetitionKills` | crates/et-proto/src/backed.rs:439-475 | Otherwise the repeated packets are delivered up to the first repetition, which a cipher that rejects a wrong nonce turns into a crypto mismatch. |
| `Supervisors.ClientExactlyOnce` | crates/et-proto/src/client.rs:189-266 | The client's actor loop, its two bounded queues and the reconnect supervisor, over every run and for any queue capacities: exactly-once delivery without assuming anything of its recovers, under the one condition on live writes, and `SocketDown` events strictly alternate with successful recovers. |
| `Supervisors.SupervisorDiscipline` | crates/et-proto/src/client.rs:211-256 | Whenever a `Recover` is about to be served, in any run, no socket is live, the inbox is empty, and no `SocketDown` is pending, being sent or queued, even when commands are drained inside delivery. |
| `Supervisors.RecoverArises` | crates/et-proto/src/client.rs:195-236 | The situation of the discipline does arise, for any positive queue capacities: a lost socket leads through the report, the queue and the handshake to a `Recover` the actor can serve. |
| `Supervisors.OrderlyKept` | crates/et-proto/src/backed.rs:326-424 | Every step of actor, supervisor, owner and peer keeps the books: one token for the socket in use or its loss, at most one `Recover`, and an empty inbox wherever the code relies on it. |
| `Supervisors.ClientIsDisciplined` | crates/et-proto/src/backed.rs:407-424 | Each step of the client is a step of the two-party machine that keeps the discipline the protocol rests on. |
| `Supervisors.RecoverServedCleanly` | crates/et-proto/src/backed.rs:379-424 | The one-step form of the supervisor's discipline. |
| `Endpoints.LiveWriteKeepsLongestSuffix` | crates/et-proto/src/backed.rs:492-503 | After a connected write the backup is exactly the longest suffix of the log that fits 64 MiB, whatever had accumulated before. |
| `Endpoints.SuffixKept` | crates/et-proto/src/backed.rs:492-503 | In every well-formed state no entry of a suffix that fits the backup has been dropped. |
| `Endpoints.KillingPacketKept` | crates/et-proto/src/backed.rs:505-532 | The packet whose write kills the socket stays backed up if and only if it fits the backup on its own. The comment at this place promises it always does. |
| `Endpoints.KillingPacketLost` | crates/et-proto/src/backed.rs:505-532 | A concrete packet for which the promise fails: it is trimmed away and every later exchange that needs it is refused. |
| `Endpoints.TruncationExact` | crates/et-proto/src/backed.rs:582-610 | For any count of delivered packets, the 32-bit header selects a wrong span exactly when the truncated number differs and is still backed up, which takes 2^32 backed-up entries; it is served correctly exactly when the count is below 2^31 and still backed up. |
| `Endpoints.HonestPeerServed` | crates/et-proto/src/backed.rs:594-618 | A peer missing only a suffix that fits the backup, or only packets of the current outage, is given exactly that suffix. |
| `Endpoints.HonestCatchupFits` | crates/et-proto/src/gen/et.rs:557-590 | The encoded size of that answer, field tags and length varints included, is at most 128 MiB. |
| `Endpoints.WriteKeeps` | crates/et-proto/src/backed.rs:477-532 | Writing keeps the ledger law: a socket is live exactly when the ledger is closed, the ledger is the bytes accepted since the close, and it is overrun by at most one packet's 18 bytes of overhead or by the packet that killed the socket. |
| `Endpoints.TickKeeps` | crates/et-proto/src/backed.rs:543-563 | A keepalive tick keeps the same law. |
| `Endpoints.CloseKeeps` | crates/et-proto/src/backed.rs:534-541 | Closing a socket opens an empty ledger and keeps the law. |
| `Endpoints.OpensInOrder` | crates/et-proto/src/backed.rs:439-475 | The reader opens position i of the peer's log to the message sealed there. |
| `Backed.BackedActor.constructor` | crates/et-proto/src/backed.rs:293-324 | A new actor represents the empty log with a live socket. |
| `Backed.BackedActor.Write` | crates/et-proto/src/backed.rs:477-532 | The actor's write, with its counters, newest-first queue, trim loop and byte ledger, refines the write on the log: a skipped write changes no state and no nonce, an accepted one appends exactly one sealed packet, a full socket is closed and its packet charged. |
| `Backed.BackedActor.Trim` | crates/et-proto/src/backed.rs:496-503 | The trim loop drops oldest entries until the rest fits and stops there. |
| `Backed.BackedActor.Send` | crates/et-proto/src/backed.rs:492-532 | The connected branch: push, trim, and hand the packet to the socket or kill it. |
| `Backed.BackedActor.CloseCurrentSocket` | crates/et-proto/src/backed.rs:534-541 | Closing reports the loss once and opens the ledger without resetting an open one. |
| `Backed.BackedActor.CatchupFor` | crates/et-proto/src/backed.rs:594-618 | For every `i32` the peer can send, the newest entries taken and reversed are exactly the log from that number on, or a refusal when it is negative, too large or too old. |
| `Backed.BackedActor.RecoverTimedActor` | crates/et-proto/src/backed.rs:565-646 | Header out, header in, catch-up out, catch-up in: success at exactly the condition under which all four went through; any failure leaves all state as it was. |
| `Backed.BackedActor.OpenNext` | crates/et-proto/src/backed.rs:439-475 | Parse, flag check, decryption, counting: delivers exactly what the specification delivers or dies of a mismatch, and keeps the reader nonce in step with `reader_seq`. |
| `Backed.BackedActor.DeliverInbox` | crates/et-proto/src/backed.rs:439-475 | The delivery loop with commands served while events wait and the clock read for every packet. |
| `Backed.BackedActor.HandleCmd` | crates/et-proto/src/backed.rs:377-394 | Each command has the effect of its specification. |
| `Backed.BackedActor.ServeWhileStalled` | crates/et-proto/src/backed.rs:396-424 | Commands served inside `send_event` have the effect of serving them in turn until one ends the session, and deliver nothing. |
| `Backed.BackedActor.KeepaliveTick` | crates/et-proto/src/backed.rs:543-563 | The timer arm. |
| `Backed.NewestInOrder` | crates/et-proto/src/backed.rs:594-618 | Reversing the newest n entries of the queue gives the last n of the log in order. |
| `Keepalives.ClosedOnlyIfSilent` | crates/et-proto/src/backed.rs:462-469 | In any run, keepalive closes a socket only if a ping went out on that socket, no echo and no other socket came after it, and nothing was sent or delivered for a full period. |
| `Keepalives.SilentSocketClosed` | crates/et-proto/src/backed.rs:543-563 | With ticks at most a gap apart and nothing sent or delivered, every socket is closed within two periods and two gaps. |
| `Keepalives.StepTracks` | crates/et-proto/src/backed.rs:528-563 | The two fields of the timer always say what the history says. |
| `Exchanges.SticksExactlyWhen` | crates/et-proto/src/backed.rs:580-626 | Two peers running write-header, read-header, write-catch-up, read-catch-up over byte channels of capacity C can reach a state where both are blocked if and only if both headers or both catch-ups are larger than C. The module comment at line 23 says nobody deadlocks. |
| `Exchanges.ExchangeCompletes` | crates/et-proto/src/backed.rs:580-626 | Otherwise every run is bounded and one that cannot continue has moved all four frames completely. |
| `Exchanges.SomeoneMoves` | crates/et-proto/src/backed.rs:580-626 | While an exchange that fits is unfinished, some peer can move a byte. |
| `RecoverIo.SlowButSteadySucceeds` | crates/et-proto/src/backed.rs:665-687 | A transfer that starts before the deadline succeeds exactly when every 64 KiB chunk finishes within the idle window and the last before the deadline. |
| `RecoverIo.SteadyRateSuffices` | crates/et-proto/src/backed.rs:665-726 | A buffer of any length whose 64 KiB chunks each finish within the idle window goes through if the time to the deadline covers its length in chunks. |
| `RecoverIo.TimedStream.WriteAllIdle` | crates/et-proto/src/backed.rs:667-687 | The chunked write loop transfers exactly the buffer, succeeds exactly when every chunk is on time, and never waits past the deadline; on failure a prefix was written. |
| `RecoverIo.TimedStream.ReadExactIdle` | crates/et-proto/src/backed.rs:708-726 | The chunked read loop, with the same guarantees and the end of the stream as a failure. |
| `RecoverIo.TimedStream.WriteFrameIdle` | crates/et-proto/src/backed.rs:656-665 | A framed write puts exactly the length-prefixed frame on the stream. |
| `RecoverIo.TimedStream.ReadFrameIdle` | crates/et-proto/src/backed.rs:689-706 | A framed read yields exactly the frame that plain framed reading finds, or nothing. |
| `RecoverIo.OnTimeSplits` | crates/et-proto/src/backed.rs:656-706 | Timing is judged the same whether a frame is one transfer or two. |
| `Crypto.CryptoHandler.IncrementNonce` | crates/et-proto/src/crypto.rs:46-55 | The carry loop on the array in place computes the specified increment. |
| `Crypto.IncrementCounts` | crates/et-proto/src/crypto.rs:46-55 | The byte-wise increment is +1 modulo 256^n on the little-endian value. |
| `Crypto.CounterValue` | crates/et-proto/src/crypto.rs:37-55 | After k increments the nonce is start plus k modulo 256^24. |
| `Crypto.NoncesDistinct` | crates/et-proto/src/crypto.rs:37-55 | The nonces of the two directions are all distinct for up to 256^23 operations each. |
| `Crypto.CryptoHandler.Encrypt` | crates/et-proto/src/crypto.rs:57-71 | Sealing advances the nonce first and uses the new one. |
| `Crypto.CryptoHandler.Decrypt` | crates/et-proto/src/crypto.rs:73-95 | A short ciphertext is refused without touching the nonce; any other attempt advances it. |
| `Crypto.CorrectBoxExists` | crates/et-proto/src/crypto.rs:57-95 | The assumption made of the cipher (opening undoes sealing, 16 bytes longer) can be met. |
| `Packets.ParseUndoesSerialize` | crates/et-proto/src/packet.rs:35-52 | Parsing what was serialized gives the packet back. |
| `Packets.SerializeUndoesParse` | crates/et-proto/src/packet.rs:35-52 | Serializing what was parsed gives the bytes back exactly when the flag byte was 0 or 1. |
| `Packets.Packet.Encrypt` | crates/et-proto/src/packet.rs:54-64 | Encrypting in place replaces the payload and sets the flag. |
| `Packets.Packet.Decrypt` | crates/et-proto/src/packet.rs:66-78 | Decrypting in place, or failing with the packet unchanged. |
| `Framing.CutAnywhere` | crates/et-proto/src/backed.rs:224-261 | Cut the concatenated stream anywhere: the reader yields exactly the packets whose frames lie wholly before the cut, then stops. |
| `Framing.NothingCut` | crates/et-proto/src/backed.rs:224-261 | With nothing cut off, every packet arrives. |
| `Framing.ReaderMakesOf` | crates/et-proto/src/backed.rs:234-261 | For a body of any length: the reader refuses the frame, or takes as many bytes as the length cut to 32 bits says and reads the rest of the body as the next frame. |
| `Framing.ArrivesAsItself` | crates/et-proto/src/backed.rs:509-512 | A packet arrives as itself exactly when it is within the cap, and as a fragment of itself exactly from 2^32 bytes on when the cut length is within the cap. |
| `Framing.ReaderTask` | crates/et-proto/src/backed.rs:236-261 | The reader loop yields exactly the frames before the first failure. |
| `Framing.ReadProtoFrame` | crates/et-proto/src/framing.rs:28-58 | Reads an `i64`-LE frame or fails as specified, with the end of the stream and an IO error told apart, consuming what the specification consumes. |
| `Framing.WriteProtoFrame` | crates/et-proto/src/framing.rs:60-68 | Succeeds exactly when the whole `i64`-LE frame went out; a failed write leaves a proper prefix of it on the wire. |
| `Framing.ReadFramedPacket` | crates/et-proto/src/framing.rs:70-89 | Reads and parses a `u32`-BE framed packet, with all error cases. |
| `Framing.WriteFramedPacket` | crates/et-proto/src/framing.rs:91-100 | Succeeds exactly when the whole `u32`-BE frame went out, and else leaves a proper prefix of it. |
| `Framing.ProtoFrameRoundTrip` | crates/et-proto/src/framing.rs:37-68 | A written `i64` frame is read back, whatever follows. |
| `Framing.OversizeProtoFrameRefused` | crates/et-proto/src/framing.rs:37-58 | A frame above the limit is refused before its body is read. |
| `Forwarding.ConnectionsConserved` | crates/et-proto/src/forward.rs:641-891 | Over every run, whatever the peer sends: every connection ever accepted or opened is in exactly one of the tables under one key or closed, and at most 256 destinations are open. |
| `Forwarding.ClosedForGood` | crates/et-proto/src/forward.rs:668-891 | A closed connection never returns to a table, and stopping closes all others. |
| `Forwarding.StopLeavesNothingOpen` | crates/et-proto/src/forward.rs:668-677 | Over every run, stopping drops what the three tables hold and nothing else, and this leaves no connection open that was ever accepted or opened. |
| `Forwarding.SourceSocketsMapped` | crates/et-proto/src/forward.rs:679-891 | From an engine with this property, as a new one is, over every run, however long, in which no peer answers a connection id that is in use again: every key of `source_sockets` is a value of `source_conn_ids`. |
| `Forwarding.MappedBelowWrap` | crates/et-proto/src/forward.rs:679-891 | From an engine with this property, as a new one is, over every run with fewer than 2^32 accepted connections, whatever the peer sends: every key of `source_sockets` is a value of `source_conn_ids`, and an id that still waits for its response is not mapped. |
| `Forwarding.NoneOrphanedBelowWrap` | crates/et-proto/src/forward.rs:679-707 | From such an engine, below 2^32 accepted connections, there is no answer for a connection id in use again, whatever the peer sends. |
| `Forwarding.KeysMappedExactlyUnless` | crates/et-proto/src/forward.rs:809-835 | However many connections were accepted before, one happening keeps every key of `source_sockets` a value of `source_conn_ids` if and only if it is not a response for a pending id that is the only one mapped to another socket in use. |
| `Forwarding.OrphanArises` | crates/et-proto/src/forward.rs:679-707 | That does happen: a run from a new engine in which 2^32 later connections are accepted and the first id comes round again. |
| `Forwarding.InverseExactlyUnless` | crates/et-proto/src/forward.rs:709-888 | For every happening: the two maps of the source role stay inverse to each other if and only if it is not a peer frame that ends a source connection (closed, failed or not taken) and not a response that repeats a mapped socket id or connection id. |
| `Forwarding.PeacefulRunsInverse` | crates/et-proto/src/forward.rs:679-891 | From an engine whose two maps are inverse, as a new one's are, they stay so over every run without such a happening. |
| `Forwarding.NewEngineHas` | crates/et-proto/src/forward.rs:655-666 | A new engine has the properties that these results start from. |
| `Forwarding.StaleEntryArises` | crates/et-proto/src/forward.rs:836-858 | A run of three happenings from a new engine that leaves an entry behind: accepted, answered, closed by the peer. |
| `Forwarding.ReadRoutedExactlyWhen` | crates/et-proto/src/forward.rs:709-772 | What a destination connection reads goes out as its own if and only if its id is not also the connection id of a mapped source connection; otherwise it goes out on that connection's tunnel. |
| `Forwarding.SharedIdArises` | crates/et-proto/src/forward.rs:1045-1050 | A run from a new engine in which the drawn socket id is such a connection id: the draw avoids only the ids of other destinations. |
| `Forwarding.RedrawnIdMixes` | crates/et-proto/src/forward.rs:1045-1050 | A run from a new engine in which a socket id is drawn again after its connection ended, and bytes still on their way to the first are queued for the second. |
| `Forwarding.EngineState.constructor` | crates/et-proto/src/forward.rs:655-666 | A new engine holds nothing and numbers connections from one. |
| `Forwarding.EngineState.HandleAccepted` | crates/et-proto/src/forward.rs:679-707 | The handler on the four maps refines its specification. |
| `Forwarding.EngineState.HandleRead` | crates/et-proto/src/forward.rs:709-772 | The same for local reads, ends of stream and read errors in both roles. |
| `Forwarding.EngineState.HandlePeerFrame` | crates/et-proto/src/forward.rs:774-891 | The same for requests, responses and data, including refusals and undecodable packets; nothing changes while a request still waits for a free socket id. |
| `Forwarding.EngineState.HandleResponse` | crates/et-proto/src/forward.rs:809-835 | A response maps, refuses or is ignored; a reused socket id closes the older connection. |
| `Forwarding.EngineState.HandleData` | crates/et-proto/src/forward.rs:836-888 | Data is queued for the right table's connection, or the connection ends. |
| `Forwarding.EngineState.CreateDestination` | crates/et-proto/src/forward.rs:1003-1061 | Port checks, the cap of 256, dialling, and the first drawn socket id that no destination holds; the loop is still drawing exactly while every id drawn is taken. |
| `Forwarding.EngineState.TeardownAll` | crates/et-proto/src/forward.rs:668-677 | The loops over the tables close exactly what they hold; if none was lost from its table, every connection the engine ever had. |
| `Tunnels.TunnelsKeepTheirBytes` | crates/et-proto/src/forward.rs:679-891 | Two engines, each in both roles over one id space, joined by first-in first-out links that may lose any frame, over every run: for every tunnel, what is queued at one local connection is a prefix of what was read at the other, both ways, unless bytes were sent behind a loss on that stream; while both ends are registered and nothing was lost the difference is exactly what is in flight; and the response precedes all data of its socket or was lost. |
| `Pairs.BothWaysKeepTheirBytes` | crates/et-proto/src/forward.rs:679-891 | The same for both ends at once, each answering requests or not, over every run of the two engines in which each end assigns or draws an id once. For the tunnels of either end, the run of the machine with the tunnel records is the one whose steps the acts name, one for one, so the acts fix which frame of which stream was lost; its links are those of the engines' own tables, by connection id, socket id and connection; and every tunnel keeps its bytes both ways. Without a loss nothing is cut or torn. |
| `Pairs.OpenTunnelsCarry` | crates/et-proto/src/forward.rs:679-891 | In the engines' own terms: after every run without a loss, for every mapped connection id of either end, what was queued for the destination connection and the data on its way are together what was read from the source connection, and the same on the way back. |
| `Pairs.TrackStep` | crates/et-proto/src/forward.rs:679-891 | Every act of either engine is a step of the machine that knows which tunnel everything belongs to. |
| `EndToEnd.TunnelsOverSession` | crates/et-client/src/session.rs:286-330 | The two engines on top of the session, over every interleaving of engine steps, writes, deliveries, socket deaths and recovers. The moves fix the acts of the engines and one loss for each frame given up or whose write was skipped, and these the run of the machine with the tunnel records: the tunnels of both ends keep their bytes both ways, unless bytes were sent behind such a frame; where there was none, nothing is lost at all. |
| `EndToEnd.OpenTunnelsCarryOverSession` | crates/et-client/src/session.rs:286-330 | In the engines' own terms: after every run in which no frame was given up and no write skipped, through all outages, what was queued at one local connection, delivered, in transit or still to be written is together what was read at the other. |
| `EndToEnd.MoveSeen` | crates/et-client/src/session.rs:286-330 | Every move of the whole is one act of the two engines or none, and it is the loss of a frame exactly when the frame is given up or its write is skipped. |
| `Tunnels.StepKeeps` | crates/et-proto/src/forward.rs:679-891 | Every step of the two engines, of either role, and every loss keeps that invariant for every link at once. |
| `Tunnels.StartInv` | crates/et-proto/src/forward.rs:655-666 | Two new engines with empty links satisfy it. |
| `Tunnels.LinkOpens` | crates/et-proto/src/forward.rs:679-835 | A run of three steps from two new engines that opens a link: accepted, dialled and answered, response handled. |
| `Tunnels.LossTearsStream` | crates/et-proto/src/forward.rs:709-742 | On every open link whose queues have drained: losing what is read first and delivering what is read next is a run, and the prefix law then holds exactly when the later bytes begin as the missing ones continued by them. |
| `Tunnels.DrainedLinkCanTear` | crates/et-proto/src/forward.rs:709-742 | Every open, whole and drained link of a state with the invariant is such a place. |
| `Tunnels.TornStreamArises` | crates/et-proto/src/forward.rs:894-909 | For any two different bytes, a run from two new engines after which the second is queued though the first was read before it. |
| `Pumps.NeverStandsStill` | crates/et-client/src/session.rs:272-350 | For any queue capacities, in every reachable state of pump, engine, supervisor and actor, in an outage as at any other time, with a stopped engine and a dying session among them: left to itself the network makes only finitely many steps, and when it can make no more, nothing is on its way, or all that waits, waits in one line for a local connection that does not read, with all commands served and all outbound frames taken, or the actor is in its recover exchange or sending its last event, which are bounded in time. It never stands still because tasks wait for each other. |
| `Pumps.SomeoneMoves` | crates/et-client/src/session.rs:272-350 | Unless the actor is at one of its two bounded waits or all is so at rest, some task can move, also while the supervisor redials. |
| `Pumps.RestIsStill` | crates/et-client/src/session.rs:272-350 | And conversely, at rest no task can move: the states are exactly those. |
| `Pumps.StepDrains` | crates/et-client/src/session.rs:272-350 | Every step brings some packet closer to its end. |
| `Pumps.StepKeeps` | crates/et-proto/src/backed.rs:377-424 | Whoever waits for an answer has asked for it exactly once. |
| `Pumps.StepLined` | crates/et-proto/src/client.rs:195-256 | Over every step, the loss of a socket is heard of once and after everything else the socket brought; a supervisor that redials has nothing left to hear. |
| `Pumps.ReleasedByTheSupervisor` | crates/et-client/src/session.rs:275-301 | A pump parked behind a full inbound queue, with nothing outbound and the engine stalled, can move if and only if the supervisor is gone. |
| `Pumps.ReleasedExactlyWhen` | crates/et-proto/src/client.rs:293-299 | In every reachable state with the actor ended and the pump so held up: the pump can be released without the engine if and only if what the supervisor still has to forward or report fits the client queue's free room and no reconnect lies in its way. The comment at `session.rs` lines 268-271 promises it always is. |
| `Pumps.DeadSessionHoldsPump` | crates/et-client/src/session.rs:268-301 | For any positive capacities, a run from the start to a state in which the session has died and the pump hangs for as long as the engine stalls. |
| `Pumps.ParkingWouldDeadlock` | crates/et-client/src/session.rs:259-271 | For any positive capacities, a run from the start in which the pump never drained outbound ends where no task could move without draining, though there is work and nobody waits for the outside; draining the pump can move. |
| `TunnelArgs.ParseRanges` | crates/et-proto/src/forward.rs:72-103 | The loop over comma-separated entries computes the recursive specification, with the first error in order. |
| `TunnelArgs.ProcessEtStyle` | crates/et-proto/src/forward.rs:113-180 | Pairs, ranges and every refusal of an et-style entry. |
| `TunnelArgs.ProcessRange` | crates/et-proto/src/forward.rs:136-168 | The range branch with its expansion loop. |
| `TunnelArgs.ParseSshTunnelArg` | crates/et-proto/src/forward.rs:192-219 | The bracket-aware scan computes the parts of the recursive specification. |
| `TunnelArgs.CommaJoin` | crates/et-proto/src/forward.rs:72-103 | A comma join is accepted exactly when both sides are, and gives the concatenation of their tunnels. |
| `TunnelArgs.RangeEntry` | crates/et-proto/src/forward.rs:136-168 | A decimal `a-b:c-d` is accepted exactly when both ranges ascend, have equal length and stay within the ports, and then parses to the same list as its comma-expanded pairs. |
| `TunnelArgs.RangeIsItsPairs` | crates/et-proto/src/forward.rs:136-168 | The same for every accepted range however its numbers are written. |
| `TunnelArgs.PortsInRange` | crates/et-proto/src/forward.rs:182-190 | Every port of an accepted argument is in 0..65535. |
| `TunnelArgs.SshRoundTrip` | crates/et-proto/src/forward.rs:192-219 | Printing four parts (bracketing those with colons) and parsing them gives them back if and only if none contains a bracket. |
| `TunnelArgs.SshEntryReads` | crates/et-proto/src/forward.rs:82-99 | A whole printed ssh-style entry parses to its tunnel. |

## Left out

- The XSalsa20-Poly1305 primitive, key handling and zeroizing; only the nonce discipline is modelled.
- Protocol Buffers encoding: messages are datatypes, and a payload that does not decode is a case of its own.
- Sockets, channels, `select!` and timers as implementations: they are sequences, nondeterministic steps and a clock.
- The first handshake, `connect_with` before the supervisor starts, and `TerminalSession::start`.
- `ssh.rs`, `ids.rs`, listener binding, accept retries, `add_sources` time bounds, and the spawning of tasks.
- The bounded `Dead` notification at the end of the actor's loop in `Supervisors`, which ends the actor at once; `Pumps` models it.
- Sessions.ExactlyOnceInOrder: assumes a recover starts with an empty inbox, which `Supervisors` proves of the client, and fewer than 2^32 packets in a backup, which would take more than 70 GiB; live writes that the length prefix cuts to a fragment are excluded, and `OversizeWriteKills` shows what they do; sequence counters are unbounded, where the source has `i64`.
- Stranding.ComesUpExactlyWhen: from states in which both ends back up fewer than 2^32 packets.
- Sessions.NoNonceReuse: bounded by 256^23 packets each way, where the nonce directions would meet.
- Forwarding.MappedBelowWrap: below 2^32 accepted connections, beyond which it is false (`OrphanArises`), as is `NoneOrphanedBelowWrap`; conservation is proved with the wrap-around.
- Forwarding.EngineState.CreateDestination: random draws are a parameter, and the three refusal texts are one refusal.
- Tunnels.TunnelsKeepTheirBytes: assumes that no connection id is assigned and no socket id drawn twice, and that the ids an engine draws avoid the connection ids it assigns and the other way round. The code does not see to either, and without them bytes can end up on the wrong tunnel (`SharedIdArises` with `ReadRoutedExactlyWhen`, `RedrawnIdMixes`). `Pairs` and `EndToEnd` assume the same of each end.
- Tunnels.LossTearsStream: the converse of the prefix law is for streams torn by one lost frame; which bytes survive several losses is not stated.
- EndToEnd.TunnelsOverSession: asks of each frame written that its encoding decodes to itself, and of a keepalive that it is no frame; the encoding itself is not modelled.
- Pumps.NeverStandsStill: packets carry no content.
- Keepalives.ClosedOnlyIfSilent: assumes recovers come only without a live socket, as `Supervisors` proves.
- TunnelArgs.SshEntryReads: asks that the bind name does not begin with white space and that no name contains a comma or a bracket, which the syntax cannot express.
