# Verification of the JRP core

JRP is a reverse proxy: visitors connect to entries of a server, and the server bridges each of them
to a work connection that a client behind a firewall keeps in reserve. Both ends replace their whole
configuration while running. This project models the parts of the core, and of the server shell around
it, whose correctness rests on protocol state, and proves what they keep. `dafny verify dfyconfig.toml`
checks all of it.

## What is modelled

- **The wire stack** (`Bytes`, `Aead`, `Cfb`, `Streams`, `Messages`, `WireV1`, `WireV2`, `Guard`,
  `ControlSession`). A transport hands over any positive number of bytes at a time. On it stand a
  peeking reader, version detection, two framings, a framed AEAD channel and a stream cipher, all as
  objects with cursors and buffers. The AEAD cipher is any pair of functions with the law of section 2
  of RFC 5116, the stream cipher any octet-wise mask that can be taken off; JSON validity, the hello
  decoder and the verdict on a login are any functions. The end result is that a connection yields
  exactly the messages sent on it, under any chunking and across the switch to encryption.
- **Events** (`Subsequences`, `Events`). The bounded buffer of a subscription, degraded level by level.
- **Pairing** (`Broker`, `BrokerRuns`). Visitors and idle work connections meeting at a broker.
- **Outbox** (`Outbox`, `OutboxWaits`, `Dispatchers`, `Sends`). Rows claimed under leases by any number of
  dispatchers, each with its own clock and its own copies of the rows it has read, and how long they wait.
- **Routing and validation** (`EntryNames`, `Routing`, `Validation`). One-pass checks against quantified
  meanings, and what passing them guarantees to the steps that follow.
- **Hot swap** (`HotSwap`, `ServerEngine`, `EngineRuns`, `ClientSwap`). Listening sockets handed from one
  generation to the next, and which visitors they reach; on the client, applications interleaved with a
  shutdown at any step.
- **Runtime proxies** (`RuntimeProxies`, `RuntimeRoutes`, `RuntimeRuns`, `RuntimeFaults`). The tables of
  proxies registered by clients at run time, with the HTTP entries they share, where a request goes, and
  all runs of registrations, closings and ends of sessions.
- **Sessions, requests and logins** (`Sessions`, `RequestHead`, `LoginReplay`).
- **Revisions** (`Revisions`). Stored revisions and the record of what became of them, over restarts and
  transactions that fail.

Classes carry the state the program changes in place; their methods are proved against functions on
values, and the laws about runs are lemmas on those functions. Where the program runs several
goroutines, the steps between two takings of a lock are the steps of a transition system, and a run is
any list of them. Faults of the outside (a socket that cannot be bound, a cancelled context, a
transaction that fails, a dead connection) are inputs, so that success is tied to their absence and
failure to the first of them.

## Where the code does not do what it is meant to

Each of these is stated with the exact condition under which the code keeps its promise.

- *A pool retired on its own loses connections.* `closeStagedWorks` closes the pool but not the broker,
  and a connection parked after that is accepted, not stored and not closed
  (`BrokerRuns.LossesExactly`, `BrokerRuns.ParkAfterRetireLoses`).
- *A visitor handed to a dead connection.* Whoever parks an arriving work connection ignores whether its
  pairing could be started. If the connection is dead, the visitor that waited longest has left its queue
  and is neither bridged nor closed (`Broker.Engine.ServeWork`, `BrokerRuns.VisitorsLostExactly`,
  `BrokerRuns.DeadArrivalLoses`).
- *Visitors of a broker swapped out* wait in it until their proxy or the broker ends: work connections go
  to its successor (`BrokerRuns.VisitorsWaitOn`).
- *Stale attempts.* The failure counter of an outbox row is computed from the copy read before the
  claim. A dispatcher overtaken by another's failure sets it back, so with several dispatchers more than
  `maxAttempts` failures of a row may be recorded: with k of them, at most as many as one can choose k of
  k + `maxAttempts` - 1, which is reached (`Dispatchers.CountsUnlessOvertaken`,
  `Dispatchers.FailuresAreBounded`, `Sends.BoundIsReached`). The server makes one dispatcher
  (apps/jrps/cmd/jrps/main.go:221), and one is never overtaken (`Dispatchers.LoneIsNotOvertaken`).
- *Sends are not counted.* A dispatcher that stops after the claim, or whose outcome is not recorded, leaves
  the row being sent, and when the lease has run out it is sent again, the counter unchanged. So even one
  dispatcher may send a row any number of times; the sends stay within the bound on failures if and only
  if that never happens (`Sends.SendsConserved`, `Sends.FailureBoundHolds`, `Sends.SendsWithoutRecord`).
- *NUL in a host.* The comment at core/internal/proxy/http.go:78-81 takes NUL to be impossible in a host
  or path. Validation lets it through, and two different routes can then collide
  (`Validation.RouterBuilds`, `Validation.NulBreaksRouter`).
- *The negotiated limit ends with encryption.* core/internal/wire/guard.go:215-217 says a peer's tighter
  limit holds for all later frames; enabling the cipher makes a new reader with the default limit
  (`Guard.ConnectionGuard.EnableV2Cipher`, `ControlSession.LimitHolds`, `ControlSession.LimitIsLost`).
- *The registry after a session.* Cleaning up after one session drops the names of the other sessions'
  live proxies from the registry and keeps its own dead ones (`RuntimeRuns.CleanupForgets`). A later
  registration can take a live name (`RuntimeFaults.SurvivorIsTaken`), and the old socket is left with no
  proxy, unless it is the entry of HTTP proxies and still used (`RuntimeRuns.TakenNameLeaks`). That of a
  UDP or a stream proxy then stays open for good, save that an HTTP registration with a port out of range
  may come upon a stream proxy's (`RuntimeRuns.ReplacedStaysOpen`); that of an HTTP proxy stays open until
  another takes the entry, and is closed with that one (`RuntimeRuns.ReplacedEntryStaysOpen`,
  `RuntimeFaults.EntryIsTaken`).
- *Names that spell an entry.* Only configured names are checked for colons. A stream proxy named after a
  shared entry takes its place in the table at once. A UDP or HTTP proxy of such a name can leave all in
  order at first; closing it later takes along the entry, or its address
  (`RuntimeFaults.ImpostorWaits`). It is harmless only if a configured proxy other than HTTP has the port
  of that entry, which then is never opened. `RuntimeRuns.NewProxyLasts` and `RuntimeRuns.RunLasts` give
  the exact condition, for this item, the one before and the one after together, and
  `RuntimeRuns.OrderlyRunLasts` runs in which the program's own check of the name is enough.
- *HTTP ports out of range.* An HTTP registration with a negative port shares an entry whose routes are
  not checked, and can cost the port its whole table (`RuntimeRuns.NegativePortUnchecked`,
  `RuntimeFaults.NegativePortBreaks`), or has no port at all (`RuntimeRuns.NegativePortUnplaced`). One
  above 65535 listens on its low sixteen bits and is checked against the ports in use under these, while
  its routes are checked, and its entry is named and routed, under the number given
  (`RuntimeRuns.HighPortMisplaced`, `RuntimeFaults.HighPortHappens`).
- *Run IDs are chosen by clients.* A login with another client's run ID takes it over, and the end of the
  first session then removes it (`Sessions.ResolvableExactly`, `Sessions.RegisterResolvable`,
  `Sessions.LeaveForgets`).
- *Racing logins.* Registering a session and binding its connection are separate steps; interleaved, two
  logins of a client leave it connected without a session (`Sessions.TakeoverBacked`,
  `Sessions.RacingLoginsLoseSession`).
- *Two notices for one failure.* A failed application is meant to be announced once
  (apps/jrps/internal/store/outbox.go:43-47); at a recovery the start-up code records the failure a second
  time (`Revisions.OneFailureTwoNotices`).
- *The drained count* of an apply result exceeds the number of sockets closed by the number of entries
  kept now, less the number of those the old generation had taken over. So it is right if and only if
  these are equally many, and two sockets can be closed with none counted (`ServerEngine.Engine.Apply`,
  `EngineRuns.KeptThenDropped`).
- *One resync notice.* The pending mark is never taken back, so a subscription gets one notice in its
  life and not one for each overflow; it tells of one lost event, however many follow
  (`Events.OneNotice`).
- *Apply before Start.* Its sockets are left without an owner by a later start, and only by that
  (`ServerEngine.Engine.Start`).
- *A server moved to another host.* One address and all addresses count as the same, so a change from one
  to the other keeps the socket: visitors at the addresses newly wanted do not get in, or those at the
  addresses no longer wanted still do. Apart from that every visitor reaches what the configuration says
  (`HotSwap.ReachIsExact`, `EngineRuns.HostStays`).
- *Blanks around a configured host* do not count for validation, yet the host is routed with them, so
  requests for it are not found (`RuntimeRoutes.BlanksAreKept`).
- *A prefix that ends in a slash* does not cover the paths below it (`Routing.TrailingSlash`).

## Model

| member | source | states |
|---|---|---|
| Aead.Increment | core/internal/wire/crypto_v2.go:250-257 | adds one to a nonce in place, as a 96-bit number that wraps |
| Aead.NonceRepeats | core/internal/wire/crypto_v2.go:249-257 | two frames of a stream share a nonce if and only if their numbers differ by a multiple of 256^12; none repeats within that many frames |
| Aead.NonceNumber | core/internal/wire/crypto_v2.go:249-257 | the nonce of frame n is the first nonce plus n, modulo 256^12 |
| Aead.OpenSealedFrame | core/internal/wire/crypto_v2.go:157-183 | the reader's frame check accepts what the writer seals, and takes exactly its bytes, whatever follows |
| Aead.OpenSealed | core/internal/wire/crypto_v2.go:140-247 | opening any list of sealed frames gives back their plaintext and continues behind them with the next nonce |
| Aead.OpenPrefix | core/internal/wire/crypto_v2.go:197-247 | bytes that arrive later never change plaintext already readable |
| Aead.ChannelDelivers | core/internal/wire/crypto_v2.go:131-247 | from any part of the bytes a writer produced the reader gets a prefix of the plaintext, from all of them the whole of it |
| Aead.OpensExactly | core/internal/wire/crypto_v2.go:131-247 | with a cipher that opens only what was sealed, the reader takes a frame if and only if it is one the writer seals at that place of the stream, and gives its plaintext |
| Aead.FrameKeepsItsPlace | core/internal/wire/crypto_v2.go:209-257 | with a cipher that binds nonce and associated data, a frame is accepted at its own place of its own stream and at no other, so none can be repeated, left out or moved within 256^12 frames |
| Cfb.MaskedDelivers | core/internal/wire/crypto_v1.go:68-101 | from any part of the bytes of a v1 cipher channel the reader gets a first part of the text, from all of them the whole of it |
| Cfb.UnmaskedInPieces | core/internal/wire/crypto_v1.go:68-79 | unmasking in pieces, in order, is unmasking at once |
| Cfb.MaskedAt | core/internal/wire/crypto_v1.go:97-135 | every octet is masked with the IV and all the ciphertext before it |
| Streams.PeekReader.Peek | core/internal/wire/detect.go:33-48 | shows the next bytes, or all there are and the error, and consumes nothing |
| Streams.PeekReader.Read | core/internal/wire/detect.go:51-73 | hands out the peeked bytes first, then the rest, losing and repeating none |
| Streams.PeekReader.Replay | core/internal/wire/detect.go:75-78 | the cursor returns to the first peeked byte |
| Streams.PeekReader.Consume | core/internal/wire/detect.go:83-91 | sets the cursor to an absolute offset among the peeked bytes |
| Streams.PeekReader.Compact | core/internal/wire/detect.go:94-100 | drops the peeked bytes only when all have been consumed |
| Streams.AeadReader.Read | core/internal/wire/crypto_v2.go:197-206 | serves plaintext under any chunking: what it returns and what is left make up what was left before; every frame uses up at least 20 bytes, so it ends |
| Streams.AeadReader.ReadFrame | core/internal/wire/crypto_v2.go:209-247 | one frame becomes the pending bytes without changing what remains to be read |
| Streams.AeadReader.ReadStreamNonce | core/internal/wire/crypto_v2.go:210-219 | takes the peer's stream nonce off the front, once |
| Streams.AeadReader.ReadSealed | core/internal/wire/crypto_v2.go:220-247 | reads and authenticates one frame with the current nonce, checking the declared length at both ends |
| Streams.AeadWriter.Write | core/internal/wire/crypto_v2.go:140-154 | succeeds if and only if none of its writes to the connection fails, and then has sent exactly the payload after what went before; a failed one leaves part of a correctly sealed stream |
| Streams.AeadWriter.WriteFrame | core/internal/wire/crypto_v2.go:157-175 | seals one frame behind the stream nonce, in lockstep with the reader's nonce |
| Streams.MaskReader.Read | core/internal/wire/crypto_v1.go:68-79 | unmasks what the source gives, in whatever pieces, losing and repeating nothing |
| Streams.MaskReader.Initialize | core/internal/wire/crypto_v1.go:82-95 | takes the IV off the front, once; a stream too short for it gives nothing |
| Streams.ReadFull | core/internal/wire/v1.go:102-151 | reads exactly the bytes asked for from any of the stacked readers, or all there are with the error io.ReadFull would report |
| Messages.LookupsAgree | core/internal/wire/message.go:45-88 | name, v1 byte and v2 number of a supported type each find that type: the two wires always mean the same message |
| WireV1.RoundTrip | core/internal/wire/v1.go:29-79 | what one side may send the other decodes, using exactly its own bytes |
| WireV1.DecodesExactly | core/internal/wire/v1.go:29-79 | bytes decode to a frame if and only if they start with the one way that frame is written and one side may send it |
| WireV1.HeaderTells | core/internal/wire/v1.go:48-100 | what a header is accepted as, or refused for, by its octets: unknown type first, then the sign of the length, then the limit |
| WireV1.EncodingsDiffer | core/internal/wire/v1.go:29-46 | frames that encode alike are alike |
| WireV1.V1Reader.ReadFrame | core/internal/wire/v1.go:102-151 | the streaming reader agrees with the one-shot decoder on frame, error category and bytes used, under any chunking |
| WireV1.ReadsAsDecoded | core/internal/wire/v1.go:102-151 | a stream that ends cleanly gives what its bytes decode to, save that no byte at all is a clean end; a broken one gives the same frames, and its error where bytes are missing |
| WireV2.HeaderRoundTrip | core/internal/wire/v2.go:64-120 | an encoded header decodes to its type and length, and the payload follows |
| WireV2.RoundTrip | core/internal/wire/v2.go:58-161 | hello and message frames decode to what was encoded, using exactly their own bytes |
| WireV2.DecodesExactly | core/internal/wire/v2.go:58-161 | bytes decode to a frame if and only if they start with the one way that frame is written and it may be sent; flags are zero |
| WireV2.HeaderRefusedBy | core/internal/wire/v2.go:86-120 | what a header is accepted as, or refused for, by its octets: unknown type first, then any flag, then the limit |
| WireV2.V2Reader.ReadFrame | core/internal/wire/v2.go:192-244 | the streaming reader agrees with the one-shot decoder, under any chunking |
| WireV2.ReadsAsDecoded | core/internal/wire/v2.go:192-244 | a stream that ends cleanly gives what its bytes decode to, save that no byte at all is a clean end; a broken one gives the same frames, and its error where bytes are missing |
| WireV2.V2Reader.SetLimit | core/internal/wire/v2.go:174-180 | the payload limit can only be tightened |
| WireV2.MagicIsNotV1 | core/internal/wire/message.go:19-57 | no v1 frame starts like the v2 magic |
| Guard.VersionsDoNotMix | core/internal/wire/detect.go:120-177 | whatever follows the first v1 frame, and however the stream ends, it is detected as v1, unless only v2 is allowed; a stream with the magic never is |
| Guard.ConnectionGuard.LockVersion | core/internal/wire/guard.go:86-97 | a locked version never changes |
| Guard.ConnectionGuard.DetectVersion | core/internal/wire/detect.go:120-177 | under any chunking the decision is that of the first seven bytes; v1 gets the original stream, v2 all but the magic, and any other outcome closes the connection |
| Guard.ConnectionGuard.AcceptV2 | core/internal/wire/detect.go:151-162 | consumes exactly the magic |
| Guard.ConnectionGuard.AcceptV1 | core/internal/wire/detect.go:164-177 | replays everything looked at |
| Guard.ConnectionGuard.PeekV2FirstFrameType | core/internal/wire/guard.go:379-394 | tells the type of the first frame and consumes nothing; an error without a stream |
| Guard.ConnectionGuard.Negotiate | core/internal/wire/guard.go:187-245 | reads the hello from the peeked stream or, without one, from the connection, tightens the limit and leaves the stream right behind the hello; any failure, another version included, closes the connection |
| Guard.NegotiatesWithClients | core/internal/wire/guard.go:187-245 | a negotiation succeeds only on a client hello within the default limit, written the one way there is, and agrees on what that hello gives |
| Guard.ConnectionGuard.EnableV2Cipher | core/internal/wire/guard.go:421-441 | the encrypted reader starts on exactly the bytes not yet read; its limit is the default again; refused for another version or without a stream |
| Guard.ConnectionGuard.BindV2PlainReader | core/internal/wire/guard.go:398-416 | a plain reader starts on exactly the bytes not yet read; refused for another version or without a stream |
| Guard.ConnectionGuard.EnableV1Cipher | core/internal/wire/guard.go:326-341 | the unmasking reader starts on exactly the bytes not yet read; refused for another version or without a stream |
| Guard.ConnectionGuard.ReadV2Frame | core/internal/wire/guard.go:167-183 | the next message frame of the current reader, or the error of what came instead |
| Guard.ConnectionGuard.ReadV1Frame | core/internal/wire/guard.go:154-165 | the next v1 frame of the peeked stream |
| Guard.ConnectionGuard.ReadFrame | core/internal/wire/guard.go:130-152 | the next message on the wire the connection is locked to, or the error for a missing version or reader |
| ControlSession.HandleControl | core/server/engine.go:1074-1211 | on either wire, with any verdict on the login, serves exactly the messages its bytes determine, under any chunking; which those are for a given sender is what the rows below say |
| ControlSession.ServedPrefix | core/server/engine.go:1177-1211 | bytes that arrive later never change the messages already served |
| ControlSession.SealedSessionDelivers | core/internal/wire/guard.go:187-223 | magic, plain frames, then AEAD frames cut anywhere: what arrives is a first part of the messages sent, and all of them if all bytes do |
| ControlSession.PlainSessionDelivers | core/internal/wire/v2.go:148-244 | in plain text, on either wire: from any part of the bytes the first messages sent; from all of them, all messages up to the first over the negotiated limit, which ends the session |
| ControlSession.MaskedSessionDelivers | core/internal/wire/guard.go:326-341 | the same over the stream cipher of wire v1 |
| ControlSession.OtherTypeEnds | core/server/engine.go:1177-1211 | in every session, plain or behind either cipher, a message of any type but ping, new-proxy and close-proxy ends it: what was sent before, up to the first over the limit, is served, and nothing after it |
| ControlSession.DeliversOnly | core/server/engine.go:1074-1211 | whatever the bytes, what is served is nothing, or an accepted login followed by pings, new proxies and closed ones only |
| ControlSession.LimitAppliedTo | core/internal/wire/v2.go:192-244 | whatever the bytes, messages in plain text respect the session's limit and those behind a cipher the default |
| ControlSession.LimitHolds | core/internal/wire/guard.go:215-217 | all messages served respect the negotiated limit if and only if the session stays in plain text or the client keeps to the limit by itself; with the default limit it always does |
| ControlSession.LimitIsLost | core/internal/wire/guard.go:421-441 | a message of 102 octets is served under a limit of 64 once the session is encrypted, and ends it in plain text |
| ControlSession.OverLimitStops | core/internal/wire/v2.go:192-244 | a frame over the limit is refused by its header |
| Events.Subscription.Enqueue | core/event.go:136-164 | one offer, level by level; of a full buffer the event that leaves is the oldest below critical, or the oldest of all if there is none, and the others keep their order |
| Events.Subscription.EvictOldest | core/event.go:167-190 | the event removed is the first below critical, or the first of all if all are critical; the others keep their order |
| Events.Subscription.PublishResync | core/event.go:195-208 | the notice goes in once, making room if need be |
| Events.RunConserves | core/event.go:136-208 | in every run: offered = buffered + read + dropped diagnostics + discarded; the buffer fits; read and buffered are in the order put in |
| Events.CriticalsKept | core/event.go:167-208 | all critical events are kept in order if and only if the ones awaiting the reader never outnumber the capacity |
| Events.NewestAreKept | core/event.go:136-190 | in every run the critical events in the buffer are the last critical ones put in, and so are those below critical among theirs: what is lost or read is always the oldest of its kind |
| Events.OfferLoses | core/event.go:136-164 | an offer costs a critical event exactly when the buffer holds nothing else and another comes |
| Events.OneNotice | core/event.go:195-208 | a subscription gets one resync notice in its life, and it tells of one lost event |
| Events.ClosedOnlyDrains | core/event.go:117-126 | a closed subscription only drains |
| Events.StopIsLast | core/event.go:452-463 | whatever follows a stop, the stop event is the last one read |
| Events.EventHub.Publish | core/event.go:440-448 | every subscription is offered the event, each on its own |
| Events.EventHub.StopAll | core/event.go:452-463 | every open subscription ends with the stop event and is closed |
| Broker.StagedWorkConns.Push | core/internal/transport/staged.go:34-53 | keeps the newest up to the limit and closes the others; a closed pool neither keeps nor closes |
| Broker.PushIsExact | core/internal/transport/staged.go:34-53 | a pool within its limit gives up one connection when it is full, the oldest, and none otherwise |
| Broker.StagedWorkConns.Take | core/internal/transport/staged.go:56-71 | hands out the oldest |
| Broker.StagedWorkConns.Close | core/internal/transport/staged.go:81-95 | closes every stored connection, once |
| Broker.WorkBroker.ParkGuest | core/server/work.go:190-205 | pairs with the oldest idle connection, queues, or refuses |
| Broker.WorkBroker.Park | core/server/work.go:248-264 | pairs with the visitor that waits longest and its pending bytes, or stores |
| Broker.WorkBroker.TakeStaged | core/server/work.go:276-278 | lends the oldest idle connection |
| Broker.WorkBroker.DropGuests | core/server/work.go:228-242 | closes the visitors of one proxy and no others |
| Broker.WorkBroker.CloseStagedWorks | core/server/work.go:293-297 | closes the idle connections, keeps the visitors |
| Broker.WorkBroker.CloseStaged | core/server/work.go:303-317 | closes everything that waits, once |
| Broker.Engine.PairGuest | core/server/engine.go:1997-2015 | skips and closes exactly the dead connections in front, at most 32; the guest stays tracked on every exit |
| Broker.Engine.ServeWork | core/server/engine.go:1429-1438 | an arriving work connection is paired, stored or closed; paired while dead it is closed and its visitor, out of the queue, neither bridged nor closed |
| Broker.PairingSettles | core/server/engine.go:1997-2015 | with at most 16 idle connections pairing never runs out of attempts: it uses the oldest live one, or queues the guest |
| BrokerRuns.RunExclusive | core/server/work.go:190-264 | in every run, retries of visitors in between included, no proxy has both waiting visitors and idle connections; both queues are bounded; closing leaves nothing |
| BrokerRuns.RunInOrder | core/server/work.go:190-264 | in every run visitors and work connections of a proxy leave in arrival order, both sides telling of the same pairs |
| BrokerRuns.AttemptIsExact | core/server/engine.go:1997-2015 | in every run an attempt to pair a visitor takes the oldest idle connection and bridges it if that is live; without one it waits, unless 64 wait; it is turned away if and only if the broker is closed, 64 wait or its 32nd connection is dead too |
| BrokerRuns.RefusalsAreCounted | core/server/work.go:190-205 | the count of refused visitors is how often one came while 64 were waiting |
| BrokerRuns.RunConserves | core/server/work.go:190-317 | whatever arrived for a proxy is waiting, between two attempts, turned away, stranded in a closed pool, or gone with a known end, which may be to be lost; a visitor counts once however often it tries |
| BrokerRuns.VisitorsLostExactly | core/server/engine.go:1429-1438 | all visitors that arrived are bridged, closed, waiting, turned away or between attempts, if and only if no waiting one was ever handed to a dead connection |
| BrokerRuns.DeadArrivalLoses | core/server/engine.go:1429-1438 | a concrete loss: the visitor is not queued, not tried again and not closed |
| BrokerRuns.LossesExactly | core/internal/transport/staged.go:34-39 | all connections that arrived have a known end, are idle or were refused, if and only if none was parked, with nobody waiting, in an open broker whose pool was retired |
| BrokerRuns.NoRetiringNoLoss | core/server/work.go:293-317 | a broker whose pool is never retired alone loses no connection |
| BrokerRuns.ParkAfterRetireLoses | core/server/work.go:262-264 | the concrete loss: accepted, yet neither stored nor closed |
| BrokerRuns.VisitorsWaitOn | core/server/apply.go:205-218 | once a broker is swapped out, and work connections go elsewhere, its visitors wait on whatever else happens, short of the end of their proxy or of the broker |
| Outbox.RunSound | apps/jrps/internal/store/outbox.go:217-344 | in every run a lease is set exactly while sending and a stop time exactly once failed or discarded |
| Outbox.TerminalAbsorbs | apps/jrps/internal/store/outbox.go:295-344 | sent, failed and discarded rows never change again |
| Outbox.LeaseApart | apps/jrps/internal/store/outbox.go:216-239 | two successful claims with no recorded outcome between are at least one lease apart, whatever the clocks read |
| Outbox.GivesUpInTime | apps/jrps/internal/store/outbox.go:295-327 | with fresh copies a row is given up after at most maxAttempts recorded failures |
| Dispatchers.TraceRuns | apps/jrps/internal/store/outbox.go:153-250 | any number of dispatchers reading batches, claiming and reporting is a run of transactions, so the safety laws hold for them |
| Dispatchers.CountsUnlessOvertaken | apps/jrps/internal/store/outbox.go:244-249 | the attempt counter counts every recorded failure, all the time, if and only if nobody records a failure of the row between a dispatcher's reading it and recording its own |
| Dispatchers.GivesUpUnlessOvertaken | apps/jrps/internal/store/outbox.go:295-327 | then a row is given up after at most maxAttempts recorded failures, however many dispatchers there are |
| Dispatchers.LoneIsNotOvertaken | apps/jrps/cmd/jrps/main.go:217-246 | the one dispatcher the server makes is never overtaken |
| Dispatchers.FailuresAreBounded | apps/jrps/internal/store/outbox.go:179-250 | with k dispatchers at most as many failures of a row are recorded as one can choose k of k + maxAttempts - 1, whatever they have read and when |
| Dispatchers.PathsIsBinomial | apps/jrps/internal/store/outbox.go:244-249 | the bound is that binomial coefficient |
| Sends.SendsConserved | apps/jrps/internal/store/outbox.go:198-249 | every send of a row has its failure or its delivery recorded, or was withdrawn, or is under way, or its outcome never reached the row, which was then sent again |
| Sends.SendsAreBounded | apps/jrps/internal/store/outbox.go:198-249 | the sends are at most the bound on recorded failures, plus one for each time the row is taken again with no outcome recorded |
| Sends.FailureBoundHolds | apps/jrps/internal/store/outbox.go:198-249 | the bound on failures bounds the sends of all runs if and only if the row is never taken again that way |
| Sends.BoundIsReached | apps/jrps/internal/store/outbox.go:179-250 | for every number of dispatchers, of tries and of lapsed leases there is a run that sends the row as often as that |
| Sends.SendsWithoutRecord | apps/jrps/internal/store/outbox.go:198-239 | one dispatcher may send a row any number of times with no failure recorded |
| Sends.RetakenAfterLease | apps/jrps/internal/store/outbox.go:216-239 | a row still being sent is taken again only once the lease has run out, on the clock of whoever takes it |
| Sends.SmallFleets | apps/jrps/internal/store/outbox.go:256-258 | the bound is maxAttempts for one dispatcher, and fifteen for two and a limit of five |
| Outbox.BackoffGrows | apps/jrps/internal/store/outbox.go:267-288 | attempt b waits longer than attempt a whatever jitter is drawn for either, if and only if a < b, a < 5 and b > 1 |
| OutboxWaits.RetryWaits | apps/jrps/internal/store/outbox.go:295-327 | after a retryable failure below the limit recorded at t with delay d, and until another outcome, no claim of the row succeeds before t + d, whatever happens meanwhile |
| OutboxWaits.RetryComesDue | apps/jrps/internal/store/outbox.go:216-239 | left alone the row can be claimed if and only if it is t + d |
| OutboxWaits.WaitsGrow | apps/jrps/internal/store/outbox.go:244-288 | with fresh copies the n-th failure on record keeps the row for at least n times 30 seconds and at most n times 36 |
| OutboxWaits.LeaseRunsOut | apps/jrps/internal/store/outbox.go:216-239 | left alone a row being sent can be claimed if and only if its lease has run out |
| OutboxWaits.QueuedIsDue | apps/jrps/internal/store/outbox.go:66-84 | a queued row can be claimed at once |
| OutboxWaits.SentAgainIff | apps/jrps/internal/store/outbox.go:295-327 | after a recorded outcome the row can be claimed again, in some continuation, if and only if it was a retryable failure below the limit |
| OutboxWaits.DiscardedStays | apps/jrps/internal/store/outbox.go:417-442 | once the rows of a target are discarded none of them is ever claimed again |
| Outbox.Store.Claim | apps/jrps/internal/store/outbox.go:216-239 | the conditional update takes a row only if it is still due |
| Outbox.Store.UpdateOutcome | apps/jrps/internal/store/outbox.go:295-344 | an outcome reaches only a row still being sent, and makes it sent, failed, or due again the given delay later |
| Outbox.Store.DiscardOutboxForTarget | apps/jrps/internal/store/outbox.go:417-442 | discards exactly the unfinished rows of a target |
| Outbox.Store.OutboxEnqueue | apps/jrps/internal/store/outbox.go:66-84 | adds one pending row under a new number, or nothing if a field is missing |
| Outbox.OutboxDispatcher.DueEntries | apps/jrps/internal/store/outbox.go:179-192 | the first due rows up to the limit, by creation time and number; all of them if they fit |
| Outbox.OutboxDispatcher.Earliest | apps/jrps/internal/store/outbox.go:185-188 | the order in which rows are taken |
| Outbox.OutboxDispatcher.DispatchCommitted | apps/jrps/internal/store/outbox.go:153-249 | a round takes the first due rows in order; unless a transaction fails each is claimed and, if the claim succeeds, sent and its outcome recorded; a dispatcher alone on the table never writes from a stale copy, though rows are queued and discarded meanwhile |
| EntryNames.AtoiItoa | core/server/engine.go:2454-2463 | a printed integer reads back |
| EntryNames.EntryPortOfName | core/server/engine.go:641-643 | a shared entry's port reads back from its name |
| EntryNames.ColonFreeIsNoEntry | core/validate.go:505-521 | a name without a colon is no entry name |
| EntryNames.ColonCollides | core/server/engine.go:2454-2463 | with a colon it can be one, in more than one spelling |
| Routing.NewHTTPRouter | core/internal/proxy/http.go:41-57 | builds the table unless a route is illegal or two share a key |
| Routing.DetectRouteConflict | core/internal/proxy/http.go:82-92 | finds a repeated key if and only if there is one |
| Routing.MatchesIsUnder | core/internal/proxy/http.go:117-125 | the prefix test is exactly: equal, or cut at a slash, or the root |
| Routing.SelectIsBest | core/internal/proxy/http.go:94-112 | a request is routed if and only if some route has its host, letters compared without case, and a path prefix of it, and then to a longest such one |
| Routing.BestIsUnique | core/internal/proxy/http.go:82-112 | the longest serving route of a table is unique |
| Routing.OrderDoesNotMatter | core/internal/proxy/http.go:41-57 | neither success nor any answer depends on the order of the routes |
| Routing.TrailingSlash | core/internal/proxy/http.go:117-125 | a prefix ending in a slash covers what follows only behind a second slash |
| Validation.DuplicateBindingNames | core/validate.go:173-201 | reports exactly the places whose name stands at an earlier place too, in order |
| Validation.ValidatePortConflicts | core/validate.go:297-361 | reports exactly the bindings whose port an earlier exclusive one had first under another name, in order |
| Validation.ValidateHTTPRouteConflicts | core/validate.go:368-393 | reports exactly the places whose claim to a port, host and path stands at an earlier place too, in order |
| Validation.ChecksAreExact | core/validate.go:159-201 | the one-pass scans find nothing if and only if names, ports and routes are pairwise apart |
| Validation.ClaimsApart | core/validate.go:368-393 | no claim is repeated if and only if no two hosts of a port and path are the same up to blanks around them and the case of letters |
| Validation.TrimMeans | core/validate.go:368-393 | trimming takes blanks off both ends and no more |
| Validation.ValidateConflicts | core/validate.go:159-171 | the verdict over all scans |
| Validation.RouterBuilds | core/server/engine.go:2119-2139 | for a valid configuration a port's table builds if and only if no host runs on behind a NUL into another route's path |
| Validation.RouterBuildsWithoutNul | core/server/engine.go:2119-2139 | so hosts without NUL are enough |
| Validation.NulBreaksRouter | core/internal/proxy/http.go:76-92 | a host with a NUL passes validation and leaves its port without a table |
| Validation.EntryKeysDistinct | core/server/engine.go:481-513 | every entry of a valid configuration has a key of its own |
| HotSwap.TakeStream | core/server/engine.go:560-585 | an entry that keeps name and address keeps its socket; any other gets a new one on the address wanted, or fails without effect if and only if binding is refused |
| HotSwap.TakeUDPEntry | core/server/engine.go:592-625 | a UDP entry is taken over only with unchanged parameters |
| HotSwap.OpenEntries | core/server/engine.go:449-535 | opens what the configuration asks for, each entry on its address, or gives everything back, which is so if and only if binding is refused or a UDP entry would be kept under other parameters |
| HotSwap.OverlapIsShared | core/server/engine.go:575-590 | two addresses overlap if and only if some visitor, by ip and port, would get to either |
| HotSwap.ReachIsExact | core/server/engine.go:549-590 | the visitors, by ip and port, who get to an entry are those who would get to the address wanted, if and only if it did not keep an open socket on another host |
| HotSwap.WantsAreApart | core/server/engine.go:481-513 | a valid configuration asks for every entry name once |
| HotSwap.CloseAllBut | core/server/apply.go:275-288 | closes each own socket once and spares the handed-over ones |
| ServerEngine.Engine.Start | core/server/engine.go:265-316 | starts if and only if nothing is wrong with the configuration, it is the first start, and no binding is refused; then every entry has a new socket on its port and host; a failure closes a control entry of its own and leaves the host's alone; the engine owns just its entries afterwards if and only if nothing was open before |
| ServerEngine.Engine.Apply | core/server/apply.go:33-196 | succeeds if and only if the revision is not older, the configuration valid, nothing cancelled, unhealthy or refused, and no UDP entry would be kept under other parameters; a failure names its stage; it and the same revision again leave active, last good and sockets untouched; after a switch every entry has a socket with the port wanted and the host wanted, or one of the two unspecified, the old socket if and only if that one was so and a new one on the wanted address otherwise; all others count as changed; the drained count is off by the entries kept now less those taken over before |
| ServerEngine.Engine.Prepare | core/server/apply.go:107-143 | opens the entries of the new generation, or gives back what it opened; which of the two is exactly told by the bindings refused and the UDP parameters |
| ServerEngine.Engine.Publish | core/server/apply.go:147-196 | after the switch the open sockets are those of the new generation, one accept loop each |
| ServerEngine.Engine.Shutdown | core/server/engine.go:647-680 | closes every socket and the control entry; stopped if and only if draining was not cut short, and can be repeated then |
| ServerEngine.StopAccepting | core/server/engine.go:923-971 | closes the sockets not handed on and ends all accept loops |
| ServerEngine.StartGeneration | core/server/engine.go:337-355 | one accept loop for each socket |
| ServerEngine.SwapBalances | core/server/engine.go:449-535 | old sockets minus those closed plus those opened are the new entries |
| ServerEngine.KeptIsReused | core/server/engine.go:549-625 | what a generation has taken over is exactly what the old tables could hand over |
| EngineRuns.KeptThenDropped | core/server/apply.go:265-268 | an engine that keeps two entries once and then drops them closes two sockets and reports none |
| EngineRuns.PortMoves | core/server/engine.go:549-573 | a proxy moved from port 80 to 81: the old socket is closed, a new one open on 81, nothing kept |
| EngineRuns.HostStays | core/server/engine.go:549-590 | a server that listened at one address and is told to listen at all keeps its socket, and visitors at other addresses do not get to it |
| ServerEngine.ApplyAll | core/server/apply.go:33-196 | over any sequence of applications nothing leaks, the revision does not go back, and every kept entry, stream or UDP, keeps its one socket |
| ServerEngine.Engine.Replace | core/server/apply.go:107-196 | prepares and switches, or leaves everything as it was and says why |
| ClientSwap.Engine.PublishGeneration | core/client/apply.go:239-249 | switch and stop check are one step |
| ClientSwap.Engine.MarkStopped | core/client/engine.go:343-361 | marks the engine stopped and tells which generation to stop |
| ClientSwap.Engine.ClaimApply | core/client/apply.go:39-51 | one application at a time |
| ClientSwap.NextSound | core/client/apply.go:68-196 | every step of Apply and Shutdown keeps the protocol invariant |
| ClientSwap.NoPublishAfterStop | core/client/apply.go:239-249 | nothing is published once the engine is marked stopped |
| ClientSwap.RevisionsOnlyGrow | core/client/apply.go:104-168 | published revisions strictly increase |
| ClientSwap.FailureChangesNothing | core/client/apply.go:104-168 | a failed application changes neither active nor last good, which always agree |
| ClientSwap.AppliesUnlessStopped | core/client/apply.go:34-196 | an application of a newer revision, with a shutdown beginning at any step beside it or not, becomes the active one, and stops the one before, if and only if nothing went wrong and the engine was not marked stopped before the switch; otherwise it fails and nothing changes |
| ClientSwap.NoOlderRevision | core/client/apply.go:104-168 | the active revision again is a success without a switch, an earlier one fails |
| ClientSwap.EveryGenerationStops | core/client/engine.go:532-545 | once application and shutdown are through, every published generation has been told to stop |
| ClientSwap.StopsOnce | core/client/engine.go:532-545 | and none twice |
| ClientSwap.NoIdleAfterSweep | core/client/engine.go:460-511 | after the stop sweep a tracked connection is closed or has carried data, for ever |
| RuntimeProxies.Generation.HandleNewProxy | core/server/runtime_proxy.go:65-184 | one registration, refused without effect or entered with its routes rebuilt; when, and which routes, the rows below say |
| RuntimeProxies.Generation.HandleCloseProxy | core/server/runtime_proxy.go:321-365 | only the owner closes; a shared entry goes with its last user |
| RuntimeProxies.Generation.CleanupForConn | core/server/runtime_proxy.go:494-545 | the end of a session takes its proxies along |
| RuntimeProxies.Generation.RebuildHTTPRoutes | core/server/runtime_proxy.go:283-313 | a port gets a table exactly if its merged routes do not collide |
| RuntimeProxies.Generation.CheckRuntimeProxyConflicts | core/server/runtime_proxy.go:369-410 | name, then port, then routes |
| RuntimeRoutes.RegisteredRoutes | core/server/runtime_proxy.go:244-280 | a route is one of an HTTP registration if and only if it has its name, one of its domains or its subdomain trimmed, and one of its locations trimmed, or / for a blank one or for none; it is refused if and only if it has no host, a blank one, or a location without a slash in front |
| RuntimeRoutes.RequestsAreRouted | core/server/runtime_proxy.go:283-313 | on a port that has a table a request gets to a proxy if and only if a configured or registered one offers a route that serves it, and then to that of the longest path |
| RuntimeRoutes.AcceptedIsServed | core/server/runtime_proxy.go:65-184 | once an HTTP registration is accepted, a request for any of its hosts and a path under any of its locations is answered by it, or by the proxy of a longer path |
| RuntimeRoutes.RegisterAndAsk | core/server/runtime_proxy.go:65-184 | the same on the objects: after the registration the published table of its port gives that answer |
| RuntimeRoutes.AcceptedExactly | core/server/runtime_proxy.go:65-184 | a registration for a port in range is accepted if and only if it is well formed, its name unregistered, its port free or shared among HTTP proxies, its routes go with those of the port, and there is a socket for it |
| RuntimeRoutes.SecondIsRefused | core/server/runtime_proxy.go:369-410 | a port registered by one proxy is refused to any later one, unless both are HTTP |
| RuntimeRoutes.OwnerCloses | core/server/runtime_proxy.go:321-365 | closing by the client that registered it frees name and address and closes the socket unless its HTTP entry is still in use; by anyone else it changes nothing |
| RuntimeRoutes.BlanksAreKept | core/internal/proxy/http.go:59-74 | a configured host with blanks around it is not found without them |
| RuntimeRuns.RunSound | core/server/runtime_proxy.go:65-365 | in a run whose accepted registrations are safe the entry table holds just the entries in use, the open sockets are theirs, every proxy is where it is looked for, shared entries listen on their ports and every port has its routes |
| RuntimeRuns.NewProxyLasts | core/server/runtime_proxy.go:65-184 | after a registration all of that holds in every continuation by safe steps if and only if it was refused or safe: its name spells no entry that could be opened, an HTTP port is a port, or a negative one comes to share an entry its routes fit, and a live proxy of the name is an HTTP proxy whose entry stays in use |
| RuntimeRuns.RunLasts | core/server/runtime_proxy.go:65-365 | in every run that is so at every moment if and only if every registration accepted is safe |
| RuntimeRuns.UnsafeBreaks | core/server/runtime_proxy.go:65-184 | for each way to be unsafe, the disorder at once or the safe steps that bring it |
| RuntimeProxies.SafeKeeps | core/server/runtime_proxy.go:65-184 | a safe registration, once accepted, keeps the tables in order |
| RuntimeProxies.CloseSound | core/server/runtime_proxy.go:321-365 | closing keeps the tables in order, whoever asks for it |
| RuntimeProxies.CleanupSound | core/server/runtime_proxy.go:494-525 | so does the end of a session, and all other sessions' proxies stay |
| RuntimeProxies.RemovedSound | core/server/runtime_proxy.go:437-454 | what a removal releases was open and belonged to one entry |
| RuntimeProxies.StartedSound | core/server/engine.go:449-535 | the tables of a generation just started are in order |
| RuntimeRuns.CompleteGuards | core/server/runtime_proxy.go:369-373 | while the registry is complete the name check finds every live proxy |
| RuntimeRuns.CleanupForgets | core/server/runtime_proxy.go:526-532 | the end of a session keeps the registry complete if and only if it had no proxies or the others have none |
| RuntimeRuns.OrderlyRunLasts | core/server/runtime_proxy.go:65-365 | in runs in which no session that has proxies ends while another has some, and names and HTTP ports are what they should be, the program's own check of the name keeps the tables in order for good |
| RuntimeRuns.CloseComplete | core/server/runtime_proxy.go:350-356 | closing keeps the registry complete |
| RuntimeRuns.TakenNameLeaks | core/server/runtime_proxy.go:137-152 | a registration of any type, its name and port otherwise fitting, that takes the name of a live proxy not replaceable leaves that proxy's socket open with no proxy and no entry in use that has it |
| RuntimeRuns.ReplacedStaysOpen | core/server/runtime_proxy.go:137-152 | the socket of a UDP proxy replaced by any other, or of a stream proxy by another, is open ever after; that of a stream proxy replaced by another kind too, if HTTP registrations ask for ports in range |
| RuntimeRuns.ReplacedEntryStaysOpen | core/server/runtime_proxy.go:191-202 | the socket of a replaced HTTP proxy stays open while no HTTP registration takes its entry, and can be closed if and only if one can |
| RuntimeRuns.ClosedIffTaken | core/server/runtime_proxy.go:337-363 | a socket without a proxy can be closed if and only if an HTTP registration can take its entry |
| RuntimeRuns.HighPortMisplaced | core/server/engine.go:541-547 | an HTTP port above 65535 gives an entry that listens on the low sixteen bits and is named and routed under the number given |
| RuntimeRuns.NegativePortUnplaced | core/server/runtime_proxy.go:203-226 | a negative HTTP port without an entry to share puts the proxy under its own name, where no port has its routes |
| RuntimeFaults.SurvivorIsTaken | core/server/runtime_proxy.go:526-532 | two sessions, one ends, the other's name is taken and its socket left open |
| RuntimeFaults.EntryIsTaken | core/server/runtime_proxy.go:191-202 | a socket left by a replaced HTTP proxy, taken by the next on its port and closed with that one |
| RuntimeFaults.ImpostorWaits | core/server/runtime_proxy.go:337-363 | a UDP proxy named http:80 leaves all in order, but not for good |
| RuntimeRuns.NegativePortUnchecked | core/server/runtime_proxy.go:195-214 | a negative HTTP port shares an entry unchecked: its table survives if and only if the routes happen to fit |
| RuntimeFaults.NegativePortBreaks | core/server/runtime_proxy.go:195-214 | if they do, the registration is accepted and the port loses its table |
| RuntimeFaults.IntrusionHappens | core/server/runtime_proxy.go:195-214 | and there is such a registration |
| RuntimeFaults.HighPortHappens | core/server/engine.go:541-547 | port 70000 is accepted and listens on 4464 |
| Sessions.Engine.RegisterOfficialSession | core/server/engine.go:1493-1508 | the new session replaces the old, whose run ID goes if it still leads to this client |
| Sessions.Engine.BindControlClient | core/server/engine.go:861-868 | the connection becomes the client's; the replaced one is returned |
| Sessions.Engine.UntrackControl | core/server/engine.go:835-855 | a connection takes along only what is still its own |
| Sessions.Engine.SessionByRunID | core/server/engine.go:1511-1523 | a run ID leads to a client and its session |
| Sessions.RunSound | core/server/engine.go:835-868 | over every interleaving the indexes agree and a run ID leads to a live session that carries it |
| Sessions.ResolvedIsLive | core/server/engine.go:1511-1523 | a resolved run ID belongs to a session on a tracked connection |
| Sessions.ResolvedIsLastLogin | core/server/engine.go:1511-1523 | over every interleaving a run ID leads to the client that logged in with it last, on that connection, or nowhere |
| Sessions.LateExitIsHarmless | core/server/engine.go:829-855 | a replaced connection takes nothing of its successor along |
| Sessions.RegisterResolvable | core/server/engine.go:1493-1508 | a login leaves every session findable if and only if its run ID is not another client's |
| Sessions.ResolvableExactly | core/server/engine.go:1493-1523 | over every interleaving all sessions can always be found if and only if no login names another client's run ID |
| Sessions.LeaveForgets | core/server/engine.go:848-851 | a leaving session removes another client's run ID if and only if it carries the same one |
| Sessions.TakeoverBacked | core/server/engine.go:1139-1150 | a takeover keeps every client served if and only if logins bind in the order they registered |
| Sessions.RacingLoginsLoseSession | core/server/engine.go:1139-1150 | of two logins at once both can lose: a live connection, no session |
| Revisions.ReconstructPhases | apps/jrps/internal/apply/service.go:352-387 | walks the fixed phases up to the failing one |
| Revisions.PublishedIffAccepted | apps/jrps/internal/apply/service.go:352-387 | publishing is recorded as done if and only if the core returned no error; a failed application has one failed phase, the last |
| Revisions.PhasesInOrder | apps/jrps/internal/apply/service.go:352-387 | the phases recorded are the first of the five in their order, all done but the last, which is the one the core failed in |
| Revisions.Store.AppendRevision | apps/jrps/internal/store/revision.go:67-96 | a new revision under the next number, or nothing |
| Revisions.Store.RestoreRevision | apps/jrps/internal/store/revision.go:200-235 | an old content under a new number; history is not touched |
| Revisions.StoresWhatIsAsked | apps/jrps/internal/store/revision.go:67-96 | what is stored is the content given, or that of the revision restored, under the next number, which becomes the one wanted; a transaction that fails stores nothing |
| Revisions.Store.RecordApplyResult | apps/jrps/internal/store/revision.go:270-308 | only a successful publication moves the active record |
| Revisions.Store.VerifyActiveRecord | apps/jrps/internal/store/revision.go:513-530 | accepts a record if and only if its publication is stored |
| Revisions.Store.RecordCoreResult | apps/jrps/internal/apply/service.go:249-267 | one transaction for each phase, each of which may fail |
| Revisions.RecordFollowsCore | apps/jrps/internal/store/revision.go:270-336 | over every history: consecutive revisions, active = last good = last accepted unless recording that was lost, and no start is refused |
| Revisions.NothingGoesBack | apps/jrps/internal/apply/service.go:108-135 | no stored revision changes and neither the accepted nor the recorded active revision goes back, restarts included |
| Revisions.OneFailureTwoNotices | apps/jrps/internal/store/recovery.go:34-77 | a failed application leaves one failed row, but two at a recovery |
| RequestHead.ReadHeaderBlock | core/server/engine.go:2364-2400 | the shortest prefix ending in a blank line, at most 8193 bytes; with what is left it is the original stream |
| RequestHead.HeaderBlockComplete | core/server/engine.go:2383-2400 | the four endings looked for are exactly a blank line |
| LoginReplay.LoginChain.CheckReplay | core/server/login.go:92-105 | refuses a login if and only if it is among the last maxSeen accepted |
| LoginReplay.WindowDistinct | core/server/login.go:92-105 | of any maxSeen + 1 logins accepted in a row no two are the same |
| LoginReplay.ForgottenAfter | core/server/login.go:92-105 | a used login is good again if and only if that many others have been accepted since |

## Left out

- Sockets, TLS, KCP, QUIC, WebSocket, real ciphers and key derivation, JSON and SQL: foreign libraries,
  present only as the laws and inputs above.
- The writing side of the v1 cipher (core/internal/wire/crypto_v1.go:104-135): what it sends is a function
  of the IV and the text.
- Buffer pools and the release of frames: they do not affect which bytes are read.
- The end of an AEAD stream on a frame boundary: its reader wraps the end of the connection, so there is
  no clean end.
- ControlSession.HandleControl: work connections, which share the entry, are turned away; what the server
  answers is not modelled.
- Streams.PeekReader.Consume: a nonzero cursor is moved to the offset given, not by it, as in the code;
  detection calls it with the cursor at the start.
- The wrap of frame counters and event counters at 64 bits.
- Events.Subscription.EvictOldest: taken as one step; a reader that receives during the eviction is not
  modelled, nor is a publisher that runs beside a stop.
- Untracking after a bridge ends, and the bridge itself: a paired connection leaves the model.
- Broker.Engine.PairGuest: nobody parks a visitor or a connection between its attempts; in the runs of
  `BrokerRuns` anything may happen there.
- Outbox.Store.OutboxEnqueue: rows enter as pending, as all callers leave them, and their texts are not
  modelled.
- Outbox.OutboxDispatcher.DueEntries: reading the table does not fail.
- Letters other than ASCII in host names, and white space other than that of Latin-1.
- Routes per port, allowed targets, credentials and transport parameters in validation: single-field
  checks with no bearing on the conflicts; a configuration may also be refused for them.
- Validation.ValidatePortConflicts: problems are places in the list of bindings, not texts.
- The registry, the routing tables and the broker during a server application: they are replaced before
  the switch, so only the active generation, the last good revision and the sockets are claimed to
  survive a failure. Runtime proxies take no part in the handover.
- A server shutdown beside an application: the stopped state is set at its very end. The race is
  modelled for the client, whose start is taken as one step.
- Which addresses the operating system refuses to bind: any attempt may be refused, and whether one
  clashes with an open socket is not modelled.
- ServerEngine.Engine.Apply: how long draining takes; it ends or runs out of time as it pleases.
- ServerEngine.Engine.Shutdown: after one whose draining was cut short only another shutdown is modelled,
  not an application, which the program admits and which would find closed sockets in the old tables.
- ServerEngine.Engine.Start: what is served on the control entry.
- RuntimeRuns.RunSound: a registration is one step, though the program checks twice around the binding
  of a socket.
- Reading the request line and the Host header from the head of a request.
- The time window of logins and the comparison of token digests.
- Audit rows, log lines and the texts of errors.
- Revisions.RecordFollowsCore: the core is any core that takes no older revision than the one it has and
  fails before the switch only, which is what ServerEngine shows of it.
