# rainbowbee: a verified model of its bookkeeping

rainbowbee is a Go peer-to-peer host. What is hard in it is not the transport but the books
it keeps while many goroutines work on them: which streams are idle, lent or gone, which
connections may stay, which half of a stream belongs to whom, what has been written to a
stream and what will be read off it. This project models those books and proves what they
promise, for every run.

Each component comes in two forms. The *machine* is a value with one step for each critical
section of the component's mutex; what holds in every interleaving is proved about its runs.
The *class* has the fields and the branches of the Go code, and each method is proved to take
exactly the machine's step. Errors, timeouts, map iteration order, `select` and the scheduler
are nondeterministic choices.

| file | models | main results |
|---|---|---|
| `Delivery.dfy`, `SendMsg.dfy` | `SendMsg` and the receive loop, any number of senders | `StreamAlignedIff`, `DeliveredInOrder`, `ReceiveAll`, `SendAsClient` |
| `Framing.dfy`, `Payload.dfy`, `Bytes.dfy` | the two nested length-prefixed formats, read in pieces | `ReceiveLoop`, `Unmarshal`, `MarshalRoundTrip` |
| `SendStreamPool.dfy`, `Expansion.dfy` | the pool of send streams and its expansion | `PoolConservation`, `FirstInFirstOut`, `ExpansionConverges` |
| `ConnectionManager.dfy`, `ConnectionGate.dfy` | the two-level connection manager and its admission gate | `LimitsHold`, `GateIsExact`, `GateIsSound`, `HandlersExceedIff` |
| `PeerOrder.dfy`, `ConnExclusive.dfy` | `WeightCompare` and simultaneous dials | `DialAgreement`, `ExactlyOneStaysOpen`, `AlwaysOnRecordIff` |
| `HalfStreams.dfy`, `Handshake.dfy`, `SerialNodes.dfy` | reuse of yamux half streams, the protocol exchange on top, two nodes that dial each other | `HalvesHaveOneOwner`, `HandshakeCompletes`, `GetThroughIff` |
| `ReceiveStreams.dfy` | receive stream counts | `CountsExact`, `LimitHoldsIff` |
| `ProtocolManager.dfy` | protocol book and change callbacks | `ObserverMirrorsBookIff`, `SetKeepsMirrorIff` |
| `PoolManager.dfy`, `ConnLifecycle.dfy` | pools of connections, connections coming and going | `ConnectedPeersHavePools`, `PoolsLiveIff` |
| `DialActuator.dfy`, `NecessaryPeers.dfy`, `ConnectionSupervisor.dfy` | the retry budget of necessary peers and the supervisor's checks | `RetryBudget`, `MarkedBudgetIff`, `AlwaysTruthfulIff` |

## Where the code does not do what it says

The model follows the code. For each of these the exact condition under which the intended
property holds is proved, and a state or a run in which it fails is given.

- **Framing can be lost.** `SendMsg` drops a stream only for `ErrSendStreamWriteFailed` and
  `ErrWriteMsgIncompletely`. A write that fails after some bytes with a timeout or on a closed
  network goes to `ReturnStream` instead (host.go:425-468). The next message on that stream is
  then read as something else. A stream in the pool carries exactly the frames of its messages
  if and only if it was never given back in the middle of one (`Delivery.StreamAlignedIff`,
  `Delivery.CutShortHappens`, `Delivery.CutShortMisdelivers`).
- **The expand loop dies.** `expandStream` passes the error of every open to the closed check,
  also the nil error of a success (components/send_stream_pool.go:263-264, util/error.go:37),
  which panics. The flag `nilGuard` of the pool's class selects the code as it stands or the
  intended one. With the guard an expansion converges; without it the pool reaches its goal
  exactly if one stream is all that was missing to it, and never grows again (`Expansion.UnguardedSettlesIff`,
  `Expansion.DeadLoopNeverGrows`).
- **Both peers can win a dial.** `WeightCompare` says true in both directions exactly when one ID
  is a prefix of the other (`PeerOrder.BothHeavierIffPrefix`), and transitivity fails exactly below
  such a prefix (`PeerOrder.IntransitiveIff`). Two nodes agree if and only if neither ID is a prefix
  of the other (`ConnExclusive.DialAgreement`). IDs come in several lengths (core/peer/id.go:89-100),
  and without TLS a node may know the other by a cut or padded ID (network/tcp/connection.go:181, 239);
  `ConnExclusive.SeenAgreementIff` is for whatever each takes the other's ID to be.
- **A closed pool loses count**: `ReturnStream` on a closed pool neither queues the stream nor
  counts it out. The size is what is queued and lent exactly if that never happened
  (`SendStreamPool.PoolConservation`, `ClosedPoolLosesCount`).
- **The gate is not exact under Random**: a peer it lets in may be the one drawn, exactly if the
  peer joins the losing level of a full manager. It turns away exactly those that every draw would
  evict (`ConnectionGate.RandomEvictsNewcomerIff`).
- **A promoted peer can evict its own older entry**, and is then on record as eliminated although
  connected; under FIFO and LIFO exactly if that entry is the next to go, under Random if it may be
  drawn (`ConnectionGate.AdmittedEvictsOwnEntryIff`, `OwnEntryDrawnIff`, `OwnEntryEvictedMisleads`).
- **The gate looks at connections, not at handlers.** Handlers of one peer that have passed
  `Allowed` exceed the limit in some continuation exactly if its connections and handlers
  together do (`ConnectionGate.HandlersExceedIff`). The host is safe: its accept loop handles one
  connection at a time (host.go:1126-1140, `SerialHostBounded`); a host that ran handlers side by
  side would not be (`TogetherTheyExceed`).
- **`RemovePeerConnection` drops the whole entry**, so other connections of the peer stay open
  without being held. It removes just the one exactly if the entry holds no other
  (`ConnLifecycle.RemoveExactIff`, `SecondConnectionDropped`), as with one connection per peer.
- **Pools can outlive their connection.** A pool stays registered for ever exactly if its
  connection was left behind in one of two ways (`ConnLifecycle.PoolsLiveIff`). Either the goroutine
  that should clean up goes away first: an accept loop whose wait for a stream fails on a closed
  connection or with a timeout ends without calling `handleClosingConn` (host.go:949-953), and a
  closing handler may block or panic on its way. Or the closing handler returns early because
  `RemovePeerConnection` finds nothing (host.go:784-787): the connection is not held, and its peer is
  not on record as eliminated (`LeaksIff`). One eviction is enough for the first (`EvictedLoopEnds`),
  one connection per peer for the second (`LeakHappens`). `GetPeerBestConnSendStreamPool` may then
  return a dead pool.
- **A dead peer goes on counting as connected.** A held connection that is left behind stays held,
  and its peer connected, exactly until a newcomer evicts its entry or another connection in the
  entry is removed; nothing is done on its own behalf (`ConnLifecycle.DeadPeerStaysConnectedIff`).
- **A superseded handler takes its successor's entry away.** `removeConnExclusive` deletes by peer
  (host.go:769-773, 991). Over any checks, ends of handlers and closings, every open connection in a
  handler's hands has its peer's entry all along exactly if no handler of a superseded connection
  ends before that of the connection that superseded it (`ConnExclusive.AlwaysOnRecordIff`); without
  the entry the next connection of the peer is kept as well (`OffRecordAdmitsSecond`,
  `SupersededHandlerEnds`).
- **The exclusive check has nothing to decide in the host as it runs.** It is for handlers side by
  side (host.go:99-102); with the serial accept loop (host.go:1126-1140) every connection passes it
  and it closes none (`ConnExclusive.SerialChecksPassAll`). Instead two nodes that dial each other
  can wait for each other: a node gets through its exchange of protocols, short of a timeout, exactly
  if both have taken up the same link; if each takes up its own dial first, neither does
  (`SerialNodes.GetThroughIff`, `DifferentLinksWait`).
- **Silent and repeated news.** `notifyIfChanged` says nothing when the new list is empty, and
  announces a protocol once per occurrence in the list. An observer's picture and the alternation
  of events hold throughout a run exactly if no call empties a known peer's list or brings news
  twice (`ProtocolManager.ObserverMirrorsBookIff`, `EmptiedInSilence`, `RepeatedNews`).
  `CleanPeer` panics exactly if the unsupported callback is unset and there is something to announce.
- **Not every failed dial is counted.** The break check after a dial comes before its error is
  looked at (components/connection_supervisor.go:306-311). A failure that coincides with `Stop`
  or with a connection from elsewhere is not counted (`DialActuator.CountedIff`,
  `CutOffDialsAreFree`). An actuator that `checkConn` marks finished has no budget at all, and does
  not sleep, exactly if it was marked during a Run whose dial can still fail
  (`DialActuator.MarkedBudgetIff`). `Reset` is never reached for an actuator that gave up
  (`GiveUpIsFinal`).
- **`allConnected` can be wrong.** It is worth its name throughout a run exactly if none of three
  things happens (`NecessaryPeers.AlwaysTruthfulIff`). While it is set, `SetPeerAddr` makes a peer
  necessary that is not connected (components/connection_supervisor.go:158-166, `NewPeerOverlooked`),
  or a necessary peer goes and its notice does not come. Or a round of checks sets it on the
  connection manager's word for a necessary peer that went without a notice before and is not back
  (`StaleAnswerTrusted`). It stays set, with every round of checks doing nothing, exactly until some
  necessary peer is reported gone (`StaysSetIff`). A necessary peer that is the host itself is
  skipped but counted in the total, so then it is never set (`ConnectionSupervisor.Supervisor.CheckConn`).
- **A late limit** on receive streams is not enforced on what is there. It is never exceeded
  exactly if nobody exceeds it when it is set (`ReceiveStreams.LimitHoldsIff`, `LateLimitExceeded`);
  in any case no peer gets more than the limit or what it had (`LimitBounds`).
- **The package whose protocol ID and payload are both empty** is marshalled but refused by
  `Unmarshal`, which wants more than 17 bytes (`Payload.MarshalRoundTrip`).

## What is assumed

`types.Set` is a set whose `Put` and `Remove` say whether they changed it. `IntToBytes` and its
inverse are 8-byte big-endian. `gzip` is a pair of partial functions, lossless where a statement
says so. `SliceExcludeAll` is set difference in list order. `FibonacciArray(n)` is a sequence of
length n with the Fibonacci recurrence; nothing is assumed of its first two terms. A stream's
`Read` fails or yields at least one byte. Slice lengths stay below 2^63, also those of encodings.
Connections, sessions and streams may fail at any time; a `reliable` one does not, and an actuator's
`Surroundings` may be quiet, which says when an operation has to succeed.

## Model

| member | source | states |
|---|---|---|
| Bytes.DecodeEncode | util/stream.go:15-22 | k big-endian bytes hold every number below 256^k without loss |
| Bytes.EncodeDecode | util/stream.go:15-22 | and k bytes are the encoding of the number they decode to |
| Bytes.HeadWeighs | util/stream.go:15-22 | big-endian: the byte in front of n others weighs 256^n |
| Bytes.WordRoundTrip | host.go:441-447 | the 8-byte length of any package reads back as that length |
| Payload.MatchesIffCut | core/protocol/payload_package.go:85-133 | the format is unambiguous: bytes are len8(p) p len8(q) q type rest in at most one way, the one found by offsets |
| Payload.CarriesIffCut | core/protocol/payload_package.go:85-133 | when bytes carry given fields, by that cut |
| Payload.CarriesUnique | core/protocol/payload_package.go:85-133 | bytes carry at most one set of fields |
| Payload.Refused | core/protocol/payload_package.go:85-133 | too short, too little, unknown compression or failed decompression: nothing is carried |
| Payload.MarshalledIff | core/protocol/payload_package.go:66-82 | which messages can be marshalled: uncompressed ones, and those of type 1 that gzip compresses; which error each of the others gets |
| Payload.MarshalledParts | core/protocol/payload_package.go:60-82 | where lengths, protocol, final payload (as it is, or what gzip made of it) and type stand in the package, and that cutting it by offsets finds them |
| Payload.MarshalRoundTrip | core/protocol/payload_package.go:60-133 | Marshal then Unmarshal gives the fields back, iff protocol and (compressed) payload are not both empty |
| Payload.MarshalInjective | core/protocol/payload_package.go:60-82 | different fields have different encodings |
| Payload.Reader.Read | core/protocol/payload_package.go:90-112 | bytes.Reader: copies what there is, short reads are no error, an exhausted reader fails |
| Payload.ReadWord | core/protocol/payload_package.go:90-110 | one length word through the shared buffer: right whenever eight bytes are left, at the end of the input otherwise |
| Payload.ReadParts | core/protocol/payload_package.go:89-119 | the five unchecked reads together succeed exactly on inputs that fit, and then find the true parts |
| Payload.PayloadPkg.Marshal | core/protocol/payload_package.go:60-82 | the bytes of the package, field by field; fails exactly for an unknown compression type or when compressing fails, each with its error |
| Payload.PayloadPkg.Unmarshal | core/protocol/payload_package.go:85-133 | succeeds exactly on bytes that carry some fields and holds those; which error otherwise, and what a failed call has already overwritten |
| Framing.HeadOfFrame | host.go:441-447 | a frame at the front of a stream is read off whole |
| Framing.DeframeFrames | host.go:848-869 | reading frames back gives the packages in order, then whatever follows |
| Framing.FramesDeframe | host.go:848-869 | every stream is the frames of what is read off it plus an incomplete rest: nothing is invented |
| Framing.DeframePrefix | host.go:848-869 | bytes that arrived so far give a prefix of the packages |
| Framing.PartialFrame | host.go:848-869 | an unfinished frame is not read |
| Framing.ReceiveStream.Read | util/stream.go:36-39 | a read hands out one or more bytes, as many as it likes, or fails |
| Framing.ReadPackageData | util/stream.go:27-45 | exactly length bytes in order, however the stream cuts them up; or an error |
| Framing.ReadPackageLength | util/stream.go:15-22 | the number in the next eight bytes; or an error |
| Framing.ReceiveLoop | host.go:843-869 | pushes exactly the packages the stream carries, in order, once each; a prefix of them if the stream fails |
| PeerOrder.WeightCompare | core/peer/id.go:30-39 | at the first difference the larger byte decides, without one before an ID ends the answer is true |
| PeerOrder.Total | core/peer/id.go:30-39 | one of two IDs is heavier |
| PeerOrder.BothHeavierIffPrefix | core/peer/id.go:30-39 | both are, iff one is a prefix of the other: antisymmetric exactly on prefix-free IDs |
| PeerOrder.Transitive | core/peer/id.go:30-39 | transitive on prefix-free IDs |
| PeerOrder.IntransitiveIff | core/peer/id.go:30-39 | transitivity fails exactly where the middle ID is a prefix of both others and those are out of order |
| PeerOrder.NotTransitiveOnPrefixes | core/peer/id.go:30-39 | which happens |
| PeerOrder.SameLengthOneHeavier | core/peer/id.go:30-39 | of two distinct IDs of equal length exactly one is heavier |
| ConnExclusive.Host.ConnExclusiveCheck | host.go:718-766 | the code performs the check step; it returns false iff it closed the new connection |
| ConnExclusive.Host.RemoveConnExclusive | host.go:769-773 | forgets the peer's entry, closes nothing |
| ConnExclusive.KeepsOtherEntries | host.go:718-766 | checks for one peer leave all others alone |
| ConnExclusive.KeepsChosen | host.go:726-765 | the kept connection is the first in the preferred direction, else the first |
| ConnExclusive.ExactlyOneStaysOpen | host.go:718-766 | of any connections to one peer exactly that one stays open, and no other connection is touched |
| ConnExclusive.AlwaysOnRecordIff | host.go:718-773 | over all checks, ends of handlers and closings every open connection in a handler's hands has its peer's entry iff no handler of a superseded connection ends before its successor's |
| ConnExclusive.OnRecordIsExclusive | host.go:718-773 | then no peer has two of them |
| ConnExclusive.OffRecordAdmitsSecond | host.go:759-765 | without the entry the next one is kept beside it, whatever its direction |
| ConnExclusive.SupersededHandlerEnds | host.go:769-773 | a run of two handlers that ends with two open connections |
| ConnExclusive.SerialChecksPassAll | host.go:1126-1140 | with one handler after the other every connection passes the check and only closings from elsewhere close any |
| ConnExclusive.AgreeOnHeavierDial | host.go:718-766 | any number of links in any two orders: if the heavier node dialed one, both keep it and close the rest |
| ConnExclusive.SeenAgreementIff | host.go:718-766 | whatever each node takes the other's ID to be: they keep the same link iff exactly one finds itself the heavier; which link each keeps |
| ConnExclusive.DialAgreement | host.go:718-766 | two opposite dials, checked in any order on each side: both nodes keep the same link iff neither ID is a prefix of the other; else each keeps its own |
| SendStreamPool.StepConserves | components/send_stream_pool.go:83-306 | every critical section keeps the books: idle counter is the queue length, size is queued + lent + abandoned, nothing in two places |
| SendStreamPool.PoolConservation | components/send_stream_pool.go:45-306 | so in every reachable state, with 0 <= idle <= current <= max; current is idle plus lent iff no ReturnStream of the run was refused by a closed pool, always so while open |
| SendStreamPool.AbandonedIffRefused | components/send_stream_pool.go:146-158 | over any run streams are abandoned exactly by refused returns |
| SendStreamPool.OpenedNConserves | components/send_stream_pool.go:207-217 | the queue always has room for the stream just opened: the channel send under the lock never blocks |
| SendStreamPool.NeverOverflows | components/send_stream_pool.go:146-158 | the full-pool branch of ReturnStream never runs |
| SendStreamPool.DropNeverClamps | components/send_stream_pool.go:164-173 | the negative clamp of DropStream never runs |
| SendStreamPool.NoStreamMeansAllLent | components/send_stream_pool.go:119-121 | an open pool refuses to lend for good iff exactly maxSize streams are lent out |
| SendStreamPool.BorrowIsExclusive | components/send_stream_pool.go:107-141 | a borrowed stream was lent to nobody and has left the queue |
| SendStreamPool.FirstInFirstOut | components/send_stream_pool.go:107-217 | every run: the streams lent, then those waiting, are those that waited at first and then those returned or opened, in order: a returned stream is lent only after all queued before it |
| SendStreamPool.FlagsOf | components/send_stream_pool.go:83-306 | which steps close the pool, start, stop or kill its loop, raise or take its signal |
| SendStreamPool.FlagsAreFinal | components/send_stream_pool.go:197-203 | over every run a closed pool stays closed, a loop that is gone stays gone |
| SendStreamPool.ClosedPoolLosesCount | components/send_stream_pool.go:146-158 | a run after which a closed pool counts a stream nobody has |
| SendStreamPool.ThresholdInIntegers | components/send_stream_pool.go:220-224 | round(0.2 n) is (n + 2) / 5 |
| SendStreamPool.SendStreamPool.InitStreams | components/send_stream_pool.go:83-100 | opens up to initSize once, all of them on a reliable connection; starts the loop iff it got there |
| SendStreamPool.SendStreamPool.BorrowFirst | components/send_stream_pool.go:107-125 | the first critical section and its four ends: an open pool with an idle stream lends the first one; which state leads to each of the others |
| SendStreamPool.SendStreamPool.BorrowSecond | components/send_stream_pool.go:126-139 | the second critical section and its three ends, the same way |
| SendStreamPool.SendStreamPool.ReturnStream | components/send_stream_pool.go:146-158 | queues the stream behind the others, or refuses it if the pool is closed; keeps the books |
| SendStreamPool.SendStreamPool.DropStream | components/send_stream_pool.go:164-173 | counts exactly one stream out; queue and idle counter untouched |
| SendStreamPool.SendStreamPool.Close | components/send_stream_pool.go:197-203 | closes the pool and changes nothing else |
| SendStreamPool.SendStreamPool.OpenSendStream | components/send_stream_pool.go:207-217 | queues and counts one new stream, or changes nothing |
| SendStreamPool.SendStreamPool.TriggerExpand | components/send_stream_pool.go:235-241 | an open pool has its signal raised; no signal is ever taken back |
| SendStreamPool.SendStreamPool.ExpandCheck | components/send_stream_pool.go:220-232 | true iff 0 < current < max and idle is at most a rounded fifth of current |
| SendStreamPool.SendStreamPool.ExpandStream | components/send_stream_pool.go:244-291 | one expansion is one step of the machine; how many streams it opens when all opens succeed: half of initSize but at least one, up to the maximum, or a single one before the loop dies by the nil error |
| Expansion.RoundGrows | components/send_stream_pool.go:244-306 | a round that is needed opens between 1 and max(1, initSize / 2) streams and raises the signal again |
| Expansion.ExpansionConverges | components/send_stream_pool.go:220-306 | one signal: at most maxSize - current rounds, then idle is above the threshold or the pool is full, overshooting by at most one step |
| Expansion.SettlingIsARun | components/send_stream_pool.go:294-306 | which is a run of the machine, of takes of the signal and expansions |
| Expansion.RunExpandLoop | components/send_stream_pool.go:294-306 | the loop reaches that state |
| Expansion.UnguardedSettlesIff | components/send_stream_pool.go:263-264 | as the code stands, its one surviving open reaches the goal iff one stream is all that was missing, to the maximum or to the threshold |
| Expansion.DeadLoopNeverGrows | components/send_stream_pool.go:263-306 | after that no run makes the pool grow |
| Expansion.UnguardedPoolStarves | components/send_stream_pool.go:263-264 | a pool of 10 of 20, all lent, is left with one idle stream |
| Expansion.RunUnguardedLoop | components/send_stream_pool.go:244-306 | the code does exactly that |
| SendMsg.BorrowStream | components/send_stream_pool.go:107-141 | an open pool with an idle stream lends the first one and has its signal raised; otherwise queue and loans are as before; no stream iff an open pool has all maxSize lent |
| SendMsg.WriteMsg | host.go:432-482 | what is out after a write, and which error for each result; on a reliable stream every message that can be marshalled is out whole |
| SendMsg.GiveBack | host.go:423-430 | does to the pool what the end of a job does in the machine: counts the stream out iff the write failed or came short, else queues it last |
| SendMsg.Send | host.go:401-482 | whatever happens the loans are as before and one stream at most was written to; which error for each refusal; with an idle stream in an open pool and a reliable connection every message that can be marshalled goes out whole; the pool does a borrow and the end of a job |
| SendMsg.SendAsClient | host.go:401-482 | the effect on pool and wires is a run of the machine: at most a Trigger, then Start, Write of what came out, End, with the error of that End |
| Delivery.StepKeepsInv | host.go:401-482 | any step of any sender, also of one whose message cannot be marshalled, keeps: every stream is frames + waste + the part being written, idle streams have no open part, each job holds its own stream |
| Delivery.StepWastes | host.go:423-468 | bytes are wasted exactly by giving a stream back in the middle of a frame |
| Delivery.WasteIffCutShort | host.go:423-468 | over runs |
| Delivery.StreamAlignedIff | host.go:401-482 | after every run of any number of senders an idle stream carries exactly the frames of its messages, iff it was never given back in the middle of one |
| Delivery.DeliveredInOrder | host.go:401-482 | at every moment of every run such a stream gives the receiver its messages whole, in order, nothing else; any arrived part of it a prefix |
| Delivery.LastMessageDelivered | host.go:449-481 | that includes the message whose sender is about to give the stream back |
| Delivery.DeliveredMessages | core/protocol/payload_package.go:60-133 | each delivered package unmarshals to the message that was sent, with the one exception |
| Delivery.CutShortHappens | host.go:423-468 | a run that puts a stream with one byte of a frame back into the pool |
| Delivery.ArrivesAfterLeftoverIff | host.go:848-869 | after any left-over bytes the next message comes out first iff the bytes repeat the beginning of its own frame |
| Delivery.CutShortMisdelivers | host.go:848-869 | which never happens after that one byte: no following message comes out first |
| Delivery.ReceiveAll | host.go:401-869 | end to end: from any run of any senders through the receive loop to messages: one package for each message sent on the stream, in order, each giving its message back but for the empty one; the first of them if the stream fails |
| ConnectionManager.LevelConnectionManager.GetConnections | components/connection_manager.go:166-183 | the first entry of the peer, or none |
| ConnectionManager.LevelConnectionManager.CloseLow | components/connection_manager.go:186-193 | closes and removes exactly one entry |
| ConnectionManager.LevelConnectionManager.EliminateConnections | components/connection_manager.go:206-390 | who is evicted under each strategy, and the failure that calls itself a bug |
| ConnectionManager.LevelConnectionManager.AddPeerConnection | components/connection_manager.go:421-473 | the whole new state; false iff the peer's entry holds the connection already |
| ConnectionManager.LevelConnectionManager.RemovePeerConnection | components/connection_manager.go:478-518 | drops the peer's whole entry; true iff something changed |
| ConnectionManager.LevelConnectionManager.AddHighLevelPeer | components/connection_manager.go:159-163 | one more high-level peer, nothing else |
| ConnectionManager.LevelConnectionManager.SetStrategy | components/connection_manager.go:112-126 | the strategy asked for, or the default for an unknown one |
| ConnectionManager.LevelConnectionManager.IsAllowed | components/connection_manager.go:619-657 | the gate |
| ConnectionManager.LevelConnectionManager.AllPeers | components/connection_manager.go:674-693 | high level first, each level in order |
| ConnectionManager.LevelConnectionManager.Connected | components/connection_manager.go:599-614 | true iff AllPeers lists the peer |
| ConnectionManager.EliminateRestores | components/connection_manager.go:235-390 | with one peer too many, elimination always finds a victim and restores the limit |
| ConnectionManager.AddKeepsInv | components/connection_manager.go:421-473 | adding keeps the invariant; the eliminate-failed branch is unreachable |
| ConnectionManager.RemoveKeepsInv | components/connection_manager.go:478-518 | so does removing |
| ConnectionManager.LimitsHold | components/connection_manager.go:421-518 | every run, every strategy: high + low <= maxCountOfPeers, unique IDs per level, both levels strictly in order of arrival |
| ConnectionGate.HighEvictedOnlyByHigh | components/connection_manager.go:235-390 | a high-level peer is evicted only by a high-level newcomer when no low-level peer is left |
| ConnectionGate.EvictsExtreme | components/connection_manager.go:265-344 | FIFO evicts the earliest arrival of the losing level, LIFO the latest; the rest keeps its order and the victim's connections are closed |
| ConnectionGate.EvictsIff | components/connection_manager.go:421-466 | somebody is evicted iff a new entry comes into a full manager; otherwise nothing is closed or noted |
| ConnectionGate.EvictionRecorded | components/connection_manager.go:186-390 | exactly the victim's connections are closed and its name noted; it is on the low level if there is anybody; Random evicts the entry drawn |
| ConnectionGate.HoldsWindow | components/connection_manager.go:421-473 | n distinct low-level peers: FIFO holds the last min(n, max), ungated LIFO the first, in order |
| ConnectionGate.GateIsExact | components/connection_manager.go:619-657 | under FIFO and LIFO a new peer is turned away iff admitting it would evict the newcomer itself |
| ConnectionGate.ListedAllowedIff | components/connection_manager.go:635-638 | a peer with connections passes the gate iff one more keeps it within the limit |
| ConnectionGate.RandomEvictsNewcomerIff | components/connection_manager.go:235-262 | under Random a new peer may be the victim of its own admission iff it joins the losing level of a full manager; it is turned away iff every draw would evict it |
| ConnectionGate.RandomMayEvictNewcomer | components/connection_manager.go:235-262 | the gate lets such a peer in |
| ConnectionGate.RoomStays | components/connection_manager.go:478-518 | removals and promotions keep the room the gate saw |
| ConnectionGate.GateIsSound | components/connection_manager.go:619-657 | a peer let in is not evicted by its own admission after any removals; under LIFO it evicts no high-level peer |
| ConnectionGate.AdmittedEvictsOwnEntryIff | components/connection_manager.go:421-473 | a peer let in, after any removals and promotions, evicts an entry of its own iff it was promoted and its low-level entry is the next to go in a full manager |
| ConnectionGate.OwnEntryDrawnIff | components/connection_manager.go:235-262 | under Random an older entry of the peer may go iff it was promoted, is listed at low level only, and the manager is full |
| ConnectionGate.OwnEntryEvictedMisleads | components/connection_manager.go:465-470 | it is then on record as eliminated although listed |
| ConnectionGate.PromotedPeerEvictsOldEntry | components/connection_manager.go:421-473 | the gate lets such a peer in |
| ConnectionGate.DoCounts | components/connection_manager.go:421-518 | only adding gives a peer a connection, one to one peer |
| ConnectionGate.StepLoads | host.go:994-1071 | connections plus handlers of a peer grow only by a handler passing the gate |
| ConnectionGate.HandlersCounted | host.go:994-1071 | a peer's handlers on their way in are those that passed and have neither entered nor given up |
| ConnectionGate.ConnectionsPerPeerBounded | host.go:994-1071 | if handlers pass only while connections plus handlers are below the limit, no interleaving exceeds maxCountOfConnectionsEachPeer over both levels |
| ConnectionGate.SerialHostBounded | host.go:1126-1140 | so with the serial accept loop, in every run from the start |
| ConnectionGate.HandlersExceedIff | host.go:994-1071 | the handlers that have passed exceed the limit in some continuation iff connections plus handlers do (where the peer's next entry replaces its old one: iff either does) |
| ConnectionGate.ExcessReachable | host.go:994-1071 | the run that exceeds it, from every state beyond the bound |
| ConnectionGate.TogetherTheyExceed | components/connection_manager.go:619-657 | under every configuration one handler too many can pass when they come together |
| PoolManager.SendStreamPoolManager.AddPeerConnSendStreamPool | components/send_stream_pool_manager.go:54-77 | adds the pair with its pool and keeps all others with theirs, or reports that there is one |
| PoolManager.SendStreamPoolManager.RemovePeerConnAndCloseSendStreamPool | components/send_stream_pool_manager.go:80-103 | removes and closes the pool, and the peer with its last one |
| PoolManager.SendStreamPoolManager.GetPeerBestConnSendStreamPool | components/send_stream_pool_manager.go:106-132 | a pool with the most idle streams, whatever the map order; none iff the peer has no connection |
| PoolManager.AddedHas | components/send_stream_pool_manager.go:54-77 | exactly one more pair |
| PoolManager.RemovedHas | components/send_stream_pool_manager.go:80-103 | exactly one pair less, and no empty peer kept |
| PoolManager.PoolsKept | components/send_stream_pool_manager.go:54-101 | the added pair has the given pool, every other pair keeps its own |
| ConnLifecycle.AddHolds | components/connection_manager.go:421-473 | adding makes the connection manager hold that connection and nothing else |
| ConnLifecycle.AddAdmitsExactly | components/connection_manager.go:421-466 | a new connection is held from then on, and all others as before, but for the entry evicted for it |
| ConnLifecycle.RemoveHolds | components/connection_manager.go:478-518 | after removal the connection is not held any more |
| ConnLifecycle.RemoveExactIff | components/connection_manager.go:478-518 | removing takes no other connection along iff the entry that holds it holds no other |
| ConnLifecycle.OneConnectionRemovesExactly | components/connection_manager.go:478-518 | as with at most one connection of the peer |
| ConnLifecycle.SecondConnectionDropped | components/connection_manager.go:478-518 | an open second connection is no longer held |
| ConnLifecycle.StepKeepsInv | host.go:784-1071 | each manager call of the two handlers, and an accept loop or closing handler that goes away before its end, keeps: held connections are accepting or were left behind, and unfinished ones have a pool |
| ConnLifecycle.ConnectedPeersHavePools | host.go:784-1071 | in every interleaving every held connection, so every connected peer, has a pool |
| ConnLifecycle.RunsTheManager | host.go:784-1071 | to the connection manager every run of the handlers is a run of its own operations |
| ConnLifecycle.LeaksIff | host.go:784-787 | the closing handler leaves the pool registered iff the connection is not held and its peer not on record as eliminated |
| ConnLifecycle.ClosingHandlerCleans | host.go:776-830 | a closing handler that finds something to remove and runs to its end takes the connection out of the connection manager and its pool, and no other, out of the pool manager |
| ConnLifecycle.PoolsLiveIff | host.go:784-1071 | after every run all registered pools belong to connections still looked after iff no step left one behind: no goroutine went away before its connection's pool was removed, and no closing handler returned early |
| ConnLifecycle.PoolStaysIff | host.go:784-830 | over every run a registered pool is there iff the closing handler of its connection has not removed it |
| ConnLifecycle.LeakHappens | host.go:784-787 | a run with one connection per peer that leaves one |
| ConnLifecycle.EvictedLoopEnds | host.go:949-953 | a run with one eviction after which the victim's accept loop ends and leaves its pool |
| ConnLifecycle.HeldUntilTakenIff | components/connection_manager.go:421-518 | any held connection is held after a run iff its entry was not evicted and not removed on behalf of a connection in it |
| ConnLifecycle.DeadPeerStaysConnectedIff | host.go:949-953 | over every run a held connection left behind stays held, and its peer connected, iff its entry is not evicted and no other connection in it is removed; it is never removed itself |
| ConnLifecycle.BestPoolOfConnected | host.go:412-416 | so the lookup of SendMsg finds a pool with the most idle streams, of a connection still looked after if none was left behind |
| HalfStreams.HalvesHaveOneOwner | network/tcp/stream.go:87-144 | every run: no half is handed out twice; the other half of each stream is in the usable map, handed out or shut, exactly one of them |
| HalfStreams.HandoutsAreFinal | network/tcp/connection.go:309-363 | what was shut is never handed out later |
| HalfStreams.ClosedNeverReused | network/tcp/connection.go:319-357 | in every run the other half of a stream whose first wrapper was closed before it was taken is never handed out |
| HalfStreams.Conn.GetUsableSendStream | network/tcp/connection.go:315-335 | finds an open one if there is one, shuts the closed ones it passes |
| HalfStreams.Conn.GetUsableReceiveStream | network/tcp/connection.go:343-363 | the dual |
| HalfStreams.Conn.PutUsableSendStream | network/tcp/connection.go:309-313 | the write half of an accepted stream becomes usable |
| HalfStreams.Conn.PutUsableReceiveStream | network/tcp/connection.go:337-341 | the read half of an opened stream becomes usable |
| HalfStreams.Conn.OpenSendStream | network/tcp/stream.go:87-114 | hands out one write half, reusing one if it can, always on a reliable session; only steps of the machine |
| HalfStreams.Conn.AcceptReceiveStream | network/tcp/stream.go:117-144 | hands out one read half, reusing one if it can, always on a reliable session with a stream waiting; only steps of the machine |
| HalfStreams.Conn.CloseFirstWrapper | network/tcp/stream.go:59-84 | one more stream is closed at its first wrapper, nothing else |
| Handshake.StepKeepsInv | components/protocol_exchanger.go:370-463 | where both programs, both wires and all halves stand, in every interleaving |
| Handshake.NoDeadlock | components/protocol_exchanger.go:370-463 | until both are done one end can go on |
| Handshake.BuildSnapshots | components/protocol_exchanger.go:229-242 | a payload holds the protocols registered when it was built |
| Handshake.HandshakeCompletes | components/protocol_exchanger.go:370-463 | no end fails, it is over after exactly ten steps, one stream is opened, RESPONSE uses the other half of the REQUEST stream, each end returns what the other built |
| Handshake.ResultIsOffered | components/protocol_exchanger.go:229-242 | each end returns what the other had registered last when it built its payload |
| Handshake.WrongMessageFails | components/protocol_exchanger.go:370-463 | a message of the other kind ends the exchange on its side: no result, no further step |
| SerialNodes.GetThroughIff | host.go:1009-1140 | two nodes that dial each other, each handling one link at a time: either gets through its exchange in some run iff both have taken up the same link |
| SerialNodes.DifferentLinksWait | host.go:1009-1140 | otherwise no run gets either through, and each ends after at most eight steps with both waiting |
| SerialNodes.SameLinkNeverStops | host.go:1009-1140 | on the same link one of them can always go on until both are through |
| SerialNodes.LinkRunsHandshake | host.go:1009-1140 | on each link every run of the two nodes is a run of the handshake |
| SerialNodes.ExchangedOnSameLink | host.go:1009-1140 | so on the link both have taken up each node comes back with what the other registered last before it built its payload |
| ReceiveStreams.TotalSplits | components/receive_stream_manager.go:66-197 | the total over connections does not depend on the order |
| ReceiveStreams.DoFrame | components/receive_stream_manager.go:66-197 | operations on one peer leave all others unchanged |
| ReceiveStreams.CountsExact | components/receive_stream_manager.go:58-197 | every run: each count is the number of the peer's streams, both maps know the same peers, nothing empty is kept |
| ReceiveStreams.LimitBounds | components/receive_stream_manager.go:66-98 | while a limit stands no peer gets more streams than it allows or the peer had already |
| ReceiveStreams.LimitHoldsIff | components/receive_stream_manager.go:58-98 | a limit is never exceeded from the moment it is set iff nobody exceeds it then |
| ReceiveStreams.LateLimitExceeded | components/receive_stream_manager.go:58-63 | a run in which it is exceeded at once |
| ReceiveStreams.CountZero | components/receive_stream_manager.go:101-197 | the early returns on a zero count lose nothing |
| ReceiveStreams.ReceiveStreamManager.SetPeerReceiveStreamMaxCount | components/receive_stream_manager.go:58-63 | sets the limit and nothing else |
| ReceiveStreams.ReceiveStreamManager.AddPeerReceiveStream | components/receive_stream_manager.go:66-98 | refused iff a positive limit is reached by the peer's total; else the stream is in its connection's set, the count is the total, and nothing else has changed |
| ReceiveStreams.ReceiveStreamManager.RemovePeerReceiveStream | components/receive_stream_manager.go:101-139 | the stream is out of its connection's set, the count is the total, and nothing else has changed |
| ReceiveStreams.ReceiveStreamManager.ClosePeerReceiveStreams | components/receive_stream_manager.go:164-197 | the connection's set is empty, the count is the total, nothing else has changed; exactly the connection's streams are closed |
| ReceiveStreams.ReceiveStreamManager.GetConnReceiveStreamCount | components/receive_stream_manager.go:142-154 | the number of the connection's streams |
| ReceiveStreams.ReceiveStreamManager.GetCurrentPeerReceiveStreamCount | components/receive_stream_manager.go:157-161 | the counter is the total over all connections of the peer |
| ProtocolManager.AnnouncedHeard | components/protocol_manager.go:137-142 | an observer of the announcements has added exactly the list, in turns iff no news is listed twice |
| ProtocolManager.AnnouncedInOrder | components/protocol_manager.go:137-142 | announcements are made in the order of the list, entry by entry |
| ProtocolManager.WithdrawnHeard | components/protocol_manager.go:143-151 | an observer of the withdrawals has removed exactly those |
| ProtocolManager.SetKeepsMirrorIff | components/protocol_manager.go:132-162 | the observer's picture stays the book's iff the new list is not empty or the old one was; events stay in turns iff no news is listed twice |
| ProtocolManager.CleanKeepsMirror | components/protocol_manager.go:167-175 | cleaning a peer keeps picture and turns |
| ProtocolManager.RegisterKeepsMirror | components/protocol_manager.go:52-84 | the book's entry for the host is the set of its handlers |
| ProtocolManager.ObserverMirrorsBookIff | components/protocol_manager.go:52-175 | throughout any run picture, turns and the host's own entry are right iff no call empties a known peer silently or brings news twice |
| ProtocolManager.ObserverMirrorsBook | components/protocol_manager.go:52-175 | so over every run of non-empty, duplicate-free calls |
| ProtocolManager.EmptiedInSilence | components/protocol_manager.go:133-135 | a peer that loses its only protocol to an empty list without the observer hearing of it |
| ProtocolManager.RepeatedNews | components/protocol_manager.go:137-142 | a list that announces a protocol twice |
| ProtocolManager.ProtocolManager.RegisterMsgPayloadHandler | components/protocol_manager.go:52-66 | the protocol has a handler and is in the host's own entry, all others as before; error iff it had one |
| ProtocolManager.ProtocolManager.UnregisterMsgPayloadHandler | components/protocol_manager.go:70-84 | the protocol has no handler and is not in the host's own entry, all others as before; error iff it had none |
| ProtocolManager.ProtocolManager.NotifyIfChanged | components/protocol_manager.go:132-152 | the events, in order; none for an empty list |
| ProtocolManager.ProtocolManager.SetSupportedProtocolsOfPeer | components/protocol_manager.go:157-162 | the peer's entry is the set of the list; for each callback that is set, its events in order |
| ProtocolManager.ProtocolManager.CleanPeer | components/protocol_manager.go:167-175 | the withdrawals in order and the entry gone, or the panic of a nil callback with nothing changed |
| ProtocolManager.ProtocolBook.AddProtocol | peerstore/protocol_book.go:31-39 | the union |
| ProtocolManager.ProtocolBook.SetProtocols | peerstore/protocol_book.go:42-51 | the set of the list |
| ProtocolManager.ProtocolBook.DeleteProtocol | peerstore/protocol_book.go:54-65 | the difference, the entry kept |
| ProtocolManager.ProtocolBook.ClearProtocol | peerstore/protocol_book.go:68-73 | the entry gone |
| ProtocolManager.ProtocolBook.GetProtocols | peerstore/protocol_book.go:76-89 | each protocol once, in any order |
| ProtocolManager.ProtocolBook.ContainsProtocol | peerstore/protocol_book.go:92-100 | membership |
| DialActuator.StepKeepsInv | components/connection_supervisor.go:198-362 | any step of any goroutine or of the supervisor keeps the accounts and the budget |
| DialActuator.RetryBudget | components/connection_supervisor.go:265-362 | since the last Reset: failed dials are counted, overtaken (at most one) or cut off; at most len(fibonacci) are counted unless marked finished mid-run; how long was slept at give-up |
| DialActuator.CountedIff | components/connection_supervisor.go:306-328 | between two Resets the counter is the number of failed dials iff no failure met a break check |
| DialActuator.DialsCounted | components/connection_supervisor.go:301-306 | the dials counted over any run are its dials, whatever else happens |
| DialActuator.AtMostOneRun | components/connection_supervisor.go:265-271 | at most one Run is active |
| DialActuator.GiveUpIsFinal | components/connection_supervisor.go:105-114 | a given-up actuator is never reset and never dials again |
| DialActuator.SpentBudgetIsFinal | components/connection_supervisor.go:349-357 | nobody dials once the budget is spent |
| DialActuator.SleepSumClosed | components/connection_supervisor.go:358-359 | f[1] + ... + f[k] = f[k+2] - f[2], and the same within the sequence |
| DialActuator.MarkedBudgetIff | components/connection_supervisor.go:349-360 | a marked actuator reaches any number of counted failures iff it was marked during a Run whose dial can still fail; otherwise none is counted any more |
| DialActuator.MarkedRunHasNoBudget | components/connection_supervisor.go:349-360 | such a run, without a sleep, for any number of failures |
| DialActuator.CutOffDialsAreFree | components/connection_supervisor.go:306-311 | any number of dials can fail, each cut off by a Stop, with the budget untouched |
| NecessaryPeers.AlwaysTruthfulIff | components/connection_supervisor.go:76-196 | throughout any run allConnected means that all necessary peers are connected (or their notice is under way) iff, while it is set, no unconnected peer becomes necessary and none goes without a notice, and no round sets it on the word of the connection manager for one that went without a notice and is not back |
| NecessaryPeers.StaysSetIff | components/connection_supervisor.go:80-82 | once set it stays set, and checks do nothing, iff no necessary peer is reported gone |
| NecessaryPeers.LastCallCounts | components/connection_supervisor.go:158-181 | after every run a peer is necessary iff the last call about it asked for it, connected iff it connected last, and its notice is under way from its disconnection to the last notice about it |
| NecessaryPeers.NewPeerOverlooked | components/connection_supervisor.go:158-166 | a run in which a new necessary peer is not connected and allConnected is set |
| NecessaryPeers.StaleAnswerTrusted | components/connection_supervisor.go:91-118 | a run in which a round sets it for a peer that is gone |
| ConnectionSupervisor.Actuator.Run | components/connection_supervisor.go:265-362 | the loop takes steps of the machine only, comes to an end, and leaves finished, given up or stopped; if every dial fails it dials exactly as often as its budget still has and gives up, if dials reach the peer it dials once; a second Run does nothing |
| ConnectionSupervisor.Actuator.LookAndDial | components/connection_supervisor.go:298-306 | the first half of a turn |
| ConnectionSupervisor.Actuator.LookAgain | components/connection_supervisor.go:307-348 | the second break check and the four outcomes of a dial |
| ConnectionSupervisor.Actuator.GiveUpOrSleep | components/connection_supervisor.go:349-360 | give up iff the budget is spent and nothing else happened |
| ConnectionSupervisor.CountMeansAll | components/connection_supervisor.go:116-119 | the count equals the number of necessary peers iff all are connected and the host is not one of them |
| ConnectionSupervisor.Supervisor.CheckConn | components/connection_supervisor.go:76-120 | for every necessary peer but the host: unconnected and new, a fresh actuator is started; given up, nothing is started; finished, it is reset and started; else it is started as it is; connected, it is dropped; all others are left alone; allConnected iff all necessary peers are connected and the host is not one of them |
| ConnectionSupervisor.ReadiedIsReset | components/connection_supervisor.go:99-113 | the supervisor resets an actuator it holds iff the machine can take the step |
| ConnectionSupervisor.Supervisor.SetPeerAddr | components/connection_supervisor.go:158-166 | one more necessary peer and a signal; allConnected as it was |
| ConnectionSupervisor.Supervisor.RemovePeerAddr | components/connection_supervisor.go:169-174 | forgets the peer and its actuator |
| ConnectionSupervisor.Supervisor.RemoveAllPeer | components/connection_supervisor.go:177-181 | forgets all peers, keeps the actuators |
| ConnectionSupervisor.Supervisor.NoticePeerDisconnected | components/connection_supervisor.go:184-196 | forgets allConnected iff the peer is necessary, and then wakes the loop unless stopped |

## Left out

- SendMsg.BorrowStream: the code retries for ever; the method is given a number of attempts, and that a stream eventually comes is not claimed.
- Framing.ReadPackageData: the allocation of a buffer of an absurd announced length, which may panic, is not modelled.
- ConnectionSupervisor.Supervisor.CheckConn: actuators are values there, so it does not capture a goroutine still running on an actuator that was dropped; the steps of DialActuator do.
- ConnectionSupervisor.Actuator.Run: nobody else steps between its own steps; interleavings are in DialActuator.
- SendMsg.Send: one sender with nobody stepping between its own steps; interleavings are in Delivery.
- SendMsg.SendAsClient: likewise; the trigger after the borrow stands before it in the run, which makes no difference to the pool.
- Delivery.CutShortMisdelivers: for one left-over byte and the first message after it; ArrivesAfterLeftoverIff is for any left-over bytes.
- HalfStreams.Conn.AcceptReceiveStream: accepting and putting the other half into the map is one step, and waiting for a stream is a failure.
- Handshake.BuildSnapshots: protocol lists are opaque values; their sorting and the peer ID in the payload are left out.
- HalfStreams.Conn.OpenSendStream: opening a stream and putting its other half into the map is one step.
- Handshake.HandshakeCompletes: failures, timeouts, deferred closes and the protobuf encoding of the exchange are left out; REQUEST and RESPONSE are values on a wire.
- SerialNodes.GetThroughIff: the exchange on the link each node takes up first; what follows a timeout is left out.
- TLS, certificates, everything in core/crypto, ID derivation, multiaddresses, listeners, yamux internals and logging: foreign libraries and plumbing.
- Wall-clock time: timeouts are nondeterministic choices, sleeps are only summed; liveness of cleanup is not claimed.
- What the receive loop does after its error (host.go:871-898) and the message pipeline behind PushJob.
- PushProtocols and Handle of the exchanger, whose check and set are in separate critical sections.
- The Unknown direction and strategy, Reset and Close of the managers, a connection manager's limits changed during a run, machine-integer overflow of counters.
- The blacklist, the address book, peer discovery and group multicast: separate tables that no step modelled here reads or writes. Plain getters return one field.
