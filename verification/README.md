# Golem replication: a verified model

Golem is a server-authoritative game engine. This project models, in Dafny, the machinery that keeps its
remote clients in sync over lossy datagrams, and proves what that machinery is for. `dafny verify
dfyconfig.toml` checks all of it.

| part | files | main results |
|---|---|---|
| datagram protocol | `SerialNumbers` `AckMask` `MaskValue` `PacketWindow` `Datagrams` `ReliableQueue` `OrderedReceiver` `OrderedLane` `OrderedLaneLimits` `EventualLane` `Protocol` | exactly-in-order delivery between two endpoints on a network that drops, duplicates and reorders; window exactness across wraparound; token conservation; wake-time soundness |
| codecs | `BigEndian` `PacketCodec` `FrameReader` | round trips in both directions, independence of the reused buffer, chunk invariance |
| eventual state | `StateTracker` `NoLostUpdate` `TrackerBuffers` `Packing` `EventualFrames` `SendRefinement` `SessionRuns` `ClientRevisions` | over any history of a session, a client has the current value of all it is shown, or that value is still marked or in flight; the code that serialises and sends is a run of the no-lost-update model; which updates a client refuses; the heap tracker with its buffer pool refines the value tracker; the packing plan |
| interest | `InterestGrid` `InterestManager` | the spatial hash and the generation-stamped diff agree with brute force; no flicker inside the hysteresis band |
| broadcast and ownership | `Visibility` `BroadcastKnown` `OwnerRedaction` `OwnerReplication` `FilteredPass` `PassRuns` | when the fast path agrees with the filtered one; closed groups stay closed, and owner-only fields follow the owner, over whole runs; the filtered pass sends every session exactly the frames it should, every bit that is due goes out, and a turn of the pass is a stretch of the session's history |
| tasks | `TaskPipeline` `TaskDrain` | safety in every interleaving; shutdown is never stuck; bounded fair drain |
| geometry | `SegmentCast` | the slab test is exact |

Code that updates state in place is modelled by classes and loops whose contracts equate the new state with a
function of the old one; the theorems are about those functions, over every input, run or reachable state.
Packet, message and ordered numbers are kept unbounded and enter packets and comparisons only through `Wrap`,
which is what the `uint16` field holds. Coordinates are reals, 64-bit masks are sets of bit positions, times are
integers, and map iteration is an arbitrary order. Network, clock, serialisers and user callbacks are parameters.

## Where the code does not do what it seems to promise

Each of these is a lemma with a concrete input, next to the exact condition under which the property holds.

- A receive window that has seen nothing stamps `ackSeq` 0, which acknowledges packet 0: a message in flight in
  that packet is forgotten although nobody received it (`OrderedLaneLimits.FreshStampLosesMessage`,
  `FreshStampLosesExactly`).
- `enqueueReliable` uses up its numbers before the overflow test: the 513th message submitted before a delivery
  leaves a hole the ordered lane never gets past (`OrderedLaneLimits.OverflowHappens`, `OverflowBlocksTheLane`).
  A hole appears if and only if a Submit meets a full queue (`SubmitLeavesHole`, `HolesAreOverflows`).
- An unordered message resent until 128 newer ones have arrived is acknowledged but never handed over
  (`Protocol.LateUnorderedIsDropped`, `AcknowledgedButDroppedExactly`). The comment on `recvReliableMsgs` speaks of
  one duplicate filter for both reliable lanes; only the unordered lane uses it.
- At distance 32768 the server's comparison picks a side by raw value and the Go client's answers false both ways
  (`SerialNumbers.HalfRangeGoesWrong`, `ComparisonIsExact`, `ClientComparisonAgrees`,
  `PacketWindow.ClientAcceptAgrees`).
- The client refuses an update of an entity that is older than one it took, even of other fields: if two datagrams of one
  entity arrive in the wrong order, or one arrives before the entity's full state, its fields stay behind although the
  connection reports it as delivered (`ClientRevisions.OvertakenFieldStaysBehind`). Exactly which updates are taken, and
  which fields end up current, is `TakenExactly` and `NewestExactly`.
- A bare stream payload that happens to begin with the control prefix is taken for an ACK frame
  (`PacketCodec.BarePrefixIsMisread`, `StreamPayloadRoundTrip`).
- An entity deleted and registered again under its id between two ticks is dropped from every known set by the blind
  broadcast path (`BroadcastKnown.RecreatedIsForgotten`, `BlindKeepsExactly`); the next tick enters it again.
- The same re-creation costs a live entity its visibility group, which the tick drops with the removal: from the next
  tick on every session is shown it (`BroadcastKnown.RecreatedLeavesItsGroup`). Groups survive a tick if and only if
  no live entity of a group is among the removals (`CleanupKeepsGroupsExactly`, `ClosedGroupsStayClosed`).
- A pending ownership refresh survives the deletion of its entity: under a reused id it hands the new entity's
  owner-only fields to a session that does not own it (`OwnerRedaction.ReuseLeaks`, `PassRedactsExactly`).
- A box that is flat along an axis reports its lower face even to a segment moving down through it
  (`SegmentCast.FlatBoxNormal`, `NormalOpposesMotion`).

## Model

| member | source | states |
|---|---|---|
| `SerialNumbers.DistanceIsExact` | golem/net/datagram_receiver.go:137-139 | the wrapped distance of unbounded numbers less than a cycle apart is their true distance |
| `SerialNumbers.ComparisonIsExact` | golem/net/datagram_receiver.go:141-143 | `seqGreater` is the true order within half the range, and at exactly half the range if and only if the larger number has the larger residue |
| `SerialNumbers.HalfRangeGoesWrong` | golem/net/datagram_receiver.go:141-143 | number 32768 compares as greater than 0, but 65536 does not compare as greater than 32768 |
| `SerialNumbers.ComparisonInverts` | golem/net/datagram_receiver.go:141-143 | beyond half the range it answers the wrong way round |
| `SerialNumbers.ServerComparisonIsTotal` | golem/net/datagram_receiver.go:141-143 | of two distinct numbers exactly one is greater, also at the distance section 3.2 of RFC 1982 leaves undefined |
| `SerialNumbers.ClientComparisonAgrees` | golem-go-client/webtransport.go:117-123 | the Go client's comparison differs from the server's exactly at distance 32768 |
| `MaskValue.HasBitReadsValue` | golem/net/datagram_protocol.go:67-75 | `hasBit` reads bit i of the four words taken as one 128-bit number |
| `MaskValue.SetBitIsOr` | golem/net/datagram_protocol.go:57-65 | `setBit` is `or` with 2^i on that number |
| `AckMask.WithBit` | golem/net/datagram_protocol.go:57-65 | sets exactly that bit, and nothing outside the window |
| `MaskValue.ShiftIsMultiplication` | golem/net/datagram_protocol.go:77-99 | the four-word shift by k turns the number v into v * 2^k mod 2^128, for every k |
| `AckMask.ShiftedIsOneShift` | golem/net/datagram_protocol.go:77-99 | bit b of the shifted mask is bit b-k of the mask, for every b and k |
| `AckMask.ShiftLeft` | golem/net/datagram_protocol.go:77-99 | the word loop computes that shift |
| `PacketWindow.SequenceWindow.Accept` | golem/net/datagram_receiver.go:65-95 | the in-place window update is the window function `Admit` |
| `PacketWindow.AcceptIsExact` | golem/net/datagram_receiver.go:65-95 | with unbounded numbers: accepted if and only if unseen and at most 128 behind the newest, and mask bit i stays set if and only if packet newest-1-i was accepted |
| `PacketWindow.NoPacketAcceptedTwice` | golem/net/datagram_receiver.go:65-95 | over any run no number is accepted twice, and the window tracks exactly the accepted ones |
| `PacketWindow.ClientAcceptAgrees` | golem-go-client/webtransport.go:89-115 | the client's shorter `accept` gives the same window and verdict except exactly for a number 32768 above the newest |
| `PacketWindow.StampIsExact` | golem/net/datagram_sender.go:425-443 | reading a stamp: pending if newer than everything accepted, delivered if accepted and inside the window, else lost |
| `PacketWindow.FreshStampAcknowledgesZero` | golem/net/datagram_sender.go:287-298 | the stamp of a window that saw nothing acknowledges packet 0 and no other |
| `ReliableQueue.RetryDelayBounds` | golem/net/datagram_sender.go:403-423 | the back-off is monotone, from the base delay to the cap, which it reaches at the fourth attempt |
| `ReliableQueue.ReliableRetryDelay` | golem/net/datagram_sender.go:403-423 | the doubling loop computes that back-off for every attempt number |
| `ReliableQueue.ChooseNext` | golem/net/datagram_sender.go:68-98 | nothing is to be done if and only if every message waits in flight for its retry time, or is alive in flight while resends are not allowed; otherwise the first message that is not like that is sent, or stalls the queue if it has expired |
| `ReliableQueue.ChoiceIsExact` | golem/net/datagram_sender.go:68-98 | that characterises the choice: of all choices it admits this one alone |
| `ReliableQueue.SentMessageWaits` | golem/net/datagram_sender.go:86-93 | a message that was sent is left alone for exactly its retry delay, and is sent again after that or has expired |
| `ReliableQueue.LostMessageIsFree` | golem/net/datagram_sender.go:376-387 | a message found lost is not left alone any more, whether resends are allowed or not |
| `ReliableQueue.RetryDelays` | golem/net/datagram_sender.go:403-423 | 75, 150, 300 and 400 ms |
| `ReliableQueue.PruneReliableQueue` | golem/net/datagram_sender.go:365-394 | the in-place filter is the pruning function, including what a stall leaves behind in the slice; it reports a change if and only if it stalls or settles a message |
| `ReliableQueue.PruneWithoutStall` | golem/net/datagram_sender.go:365-394 | without an expired message pruning leaves exactly the messages the stamp does not report as delivered, in their order, those found lost out of flight |
| `ReliableQueue.PruneOrigin` | golem/net/datagram_sender.go:365-394 | pruning invents no message, stalled or not |
| `ReliableQueue.PruneKeeps` | golem/net/datagram_sender.go:365-394 | pruning drops no message the stamp does not report as delivered, stalled or not; a pending one stays as it is, and without a stall before it a lost one leaves flight |
| `ReliableQueue.DeliveredLeaves` | golem/net/datagram_sender.go:365-394 | no slot with a number remains in the queue, stalled or not, if and only if every slot that has it is reported as delivered and none is left behind by a stall |
| `OrderedReceiver.Receiver.Accept` | golem/net/datagram_receiver.go:97-131 | the receiver with its pending map and drain loop is the function `AcceptOrdered` |
| `OrderedReceiver.DrainIsFaithful` | golem/net/datagram_receiver.go:99-115 | draining delivers exactly the consecutive held messages and keeps the others held |
| `OrderedReceiver.AcceptOrderedIsFaithful` | golem/net/datagram_receiver.go:97-131 | received in any order any number of times, messages are delivered as the log's next ones without a gap, and everything received is delivered or held |
| `OrderedLane.OrderedLaneIsReliable` | golem/net/datagram_receiver.go:8-56 | on any dropping, duplicating, reordering network each side has delivered exactly the other's messages 0..n-1 in order, and every message that entered a queue is still queued, delivered or held; compared numbers are less than 32768 apart and stamps come from initialised windows |
| `OrderedLane.DeliveredMeansAccepted` | golem/net/datagram_sender.go:365-394 | a message leaves the queue only because the peer accepted a packet that carried it |
| `OrderedLaneLimits.ShortRunsAreReliable` | golem/net/datagram_receiver.go:137-143 | every run of at most 32768 steps is reliable with no hypothesis on the range at all |
| `OrderedLaneLimits.OverflowBlocksTheLane` | golem/net/datagram_sender.go:8-30 | a number used up by a full queue is never delivered past |
| `OrderedLaneLimits.SubmitLeavesHole` | golem/net/datagram_sender.go:8-30 | a Submit uses up a number without a message if and only if its size is proper and the queue is full |
| `OrderedLaneLimits.HolesAreOverflows` | golem/net/datagram_sender.go:8-30 | over any run, a side's numbering has a hole if and only if some Submit of it met a full queue |
| `OrderedLaneLimits.OverflowDecides` | golem/net/datagram_sender.go:8-30 | every number has its message if and only if no Submit of the run met a full queue, and then each message is queued, delivered or held |
| `OrderedLaneLimits.OverflowHappens` | golem/net/datagram_sender.go:23-27 | 513 messages submitted at once: number 512 is used up without a message |
| `OrderedLaneLimits.FreshStampLosesMessage` | golem/net/datagram_sender.go:287-298 | a concrete run in which a fresh window's stamp makes the peer forget an undelivered message |
| `OrderedLaneLimits.FreshStampLosesExactly` | golem/net/datagram_sender.go:287-298 | such a stamp, however late and whether or not the prune stalls, loses a message if and only if every slot that holds one is in flight in a packet whose number wraps to 0, the peer does not have it, and no stall leaves such a slot behind |
| `EventualLane.SendConserves` | golem/net/datagram_sender.go:104-130 | sending under a packet number conserves tokens if and only if that number is not in flight |
| `EventualLane.AckConserves` | golem/net/datagram_sender.go:339-363 | an ACK moves every settled token from the in-flight map to exactly one report |
| `EventualLane.ReportTellsTheTruth` | golem/net/datagram_sender.go:339-363 | a report says delivered if and only if the peer accepted the packet and still remembers it |
| `EventualLane.TokensAreConserved` | golem/net/datagram_sender.go:32-46 | in every run every enqueued token is in exactly one of queued, in flight or reported, and reported once |
| `Protocol.LastPacketSeqIsLast` | golem/net/datagram_sender.go:276-281 | the number before the next one is that of the packet last sent, also across the wrap |
| `Protocol.DatagramProtocol.EnqueueReliable` | golem/net/datagram_sender.go:8-30 | for every lane: refused for lane, size or overflow, or appended as a fresh message with the next numbers, to the unordered queue unless the lane is the ordered one; numbers are used up before the overflow test |
| `Protocol.DatagramProtocol.NextAckPacket` | golem/net/datagram_sender.go:52-62 | the encoding of a stamped ACK-only packet goes out exactly when an ACK is pending and its time has come |
| `Protocol.DatagramProtocol.NewPacket` | golem/net/datagram_sender.go:287-298 | a packet takes the next number and the receive window's stamp and clears the pending ACK; one the encoder refuses changes nothing |
| `Protocol.DatagramProtocol.NextReliablePacket` | golem/net/datagram_sender.go:68-98 | the first message that is not to be left alone is sent, numbered, stamped and re-timed, or the stall is reported if it has expired; with none, nothing changes |
| `Protocol.PeerReadsMessage` | golem/net/datagram_sender.go:79-88 | the peer decodes it to the lane, the message's ids and payload, and the sender's next number and stamp |
| `Protocol.PeerReadsUpdate` | golem/net/datagram_sender.go:115-122 | the same of an eventual-state packet with its token |
| `Protocol.PeerReadsAck` | golem/net/datagram_sender.go:52-62 | the same of an ACK-only packet |
| `Protocol.DatagramProtocol.EnqueueEventualState` | golem/net/datagram_sender.go:32-46 | the head-index queue with compaction is a plain FIFO append |
| `Protocol.DatagramProtocol.CompactPendingEventualForAppend` | golem/net/datagram_sender.go:187-201 | compaction never changes the queue's contents |
| `Protocol.DatagramProtocol.PopPendingEventual` | golem/net/datagram_sender.go:204-215 | popping takes the oldest entry and leaves the rest in order, with or without compaction |
| `Protocol.DatagramProtocol.RecomputeEventualExpiry` | golem/net/datagram_sender.go:251-260 | the recomputed deadline is the earliest of all in flight, whatever the map order |
| `Protocol.DatagramProtocol.CheckEventualStateExpiry` | golem/net/datagram_sender.go:236-248 | with the cached deadline the answer is still: stalled if and only if some packet in flight is overdue |
| `Protocol.DatagramProtocol.NextEventualStatePacket` | golem/net/datagram_sender.go:104-130 | the oldest queued state goes out and is tracked under its packet number; stalls are reported exactly on overload or an overdue packet; the cached deadline is never later than the true one |
| `Protocol.SettleInFlight` | golem/net/datagram_sender.go:339-363 | the loop over the in-flight map settles and reports each key once, in any map order, and stops at an expired one |
| `Protocol.DatagramProtocol.PruneEventualState` | golem/net/datagram_sender.go:339-363 | each settled in-flight packet leaves the map and is reported once; stalled only with an expired one; a change is reported if and only if something was settled |
| `Protocol.DatagramProtocol.ApplyPeerAcks` | golem/net/datagram_sender.go:300-312 | remembers the newest stamp and prunes all three lanes by this one |
| `Protocol.HeardIsNewest` | golem/net/datagram_sender.go:300-311 | in whatever order stamps arrive, the one remembered is the last of those with the newest number |
| `Protocol.DatagramProtocol.PruneAckedMessages` | golem/net/datagram_sender.go:314-328 | all three lanes are pruned, the first stall decides the error, and a change is reported if and only if some message or token was settled |
| `Protocol.DatagramProtocol.DrainEventualFeedback` | golem/net/datagram_sender.go:330-337 | hands out every report once |
| `Protocol.DatagramProtocol.HandleIncoming` | golem/net/datagram_receiver.go:8-56 | ACK stage, packet window, then the lane's own acceptance, with every error path; an accepted unreliable or eventual-state packet gives exactly one delivery of its payload, an ordered one a delivery for each message released, in order, an unordered one its payload if the message is new, anything else none; an ACK is scheduled if and only if the packet was accepted; the sender is woken if and only if it was, or the stamp settled something |
| `Protocol.DatagramProtocol.AcceptPacket` | golem/net/datagram_receiver.go:22-55 | a packet is accepted once, and then handed over as its lane requires; an acceptance schedules an ACK |
| `OrderedReceiver.TimeoutMeansHeld` | golem/net/datagram_receiver.go:58-63 | the gap check fails if and only if something has been held back without interruption for longer than the limit, whatever gaps came and went meanwhile |
| `OrderedReceiver.GapClock` | golem/net/datagram_receiver.go:97-135 | the gap clock is off if and only if nothing is held, and otherwise stands at the arrival since which something always was |
| `Protocol.UnorderedHandOver` | golem/net/datagram_receiver.go:33-37 | an accepted unordered message is handed over if and only if unseen and at most 128 behind the newest message id |
| `Protocol.LateUnorderedIsDropped` | golem/net/datagram_receiver.go:22-37 | message 0, sent again in packet 130 after packet 129 with message 129 arrived, is acknowledged by the next stamp and dropped |
| `Protocol.AcknowledgedButDroppedExactly` | golem/net/datagram_receiver.go:22-37 | an accepted packet's unordered message is acknowledged but dropped if and only if it is a repetition or more than 128 message ids behind the newest |
| `Protocol.QueueWake` | golem/net/datagram_sender.go:151-163 | the wake time found over a queue is one of the times its messages wait for, and no later than any of them |
| `Protocol.DatagramProtocol.NextWakeTime` | golem/net/datagram_sender.go:132-178 | before a wake time in the future no ACK, reliable or eventual packet is due, nothing stalls and the gap check passes; with no wake time this holds forever; and the wake time is the time of something that is waited for, or now if something is due |
| `PacketCodec.DecodeEncode` | golem/net/datagram_codec.go:49-171 | decoding an encoded packet gives it back on every lane, in the server and the Go client |
| `PacketCodec.WireLayout` | golem/net/datagram_codec.go:80-112 | every field stands at its place in the datagram |
| `BigEndian.MostSignificantFirst` | golem/net/datagram_codec.go:85-108 | numbers are written with the most significant byte first |
| `PacketCodec.EncodeDecode` | golem/net/datagram_codec.go:115-171 | encoding an accepted datagram gives the same bytes; an ACK-only one loses only what follows its header |
| `PacketCodec.AppendDatagramPacket` | golem/net/datagram_codec.go:49-113 | whatever the reused buffer held, the result is the encoding, nothing past it changes, and a too small buffer is left alone |
| `PacketCodec.ClientEncodesTheSamePackets` | golem-go-client/webtransport.go:681-729 | the client's size test accepts the same packets as the server's |
| `PacketCodec.ClientDecodesTheSame` | golem-go-client/webtransport.go:731-779 | the client decodes like the server except exactly for oversized data packets, which it accepts |
| `PacketCodec.StreamPayloadRoundTrip` | golem/net/control_frame.go:25-41 | the wrapped stream payload unwraps to payload, sequence and mask, and a bare one to itself if and only if it does not begin with the control prefix |
| `PacketCodec.ControlLayout` | golem-go-client/webtransport.go:411-432 | prefix, number, mask and payload stand at their places in a stream frame that carries an ACK |
| `PacketCodec.BarePrefixIsMisread` | golem/net/control_frame.go:25-41 | the control prefix itself, sent as a bare payload, is refused as a short ACK frame |
| `PacketCodec.WrappedFits` | golem-go-client/webtransport.go:410-432 | attaching an ACK never exceeds the stream's size limit |
| `FrameReader.SplitIsUnique` | golem-js/src/client.ts:178-206 | a byte stream splits into frames and an incomplete rest in at most one way |
| `FrameReader.FrameLayout` | golem-js/src/client.ts:130-138 | four bytes of length, then the data |
| `FrameReader.ReliableFrameReader.Push` | golem-js/src/client.ts:178-206 | a push returns exactly the complete frames and keeps exactly the rest, or fails exactly on a bad length |
| `FrameReader.RestSplits` | golem-js/src/client.ts:178-206 | what is left in the buffer, with the next chunk, can be split if all that has arrived can |
| `FrameReader.FeedAll` | golem-js/src/client.ts:175-206 | a fresh reader fed any chunks: no push fails if and only if the bytes are frames and the start of another, and then, however they were cut, the frames returned are exactly those in order and the buffer is the rest |
| `FrameReader.PrefixSplits` | golem-js/src/client.ts:178-206 | what has arrived of a well-formed stream is well-formed |
| `FrameReader.DecodeReliableBatchPayload` | golem-js/src/client.ts:140-165 | a batch decodes exactly when it is a concatenation of frames |
| `StateTracker.EqualLengthsMeanEqualSets` | golem/eventual_state.go:95-128 | the queue has no duplicates and lists every dirty id, so equal lengths mean equal sets |
| `StateTracker.CompactedIsExact` | golem/eventual_state.go:250-265 | compaction leaves each dirty id exactly once, in the order they had |
| `StateTracker.MarkDirtyKeepsQueue` | golem/eventual_state.go:95-128 | marking keeps the queue exact |
| `StateTracker.MarkQueuesLast` | golem/eventual_state.go:111-128 | marking queues an entity behind all that are pending, whose order stays |
| `StateTracker.SettleKeepsQueue` | golem/eventual_state.go:267-289 | feedback keeps the queue exact |
| `StateTracker.DirtyChangesExact` | golem/eventual_state.go:153-164 | every pending change is listed exactly once, in queue order |
| `NoLostUpdate.RemainingCovers` | golem/eventual_state.go:291-326 | what subtraction removes from a lost change is carried by a newer token in flight |
| `NoLostUpdate.RequeueCovers` | golem/eventual_state.go:267-289 | after a loss every uncovered bit of a live entity is dirty again |
| `NoLostUpdate.LostKeeps` | golem/eventual_state.go:267-326 | losing a token never breaks the invariant |
| `StateTracker.TidyingKeepsQueue` | golem/eventual_state.go:236-248 | the lazy compaction after a send keeps the queue exact |
| `StateTracker.TidiedIsBounded` | golem/eventual_state.go:236-248 | after a send the queue has at most 32 entries more than twice what is pending, and lists it in the same order |
| `StateTracker.MarkIsExact` | golem/eventual_state.go:95-128 | marking makes exactly the bits of the change dirty; once public stays public, once full stays full |
| `StateTracker.SettleIsExact` | golem/eventual_state.go:267-326 | a delivered token leaves flight and changes nothing else; after a loss a bit is dirty if and only if it was before, or the lost token held it for a live entity and no newer token in flight makes up for it |
| `NoLostUpdate.StepKeeps` | golem/eventual_state.go:171-184 | no step of marking, sending, streaming, dropping what is dead or shows nothing, feedback, entering, leaving, registering, unregistering, compacting or using tokens elsewhere breaks the invariant |
| `NoLostUpdate.NoUpdateIsLost` | golem/eventual_state.go:95-128 | in every run each outdated bit the session is to be shown of a live entity is dirty or carried at its current value by a token in flight; with nothing dirty or in flight nothing is outdated |
| `NoLostUpdate.WireIsAll` | golem/eventual_state.go:422-458 | of the bits a session is shown, a change of its flavour puts all it covers on the wire |
| `SendRefinement.SendIsRun` | golem/loop.go:1756-1778 | whatever branch it takes, and whatever tokens were used elsewhere, the send is a run of the no-lost-update model that ends with the code's tracker and token; in it every change of the tick outdates what the session is shown of it, and counts as sent only where a datagram or the stream batch holds it |
| `SendRefinement.FailedFreshSendKeepsNothing` | golem/eventual_state.go:624-718 | a send that fails when nothing was pending leaves nothing pending |
| `SendRefinement.PendingPlanIsRun` | golem/eventual_state.go:505-621 | sending everything pending, as far as it gets, is a sequence of sends, drops and one stream write |
| `SendRefinement.EmptyPublicMaskIsTruthful` | golem/eventual_state.go:448-458 | an empty frame for a public change means the session is shown nothing of it |
| `EventualFrames.SerialiserIsTruthful` | golem/eventual_state.go:422-503 | every change of the session's flavour: a frame is missing only for an entity that is gone, empty only when the session is shown nothing of the change, and in a datagram only if it fits |
| `EventualFrames.PublicFrameRevealsNothing` | golem/eventual_state.go:448-503 | a public change serialises to the same frame whatever the owner-only fields are, even if its mask has picked up private bits |
| `EventualFrames.FrameIsRight` | golem/eventual_state.go:422-503 | a change goes into a datagram if and only if it is partial and its bits have a compact form that fits, and then as exactly these bits; it yields nothing if and only if no public bit is left or the entity has nothing to say; otherwise the stream gets those bits, or the full state of that flavour |
| `EventualFrames.FrameFails` | golem/eventual_state.go:422-503 | serialising fails if and only if a public change is of an entity without owner-only fields, or the marshalling it needs fails |
| `SessionRuns.EventIsRun` | golem/loop.go:1619-1750 | registering, unregistering, ownership, reports, entering, leaving, tokens used by other sessions, and a send: each is a stretch of a run of the no-lost-update model that keeps its view of server and client right |
| `SessionRuns.HistoryIsRun` | golem/loop.go:1619-1750 | any interleaving of these over any number of ticks is such a run, as long as the session lasts |
| `SessionRuns.ClientCatchesUp` | golem/eventual_state.go:340-355 | at every moment of every history each bit the client is shown has its current value there, or is marked, or is held at its current value by a datagram in flight, save of entities of which the client refused an update; with nothing marked or in flight the client is current |
| `SessionRuns.SendOnce` | golem/loop.go:1756-1778 | the code's send is one of the events of such a history |
| `ClientRevisions.EntityManager.ApplyState` | codegen/templates/js/manager.ts.tmpl:132-150 | one entity's copy takes the full state unless it is older than what it took; other entities are untouched |
| `ClientRevisions.EntityManager.ApplyCompactUpdate` | codegen/templates/js/manager.ts.tmpl:107-125 | one entity's copy takes the fields of the mask if it is known and the update is not older than what it took |
| `ClientRevisions.TakenExactly` | codegen/templates/js/manager.ts.tmpl:127-162 | in any order of arrival an update is taken if and only if it is a full state or one arrived before, and no newer usable update of the entity arrived before |
| `ClientRevisions.NewestExactly` | codegen/templates/js/manager.ts.tmpl:127-162 | the client ends with the newest value sent of a field if and only if some update that holds it was taken in that sense |
| `ClientRevisions.InOrderIsEnough` | codegen/templates/go_client/manager.go.tmpl:136-173 | updates that arrive in the order of their revisions, full state first, are all taken |
| `ClientRevisions.OvertakenFieldStaysBehind` | codegen/templates/go_client/manager.go.tmpl:136-173 | two datagrams of different fields in the wrong order: both arrive, the older one's field stays as it was |
| `TrackerBuffers.EventualTracker.MarkDirtyChange` | golem/eventual_state.go:95-128 | the heap tracker marks as the value tracker does |
| `TrackerBuffers.EventualTracker.DirtyChangesInto` | golem/eventual_state.go:153-164 | lists the pending changes in queue order |
| `TrackerBuffers.EventualTracker.Borrow` | golem/eventual_state.go:186-199 | a borrowed buffer is large enough and is neither free nor in flight |
| `TrackerBuffers.EventualTracker.Release` | golem/eventual_state.go:201-206 | a released buffer becomes free, once, exactly if its capacity is in bounds and the list is not full; the pool stays separate from what is in flight |
| `TrackerBuffers.EventualTracker.MarkSent` | golem/eventual_state.go:171-184 | copying into a pooled buffer records the send; no buffer is shared, also when a token is replaced |
| `TrackerBuffers.EventualTracker.ClearEntity` | golem/eventual_state.go:212-228 | filters every in-flight buffer in place and frees the emptied ones, in any map order |
| `TrackerBuffers.EventualTracker.CompactDirtyQueueNow` | golem/eventual_state.go:250-265 | filters the queue in place to the exact one |
| `TrackerBuffers.EventualTracker.CompactDirtyQueue` | golem/eventual_state.go:236-248 | equals the value-level lazy compaction and keeps the queue exact |
| `TrackerBuffers.EventualTracker.SubtractNewerInFlight` | golem/eventual_state.go:291-326 | subtracts what newer tokens carry, with a result that does not depend on map order or on early exits |
| `TrackerBuffers.EventualTracker.ApplyFeedback` | golem/eventual_state.go:267-289 | reports are answered one after the other: a delivered token leaves flight and changes nothing else, a lost one makes exactly those bits dirty that no newer token makes up for; buffers return to the pool |
| `Packing.PackedIsOk` | golem/eventual_state.go:522-621 | every change is in exactly one datagram, the stream batch, or cleared; order is kept; each payload is the concatenation of its frames and within the budget |
| `Packing.PackedIsTight` | golem/eventual_state.go:585-593 | no datagram could have taken the first frame of the next one |
| `Packing.SendPrepared` | golem/eventual_state.go:624-718 | sends exactly the plan and records it in the tracker; after a failed send everything before it stands |
| `Packing.SendChanges` | golem/eventual_state.go:522-621 | whatever is cached, produces the same datagrams as the prepared loop, up to the first change that does not serialise |
| `Packing.CachedFrame` | golem/eventual_state.go:394-405 | the cache never changes what a change serialises to |
| `InterestGrid.Grid.Insert` | golem/interest/grid.go:43-58 | the three maps stay consistent, no cell is empty, and the entity is where it was put; with Move it terminates because of that consistency |
| `InterestGrid.Grid.Move` | golem/interest/grid.go:78-102 | the same, rehashing only on a cell change |
| `InterestGrid.Grid.Remove` | golem/interest/grid.go:61-74 | the same, dropping emptied cells |
| `InterestGrid.WithinIsScanned` | golem/interest/grid.go:119-124 | an entity within the radius lies in a scanned cell |
| `InterestGrid.Grid.Query` | golem/interest/grid.go:119-141 | returns every id within the radius exactly once and no other, whatever the order inside cells |
| `InterestManager.SyncIsExact` | golem/interest/manager.go:115-154 | after UpdateGrid the grid holds exactly the live spatial entities at their positions, the globals are exactly the live ones, the removed globals exactly the dead former ones |
| `InterestManager.Manager.AssignFOI` | golem/interest/manager.go:79-88 | a new field of interest keeps the session's known set |
| `InterestManager.Manager.RemoveFOI` | golem/interest/manager.go:91-96 | forgets the session |
| `InterestManager.Manager.UpdateGrid` | golem/interest/manager.go:115-154 | the loops over the registry, the tracked and the global entities compute that synchronisation |
| `InterestManager.ShownIsVisible` | golem/interest/manager.go:195-227 | with radii that are not negative, what the candidates show is what brute force shows |
| `InterestManager.CandidatePass` | golem/interest/manager.go:205-225 | enter radius for unknown, exit radius for known candidates; exactly the candidates carry this generation's mark |
| `InterestManager.CompactMarks` | golem/interest/manager.go:294-300 | rebuilding the marks loses nothing this generation reads |
| `InterestManager.ExitPass` | golem/interest/manager.go:232-241 | known spatial entities without a current mark leave, once each |
| `InterestManager.AppendGlobals` | golem/interest/manager.go:307-330 | allowed globals are known, disallowed and removed ones leave, whatever the map order |
| `InterestManager.SpatialDiff` | golem/interest/manager.go:193-243 | one anchored session: Entered, Stayed and Exited are the difference of the known sets, no id repeated |
| `InterestManager.GlobalDiff` | golem/interest/manager.go:185-191 | without an anchor on the grid only globals change |
| `InterestManager.Manager.DiffSession` | golem/interest/manager.go:179-243 | one session's turn changes no other session's known set |
| `InterestManager.Manager.ComputeDiffsFiltered` | golem/interest/manager.go:175-245 | every session's new known set is exactly the allowed globals plus the allowed entities within Radius if unknown or Radius+Margin if known, and its diff is exact |
| `InterestManager.NoFlicker` | golem/interest/manager.go:205-225 | in any run, an allowed entity that stays between the two radii is never listed as entered or exited |
| `Visibility.Policy.SetEntityGroup` | golem/visibility/manager.go:37-56 | the entity is allowed to members of its group alone, or to all without a group; map, counter of grouped entities and generation stay in step |
| `Visibility.Policy.RemoveEntity` | golem/visibility/manager.go:106-117 | drops the group and keeps the counter right |
| `Visibility.Policy.JoinGroup` | golem/visibility/manager.go:64-78 | the session is allowed the entities of the group besides those it was; nobody else's view changes |
| `Visibility.Policy.LeaveGroup` | golem/visibility/manager.go:81-94 | the session is no longer allowed the entities of the group; nobody else's view changes |
| `Visibility.Policy.HasGroupedEntities` | golem/visibility/manager.go:137-139 | the counter answers for the map: without grouped entities everyone may see everything |
| `BroadcastKnown.FreshIdsAreNotRecreated` | golem/registry/registry.go:67-146 | registering only ids not deleted since the flush leaves nothing re-created |
| `BroadcastKnown.BlindKeepsExactly` | golem/loop.go:1826-1845 | the blind update keeps known equal to live if and only if no live id was deleted since the last flush |
| `BroadcastKnown.RecreatedIsForgotten` | golem/loop.go:1826-1845 | delete and re-create of one id: the blind update drops the live entity |
| `BroadcastKnown.FastPathHasNothingToFilter` | golem/loop.go:1789-1822 | with the decision for the fast path the filtered diff would list no entry and no exit |
| `BroadcastKnown.AfterCleanup` | golem/loop.go:1849-1858 | dropping the groups of removed ids changes what a session may see if and only if a re-created entity was hidden from it |
| `BroadcastKnown.CleanupKeepsGroupsExactly` | golem/loop.go:1849-1858 | the tick leaves every live entity its group if and only if no live entity of a group is among the removals |
| `BroadcastKnown.ClosedGroupsStayClosed` | golem/loop.go:1789-1858 | over whole runs in which no tick finds a live entity of a group among the removals, a session knows after a tick only what the groups, as the application set them, allow it |
| `BroadcastKnown.ActKeepsMeaning` | golem/loop.go:1849-1858 | the policy in force stays the one meant if and only if the act is no tick that finds such an entity |
| `BroadcastKnown.RecreatedLeavesItsGroup` | golem/loop.go:1849-1858 | two ticks after its re-creation a grouped entity is known to a session outside the group |
| `BroadcastKnown.DiffSets` | golem/loop.go:1806-1822 | the loops over the desired and the known set give the exact diff, no id repeated |
| `BroadcastKnown.Broadcaster.CreateEntity` | golem/registry/registry.go:67-77 | registers an unknown id and records the spawn |
| `BroadcastKnown.Broadcaster.DeleteEntity` | golem/registry/registry.go:130-146 | unregisters a known id and records the removal |
| `BroadcastKnown.Broadcaster.ShouldFilter` | golem/loop.go:1358-1387 | false if and only if nothing is grouped, owner-scoped or awaiting a refresh and every session's known set equals the live set |
| `BroadcastKnown.Broadcaster.All` | golem/registry/registry.go:165-173 | lists every live id once, in any order |
| `BroadcastKnown.Broadcaster.HasOwnerScoped` | golem/owner_replication.go:31-38 | true if and only if some live entity is owner-scoped |
| `BroadcastKnown.Broadcaster.Complete` | golem/loop.go:1377-1384 | comparing sizes and then members decides equality of the known and the live set |
| `BroadcastKnown.Broadcaster.FilteredPass` | golem/loop.go:1610-1623 | served sessions know what they may see, sessions gone or lost while sending are forgotten, others are untouched |
| `BroadcastKnown.Broadcaster.ComputeBroadcastDiff` | golem/loop.go:1789-1822 | the known set becomes the live entities the session may see, with the exact diff |
| `BroadcastKnown.Broadcaster.ApplyBlind` | golem/loop.go:1826-1845 | adds the spawns, then removes the removals, for the listed sessions only |
| `BroadcastKnown.Broadcaster.CleanupVisibility` | golem/loop.go:1849-1858 | drops the groups of the removed ids and no other |
| `BroadcastKnown.Broadcaster.RunBroadcastTick` | golem/loop.go:1337-1354 | the method is the tick of the run model: decision, known sets and policy afterwards, with the sessions read once for the decision and once more on the path |
| `BroadcastKnown.TickIsExact` | golem/loop.go:1337-1354 | after a tick a served session that was asked knows exactly the live entities the policy allows it, whatever it knew before, if and only if the tick was filtered or nothing was re-created |
| `OwnerRedaction.SettleFlavour` | golem/eventual_state.go:267-289 | feedback never makes a pending change public or private that was not |
| `OwnerRedaction.AdaptedExactly` | golem/owner_replication.go:90-107 | a session is sent exactly the changed bits it may see: all as owner, else the public ones, in a change that is public exactly for those who may not see all |
| `OwnerRedaction.OwnerSetKeepsBase` | golem/owner_replication.go:43-60 | however often the owner changes, the session to clear stays the owner at the last pass |
| `OwnerRedaction.ToldIsOwnership` | golem/loop.go:1634-1710 | after the stream batch a client holds the owner-only fields as the owner says, if and only if the refresh that reaches it agrees with the owner |
| `OwnerRedaction.FlavourIsOwnership` | golem/loop.go:1647-1660 | whatever is pending or offered after the clears is public exactly for non-owners |
| `OwnerRedaction.PassRedactsExactly` | golem/loop.go:1610-1747 | a pass leaves owner-only fields and non-public pending changes with the owners alone, among the sessions that have not left, if and only if every refresh that reaches a session agrees with the owner |
| `OwnerRedaction.SetOwnerCoalesces` | golem/owner_replication.go:43-60 | the pending refresh stays (owner at the last pass, owner now), absent when equal |
| `OwnerRedaction.OwnerFieldsFollowTheOwner` | golem/loop.go:536-558 | over whole runs that reuse no id with a pending refresh: the refresh is always coalesced, and after every pass a session that knows an owner-scoped entity holds its owner-only fields if and only if it is the owner |
| `OwnerRedaction.ReuseIsPossible` | golem/registry/registry.go:130-138 | transfer, deletion and re-registration of one id is a run of the code |
| `OwnerRedaction.ReuseLeaks` | golem/owner_replication.go:206-261 | after it, every pass that serves the stale new owner hands it fields it does not own |
| `OwnerReplication.WrappedFull` | golem/owner_replication.go:164-200 | whatever is cached, the authoritative variant for the owner and the public one for everyone else |
| `OwnerReplication.StreamDelta` | golem/owner_replication.go:111-160 | the same for deltas, nothing when no public bit changed or the entity has nothing to say about those, a public full update when it has no deltas |
| `OwnerReplication.SendEntered` | golem/loop.go:1634-1646 | of each entered entity exactly its full state in the right variant is sent, and nothing is pending any more |
| `OwnerReplication.SendStayed` | golem/loop.go:1648-1681 | of each stayed entity exactly its delta and its respawn are sent in the right variant; for a datagram session every changed bit it may see is in a collected change and nothing else is, one change an entity, in order |
| `OwnerReplication.CollectChange` | golem/loop.go:1650-1663 | the change adapted to the session is appended, with its prepared frame unless something owner-scoped was flushed |
| `OwnerReplication.SendExited` | golem/loop.go:1682-1710 | of each exited entity exactly a removal is sent, and nothing is pending any more |
| `OwnerReplication.AppendRefresh` | golem/owner_replication.go:206-261 | to the stayed owner-scoped entities that a refresh concerns exactly the public state for who is cleared and the whole state for who is granted is sent, in any order of the pending map, each superseding what is pending |
| `OwnerReplication.SendSessionEventual` | golem/loop.go:1756-1778 | in every branch what goes out is that branch's plan, complete when nothing fails, and the queue is tidied up after pending changes; what is sent or left pending was pending or was offered, with its flavour |
| `FilteredPass.ServeSession` | golem/loop.go:1610-1747 | one session's turn sends of each entity exactly the frames it should, collects every bit that is due, and sends the datagrams unless the session was lost over the stream batch; it does what the redaction step of the run model says |
| `FilteredPass.Replicator.SetOwner` | golem/loop.go:536-558 | owner and coalesced refresh change together, errors and no-ops included |
| `FilteredPass.Replicator.CreateEntity` | golem/registry/registry.go:67-91 | registers an unknown id with its owner, and remembers the spawn for the next pass |
| `FilteredPass.Replicator.DeleteEntity` | golem/registry/registry.go:130-146 | drops entity and owner but not a pending refresh, and remembers the removal |
| `FilteredPass.Replicator.ClearRemoved` | golem/eventual_state.go:383-392 | every tracker forgets exactly the removed entities |
| `FilteredPass.Replicator.QueueOwnershipRefresh` | golem/owner_replication.go:43-60 | first old owner and last new owner, dropped when they meet |
| `FilteredPass.Replicator.SnapshotOwnershipRefresh` | golem/owner_replication.go:64-71 | hands over the pending refreshes and empties the queue |
| `FilteredPass.Replicator.RunFilteredPass` | golem/loop.go:1536-1747 | every listed session that is connected has its turn and knows exactly the live entities it is allowed, unless it was lost over its stream batch; lost and disconnected ones are forgotten, others left alone; all turns together are a pass step of the run model; it fails before anything is sent if and only if a change to be prepared for everybody does not serialise |
| `FilteredPass.PrepareFrames` | golem/loop.go:1552-1600 | frames are prepared for all flushed changes if a listed session takes datagrams and nothing owner-scoped was flushed |
| `FilteredPass.ExpectedTells` | golem/loop.go:1628-1715 | the frames an entity should be sent tell the client of its owner-only fields exactly what the redaction step says |
| `OwnerReplication.CollectedExactly` | golem/loop.go:1648-1663 | what is collected holds every changed bit the session may see of the stayed entities, and nothing else |
| `PassRuns.VisitIsHistory` | golem/loop.go:1619-1747 | a turn of the pass is a stretch of a history of the session that ends with its send and its tracker |
| `PassRuns.EveryChangeGoesOut` | golem/loop.go:1756-1778 | after a send without failure each bit of each change is in a datagram or on the stream, or there was nothing to send of it |
| `PassRuns.DueGoesOut` | golem/loop.go:1648-1747 | after a turn without failure every changed bit of a stayed entity that the session may see went out so |
| `TaskPipeline.PipelineIsSafe` | golem/tasks.go:159-303 | in every interleaving: completions executed <= tasks finished <= tasks accepted; completions and posts run in queue order, once; accepted posts = executed + queued + discarded + at most one in hand |
| `TaskPipeline.NothingIsAcceptedOnceStopping` | golem/tasks.go:421-427 | once stopping, always stopping, and no task or post is accepted any more |
| `TaskPipeline.NothingRunsOnceStopped` | golem/tasks.go:432-451 | no callback runs after the server has stopped |
| `TaskPipeline.GateWaiterHasSubmitter` | golem/tasks.go:232-259 | a worker at a closed start gate has its submitter holding the lock, able to go on, and the server not stopping |
| `TaskPipeline.ShutdownIsNotStuck` | golem/tasks.go:432-446 | once cancelled, every task still in the pool has a step to take |
| `TaskPipeline.PoolComesToRest` | golem/tasks.go:432-446 | from every cancelled state the pool can be run down and then stops |
| `TaskDrain.Callbacks.Drain` | golem/tasks.go:312-393 | exactly min(budget, queued at the start) callbacks run, or fewer if the server begins to stop, and then none after the one during which it does; each queue in order, none queued during the drain; the preference alternates and persists |
| `TaskDrain.Callbacks.TakeTurn` | golem/tasks.go:338-380 | the preferred kind if it is eligible, otherwise the other, and the preference changes hands |
| `TaskDrain.FairAcrossTicks` | golem/tasks.go:312-393 | of two consecutive callbacks, also across ticks, at which a kind was eligible both times, one is of that kind |
| `SegmentCast.InSlabWhen` | golem/collision/castmath.go:59-68 | a moving point is in a slab exactly between the two crossing times |
| `SegmentCast.NarrowAxis` | golem/collision/castmath.go:46-81 | one axis narrows the fractions to exactly those inside all slabs so far, or finds none |
| `SegmentCast.SegmentVsAABB` | golem/collision/castmath.go:40-99 | a hit if and only if some point of the segment lies in the box, at the least such fraction, with the normal of the face entered there |
| `SegmentCast.NormalOpposesMotion` | golem/collision/castmath.go:61-78 | the normal is a unit axis vector, against the motion if and only if the segment does not move down through a flat box |
| `SegmentCast.FlatBoxNormal` | golem/collision/castmath.go:61-68 | a segment moving down through a flat box gets the normal along its motion |

## Left out

- SegmentCast.SegmentVsAABB: half-extents below zero, which no box has, are excluded.
- FilteredPass.Replicator.RunFilteredPass: errors of full-state and removal serialisation, and an error other than a lost session in the middle of the turns, which abort the pass, are not modelled; callbacks between preparation and turns do not change the registry; each turn's tokens start at an arbitrary number.
- SendRefinement.SendIsRun: a send that fails while nothing was pending belongs to a session that is gone, or stops the server; see FailedFreshSendKeepsNothing. In SessionRuns any failed send ends the history.
- SessionRuns.ClientCatchesUp: a session whose view no longer agrees with ownership (the reused-id case of OwnerRedaction.ReuseLeaks) is not sent to in these histories; stream frames count as taken when sent unless the client refuses them; entities answer nil only for an empty mask, as generated ones do.
- ClientRevisions.NewestExactly: removals, after which the client keeps the last revision, are not among the updates.
- OwnerRedaction.OwnerFieldsFollowTheOwner: a session connecting while a pending refresh names it, interest-mode passes and late datagrams overtaken by a newer stream frame (which the client's revision check rejects) are outside the runs considered.
- BroadcastKnown.Broadcaster.RunBroadcastTick: user callbacks that change the registry in the middle of a tick are not modelled.
- TaskDrain.Callbacks.TakeTurn: the branches for a queue that shrank during the drain are left out, since only the tick takes from it.
- InterestManager.Manager.ComputeDiffsFiltered: the brute-force claim needs radius and margin that are not negative; the generation counter does not wrap.
- InterestGrid.Grid.Insert: grids whose cell size is not positive are excluded.
- InterestGrid.Grid.Query: for a negative radius it promises no false hit, not completeness.
- Protocol.DatagramProtocol.NextWakeTime: more than 256 eventual packets in flight is a stall the wake time does not announce.
- Sharing of message objects between slice slots after a stalled prune, and the session's reaction to errors (it closes).
- Pond's own scheduling, the cancellation and panic counters, and the live gauges.
- The Go client's ordered receiver, which starts at whichever number arrives first.
- Circle, sphere and rounded-rectangle casts, collision back ends, 3D.
- Code generation, configuration loading, transports, TLS, HTTP, user interface code, JS 64-bit integer paths.
- Wall-clock time, logging, statistics and floating-point rounding.
