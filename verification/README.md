# Drone configurator core: model and proofs

This project models the pure TypeScript core of a drone configurator that speaks the MultiWii Serial
Protocol (MSP), and proves what that core promises. Verify it with `dafny verify dfyconfig.toml`.

| part | files | what it is |
|---|---|---|
| codec | `MspTypes`, `MspChecksum`, `MspChecksumBits`, `MspWireGrammar`, `MspWireLayout`, `MspStream`, `MspStreamParser`, `MspEncoder`, `MspParserVerdicts` | the frame grammar of the three wire formats, a reading function over it, and the eleven-phase parser class and the encoder proved against them |
| request engine | `MspClientModel`, `MspClientInvariants`, `MspClientRuns`, `MspClientHistory`, `MspClientTheorems`, `MspClientOrder`, `MspClientStop`, `MspClientLease`, `MspClientKeeping`, `MspClientDesync`, `MspClientThrows`, `MspClientBehaviour`, `MspClientProgress`, `MspClient`, `MspSession`, `MotorTestLease` | one request at a time, a FIFO, a one-slot emergency stop, an exclusive lease, desynchronization and recovery; the class keeps the fields of the original |
| telemetry | `MspTelemetryModel`, `MspTelemetryProofs`, `MspTelemetryBehaviour`, `MspTelemetryFairness`, `MspTelemetryWaiting`, `MspTelemetryScheduler`, `MspOperationModel`, `MspOperationBehaviour`, `MspOperationCoordinator` | overdue-ratio polling, pause leases, and the exclusive-operation coordinator on top |
| motor test | `MotorTestStateMachine`, `MotorTestStateMachineBehaviour`, `MotorTestControllerModel`, `MotorTestControllerTheorems`, `MotorTestControllerBehaviour`, `MotorTestController`, `MotorTestStopAttribution`, `MotorTestJoint`, `MotorTestJointRuns`, `ArmingRestrictionModel`, `ArmingRestrictionBehaviour`, `MotorArmingRestriction` | the pure reducer, the pulse/stop/teardown part of the controller, controller and client together, and the once-per-session arming restriction |
| platform | `Base64` | the Base64 codec with its 32-bit accumulator |

Conventions shared by all parts:

* An imperative part of the original is a class. Its fields are those of the original, its `View()` is one
  value, and each public method ensures that the new view is a named function of the old one. The promises
  are then lemmas about that function and about every run of it.
* What those named functions do is stated a second time without them, on the state before and after an event:
  which fields move, to what, under which condition, as an equivalence where there is a choice. The modules whose
  names end in `Behaviour`, and `MspWireLayout`, `MspParserVerdicts`, `MspClientDesync`, `MspClientThrows` and
  `MspClientKeeping`, hold these statements.
* An asynchronous function is split at its awaits, one method and one event for each piece. Promise
  reactions run at the end of the event that caused them, before the next event.
* An object whose identity matters (a request, a token, a poll registration, a pulse attempt, an authority)
  is a number that is never used twice.
* Whatever another party answers (a transport, a flight controller, an identity provider, a clock) is a
  parameter of the event, so a statement about all runs is a statement about all such answers.

## What the proofs found

* **v2-over-v1 and an overridden cap.** The encoder computes the outer v1 size as payload length + 6 without
  a check of its own. A request that is accepted under a raised cap with payload length + 6 over 65535 is
  written with a wrapped outer size and no parser reads it back; `EncodedReadsBackIff` gives the exact
  condition and `WrappedEnvelopeIsAbandoned` the failing family. With the default cap it cannot happen.
* **Chunking and a zero partial-frame timeout.** Splitting a chunk is invisible exactly when the timeout is
  positive or no attempt is held at the cut; `ZeroTimeoutSeesChunks` is the concrete difference.
* **One pulse per controller.** `src/core/state/motorTestController.ts` never reports `STOP_ACKNOWLEDGED` to
  its reducer, so its machine never returns to Ready after a pulse and at most one pulse is accepted in the
  life of a controller (`AtMostOnePulse`), although comments there speak of later pulses.
* **A seal that replays an acknowledgement.** When a second stop ends in an unexpected exception after a
  first one was acknowledged, the stop is sealed but the recorded outcome is still the acknowledgement. A
  later teardown replays it, takes the session for stopped and releases the telemetry tokens
  (`SealedByExceptionStillResumes`). `SealedReleasesExactlyWhen` gives the exact condition for a sealed session
  and `TokensReleasedExactlyWhen` for every one, both over the state before the closing step. The exception is
  an assumed event, not one the modelled client produces: listener calls are guarded
  (`src/core/state/motorTestController.ts:1575-1585`, `src/core/protocol/mspClient.ts:665-675`), the stop's frame
  is awaited inside a `try`, and the branch at `src/core/state/motorTestController.ts:2834-2843` is commented as
  reachable only on an unexpected throw. So it takes a collaborator that breaks its contract, such as a lease
  whose `isActive()` or `emergencyStop()` throws; on the modelled client no joint run of the two releases the tokens of
  a sealed session (`TelemetryResumesBehindAnAnswer`).
* **Machine after a plain close.** `close()` ends a live pulse without telling the reducer, so a cleanly
  closed controller can stay in Pulsing: `ClosedWhilePulsing` is such a run and `PulsingAtCloseExactlyWhen` says
  exactly when a closing controller ends there.

## Model

| member | source | states |
|---|---|---|
| MspChecksum.StepsInjective | src/core/protocol/mspChecksum.ts:13-57 | both checksum steps are injective in the running value and in the byte |
| MspChecksum.SingleByteChangeDetected | src/core/protocol/mspChecksum.ts:17-65 | changing exactly one byte of a message of any length changes the XOR and the CRC8-DVB-S2 checksum |
| MspChecksum.Crc8DvbS2Step | src/core/protocol/mspChecksum.ts:51-57 | the bit loop computes eight shifts with the polynomial 0xD5 |
| MspChecksum.XorChecksum | src/core/protocol/mspChecksum.ts:17-23 | the byte loop computes the fold of the XOR step |
| MspChecksum.Crc8DvbS2 | src/core/protocol/mspChecksum.ts:59-65 | the byte loop computes the fold of the CRC step (section 5.1.4 of ETSI EN 302 307) |
| MspChecksumBits.ChecksumsByBits | src/core/protocol/mspChecksum.ts:17-65 | for every message, bit by bit: the XOR checksum is the parity of each bit, and the CRC is what the shift register with taps 7, 6, 4, 2 and 0 is left with |
| MspChecksumBits.CrcCheckValue | src/core/protocol/mspChecksum.ts:51-65 | the catalogue check value: the digits 1 to 9 give 0xbc |
| MspWireGrammar.CompleteIsRendered | src/core/protocol/mspStreamParser.ts:258-528 | a word the parser accepts is exactly the rendering of the reported frame, in one of its two size forms |
| MspWireGrammar.RenderedIsComplete | src/core/protocol/mspStreamParser.ts:258-528 | every rendering of a carriable frame is accepted, no proper prefix of it is, and it is read back as that frame |
| MspWireGrammar.RenderIsInjective | src/core/protocol/mspStreamParser.ts:258-528 | no two frames share a rendering |
| MspWireLayout.V1Layout | src/core/protocol/mspEncoder.ts:79-95 | the bytes of every v1 word, by position: magic, direction, size or the marker 255 with the true size low byte first, command, payload and the XOR of all after the direction |
| MspWireLayout.V2Layout | src/core/protocol/mspEncoder.ts:97-107 | the bytes of every v2 word, by position: flags, command and size with the low byte first, payload, and the CRC over these |
| MspWireLayout.EnvelopeFields | src/core/protocol/mspEncoder.ts:109-124 | the bytes of every envelope, by position: outer size and command 255, the v2 fields, payload, inner CRC and outer XOR |
| MspWireLayout.V2Word | src/core/protocol/mspEncoder.ts:97-107 | command 100 without payload as v2 is 24 58 3c 00 64 00 00 00 8f |
| MspWireLayout.V1Word | src/core/protocol/mspEncoder.ts:79-95 | command 100 without payload as v1 is 24 4d 3c 00 64 64 |
| MspParserVerdicts.LeadingBytes | src/core/protocol/mspStreamParser.ts:362-391 | which second and third bytes go on, and that any other is looked at again |
| MspParserVerdicts.V1SizeVerdict | src/core/protocol/mspStreamParser.ts:258-300 | a v1 size over the cap ends the attempt with its last byte, reported with what was declared |
| MspParserVerdicts.EnvelopeSizeVerdict | src/core/protocol/mspStreamParser.ts:258-300 | so does an envelope under 6 bytes or over the cap plus 6 |
| MspParserVerdicts.V2HeaderVerdict | src/core/protocol/mspStreamParser.ts:302-331 | a complete native v2 header fails exactly on a size over the cap |
| MspParserVerdicts.InnerHeaderVerdict | src/core/protocol/mspStreamParser.ts:302-331 | inside an envelope it fails exactly on a size over the cap, or else one that is not that of the envelope |
| MspParserVerdicts.GivenBackExactly | src/core/protocol/mspStreamParser.ts:349-528 | a byte is looked at again exactly if it is no magic, no direction or not the checksum that was due |
| MspParserVerdicts.DollarIsNeverLost | src/core/protocol/mspStreamParser.ts:349-528 | a '$' that ends an attempt without belonging to it starts the next one at once |
| MspParserVerdicts.V1ChecksumVerdict | src/core/protocol/mspStreamParser.ts:428-448 | a v1 word with the wrong last byte is reported with the checksum that was due and the one that came, which is looked at again |
| MspStream.FeedIsSound | src/core/protocol/mspStreamParser.ts:349-528 | one byte reports only true segments and loses no byte |
| MspStream.IngestIsSound | src/core/protocol/mspStreamParser.ts:541-566 | over any chunk with any timeout, every frame reported is backed by exactly the contiguous bytes that render it, and bytes are conserved |
| MspStream.AttemptIsBounded | src/core/protocol/mspStreamParser.ts:258-347 | no attempt holds more than the payload cap plus 14 bytes |
| MspStream.SessionAccountsForEveryByte | src/core/protocol/mspStreamParser.ts:349-566 | over any session each byte belongs to exactly one frame, abandoned attempt or noise run, or is still held |
| MspStream.ChunkingIsInvisibleIff | src/core/protocol/mspStreamParser.ts:530-566 | two chunks at one clock reading act like their concatenation exactly when no held attempt expires at the cut |
| MspStream.ChunkingIndependence | src/core/protocol/mspStreamParser.ts:530-566 | with a positive timeout, splitting a chunk changes neither events nor state, from any starting state |
| MspStream.ZeroTimeoutSeesChunks | src/core/protocol/mspStreamParser.ts:530-539 | with a zero timeout it does, on a concrete input |
| MspParserVerdicts.DroppedExactlyWhen | src/core/protocol/mspStreamParser.ts:530-566 | a held attempt is dropped, and reported once with the time elapsed, exactly by a chunk that comes no earlier than its '$' plus the timeout |
| MspParserVerdicts.AttemptStartsAtItsDollar | src/core/protocol/mspStreamParser.ts:349-361 | the clock of an attempt is the reading at its '$' and no later byte moves it |
| MspStream.StreamRoundTrip | src/core/protocol/mspStreamParser.ts:349-528 | any list of carriable frames in all formats and size forms, separated by any noise without '$', is reported as exactly those frames, each behind one resync of its noise length |
| MspStream.AlteredPayloadYieldsNoFrame | src/core/protocol/mspStreamParser.ts:428-528 | a rendered frame with one payload byte altered never yields a frame |
| MspStreamParser.MspStreamParser.constructor | src/core/protocol/mspStreamParser.ts:229-234 | a fresh parser holds nothing |
| MspStreamParser.MspStreamParser.FinishV1Header | src/core/protocol/mspStreamParser.ts:258-300 | a complete v1 size field opens a payload or an envelope, or ends the attempt, as the grammar's verdict on it says |
| MspStreamParser.MspStreamParser.FinishV2Header | src/core/protocol/mspStreamParser.ts:302-331 | the same for a v2 header, with the envelope's declared size |
| MspStreamParser.MspStreamParser.CompleteFrame | src/core/protocol/mspStreamParser.ts:333-347 | the frame reported is built from the phase fields and the filled buffer |
| MspStreamParser.MspStreamParser.V1PayloadPass | src/core/protocol/mspStreamParser.ts:428-435 | the payload is filled in place, and the pass is one reading step |
| MspStreamParser.MspStreamParser.V2CrcPass | src/core/protocol/mspStreamParser.ts:477-504 | the inner checksum decides: on a match the frame is complete or, in an envelope, the outer checksum byte is awaited; on a mismatch the attempt ends and the byte is looked at again |
| MspStreamParser.MspStreamParser.ProcessByte | src/core/protocol/mspStreamParser.ts:349-528 | the reprocess loop with its eleven phases is one step of the reading function; it looks at a byte at most twice, and twice only if the byte ended an attempt without belonging to it |
| MspStreamParser.MspStreamParser.MaybeEmitPartialFrameTimeout | src/core/protocol/mspStreamParser.ts:530-539 | an expired attempt is reported once and dropped |
| MspStreamParser.MspStreamParser.IngestChunk | src/core/protocol/mspStreamParser.ts:541-566 | events and held state are those of the reading function on the chunk |
| MspStreamParser.MspStreamParser.Reset | src/core/protocol/mspStreamParser.ts:569-571 | everything held is forgotten |
| MspEncoder.ConcatBytes | src/core/protocol/mspEncoder.ts:44-54 | the buffer loops concatenate the chunks in order |
| MspEncoder.EncodeV1Native | src/core/protocol/mspEncoder.ts:79-95 | the bytes are the grammar's rendering with the minimal size form |
| MspEncoder.EncodeV2Native | src/core/protocol/mspEncoder.ts:97-107 | the same for v2 |
| MspEncoder.EncodeV2OverV1 | src/core/protocol/mspEncoder.ts:109-124 | the same for the v2-over-v1 envelope with its two checksums |
| MspEncoder.Encode | src/core/protocol/mspEncoder.ts:126-153 | refuses with the first failed check, else renders the request frame |
| MspParserVerdicts.AcceptedExactlyWhen | src/core/protocol/mspEncoder.ts:126-153 | a request is accepted exactly if flags, sizes and command are in range, and the first check anything else fails names the refusal |
| MspParserVerdicts.WrittenAsAsked | src/core/protocol/mspEncoder.ts:79-153 | the frame written carries command, flags and payload as asked, with the jumbo size field exactly from 255 bytes on, or 249 in an envelope |
| MspEncoder.WrappedEnvelopeIsAbandoned | src/core/protocol/mspEncoder.ts:109-124 | an envelope too long for its size field is reported as a diagnostic first, and nothing in its bytes is ever read as the frame that was meant |
| MspEncoder.EncodedReadsBackIff | src/core/protocol/mspEncoder.ts:79-153 | an accepted request reads back as exactly its frame if and only if it is no envelope or payload length + 6 is at most 65535 |
| MspEncoder.DefaultCapReadsBack | src/core/protocol/mspEncoder.ts:126-153 | under the default cap every accepted request reads back |
| MspClientInvariants.InitialInv | src/core/protocol/mspClient.ts:581-604 | a fresh client satisfies the invariant |
| MspClientRuns.StepKeepsInv | src/core/protocol/mspClient.ts:722-1763 | every external event keeps places, write log, callbacks, lease, probe, stop slot and rest state consistent, and moves state and epoch only as recovery allows |
| MspClientRuns.RunKeepsInv | src/core/protocol/mspClient.ts:722-1763 | so does every run |
| MspClientHistory.RunGrew | src/core/protocol/mspClient.ts:166-195 | over any run, from any consistent state, outcomes are final, the write log only grows, ids and latches only accumulate, and a token let go stays retired or invalidated |
| MspClientTheorems.EveryRequestIsSomewhereOnce | src/core/protocol/mspClient.ts:808-842 | in every reachable state each submitted request is in exactly one of queue, active slot, stop slot or settled; a settlement never changes |
| MspClientTheorems.WrittenAtMostOnce | src/core/protocol/mspClient.ts:1302-1409 | no request is written twice; one rejected as unsent never was and never will be written; one that resolved was written |
| MspClientOrder.WritesFollowSubmissions | src/core/protocol/mspClient.ts:808-842 | first submitted, first written: over any run the ids in the write log strictly increase, stops and probes included, and each write is the encoding of the very request its id was given out for, a record no later event changes |
| MspClientOrder.SubmittedLine | src/core/protocol/mspClient.ts:1302-1409 | in every reachable state everything written stands before the waiting stop and that before the queue, in the order of submission, and the active request carries the command it was submitted with |
| MspClientOrder.ResolvedByItsAnswer | src/core/protocol/mspClient.ts:1508-1557 | over any run a request is resolved by nothing but a frame of the command and protocol it was submitted with that is no request itself |
| MspClientTheorems.NothingHangs | src/core/protocol/mspClient.ts:1302-1594 | an unsettled request waits behind an active one whose write is running or whose timer is armed |
| MspClientTheorems.LeaseIsExclusive | src/core/protocol/mspClient.ts:887-901 | while a token is held the client is READY and undisposed under the acquisition epoch, unlatched, and all open work was admitted with that token |
| MspClientTheorems.HeldWritesAreOwned | src/core/protocol/mspClient.ts:929-964 | each write made under a lease was admitted with that token |
| MspClientTheorems.DeadTokenStaysDead | src/core/protocol/mspClient.ts:1187-1271 | a token released or killed is never held again |
| MspClientTheorems.LatchedEpochIsNeverLeased | src/core/protocol/mspClient.ts:1265-1271 | no lease is ever held under a fault-latched epoch |
| MspClientTheorems.EpochCountsDesyncs | src/core/protocol/mspClient.ts:1560-1594 | the epoch is the number of desyncs, each from READY; nothing else raises it |
| MspClientDesync.TimeoutDesynchronizes | src/core/protocol/mspClient.ts:1476-1594 | the timeout of a request rejects it as timed out, everything queued as recovering and a waiting stop as aborted, latches the epoch of a held lease and kills it, raises the epoch by one, writes nothing, and ends in RESTARTING_READER, or in RECOVERY_FAILED exactly if the restart call throws |
| MspClientDesync.LostWriteDesynchronizes | src/core/protocol/mspClient.ts:1411-1474 | so does a write that fails with an unknown outcome, with that code for its request |
| MspClientThrows.ThrownWriteDesynchronizes | src/core/protocol/mspClient.ts:1365-1395 | so does, in whatever event, a write the transport throws on: outcome unknown, next epoch, recovery begun, nothing left open, no lease |
| MspClientThrows.ThrownWritesAreUnknown | src/core/protocol/mspClient.ts:1365-1395 | over every run, each write on record that was thrown on is settled, a request as unknown and a probe as failed |
| MspClientDesync.EpochRisesExactlyWhen | src/core/protocol/mspClient.ts:1476-1594 | over all events, the epoch rises exactly on these three causes, and then by one |
| MspClientDesync.RisenLeavesNothingOpen | src/core/protocol/mspClient.ts:1560-1594 | whenever it rises, recovery has begun, nothing is open, no timer is armed and no lease is held |
| MspClientTheorems.RecoveryFailedIsTerminal | src/core/protocol/mspClient.ts:1608-1701 | RECOVERY_FAILED leads only to DISCONNECTED, under the same epoch |
| MspClientTheorems.DisconnectedIsSilent | src/core/protocol/mspClient.ts:1729-1763 | once DISCONNECTED no late callback writes, changes state or epoch, or holds a lease |
| MspClientStop.StopComesFirst | src/core/protocol/mspClient.ts:998-1127 | after an accepted stop, over any run, the client has written nothing, or the stop first, or the stop is rejected and was never written |
| MspClientStop.AcceptedStopPurges | src/core/protocol/mspClient.ts:1037-1044 | every queued request is rejected as displaced and never written |
| MspClientStop.RepeatedStopsJoin | src/core/protocol/mspClient.ts:1012-1022 | until the stop settles a further trigger changes nothing at all |
| MspClientBehaviour.StopIsNotTaken | src/core/protocol/mspClient.ts:998-1022 | a foreign token is refused and writes nothing; a stop already registered is joined and changes nothing |
| MspClientBehaviour.StopIsWrittenAtOnce | src/core/protocol/mspClient.ts:1080-1127 | with nothing open the stop is written within the call, neither ambiguous nor deferred |
| MspClientBehaviour.StopDisplacesTheWait | src/core/protocol/mspClient.ts:1046-1127 | a request that waits for its answer is rejected as displaced in flight and the stop written within the call, ambiguous exactly if command and protocol are the same |
| MspClientBehaviour.StopWaitsForTheWrite | src/core/protocol/mspClient.ts:1070-1127 | a request whose write is running is only marked; the stop waits, deferred |
| MspClientBehaviour.DisplacedWriteGivesWay | src/core/protocol/mspClient.ts:1411-1474 | when that write succeeds its request is rejected as displaced and the stop written, and nothing else moves |
| MspClientLease.FailureKillsTheLease | src/core/protocol/mspClient.ts:929-964 | any rejection of a request of the held lease, except displacement by its own stop, leaves no lease and latches its epoch unless the session is over |
| MspClientKeeping.LeaseIsLostExactlyWhen | src/core/protocol/mspClient.ts:929-1271 | over all events, a held lease is lost exactly if it is released with no work open, failed closed by its holder, the session ends, or one of its requests is rejected in this event for any reason but displacement; otherwise token, epoch and latches stay as they are |
| MspClientKeeping.AnsweredStopKeepsTheLease | src/core/protocol/mspClient.ts:1098-1110 | an answered stop is resolved and its registration cleared, and nothing else moves: the token stays held and its epoch unlatched |
| MspClientBehaviour.LeaseIsGrantedExactlyWhen | src/core/protocol/mspClient.ts:868-901 | granted exactly while nobody holds one, the epoch is not latched and the client is READY with nothing open; else nothing moves |
| MspClientBehaviour.LeaseIsReleasedExactlyWhen | src/core/protocol/mspClient.ts:1187-1214 | given back exactly by its holder with none of its work open; the other verdicts by their conditions |
| MspClientBehaviour.LeaseIsFailedByItsHolder | src/core/protocol/mspClient.ts:1231-1271 | the live token alone kills its lease and latches its epoch, and touches no open work |
| MspClientProgress.AnswerIsProgress | src/core/protocol/mspClient.ts:1411-1557 | each callback the platform owes strictly reduces a measure of the work left |
| MspClientProgress.AnswersSettleEverything | src/core/protocol/mspClient.ts:1302-1594 | a run of owed callbacks is no longer than the work there was, and when none is owed any more every request is settled |
| MspClientBehaviour.RequestIsTurnedAway | src/core/protocol/mspClient.ts:794-842 | a request is refused while a lease is held, else by state, else by a full queue, each with its code and no other trace |
| MspClientBehaviour.LeaseRequestIsTurnedAway | src/core/protocol/mspClient.ts:929-964 | a token that is not the live one is refused; with the live one only a full queue refuses |
| MspClientBehaviour.AdmittedWaits | src/core/protocol/mspClient.ts:808-842 | behind an open request an admitted one goes to the end of the queue, and nothing else moves |
| MspClientBehaviour.AdmittedIsWritten | src/core/protocol/mspClient.ts:1302-1409 | with nothing open it is written within the call |
| MspClientBehaviour.WriteIsTaken | src/core/protocol/mspClient.ts:1411-1474 | a write that succeeds arms the timer of its request and nothing else |
| MspClientBehaviour.LateWriteIsForgotten | src/core/protocol/mspClient.ts:1411-1474 | a write of a request that is no longer active settles without effect, however it ends |
| MspClientBehaviour.RefusedWriteFailsAlone | src/core/protocol/mspClient.ts:1411-1474 | a write refused as closed or as full rejects its request with that code and desynchronizes nothing |
| MspClientBehaviour.ForeignFrameIsIgnored | src/core/protocol/mspClient.ts:1508-1520 | a frame of another command or protocol, a request frame, or one nobody waits for changes nothing |
| MspClientBehaviour.OwnFrameSettles | src/core/protocol/mspClient.ts:1508-1558 | the awaited frame resolves the active request, or rejects it as a remote error, and desynchronizes nothing |
| MspClientBehaviour.RecoveryProbes | src/core/protocol/mspClient.ts:1608-1701 | once the reader is back the probe is written, as 24 4d 3c 00 01 01, and nothing else moves |
| MspClientBehaviour.RecoveryFails | src/core/protocol/mspClient.ts:1608-1701 | a failed restart, or a probe the transport throws on, ends in RECOVERY_FAILED under the same epoch |
| MspClientBehaviour.StaleRecoveryIsForgotten | src/core/protocol/mspClient.ts:1608-1635 | the restart of an earlier epoch, or of a session that is over, has no effect |
| MspClientBehaviour.AnsweredProbeIsReady | src/core/protocol/mspClient.ts:1508-1558 | any answer to the probe, an error frame included, leads back to READY |
| MspClientBehaviour.UnansweredProbeFails | src/core/protocol/mspClient.ts:1476-1486 | a probe that times out or whose write fails ends in RECOVERY_FAILED without another desync |
| MspClientBehaviour.DetachEndsTheSession | src/core/protocol/mspClient.ts:1733-1763 | a detach settles everything open as detached, a waiting stop as aborted, ends the lease and writes nothing |
| MspClientBehaviour.DisposeEndsTheSession | src/core/protocol/mspClient.ts:722-772 | disposal does so with the session closed; after a detach it changes nothing but the flag |
| MspClientClass.MspClient.Settle | src/core/protocol/mspClient.ts:166-195 | the first settlement wins and is told so; a later one changes nothing |
| MspClientClass.MspClient.RejectQueue | src/core/protocol/mspClient.ts:1575-1585 | the queue is emptied oldest first, each request rejected once |
| MspClientClass.MspClient.Pump | src/core/protocol/mspClient.ts:1302-1323 | the stop slot is drained ahead of the queue, only when READY and nothing is active; the recursion ends |
| MspClientClass.MspClient.StartRequest | src/core/protocol/mspClient.ts:1325-1409 | encode failure, thrown write and running write lead to the three states of the model |
| MspClientClass.MspClient.TriggerDesyncLatch | src/core/protocol/mspClient.ts:1560-1594 | the lease is faulted before the epoch moves, the stop aborted, the queue rejected, recovery begun |
| MspClientClass.MspClient.Request | src/core/protocol/mspClient.ts:794-842 | one step of the model, refused while a lease is held |
| MspClientClass.MspClient.RequestWithMotorTestLease | src/core/protocol/mspClient.ts:929-964 | one step of the model, admitted only with the live token |
| MspClientClass.MspClient.EmergencyStopWithMotorTestLease | src/core/protocol/mspClient.ts:998-1127 | one step of the model; the dispatch says whether it joined, was deferred, or is ambiguous |
| MspClientClass.MspClient.OnWriteSettled | src/core/protocol/mspClient.ts:1411-1474 | one step of the model for either way a write settles |
| MspClientClass.MspClient.OnResponseTimeout | src/core/protocol/mspClient.ts:1476-1495 | one step of the model |
| MspClientClass.MspClient.HandleFrame | src/core/protocol/mspClient.ts:1508-1558 | a frame settles the active request or nobody |
| MspClientClass.MspClient.HandleFrames | src/core/protocol/mspClient.ts:1497-1506 | the frames of one chunk, in order, are one step |
| MspClientClass.MspClient.OnRestartSettled | src/core/protocol/mspClient.ts:1608-1635 | only the current recovery sends its probe or fails |
| MspClientClass.MspClient.HandlePhysicalDetach | src/core/protocol/mspClient.ts:1733-1763 | one step of the model |
| MspClientClass.MspClient.Dispose | src/core/protocol/mspClient.ts:722-772 | one step of the model; the second call changes nothing |
| MspClientClass.MspClient.TryAcquireMotorTestLease | src/core/protocol/mspClient.ts:887-901 | the verdict and the new state, in the order of the checks |
| MspClientClass.MspClient.ReleaseMotorTestLease | src/core/protocol/mspClient.ts:1187-1214 | the verdict and the new state; unsettled work keeps the lease |
| MspClientClass.MspClient.FaultMotorTestLeaseByToken | src/core/protocol/mspClient.ts:1231-1237 | only the live token faults its lease |
| MotorTestLease.AcquireMotorTestLease | src/core/protocol/motorTestLease.ts:432-467 | acquired exactly under the current identity, the client's own epoch and a free, idle, unfaulted client; a refusal changes nothing and names the first condition that fails |
| MspSession.HandleBytes | src/core/protocol/mspClient.ts:1497-1506 | parser and client together take a received chunk in one step |
| MspSession.ResponseSettlesItsRequest | src/core/protocol/mspClient.ts:1497-1558 | in every reachable state, when a parser that holds no open attempt gets in one chunk the bytes of a matching frame behind any noise, the active request is settled with exactly that frame, or as a remote error if it is one; what the pump that follows settles of the queue is left open |
| MspSession.EveryWriteReadsBack | src/core/protocol/mspClient.ts:1325-1334 | everything a client ever writes is read back by a default parser as one frame: that of the request its id was submitted for |
| MspTelemetryProofs.StepKeepsSound | src/core/protocol/telemetry/MspTelemetryScheduler.ts:293-492 | every event keeps the in-flight count exact, at most one flight in singleFlight mode, ids distinct and cached values true |
| MspTelemetryProofs.RefreshedIsLiveIff | src/core/protocol/telemetry/MspTelemetryScheduler.ts:333-341 | a tick makes a cached value equal to the live computation exactly unless it was stale and the clock ran back |
| MspTelemetryProofs.SelectionIsTheBest | src/core/protocol/telemetry/MspTelemetryScheduler.ts:359-397 | a tick selects exactly the candidate of highest overdue ratio, then priority, then earliest registration, and none exactly when blocked or without candidate |
| MspTelemetryProofs.TickEffect | src/core/protocol/telemetry/MspTelemetryScheduler.ts:343-400 | after a tick every registered value is the live one, and only the selected poll is started, with its deadline moved from the dispatch time |
| MspTelemetryBehaviour.TickStarts | src/core/protocol/telemetry/MspTelemetryScheduler.ts:359-397 | with every condition written out: a tick with no pause lease and a free slot starts the overdue registered poll no other beats in ratio, then priority, then order, among the primaries only if the last dispatch was auxiliary and a primary is overdue; otherwise none |
| MspTelemetryBehaviour.TickMoves | src/core/protocol/telemetry/MspTelemetryScheduler.ts:343-400 | the started poll is in flight and next due one interval after the tick; no other poll moves but for its displayed value |
| MspTelemetryBehaviour.ValuesOverTime | src/core/protocol/telemetry/MspTelemetryScheduler.ts:333-341 | a value is fresh while younger than the bound, then stale by its age; a failure shows the last success time |
| MspTelemetryBehaviour.SettlementRecords | src/core/protocol/telemetry/MspTelemetryScheduler.ts:464-492 | a settlement frees its poll and records value or error, moves no deadline, and the last one resumes every waiter |
| MspTelemetryBehaviour.RegistrationEnters | src/core/protocol/telemetry/MspTelemetryScheduler.ts:293-315 | a new registration waits for its initial delay, in the place of an earlier one of its id or at the end |
| MspTelemetryBehaviour.DiscardPutsOff | src/core/protocol/telemetry/MspTelemetryScheduler.ts:445-452 | exactly the registered overdue polls outside flight are put off by their interval |
| MspTelemetryBehaviour.RefreshDemands | src/core/protocol/telemetry/MspTelemetryScheduler.ts:454-462 | exactly the registered named polls become due now unless due already |
| MspTelemetryBehaviour.LeasesAreCounted | src/core/protocol/telemetry/MspTelemetryScheduler.ts:418-434 | a pause lease is new each time, and only its own release gives it back |
| MspTelemetryFairness.PausedRun | src/core/protocol/telemetry/MspTelemetryScheduler.ts:359-397 | while any lease is held no event of any run starts a dispatch and flights can only end |
| MspTelemetryFairness.ResumedWhenIdle | src/core/protocol/telemetry/MspTelemetryScheduler.ts:436-443 | a waiter resumes only when nothing is in flight |
| MspTelemetryFairness.NoTwoAuxiliariesInARow | src/core/protocol/telemetry/MspTelemetryScheduler.ts:364-376 | in singleFlight mode no two consecutive dispatches are auxiliary while a primary poll is due |
| MspTelemetryFairness.BypassesAreSpaced | src/core/protocol/telemetry/MspTelemetryScheduler.ts:343-400 | two dispatches of q, the second ahead of a waiting p, are at least q's interval times (1 + p's waiting time over p's interval) apart |
| MspTelemetryFairness.OvertakenAtMostOnce | src/core/protocol/telemetry/MspTelemetryScheduler.ts:343-400 | a due, unserved poll is overtaken at most once by any poll with no shorter interval |
| MspTelemetryWaiting.OvertakingIsGeometric | src/core/protocol/telemetry/MspTelemetryScheduler.ts:343-400 | with every dispatch of a faster poll ahead of a waiting one, the waiting time plus its interval has grown by a fixed factor |
| MspTelemetryWaiting.EveryWaitIsBounded | src/core/protocol/telemetry/MspTelemetryScheduler.ts:343-400 | while a due poll is kept waiting, all other polls together overtake it at most n times each, with n = 1 where none is faster and otherwise growing only logarithmically with the time waited |
| MspTelemetryWaiting.NoPollStarves | src/core/protocol/telemetry/MspTelemetryScheduler.ts:343-400 | auxiliary polls in singleFlight mode included: while a due poll is kept waiting, at most 2 * n * m + 1 dispatches of any kind are made, the slots kept for the primaries counted in, where m is the number of other polls on record |
| MspTelemetryWaiting.EnoughIntervalsAreTooMany | src/core/protocol/telemetry/MspTelemetryScheduler.ts:343-400 | such an n always exists: as soon as n intervals of the other poll exceed the time waited |
| MspTelemetryScheduler.MspTelemetryScheduler.RegisterPoll | src/core/protocol/telemetry/MspTelemetryScheduler.ts:293-315 | one step of the model: an id registered again keeps its place |
| MspTelemetryScheduler.MspTelemetryScheduler.Unregister | src/core/protocol/telemetry/MspTelemetryScheduler.ts:307-314 | only the registration still on record is removed |
| MspTelemetryScheduler.MspTelemetryScheduler.SelectBest | src/core/protocol/telemetry/MspTelemetryScheduler.ts:378-392 | the loop keeps the best candidate of the part it has seen |
| MspTelemetryScheduler.MspTelemetryScheduler.Tick | src/core/protocol/telemetry/MspTelemetryScheduler.ts:343-400 | one step of the model; every registered value is the live one afterwards |
| MspTelemetryScheduler.MspTelemetryScheduler.DispatchSettled | src/core/protocol/telemetry/MspTelemetryScheduler.ts:464-492 | one step of the model; the last flight resumes the waiters |
| MspTelemetryScheduler.MspTelemetryScheduler.DiscardPendingDemands | src/core/protocol/telemetry/MspTelemetryScheduler.ts:445-452 | exactly the due polls that are not in flight are postponed |
| MspTelemetryScheduler.MspTelemetryScheduler.RequestRefresh | src/core/protocol/telemetry/MspTelemetryScheduler.ts:454-462 | exactly the named polls become due, none later than before |
| MspTelemetryScheduler.MspTelemetryScheduler.WaitUntilIdle | src/core/protocol/telemetry/MspTelemetryScheduler.ts:436-443 | resolved at once exactly when nothing is in flight |
| MspOperationModel.AdvanceKeepsInv | src/core/protocol/telemetry/MspOperationCoordinator.ts:160-235 | every event keeps the window exclusive and the leases balanced |
| MspOperationModel.WindowIsExclusive | src/core/protocol/telemetry/MspOperationCoordinator.ts:188-212 | over any history, while the operation itself runs nothing is in flight and no event starts a dispatch |
| MspOperationModel.LeasesComeBack | src/core/protocol/telemetry/MspOperationCoordinator.ts:188-235 | every finished operation has released its lease exactly once, and an idle coordinator holds none |
| MspOperationBehaviour.EndsAtOnce | src/core/protocol/telemetry/MspOperationCoordinator.ts:160-187 | an idle coordinator's call that is refused or finds no session ends at once with that verdict and leaves telemetry alone |
| MspOperationBehaviour.PausesTelemetry | src/core/protocol/telemetry/MspOperationCoordinator.ts:188-192 | a call that can run takes one pause lease, puts the overdue polls off and waits for telemetry to fall idle |
| MspOperationBehaviour.RunsExactlyWhen | src/core/protocol/telemetry/MspOperationCoordinator.ts:192-209 | the operation runs exactly if the session captured before the wait is still the current one; a replaced one and a gone one are told apart |
| MspOperationBehaviour.ReportsExactly | src/core/protocol/telemetry/MspOperationCoordinator.ts:204-235 | its own value if it resolved; otherwise an unknown outcome if it says so or the session is another, and only else its own error |
| MspOperationBehaviour.RefreshesExactlyWhen | src/core/protocol/telemetry/MspOperationCoordinator.ts:204-235 | exactly a success that keeps its session demands the polls it names before telemetry resumes |
| MspOperationCoordinator.MspOperationCoordinator.Execute | src/core/protocol/telemetry/MspOperationCoordinator.ts:160-190 | the part of execute() before its first await; a call during a running operation changes nothing |
| MspOperationCoordinator.MspOperationCoordinator.ResumeAfterIdle | src/core/protocol/telemetry/MspOperationCoordinator.ts:192-209 | the part between the awaits; the operation starts only on a still-current session with nothing in flight |
| MspOperationCoordinator.MspOperationCoordinator.OperationSettled | src/core/protocol/telemetry/MspOperationCoordinator.ts:204-235 | the part after the operation settles; FAILED is reported exactly for an ordinary failure the session survived |
| MotorTestStateMachine.AuthorityNeverChanges | src/core/state/motorTestStateMachine.ts:626-660 | no run changes the authority |
| MotorTestStateMachine.FaultIsFinal | src/core/state/motorTestStateMachine.ts:677-685 | no run changes a field of a fault, and it asks for nothing but stops |
| MotorTestStateMachine.LiveActivation | src/core/state/motorTestStateMachine.ts:747-898 | until it ends, an activation is stopping from its first trigger on, with that reason and required to lock exactly if some trigger was a locking one, else pulsing from the write call on |
| MotorTestStateMachine.ActivationEnds | src/core/state/motorTestStateMachine.ts:527-568 | a submitted start ends only by a warned fault or by an acknowledgement after a trigger, landing in Locked exactly when some trigger was locking, else Ready |
| MotorTestStateMachine.DeadlineArmedOnce | src/core/state/motorTestStateMachine.ts:747-818 | the deadline is armed once per start if the write call precedes every trigger, else never |
| MotorTestStateMachine.LiveStemsFromAnActivation | src/core/state/motorTestStateMachine.ts:719-745 | every live state of every run stems from one accepted activation of a Ready machine |
| MotorTestStateMachine.EveryTriggerAsksForAStop | src/core/state/motorTestStateMachine.ts:677-685 | while a command may be live every trigger asks for a stop again, even in a fault |
| MotorTestStateMachineBehaviour.LockingReasons | src/core/state/motorTestStateMachine.ts:396-416 | the eight reasons that lock, by name, and the four that do not |
| MotorTestStateMachineBehaviour.ForeignIsIgnored | src/core/state/motorTestStateMachine.ts:626-660 | an event of another authority changes nothing and asks for nothing |
| MotorTestStateMachineBehaviour.IdleExactlyWhen | src/core/state/motorTestStateMachine.ts:690-745 | Ready, Locked and Checking are entered exactly by the stated events from the stated states |
| MotorTestStateMachineBehaviour.LiveExactlyWhen | src/core/state/motorTestStateMachine.ts:719-818 | so are Starting, Pulsing and Stopping, with the fields they are entered with |
| MotorTestStateMachineBehaviour.StoppingAccumulates | src/core/state/motorTestStateMachine.ts:821-898 | while stopping the reason stays, locking triggers accumulate, and only its acknowledgement or a fault leaves it |
| MotorTestStateMachineBehaviour.FaultExactlyWhen | src/core/state/motorTestStateMachine.ts:677-898 | a fault is entered exactly by the stated events, with the warning exactly if a command may be live, and is never left |
| MotorTestStateMachineBehaviour.EffectsExactlyWhen | src/core/state/motorTestStateMachine.ts:677-898 | start, stop, deadline and warning are each asked for exactly on the stated events |
| MotorTestControllerModel.AcceptedExactlyWhen | src/core/state/motorTestController.ts:1740-1780 | a pulse is accepted exactly when every single gate is open |
| MotorTestControllerModel.StepKeepsInv | src/core/state/motorTestController.ts:1673-3190 | every event keeps the pulse, phase and seal invariants |
| MotorTestControllerTheorems.LivePulseIsWatched | src/core/state/motorTestController.ts:1785-1826 | a live pulse always has its own watchdog armed and no stop in flight or sealed |
| MotorTestControllerBehaviour.AcceptedPulseIsLive | src/core/state/motorTestController.ts:1785-1826 | an accepted pulse is live under a new attempt and its own watchdog, the machine is in Pulsing, and nothing is stopped |
| MotorTestControllerBehaviour.RefusalsInOrder | src/core/state/motorTestController.ts:1740-1780 | closed, then invalid motor, then a live pulse, then the gates; all but a switch leave everything alone |
| MotorTestControllerBehaviour.AcknowledgedPulseGoesOn | src/core/state/motorTestController.ts:2021-2045 | the acknowledgement of a live pulse on a live lease records it, tells the machine and moves nothing else: attempt, watchdog and stops stay |
| MotorTestControllerBehaviour.PulseEndsExactlyWhen | src/core/state/motorTestController.ts:1992-2045 | a settlement ends the live pulse exactly if the request failed or the lease is gone, as RequestFailed with an unknown write or as AuthorityChanged with a changed session |
| MotorTestControllerBehaviour.StopRequestEndsThePulse | src/core/state/motorTestController.ts:1673-1736 | a stop request ends the live pulse as dominated, bars later ones exactly if its reason locks, and sends one command unless scope or lease forbid it, which seals with the reason |
| MotorTestControllerBehaviour.LaterRequestStopsAgain | src/core/state/motorTestController.ts:1673-1736 | after an acknowledged stop a further request sends a further one |
| MotorTestControllerBehaviour.StopRequestBeforeAnyPulse | src/core/state/motorTestController.ts:1673-1736 | before any pulse a stop request sends nothing and at most bars |
| MotorTestControllerBehaviour.WatchdogStops | src/core/state/motorTestController.ts:2068-2081 | the watchdog of a live pulse acts exactly as a stop request for the elapsed deadline |
| MotorTestControllerTheorems.EndedPulseIsBeingStopped | src/core/state/motorTestController.ts:1992-2106 | whatever ends a pulse starts, in the same step, a stop bound to that pulse: one command on the wire with the attribution it was dispatched with, or a seal without acknowledgement |
| MotorTestControllerTheorems.AtMostOnePulse | src/core/state/motorTestController.ts:1740-1826 | a controller accepts at most one pulse in its life |
| MotorTestControllerTheorems.SealedIsFinal | src/core/state/motorTestController.ts:2774-2844 | after a seal there is no later pulse, no later stop command and no other outcome |
| MotorTestControllerBehaviour.StopEndsExactly | src/core/state/motorTestController.ts:2802-2966 | a sent stop is acknowledged exactly if its frame came, the lease is live and the answer unambiguous; else it fails with the first of these as the reason, seals and faults |
| MotorTestControllerBehaviour.ExceptionSeals | src/core/state/motorTestController.ts:2830-2844 | an unexpected exception seals and leaves the recorded outcome alone |
| MotorTestControllerTheorems.UnacknowledgedKeepsTelemetryPaused | src/core/state/motorTestController.ts:3110-3145 | after a sealed stop that was not acknowledged, one that ended in an exception after a pulse included, no teardown ever releases the telemetry tokens |
| MotorTestControllerTheorems.EndedPulseIsStoppedOrNeverResumed | src/core/state/motorTestController.ts:2774-2844 | over every run an ended pulse has a stop of its own that is running, acknowledged or sealed, and if it ended in anything but an acknowledgement, no later pulse, stop command or token release ever follows |
| MotorTestControllerTheorems.AmbiguouslyEndedPulse | src/core/state/motorTestController.ts:2939-2965 | once a live pulse is ended with an ambiguous stop, no stop is ever called acknowledged, the tokens stay, and the stop is sealed as soon as it is over |
| MotorTestControllerTheorems.TelemetryResumesBehindAnAcknowledgement | src/core/state/motorTestController.ts:3110-3145 | once a pulse was accepted, tokens are released only behind an acknowledged stop |
| MotorTestControllerTheorems.ClosesExactlyWhen | src/core/state/motorTestController.ts:2982-3145 | a controller closes exactly with the end of the stop its teardown awaits, or at once if that stop is sealed or cannot be sent |
| MotorTestControllerBehaviour.CloseStartsTheStop | src/core/state/motorTestController.ts:2982-3070 | a close with a supported scope and a live lease ends the live pulse as dominated, sends one stop and waits for it, and tells the machine nothing |
| MotorTestControllerBehaviour.CloseJoinsTheStop | src/core/state/motorTestController.ts:2982-3070 | a close while a stop runs waits for that stop and sends no other |
| MotorTestControllerBehaviour.LostSessionFaults | src/core/state/motorTestController.ts:2128-2150 | a lost session is such a close behind a fault with its reason |
| MotorTestControllerBehaviour.TeardownFaultsExactlyWhen | src/core/state/motorTestController.ts:3072-3193 | the teardown releases the tokens, and faults the machine, exactly on the stated conditions, with the graver reason first |
| MotorTestControllerTheorems.TokensReleasedExactlyWhen | src/core/state/motorTestController.ts:2982-3145 | a closing step releases the tokens exactly if the lease is gone, the barrier's release does not throw, and the stop outcome it goes by, read off the state before and the event, is safe |
| MotorTestControllerTheorems.SealedReleasesExactlyWhen | src/core/state/motorTestController.ts:2789-2844 | a sealed session that closes releases them exactly if the lease is gone, the barrier's release does not throw, the seal came from an exception and the outcome recorded before it is safe |
| MotorTestControllerTheorems.SealedByExceptionStillResumes | src/core/state/motorTestController.ts:2789-2844 | a sealed session that nevertheless releases them, as a concrete run |
| MotorTestControllerTheorems.PulsingAtCloseExactlyWhen | src/core/state/motorTestController.ts:2090-2106 | a closing controller ends in Pulsing exactly if it was there, its stop was acknowledged and nothing went wrong after it |
| MotorTestControllerTheorems.ClosedWhilePulsing | src/core/state/motorTestController.ts:2090-2106 | a pulse, a plain close and an acknowledgement end closed with telemetry released and the machine in Pulsing, as a concrete run |
| MotorTestControllerTheorems.BarredStaysBarred | src/core/state/motorTestController.ts:1705-1713 | a locking safety event bars every later activation |
| MotorTestControllerTheorems.RunningStopIsJoined | src/core/state/motorTestController.ts:2774-2785 | while a stop runs no event sends or opens another |
| MotorTestControllerTheorems.ClosedIsFinal | src/core/state/motorTestController.ts:3186-3193 | no run changes a closed controller |
| MotorTestStopAttribution.UnansweredIsAmbiguousOrUnsent | src/core/protocol/mspClient.ts:1037-1084 | a stop accepted while a request of its command is unanswered is ambiguous if that request is active; otherwise the request is displaced and over no run ever written |
| MotorTestStopAttribution.UnansweredPulseIsNeverCalledStopped | src/core/state/motorTestController.ts:2904-2965 | client and controller together: a pulse ended while its own written request is unanswered is, whatever happens later on either side, never called stopped, never releases the tokens and ends sealed |
| MotorTestJoint.RunRests | src/core/state/motorTestController.ts:1992-2966 | over every run of controller and client as one system, a running stop is an unsettled request of the client, an acknowledged one an answered request, and a stop that raced the pulse's request is ambiguous or sealed |
| MotorTestJoint.RunningStopsAreOwed | src/core/state/motorTestController.ts:2774-2803 | while the controller waits for a stop, that stop is an unsettled request of the client, whose active request has a write or a timer to come |
| MotorTestJoint.AcknowledgedStopsWereAnswered | src/core/state/motorTestController.ts:2928-2966 | an acknowledged stop was resolved by a frame of its own command and was submitted when the pulse's request was not the active one |
| MotorTestJoint.TelemetryResumesBehindAnAnswer | src/core/state/motorTestController.ts:3110-3145 | the tokens are given back only by an unsealed session, and after a pulse only behind such an answer |
| MotorTestJoint.RacingStopsAreNeverConfirmed | src/core/state/motorTestController.ts:2946-2962 | a stop submitted while the pulse's request was active runs as ambiguous or ends sealed, and releases nothing |
| MotorTestJoint.RacesHappen | src/core/state/motorTestController.ts:2916-2922 | such a race, as a concrete run |
| MotorTestJointRuns.StopsGetAcknowledged | src/core/state/motorTestController.ts:2904-2966 | a pulse, its answer, a stop and its answer, as a concrete run of both: the pulse is recorded as acknowledged, the stop ends acknowledged and unsealed, and the lease is still held, unlatched and free to be released |
| MotorTestController.MotorTestController.RequestStop | src/core/state/motorTestController.ts:1673-1736 | one step of the model, in the order of the original |
| MotorTestController.MotorTestController.PulseMotor | src/core/state/motorTestController.ts:1740-1826 | one step of the model; the verdict is that of the one gate |
| MotorTestControllerModel.EveryBlockIsReported | src/core/state/motorTestController.ts:1837-1906 | the reasons are exactly those of the gates that are shut, each once and in the gates' order, and no other list says so; there are none exactly when every gate is open |
| MotorTestController.MotorTestController.EvaluateActivation | src/core/state/motorTestController.ts:1837-1906 | a reason is reported exactly if its gate is shut, none twice, in the gates' order |
| MotorTestController.MotorTestController.OnPulseDeadline | src/core/state/motorTestController.ts:2068-2081 | the watchdog acts only on the attempt it was armed for |
| MotorTestController.MotorTestController.OnPulseSettled | src/core/state/motorTestController.ts:1992-2045 | one step of the model; the answer of a pulse that is no longer live changes nothing |
| MotorTestController.MotorTestController.ExecuteStopVector | src/core/state/motorTestController.ts:2774-2803 | joins, replays a seal, or opens one episode with at most one command |
| MotorTestController.MotorTestController.OnStopSettled | src/core/state/motorTestController.ts:2802-2966 | one step of the model |
| MotorTestController.MotorTestController.Close | src/core/state/motorTestController.ts:2090-2106 | one step of the model |
| MotorTestController.MotorTestController.OnSessionInvalidated | src/core/state/motorTestController.ts:2128-2150 | one step of the model |
| MotorTestController.MotorTestController.FinishTeardown | src/core/state/motorTestController.ts:3072-3193 | the telemetry tokens are released last and only behind a certain stop and a gone lease |
| ArmingRestrictionModel.SubmittedAtMostOnce | src/core/state/motorArmingRestriction.ts:467-666 | over any number of leases and concurrent attempts command 99 is submitted at most once per client and epoch |
| ArmingRestrictionModel.SubmittedIsAccountedFor | src/core/state/motorArmingRestriction.ts:530-666 | a session is in progress or decided exactly if command 99 was submitted for it |
| ArmingRestrictionModel.OutcomesAreFinal | src/core/state/motorArmingRestriction.ts:385-392 | a terminal outcome is never overwritten, and a session keeps its authority |
| ArmingRestrictionModel.EveryExitDecides | src/core/state/motorArmingRestriction.ts:645-666 | however an attempt ends after submission, thrown exceptions included, its session gets an outcome it did not have |
| ArmingRestrictionModel.RefusalLeavesNoTrace | src/core/state/motorArmingRestriction.ts:467-528 | a refusal before submission records nothing |
| ArmingRestrictionBehaviour.SubmittedExactlyWhen | src/core/state/motorArmingRestriction.ts:467-552 | command 99 is submitted exactly if every admission condition holds, and then once, for the session of the lease |
| ArmingRestrictionBehaviour.RefusalReasons | src/core/state/motorArmingRestriction.ts:467-528 | a refusal gives the first condition that fails, from the lease to the Box IDs |
| ArmingRestrictionBehaviour.GoesOnExactlyWhen | src/core/state/motorArmingRestriction.ts:548-580 | an attempt goes on to the status read exactly if the request resolved, the identity read again is the one requested and the lease is still active |
| ArmingRestrictionBehaviour.AckReasons | src/core/state/motorArmingRestriction.ts:548-580 | the reason it ends with otherwise, the first that applies |
| ArmingRestrictionBehaviour.StatusReasons | src/core/state/motorArmingRestriction.ts:580-644 | the reason it ends with after its status, the first that applies, or none |
| ArmingRestrictionBehaviour.StatusDecides | src/core/state/motorArmingRestriction.ts:580-666 | without a reason the session is established under a receipt of its own, with one it is latched |
| ArmingRestrictionBehaviour.ThrowLatches | src/core/state/motorArmingRestriction.ts:645-666 | an exception latches as any other failure does |
| ArmingRestrictionBehaviour.RestrictionBit | src/core/state/motorArmingRestriction.ts:161-168 | the restriction is bit 16 of the flags |
| ArmingRestrictionModel.EstablishedExactlyOnGoodEvidence | src/core/state/motorArmingRestriction.ts:580-644 | a receipt is granted exactly on an unchanged live session, a disarmed craft and the set MSP bit |
| ArmingRestrictionModel.OneReceiptPerSession | src/core/state/motorArmingRestriction.ts:319-334 | at most one receipt is ever current for a session |
| ArmingRestrictionModel.MintKeepsInv | src/core/protocol/motorTestLease.ts:199-212 | an authority is minted once per client and epoch, never shared and never changed |
| MotorArmingRestriction.MotorArmingRestriction.EstablishMotorArmingRestriction | src/core/state/motorArmingRestriction.ts:467-552 | admission in the order of its checks, then one submission |
| MotorArmingRestriction.MotorArmingRestriction.OnAckSettled | src/core/state/motorArmingRestriction.ts:548-580 | the part between the two awaits |
| MotorArmingRestriction.MotorArmingRestriction.OnStatusSettled | src/core/state/motorArmingRestriction.ts:582-666 | the part after the status read |
| Base64.DecodeOfEncode | src/platforms/react-native/protocol/base64.ts:22-56 | decoding an encoding gives the bytes back, for every byte string |
| Base64.EncodedLength | src/platforms/react-native/protocol/base64.ts:22-35 | four characters for every three bytes begun |
| Base64.GroupsAreBigEndian | src/platforms/react-native/protocol/base64.ts:22-35 | each group of three bytes is one 24-bit number, high byte first, cut into four digits from the top |
| Base64.KnownDigits | src/platforms/react-native/protocol/base64.ts:22-35 | the first four digits of either alphabet of letters |
| Base64.KnownTensAndSigns | src/platforms/react-native/protocol/base64.ts:22-35 | the numerals and the two signs |
| Base64.KnownGroups | src/platforms/react-native/protocol/base64.ts:22-35 | whole texts as characters, with their padding |
| Base64.OtherCharactersAreSkipped | src/platforms/react-native/protocol/base64.ts:37-56 | a character outside the alphabet changes nothing wherever it stands |
| Base64.LoneDigitIsDropped | src/platforms/react-native/protocol/base64.ts:37-56 | a digit with fewer than eight bits behind it yields no byte |
| Base64.WrapIsHarmless | src/platforms/react-native/protocol/base64.ts:48-53 | the wrapped 32-bit accumulator yields the same byte and the same pending bits as an unbounded one |
| Base64.BytesToBase64 | src/platforms/react-native/protocol/base64.ts:22-35 | the triplet loop computes the code of section 4 of RFC 4648 |
| Base64.Base64ToBytes | src/platforms/react-native/protocol/base64.ts:37-56 | the accumulator loop decodes the digits of any text by groups of four, skipping everything else |

## Left out

* Listeners, diagnostics publication, snapshots, error texts and frozen objects: they report state and never
  decide anything modelled here. Listeners are taken not to call back into the object that notifies them.
* Object identity is a number that is never reused; weak maps are maps; garbage collection is not modelled.
* Timer durations: a response timer, a pulse deadline and a write may fire or settle at any later event, or
  never, so the statements hold for every duration.
* The native USB transport: its writes and restarts settle at any time or never, and it may also throw from
  the call itself.
* `ActiveRequest` is a value in the client's `active` field, not an object shared with its callbacks; each
  callback carries the request's number instead.
* The parser's phase record is one value replaced as a whole; only its payload buffer is a shared array.
* The payload cap of the parser is a natural number and clock readings are integers; an infinite or
  fractional cap is not modelled.
* Telemetry: a dispatch settles in one event, although its reactions run in three microtasks; a decoder that
  throws is the error outcome; a requester that throws from the call itself is not modelled.
* Coordinator: `validate`, `getContext` and `captureCurrent` are taken not to throw; their answers are inputs.
* Controller: the setup sequence with its failure classifiers, the verification receipt and the effect record
  are left out; the model starts from a READY session and takes monitoring, barrier, receipt, scope and lease
  answers as inputs. `MotorTestJoint` reads the lease's answers off the client; there a lease is live while the
  client holds its token, and the client's reactions run before the controller's.
* Arming restriction: the status decoder, the armed-state derivation and the Box IDs acquisition are inputs.
* Payload decoders, identification, battery, GPS and notice derivations, static compatibility and capability
  tables, and everything of React: they would add only easy members or are outside the core.
