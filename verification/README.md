# winkyou: the bounded-authority core in Dafny

winkyou lets two hosts behind NATs find a direct path without ever exceeding a small, durable budget of
network activity. This project models the parts that keep that promise and proves what they promise, for
every input, every interleaving and every crash point. Time is an integer number of nanoseconds. One locked
section of the program is one method, and a run is any list of such steps.

- **Pairing ledger** (`PairingRecords`, `JournalFraming`, `Ledger*`, `DecimalText`). An append-only journal is read and
  replayed on every operation. The list of records is the specification; the loops, maps and counters of the
  replay are proved against it, and the theorems are about whole runs with restarts, any clock and torn writes.
- **Session gates** (`Session*`). An initiator and a responder gate over a hostile wire: commit order, caps.
- **Safety trip** (`SafetyTrip`, `TripWitness`). One latch byte and a record, cut off at any point of trip and reset.
- **Governor** (`Governor*`, `Identifiers`). Reservations, drains, two-phase termination, close.
- **Pairing gate** (`PairingGate`). The one-shot hand-off after a burn.
- **Probe controller** (`Probe*`) and **rate limiters** (`SlidingWindow`), and the **STUN schedule**
  (`StunBudget`) that has to fit into them.
- **NAT simulator** (`Nat*`). Translation tables, allocation, filtering by history, replies through chains.
- **Router** (`PortPermutation`, `UdpCodec`). A Feistel port allocator and the IPv4/UDP codec with the header
  checksum of section 3.1 of RFC 791.

Four statements one would expect are false of the code. Each has runs that show it and the condition
under which the code does keep it:

- An open ordinary circuit does not always stay open until a reset. It does if and only if FINISH records opened
  it, or three burns of dead owners count, or the live owner has no unfinished burn, or the journal has all its
  records (`LedgerLatch.LatchCondition`, `LedgerCloses.OrdinaryCircuitCanClose`, `LedgerWitness.LatchFails`).
- A responder may send four datagrams before it is active, if and only if a write is with the transport when
  CompleteChallenge freezes the trace (`SessionPair.Pair.Run`, `SessionLateWrite.FourDatagrams`).
- The comment on `Done` says that only completed drains or a persistent trip end an ordinary lease. When a batch
  times out and the reported lease finishes before the lock is taken, the other leases of the batch are released
  with open drains and no trip (`GovernorRuns.RevokedQuietly`, `GovernorRuns.LateFinisherHidesTheOther`).
- A reply to the source a direct peer saw does not always reach the sender. It does in every network that is set up
  plainly - port reuse only where the next NAT of the chain tells destinations apart or there is none, no connection
  on a NAT's public address, no behaviour changes - whatever else has happened since, until the sender closes
  (`NatRuns.LateReply`). Each of the three conditions is needed (`NatRuns.ReplyIsLost`, `NatRuns.SquatterTakesReply`,
  `NatRuns.ChangeLosesReply`). In any network at all an immediate reply arrives if and only if the sender made the
  outermost mapping (`NatRuns.RoundTrip`).

What the model assumes of code it does not contain: decoding an encoded journal or safety record gives the record
back; the records a statement writes, named in it one by one, fit into their frame or file; a torn safety record
reads as the old one, the new one or not at all (needed only for stale resets); the session codec opens only frames
the peer sealed; a datagram's wait lasts at least its timeout; the probe clock does not go back. File and network
calls, hashes and random numbers are parameters. What is assumed of the two codecs can be met: `LedgerWitness` and
`TripWitness` give decimal text that does.

## Model

| member | source | states |
|---|---|---|
| JournalFraming.Decode | internal/governor/pairing_ledger_format.go:122-150 | the decoding loop accepts exactly the byte strings that parse into frames, within the record cap, and returns their records in order |
| JournalFraming.DecodeFrame | internal/governor/pairing_ledger_format.go:127-148 | one iteration accepts a frame exactly when its length, its text and its record are valid and all of it is there |
| JournalFraming.PutUint32 | internal/governor/pairing_ledger_format.go:152-175 | the four-byte length prefix reads back as the length |
| JournalFraming.RoundTrip | internal/governor/pairing_ledger_format.go:122-200 | decoding the concatenation of encoded frames returns exactly the records, for every list within the caps |
| JournalFraming.TornTailRejected | internal/governor/pairing_ledger_format.go:122-150 | every cut strictly inside the last frame makes the whole journal unreadable |
| JournalFraming.CutJournal | internal/governor/pairing_ledger_format.go:122-150 | a journal cut anywhere decodes exactly at frame boundaries, and then to the record prefix |
| JournalFraming.DecodedIsPacked | internal/governor/pairing_ledger_format.go:122-150 | whatever the decoder accepts is, to the last byte, the texts of the records it returns, one frame each, within the record cap |
| JournalFraming.FrameLaw | internal/governor/pairing_ledger_format.go:152-175 | encoder and decoder agree on every length: a record has a frame exactly when the decoder would take it |
| LedgerHistory.AddDeadMonotone | internal/governor/pairing_ledger_format.go:469-528 | counting more dead burns opens a circuit no later: the opening time is monotone in the counted burns |
| LedgerHistory.InspectorOpensFirst | internal/governor/pairing_ledger_format.go:469-528 | whenever a circuit is open for an owner it is open for the ownerless inspector, and not later |
| LedgerHistory.ForeignReaderAgrees | internal/governor/pairing_ledger_format.go:514-526 | an owner that never wrote sees the same circuit as the inspector |
| LedgerHistory.AcceptedIsSorted | internal/governor/pairing_ledger_format.go:202-295 | record times never go back in a journal that replays |
| LedgerRules.ReplayLaw | internal/governor/pairing_ledger_format.go:202-295 | the replay accepts a journal exactly when every record keeps the rules told by places: numbering, order, one set-up record, names used once, every FINISH answering one earlier burn and no other FINISH, resets of open and old enough circuits |
| LedgerPolicy.AdmittedBurn | internal/governor/pairing_ledger_format.go:530-570 | a burn the policy lets through fits every window, interval, packet and rebuild budget at its own recorded time |
| LedgerExact.AdmissionsCounted | internal/governor/pairing_ledger_format.go:421-441 | the admission counter of a class is the number of its burns recorded in the window, no others, and the packet counter is the sum of exactly their packets |
| LedgerExact.AffordableIsWithin | internal/governor/pairing_ledger_format.go:530-557 | the counters and the interval let a burn through exactly when every rolling budget holds for all time with the burn in the journal |
| LedgerExact.AdmissionLaw | internal/governor/pairing_ledger.go:364-445 | Admit decides as the promises alone do, for both classes: it appends the burn exactly when the request is in order and unexpired, the names are fresh, the circuits closed, every budget kept with the burn and its FINISH has room; each refusal has its own cause |
| LedgerExact.RequestLaw | internal/governor/pairing_ledger.go:602-690 | a request is in order exactly in machine scope, with two different names, an expiry and an envelope within the ceilings |
| LedgerExact.BurnsBounded | internal/governor/pairing_ledger_format.go:297-365 | every burn of a journal keeps the ceilings and expires within ten minutes |
| LedgerReplay.BuildSnapshot | internal/governor/pairing_ledger_format.go:202-295 | the replay succeeds exactly on the histories that obey every record rule, and then its maps, order and watermark describe the history |
| LedgerReplay.ReplayOne | internal/governor/pairing_ledger_format.go:217-284 | one record is taken over exactly when it may follow the history, and the snapshot describes the longer history |
| LedgerReplay.ReplayBurn | internal/governor/pairing_ledger_format.go:238-251 | a burn is taken exactly when neither its credential nor its attempt was used |
| LedgerReplay.ReplayFinish | internal/governor/pairing_ledger_format.go:252-261 | a FINISH is taken exactly when it answers an open burn of its class and attempt |
| LedgerReplay.ReplayOther | internal/governor/pairing_ledger_format.go:229-279 | a reset is taken exactly when the class circuit is open for this reader and old enough; a first record only first |
| LedgerReplay.FailureState | internal/governor/pairing_ledger_format.go:469-528 | the two passes over the maps compute the streak and opening time that the record list defines |
| LedgerReplay.CountFinishes | internal/governor/pairing_ledger_format.go:476-513 | the streak loop equals the circuit of the FINISH records, and collects exactly the unanswered burns |
| LedgerReplay.CountAdmissions | internal/governor/pairing_ledger_format.go:421-441 | the counting loop equals the window counts over the whole history |
| LedgerReplay.OrdinaryStatus | internal/governor/pairing_ledger_format.go:385-467 | statusAt computes the specified status at every clock reading |
| LedgerReplay.HardNatStatus | internal/governor/hard_nat_campaign_ledger.go:91-156 | the campaign status loop computes the specified status at every clock reading |
| LedgerHandle.PairingLedger.ReadSnapshot | internal/governor/pairing_ledger_format.go:69-120 | reading yields a snapshot exactly when the bytes decode and replay for this owner |
| LedgerHandle.PairingLedger.Append | internal/governor/pairing_ledger_format.go:583-621 | the file grows by the frame, or by the part of it that reached the disk |
| LedgerHandle.PairingLedger.AdmissionDenied | internal/governor/pairing_ledger_format.go:530-557 | the admission check returns the specified refusal or none |
| LedgerHandle.PairingLedger.DecideAdmission | internal/governor/pairing_ledger.go:364-424 | an admission is decided exactly as the readable history calls for, refusal by refusal, and refused on an unreadable one |
| LedgerHandle.PairingLedger.AdmitAttempt | internal/governor/pairing_ledger.go:364-445 | an admission is answered as the readable history calls for, and a receipt is given exactly when the burn is read back from the file |
| LedgerHandle.AdmitReadsBack | internal/governor/pairing_ledger.go:425-445 | a burn written whole is always read back, so its receipt is issued |
| LedgerHandle.PairingLedger.FinishReceipt | internal/governor/pairing_ledger.go:447-504 | FINISH is decided exactly as the readable history calls for: one terminal record per receipt, done is answered only with that very reason on disk, and the file grows by nothing else |
| LedgerVerdicts.FinishLaw | internal/governor/pairing_ledger.go:447-504 | the owner hears done exactly when a FINISH with its reason is on disk, a refusal exactly when one with another reason is, and otherwise the FINISH is appended if it fits |
| LedgerVerdicts.FinishRefusals | internal/governor/pairing_ledger.go:447-480 | on any readable journal a strange receipt, a clock that went back and a receipt without its burn are refused, each as what it is |
| LedgerVerdicts.FinishIsFinal | internal/governor/pairing_ledger.go:478-483 | a FINISH on disk stays: after any run its owner is told it is done for that reason and is refused every other |
| LedgerVerdicts.FinishRepeats | internal/governor/pairing_ledger.go:478-504 | a FINISH written whole can be repeated after any run, and only with its own reason |
| LedgerHandle.PairingLedger.ResetOpenCircuit | internal/governor/pairing_ledger.go:506-562 | a reset is decided exactly as the readable history calls for (open class, eligible time, last sequence quoted), and the status it reports is the one the file gives when it is read again |
| LedgerHandle.ResetReportsClosed | internal/governor/pairing_ledger.go:550-562 | a reset written whole can always be read back, and the status read back shows its circuit closed and no reset required |
| LedgerVerdicts.ResetLaw | internal/governor/pairing_ledger.go:506-548 | for both classes a reset with a valid note is appended exactly when it quotes the last sequence, the clock has not gone back, the replay would take it and it fits |
| LedgerVerdicts.ResetFollowsWhen | internal/governor/pairing_ledger_format.go:262-279 | the replay takes a reset exactly when the circuit is open for the reader and, for the ordinary class, six hours have passed since it opened |
| LedgerVerdicts.StatusLaw | internal/governor/pairing_ledger_format.go:385-467 | a status is open, full, ready or limited exactly by the circuits, the size of the journal and whether the smallest burn would keep every budget |
| LedgerVerdicts.StatusNumbers | internal/governor/pairing_ledger_format.go:385-467 | its numbers are the counts of their windows, with the charge of a fresh baseline, and the streak of the circuit |
| LedgerVerdicts.CampaignNumbers | internal/governor/hard_nat_campaign_ledger.go:91-156 | the same for the campaign status |
| LedgerVerdicts.NextAdmission | internal/governor/pairing_ledger_format.go:433-441 | the next admission is one minute after the latest ordinary burn or baseline |
| LedgerVerdicts.RollbackLaw | internal/governor/pairing_ledger_format.go:368-383 | a rolled-back clock is reported for both classes exactly when the clock is more than two minutes behind the latest time on disk |
| LedgerBudgets.BurnKeepsBudgets | internal/governor/pairing_ledger_format.go:385-467 | a burn affordable at its own time keeps every hour and day window, wherever the window ends |
| LedgerBudgets.OtherRecordKeepsBudgets | internal/governor/pairing_ledger_format.go:385-467 | no other record, resets included, refunds or breaks a window |
| LedgerCircuits.OpenByCounting | internal/governor/pairing_ledger_format.go:469-528 | a circuit is open exactly when FINISH records opened it or streak and dead burns together reach the limit |
| LedgerCircuits.OpenedByThreeFailures | internal/governor/pairing_ledger_format.go:469-512 | FINISH records open the ordinary circuit exactly when three failed since the last reset with no success between them |
| LedgerCircuits.OpenedByOneFailure | internal/governor/pairing_ledger_format.go:469-512 | FINISH records open the campaign circuit exactly when one failed since the last reset |
| LedgerOpening.OpenLaw | internal/governor/pairing_ledger_format.go:469-528 | a circuit is open for a reader exactly when FINISH records opened it, or the failures since the last success or reset and the unfinished burns of other owners since the last reset are three, for a campaign one |
| LedgerOpening.OpeningTime | internal/governor/pairing_ledger_format.go:494-526 | an open circuit dates from the very failure that reached the limit: that FINISH record, or that dead burn |
| LedgerOpening.PendingLaw | internal/governor/pairing_ledger_format.go:476-513 | the unanswered burns are all the unfinished burns of the class since its last reset, in journal order |
| LedgerOpening.AcceptedIsNumbered | internal/governor/pairing_ledger_format.go:218-222 | the sequence numbers of any accepted journal rise strictly |
| LedgerSafety.AppendKeepsSafe | internal/governor/pairing_ledger.go:364-562 | whatever an operation appends keeps the journal replayable for the writer, for every fresh owner and for the inspector, and within every budget |
| LedgerSafety.RestartKeepsSafe | internal/governor/pairing_ledger_format.go:514-526 | a restart under a fresh owner keeps the journal safe although the old owner's burns become dead |
| LedgerRuns.ReplayClosure | internal/governor/pairing_ledger_format.go:202-295 | after any run of operations, restarts, clocks and torn writes the journal is torn at its end or replays for the owner, every fresh owner and the inspector |
| LedgerRuns.BudgetsHoldForever | internal/governor/pairing_ledger_format.go:367-467 | after any such run every sliding window, the 60 s spacing and the rebuild quarantine hold by recorded time |
| LedgerRuns.ReadableWithoutTears | internal/governor/pairing_ledger.go:364-562 | while every append reaches the disk whole the journal stays readable and only grows |
| LedgerRuns.AdmitReservesFinish | internal/governor/pairing_ledger_format.go:559-581 | directly after an Admit the FINISH is never refused for record count or bytes |
| LedgerRuns.TornStays | internal/governor/pairing_ledger.go:364-562 | a torn journal refuses every operation and is never changed |
| LedgerLatch.FinishOpeningLatches | internal/governor/pairing_ledger_format.go:494-495 | a circuit opened by FINISH records stays open through successes, restarts, refused resets and time until a reset of its class is on disk |
| LedgerLatch.CampaignOpeningLatches | internal/governor/hard_nat_campaign_ledger.go:127-142 | a campaign circuit opened by one failure or one dead burn stays open until a campaign reset is on disk |
| LedgerLatch.LastingOpeningLatches | internal/governor/pairing_ledger_format.go:469-528 | an open ordinary circuit that meets the stated condition stays open in every run in which no ordinary reset gets to the disk |
| LedgerLatch.UnlastingOpeningCloses | internal/governor/pairing_ledger_format.go:494-526 | one that does not meet it is closed by a single successful FINISH of the live owner |
| LedgerLatch.LatchCondition | internal/governor/pairing_ledger_format.go:469-528 | an open ordinary circuit latches if and only if FINISH records opened it, three burns are dead, the owner has no unfinished burn, or the journal has all the records it may have |
| LedgerCloses.OrdinaryCircuitCanClose | internal/governor/pairing_ledger_format.go:494-526 | from a fresh journal a run of admissions, one restart and one failure opens the ordinary circuit, and one success of the live owner then closes it, with no reset anywhere in the run |
| LedgerLatch.FullOpeningLatches | internal/governor/pairing_ledger_format.go:559-621 | in a journal with all the records it may have an open ordinary circuit stays open in every run |
| LedgerWitness.LatchFails | internal/governor/pairing_ledger_format.go:494-526 | such a run exists outright: a codec, a fresh journal and a list of operations for which the circuit opens and closes again without a reset |
| LedgerLatch.OpenCircuitRefuses | internal/governor/pairing_ledger_format.go:530-557 | an open ordinary circuit admits no burn of either class |
| LedgerLatch.ResetWaits | internal/governor/pairing_ledger_format.go:262-279 | an ordinary reset quotes the last sequence and comes at least six hours after the opening, for owner and inspector |
| SessionGate.Gate.BeginChallenge | internal/probeio/wireguard_session_gate.go:159-172 | the challenge opens only from standby, and the whole gate invariant is kept |
| SessionGate.Gate.WriteEnter | internal/probeio/wireguard_session_gate.go:241-290 | a capped write enters only with allowance left, after readiness and for a new message type, an active one with any bytes; otherwise the gate closes or nothing changes |
| SessionGate.Gate.WriteEmit | internal/probeio/wireguard_session_gate.go:271-271 | one datagram leaves, counted once, and the allowance it was charged to still covers it |
| SessionGate.Gate.WriteLeave | internal/probeio/wireguard_session_gate.go:273-283 | the trace grows only if the gate is still capped |
| SessionGate.Gate.ReadEnter | internal/probeio/wireguard_session_gate.go:333-381 | a read goes to the socket only in the active state or with inbound allowance left |
| SessionGate.Gate.ReadLeave | internal/probeio/wireguard_session_gate.go:400-425 | what was read is recorded, buffered as an unopened FINISH frame, or closes the gate |
| SessionGate.Gate.ReadKeep | internal/probeio/wireguard_consumer_finish.go:16-29 | an early FINISH frame spends an allowance and gives no authority |
| SessionGate.Gate.ReadyCharge | internal/probeio/wireguard_consumer_ready.go:45-59 | the readiness frame is charged before it is sent |
| SessionGate.Gate.ReadyTake | internal/probeio/wireguard_consumer_ready.go:60-74 | the peer's readiness frame is counted when it arrives, at most once |
| SessionGate.Gate.ReadyPublish | internal/probeio/wireguard_consumer_ready.go:86-98 | readiness is published only after one frame went out and one came in |
| SessionGate.Gate.CompleteFreeze | internal/probeio/wireguard_session_gate.go:177-195 | the trace is frozen only when it is exact; a capped write still under way is what `lateWrite` records |
| SessionGate.Gate.CompletePass | internal/probeio/wireguard_session_gate.go:200-231 | the challenge passes only with nobody left on the socket |
| SessionGate.Gate.FinishStart | internal/probeio/wireguard_consumer_finish.go:60-72 | confirmation begins from a passed challenge, and the initiator first waits for the peer |
| SessionGate.Gate.FinishOpenFrame | internal/probeio/wireguard_consumer_finish.go:116-151 | the peer's FINISH is confirmed only by opening a frame that arrived |
| SessionGate.Gate.FinishCommit | internal/probeio/wireguard_consumer_finish.go:73-79 | the durable FINISH runs only after the confirmation the role needs |
| SessionGate.Gate.FinishCharge | internal/probeio/wireguard_consumer_finish.go:153-173 | the confirmation frame is charged only after the durable FINISH |
| SessionGate.Gate.FinishDetachLease | internal/probeio/wireguard_consumer_finish.go:91-96 | detach comes after FINISH |
| SessionGate.Gate.FinishUnlock | internal/probeio/wireguard_consumer_finish.go:98-113 | activation comes after detach |
| SessionGate.Gate.Close | internal/probeio/wireguard_session_gate.go:442-477 | closing drops the buffered frame and is final |
| SessionPair.StepGate | internal/probeio/wireguard_consumer_finish.go:31-177 | every step of either side keeps the gate invariant; a FINISH seal is emitted only by a responder whose FINISH is durable, or as a copy the session asked to write |
| SessionPair.Pair.StepPair | internal/probeio/wireguard_consumer_finish.go:31-177 | over a wire that loses, copies, reorders and injects, the initiator confirms only what the durable responder sealed |
| SessionPair.Pair.Run | internal/probeio/wireguard_consumer_finish.go:31-177 | in every interleaving the initiator's FINISH follows the responder's, activation follows FINISH and detach on the exact trace, and the caps hold, the responder's exactly when no write was under way at the freeze |
| SessionLateWrite.FourDatagrams | internal/probeio/wireguard_session_gate.go:273-278 | a run of both gates, in which every datagram that arrives was sent, that ends with both active and four datagrams sent by the responder |
| SafetyTrip.TripStore.TripLatch | internal/governor/safety_trip.go:182-254 | a trip that stops at any point leaves the file its writes in that order explain, blocking latch first |
| SafetyTrip.TripStore.ResetLatch | internal/governor/safety_trip.go:256-318 | a reset that stops at any point leaves the tripped latch until the clear record is whole |
| SafetyTrip.TripStore.WriteRecord | internal/governor/safety_trip.go:424-445 | the record is replaced, torn or refused; the latch byte stays |
| SafetyTrip.BlocksUntilReset | internal/governor/safety_trip.go:182-339 | once the trip latch is on disk every later read blocks, whatever crashes and torn bytes follow, until a reset that quotes the tripped sequence writes its last byte |
| SafetyTrip.OnlyClearsLift | internal/governor/safety_trip.go:256-318 | a step lifts a tripped latch exactly when it is such a reset, and then the file reads clear |
| SafetyTrip.WrittenReads | internal/governor/safety_trip.go:320-339 | a record written whole is read back exactly when its latch agrees with it |
| SafetyTrip.ReadIsWritten | internal/governor/safety_trip.go:320-339 | whatever is read is a valid record under the latch that agrees with it, in a file of possible size |
| SafetyTrip.OnlyTheirOwn | internal/governor/safety_trip.go:182-318 | a trip changes only a clear file, a reset only a tripped one whose sequence it quotes with a note |
| SafetyTrip.TripCommits | internal/governor/safety_trip.go:223-254 | from a clear file a trip blocks from its first write on |
| SafetyTrip.IndeterminateAbsorbs | internal/governor/safety_trip.go:193-205 | no run of trips and resets changes an indeterminate file |
| SafetyTrip.TripThenReset | internal/governor/safety_trip.go:182-318 | an uninterrupted trip and its own reset, if both records fit into the file, bring back a clear file, two sequences later |
| TripWitness.TripsAndResets | internal/governor/safety_trip.go:182-318 | there is such a store for every detail and every note of at most 1024 bytes |
| SafetyTrip.SequenceCounts | internal/governor/safety_trip.go:211-221 | over any run the sequence of a readable file counts the records put in place, in 64 bits |
| SafetyTrip.StaleResetTakesHold | internal/governor/safety_trip.go:274-281 | a reset that quotes an earlier trip takes hold of a later state if and only if that state is tripped and the records put in place since are none or went round the whole 64-bit counter |
| SafetyTrip.StaleResetHarmless | internal/governor/safety_trip.go:274-281 | otherwise it changes nothing |
| GovernorLeases.TallyUpdate | internal/governor/governor.go:823-838 | changing one lease changes the sums by exactly its share |
| GovernorBook.GrantKeepsSound | internal/governor/governor.go:318-337 | granting a fitting lease keeps tables, sums and every limit |
| GovernorBook.ReleaseKeepsSound | internal/governor/governor.go:823-838 | releasing a lease keeps tables, sums and every limit |
| GovernorBook.NobodyLeft | internal/governor/governor.go:877-888 | with every registered table empty the totals are already zero, so the final zeroing is redundant |
| GovernorState.Governor.AcquirePeer | internal/governor/governor.go:141-177 | a peer is admitted exactly when its name is a valid identifier and new, nothing is closing, finalizing, faulty or tripped, and a slot is free |
| Identifiers.CanonicalIsTrimmed | internal/governor/governor.go:900-905 | a name has text at both ends exactly when trimming white space leaves it unchanged and not empty |
| Identifiers.IdentifierLaw | internal/governor/governor.go:896-913 | an identifier is a text that is not empty, that trimming leaves alone, of at most 256 bytes of UTF-8 and without a control character |
| GovernorState.Governor.AcquireAttempt | internal/governor/governor.go:272-353 | an attempt is admitted exactly when the governor is open and the whole cost fits; a hard limit trips the manual profiles |
| GovernorState.Governor.ValidateLaw | internal/governor/governor.go:394-456 | whether an attempt fits, is over a limit or is refused is decided by the limits and the book with the lease in it |
| GovernorState.Governor.RegisterDrain | internal/governor/governor.go:586-616 | a drain is registered exactly with a valid name, before stopping, at most eight, at most one for accounting |
| GovernorState.Governor.CompleteDrain | internal/governor/governor.go:665-683 | exactly that drain leaves its set, and the drained and two-phase witnesses close exactly when nothing of their kind is left |
| GovernorState.Governor.BeginStopping | internal/governor/governor.go:798-813 | a stop begins once, and a two-phase lease then counts as finalizing |
| GovernorState.Governor.StopMany | internal/governor/governor.go:840-862 | every live attempt, or every one of a peer, begins to stop |
| GovernorState.Governor.Trip | internal/governor/governor.go:374-392 | whatever the store answers the governor blocks and every attempt stops |
| GovernorState.Governor.Release | internal/governor/governor.go:823-838 | a lease gives its cost back once and leaves both tables |
| GovernorState.Governor.ReleaseOrdinary | internal/governor/governor.go:749-758 | an ordinary lease is closed and refunded, a closed one is left alone |
| GovernorState.Governor.DrainTimeout | internal/governor/governor.go:725-747 | a timed-out drain trips exactly when the reported lease still has drains |
| GovernorState.Governor.ClosePeerBegin | internal/governor/governor.go:460-476 | the peer is closed, exactly its attempts begin to stop, and a second call changes nothing |
| GovernorState.Governor.ClosePeerEnd | internal/governor/governor.go:478-485 | the peer slot is freed exactly when it is this lease's and no attempt is left |
| GovernorState.Governor.SweepPeer | internal/governor/governor.go:864-875 | a peer without attempts is closed and dropped after a trip; one with attempts stays as it is |
| GovernorState.Governor.NetworkTimeout | internal/governor/loopback_termination.go:155-165 | a missed network deadline trips and is remembered |
| GovernorState.Governor.NetworkDone | internal/governor/loopback_termination.go:166-170 | the accounting wait begins only after the network drained or timed out |
| GovernorState.Governor.RecordFinishError | internal/governor/loopback_termination.go:135-144 | a FINISH error sets the permanent fault |
| GovernorState.Governor.FailVerdict | internal/governor/loopback_termination.go:184-202 | a failed verdict keeps the reservation |
| GovernorState.Governor.CleanVerdict | internal/governor/loopback_termination.go:188-200 | only an error-free verdict with both witnesses closed refunds |
| GovernorState.Governor.Settle | internal/governor/loopback_termination.go:204-210 | a failed termination settles only when every drain completed |
| GovernorState.Governor.CloseBegin | internal/governor/governor.go:206-221 | close stops everything once |
| GovernorState.Governor.CloseEnd | internal/governor/governor.go:225-240 | close completes exactly when no two-phase attempt is unsettled; otherwise nothing is released |
| GovernorState.Governor.StopActive | internal/governor/governor.go:877-888 | every lease is released as it stands, drains and all, and the tables are empty |
| GovernorRuns.Run | internal/governor/governor.go:202-485 | every interleaving of the locked sections keeps conservation, one-table membership, all limits and the refund rule, and undoes nothing; it trips exactly if some step finds its own reason to |
| GovernorRuns.FailedVerdictBlocks | internal/governor/loopback_termination.go:62-70 | a failed verdict blocks admission |
| GovernorRuns.FailureIsForever | internal/governor/loopback_termination.go:184-210 | after one failed verdict and any run at all, peers and attempts are refused |
| GovernorRuns.OwnerGoneQuiet | internal/governor/governor.go:225-249 | the owner is gone only when every lease is closed, every two-phase one is drained and the totals are zero |
| GovernorRuns.EarlyRefundIsClean | internal/governor/loopback_termination.go:193-200 | before the final close a two-phase refund means a clean verdict with no drain left |
| GovernorRuns.VerdictNeedsDrains | internal/governor/loopback_termination.go:150-208 | a drain ends by its own completion only: over any run a clean verdict, a settled termination or the release of the owner needs every drain of a two-phase lease to have been completed |
| GovernorRuns.CleanEnd | internal/governor/loopback_termination.go:172-199 | a termination whose drains complete in time is refunded at once, and close lets the owner go |
| GovernorRuns.FailedEnd | internal/governor/loopback_termination.go:172-208 | a failed one keeps its reservation, settles once its drains are completed, and close lets the owner go |
| GovernorRuns.OneTable | internal/governor/governor.go:331-332 | a live attempt is in exactly one table, that of a registered peer |
| GovernorRuns.ReleaseBatch | internal/governor/governor.go:749-758 | the end of an ordinary drain closes every lease of the batch, leaves every drain as it is and trips nothing |
| GovernorRuns.RevokedQuietly | internal/governor/governor.go:725-758 | with any steps between the two last sections, a batch member is revoked without a trip if and only if nothing had tripped, the reported lease finished before the lock and no step until the release found a reason to trip, which only four kinds of step can |
| GovernorRuns.LateFinisherHidesTheOther | internal/governor/governor.go:627-630 | a run in which that happens, against the documented promise that only drains or a trip end an ordinary lease |
| PairingGate.CommittedAttempt.ConsumeEnter | internal/governor/pairing_gate.go:262-274 | the token is spent at most once; a witness is given only if the FINISH is in the journal |
| PairingGate.CommittedAttempt.ConsumeEnd | internal/governor/pairing_gate.go:276-281 | one authorization at most |
| PairingGate.CommittedAttempt.ConsumeFail | internal/governor/pairing_gate.go:276-300 | a failed consume attests exactly to its own durable reason |
| PairingGate.CommittedAttempt.EmitEnter | internal/governor/pairing_gate.go:421-426 | a first emission is looked into only while none was granted |
| PairingGate.CommittedAttempt.EmitEnd | internal/governor/pairing_gate.go:426-431 | the first emission is granted at most once and to no check that began after the terminal choice |
| PairingGate.CommittedAttempt.CheckEnter | internal/governor/pairing_gate.go:436-446 | a later check needs a first emission |
| PairingGate.CommittedAttempt.CheckLook | internal/governor/pairing_gate.go:315-323 | a check goes on exactly when no reason was chosen |
| PairingGate.CommittedAttempt.CheckEnd | internal/governor/pairing_gate.go:446-451 | no check begun after the choice succeeds |
| PairingGate.CommittedAttempt.Choose | internal/governor/pairing_gate.go:377-390 | every caller brings its own reason; exactly the first wins and keeps it, and no second winner can arise |
| PairingGate.CommittedAttempt.Finish | internal/governor/pairing_gate.go:464-475 | success needs a first emission |
| PairingGate.CommittedAttempt.WriteFinish | internal/governor/loopback_termination.go:231-268 | a winner writes its own reason; the journal was empty before, and that reason is the chosen one |
| PairingGate.CommittedAttempt.Publish | internal/governor/loopback_termination.go:257-267 | the winner publishes into a result nobody has published before, clean only if its own FINISH is in the journal |
| PairingGate.CommittedAttempt.Answer | internal/governor/pairing_gate.go:377-386 | a caller that lost reports success exactly for a clean result with its own reason, which is then the one on disk |
| PairingGate.Run | internal/governor/pairing_gate.go:258-475 | in every interleaving of any number of callers: one authorization, one first emission, at most one winner and so one FINISH, with the reason of the first caller, success after emission, clean result only with the FINISH on disk |
| PairingGate.Succeeds | internal/governor/pairing_gate.go:258-475 | undisturbed calls hand out the authorization, grant the first emission and publish a success that is on disk, through either writer |
| NatTables.AddKeepsCoherent | internal/natsim/network.go:498-513 | a new mapping through a free port keeps mappings, used ports and routes one to one and the counter exact |
| NatTables.RemoveKeepsCoherent | internal/natsim/network.go:452-462 | removing a mapping does too |
| NatTables.RouteKeysDistinct | internal/natsim/network.go:614-620 | two mappings never share a route, across all NATs |
| NatUpdates.ReuseKeepsCoherent | internal/natsim/network.go:514-516 | one more send keeps the tables and ties the allowed sets to the mapping's history |
| NatUpdates.ChangeKeepsCoherent | internal/natsim/network.go:554-563 | a behaviour change, with or without a new address, keeps the tables of all NATs coherent |
| NatUpdates.EmptiedHoldsNoPort | internal/natsim/network.go:464-470 | clearing the port set again after the mappings is redundant |
| NatPorts.AllocatePort | internal/natsim/network.go:568-604 | a returned port is in range and unused, preserved if possible, else first in search order; exhaustion is reported exactly when the whole range is taken, and cursor and generator are left exactly as the search leaves them |
| NatPorts.Search | internal/natsim/network.go:583-603 | the search probes the range cyclically and stops at the first free port |
| NatPaths.FilteringRefinesHistory | internal/natsim/network.go:530-541 | the filter decides exactly by the destinations sent to through the mapping |
| NatPaths.PassesByHistory | internal/natsim/network.go:519-542 | an inbound packet passes exactly when the addressed mapping exists and its sends since creation allow the source |
| NatPaths.NothingUnasked | internal/natsim/network.go:519-542 | nothing gets in unasked: a packet reaches a connection only through a mapping of every NAT on the way whose sends allow the source |
| NatPaths.WalkBack | internal/natsim/network.go:368-375 | a packet back along a used path undoes the translation at every NAT of the chain |
| NatPaths.LookupFinds | internal/natsim/network.go:359-362 | the two route lookups find the mapping's own route |
| NatPaths.ReplyReaches | internal/natsim/network.go:345-381 | a reply to the observed source is routed to the sender if and only if the sender made the outermost mapping |
| NatNetwork.Network.RemoveMapping | internal/natsim/network.go:452-462 | the guards of the removal never fail |
| NatNetwork.Network.ClearMappings | internal/natsim/network.go:464-470 | one NAT is emptied and no other changes |
| NatHops.SettleIsTheLastDue | internal/natsim/network.go:544-566 | the due changes are worked off in order up to the first that is not due or whose address is another NAT's; the last one decides the model, any one empties the NAT |
| NatNetwork.Network.ApplyChanges | internal/natsim/network.go:544-566 | the loop leaves exactly the NAT and the address owners that working off the due changes gives, and reports the collision that stopped it |
| NatNetwork.Network.Translate | internal/natsim/network.go:480-517 | after the due changes: what a packet comes out as, when it is refused, whose mapping carries it, and that the history grows by exactly its destination |
| NatNetwork.Network.TranslateIn | internal/natsim/network.go:519-542 | the table search gives the one possible answer in any order |
| NatNetwork.Network.Deliver | internal/natsim/network.go:384-400 | a packet is queued or dropped, never both, and counted |
| NatNetwork.Network.TakeOne | internal/natsim/packetconn.go:63-66 | the oldest packet leaves the queue and is what the reader gets; the counter is not yet moved |
| NatNetwork.Network.ReportTaken | internal/natsim/network.go:402-408 | the queue counter follows and never goes below zero |
| NatNetwork.Network.TranslateAll | internal/natsim/network.go:345-353 | after success the sender's mapped address is the source shown and exactly one mapping at each NAT of the chain was used or made; a failure names the NAT that stopped the packet |
| NatNetwork.Network.Transmit | internal/natsim/network.go:330-382 | every written packet is delivered, dropped or rejected once, and a sent one reaches the connection the tables name |
| NatNetwork.Network.AddNat | internal/natsim/network.go:161-195 | a NAT joins exactly when the network is open, its name is canonical, its model and the order of its changes are possible, and name and address are free |
| NatNetwork.Network.AddConn | internal/natsim/network.go:198-249 | a connection joins exactly when its chain is valid, a slot is free and its address is not taken |
| NatNetwork.Network.ForgetMappings | internal/natsim/network.go:443-450 | exactly the closed connection's mappings go |
| NatNetwork.Network.CloseConn | internal/natsim/network.go:410-441 | closing takes routes, mappings and queued packets with it and touches no other connection |
| NatNetwork.Network.Close | internal/natsim/network.go:309-328 | after Close every connection is closed and no mapping, route, direct route or connection slot is left |
| NatLineage.OwnPath | internal/natsim/network.go:480-517 | in a plainly set up network every mapping that carries a connection's packets was made by that connection |
| NatLineage.PlainReplyReaches | internal/natsim/network.go:355-381 | there a direct peer's reply to the source it saw is routed to the sender |
| NatRuns.WayMoves | internal/natsim/network.go:330-441 | no step of any kind takes a used way away in a plain network, except the sender's own close |
| NatRuns.LateReply | internal/natsim/network.go:330-382 | in a plain network, after any run of other steps, the peer's answer to the source it saw is queued at the sender as coming from the peer, if the sender is not closed and its queue not full |
| NatRuns.Run | internal/natsim/network.go:309-620 | on every run the tables agree one to one, packets are conserved and queue counters equal the queues |
| NatRuns.ReadInOrder | internal/natsim/packetconn.go:48-66 | on every run, until it is closed, what the readers of a connection got followed by its queue is what was queued and delivered to it, in order |
| NatRuns.RoundTrip | internal/natsim/network.go:330-382 | in any network at all, a packet out and the immediate reply: it is queued at the sender exactly when the sender made the outermost mapping |
| NatRuns.ReplyIsLost | internal/natsim/network.go:359-379 | two hosts behind a port-reusing inner NAT and any outer NAT that does not tell destinations apart: three written packets, nothing changed, no address shared, room in the queue, and the second host's reply is lost |
| NatRuns.SquatterTakesReply | internal/natsim/network.go:355-358 | a direct connection on the public endpoint of a one-port NAT, of any model, gets the reply meant for the host behind it |
| NatRuns.ChangeLosesReply | internal/natsim/network.go:544-566 | behind a NAT that filters by endpoint, of any model otherwise, a behaviour change between packet and answer loses the answer |
| SlidingWindow.SendBudget.Reserve | internal/probeio/probeio.go:972-991 | a send is admitted exactly when the total allows it and the whole history shows room in the second before it |
| SlidingWindow.RunSends | internal/probeio/probeio.go:945-991 | over any ordered clock no sliding second holds more than the rate and the total is never exceeded |
| SlidingWindow.PacedBounds | internal/probeio/probeio.go:972-991 | a history admitted that way is within the rate in every window, wherever it ends |
| SlidingWindow.ControlBudget.Compact | internal/probeio/wireguard_active_policy.go:123-130 | the in-place compaction keeps exactly the young entries in order |
| SlidingWindow.ControlBudget.Admit | internal/probeio/wireguard_active_policy.go:122-139 | a control packet is admitted exactly when the clock has not gone back and the whole history and total have room, for every clock |
| SlidingWindow.RunControl | internal/probeio/wireguard_active_policy.go:59-152 | over any readings at most four control packets in every second and four per started second of the ceiling |
| StunBudget.Exchange | internal/stunobserve/client.go:175-225 | one exchange makes exactly the transmissions its replies leave it, each a whole wait after the last, and never meets a refusal, for every timing of replies and every point at which it is given up, before its first send too |
| StunBudget.WaitDoubles | internal/stunobserve/client.go:193-196 | the wait is half a second and doubles with every transmission |
| StunBudget.Observe | internal/stunobserve/allocation.go:243-318 | every socket makes its own transmissions in its turn; the serial run over K sockets is never refused, puts at most K + 1 sends in any second and 3K in all |
| StunBudget.RateBound | internal/stunobserve/allocation.go:79-97 | any second holds at most one send per socket and one more |
| StunBudget.OneSocketRate | internal/stunobserve/client.go:45-56 | one socket never sends more than twice in a second |
| StunBudget.TotalBound | internal/stunobserve/allocation.go:79-97 | at most three sends per socket |
| StunBudget.RateIsTight | internal/stunobserve/allocation.go:79-97 | for every K a schedule needs the whole K + 1 |
| PortPermutation.RoundsUndo | internal/c1crouter/nat_linux.go:302-309 | the rounds are undone for every round function |
| PortPermutation.PortOfBijective | internal/c1crouter/nat_linux.go:291-311 | a reservation's port lies in 49152-65535 and determines the reservation |
| PortPermutation.OrdinalOfBijective | internal/c1crouter/nat_linux.go:291-311 | every port of the range is some reservation's |
| PortPermutation.PortsDistinct | internal/c1crouter/nat_linux.go:291-311 | successive ports of one remote are pairwise distinct |
| PortPermutation.PortsCover | internal/c1crouter/nat_linux.go:291-311 | 16384 reservations give every port of the range |
| PortPermutation.AnyPort | internal/c1crouter/nat_linux.go:291-311 | for every reservation and every port of the range some digest gives that port |
| PortPermutation.SixRounds | internal/c1crouter/nat_linux.go:291-311 | the port depends on no round of the digest but the first six |
| PortPermutation.EveryRoundMatters | internal/c1crouter/nat_linux.go:291-311 | and on each of the six, for every reservation |
| PortPermutation.Router.Permute | internal/c1crouter/nat_linux.go:302-310 | the round loop computes the permutation |
| PortPermutation.Router.ReservePort | internal/c1crouter/nat_linux.go:291-318 | each remote gets the permutation's next port until all are given; the other mode counts up and stops at 9000 |
| UdpCodec.RoundTrip | internal/c1crouter/model.go:236-277 | parsing undoes encoding for all valid endpoints and payloads up to 65507 bytes |
| UdpCodec.ParsedIsEncodable | internal/c1crouter/model.go:236-255 | whatever parses can be encoded and parses again to the same datagram |
| UdpCodec.ParseLaw | internal/c1crouter/model.go:236-255 | parseUDP accepts exactly a version 4 header of any length, not of a fragment, and one UDP datagram that fills the rest, and gives the datagram they carry |
| UdpCodec.NothingBehind | internal/c1crouter/model.go:236-255 | no packet that parses is the beginning of another that does |
| UdpCodec.HeaderSumsToZero | internal/c1crouter/model.go:268-287 | the checksum over the finished header is zero |
| UdpCodec.FoldKeepsResidue | internal/c1crouter/model.go:283-285 | folding keeps the value modulo 65535 and never makes a positive sum zero |
| UdpCodec.ComputeChecksum | internal/c1crouter/model.go:278-287 | both loops terminate and compute the one's-complement sum |
| UdpCodec.Encode | internal/c1crouter/model.go:256-277 | the filled buffer is the packet, and exactly the unencodable inputs are refused |
| ProbeBooks.TargetKeepsBooks | internal/probeio/probeio.go:504-508 | registering a target keeps reference counts and five-tuples equal to the table's contents |
| ProbeBooks.ReleaseKeepsBooks | internal/probeio/probeio.go:1093-1106 | releasing one does too, and the counts are never already zero |
| ProbeControl.Controller.Guard | internal/probeio/probeio.go:945-970 | a call goes on exactly when the controller is neither stopped, tripping nor revoked and nothing is violated; only a violation leaves a trip owing |
| ProbeControl.Controller.Trip | internal/probeio/probeio.go:1003-1023 | a trip may come at any time, owed by a violation or not, and only the first one before a stop marks the controller |
| ProbeControl.Controller.OpenEnter | internal/probeio/probeio.go:420-431 | a slot is taken exactly when sockets and pending opens leave one |
| ProbeControl.Controller.OpenEnd | internal/probeio/probeio.go:438-471 | the datagram enters the table, or is not kept because the controller stopped meanwhile |
| ProbeControl.Controller.RegisterTarget | internal/probeio/probeio.go:475-514 | a target is registered exactly within the target and five-tuple reservations |
| ProbeControl.Controller.PromoteEnter | internal/probeio/probeio.go:823-845 | promotion starts only from an open socket with a verified target |
| ProbeControl.Controller.PromoteEnd | internal/probeio/probeio.go:856-875 | one promoter comes through, takes the datagram and closes every sibling |
| ProbeControl.Controller.CloseSocket | internal/probeio/probeio.go:893-915 | only an open socket is closed by its handle |
| ProbeControl.Controller.StopLocal | internal/probeio/probeio.go:1047-1059 | everything not promoted is closed and nothing stays counted |
| ProbeRuns.TransportLease.Attach | internal/probeio/transport_lease.go:224-244 | a lease takes one transport, once |
| ProbeRuns.TransportLease.DetachAfterFinish | internal/probeio/transport_lease.go:317-336 | detach happens once, after the challenge, and completes the drain |
| ProbeRuns.TransportLease.CloseOwned | internal/probeio/transport_lease.go:370-392 | closing gives up the transport and completes the drain only if detach has not |
| ProbeRuns.Run | internal/probeio/probeio.go:409-514 | in every interleaving at most one promotion succeeds, every datagram has one holder, counts equal the tables within the reservation, and the drain completes at most once |
| ProbeRuns.Promotes | internal/probeio/probeio.go:781-890 | an undisturbed verified socket is promoted into its lease, which goes its way until the attempt lets go of it |

## Left out

- Text, hashes and signatures: JSON, SHA-256 and base64 are functions given from outside; a string is always valid UTF-8.
- Operating-system calls: file permissions, locks, symbolic links, namespaces, sockets and timers; a timer is a step that may happen at any time.
- `Preflight`, status reports, witnesses, snapshots and error texts: read-only views of the modelled state.
- LedgerLatch.LatchCondition: a journal that still takes records is assumed to have room for one more FINISH of any length.
- NatNetwork.Network.AddNat: an address is the number of a valid unicast address, so the check of an address never fails.
- NatRuns.LateReply: every condition is shown to be needed by some networks, not by every network that breaks it.
- Governor goroutines: a trip's background drain and the waits are replaced by their locked sections in any order; the flag that starts only one such drain is not modelled.
- Exclusive claims and attempt deadlines of the governor, which only add easy members.
- Active-session byte counting, endpoint addresses and the binder context of the session gate.
- Counting of probe write failures, reply verification and deadlines of the probe controller beyond what promotion needs.
- The peak counters and read deadlines of the NAT simulator.
- Packet classification before the control limiter, and the allocation classifier over observed ports.
- Signal server, stdio JSON-RPC, diagnose reports, command lines and the Linux namespace set-up of the router.
