/** Exactly what FINISH, reset and status answer. */
module LedgerVerdicts {
  import opened Basics
  import opened PairingRecords
  import opened LedgerHistory
  import opened LedgerPolicy
  import opened LedgerBudgets
  import opened LedgerSafety
  import opened LedgerRuns
  import opened LedgerLatch
  import opened LedgerExact
  import opened LedgerOpening
  import opened JournalFraming

  /** A record is appended exactly if it can be encoded and there is room for it. */
  function Fitted(v: View, r: Record, size: FrameSize): Decision {
    if size(r).None? then Refuse(EncodeFailed)
    else if |v.history| == MAX_LEDGER_RECORDS || |v.history| > MAX_LEDGER_RECORDS
         || v.bytes + size(r).value > MAX_LEDGER_BYTES then Refuse(Capacity)
    else Append(r)
  }

  // ----- FINISH ---------------------------------------------------------------------------

  /** The FINISH of the credential stands in the journal with this reason. */
  ghost predicate OnDisk(h: History, credential: Id, reason: Reason) {
    exists i :: 0 <= i < |h| && h[i].body.Finish? && h[i].body.credential == credential && h[i].body.reason == reason
  }

  lemma LastFinishIsNew(h: History, reader: Option<Id>, i: nat, credential: Id)
    requires Accepts(h, reader) && i < |h| - 1 && IsFinish(Last(h), credential)
    ensures !IsFinish(h[i], credential)
  {
    assert !Finished(DropLast(h), credential);
    assert DropLast(h)[i] == h[i];
  }

  /** A credential is finished once. */
  lemma {:induction false} FinishIsUnique(h: History, reader: Option<Id>, i: nat, j: nat, credential: Id)
    requires Accepts(h, reader) && i < |h| && j < |h|
    requires IsFinish(h[i], credential) && IsFinish(h[j], credential)
    ensures i == j
  {
    var n := |h| - 1;
    if i < n && j < n {
      FinishIsUnique(DropLast(h), reader, i, j, credential);
    } else if i < n {
      LastFinishIsNew(h, reader, i, credential);
    } else if j < n {
      LastFinishIsNew(h, reader, j, credential);
    }
  }

  lemma OneReason(h: History, reader: Option<Id>, credential: Id, a: Reason, b: Reason)
    requires Accepts(h, reader) && OnDisk(h, credential, a) && OnDisk(h, credential, b)
    ensures a == b
  {
    var i :| 0 <= i < |h| && h[i].body.Finish? && h[i].body.credential == credential && h[i].body.reason == a;
    var j :| 0 <= j < |h| && h[j].body.Finish? && h[j].body.credential == credential && h[j].body.reason == b;
    FinishIsUnique(h, reader, i, j, credential);
  }

  lemma FinishedOnDisk(h: History, credential: Id)
    ensures Finished(h, credential) <==> exists reason :: OnDisk(h, credential, reason)
  {
    if Finished(h, credential) {
      var i :| 0 <= i < |h| && IsFinish(h[i], credential);
      assert OnDisk(h, credential, h[i].body.reason);
    }
    if reason :| OnDisk(h, credential, reason) {
      var i :| 0 <= i < |h| && h[i].body.Finish? && h[i].body.credential == credential && h[i].body.reason == reason;
      assert IsFinish(h[i], credential);
    }
  }

  /** The answer to a receipt that was issued for a burn of the journal. */
  lemma FinishOn(v: View, owner: Id, clock: int, receipt: Receipt, reason: Reason, size: FrameSize)
    requires receipt.owner == owner && Issued(v.history, receipt)
    requires clock + ROLLBACK_SKEW >= HighWatermark(v.history)
    ensures
      var h, d := v.history, DecideFinish(v, owner, clock, receipt, reason, size);
      d == if OnDisk(h, receipt.credential, reason) then AlreadyDone
           else if Finished(h, receipt.credential) then Refuse(InvalidRequest)
           else Fitted(v, Record(|h| + 1, Max(HighWatermark(h), clock),
             Finish(receipt.cls, receipt.credential, receipt.attempt, reason)), size)
  {
    var h := v.history;
    if OnDisk(h, receipt.credential, reason) { FinishedOnDisk(h, receipt.credential); }
    assert FinishedWith(h, receipt.credential, reason) <==> OnDisk(h, receipt.credential, reason);
  }

  /** What the owner hears about its receipt: done, if that very reason is on disk; refused, if another one is;
      otherwise the FINISH is appended, if it fits. */
  lemma FinishLaw(v: View, p: Parties, clock: int, receipt: Receipt, reason: Reason, size: FrameSize, other: Reason)
    requires Safe(v.history, p) && receipt in p.receipts && receipt.owner == p.owner
    requires clock + ROLLBACK_SKEW >= HighWatermark(v.history)
    ensures
      var h, d := v.history, DecideFinish(v, p.owner, clock, receipt, reason, size);
      && (OnDisk(h, receipt.credential, other) ==> d == if other == reason then AlreadyDone else Refuse(InvalidRequest))
      && (d.AlreadyDone? ==> OnDisk(h, receipt.credential, reason))
      && (!Finished(h, receipt.credential) ==>
         d == Fitted(v, Record(|h| + 1, Max(HighWatermark(h), clock),
           Finish(receipt.cls, receipt.credential, receipt.attempt, reason)), size))
  {
    var h := v.history;
    ReceiptIssued(h, p, receipt);
    FinishOn(v, p.owner, clock, receipt, reason, size);
    FinishedOnDisk(h, receipt.credential);
    if OnDisk(h, receipt.credential, other) && OnDisk(h, receipt.credential, reason) {
      OneReason(h, None, receipt.credential, other, reason);
    }
  }

  /** No burn of the journal is the one on the receipt. */
  predicate NoBurnFor(h: History, receipt: Receipt) {
    forall i :: 0 <= i < |h| && h[i].body.Burn? ==> ReceiptOf(h[i]).(owner := receipt.owner) != receipt
  }

  /** On any readable journal: a receipt of another owner, a clock that went back and a receipt without its burn. */
  lemma FinishRefusals(v: View, owner: Id, clock: int, receipt: Receipt, reason: Reason, size: FrameSize)
    ensures
      var d := DecideFinish(v, owner, clock, receipt, reason, size);
      && (receipt.owner != owner ==> d == Refuse(InvalidRequest))
      && (receipt.owner == owner && clock + ROLLBACK_SKEW < HighWatermark(v.history) ==> d == Refuse(ClockRollback))
      && (receipt.owner == owner && clock + ROLLBACK_SKEW >= HighWatermark(v.history) && NoBurnFor(v.history, receipt)
          ==> d == Refuse(InvalidRequest))
      && (d.AlreadyDone? ==> OnDisk(v.history, receipt.credential, reason))
  {
    if receipt.owner == owner && Issued(v.history, receipt) {
      var i :| 0 <= i < |v.history| && Matches(v.history[i], receipt);
      assert ReceiptOf(v.history[i]).(owner := receipt.owner) == receipt;
    }
  }

  lemma OnDiskStays(h: History, r: Record, credential: Id, reason: Reason)
    requires OnDisk(h, credential, reason)
    ensures OnDisk(h + [r], credential, reason)
  {
    var i :| 0 <= i < |h| && h[i].body.Finish? && h[i].body.credential == credential && h[i].body.reason == reason;
    assert (h + [r])[i] == h[i];
  }

  lemma OutcomeDecides(codec: Codec, st: Ledger, h: History, op: Op)
    requires Sound(codec) && Holds(codec, st.file, h) && Safe(h, st.parties)
    ensures Outcome(codec, st, op) ==
      Decide(View(h, |st.file|, Some(st.parties.owner)), st.parties.owner, op, SizeOf(codec))
  {
    HeldReads(codec, st.file, h);
  }

  lemma FinalAnswer(codec: Codec, st: Ledger, h: History, receipt: Receipt, reason: Reason, clock: int, other: Reason)
    requires Sound(codec) && Holds(codec, st.file, h) && Safe(h, st.parties)
    requires receipt in st.parties.receipts && OnDisk(h, receipt.credential, reason)
    ensures ReadHistory(codec, st.file) == Some(h)
    ensures receipt.owner == st.parties.owner && clock + ROLLBACK_SKEW >= HighWatermark(h) ==>
      Outcome(codec, st, FinishAttempt(clock, receipt, other)) ==
        if other == reason then AlreadyDone else Refuse(InvalidRequest)
  {
    HeldReads(codec, st.file, h);
    OutcomeDecides(codec, st, h, FinishAttempt(clock, receipt, other));
    if receipt.owner == st.parties.owner && clock + ROLLBACK_SKEW >= HighWatermark(h) {
      FinishLaw(View(h, |st.file|, Some(st.parties.owner)), st.parties, clock, receipt, other, SizeOf(codec), reason);
    }
  }

  /** A FINISH on disk is final: after any run at all, its owner is told that it is done, for that reason, and is
      refused any other. */
  lemma {:induction false} FinishIsFinal(codec: Codec, st: Ledger, h: History, events: seq<Event>, receipt: Receipt,
          reason: Reason, clock: int, other: Reason)
    requires Sound(codec) && Holds(codec, st.file, h) && Safe(h, st.parties) && Legal(codec, st, events)
    requires receipt in st.parties.receipts && OnDisk(h, receipt.credential, reason)
    ensures
      var end := Run(codec, st, events);
      var read := ReadHistory(codec, end.file);
      read.Some? ==>
        && OnDisk(read.value, receipt.credential, reason)
        && (receipt.owner == end.parties.owner && clock + ROLLBACK_SKEW >= HighWatermark(read.value) ==>
           Outcome(codec, end, FinishAttempt(clock, receipt, other)) ==
             if other == reason then AlreadyDone else Refuse(InvalidRequest))
    decreases |events|
  {
    if events == [] {
      FinalAnswer(codec, st, h, receipt, reason, clock, other);
    } else {
      var st' := Step(codec, st, events[0]);
      var h' := StepSafe(codec, st, h, events[0]);
      if Torn(codec, st'.file) {
        TornRunUnreadable(codec, st', events[1..]);
      } else {
        if h' != h { OnDiskStays(h, Last(h'), receipt.credential, reason); }
        FinishIsFinal(codec, st', h', events[1..], receipt, reason, clock, other);
      }
    }
  }

  /** So a FINISH that was written whole can be repeated, and only with its own reason. */
  lemma FinishRepeats(codec: Codec, st: Ledger, h: History, e: Event, events: seq<Event>, clock: int, other: Reason)
    requires Sound(codec) && Holds(codec, st.file, h) && Safe(h, st.parties) && Enabled(st, e)
    requires e.Operate? && e.op.FinishAttempt? && WrittenWhole(codec, Outcome(codec, st, e.op), e.written)
    requires Legal(codec, Step(codec, st, e), events)
    ensures
      var end := Run(codec, Step(codec, st, e), events);
      var read := ReadHistory(codec, end.file);
      read.Some? && end.parties.owner == st.parties.owner && clock + ROLLBACK_SKEW >= HighWatermark(read.value) ==>
        Outcome(codec, end, FinishAttempt(clock, e.op.receipt, other)) ==
          if other == e.op.reason then AlreadyDone else Refuse(InvalidRequest)
  {
    var st' := Step(codec, st, e);
    var r := Outcome(codec, st, e.op).record;
    WholeFinish(codec, st, h, e);
    FinishIsFinal(codec, st', h + [r], events, e.op.receipt, e.op.reason, clock, other);
  }

  lemma WholeStep(codec: Codec, st: Ledger, h: History, e: Event, r: Record)
    requires Sound(codec) && Holds(codec, st.file, h) && Safe(h, st.parties) && Enabled(st, e) && e.Operate?
    requires Outcome(codec, st, e.op) == Append(r) && WrittenWhole(codec, Append(r), e.written)
    requires Decide(View(h, |st.file|, Some(st.parties.owner)), st.parties.owner, e.op, SizeOf(codec)) == Append(r)
    ensures
      var st' := Step(codec, st, e);
      Holds(codec, st'.file, h + [r]) && Safe(h + [r], st'.parties) && st'.parties == AfterAppend(st.parties, r)
  {
    WholeAppend(codec, st, h, e);
  }

  lemma NewFinishOnDisk(h: History, r: Record, credential: Id, reason: Reason)
    requires r.body.Finish? && r.body.credential == credential && r.body.reason == reason
    ensures OnDisk(h + [r], credential, reason)
  {
    assert (h + [r])[|h|] == r;
  }

  lemma WholeFinish(codec: Codec, st: Ledger, h: History, e: Event)
    requires Sound(codec) && Holds(codec, st.file, h) && Safe(h, st.parties) && Enabled(st, e)
    requires e.Operate? && e.op.FinishAttempt? && WrittenWhole(codec, Outcome(codec, st, e.op), e.written)
    ensures
      var st', h' := Step(codec, st, e), h + [Outcome(codec, st, e.op).record];
      && Holds(codec, st'.file, h') && Safe(h', st'.parties) && OnDisk(h', e.op.receipt.credential, e.op.reason)
      && st'.parties == st.parties && e.op.receipt.owner == st.parties.owner
  {
    var r := Outcome(codec, st, e.op).record;
    OutcomeDecides(codec, st, h, e.op);
    AppendedReset(View(h, |st.file|, Some(st.parties.owner)), st.parties.owner, e.op, SizeOf(codec));
    WholeStep(codec, st, h, e, r);
    NewFinishOnDisk(h, r, e.op.receipt.credential, e.op.reason);
  }

  // ----- reset ------------------------------------------------------------------------------

  /** The replay takes a reset exactly when the circuit of the class is open for the reader and, for the ordinary
      class, six hours have passed since it opened. */
  lemma ResetFollowsWhen(h: History, reader: Option<Id>, cls: RecordClass, t: int)
    requires h != [] && HighWatermark(h) <= t
    ensures
      var since := CircuitFor(h, reader, cls).openedAt;
      Follows(h, reader, Record(|h| + 1, t, Reset(cls))) <==> since != 0 && (cls.Ordinary? ==> t >= since + 6 * HOUR)
  {
    assert Last(h).at <= HighWatermark(h);
  }

  /** What the status says of the circuit. */
  lemma ResetBlocked(v: View, cls: RecordClass, t: int)
    requires HighWatermark(v.history) <= t
    ensures
      var s, c, since := StatusAt(v, t), CampaignStatusAt(v, t), CircuitFor(v.history, v.reader, cls).openedAt;
      if cls.Ordinary? then
        && s.resetRequired == (since != 0) && s.openedAt == since
        && s.resetEligibleAt == if since != 0 then since + 6 * HOUR else 0
      else c.resetRequired == (since != 0) && c.openedAt == since
  {
    assert EffectiveNow(HighWatermark(v.history), t) == Some(t);
  }

  /** A reset quotes the last sequence and carries a valid note, or is rejected; it is appended exactly when the replay
      of the journal would take it and there is room. */
  lemma ResetLaw(v: View, cls: RecordClass, clock: int, expected: nat, noteValid: bool, size: FrameSize)
    requires v.history != []
    ensures
      var h, t := v.history, Max(HighWatermark(v.history), clock);
      var r, d := Record(|h| + 1, t, Reset(cls)), DecideReset(v, cls, clock, expected, noteValid, size);
      d == if !noteValid || expected == 0 then Refuse(ResetRejected)
           else if clock + ROLLBACK_SKEW < HighWatermark(h) then Refuse(ClockRollback)
           else if expected == |h| && Follows(h, v.reader, r) then Fitted(v, r, size)
           else Refuse(ResetRejected)
  {
    var t := Max(HighWatermark(v.history), clock);
    ResetFollowsWhen(v.history, v.reader, cls, t);
    ResetBlocked(v, cls, t);
  }

  // ----- status -----------------------------------------------------------------------------

  /** The smallest burn of a class that could be asked for at t. */
  function Smallest(h: History, cls: RecordClass, t: int): Record {
    var envelope := if cls.Campaign? then CampaignEnvelope else Envelope(0, 0, 0, 1, 0, 1, false);
    Record(|h| + 1, t, Burn(cls, 0, 0, 0, 0, t + 1, envelope))
  }

  /** What a fresh baseline costs while the window reaches back to it. */
  function Quarantine(h: History, window: int, t: int, charge: int): int {
    if h != [] && h[0].body.RebuildBaseline? && h[0].at != 0 && t < h[0].at + window then charge else 0
  }

  /** The numbers of a status are the counts of their windows and the circuit of the class. */
  lemma StatusNumbers(v: View, now: int)
    requires now + ROLLBACK_SKEW >= HighWatermark(v.history)
    ensures
      var h, t, s := v.history, Max(HighWatermark(v.history), now), StatusAt(v, now);
      && s.hourAdmissions == BurnsIn(h, Ordinary, HOUR, t) + Quarantine(h, HOUR, t, 4)
      && s.dayAdmissions == BurnsIn(h, Ordinary, 24 * HOUR, t) + Quarantine(h, 24 * HOUR, t, 12)
      && s.dayPackets == PacketsIn(h, Ordinary, 24 * HOUR, t) + Quarantine(h, 24 * HOUR, t, 2048)
      && s.failures == CircuitFor(h, v.reader, Ordinary).streak
  {
    var t := Max(HighWatermark(v.history), now);
    TailIsWindow(v.history, Ordinary, HOUR, t);
    TailIsWindow(v.history, Ordinary, DAY_WINDOW, t);
  }

  lemma CampaignNumbers(v: View, now: int)
    requires now + ROLLBACK_SKEW >= HighWatermark(v.history)
    ensures
      var h, t, s := v.history, Max(HighWatermark(v.history), now), CampaignStatusAt(v, now);
      && s.dayAdmissions == BurnsIn(h, Campaign, 24 * HOUR, t) + Quarantine(h, 24 * HOUR, t, 1)
      && s.dayPackets == PacketsIn(h, Campaign, 24 * HOUR, t) + Quarantine(h, 24 * HOUR, t, 16_432)
  {
    TailIsWindow(v.history, Campaign, DAY_WINDOW, Max(HighWatermark(v.history), now));
  }

  /** The record makes the next ordinary burn wait a minute. */
  predicate Paces(h: History, i: int) {
    0 <= i < |h| && (BurnOf(h[i], Ordinary) || (i == 0 && h[0].body.RebuildBaseline? && h[0].at > 0))
  }

  /** The next admission is one minute after the last ordinary burn, or after a baseline; none without either. */
  lemma NextAdmission(v: View, now: int)
    requires now + ROLLBACK_SKEW >= HighWatermark(v.history) && RebuildAt(v.history) >= 0
    requires forall i :: 0 <= i < |v.history| && BurnOf(v.history[i], Ordinary) ==> v.history[i].at > 0
    ensures
      var h, next := v.history, StatusAt(v, now).nextAdmissionAt;
      && (forall i :: Paces(h, i) ==> h[i].at + 60 * SECOND <= next)
      && (next != 0 ==> exists i :: Paces(h, i) && h[i].at + 60 * SECOND == next)
  {
    var h := v.history;
    var last := LastBurn(h, Ordinary, RebuildAt(h));
    LastBurnIsReached(h, Ordinary, RebuildAt(h));
    if last == RebuildAt(h) {
      assert last != 0 ==> Paces(h, 0) && h[0].at == last;
    } else {
      var i :| 0 <= i < |h| && BurnOf(h[i], Ordinary) && h[i].at == last;
      assert Paces(h, i);
    }
  }

  /** The state of a status: open for the reader, full, ready exactly when the smallest burn would keep every budget,
      and limited otherwise. */
  lemma StatusLaw(v: View, p: Parties, now: int)
    requires Safe(v.history, p) && now + ROLLBACK_SKEW >= HighWatermark(v.history)
    ensures
      var h, t := v.history, Max(HighWatermark(v.history), now);
      && StatusAt(v, now).state ==
         (if Open(h, v.reader, Ordinary) then CircuitIsOpen
          else if Full(v) then CapacityFull
          else if WithinBudgets(h + [Smallest(h, Ordinary, t)]) then Ready
          else Limited)
      && CampaignStatusAt(v, now).state ==
         (if Open(h, v.reader, Campaign) || Open(h, v.reader, Ordinary) then CircuitIsOpen
          else if Full(v) then CapacityFull
          else if WithinBudgets(h + [Smallest(h, Campaign, t)]) then Ready
          else Limited)
  {
    var h, t := v.history, Max(HighWatermark(v.history), now);
    SafeFacts(h, p);
    AffordableIsWithin(h, p, Smallest(h, Ordinary, t));
    AffordableIsWithin(h, p, Smallest(h, Campaign, t));
    OrdinaryState(v, now);
    CampaignState(v, now);
  }

  lemma OrdinaryState(v: View, now: int)
    requires now + ROLLBACK_SKEW >= HighWatermark(v.history)
    requires forall i :: 0 <= i < |v.history| && BurnOf(v.history[i], Ordinary) ==> v.history[i].at > 0
    ensures
      var h, t := v.history, Max(HighWatermark(v.history), now);
      StatusAt(v, now).state ==
        if Open(h, v.reader, Ordinary) then CircuitIsOpen
        else if Full(v) then CapacityFull
        else if Affordable(h, Smallest(h, Ordinary, t)) then Ready
        else Limited
  {
    LastBurnIsReached(v.history, Ordinary, RebuildAt(v.history));
  }

  lemma CampaignState(v: View, now: int)
    requires now + ROLLBACK_SKEW >= HighWatermark(v.history)
    ensures
      var h, t := v.history, Max(HighWatermark(v.history), now);
      CampaignStatusAt(v, now).state ==
        if Open(h, v.reader, Campaign) || Open(h, v.reader, Ordinary) then CircuitIsOpen
        else if Full(v) then CapacityFull
        else if Affordable(h, Smallest(h, Campaign, t)) then Ready
        else Limited
  {
    var h, t := v.history, Max(HighWatermark(v.history), now);
    assert EffectiveNow(HighWatermark(h), t) == Some(t);
    var cutoff := t - DAY_WINDOW;
    if BurnsAfter(h, Campaign, cutoff) == 0 { NoBurnsNoPackets(h, Campaign, cutoff); }
  }

  /** A clock that went back too far is reported as such, and nothing else is. */
  lemma RollbackLaw(v: View, now: int)
    ensures StatusAt(v, now).state.RolledBack? <==> now + 120 * SECOND < HighWatermark(v.history)
    ensures CampaignStatusAt(v, now).state.RolledBack? <==> now + 120 * SECOND < HighWatermark(v.history)
  {
    var h := v.history;
    if now + ROLLBACK_SKEW >= HighWatermark(h) {
      assert EffectiveNow(HighWatermark(h), Max(HighWatermark(h), now)).Some?;
    }
  }
}
