/** How long an open circuit stays open over whole runs. */
module LedgerLatch {
  import opened Basics
  import opened PairingRecords
  import opened LedgerHistory
  import opened LedgerPolicy
  import opened LedgerBudgets
  import opened LedgerCircuits
  import opened LedgerSafety
  import opened LedgerRuns
  import opened JournalFraming

  /** A reset of the class is accepted and its record reaches the file whole. */
  predicate Resets(codec: Codec, st: Ledger, e: Event, cls: RecordClass) {
    && e.Operate? && e.op.ResetClass? && e.op.cls == cls
    && WrittenWhole(codec, Outcome(codec, st, e.op), e.written)
  }

  /** No reset of the class takes place; resets may be asked for and refused. */
  predicate NoReset(codec: Codec, st: Ledger, events: seq<Event>, cls: RecordClass)
    decreases |events|
  {
    events == [] || (!Resets(codec, st, events[0], cls) && NoReset(codec, Step(codec, st, events[0]), events[1..], cls))
  }

  // ----- facts about one appended record ---------------------------------------------

  lemma LastBurnIsNew(h: History, reader: Option<Id>, k: nat, credential: Id)
    requires Accepts(h, reader) && k < |h| - 1 && IsBurn(Last(h), credential)
    ensures !IsBurn(h[k], credential)
  {
    assert !Burned(DropLast(h), credential);
    assert DropLast(h)[k] == h[k];
  }

  lemma {:induction false} BurnIsUnique(h: History, reader: Option<Id>, i: nat, j: nat, credential: Id)
    requires Accepts(h, reader) && i < |h| && j < |h|
    requires IsBurn(h[i], credential) && IsBurn(h[j], credential)
    ensures i == j
  {
    var n := |h| - 1;
    if i < n && j < n {
      BurnIsUnique(DropLast(h), reader, i, j, credential);
    } else if i < n {
      LastBurnIsNew(h, reader, i, credential);
    } else if j < n {
      LastBurnIsNew(h, reader, j, credential);
    }
  }

  lemma CircuitAfterAppend(h: History, r: Record, cls: RecordClass)
    ensures
      var c, c' := FinishCircuit(h, cls), FinishCircuit(h + [r], cls);
      c' == if Failed(r, cls) then CountFailure(c, r.at, FailureLimit(cls))
            else if Succeeded(r, cls) && c.openedAt == 0 then Circuit(0, 0)
            else if IsReset(r, cls) then Circuit(0, 0)
            else c
  {
    assert DropLast(h + [r]) == h && Last(h + [r]) == r;
  }

  lemma PendingAfterAppend(h: History, r: Record, cls: RecordClass)
    ensures
      var p, p' := Pending(h, h, cls), Pending(h + [r], h + [r], cls);
      p' == if r.body.Finish? then Without(p, r.body.credential)
            else if r.body.Burn? && r.body.cls == cls && !Finished(h, r.body.credential) then p + [r]
            else if IsReset(r, cls) then []
            else p
  {
    assert DropLast(h + [r]) == h && Last(h + [r]) == r;
    if r.body.Finish? {
      PendingAfterFinish(h, h, r, cls);
    } else {
      PendingAfterOther(h, h, r, cls);
      if r.body.Burn? { FinishedAppend(h, r, r.body.credential); }
    }
  }

  /** A FINISH by the live owner removes only its own burn, so the dead counted against it stay. */
  lemma FinishSparesDead(h: History, p: Parties, receipt: Receipt, cls: RecordClass)
    requires Safe(h, p) && receipt in p.receipts && receipt.owner == p.owner
    ensures
      var q := Pending(h, h, cls);
      && DeadCount(Without(q, receipt.credential), Some(p.owner)) == DeadCount(q, Some(p.owner))
      && (receipt.cls != cls ==> Without(q, receipt.credential) == q)
  {
    var q := Pending(h, h, cls);
    PendingFromHistory(h, h, cls);
    assert Backed(h, receipt);
    var i :| 0 <= i < |h| && h[i].body.Burn? && ReceiptOf(h[i]) == receipt;
    forall k | 0 <= k < |q| && IsBurn(q[k], receipt.credential)
      ensures Owns(Some(p.owner), q[k]) && receipt.cls == cls
    {
      assert q[k] in h;
      var j :| 0 <= j < |h| && h[j] == q[k];
      BurnIsUnique(h, None, i, j, receipt.credential);
    }
    WithoutOwned(q, receipt.credential, Some(p.owner));
    if receipt.cls != cls { WithoutAbsent(q, receipt.credential); }
  }

  // ----- openings by FINISH records ------------------------------------------------

  /** An opening made by FINISH records survives any reset-free run, unchanged, in every reader's eyes. */
  lemma {:induction false} FinishOpeningLatches(codec: Codec, st: Ledger, h: History, events: seq<Event>,
          cls: RecordClass, reader: Option<Id>)
    requires Sound(codec) && Holds(codec, st.file, h) && Safe(h, st.parties) && Legal(codec, st, events)
    requires FinishCircuit(h, cls).openedAt != 0 && NoReset(codec, st, events, cls)
    ensures
      var read := ReadHistory(codec, Run(codec, st, events).file);
      read.Some? ==> CircuitFor(read.value, reader, cls).openedAt == FinishCircuit(h, cls).openedAt
    decreases |events|
  {
    if events == [] {
      HeldReads(codec, st.file, h);
      AddDeadOpening(Pending(h, h, cls), reader, FinishCircuit(h, cls), FailureLimit(cls));
    } else {
      var e, st' := events[0], Step(codec, st, events[0]);
      var h' := StepSafe(codec, st, h, e);
      if Torn(codec, st'.file) {
        TornRunUnreadable(codec, st', events[1..]);
      } else {
        if h' != h {
          CircuitAfterAppend(h, Last(h'), cls);
          assert !IsReset(Last(h'), cls) by {
            AppendedReset(View(h, |st.file|, Some(st.parties.owner)), st.parties.owner, e.op, SizeOf(codec));
          }
        }
        FinishOpeningLatches(codec, st', h', events[1..], cls, reader);
      }
    }
  }

  lemma AppendedReset(v: View, owner: Id, op: Op, size: FrameSize)
    requires Decide(v, owner, op, size).Append?
    ensures
      var r := Decide(v, owner, op, size).record;
      && (r.body.Reset? <==> op.ResetClass?)
      && (op.ResetClass? ==> r.body.cls == op.cls)
      && (r.body.Burn? <==> op.Admit?)
      && (op.FinishAttempt? ==>
         r.body == Finish(op.receipt.cls, op.receipt.credential, op.receipt.attempt, op.reason)
           && op.receipt.owner == owner)
  {
  }

  lemma {:induction false} TornRunUnreadable(codec: Codec, st: Ledger, events: seq<Event>)
    requires Sound(codec) && Torn(codec, st.file)
    ensures ReadHistory(codec, Run(codec, st, events).file).None?
    ensures Run(codec, st, events).file == st.file
    decreases |events|
  {
    if events == [] {
      TornUnreadable(codec, st.file);
    } else {
      TornStays(codec, st, events[0]);
      TornRunUnreadable(codec, Step(codec, st, events[0]), events[1..]);
    }
  }

  // ----- the campaign circuit -----------------------------------------------------------

  /** The live owner sees the campaign circuit open for a reason no FINISH of its own can undo. */
  ghost predicate CampaignLatched(h: History, p: Parties) {
    FinishCircuit(h, Campaign).openedAt != 0 || DeadCount(Pending(h, h, Campaign), Some(p.owner)) > 0
  }

  lemma CampaignLatchedIsOpen(h: History, p: Parties)
    requires Safe(h, p)
    ensures CampaignLatched(h, p) <==> Open(h, Some(p.owner), Campaign)
  {
    SafeFacts(h, p);
    OpenByCounting(h, Some(p.owner), Campaign);
  }

  lemma CampaignLatchStep(codec: Codec, st: Ledger, h: History, e: Event, h': History)
    requires Sound(codec) && Holds(codec, st.file, h) && Safe(h, st.parties) && Enabled(st, e)
    requires CampaignLatched(h, st.parties)
    requires h' != h && e.Operate? && e.op.ResetClass? ==> e.op.cls.Ordinary?
    requires h' == h || (e.Operate? && Outcome(codec, st, e.op).Append? && h' == h + [Outcome(codec, st, e.op).record])
    ensures CampaignLatched(h', Step(codec, st, e).parties)
  {
    var p := st.parties;
    HeldReads(codec, st.file, h);
    match e
    case Restart(next) =>
      RestartKeepsSafe(h, p, next);
      PendingFromHistory(h, h, Campaign);
      var q := Pending(h, h, Campaign);
      assert Foreign(q, Some(next)) by {
        forall i | 0 <= i < |q| ensures !Owns(Some(next), q[i]) { assert q[i] in h; }
      }
      ForeignCountsMost(q, Some(next), Some(p.owner));
    case Operate(op, _) =>
      assert Step(codec, st, e).parties.owner == p.owner;
      if h' != h {
        var v := View(h, |st.file|, Some(p.owner));
        var r := Last(h');
        AppendedReset(v, p.owner, op, SizeOf(codec));
        CircuitAfterAppend(h, r, Campaign);
        PendingAfterAppend(h, r, Campaign);
        SafeFacts(h, p);
        if op.FinishAttempt? {
          FinishSparesDead(h, p, op.receipt, Campaign);
        } else if op.Admit? {
          DeadCountAppend(Pending(h, h, Campaign), r, Some(p.owner));
        }
      }
  }

  /** One failed FINISH or one dead owner's unfinished burn keeps the campaign circuit open
      for every later owner until a campaign reset. */
  lemma {:induction false} CampaignOpeningLatches(codec: Codec, st: Ledger, h: History, events: seq<Event>)
    requires Sound(codec) && Holds(codec, st.file, h) && Safe(h, st.parties) && Legal(codec, st, events)
    requires Open(h, Some(st.parties.owner), Campaign) && NoReset(codec, st, events, Campaign)
    ensures
      var end := Run(codec, st, events);
      var read := ReadHistory(codec, end.file);
      read.Some? ==> Open(read.value, Some(end.parties.owner), Campaign) && Open(read.value, None, Campaign)
    decreases |events|
  {
    CampaignLatchedIsOpen(h, st.parties);
    if events == [] {
      HeldReads(codec, st.file, h);
      SafeFacts(h, st.parties);
      InspectorOpensFirst(h, Some(st.parties.owner), Campaign);
    } else {
      var st' := Step(codec, st, events[0]);
      var h' := StepSafe(codec, st, h, events[0]);
      if Torn(codec, st'.file) {
        TornRunUnreadable(codec, st', events[1..]);
      } else {
        CampaignLatchStep(codec, st, h, events[0], h');
        CampaignLatchedIsOpen(h', st'.parties);
        CampaignOpeningLatches(codec, st', h', events[1..]);
      }
    }
  }

  // ----- the ordinary circuit -------------------------------------------------------------

  /** The owner has an ordinary burn it could still finish. */
  predicate OwnUnfinished(h: History, owner: Id) {
    exists i :: 0 <= i < |h| && BurnOf(h[i], Ordinary) && h[i].body.owner == owner && !Finished(h, h[i].body.credential)
  }

  /** What it takes for an open ordinary circuit to stay open until a reset. */
  predicate Lasting(h: History, owner: Id) {
    || FinishCircuit(h, Ordinary).openedAt != 0
    || DeadCount(Pending(h, h, Ordinary), Some(owner)) >= FAILURE_LIMIT
    || !OwnUnfinished(h, owner)
  }

  lemma ForeignOwnsNothing(h: History, owner: Id)
    requires Foreign(h, Some(owner))
    ensures !OwnUnfinished(h, owner)
  {
  }

  lemma LastingRestart(h: History, p: Parties, next: Id)
    requires Safe(h, p) && next != p.owner && next !in p.retired
    requires Open(h, Some(p.owner), Ordinary)
    ensures Open(h, Some(next), Ordinary) && Lasting(h, next)
  {
    RestartKeepsSafe(h, p, next);
    SafeFacts(h, p);
    InspectorOpensFirst(h, Some(p.owner), Ordinary);
    ForeignReaderAgrees(h, Some(next));
    ForeignOwnsNothing(h, next);
  }

  /** A FINISH of the live owner's ordinary burn uses up an unfinished burn of its own. */
  lemma FinishNeedsOwn(h: History, p: Parties, receipt: Receipt)
    requires Safe(h, p) && receipt in p.receipts && receipt.owner == p.owner
    requires receipt.cls.Ordinary? && !Finished(h, receipt.credential)
    ensures OwnUnfinished(h, p.owner)
  {
    assert Backed(h, receipt);
    var i :| 0 <= i < |h| && h[i].body.Burn? && ReceiptOf(h[i]) == receipt;
    assert BurnOf(h[i], Ordinary);
  }

  lemma OwnUnfinishedShrinks(h: History, r: Record, owner: Id)
    requires !OwnUnfinished(h, owner) && !BurnOf(r, Ordinary)
    ensures !OwnUnfinished(h + [r], owner)
  {
    var h' := h + [r];
    forall i | 0 <= i < |h'| && BurnOf(h'[i], Ordinary) && h'[i].body.owner == owner
      ensures Finished(h', h'[i].body.credential)
    {
      assert h'[i] == h[i];
      FinishedAppend(h, r, h[i].body.credential);
    }
  }

  lemma LastingAppend(v: View, p: Parties, op: Op, size: FrameSize, r: Record)
    requires Safe(v.history, p) && v.reader == Some(p.owner) && Honest(size)
    requires op.FinishAttempt? ==> op.receipt in p.receipts
    requires op.ResetClass? ==> op.cls.Campaign?
    requires Decide(v, p.owner, op, size) == Append(r)
    requires Open(v.history, v.reader, Ordinary) && Lasting(v.history, p.owner)
    ensures Open(v.history + [r], v.reader, Ordinary) && Lasting(v.history + [r], p.owner)
  {
    var h, h' := v.history, v.history + [r];
    AppendedReset(v, p.owner, op, size);
    AppendedFollows(v, p, op, size);
    AppendKeepsSafe(v, p, op, size);
    SafeFacts(h, p);
    SafeFacts(h', AfterAppend(p, r));
    OpenByCounting(h, v.reader, Ordinary);
    OpenByCounting(h', v.reader, Ordinary);
    CircuitAfterAppend(h, r, Ordinary);
    PendingAfterAppend(h, r, Ordinary);
    match op
    case Admit(clock, q) =>
      AdmitFollows(v, p, clock, q, size);
    case FinishAttempt(clock, receipt, reason) =>
      FinishFollows(v, p, clock, receipt, reason, size);
      FinishSparesDead(h, p, receipt, Ordinary);
      if receipt.cls.Ordinary? { FinishNeedsOwn(h, p, receipt); }
      if !OwnUnfinished(h, p.owner) { OwnUnfinishedShrinks(h, r, p.owner); }
    case ResetClass(_, _, _, _) =>
      if !OwnUnfinished(h, p.owner) { OwnUnfinishedShrinks(h, r, p.owner); }
  }

  /** An open ordinary circuit that meets the condition stays open through every run without an ordinary reset. */
  lemma {:induction false} LastingOpeningLatches(codec: Codec, st: Ledger, h: History, events: seq<Event>)
    requires Sound(codec) && Holds(codec, st.file, h) && Safe(h, st.parties) && Legal(codec, st, events)
    requires Open(h, Some(st.parties.owner), Ordinary) && Lasting(h, st.parties.owner)
      && NoReset(codec, st, events, Ordinary)
    ensures
      var end := Run(codec, st, events);
      var read := ReadHistory(codec, end.file);
      read.Some? ==> Open(read.value, Some(end.parties.owner), Ordinary)
    decreases |events|
  {
    if events == [] {
      HeldReads(codec, st.file, h);
    } else {
      var e, st', p := events[0], Step(codec, st, events[0]), st.parties;
      var h' := StepSafe(codec, st, h, e);
      if Torn(codec, st'.file) {
        TornRunUnreadable(codec, st', events[1..]);
      } else {
        HeldReads(codec, st.file, h);
        if e.Restart? {
          LastingRestart(h, p, e.next);
        } else if h' != h {
          SizeIsHonest(codec);
          LastingAppend(View(h, |st.file|, Some(p.owner)), p, e.op, SizeOf(codec), Last(h'));
        }
        LastingOpeningLatches(codec, st', h', events[1..]);
      }
    }
  }

  /** The next record of the history, if it is the success of this burn. */
  function SuccessOf(h: History, burn: Record): Record
    requires burn.body.Burn?
  {
    Record(|h| + 1, HighWatermark(h), Finish(burn.body.cls, burn.body.credential, burn.body.attempt, Success))
  }

  /** A success of any burn of the history could be framed as its next record. */
  predicate FinishesFit(codec: Codec, h: History) {
    forall i {:trigger h[i]} :: 0 <= i < |h| && h[i].body.Burn? ==> Frame(codec, SuccessOf(h, h[i])).Some?
  }

  /** So one can be framed for any receipt in hand. */
  lemma SuccessFits(codec: Codec, h: History, p: Parties, receipt: Receipt)
    requires Safe(h, p) && receipt in p.receipts && FinishesFit(codec, h)
    ensures Frame(codec, Record(|h| + 1, HighWatermark(h),
      Finish(receipt.cls, receipt.credential, receipt.attempt, Success))).Some?
  {
    assert Backed(h, receipt);
    var i :| 0 <= i < |h| && h[i].body.Burn? && ReceiptOf(h[i]) == receipt;
    assert Frame(codec, SuccessOf(h, h[i])).Some?;
  }

  /** The live owner's receipt for an unfinished burn is good for a FINISH record. */
  lemma FinishDecided(v: View, p: Parties, receipt: Receipt, codec: Codec)
    requires Safe(v.history, p) && FinishesFit(codec, v.history)
    requires receipt in p.receipts && receipt.owner == p.owner && !Finished(v.history, receipt.credential)
    requires |v.history| + 1 <= MAX_LEDGER_RECORDS && v.bytes + 4 + MAX_FRAME_BYTES <= MAX_LEDGER_BYTES
    ensures
      var now := HighWatermark(v.history);
      Decide(v, p.owner, FinishAttempt(now, receipt, Success), SizeOf(codec)) ==
      Append(Record(|v.history| + 1, now, Finish(receipt.cls, receipt.credential, receipt.attempt, Success)))
  {
    var h, now := v.history, HighWatermark(v.history);
    ReceiptIssued(h, p, receipt);
    assert EffectiveNow(now, now) == Some(now);
    SuccessFits(codec, h, p, receipt);
  }

  /** A receipt in hand was issued for a burn of the history, by a clock that is valid. */
  lemma ReceiptIssued(h: History, p: Parties, receipt: Receipt)
    requires Safe(h, p) && receipt in p.receipts
    ensures Issued(h, receipt) && EffectiveNow(HighWatermark(h), HighWatermark(h)) == Some(HighWatermark(h))
    ensures ValidRecord(Record(|h| + 1, HighWatermark(h),
      Finish(receipt.cls, receipt.credential, receipt.attempt, Success)))
  {
    SafeFacts(h, p);
    assert Backed(h, receipt);
    var i :| 0 <= i < |h| && h[i].body.Burn? && ReceiptOf(h[i]) == receipt;
    assert Matches(h[i], receipt);
  }

  /** A success of the live owner closes a circuit that only its streak kept open. */
  lemma SuccessCloses(h: History, p: Parties, receipt: Receipt, r: Record)
    requires Safe(h, p) && receipt in p.receipts && receipt.owner == p.owner
    requires r.body == Finish(Ordinary, receipt.credential, receipt.attempt, Success) && r.at != 0
    requires FinishCircuit(h, Ordinary).openedAt == 0
    requires DeadCount(Pending(h, h, Ordinary), Some(p.owner)) < FAILURE_LIMIT
    ensures !Open(h + [r], Some(p.owner), Ordinary)
  {
    SafeFacts(h, p);
    OpenByCounting(h + [r], Some(p.owner), Ordinary);
    CircuitAfterAppend(h, r, Ordinary);
    PendingAfterAppend(h, r, Ordinary);
    FinishSparesDead(h, p, receipt, Ordinary);
  }

  /** The condition is exact: without it, and with room for one more record, a single
      successful FINISH of the live owner closes the circuit again. */
  lemma UnlastingOpeningCloses(codec: Codec, st: Ledger, h: History) returns (e: Event)
    requires Sound(codec) && FinishesFit(codec, h) && Holds(codec, st.file, h) && Safe(h, st.parties)
    requires |h| + 1 <= MAX_LEDGER_RECORDS && |st.file| + 4 + MAX_FRAME_BYTES <= MAX_LEDGER_BYTES
    requires Open(h, Some(st.parties.owner), Ordinary) && !Lasting(h, st.parties.owner)
    ensures Enabled(st, e) && e.Operate? && e.op.FinishAttempt? && e.op.reason.Success?
    ensures
      var read := ReadHistory(codec, Step(codec, st, e).file);
      read.Some? && !Open(read.value, Some(st.parties.owner), Ordinary)
  {
    var p := st.parties;
    var i :| 0 <= i < |h| && BurnOf(h[i], Ordinary) && h[i].body.owner == p.owner && !Finished(h, h[i].body.credential);
    var receipt := ReceiptOf(h[i]);
    FinishDecided(View(h, |st.file|, Some(p.owner)), p, receipt, codec);
    e := Operate(FinishAttempt(HighWatermark(h), receipt, Success), 4 + MAX_FRAME_BYTES);
    WholeStepReads(codec, st, h, e);
    var r := Outcome(codec, st, e.op).record;
    SuccessCloses(h, p, receipt, r);
  }

  /** A whole append is read back as one more record. */
  lemma WholeStepReads(codec: Codec, st: Ledger, h: History, e: Event)
    requires Sound(codec) && Holds(codec, st.file, h) && Safe(h, st.parties) && Enabled(st, e)
    requires e.Operate? && e.written >= 4 + MAX_FRAME_BYTES
    ensures Outcome(codec, st, e.op) ==
      Decide(View(h, |st.file|, Some(st.parties.owner)), st.parties.owner, e.op, SizeOf(codec))
    ensures Outcome(codec, st, e.op).Append? ==>
              var r := Outcome(codec, st, e.op).record;
              ValidRecord(r) && ReadHistory(codec, Step(codec, st, e).file) == Some(h + [r])
  {
    HeldReads(codec, st.file, h);
    if Outcome(codec, st, e.op).Append? {
      var r := Outcome(codec, st, e.op).record;
      RoomForFrame(View(h, |st.file|, Some(st.parties.owner)), st.parties, e.op, codec);
      BytesAppend(codec, h, r);
      HeldReads(codec, Step(codec, st, e).file, h + [r]);
    }
  }

  /** No run without an ordinary reset lets the circuit close for the owner of the day. */
  ghost predicate StaysOpen(codec: Codec, st: Ledger) {
    forall events: seq<Event> :: Legal(codec, st, events) && NoReset(codec, st, events, Ordinary) ==>
      var end := Run(codec, st, events);
      var read := ReadHistory(codec, end.file);
      read.Some? ==> Open(read.value, Some(end.parties.owner), Ordinary)
  }

  /** A journal with the last record it may have takes no other. */
  lemma FullTakesNothing(v: View, owner: Id, op: Op, size: FrameSize)
    requires |v.history| >= MAX_LEDGER_RECORDS
    ensures !Decide(v, owner, op, size).Append?
  {
  }

  /** So nothing but a restart can happen to an open circuit in it. */
  lemma {:induction false} FullOpeningLatches(codec: Codec, st: Ledger, h: History, events: seq<Event>)
    requires Sound(codec) && Holds(codec, st.file, h) && Safe(h, st.parties) && Legal(codec, st, events)
    requires Open(h, Some(st.parties.owner), Ordinary) && NoReset(codec, st, events, Ordinary)
    requires |h| == MAX_LEDGER_RECORDS
    ensures
      var end := Run(codec, st, events);
      var read := ReadHistory(codec, end.file);
      read.Some? ==> Open(read.value, Some(end.parties.owner), Ordinary)
    decreases |events|
  {
    if events == [] {
      HeldReads(codec, st.file, h);
    } else {
      var e, st' := events[0], Step(codec, st, events[0]);
      var h' := StepSafe(codec, st, h, e);
      if e.Restart? {
        LastingRestart(h, st.parties, e.next);
        LastingOpeningLatches(codec, st', h, events[1..]);
      } else {
        FullTakesNothing(View(h, |st.file|, Some(st.parties.owner)), st.parties.owner, e.op, SizeOf(codec));
        assert st' == st;
        FullOpeningLatches(codec, st, h, events[1..]);
      }
    }
  }

  /** Either is enough for an open ordinary circuit to latch. */
  lemma LatchesIf(codec: Codec, st: Ledger, h: History)
    requires Sound(codec) && Holds(codec, st.file, h) && Safe(h, st.parties)
    requires Open(h, Some(st.parties.owner), Ordinary)
    requires Lasting(h, st.parties.owner) || |h| == MAX_LEDGER_RECORDS
    ensures StaysOpen(codec, st)
  {
    forall events: seq<Event> | Legal(codec, st, events) && NoReset(codec, st, events, Ordinary)
      ensures
        var end := Run(codec, st, events);
        var read := ReadHistory(codec, end.file);
        read.Some? ==> Open(read.value, Some(end.parties.owner), Ordinary)
    {
      if Lasting(h, st.parties.owner) {
        LastingOpeningLatches(codec, st, h, events);
      } else {
        FullOpeningLatches(codec, st, h, events);
      }
    }
  }

  /** Exactly when an open ordinary circuit latches, in a journal that is full or has room for one more FINISH. */
  lemma LatchCondition(codec: Codec, st: Ledger, h: History)
    requires Sound(codec) && Holds(codec, st.file, h) && Safe(h, st.parties)
    requires Open(h, Some(st.parties.owner), Ordinary)
    requires |h| < MAX_LEDGER_RECORDS ==>
      FinishesFit(codec, h) && |st.file| + 4 + MAX_FRAME_BYTES <= MAX_LEDGER_BYTES
    ensures StaysOpen(codec, st) <==> Lasting(h, st.parties.owner) || |h| == MAX_LEDGER_RECORDS
  {
    if Lasting(h, st.parties.owner) || |h| == MAX_LEDGER_RECORDS {
      LatchesIf(codec, st, h);
    } else {
      var e := UnlastingOpeningCloses(codec, st, h);
      var after := Step(codec, st, e);
      assert after.parties.owner == st.parties.owner;
      assert [e][1..] == [] && Run(codec, after, []) == after && Legal(codec, after, [])
        && NoReset(codec, after, [], Ordinary);
      assert Run(codec, st, [e]) == after && Legal(codec, st, [e]) && NoReset(codec, st, [e], Ordinary);
    }
  }

  /** An open ordinary circuit admits no burn of either class. */
  lemma OpenCircuitRefuses(codec: Codec, st: Ledger, h: History, clock: int, request: Request)
    requires Sound(codec) && Holds(codec, st.file, h) && Safe(h, st.parties)
    requires Open(h, Some(st.parties.owner), Ordinary)
    ensures Outcome(codec, st, Admit(clock, request)).Refuse?
  {
    HeldReads(codec, st.file, h);
    SizeIsHonest(codec);
    OpenViewRefuses(View(h, |st.file|, Some(st.parties.owner)), st.parties, clock, request, SizeOf(codec));
  }

  lemma OpenViewRefuses(v: View, p: Parties, clock: int, request: Request, size: FrameSize)
    requires Safe(v.history, p) && v.reader == Some(p.owner) && Honest(size) && Open(v.history, v.reader, Ordinary)
    ensures DecideAdmit(v, p.owner, clock, request, size).Refuse?
  {
    if DecideAdmit(v, p.owner, clock, request, size).Append? { AdmitFollows(v, p, clock, request, size); }
  }

  /** And it is reset no earlier than six hours after it opened, for its owner and for an inspector. */
  lemma ResetWaits(codec: Codec, st: Ledger, h: History, clock: int, expected: nat, noteValid: bool)
    requires Sound(codec) && Holds(codec, st.file, h) && Safe(h, st.parties)
    requires Open(h, Some(st.parties.owner), Ordinary)
    requires Outcome(codec, st, ResetClass(Ordinary, clock, expected, noteValid)).Append?
    ensures
      var r := Outcome(codec, st, ResetClass(Ordinary, clock, expected, noteValid)).record;
      && r.at >= CircuitFor(h, Some(st.parties.owner), Ordinary).openedAt + CIRCUIT_HORIZON
      && r.at >= CircuitFor(h, None, Ordinary).openedAt + CIRCUIT_HORIZON
      && expected == |h|
  {
    HeldReads(codec, st.file, h);
    SizeIsHonest(codec);
    var v := View(h, |st.file|, Some(st.parties.owner));
    ResetFollows(v, st.parties, Ordinary, clock, expected, noteValid, SizeOf(codec));
  }
}
