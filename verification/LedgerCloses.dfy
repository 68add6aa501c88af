/** A run in which an open ordinary circuit closes without a reset. */
module LedgerCloses {
  import opened Basics
  import opened PairingRecords
  import opened LedgerHistory
  import opened LedgerPolicy
  import opened LedgerBudgets
  import opened LedgerCircuits
  import opened LedgerSafety
  import opened LedgerRuns
  import opened LedgerLatch
  import opened JournalFraming

  function SampleBurn(sequence: nat, owner: Id): Record {
    Record(sequence, sequence * HOUR,
      Burn(Ordinary, 10 * sequence, 10 * sequence + 1, 0, owner, sequence * HOUR + SECOND,
        Envelope(1, 1, 1, 1, 1, 1, false)))
  }

  /** Owner 1 left two burns unfinished; owner 2 has failed one attempt and has one more under way. */
  const Shaky: History := [
    Record(1, HOUR, Initialize), SampleBurn(2, 1), SampleBurn(3, 1), SampleBurn(4, 2), SampleBurn(5, 2),
    Record(6, 6 * HOUR, Finish(Ordinary, 40, 41, CarrierError))]

  function Ask(sequence: nat): Request {
    Request(Ordinary, 10 * sequence, 10 * sequence + 1, 0, true, sequence * HOUR + SECOND,
      Envelope(1, 1, 1, 1, 1, 1, false))
  }

  // ----- the circuit of each prefix ----------------------------------------------------------

  lemma ShakyPrefix(k: nat)
    requires 1 <= k < 5
    requires FinishCircuit(Shaky[..k], Ordinary) == Circuit(0, 0)
      && Pending(Shaky[..k], Shaky[..k], Ordinary) == Shaky[1..k]
    ensures FinishCircuit(Shaky[..k + 1], Ordinary) == Circuit(0, 0)
      && Pending(Shaky[..k + 1], Shaky[..k + 1], Ordinary) == Shaky[1..k + 1]
  {
    assert Shaky[..k + 1] == Shaky[..k] + [Shaky[k]];
    assert Shaky[1..k + 1] == Shaky[1..k] + [Shaky[k]];
    CircuitAfterAppend(Shaky[..k], Shaky[k], Ordinary);
    PendingAfterAppend(Shaky[..k], Shaky[k], Ordinary);
  }

  lemma ShakyBefore()
    ensures
      var before := Shaky[..5];
      FinishCircuit(before, Ordinary) == Circuit(0, 0) && Pending(before, before, Ordinary) == Shaky[1..5]
  {
    assert Shaky[..1] == [Shaky[0]];
    assert FinishCircuit(Shaky[..1], Ordinary) == Circuit(0, 0) && Pending(Shaky[..1], Shaky[..1], Ordinary) == [];
    ShakyPrefix(1);
    ShakyPrefix(2);
    ShakyPrefix(3);
    ShakyPrefix(4);
  }

  lemma WithoutFour(a: Record, b: Record, c: Record, d: Record, credential: Id)
    requires !IsBurn(a, credential) && !IsBurn(b, credential) && IsBurn(c, credential) && !IsBurn(d, credential)
    ensures Without([a, b, c, d], credential) == [a, b, d]
  {
    assert [a, b, c, d][1..] == [b, c, d] && [b, c, d][1..] == [c, d] && [c, d][1..] == [d] && [d][1..] == [];
    assert Without([d], credential) == [d];
    assert Without([b, c, d], credential) == [b, d];
  }

  lemma TwoDead(a: Record, b: Record, rest: seq<Record>, reader: Option<Id>)
    requires !Owns(reader, a) && !Owns(reader, b)
    requires rest == [] || (|rest| == 1 && Owns(reader, rest[0]))
    ensures DeadCount([a, b] + rest, reader) == 2
  {
    assert ([a, b] + rest)[1..] == [b] + rest && ([b] + rest)[1..] == rest;
    assert rest != [] ==> rest[1..] == [];
    assert DeadCount(rest, reader) == 0;
    assert DeadCount([b] + rest, reader) == 1;
  }

  lemma ShakyState()
    ensures FinishCircuit(Shaky, Ordinary) == Circuit(1, 0)
    ensures Pending(Shaky, Shaky, Ordinary) == [Shaky[1], Shaky[2], Shaky[4]]
  {
    var before := Shaky[..5];
    ShakyBefore();
    assert Shaky == before + [Shaky[5]];
    CircuitAfterAppend(before, Shaky[5], Ordinary);
    PendingAfterAppend(before, Shaky[5], Ordinary);
    assert Shaky[1..5] == [Shaky[1], Shaky[2], Shaky[3], Shaky[4]];
    WithoutFour(Shaky[1], Shaky[2], Shaky[3], Shaky[4], 40);
  }

  lemma {:induction false} DeadAtMost(pending: seq<Record>, reader: Option<Id>)
    ensures DeadCount(pending, reader) <= |pending|
  {
    if pending != [] { DeadAtMost(pending[1..], reader); }
  }

  lemma ShakyPrefixes(k: nat)
    requires 1 <= k <= 5
    ensures FinishCircuit(Shaky[..k], Ordinary) == Circuit(0, 0)
      && Pending(Shaky[..k], Shaky[..k], Ordinary) == Shaky[1..k]
  {
    assert Shaky[..1] == [Shaky[0]];
    assert Pending(Shaky[..1], Shaky[..1], Ordinary) == [];
    if k > 1 { ShakyPrefix(1); }
    if k > 2 { ShakyPrefix(2); }
    if k > 3 { ShakyPrefix(3); }
    if k > 4 { ShakyPrefix(4); }
  }

  /** Before the failed FINISH nobody who asks has three failures against it. */
  lemma StillClosed(k: nat)
    requires 1 <= k <= 4
    ensures k <= 3 ==> !Open(Shaky[..k], Some(1), Ordinary)
    ensures !Open(Shaky[..k], Some(2), Ordinary)
  {
    ShakyPrefixes(k);
    var q := Shaky[1..k];
    OpenByCounting(Shaky[..k], Some(1), Ordinary);
    OpenByCounting(Shaky[..k], Some(2), Ordinary);
    if k <= 3 {
      DeadAtMost(q, Some(1));
      DeadAtMost(q, Some(2));
    } else {
      assert q == [Shaky[1], Shaky[2]] + [Shaky[3]];
      TwoDead(Shaky[1], Shaky[2], [Shaky[3]], Some(2));
    }
  }

  // ----- the budgets of each prefix ------------------------------------------------------------

  lemma {:induction false} NoneAfter(h: History, cutoff: int)
    requires forall i :: 0 <= i < |h| ==> h[i].at <= cutoff
    ensures BurnsAfter(h, Ordinary, cutoff) == 0
  {
    if h != [] { NoneAfter(DropLast(h), cutoff); }
  }

  lemma {:induction false} AtMostOneEach(h: History, cutoff: int)
    requires forall i :: 0 <= i < |h| && h[i].body.Burn? ==> h[i].body.envelope.packets == 1
    ensures BurnsAfter(h, Ordinary, cutoff) <= |h| && PacketsAfter(h, Ordinary, cutoff) <= |h|
  {
    if h != [] { AtMostOneEach(DropLast(h), cutoff); }
  }

  lemma {:induction false} LatestBy(h: History, limit: int)
    requires limit >= 0 && forall i :: 0 <= i < |h| ==> h[i].at <= limit
    ensures LastBurn(h, Ordinary, 0) <= limit && HighWatermark(h) <= limit
  {
    if h != [] { LatestBy(DropLast(h), limit); }
  }

  /** Nothing was burned in the last hour, and little in the last day. */
  lemma HourlyFacts(h: History, k: nat)
    requires 1 <= k <= 4 && h == Shaky[..k]
    ensures HighWatermark(h) == k * HOUR && LastBurn(h, Ordinary, 0) <= k * HOUR && RebuildAt(h) == 0
    ensures
      var day := (k + 1) * HOUR - DAY_WINDOW;
      BurnsAfter(h, Ordinary, k * HOUR) == 0 && BurnsAfter(h, Ordinary, day) <= 4 && PacketsAfter(h, Ordinary, day) <= 4
  {
    assert forall i :: 0 <= i < |h| ==> h[i].at == (i + 1) * HOUR;
    LatestBy(h, k * HOUR);
    assert h[k - 1].at == k * HOUR;
    NoneAfter(h, k * HOUR);
    AtMostOneEach(h, (k + 1) * HOUR - DAY_WINDOW);
  }

  /** A closed circuit and quiet windows admit one more small burn. */
  lemma QuietAdmits(v: View, t: int, envelope: Envelope)
    requires !Open(v.history, v.reader, Ordinary) && |v.history| < MAX_LEDGER_RECORDS && v.bytes < MAX_LEDGER_BYTES
    requires HighWatermark(v.history) <= t && LastBurn(v.history, Ordinary, 0) + MINIMUM_INTERVAL <= t
    requires RebuildAt(v.history) == 0 && BurnsAfter(v.history, Ordinary, t - HOUR) == 0 && envelope.packets == 1
    requires BurnsAfter(v.history, Ordinary, t - DAY_WINDOW) <= 4
      && PacketsAfter(v.history, Ordinary, t - DAY_WINDOW) <= 4
    ensures AdmissionError(v, t, envelope, Ordinary) == None
  {
    assert EffectiveNow(HighWatermark(v.history), t) == Some(t);
  }

  /** One burn an hour is within every budget. */
  lemma HourlyFits(v: View, k: nat)
    requires 1 <= k <= 4 && v.history == Shaky[..k] && v.bytes < MAX_LEDGER_BYTES
    requires !Open(v.history, v.reader, Ordinary)
    ensures HighWatermark(v.history) == k * HOUR
    ensures AdmissionError(v, (k + 1) * HOUR, Ask(k + 1).envelope, Ordinary) == None
  {
    HourlyFacts(v.history, k);
    QuietAdmits(v, (k + 1) * HOUR, Ask(k + 1).envelope);
  }

  lemma FreshNames(k: nat)
    requires 1 <= k <= 4
    ensures !Burned(Shaky[..k], Ask(k + 1).credential) && !AttemptUsed(Shaky[..k], Ask(k + 1).attempt)
  {
    var h := Shaky[..k];
    forall i | 0 <= i < |h| && h[i].body.Burn?
      ensures h[i].body.credential == 10 * (i + 1) && h[i].body.attempt == 10 * (i + 1) + 1
    {
      assert h[i] == Shaky[i];
    }
  }

  /** Nothing refuses a request that passes every check. */
  lemma AdmitGranted(v: View, owner: Id, t: int, q: Request, codec: Codec)
    requires RequestError(q) == None && HighWatermark(v.history) <= t < q.expiresAt
    requires !Burned(v.history, q.credential) && !AttemptUsed(v.history, q.attempt)
    requires AdmissionError(v, t, q.envelope, q.cls) == None
    requires |v.history| + 2 <= MAX_LEDGER_RECORDS && v.bytes + 2 * (4 + MAX_FRAME_BYTES) <= MAX_LEDGER_BYTES
    requires Frame(codec,
      Record(|v.history| + 1, t, Burn(q.cls, q.credential, q.attempt, q.digest, owner, q.expiresAt, q.envelope))).Some?
    ensures Decide(v, owner, Admit(t, q), SizeOf(codec)) ==
            Append(Record(|v.history| + 1, t,
              Burn(q.cls, q.credential, q.attempt, q.digest, owner, q.expiresAt, q.envelope)))
  {
    assert EffectiveNow(HighWatermark(v.history), t) == Some(t);
  }

  lemma AskDecided(v: View, owner: Id, k: nat, codec: Codec)
    requires 1 <= k <= 4 && v.history == Shaky[..k] && !Open(v.history, v.reader, Ordinary)
    requires v.bytes + 2 * (4 + MAX_FRAME_BYTES) <= MAX_LEDGER_BYTES && owner == Shaky[k].body.owner
    requires Frame(codec, Shaky[k]).Some?
    ensures Decide(v, owner, Admit((k + 1) * HOUR, Ask(k + 1)), SizeOf(codec)) == Append(Shaky[k])
  {
    HourlyFits(v, k);
    FreshNames(k);
    var q, t := Ask(k + 1), (k + 1) * HOUR;
    assert Shaky[k] == Record(k + 1, t, Burn(q.cls, q.credential, q.attempt, q.digest, owner, q.expiresAt, q.envelope));
    AdmitGranted(v, owner, t, q, codec);
  }

  lemma FailureDecided(v: View, codec: Codec)
    requires v.history == Shaky[..5] && v.bytes + 4 + MAX_FRAME_BYTES <= MAX_LEDGER_BYTES
      && Frame(codec, Shaky[5]).Some?
    ensures Decide(v, 2, FinishAttempt(6 * HOUR, ReceiptOf(Shaky[3]), CarrierError), SizeOf(codec)) == Append(Shaky[5])
  {
    var h := v.history;
    LatestBy(h, 5 * HOUR);
    assert EffectiveNow(HighWatermark(h), 6 * HOUR) == Some(6 * HOUR);
    assert Matches(h[3], ReceiptOf(Shaky[3]));
    assert !Finished(h, 40);
  }

  // ----- the run ---------------------------------------------------------------------------------

  const WHOLE: nat := 4 + MAX_FRAME_BYTES

  /** One more event after a run without resets. */
  lemma {:induction false} OneMore(codec: Codec, st: Ledger, events: seq<Event>, e: Event)
    requires Legal(codec, st, events) && NoReset(codec, st, events, Ordinary)
    requires Enabled(Run(codec, st, events), e) && !(e.Operate? && e.op.ResetClass?)
    ensures Legal(codec, st, events + [e]) && NoReset(codec, st, events + [e], Ordinary)
    ensures Run(codec, st, events + [e]) == Step(codec, Run(codec, st, events), e)
    decreases |events|
  {
    if events == [] {
      assert events + [e] == [e] && [e][1..] == [];
      assert Legal(codec, Step(codec, st, e), []) && NoReset(codec, Step(codec, st, e), [], Ordinary);
    } else {
      OneMore(codec, Step(codec, st, events[0]), events[1..], e);
      assert (events + [e])[1..] == events[1..] + [e] && (events + [e])[0] == events[0];
    }
  }

  lemma {:induction false} BytesAtMost(codec: Codec, h: History)
    requires Framed(codec, h)
    ensures |Bytes(codec, h)| <= |h| * WHOLE
  {
    if h != [] { BytesAtMost(codec, h[1..]); }
  }

  /** A handful of records leaves plenty of room. */
  lemma FewBytes(codec: Codec, h: History)
    requires Framed(codec, h) && |h| <= 6
    ensures |Bytes(codec, h)| + 2 * WHOLE <= MAX_LEDGER_BYTES
  {
    BytesAtMost(codec, h);
    assert |h| * WHOLE <= 6 * WHOLE;
  }

  /** The run so far, without a reset, has written exactly the records h. */
  ghost predicate Reached(codec: Codec, st: Ledger, events: seq<Event>, h: History, owner: Id, retired: set<Id>) {
    var end := Run(codec, st, events);
    && Legal(codec, st, events) && NoReset(codec, st, events, Ordinary)
    && Holds(codec, end.file, h) && Safe(h, end.parties)
    && end.parties.owner == owner && end.parties.retired == retired
  }

  /** A decided append is carried out. */
  lemma Appends(codec: Codec, st: Ledger, events: seq<Event>, h: History, owner: Id, retired: set<Id>, op: Op,
                r: Record)
    returns (next: seq<Event>)
    requires Sound(codec) && Reached(codec, st, events, h, owner, retired) && !op.ResetClass?
    requires
      var end := Run(codec, st, events);
      && Enabled(end, Operate(op, WHOLE))
      && Decide(View(h, |end.file|, Some(owner)), owner, op, SizeOf(codec)) == Append(r)
    ensures Reached(codec, st, next, h + [r], owner, retired)
  {
    var end, e := Run(codec, st, events), Operate(op, WHOLE);
    next := events + [e];
    OneMore(codec, st, events, e);
    WholeStepHolds(codec, end, h, e, r);
  }

  lemma WholeStepHolds(codec: Codec, st: Ledger, h: History, e: Event, r: Record)
    requires Sound(codec) && Holds(codec, st.file, h) && Safe(h, st.parties) && Enabled(st, e)
    requires e.Operate? && e.written >= WHOLE
    requires Decide(View(h, |st.file|, Some(st.parties.owner)), st.parties.owner, e.op, SizeOf(codec)) == Append(r)
    ensures
      var end := Step(codec, st, e);
      Holds(codec, end.file, h + [r]) && Safe(h + [r], end.parties) && end.parties == AfterAppend(st.parties, r)
  {
    HeldReads(codec, st.file, h);
    WholeAppend(codec, st, h, e);
  }

  lemma AskFits(codec: Codec, file: seq<byte>, k: nat, owner: Id)
    requires 1 <= k <= 4 && Holds(codec, file, Shaky[..k]) && Frame(codec, Shaky[k]).Some?
      && owner == Shaky[k].body.owner
    ensures Decide(View(Shaky[..k], |file|, Some(owner)), owner, Admit((k + 1) * HOUR, Ask(k + 1)), SizeOf(codec)) ==
            Append(Shaky[k])
  {
    StillClosed(k);
    FewBytes(codec, Shaky[..k]);
    AskDecided(View(Shaky[..k], |file|, Some(owner)), owner, k, codec);
  }

  lemma Asks(codec: Codec, st: Ledger, events: seq<Event>, k: nat, owner: Id, retired: set<Id>)
    returns (next: seq<Event>)
    requires Sound(codec) && 1 <= k <= 4 && Reached(codec, st, events, Shaky[..k], owner, retired)
    requires owner == Shaky[k].body.owner && Frame(codec, Shaky[k]).Some?
    ensures Reached(codec, st, next, Shaky[..k + 1], owner, retired)
  {
    var h, r := Shaky[..k], Shaky[k];
    assert Shaky[..k + 1] == h + [r];
    AskFits(codec, Run(codec, st, events).file, k, owner);
    next := Appends(codec, st, events, h, owner, retired, Admit((k + 1) * HOUR, Ask(k + 1)), r);
  }

  lemma FailureFits(codec: Codec, file: seq<byte>, p: Parties)
    requires Holds(codec, file, Shaky[..5]) && Frame(codec, Shaky[5]).Some? && Safe(Shaky[..5], p)
    ensures Decide(View(Shaky[..5], |file|, Some(2)), 2, FinishAttempt(6 * HOUR, ReceiptOf(Shaky[3]), CarrierError),
      SizeOf(codec))
            == Append(Shaky[5])
    ensures ReceiptOf(Shaky[3]) in p.receipts
  {
    FewBytes(codec, Shaky[..5]);
    FailureDecided(View(Shaky[..5], |file|, Some(2)), codec);
    assert ReceiptOf(Shaky[..5][3]) in p.receipts;
  }

  lemma Fails(codec: Codec, st: Ledger, events: seq<Event>) returns (next: seq<Event>)
    requires Sound(codec) && Frame(codec, Shaky[5]).Some? && Reached(codec, st, events, Shaky[..5], 2, {1})
    ensures Reached(codec, st, next, Shaky, 2, {1})
  {
    var end, h, r := Run(codec, st, events), Shaky[..5], Shaky[5];
    assert Shaky == h + [r];
    FailureFits(codec, end.file, end.parties);
    next := Appends(codec, st, events, h, 2, {1}, FinishAttempt(6 * HOUR, ReceiptOf(Shaky[3]), CarrierError), r);
  }

  lemma HandsOver(codec: Codec, st: Ledger, events: seq<Event>, h: History) returns (next: seq<Event>)
    requires Sound(codec) && Reached(codec, st, events, h, 1, {})
    ensures Reached(codec, st, next, h, 2, {1})
  {
    var end := Run(codec, st, events);
    next := events + [Restart(2)];
    OneMore(codec, st, events, Restart(2));
    RestartKeepsSafe(h, end.parties, 2);
  }

  lemma Starts(codec: Codec, st: Ledger)
    requires Sound(codec) && Framed(codec, Shaky) && Created(codec, st, HOUR, false) && st.parties.owner == 1
    ensures Reached(codec, st, [], Shaky[..1], 1, {})
  {
    assert Shaky[..1] == [Shaky[0]] == [] + [Shaky[0]];
    BytesAppend(codec, [], Shaky[0]);
    FirstRecordIsSafe(Shaky[0], st.parties);
  }

  lemma FirstOwner(codec: Codec, st: Ledger) returns (events: seq<Event>)
    requires Sound(codec) && Framed(codec, Shaky) && Created(codec, st, HOUR, false) && st.parties.owner == 1
    ensures Reached(codec, st, events, Shaky[..3], 1, {})
  {
    Starts(codec, st);
    events := Asks(codec, st, [], 1, 1, {});
    events := Asks(codec, st, events, 2, 1, {});
  }

  lemma SecondOwner(codec: Codec, st: Ledger, events: seq<Event>) returns (next: seq<Event>)
    requires Sound(codec) && Framed(codec, Shaky) && Reached(codec, st, events, Shaky[..3], 2, {1})
    ensures Reached(codec, st, next, Shaky, 2, {1})
  {
    next := Asks(codec, st, events, 3, 2, {1});
    next := Asks(codec, st, next, 4, 2, {1});
    next := Fails(codec, st, next);
  }

  lemma ShakyIsOpen()
    ensures Open(Shaky, Some(2), Ordinary) && !Lasting(Shaky, 2)
  {
    ShakyState();
    var a, b, d := Shaky[1], Shaky[2], Shaky[4];
    TwoDead(a, b, [d], Some(2));
    assert [a, b] + [d] == [a, b, d];
    OpenByCounting(Shaky, Some(2), Ordinary);
    assert BurnOf(Shaky[4], Ordinary) && !Finished(Shaky, 50);
  }

  /** The ordinary circuit does not latch in general. From a fresh journal a run of operations and one restart
      opens it, and one more operation, a success of the live owner, closes it, with no reset in between. */
  lemma OrdinaryCircuitCanClose(codec: Codec, st: Ledger) returns (events: seq<Event>, e: Event)
    requires Sound(codec) && FinishesFit(codec, Shaky) && Framed(codec, Shaky)
    requires Created(codec, st, HOUR, false) && st.parties.owner == 1
    ensures Legal(codec, st, events + [e]) && NoReset(codec, st, events + [e], Ordinary)
    ensures
      var open := ReadHistory(codec, Run(codec, st, events).file);
      open.Some? && Open(open.value, Some(2), Ordinary) && Run(codec, st, events).parties.owner == 2
    ensures
      var shut := ReadHistory(codec, Run(codec, st, events + [e]).file);
      shut.Some? && !Open(shut.value, Some(2), Ordinary) && Run(codec, st, events + [e]).parties.owner == 2
  {
    events := FirstOwner(codec, st);
    events := HandsOver(codec, st, events, Shaky[..3]);
    events := SecondOwner(codec, st, events);
    ShakyIsOpen();
    e := LastSuccess(codec, st, events, Shaky);
  }

  /** One more success of the live owner. */
  lemma LastSuccess(codec: Codec, st: Ledger, events: seq<Event>, h: History) returns (e: Event)
    requires Sound(codec) && FinishesFit(codec, h) && Reached(codec, st, events, h, 2, {1})
    requires |h| <= 6 && Open(h, Some(2), Ordinary) && !Lasting(h, 2)
    ensures Legal(codec, st, events + [e]) && NoReset(codec, st, events + [e], Ordinary)
    ensures ReadHistory(codec, Run(codec, st, events).file) == Some(h)
    ensures
      var shut := ReadHistory(codec, Run(codec, st, events + [e]).file);
      shut.Some? && !Open(shut.value, Some(2), Ordinary) && Run(codec, st, events + [e]).parties.owner == 2
  {
    var end := Run(codec, st, events);
    HeldReads(codec, end.file, h);
    FewBytes(codec, h);
    e := SuccessFor(codec, end, h);
    OneMore(codec, st, events, e);
  }

  lemma SuccessFor(codec: Codec, st: Ledger, h: History) returns (e: Event)
    requires Sound(codec) && FinishesFit(codec, h) && Holds(codec, st.file, h) && Safe(h, st.parties)
    requires |h| + 1 <= MAX_LEDGER_RECORDS && |st.file| + WHOLE <= MAX_LEDGER_BYTES
    requires Open(h, Some(st.parties.owner), Ordinary) && !Lasting(h, st.parties.owner)
    ensures Enabled(st, e) && e.Operate? && e.op.FinishAttempt? && Step(codec, st, e).parties.owner == st.parties.owner
    ensures
      var shut := ReadHistory(codec, Step(codec, st, e).file);
      shut.Some? && !Open(shut.value, Some(st.parties.owner), Ordinary)
  {
    e := UnlastingOpeningCloses(codec, st, h);
    OwnerStays(codec, st, e);
  }

  lemma OwnerStays(codec: Codec, st: Ledger, e: Event)
    requires e.Operate?
    ensures Step(codec, st, e).parties.owner == st.parties.owner
  {
  }
}
