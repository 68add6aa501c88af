/** Whole runs of the journal file: successive owners, any wall clock,
    operations of both classes, and appends that may reach the disk in part. */
module LedgerRuns {
  import opened Basics
  import opened PairingRecords
  import opened LedgerHistory
  import opened LedgerPolicy
  import opened LedgerBudgets
  import opened LedgerSafety
  import opened JournalFraming

  datatype Ledger = Ledger(file: seq<byte>, parties: Parties)

  /** `written` is how many bytes of an appended frame reach the disk. */
  datatype Event = Restart(next: Id) | Operate(op: Op, written: nat)

  function ReadHistory(codec: Codec, file: seq<byte>): Option<History> {
    if |file| > MAX_LEDGER_BYTES then None else DecodeJournal(codec, file)
  }

  /** What a reader gets from the file; None is the indeterminate ledger that blocks all work. */
  function ReadView(codec: Codec, file: seq<byte>, reader: Option<Id>): Option<View> {
    match ReadHistory(codec, file)
    case None => None
    case Some(h) => if h != [] && Accepts(h, reader) then Some(View(h, |file|, reader)) else None
  }

  function SizeOf(codec: Codec): FrameSize {
    (r: Record) => match Frame(codec, r) case None => None case Some(f) => Some(|f|)
  }

  /** What an operation of the owner decides on reading the file. */
  function OutcomeOn(codec: Codec, file: seq<byte>, owner: Id, op: Op): Decision {
    match ReadView(codec, file, Some(owner))
    case None => Refuse(Indeterminate)
    case Some(v) => Decide(v, owner, op, SizeOf(codec))
  }

  function Outcome(codec: Codec, st: Ledger, op: Op): Decision {
    OutcomeOn(codec, st.file, st.parties.owner, op)
  }

  /** The file once the decision is carried out and `written` bytes of its frame got through. */
  function FileAfter(codec: Codec, file: seq<byte>, d: Decision, written: nat): seq<byte> {
    if !d.Append? then file
    else
      match Frame(codec, d.record)
      case None => file
      case Some(f) => if written < |f| then file + f[..written] else file + f
  }

  predicate WrittenWhole(codec: Codec, d: Decision, written: nat) {
    d.Append? && Frame(codec, d.record).Some? && written >= |FrameOf(codec, d.record)|
  }

  function Step(codec: Codec, st: Ledger, e: Event): Ledger {
    match e
    case Restart(next) => st.(parties := AfterRestart(st.parties, next))
    case Operate(op, written) =>
      var d := Outcome(codec, st, op);
      Ledger(FileAfter(codec, st.file, d, written),
             if WrittenWhole(codec, d, written) then AfterAppend(st.parties, d.record) else st.parties)
  }

  /** Owner instance identifiers are never reused, and a FINISH presents a receipt that Admit issued. */
  predicate Enabled(st: Ledger, e: Event) {
    match e
    case Restart(next) => next != st.parties.owner && next !in st.parties.retired
    case Operate(op, _) => op.FinishAttempt? ==> op.receipt in st.parties.receipts
  }

  function Run(codec: Codec, st: Ledger, events: seq<Event>): Ledger
    decreases |events|
  {
    if events == [] then st else Run(codec, Step(codec, st, events[0]), events[1..])
  }

  predicate Legal(codec: Codec, st: Ledger, events: seq<Event>)
    decreases |events|
  {
    events == [] || (Enabled(st, events[0]) && Legal(codec, Step(codec, st, events[0]), events[1..]))
  }

  /** A journal as machine setup creates it, or re-creates it after a loss. */
  predicate Created(codec: Codec, st: Ledger, now: int, rebuild: bool) {
    var first := Record(1, now, if rebuild then RebuildBaseline else Initialize);
    Frame(codec, first) == Some(st.file) && st.parties.retired == {} && st.parties.receipts == {}
  }

  // ----- the invariant --------------------------------------------------------------

  ghost predicate Holds(codec: Codec, file: seq<byte>, h: History) {
    Framed(codec, h) && file == Bytes(codec, h) && |h| <= MAX_LEDGER_RECORDS && |file| <= MAX_LEDGER_BYTES
  }

  /** The file ends strictly inside the last frame that was being appended. */
  ghost predicate Torn(codec: Codec, file: seq<byte>) {
    exists h: History, r: Record, k: nat :: TornAt(codec, file, h, r, k)
  }

  ghost predicate TornAt(codec: Codec, file: seq<byte>, h: History, r: Record, k: nat) {
    && Framed(codec, h) && |h| <= MAX_LEDGER_RECORDS && Frame(codec, r).Some?
    && 0 < k < |FrameOf(codec, r)|
    && file == Bytes(codec, h) + FrameOf(codec, r)[..k]
  }

  /** Either the file was torn, or it holds a safe history. */
  ghost predicate Invariant(codec: Codec, st: Ledger) {
    Torn(codec, st.file) ||
    exists h: History :: Holds(codec, st.file, h) && Safe(h, st.parties)
  }

  lemma TornUnreadable(codec: Codec, file: seq<byte>)
    requires Sound(codec) && Torn(codec, file)
    ensures ReadHistory(codec, file).None?
  {
    var h, r, k: nat :| TornAt(codec, file, h, r, k);
    TornTailRejected(codec, h, r, k);
  }

  lemma HeldReads(codec: Codec, file: seq<byte>, h: History)
    requires Sound(codec) && Holds(codec, file, h) && h != []
    ensures ReadHistory(codec, file) == Some(h)
  {
    RoundTrip(codec, h);
  }

  lemma SizeIsHonest(codec: Codec)
    ensures Honest(SizeOf(codec))
  {
    forall r | SizeOf(codec)(r).Some? ensures ValidRecord(r) {
      assert Frame(codec, r).Some?;
    }
  }

  /** An operation that decides to append has room for the whole frame. */
  lemma RoomForFrame(v: View, p: Parties, op: Op, codec: Codec)
    requires Decide(v, p.owner, op, SizeOf(codec)).Append?
    ensures
      var r := Decide(v, p.owner, op, SizeOf(codec)).record;
      && Frame(codec, r).Some?
      && |v.history| + 1 <= MAX_LEDGER_RECORDS
      && v.bytes + |FrameOf(codec, r)| <= MAX_LEDGER_BYTES
  {
    var r := Decide(v, p.owner, op, SizeOf(codec)).record;
    assert SizeOf(codec)(r).Some?;
  }

  /** One step keeps the history, extends it by the decided record, or tears the file. */
  lemma StepSafe(codec: Codec, st: Ledger, h: History, e: Event) returns (h': History)
    requires Sound(codec) && Holds(codec, st.file, h) && Safe(h, st.parties) && Enabled(st, e)
    ensures
      var st' := Step(codec, st, e);
      || (Torn(codec, st'.file) && st'.parties == st.parties)
      || (Holds(codec, st'.file, h') && Safe(h', st'.parties))
    ensures h' == h || (e.Operate? && Outcome(codec, st, e.op).Append? && h' == h + [Outcome(codec, st, e.op).record])
    ensures e.Restart? || e.written >= 4 + MAX_FRAME_BYTES ==>
      Holds(codec, Step(codec, st, e).file, h') && Safe(h', Step(codec, st, e).parties)
    ensures e.Operate? ==>
      Outcome(codec, st, e.op) ==
        Decide(View(h, |st.file|, Some(st.parties.owner)), st.parties.owner, e.op, SizeOf(codec))
    ensures h' == h ==> Step(codec, st, e).parties == if e.Restart? then AfterRestart(st.parties, e.next)
      else st.parties
    ensures h' != h ==> Step(codec, st, e).parties == AfterAppend(st.parties, Outcome(codec, st, e.op).record)
    ensures h' != h ==> WrittenWhole(codec, Outcome(codec, st, e.op), e.written)
  {
    h' := h;
    HeldReads(codec, st.file, h);
    match e
    case Restart(next) =>
      RestartKeepsSafe(h, st.parties, next);
    case Operate(op, written) =>
      if Outcome(codec, st, op).Append? { h' := AppendStep(codec, st, h, e); }
  }

  /** An append reaches the file whole, in part or not at all. */
  lemma AppendStep(codec: Codec, st: Ledger, h: History, e: Event) returns (h': History)
    requires Sound(codec) && Holds(codec, st.file, h) && Safe(h, st.parties) && Enabled(st, e) && e.Operate?
    requires Outcome(codec, st, e.op).Append? && Outcome(codec, st, e.op) ==
      Decide(View(h, |st.file|, Some(st.parties.owner)), st.parties.owner, e.op, SizeOf(codec))
    ensures
      var st', r := Step(codec, st, e), Outcome(codec, st, e.op).record;
      if WrittenWhole(codec, Append(r), e.written) then
        && h' == h + [r] && Holds(codec, st'.file, h') && Safe(h', st'.parties)
        && st'.parties == AfterAppend(st.parties, r)
      else
        && h' == h && st'.parties == st.parties && e.written < 4 + MAX_FRAME_BYTES
        && (Torn(codec, st'.file) || st'.file == st.file)
  {
    var r := Outcome(codec, st, e.op).record;
    h' := h;
    WholeAppend(codec, st, h, e);
    if e.written >= |FrameOf(codec, r)| {
      h' := h + [r];
    } else if e.written > 0 {
      assert TornAt(codec, Step(codec, st, e).file, h, r, e.written);
    } else {
      assert st.file + FrameOf(codec, r)[..0] == st.file;
    }
  }

  /** A frame that reaches the file whole extends the safe history by the decided record. */
  lemma WholeAppend(codec: Codec, st: Ledger, h: History, e: Event)
    requires Sound(codec) && Holds(codec, st.file, h) && Safe(h, st.parties) && Enabled(st, e) && e.Operate?
    requires Decide(View(h, |st.file|, Some(st.parties.owner)), st.parties.owner, e.op, SizeOf(codec)).Append?
    ensures
      var r := Decide(View(h, |st.file|, Some(st.parties.owner)), st.parties.owner, e.op, SizeOf(codec)).record;
      && Frame(codec, r).Some? && Holds(codec, st.file + FrameOf(codec, r), h + [r])
      && Safe(h + [r], AfterAppend(st.parties, r))
  {
    var v := View(h, |st.file|, Some(st.parties.owner));
    var r := Decide(v, st.parties.owner, e.op, SizeOf(codec)).record;
    SizeIsHonest(codec);
    RoomForFrame(v, st.parties, e.op, codec);
    AppendKeepsSafe(v, st.parties, e.op, SizeOf(codec));
    BytesAppend(codec, h, r);
  }

  lemma TornStays(codec: Codec, st: Ledger, e: Event)
    requires Sound(codec) && Torn(codec, st.file)
    ensures Step(codec, st, e).file == st.file
    ensures e.Operate? ==> Outcome(codec, st, e.op) == Refuse(Indeterminate)
  {
    TornUnreadable(codec, st.file);
  }

  lemma {:induction false} RunKeepsInvariant(codec: Codec, st: Ledger, events: seq<Event>)
    requires Sound(codec) && Invariant(codec, st) && Legal(codec, st, events)
    ensures Invariant(codec, Run(codec, st, events))
    decreases |events|
  {
    if events != [] {
      var e := events[0];
      if Torn(codec, st.file) {
        TornStays(codec, st, e);
      } else {
        var h: History :| Holds(codec, st.file, h) && Safe(h, st.parties);
        var h' := StepSafe(codec, st, h, e);
      }
      RunKeepsInvariant(codec, Step(codec, st, e), events[1..]);
    }
  }

  lemma FirstRecordIsSafe(first: Record, p: Parties)
    requires ValidRecord(first) && first.sequence == 1
    requires first.body.Initialize? || first.body.RebuildBaseline?
    requires p.retired == {} && p.receipts == {}
    ensures Safe([first], p)
  {
    var h := [first];
    assert DropLast(h) == [] && Last(h) == first;
    forall reader ensures Accepts(h, reader) {
      assert Accepts(DropLast(h), reader) && Follows([], reader, first);
    }
    FirstRecordKeepsBudgets(first);
  }

  lemma CreatedIsSafe(codec: Codec, st: Ledger, now: int, rebuild: bool)
    requires Created(codec, st, now, rebuild)
    ensures Invariant(codec, st)
  {
    var first := Record(1, now, if rebuild then RebuildBaseline else Initialize);
    FirstRecordIsSafe(first, st.parties);
    BytesAppend(codec, [], first);
    assert [] + [first] == [first] && Bytes(codec, []) == [];
    assert Holds(codec, st.file, [first]);
  }

  // ----- theorems ---------------------------------------------------------------------

  /** Replay closure: after any run the journal is either torn, and then blocks all later work,
      or it replays for its writer, for the inspector, and for every owner still to come. */
  lemma ReplayClosure(codec: Codec, st: Ledger, now: int, rebuild: bool, events: seq<Event>)
    requires Sound(codec) && Created(codec, st, now, rebuild) && Legal(codec, st, events)
    ensures
      var end := Run(codec, st, events);
      var p := end.parties;
      match ReadHistory(codec, end.file)
      case None => Torn(codec, end.file)
      case Some(h) =>
        && Accepts(h, Some(p.owner)) && Accepts(h, None)
        && forall next: Id :: next != p.owner && next !in p.retired ==> Accepts(h, Some(next))
  {
    CreatedIsSafe(codec, st, now, rebuild);
    RunKeepsInvariant(codec, st, events);
    var end := Run(codec, st, events);
    if Torn(codec, end.file) {
      TornUnreadable(codec, end.file);
    } else {
      var h: History :| Holds(codec, end.file, h) && Safe(h, end.parties);
      HeldReads(codec, end.file, h);
      forall next: Id | next != end.parties.owner && next !in end.parties.retired ensures Accepts(h, Some(next)) {
        RestartKeepsSafe(h, end.parties, next);
      }
    }
  }

  /** Rolling budgets: whatever the clocks, restarts, resets and failures, every readable journal is within every
      window. */
  lemma BudgetsHoldForever(codec: Codec, st: Ledger, now: int, rebuild: bool, events: seq<Event>)
    requires Sound(codec) && Created(codec, st, now, rebuild) && Legal(codec, st, events)
    ensures
      var read := ReadHistory(codec, Run(codec, st, events).file);
      read.Some? ==> WithinBudgets(read.value)
  {
    CreatedIsSafe(codec, st, now, rebuild);
    RunKeepsInvariant(codec, st, events);
    var end := Run(codec, st, events);
    if Torn(codec, end.file) {
      TornUnreadable(codec, end.file);
    } else {
      var h: History :| Holds(codec, end.file, h) && Safe(h, end.parties);
      HeldReads(codec, end.file, h);
    }
  }

  predicate WholeAppends(events: seq<Event>) {
    forall i :: 0 <= i < |events| && events[i].Operate? ==> events[i].written >= 4 + MAX_FRAME_BYTES
  }

  /** The journal never becomes unreadable while every append reaches the disk whole. */
  lemma {:induction false} ReadableWithoutTears(codec: Codec, st: Ledger, h: History, events: seq<Event>)
    returns (h': History)
    requires Sound(codec) && Holds(codec, st.file, h) && Safe(h, st.parties)
    requires Legal(codec, st, events) && WholeAppends(events)
    ensures ReadHistory(codec, Run(codec, st, events).file) == Some(h') && h <= h'
    decreases |events|
  {
    if events == [] {
      h' := h;
      HeldReads(codec, st.file, h);
    } else {
      var h1 := StepSafe(codec, st, h, events[0]);
      h' := ReadableWithoutTears(codec, Step(codec, st, events[0]), h1, events[1..]);
    }
  }

  /** Admit leaves room for its own FINISH, whatever the reason it will carry: directly after it, in any journal,
      FINISH is never refused for its record count or its bytes. */
  lemma AdmitReservesFinish(v: View, p: Parties, clock: int, q: Request, reason: Reason, later: int, codec: Codec)
    requires Decide(v, p.owner, Admit(clock, q), SizeOf(codec)).Append?
    ensures
      var r := Decide(v, p.owner, Admit(clock, q), SizeOf(codec)).record;
      && Frame(codec, r).Some?
      && Decide(View(v.history + [r], v.bytes + |FrameOf(codec, r)|, v.reader), p.owner,
                FinishAttempt(later, ReceiptOf(r), reason), SizeOf(codec)) != Refuse(Capacity)
  {
    RoomForFrame(v, p, Admit(clock, q), codec);
  }
}
