/** What every operation keeps true of the record list. */
module LedgerSafety {
  import opened Basics
  import opened PairingRecords
  import opened LedgerHistory
  import opened LedgerPolicy
  import opened LedgerBudgets

  /** The live owner, the owners before it, and the receipts handed out so far. */
  datatype Parties = Parties(owner: Id, retired: set<Id>, receipts: set<Receipt>)

  datatype Op =
    | Admit(clock: int, request: Request)
    | FinishAttempt(clock: int, receipt: Receipt, reason: Reason)
    | ResetClass(cls: RecordClass, clock: int, expected: nat, noteValid: bool)

  function Decide(v: View, owner: Id, op: Op, size: FrameSize): Decision {
    match op
    case Admit(clock, request) => DecideAdmit(v, owner, clock, request, size)
    case FinishAttempt(clock, receipt, reason) => DecideFinish(v, owner, clock, receipt, reason, size)
    case ResetClass(cls, clock, expected, noteValid) => DecideReset(v, cls, clock, expected, noteValid, size)
  }

  function ReceiptOf(r: Record): Receipt
    requires r.body.Burn?
  {
    Receipt(r.sequence, r.body.cls, r.body.credential, r.body.attempt, r.body.digest, r.body.owner)
  }

  /** The parties once r has been appended in full. */
  function AfterAppend(p: Parties, r: Record): Parties {
    if r.body.Burn? then p.(receipts := p.receipts + {ReceiptOf(r)}) else p
  }

  function AfterRestart(p: Parties, next: Id): Parties {
    p.(owner := next, retired := p.retired + {p.owner})
  }

  // ----- the invariant ------------------------------------------------------------

  ghost predicate AllValid(h: History) {
    forall i :: 0 <= i < |h| ==> ValidRecord(h[i])
  }

  ghost predicate OwnersKnown(h: History, p: Parties) {
    forall i :: 0 <= i < |h| && h[i].body.Burn? ==> h[i].body.owner == p.owner || h[i].body.owner in p.retired
  }

  ghost predicate PositiveAfterFirst(h: History) {
    forall i :: 1 <= i < |h| ==> h[i].at > 0
  }

  /** The receipt belongs to a burn of h. */
  ghost predicate Backed(h: History, receipt: Receipt) {
    exists i :: 0 <= i < |h| && h[i].body.Burn? && ReceiptOf(h[i]) == receipt
  }

  ghost predicate ReceiptsMatch(h: History, p: Parties) {
    && (forall i :: 0 <= i < |h| && h[i].body.Burn? ==> ReceiptOf(h[i]) in p.receipts)
    && (forall receipt :: receipt in p.receipts ==> Backed(h, receipt))
  }

  ghost predicate Safe(h: History, p: Parties) {
    && h != [] && AllValid(h) && PositiveAfterFirst(h)
    && Accepts(h, None) && Accepts(h, Some(p.owner))
    && p.owner !in p.retired && OwnersKnown(h, p) && ReceiptsMatch(h, p)
    && WithinBudgets(h)
  }

  lemma {:induction false} FirstRecord(h: History, reader: Option<Id>)
    requires h != [] && Accepts(h, reader)
    ensures h[0].body.Initialize? || h[0].body.RebuildBaseline?
    ensures forall i :: 1 <= i < |h| ==> !h[i].body.Initialize? && !h[i].body.RebuildBaseline?
  {
    if |h| > 1 { FirstRecord(DropLast(h), reader); }
  }

  lemma SafeFacts(h: History, p: Parties)
    requires Safe(h, p)
    ensures TimesNonzero(h) && Sorted(h) && PacketsNonnegative(h)
    ensures forall i :: 0 <= i < |h| && h[i].body.Burn? ==> h[i].at > 0
    ensures Last(h).at <= HighWatermark(h)
  {
    AcceptedIsSorted(h, None);
    FirstRecord(h, None);
  }

  /** Encoding succeeds only for records the decoder will take back. */
  ghost predicate Honest(size: FrameSize) {
    forall r :: size(r).Some? ==> ValidRecord(r)
  }

  // ----- what each operation appends ----------------------------------------------

  lemma AdmitFollows(v: View, p: Parties, clock: int, q: Request, size: FrameSize)
    requires Safe(v.history, p) && v.reader == Some(p.owner) && Honest(size)
    requires DecideAdmit(v, p.owner, clock, q, size).Append?
    ensures
      var r := DecideAdmit(v, p.owner, clock, q, size).record;
      && Follows(v.history, None, r) && Follows(v.history, v.reader, r)
      && ValidRecord(r) && r.at > 0
      && r.body.Burn? && r.body.owner == p.owner && r.body.cls == q.cls
      && Affordable(v.history, r)
      && !Open(v.history, v.reader, Ordinary) && !Open(v.history, v.reader, q.cls)
  {
    SafeFacts(v.history, p);
    AdmittedBurn(v, p.owner, clock, q, size);
  }

  lemma ReceiptAnswers(h: History, p: Parties, receipt: Receipt, reason: Reason)
    requires ReceiptsMatch(h, p) && receipt in p.receipts
    ensures Answers(h, Finish(receipt.cls, receipt.credential, receipt.attempt, reason))
  {
    assert Backed(h, receipt);
    var i :| 0 <= i < |h| && h[i].body.Burn? && ReceiptOf(h[i]) == receipt;
    assert IsBurn(h[i], receipt.credential);
  }

  lemma FinishFollows(v: View, p: Parties, clock: int, receipt: Receipt, reason: Reason, size: FrameSize)
    requires Safe(v.history, p) && v.reader == Some(p.owner) && Honest(size)
    requires receipt in p.receipts
    requires DecideFinish(v, p.owner, clock, receipt, reason, size).Append?
    ensures
      var r := DecideFinish(v, p.owner, clock, receipt, reason, size).record;
      && Follows(v.history, None, r) && Follows(v.history, v.reader, r)
      && ValidRecord(r) && r.at > 0
      && r.body == Finish(receipt.cls, receipt.credential, receipt.attempt, reason)
      && receipt.owner == p.owner
  {
    var h := v.history;
    SafeFacts(h, p);
    var r := DecideFinish(v, p.owner, clock, receipt, reason, size).record;
    assert size(r).Some? && r.sequence == |h| + 1 && Last(h).at <= r.at && !Finished(h, receipt.credential);
    assert Answers(h, r.body) by { ReceiptAnswers(h, p, receipt, reason); }
  }

  lemma ResetFollows(v: View, p: Parties, cls: RecordClass, clock: int, expected: nat, noteValid: bool, size: FrameSize)
    requires Safe(v.history, p) && v.reader == Some(p.owner) && Honest(size)
    requires DecideReset(v, cls, clock, expected, noteValid, size).Append?
    ensures
      var r := DecideReset(v, cls, clock, expected, noteValid, size).record;
      && Follows(v.history, None, r) && Follows(v.history, v.reader, r)
      && ValidRecord(r) && r.at > 0
      && r.body == Reset(cls)
  {
    var h := v.history;
    SafeFacts(h, p);
    var t := EffectiveNow(HighWatermark(h), clock).value;
    assert EffectiveNow(HighWatermark(h), t) == Some(t);
    assert ResetAllowed(h, v.reader, cls, t);
    InspectorOpensFirst(h, v.reader, cls);
    assert ResetAllowed(h, None, cls, t);
  }

  /** The record an operation appends may follow for the inspector and for the live owner alike. */
  lemma AppendedFollows(v: View, p: Parties, op: Op, size: FrameSize)
    requires Safe(v.history, p) && v.reader == Some(p.owner) && Honest(size)
    requires op.FinishAttempt? ==> op.receipt in p.receipts
    requires Decide(v, p.owner, op, size).Append?
    ensures
      var r := Decide(v, p.owner, op, size).record;
      && Follows(v.history, None, r) && Follows(v.history, v.reader, r)
      && ValidRecord(r) && r.at > 0
      && (r.body.Burn? ==> r.body.owner == p.owner && Affordable(v.history, r))
      && (r.body.Burn? || r.body.Finish? || r.body.Reset?)
  {
    match op
    case Admit(clock, q) => AdmitFollows(v, p, clock, q, size);
    case FinishAttempt(clock, receipt, reason) => FinishFollows(v, p, clock, receipt, reason, size);
    case ResetClass(cls, clock, expected, noteValid) => ResetFollows(v, p, cls, clock, expected, noteValid, size);
  }

  lemma ReceiptsAfterAppend(h: History, p: Parties, r: Record)
    requires ReceiptsMatch(h, p)
    ensures ReceiptsMatch(h + [r], AfterAppend(p, r))
  {
    var h', p' := h + [r], AfterAppend(p, r);
    forall receipt | receipt in p'.receipts ensures Backed(h', receipt) {
      if receipt in p.receipts {
        var i :| 0 <= i < |h| && h[i].body.Burn? && ReceiptOf(h[i]) == receipt;
        assert h'[i] == h[i];
      } else {
        assert h'[|h|] == r;
      }
    }
  }

  lemma AcceptsOneMore(h: History, reader: Option<Id>, r: Record)
    requires Accepts(h, reader) && Follows(h, reader, r)
    ensures Accepts(h + [r], reader)
  {
    assert DropLast(h + [r]) == h && Last(h + [r]) == r;
  }

  /** A valid record that may follow keeps the history safe. */
  lemma OneMoreIsSafe(h: History, p: Parties, r: Record)
    requires Safe(h, p) && ValidRecord(r) && r.at > 0 && (r.body.Burn? || r.body.Finish? || r.body.Reset?)
    requires Follows(h, None, r) && Follows(h, Some(p.owner), r)
    requires r.body.Burn? ==> r.body.owner == p.owner && Affordable(h, r)
    requires TimesNonzero(h) && Sorted(h) && PacketsNonnegative(h)
    ensures Safe(h + [r], AfterAppend(p, r))
  {
    OneMoreKeepsBudgets(h, r);
    ReceiptsAfterAppend(h, p, r);
    PartiesAfterAppend(h, p, r);
    AcceptsOneMore(h, None, r);
    AcceptsOneMore(h, Some(p.owner), r);
  }

  lemma OneMoreKeepsBudgets(h: History, r: Record)
    requires h != [] && WithinBudgets(h) && PacketsNonnegative(h)
    requires if r.body.Burn? then Affordable(h, r) else r.body.Finish? || r.body.Reset?
    ensures WithinBudgets(h + [r])
  {
    if r.body.Burn? { BurnKeepsBudgets(h, r); } else { OtherRecordKeepsBudgets(h, r); }
  }

  lemma PartiesAfterAppend(h: History, p: Parties, r: Record)
    requires h != [] && AllValid(h) && PositiveAfterFirst(h) && OwnersKnown(h, p)
    requires ValidRecord(r) && r.at > 0 && (r.body.Burn? ==> r.body.owner == p.owner)
    ensures
      var h', p' := h + [r], AfterAppend(p, r);
      && AllValid(h') && PositiveAfterFirst(h') && OwnersKnown(h', p')
      && p'.owner == p.owner && p'.retired == p.retired
  {
  }

  /** Appending the decided record keeps the history safe. */
  lemma AppendKeepsSafe(v: View, p: Parties, op: Op, size: FrameSize)
    requires Safe(v.history, p) && v.reader == Some(p.owner) && Honest(size)
    requires op.FinishAttempt? ==> op.receipt in p.receipts
    requires Decide(v, p.owner, op, size).Append?
    ensures
      var r := Decide(v, p.owner, op, size).record;
      Safe(v.history + [r], AfterAppend(p, r))
  {
    var h, r := v.history, Decide(v, p.owner, op, size).record;
    AppendedFollows(v, p, op, size);
    SafeFacts(h, p);
    OneMoreIsSafe(h, p, r);
  }

  /** A fresh owner takes over a history it can replay. */
  lemma RestartKeepsSafe(h: History, p: Parties, next: Id)
    requires Safe(h, p) && next != p.owner && next !in p.retired
    ensures Safe(h, AfterRestart(p, next))
    ensures Foreign(h, Some(next))
  {
    assert Foreign(h, Some(next));
    ForeignReaderAgrees(h, Some(next));
  }
}
