/** Exactly when the ledger admits, and what its counters count. */
module LedgerExact {
  import opened Basics
  import opened PairingRecords
  import opened LedgerHistory
  import opened LedgerPolicy
  import opened LedgerBudgets
  import opened LedgerSafety

  // ----- the counters are counts -----------------------------------------------------

  /** Where the burns of the class recorded after `cutoff` and not after `until` stand. */
  ghost function Positions(h: History, cls: RecordClass, cutoff: int, until: int): set<int> {
    set i | 0 <= i < |h| && BurnOf(h[i], cls) && cutoff < h[i].at <= until
  }

  /** The packets of the burns at these places. */
  ghost function PacketsAt(h: History, places: set<int>, n: nat): int
    requires n <= |h| && forall i :: i in places && 0 <= i < n ==> h[i].body.Burn?
  {
    if n == 0 then 0 else PacketsAt(h, places, n - 1) + if n - 1 in places then h[n - 1].body.envelope.packets else 0
  }

  lemma {:induction false} PacketsOfPrefix(h: History, places: set<int>, shorter: set<int>, n: nat)
    requires n < |h| && forall i :: i in places && 0 <= i < |h| ==> h[i].body.Burn?
    requires forall i :: 0 <= i < n ==> (i in places <==> i in shorter)
    ensures PacketsAt(h, places, n) == PacketsAt(DropLast(h), shorter, n)
  {
    if n > 0 { PacketsOfPrefix(h, places, shorter, n - 1); }
  }

  lemma PositionsGrow(h: History, cls: RecordClass, cutoff: int, until: int)
    requires h != []
    ensures
      var n, last := |h| - 1, Last(h);
      var before := Positions(DropLast(h), cls, cutoff, until);
      && n !in before
      && Positions(h, cls, cutoff, until) ==
         if BurnOf(last, cls) && cutoff < last.at <= until then before + {n} else before
  {
    var g := DropLast(h);
    assert forall i :: 0 <= i < |g| ==> g[i] == h[i];
  }

  /** A counter of the window ending at `t` is the number of burns of its class recorded in that window, and the
      packet sum adds up exactly their packets. */
  lemma {:induction false} WindowCounts(h: History, cls: RecordClass, window: int, t: int)
    ensures BurnsIn(h, cls, window, t) == |Positions(h, cls, t - window, t)|
    ensures PacketsIn(h, cls, window, t) == PacketsAt(h, Positions(h, cls, t - window, t), |h|)
  {
    if h != [] {
      WindowCounts(DropLast(h), cls, window, t);
      PositionsGrow(h, cls, t - window, t);
      PacketsOfPrefix(h, Positions(h, cls, t - window, t), Positions(DropLast(h), cls, t - window, t), |h| - 1);
    }
  }

  /** At a time no record is later than, what was recorded after the start of the window lies in the window. */
  lemma {:induction false} TailIsWindow(h: History, cls: RecordClass, window: int, t: int)
    requires forall i :: 0 <= i < |h| ==> h[i].at <= t
    ensures BurnsAfter(h, cls, t - window) == BurnsIn(h, cls, window, t)
    ensures PacketsAfter(h, cls, t - window) == PacketsIn(h, cls, window, t)
  {
    if h != [] { TailIsWindow(DropLast(h), cls, window, t); }
  }

  /** So the counters of the policy count the burns of their class, and no others. */
  lemma AdmissionsCounted(h: History, cls: RecordClass, window: int, t: int)
    requires forall i :: 0 <= i < |h| ==> h[i].at <= t
    ensures BurnsAfter(h, cls, t - window) == |Positions(h, cls, t - window, t)|
    ensures PacketsAfter(h, cls, t - window) == PacketsAt(h, Positions(h, cls, t - window, t), |h|)
  {
    TailIsWindow(h, cls, window, t);
    WindowCounts(h, cls, window, t);
  }

  // ----- the exact admission law ------------------------------------------------------

  lemma LastWindow(h: History, r: Record, cls: RecordClass, window: int)
    requires HighWatermark(h) <= r.at && BurnOf(r, cls) && window > 0
    ensures BurnsIn(h + [r], cls, window, r.at) == BurnsAfter(h, cls, r.at - window) + 1
    ensures PacketsIn(h + [r], cls, window, r.at) ==
      PacketsAfter(h, cls, r.at - window) + r.body.envelope.packets
  {
    assert DropLast(h + [r]) == h && Last(h + [r]) == r;
    TailIsWindow(h, cls, window, r.at);
  }

  lemma SpacedFromLast(h: History, r: Record)
    requires WithinBudgets(h + [r]) && BurnOf(r, Ordinary)
    ensures forall i :: 0 <= i < |h| && BurnOf(h[i], Ordinary) ==> h[i].at + MINIMUM_INTERVAL <= r.at
  {
    var h' := h + [r];
    forall i | 0 <= i < |h| && BurnOf(h[i], Ordinary) ensures h[i].at + MINIMUM_INTERVAL <= r.at {
      assert BurnOf(h'[i], Ordinary) && BurnOf(h'[|h|], Ordinary);
    }
  }

  lemma QuarantineOver(h: History, r: Record)
    requires h != [] && r.body.Burn? && WithinBudgets(h + [r])
    ensures RebuildAt(h) != 0 ==> RebuildAt(h) + DAY_WINDOW <= r.at
  {
    var h' := h + [r];
    assert h'[0] == h[0] && h'[|h|] == r;
  }

  lemma WithinIsAffordable(h: History, r: Record)
    requires h != [] && r.body.Burn? && HighWatermark(h) <= r.at && WithinBudgets(h + [r])
    ensures Affordable(h, r)
  {
    QuarantineOver(h, r);
    if r.body.cls.Ordinary? {
      LastWindow(h, r, Ordinary, HOUR);
      LastWindow(h, r, Ordinary, DAY_WINDOW);
      SpacedFromLast(h, r);
    } else {
      LastWindow(h, r, Campaign, DAY_WINDOW);
    }
  }

  /** A burn is affordable exactly when every budget still holds with it. */
  lemma AffordableIsWithin(h: History, p: Parties, r: Record)
    requires Safe(h, p) && r.body.Burn? && HighWatermark(h) <= r.at
    ensures Affordable(h, r) <==> WithinBudgets(h + [r])
  {
    SafeFacts(h, p);
    if WithinBudgets(h + [r]) { WithinIsAffordable(h, r); } else if Affordable(h, r) { BurnKeepsBudgets(h, r); }
  }

  lemma {:induction false} NoBurnsNoPackets(h: History, cls: RecordClass, cutoff: int)
    requires BurnsAfter(h, cls, cutoff) == 0
    ensures PacketsAfter(h, cls, cutoff) == 0
  {
    if h != [] { NoBurnsNoPackets(DropLast(h), cls, cutoff); }
  }

  /** The burn a request asks for. */
  function Asked(v: View, owner: Id, t: int, q: Request): Record {
    Record(|v.history| + 1, t, Burn(q.cls, q.credential, q.attempt, q.digest, owner, q.expiresAt, q.envelope))
  }

  /** With the circuits closed and the journal not full, only the budgets decide. */
  lemma OrdinaryDenied(v: View, owner: Id, t: int, q: Request)
    requires HighWatermark(v.history) <= t && q.cls.Ordinary?
    requires forall i :: 0 <= i < |v.history| && BurnOf(v.history[i], Ordinary) ==> v.history[i].at > 0
    requires !Open(v.history, v.reader, Ordinary) && !Full(v)
    ensures AdmissionError(v, t, q.envelope, Ordinary) ==
      if Affordable(v.history, Asked(v, owner, t, q)) then None else Some(RateLimited)
  {
    LastBurnIsReached(v.history, Ordinary, RebuildAt(v.history));
    assert EffectiveNow(HighWatermark(v.history), t) == Some(t);
  }

  lemma CampaignDenied(v: View, owner: Id, t: int, q: Request)
    requires HighWatermark(v.history) <= t && q.cls.Campaign? && q.envelope == CampaignEnvelope
    requires !Open(v.history, v.reader, Ordinary) && !Open(v.history, v.reader, Campaign) && !Full(v)
    ensures AdmissionError(v, t, q.envelope, Campaign) ==
      if Affordable(v.history, Asked(v, owner, t, q)) then None else Some(CampaignRateLimited)
  {
    assert EffectiveNow(HighWatermark(v.history), t) == Some(t);
    var cutoff := t - DAY_WINDOW;
    if BurnsAfter(v.history, Campaign, cutoff) == 0 { NoBurnsNoPackets(v.history, Campaign, cutoff); }
  }

  /** What the circuits and the size of the journal say, before any budget is looked at. */
  function Shut(v: View, cls: RecordClass): Option<LedgerError> {
    var ordinary := Open(v.history, v.reader, Ordinary);
    if cls.Campaign? && Open(v.history, v.reader, Campaign) then
      Some(if ordinary then CircuitOpen else CampaignCircuitOpen)
    else if ordinary then Some(CircuitOpen)
    else if Full(v) then Some(Capacity)
    else None
  }

  lemma ShutDenied(v: View, t: int, envelope: Envelope, cls: RecordClass)
    requires HighWatermark(v.history) <= t && Shut(v, cls).Some?
    ensures AdmissionError(v, t, envelope, cls) == Shut(v, cls)
  {
    assert EffectiveNow(HighWatermark(v.history), t) == Some(t);
  }

  /** The verdict on an admission by the promises of the ledger alone: no window, counter or interval is named, only
      that the budgets hold for all time with the burn in the journal. */
  ghost function Verdict(v: View, owner: Id, clock: int, q: Request, size: FrameSize): Decision {
    var h, t := v.history, Max(HighWatermark(v.history), clock);
    var r := Asked(v, owner, t, q);
    if RequestError(q).Some? then Refuse(RequestError(q).value)
    else if clock + ROLLBACK_SKEW < HighWatermark(h) then Refuse(ClockRollback)
    else if t >= q.expiresAt then Refuse(InvalidRequest)
    else if Burned(h, q.credential) then Refuse(CredentialUsed)
    else if AttemptUsed(h, q.attempt) then Refuse(InvalidRequest)
    else if Shut(v, q.cls).Some? then Refuse(Shut(v, q.cls).value)
    else if !WithinBudgets(h + [r]) then Refuse(if q.cls.Campaign? then CampaignRateLimited else RateLimited)
    else if size(r).None? then Refuse(EncodeFailed)
    else if |h| + 2 > MAX_LEDGER_RECORDS || v.bytes + size(r).value + 4 + MAX_FRAME_BYTES > MAX_LEDGER_BYTES
    then Refuse(Capacity)
    else Append(r)
  }

  lemma BudgetsDecide(v: View, p: Parties, t: int, q: Request)
    requires Safe(v.history, p) && HighWatermark(v.history) <= t && RequestError(q).None? && Shut(v, q.cls).None?
    ensures AdmissionError(v, t, q.envelope, q.cls) ==
      if WithinBudgets(v.history + [Asked(v, p.owner, t, q)]) then None
      else Some(if q.cls.Campaign? then CampaignRateLimited else RateLimited)
  {
    SafeFacts(v.history, p);
    AffordableIsWithin(v.history, p, Asked(v, p.owner, t, q));
    if q.cls.Ordinary? { OrdinaryDenied(v, p.owner, t, q); } else { CampaignDenied(v, p.owner, t, q); }
  }

  /** The request is in order: what is left to look at are the circuits, the budgets and the room. */
  predicate InOrder(h: History, clock: int, q: Request) {
    && RequestError(q).None? && clock + ROLLBACK_SKEW >= HighWatermark(h)
    && Max(HighWatermark(h), clock) < q.expiresAt && !Burned(h, q.credential) && !AttemptUsed(h, q.attempt)
  }

  lemma OutOfOrder(v: View, owner: Id, clock: int, q: Request, size: FrameSize)
    requires !InOrder(v.history, clock, q)
    ensures DecideAdmit(v, owner, clock, q, size) == Verdict(v, owner, clock, q, size)
  {
  }

  lemma DenialDecides(v: View, owner: Id, clock: int, q: Request, size: FrameSize)
    requires InOrder(v.history, clock, q)
    ensures
      var t := Max(HighWatermark(v.history), clock);
      DecideAdmit(v, owner, clock, q, size) ==
        EnterBurn(v, Asked(v, owner, t, q), AdmissionError(v, t, q.envelope, q.cls), size)
  {
  }

  /** Admit does exactly that: it refuses nothing the promises allow and admits nothing they forbid. */
  lemma AdmissionLaw(v: View, p: Parties, clock: int, q: Request, size: FrameSize)
    requires Safe(v.history, p)
    ensures DecideAdmit(v, p.owner, clock, q, size) == Verdict(v, p.owner, clock, q, size)
  {
    if InOrder(v.history, clock, q) {
      var t := Max(HighWatermark(v.history), clock);
      if Shut(v, q.cls).Some? { ShutDenied(v, t, q.envelope, q.cls); } else { BudgetsDecide(v, p, t, q); }
      DenialDecides(v, p.owner, clock, q, size);
    } else {
      OutOfOrder(v, p.owner, clock, q, size);
    }
  }

  // ----- what may be asked for --------------------------------------------------------------

  /** The ceilings of one ordinary attempt, and the one envelope of a campaign. */
  predicate WithinCeilings(cls: RecordClass, e: Envelope) {
    if cls.Campaign? then e == Envelope(16, 16_400, 512, 16_432, 16_400, 47_000, true)
    else
      && 0 <= e.sockets <= 128 && 0 <= e.targets <= 516 && 0 <= e.packetsPerSecond <= 64
      && 0 < e.packets <= 526 && 0 <= e.fiveTuples <= 523 && 0 < e.durationMillis <= 60_000
  }

  /** A request is in order exactly when it is made in machine scope, names two different identifiers and an expiry, and
      stays within the ceilings; too much of something is told apart from nonsense. */
  lemma RequestLaw(q: Request)
    ensures RequestError(q).None? <==>
      q.machineScope && q.credential != q.attempt && q.expiresAt != 0 && WithinCeilings(q.cls, q.envelope)
    ensures RequestError(q) == Some(MachineScopeRequired) <==> !q.machineScope
    ensures RequestError(q) == Some(LimitExceeded) ==>
      q.cls.Ordinary? && q.envelope.packets > 0 && q.envelope.durationMillis > 0
  {
  }

  /** Every burn of a safe journal keeps the ceilings, names two different identifiers and expires within ten
      minutes. */
  lemma BurnsBounded(h: History, p: Parties, i: nat)
    requires Safe(h, p) && i < |h| && h[i].body.Burn?
    ensures
      var b := h[i].body;
      && WithinCeilings(b.cls, b.envelope) && b.credential != b.attempt
      && h[i].at < b.expiresAt <= h[i].at + 600 * SECOND
  {
    var b := h[i].body;
    assert ValidRecord(h[i]);
    RequestLaw(Request(b.cls, b.credential, b.attempt, b.digest, true, b.expiresAt, b.envelope));
  }
}
