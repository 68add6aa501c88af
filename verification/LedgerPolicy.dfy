/** Rolling budgets, circuit status and the decisions of the four journal
    operations, as functions of the record list, the journal's byte size, the
    reading owner and the wall clock. */
module LedgerPolicy {
  import opened Basics
  import opened PairingRecords
  import opened LedgerHistory

  // ----- counting -------------------------------------------------------------

  predicate BurnOf(r: Record, cls: RecordClass) {
    r.body.Burn? && r.body.cls == cls
  }

  /** Burns of the class recorded after `cutoff`. */
  function BurnsAfter(h: History, cls: RecordClass, cutoff: int): nat {
    if h == [] then 0
    else BurnsAfter(DropLast(h), cls, cutoff) + if BurnOf(Last(h), cls) && Last(h).at > cutoff then 1 else 0
  }

  function PacketsAfter(h: History, cls: RecordClass, cutoff: int): int {
    if h == [] then 0
    else
      var rest := PacketsAfter(DropLast(h), cls, cutoff);
      rest + if BurnOf(Last(h), cls) && Last(h).at > cutoff then Last(h).body.envelope.packets else 0
  }

  /** The latest burn of the class, if it is later than `base`. */
  function LastBurn(h: History, cls: RecordClass, base: int): (t: int)
    ensures t >= base
    ensures forall i :: 0 <= i < |h| && BurnOf(h[i], cls) ==> h[i].at <= t
  {
    if h == [] then base
    else
      var t := LastBurn(DropLast(h), cls, base);
      if BurnOf(Last(h), cls) then Max(t, Last(h).at) else t
  }

  lemma {:induction false} LastBurnIsReached(h: History, cls: RecordClass, base: int)
    ensures
      var t := LastBurn(h, cls, base);
      t == base || exists i :: 0 <= i < |h| && BurnOf(h[i], cls) && h[i].at == t
  {
    if h != [] { LastBurnIsReached(DropLast(h), cls, base); }
  }

  // ----- status ---------------------------------------------------------------

  datatype State = Ready | Limited | CircuitIsOpen | CapacityFull | RolledBack

  datatype Status = Status(
    state: State, hourAdmissions: int, dayAdmissions: int, dayPackets: int,
    failures: int, openedAt: int, resetEligibleAt: int, resetRequired: bool,
    nextAdmissionAt: int)

  const RollbackStatus: Status := Status(RolledBack, 0, 0, 0, 0, 0, 0, false, 0)

  /** What a reader sees: the record list, its byte size, and the reader's own identity. */
  datatype View = View(history: History, bytes: nat, reader: Option<Id>)

  predicate Full(v: View) {
    |v.history| >= MAX_LEDGER_RECORDS || v.bytes >= MAX_LEDGER_BYTES
  }

  function StatusAt(v: View, now: int): Status {
    var h := v.history;
    match EffectiveNow(HighWatermark(h), now)
    case None => RollbackStatus
    case Some(t) =>
      var rebuild := RebuildAt(h);
      var hour := BurnsAfter(h, Ordinary, t - HOUR) + if rebuild != 0 && t < rebuild + HOUR then HOUR_LIMIT else 0;
      var young := rebuild != 0 && t < rebuild + DAY_WINDOW;
      var day := BurnsAfter(h, Ordinary, t - DAY_WINDOW) + if young then DAY_LIMIT else 0;
      var packets := PacketsAfter(h, Ordinary, t - DAY_WINDOW) + if young then DAY_PACKETS else 0;
      var last := LastBurn(h, Ordinary, rebuild);
      var next := if last != 0 then last + MINIMUM_INTERVAL else 0;
      var c := CircuitFor(h, v.reader, Ordinary);
      if c.openedAt != 0 then
        Status(CircuitIsOpen, hour, day, packets, c.streak, c.openedAt, c.openedAt + CIRCUIT_HORIZON, true, next)
      else
        var state :=
          if Full(v) then CapacityFull
          else if (next != 0 && t < next) || hour >= HOUR_LIMIT || day >= DAY_LIMIT || packets >= DAY_PACKETS
          then Limited
          else Ready;
        Status(state, hour, day, packets, c.streak, 0, 0, false, next)
  }

  datatype CampaignStatus = CampaignStatus(state: State, dayAdmissions: int, dayPackets: int, openedAt: int,
    resetRequired: bool)

  function CampaignStatusAt(v: View, now: int): CampaignStatus {
    var h := v.history;
    match EffectiveNow(HighWatermark(h), now)
    case None => CampaignStatus(RolledBack, 0, 0, 0, false)
    case Some(t) =>
      var rebuild := RebuildAt(h);
      var young := rebuild != 0 && t < rebuild + DAY_WINDOW;
      var day := BurnsAfter(h, Campaign, t - DAY_WINDOW) + if young then CAMPAIGN_ADMISSIONS else 0;
      var packets := PacketsAfter(h, Campaign, t - DAY_WINDOW) + if young then CAMPAIGN_PACKETS else 0;
      var c := CircuitFor(h, v.reader, Campaign);
      if c.openedAt != 0 then CampaignStatus(CircuitIsOpen, day, packets, c.openedAt, true)
      else
        var ordinary := StatusAt(v, t).state;
        var state :=
          if ordinary.CircuitIsOpen? || ordinary.CapacityFull? || ordinary.RolledBack? then ordinary
          else if Full(v) then CapacityFull
          else if day >= CAMPAIGN_ADMISSIONS || packets >= CAMPAIGN_PACKETS then Limited
          else Ready;
        CampaignStatus(state, day, packets, 0, false)
  }

  function AdmissionError(v: View, now: int, envelope: Envelope, cls: RecordClass): Option<LedgerError> {
    if cls.Campaign? then CampaignAdmissionError(v, now, envelope)
    else
      var s := StatusAt(v, now);
      match s.state
      case CircuitIsOpen => Some(CircuitOpen)
      case CapacityFull => Some(Capacity)
      case RolledBack => Some(ClockRollback)
      case _ =>
        if (s.nextAdmissionAt != 0 && now < s.nextAdmissionAt) ||
           s.hourAdmissions + 1 > HOUR_LIMIT ||
           s.dayAdmissions + 1 > DAY_LIMIT ||
           s.dayPackets + envelope.packets > DAY_PACKETS
        then Some(RateLimited) else None
  }

  function CampaignAdmissionError(v: View, now: int, envelope: Envelope): Option<LedgerError> {
    var s := CampaignStatusAt(v, now);
    match s.state
    case CircuitIsOpen => Some(if StatusAt(v, now).state.CircuitIsOpen? then CircuitOpen else CampaignCircuitOpen)
    case Limited => Some(CampaignRateLimited)
    case CapacityFull => Some(Capacity)
    case RolledBack => Some(ClockRollback)
    case Ready =>
      if envelope != CampaignEnvelope then Some(InvalidRequest)
      else if s.dayAdmissions + 1 > CAMPAIGN_ADMISSIONS || s.dayPackets + envelope.packets > CAMPAIGN_PACKETS
      then Some(CampaignRateLimited) else None
  }

  // ----- decisions ------------------------------------------------------------

  /** An operation appends one record, refuses, or finds its record already there. */
  datatype Decision = Append(record: Record) | Refuse(error: LedgerError) | AlreadyDone

  datatype Receipt = Receipt(sequence: nat, cls: RecordClass, credential: Id, attempt: Id, digest: Id, owner: Id)

  /** Bytes of the frame that would carry a record; None when it cannot be encoded. */
  type FrameSize = Record -> Option<nat>

  function DecideAdmit(v: View, owner: Id, clock: int, q: Request, size: FrameSize): Decision {
    var invalid := RequestError(q);
    if invalid.Some? then Refuse(invalid.value)
    else match EffectiveNow(HighWatermark(v.history), clock)
    case None => Refuse(ClockRollback)
    case Some(t) =>
      if t >= q.expiresAt then Refuse(InvalidRequest)
      else if Burned(v.history, q.credential) then Refuse(CredentialUsed)
      else if AttemptUsed(v.history, q.attempt) then Refuse(InvalidRequest)
      else
        var r := Record(|v.history| + 1, t,
          Burn(q.cls, q.credential, q.attempt, q.digest, owner, q.expiresAt, q.envelope));
        EnterBurn(v, r, AdmissionError(v, t, q.envelope, q.cls), size)
  }

  /** A burn that is not denied is appended if it leaves room for its own FINISH. */
  function EnterBurn(v: View, r: Record, denied: Option<LedgerError>, size: FrameSize): Decision {
    if denied.Some? then Refuse(denied.value)
    else
      match size(r)
      case None => Refuse(EncodeFailed)
      case Some(n) =>
        if |v.history| + 2 > MAX_LEDGER_RECORDS || v.bytes + n + 4 + MAX_FRAME_BYTES > MAX_LEDGER_BYTES
        then Refuse(Capacity) else Append(r)
  }

  function AppendIfRoom(v: View, r: Record, size: FrameSize): Decision {
    match size(r)
    case None => Refuse(EncodeFailed)
    case Some(n) =>
      if |v.history| + 1 > MAX_LEDGER_RECORDS || v.bytes + n > MAX_LEDGER_BYTES then Refuse(Capacity) else Append(r)
  }

  /** The burn a receipt was issued for. */
  predicate Matches(r: Record, receipt: Receipt) {
    && r.body.Burn?
    && r.sequence == receipt.sequence
    && r.body.cls == receipt.cls
    && r.body.credential == receipt.credential
    && r.body.attempt == receipt.attempt
    && r.body.digest == receipt.digest
  }

  predicate Issued(h: History, receipt: Receipt) {
    exists i :: 0 <= i < |h| && Matches(h[i], receipt)
  }

  predicate FinishedWith(h: History, credential: Id, reason: Reason) {
    exists i :: 0 <= i < |h| && IsFinish(h[i], credential) && h[i].body.reason == reason
  }

  function DecideFinish(v: View, owner: Id, clock: int, receipt: Receipt, reason: Reason, size: FrameSize): Decision {
    if receipt.owner != owner then Refuse(InvalidRequest)
    else match EffectiveNow(HighWatermark(v.history), clock)
    case None => Refuse(ClockRollback)
    case Some(t) =>
      if !Issued(v.history, receipt) then Refuse(InvalidRequest)
      else if Finished(v.history, receipt.credential) then
        if FinishedWith(v.history, receipt.credential, reason) then AlreadyDone else Refuse(InvalidRequest)
      else
        AppendIfRoom(v, Record(|v.history| + 1, t, Finish(receipt.cls, receipt.credential, receipt.attempt, reason)),
          size)
  }

  /** The explicit reset of one class; `noteValid` is the outcome of the operator-note check. */
  function DecideReset(v: View, cls: RecordClass, clock: int, expected: nat, noteValid: bool,
                       size: FrameSize): Decision {
    if expected == 0 || !noteValid then Refuse(ResetRejected)
    else match EffectiveNow(HighWatermark(v.history), clock)
    case None => Refuse(ClockRollback)
    case Some(t) =>
      var blocked :=
        if cls.Ordinary? then
          var s := StatusAt(v, t);
          !s.resetRequired || s.openedAt == 0 || t < s.resetEligibleAt
        else
          var s := CampaignStatusAt(v, t);
          !s.resetRequired || s.openedAt == 0;
      if expected != |v.history| || blocked then Refuse(ResetRejected)
      else AppendIfRoom(v, Record(|v.history| + 1, t, Reset(cls)), size)
  }

  // ----- what a decision to append says -----------------------------------------

  /** A burn is appended only if every budget still holds with it counted, and no ordinary circuit is open. */
  lemma AdmittedBurn(v: View, owner: Id, clock: int, q: Request, size: FrameSize)
    requires DecideAdmit(v, owner, clock, q, size).Append?
    requires forall i :: 0 <= i < |v.history| && BurnOf(v.history[i], Ordinary) ==> v.history[i].at > 0
    ensures
      var r := DecideAdmit(v, owner, clock, q, size).record;
      var h := v.history;
      && r.sequence == |h| + 1
      && r.at >= HighWatermark(h)
      && BurnOf(r, q.cls) && r.body.owner == owner
      && r.body.credential == q.credential && r.body.attempt == q.attempt && r.body.digest == q.digest
      && r.body.envelope == q.envelope
      && !Burned(h, q.credential) && !AttemptUsed(h, q.attempt)
      && !Open(h, v.reader, Ordinary) && !Open(h, v.reader, q.cls)
      && (RebuildAt(h) != 0 ==> r.at >= RebuildAt(h) + DAY_WINDOW)
      && RequestError(q).None?
      && size(r).Some?
    ensures
      var r := DecideAdmit(v, owner, clock, q, size).record;
      var h := v.history;
      if q.cls.Ordinary? then
        && BurnsAfter(h, Ordinary, r.at - HOUR) + 1 <= HOUR_LIMIT
        && BurnsAfter(h, Ordinary, r.at - DAY_WINDOW) + 1 <= DAY_LIMIT
        && PacketsAfter(h, Ordinary, r.at - DAY_WINDOW) + r.body.envelope.packets <= DAY_PACKETS
        && forall i :: 0 <= i < |h| && BurnOf(h[i], Ordinary) ==> h[i].at + MINIMUM_INTERVAL <= r.at
      else
        BurnsAfter(h, Campaign, r.at - DAY_WINDOW) == 0
  {
    var t := EffectiveNow(HighWatermark(v.history), clock).value;
    assert EffectiveNow(HighWatermark(v.history), t) == Some(t);
    assert AdmissionError(v, t, q.envelope, q.cls).None?;
  }
}
