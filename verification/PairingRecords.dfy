/** Records of the durable pairing-admission journal and the compiled limits
    that govern them (internal/governor/pairing_ledger.go,
    pairing_ledger_format.go and hard_nat_campaign_ledger.go).

    Times are integers counting nanoseconds from the source's zero time, so 0
    stands for "no time". An opaque identifier, an owner instance identifier
    and a context digest are each the canonical text of a fixed number of
    bytes; the model uses the number those bytes spell, which makes every
    value of the type well formed. */
module PairingRecords {
  import opened Basics

  const SECOND: int := 1_000_000_000
  const HOUR: int := 3600 * SECOND

  const MAX_LEDGER_BYTES: int := 4 * 1024 * 1024
  const MAX_LEDGER_RECORDS: int := 8192
  const MAX_FRAME_BYTES: int := 16 * 1024

  const MINIMUM_INTERVAL: int := 60 * SECOND
  const HOUR_LIMIT: int := 4
  const DAY_WINDOW: int := 24 * HOUR
  const DAY_LIMIT: int := 12
  const DAY_PACKETS: int := 2048
  const FAILURE_LIMIT: int := 3
  const CIRCUIT_HORIZON: int := 6 * HOUR
  const ROLLBACK_SKEW: int := 120 * SECOND
  const CREDENTIAL_LIFETIME: int := 600 * SECOND

  const CAMPAIGN_ADMISSIONS: int := 1
  const CAMPAIGN_PACKETS: int := 16_432

  type Id = nat

  datatype RecordClass = Ordinary | Campaign

  datatype Reason = Success | Cancelled | Expired | ProtocolError | ScopeChanged | CarrierError

  datatype Envelope = Envelope(
    sockets: int, targets: int, packetsPerSecond: int, packets: int,
    fiveTuples: int, durationMillis: int, heavyweight: bool)

  datatype Body =
    | Initialize
    | RebuildBaseline
    | Burn(cls: RecordClass, credential: Id, attempt: Id, digest: Id, owner: Id, expiresAt: int, envelope: Envelope)
    | Finish(cls: RecordClass, credential: Id, attempt: Id, reason: Reason)
    | Reset(cls: RecordClass)

  datatype Record = Record(sequence: nat, at: int, body: Body)

  datatype Request = Request(
    cls: RecordClass, credential: Id, attempt: Id, digest: Id,
    machineScope: bool, expiresAt: int, envelope: Envelope)

  datatype LedgerError =
    | InvalidRequest | MachineScopeRequired | LimitExceeded
    | Indeterminate | ClockRollback | CredentialUsed
    | RateLimited | CircuitOpen | Capacity
    | CampaignRateLimited | CampaignCircuitOpen
    | ResetRejected | EncodeFailed

  /** How many counted failures open the circuit of a class. */
  function FailureLimit(cls: RecordClass): (n: int)
    ensures n > 0
  {
    if cls.Campaign? then 1 else FAILURE_LIMIT
  }

  const CampaignEnvelope: Envelope := Envelope(16, 16_400, 512, CAMPAIGN_PACKETS, 16_400, 47_000, true)

  /** The ordinary envelope stays within the larger of the two manual profiles' per-attempt ceilings. */
  function EnvelopeError(e: Envelope): Option<LedgerError> {
    if e.sockets < 0 || e.targets < 0 || e.packetsPerSecond < 0 || e.packets < 0 || e.fiveTuples < 0
    then Some(InvalidRequest)
    else if e.packets <= 0 || e.durationMillis <= 0 then Some(InvalidRequest)
    else if e.sockets > 128 || e.targets > 516 || e.packetsPerSecond > 64 || e.packets > 526 || e.fiveTuples > 523
    then Some(LimitExceeded)
    else if e.durationMillis > 60_000 then Some(LimitExceeded)
    else None
  }

  function RequestError(q: Request): Option<LedgerError> {
    if !q.machineScope then Some(MachineScopeRequired)
    else if q.credential == q.attempt then Some(InvalidRequest)
    else if q.expiresAt == 0 then Some(InvalidRequest)
    else if q.cls.Campaign? then
      if q.envelope != CampaignEnvelope then Some(InvalidRequest) else None
    else EnvelopeError(q.envelope)
  }

  /** What the encoder and the decoder both demand of one record. */
  predicate ValidRecord(r: Record) {
    && r.sequence > 0
    && r.at != 0
    && match r.body
       case Burn(cls, credential, attempt, digest, _, expiresAt, envelope) =>
         && RequestError(Request(cls, credential, attempt, digest, true, expiresAt, envelope)).None?
         && r.at < expiresAt <= r.at + CREDENTIAL_LIFETIME
       case _ => true
  }
}
