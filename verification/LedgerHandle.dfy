/** The owner-bound handle: every operation re-reads and replays the file,
    decides, appends one frame, and (for Admit) reads the file back. */
module LedgerHandle {
  import opened Basics
  import opened PairingRecords
  import opened LedgerHistory
  import opened LedgerPolicy
  import opened LedgerSafety
  import opened LedgerReplay
  import opened LedgerRuns
  import opened JournalFraming

  /** The owner's own replay of the file shows the burn under that sequence number. */
  ghost predicate ReadsBack(codec: Codec, file: seq<byte>, owner: Id, credential: Id, sequence: nat) {
    var v := ReadView(codec, file, Some(owner));
    v.Some? && exists r :: r in v.value.history && IsBurn(r, credential) && r.sequence == sequence
  }

  /** The decision is the one the readable journal calls for; on an unreadable one every operation is refused. */
  ghost predicate Answered(codec: Codec, file: seq<byte>, owner: Id, op: Op, d: Decision) {
    if ReadView(codec, file, Some(owner)).Some? then d == OutcomeOn(codec, file, owner, op) else d.Refuse?
  }

  class PairingLedger {
    const codec: Codec
    const owner: Id
    var file: seq<byte>

    constructor (codec: Codec, owner: Id, file: seq<byte>)
      ensures this.codec == codec && this.owner == owner && this.file == file
    {
      this.codec, this.owner, this.file := codec, owner, file;
    }

    /** Reads and replays the journal; None is the indeterminate ledger. */
    method ReadSnapshot() returns (out: Option<Snapshot>)
      ensures out.Some? <==> ReadView(codec, file, Some(owner)).Some?
      ensures out.Some? ==> Describes(out.value, out.value.records)
      ensures out.Some? ==> ReadView(codec, file, Some(owner)) == Some(View(out.value.records, |file|, Some(owner)))
    {
      if |file| > MAX_LEDGER_BYTES { return None; }
      var records := Decode(codec, file);
      if records.None? { return None; }
      out := BuildSnapshot(records.value, Some(owner));
    }

    /** Writes a frame; `written` is how much of it the disk takes. */
    method Append(d: Decision, written: nat)
      requires d.Append?
      modifies this
      ensures file == FileAfter(codec, old(file), d, written)
    {
      var f := Frame(codec, d.record);
      if f.Some? {
        file := file + if written < |f.value| then f.value[..written] else f.value;
      }
    }

    method AdmissionDenied(s: Snapshot, now: int, envelope: Envelope, cls: RecordClass)
      returns (denied: Option<LedgerError>)
      requires Describes(s, s.records)
      ensures denied == AdmissionError(View(s.records, |file|, Some(owner)), now, envelope, cls)
    {
      var ordinary := OrdinaryStatus(s, s.records, |file|, Some(owner), now);
      if cls.Campaign? {
        var status := HardNatStatus(s, s.records, |file|, Some(owner), now);
        match status.state {
          case CircuitIsOpen => return Some(if ordinary.state.CircuitIsOpen? then CircuitOpen else CampaignCircuitOpen);
          case Limited => return Some(CampaignRateLimited);
          case CapacityFull => return Some(Capacity);
          case RolledBack => return Some(ClockRollback);
          case Ready =>
        }
        if envelope != CampaignEnvelope { return Some(InvalidRequest); }
        if status.dayAdmissions + 1 > CAMPAIGN_ADMISSIONS || status.dayPackets + envelope.packets > CAMPAIGN_PACKETS {
          return Some(CampaignRateLimited);
        }
        return None;
      }
      match ordinary.state {
        case CircuitIsOpen => return Some(CircuitOpen);
        case CapacityFull => return Some(Capacity);
        case RolledBack => return Some(ClockRollback);
        case _ =>
      }
      if (ordinary.nextAdmissionAt != 0 && now < ordinary.nextAdmissionAt) ||
         ordinary.hourAdmissions + 1 > HOUR_LIMIT || ordinary.dayAdmissions + 1 > DAY_LIMIT ||
         ordinary.dayPackets + envelope.packets > DAY_PACKETS {
        return Some(RateLimited);
      }
      return None;
    }

    method DecideAdmission(clock: int, q: Request) returns (d: Decision)
      ensures Answered(codec, file, owner, Admit(clock, q), d)
      ensures d.Append? ==> IsBurn(d.record, q.credential)
    {
      var invalid := RequestError(q);
      if invalid.Some? { return Refuse(invalid.value); }
      var read := ReadSnapshot();
      if read.None? { return Refuse(Indeterminate); }
      var s := read.value;
      var effective := EffectiveNow(s.highWatermark, clock);
      if effective.None? { return Refuse(ClockRollback); }
      var t := effective.value;
      if t >= q.expiresAt { return Refuse(InvalidRequest); }
      assert Known(s, s.records, q.credential) && (q.attempt in s.attempts <==> AttemptUsed(s.records, q.attempt));
      if q.credential in s.admissions { return Refuse(CredentialUsed); }
      if q.attempt in s.attempts { return Refuse(InvalidRequest); }
      var denied := AdmissionDenied(s, t, q.envelope, q.cls);
      if denied.Some? { return Refuse(denied.value); }
      var r := Record(|s.records| + 1, t,
        Burn(q.cls, q.credential, q.attempt, q.digest, owner, q.expiresAt, q.envelope));
      var f := Frame(codec, r);
      if f.None? { return Refuse(EncodeFailed); }
      if |s.records| + 2 > MAX_LEDGER_RECORDS || |file| + |f.value| + 4 + MAX_FRAME_BYTES > MAX_LEDGER_BYTES {
        return Refuse(Capacity);
      }
      return LedgerPolicy.Append(r);
    }

    /** Burns one credential. A receipt is issued only after the record was read back from the file. */
    method AdmitAttempt(clock: int, q: Request, written: nat) returns (d: Decision, receipt: Option<Receipt>)
      modifies this
      ensures Answered(codec, old(file), owner, Admit(clock, q), d)
      ensures file == FileAfter(codec, old(file), d, written)
      ensures receipt.Some? <==> d.Append? && ReadsBack(codec, file, owner, q.credential, d.record.sequence)
      ensures receipt.Some? ==> IsBurn(d.record, q.credential) && receipt.value == ReceiptOf(d.record)
    {
      receipt := None;
      d := DecideAdmission(clock, q);
      if d.Append? {
        Append(d, written);
        var verified := Verify(q.credential, d.record.sequence);
        if verified { receipt := Some(ReceiptOf(d.record)); }
      }
    }

    method Verify(credential: Id, sequence: nat) returns (verified: bool)
      ensures verified <==> ReadsBack(codec, file, owner, credential, sequence)
    {
      var read := ReadSnapshot();
      if read.None? { return false; }
      BurnLookup(read.value, credential, sequence);
      verified := credential in read.value.admissions && read.value.admissions[credential].record.sequence == sequence;
    }

    /** Appends the terminal record of a receipt, once. */
    method FinishReceipt(clock: int, receipt: Receipt, reason: Reason, written: nat) returns (d: Decision)
      modifies this
      ensures Answered(codec, old(file), owner, FinishAttempt(clock, receipt, reason), d)
      ensures file == FileAfter(codec, old(file), d, written)
      ensures d.AlreadyDone? ==>
        var v := ReadView(codec, file, Some(owner));
        v.Some? && FinishedWith(v.value.history, receipt.credential, reason)
    {
      d := DecideFinish(clock, receipt, reason);
      if d.Append? { Append(d, written); }
    }

    method DecideFinish(clock: int, receipt: Receipt, reason: Reason) returns (d: Decision)
      ensures Answered(codec, file, owner, FinishAttempt(clock, receipt, reason), d)
    {
      if receipt.owner != owner { return Refuse(InvalidRequest); }
      var read := ReadSnapshot();
      if read.None? { return Refuse(Indeterminate); }
      var s := read.value;
      var effective := EffectiveNow(s.highWatermark, clock);
      if effective.None? { return Refuse(ClockRollback); }
      IssuedLookup(s, receipt);
      if receipt.credential !in s.admissions || !Matches(s.admissions[receipt.credential].record, receipt) {
        return Refuse(InvalidRequest);
      }
      FinishLookup(s, s.records, receipt.credential);
      var finish := s.admissions[receipt.credential].finish;
      if finish.Some? {
        ReasonLookup(s, receipt.credential, reason);
        return if finish.value.body.reason == reason then AlreadyDone else Refuse(InvalidRequest);
      }
      var body := Finish(receipt.cls, receipt.credential, receipt.attempt, reason);
      d := RoomFor(s, Record(|s.records| + 1, effective.value, body));
    }

    method RoomFor(s: Snapshot, r: Record) returns (d: Decision)
      ensures d == AppendIfRoom(View(s.records, |file|, Some(owner)), r, SizeOf(codec))
    {
      var f := Frame(codec, r);
      if f.None? { return Refuse(EncodeFailed); }
      if |s.records| + 1 > MAX_LEDGER_RECORDS || |file| + |f.value| > MAX_LEDGER_BYTES { return Refuse(Capacity); }
      return LedgerPolicy.Append(r);
    }

    /** The explicit compare-and-set reset of one class; the status it reports is read back from the file. */
    method ResetOpenCircuit(cls: RecordClass, clock: int, expected: nat, noteValid: bool, written: nat)
      returns (d: Decision, report: Report)
      modifies this
      ensures Answered(codec, old(file), owner, ResetClass(cls, clock, expected, noteValid), d)
      ensures file == FileAfter(codec, old(file), d, written)
      ensures report == if WrittenWhole(codec, d, written) then ReportOn(codec, file, owner, cls, d.record.at)
        else NoReport
    {
      report := NoReport;
      d := DecideReset(cls, clock, expected, noteValid);
      if !d.Append? { return; }
      Append(d, written);
      if WrittenWhole(codec, d, written) { report := ReadStatus(cls, d.record.at); }
    }

    method DecideReset(cls: RecordClass, clock: int, expected: nat, noteValid: bool) returns (d: Decision)
      ensures Answered(codec, file, owner, ResetClass(cls, clock, expected, noteValid), d)
    {
      if expected == 0 || !noteValid { return Refuse(ResetRejected); }
      var read := ReadSnapshot();
      if read.None? { return Refuse(Indeterminate); }
      var s := read.value;
      var effective := EffectiveNow(s.highWatermark, clock);
      if effective.None? { return Refuse(ClockRollback); }
      var t := effective.value;
      var blocked;
      if cls.Ordinary? {
        var status := OrdinaryStatus(s, s.records, |file|, Some(owner), t);
        blocked := !status.resetRequired || status.openedAt == 0 || t < status.resetEligibleAt;
      } else {
        var status := HardNatStatus(s, s.records, |file|, Some(owner), t);
        blocked := !status.resetRequired || status.openedAt == 0;
      }
      if expected != |s.records| || blocked { return Refuse(ResetRejected); }
      d := RoomFor(s, Record(|s.records| + 1, t, Reset(cls)));
    }

    method ReadStatus(cls: RecordClass, now: int) returns (report: Report)
      ensures report == ReportOn(codec, file, owner, cls, now)
    {
      var read := ReadSnapshot();
      if read.None? { return Unreadable; }
      if cls.Ordinary? {
        var status := OrdinaryStatus(read.value, read.value.records, |file|, Some(owner), now);
        return OrdinaryReport(status);
      }
      var status := HardNatStatus(read.value, read.value.records, |file|, Some(owner), now);
      return CampaignReport(status);
    }
  }

  // ----- what the status after a reset shows -------------------------------------------------

  datatype Report = NoReport | Unreadable | OrdinaryReport(status: Status) | CampaignReport(campaign: CampaignStatus)

  function ReportOn(codec: Codec, file: seq<byte>, owner: Id, cls: RecordClass, now: int): Report {
    match ReadView(codec, file, Some(owner))
    case None => Unreadable
    case Some(v) => if cls.Ordinary? then OrdinaryReport(StatusAt(v, now)) else CampaignReport(CampaignStatusAt(v, now))
  }

  /** More bytes at the end do not disturb a frame that is there. */
  lemma FrontParses(codec: Codec, data: seq<byte>, tail: seq<byte>, offset: nat)
    requires offset <= |data| && ParseFrame(codec, data, offset).Some?
    ensures ParseFrame(codec, data + tail, offset) == ParseFrame(codec, data, offset)
  {
    var n := Uint32(data[offset..offset + 4]);
    assert (data + tail)[offset..offset + 4] == data[offset..offset + 4];
    assert (data + tail)[offset + 4..offset + 4 + n] == data[offset + 4..offset + 4 + n];
  }

  /** A frame behind a journal that can be read adds its record. */
  lemma {:induction false} ParseExtends(codec: Codec, data: seq<byte>, r: Record, offset: nat, seen: nat)
    requires Sound(codec) && Frame(codec, r).Some? && offset <= |data| && Tail(codec, data, offset, seen).Some?
    requires seen + |Tail(codec, data, offset, seen).value| < MAX_LEDGER_RECORDS
    ensures
      var records := Tail(codec, data, offset, seen).value;
      Tail(codec, data + FrameOf(codec, r), offset, seen) == Some(records + [r])
    decreases |data| - offset
  {
    var f := FrameOf(codec, r);
    if offset == |data| {
      assert Here(data + f, offset, f);
      FrameParses(codec, data + f, offset, r);
      assert Tail(codec, data + f, |data + f|, seen + 1) == Some([]);
      assert [r] + [] == [r] && [] + [r] == [r];
    } else {
      FrontParses(codec, data, f, offset);
      var (first, n) := ParseFrame(codec, data, offset).value;
      var rest := Tail(codec, data, offset + n, seen + 1).value;
      ParseExtends(codec, data, r, offset + n, seen + 1);
      assert [first] + (rest + [r]) == [first] + rest + [r];
    }
  }

  lemma ResetMayFollow(v: View, cls: RecordClass, clock: int, expected: nat, noteValid: bool, size: FrameSize)
    requires v.history != [] && Accepts(v.history, v.reader)
    requires LedgerPolicy.DecideReset(v, cls, clock, expected, noteValid, size).Append?
    ensures
      var r := LedgerPolicy.DecideReset(v, cls, clock, expected, noteValid, size).record;
      Accepts(v.history + [r], v.reader) && r.body == Reset(cls) && r.at >= HighWatermark(v.history)
  {
    var h, r := v.history, LedgerPolicy.DecideReset(v, cls, clock, expected, noteValid, size).record;
    var t := EffectiveNow(HighWatermark(h), clock).value;
    assert EffectiveNow(HighWatermark(h), t) == Some(t);
    assert ResetAllowed(h, v.reader, cls, t);
    assert DropLast(h + [r]) == h && Last(h + [r]) == r;
  }

  /** A reset closes its own circuit for every reader. */
  lemma ResetCloses(h: History, r: Record, reader: Option<Id>, cls: RecordClass)
    requires r.body == Reset(cls)
    ensures !Open(h + [r], reader, cls)
  {
    assert DropLast(h + [r]) == h && Last(h + [r]) == r;
    assert Pending(h + [r], h + [r], cls) == [];
  }

  /** A reset that was decided and written whole can be read back, and the status then shows its circuit closed. */
  lemma ResetReportsClosed(codec: Codec, file: seq<byte>, owner: Id, cls: RecordClass, clock: int, expected: nat,
                           noteValid: bool, written: nat)
    requires Sound(codec)
    requires WrittenWhole(codec, OutcomeOn(codec, file, owner, ResetClass(cls, clock, expected, noteValid)), written)
    ensures
      var d := OutcomeOn(codec, file, owner, ResetClass(cls, clock, expected, noteValid));
      var report := ReportOn(codec, FileAfter(codec, file, d, written), owner, cls, d.record.at);
      if cls.Ordinary? then report.OrdinaryReport? && report.status.openedAt == 0 && !report.status.resetRequired
      else report.CampaignReport? && report.campaign.openedAt == 0 && !report.campaign.resetRequired
  {
    var op := ResetClass(cls, clock, expected, noteValid);
    var v := ReadView(codec, file, Some(owner)).value;
    var r := OutcomeOn(codec, file, owner, op).record;
    var after := FileAfter(codec, file, OutcomeOn(codec, file, owner, op), written);
    ResetMayFollow(v, cls, clock, expected, noteValid, SizeOf(codec));
    ResetCloses(v.history, r, Some(owner), cls);
    RoomForFrame(v, Parties(owner, {}, {}), op, codec);
    ParseExtends(codec, file, r, 0, 0);
    assert ReadView(codec, after, Some(owner)) == Some(View(v.history + [r], |after|, Some(owner)));
    assert HighWatermark(v.history + [r]) == r.at by { assert DropLast(v.history + [r]) == v.history; }
  }

  /** An admission that was decided and written whole is read back, so its receipt is issued. */
  lemma AdmitReadsBack(codec: Codec, file: seq<byte>, owner: Id, clock: int, q: Request, written: nat)
    requires Sound(codec)
    requires WrittenWhole(codec, OutcomeOn(codec, file, owner, Admit(clock, q)), written)
    ensures
      var d := OutcomeOn(codec, file, owner, Admit(clock, q));
      ReadsBack(codec, FileAfter(codec, file, d, written), owner, q.credential, d.record.sequence)
  {
    var op := Admit(clock, q);
    var v := ReadView(codec, file, Some(owner)).value;
    var r := OutcomeOn(codec, file, owner, op).record;
    var after := FileAfter(codec, file, OutcomeOn(codec, file, owner, op), written);
    AdmitMayFollow(v, owner, clock, q, SizeOf(codec));
    RoomForFrame(v, Parties(owner, {}, {}), op, codec);
    ParseExtends(codec, file, r, 0, 0);
    assert ReadView(codec, after, Some(owner)) == Some(View(v.history + [r], |after|, Some(owner)));
    assert (v.history + [r])[|v.history|] == r;
  }

  lemma AdmitMayFollow(v: View, owner: Id, clock: int, q: Request, size: FrameSize)
    requires v.history != [] && Accepts(v.history, v.reader)
    requires DecideAdmit(v, owner, clock, q, size).Append?
    ensures
      var r := DecideAdmit(v, owner, clock, q, size).record;
      Accepts(v.history + [r], v.reader) && IsBurn(r, q.credential)
  {
    var h, r := v.history, DecideAdmit(v, owner, clock, q, size).record;
    assert Last(h).at <= HighWatermark(h);
    assert DropLast(h + [r]) == h && Last(h + [r]) == r;
  }

  lemma BurnLookup(s: Snapshot, credential: Id, sequence: nat)
    requires Describes(s, s.records)
    ensures credential in s.admissions && s.admissions[credential].record.sequence == sequence <==>
      exists r :: r in s.records && IsBurn(r, credential) && r.sequence == sequence
  {
    var h := s.records;
    assert Known(s, h, credential);
    if r :| r in h && IsBurn(r, credential) && r.sequence == sequence {
      var i :| 0 <= i < |h| && h[i] == r;
      assert BurnAt(s, h, i);
    }
  }

  lemma IssuedLookup(s: Snapshot, receipt: Receipt)
    requires Describes(s, s.records)
    ensures Issued(s.records, receipt) <==>
            receipt.credential in s.admissions && Matches(s.admissions[receipt.credential].record, receipt)
  {
    var h := s.records;
    assert Known(s, h, receipt.credential);
    if receipt.credential in s.admissions && Matches(s.admissions[receipt.credential].record, receipt) {
      var i :| 0 <= i < |h| && h[i] == s.admissions[receipt.credential].record;
      assert Matches(h[i], receipt);
    }
    if Issued(h, receipt) {
      var i :| 0 <= i < |h| && Matches(h[i], receipt);
      assert BurnAt(s, h, i);
    }
  }

  lemma ReasonLookup(s: Snapshot, c: Id, reason: Reason)
    requires Describes(s, s.records) && c in s.admissions && s.admissions[c].finish.Some?
    ensures s.admissions[c].finish.value.body.Finish?
    ensures FinishedWith(s.records, c, reason) <==> s.admissions[c].finish.value.body.reason == reason
  {
    assert FinishKnown(s, s.records, c);
    var h, f := s.records, s.admissions[c].finish.value;
    if f.body.reason == reason {
      var i :| 0 <= i < |h| && h[i] == f;
      assert IsFinish(h[i], c);
    }
    if FinishedWith(h, c, reason) {
      var i :| 0 <= i < |h| && IsFinish(h[i], c) && h[i].body.reason == reason;
      assert FinishAt(s, h, i);
    }
  }
}
