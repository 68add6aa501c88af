/** The statements about the ledger assume of its codec only what some codec has: decimal text meets them all. */
module LedgerWitness {
  import opened Basics
  import opened DecimalText
  import opened PairingRecords
  import opened LedgerHistory
  import opened LedgerSafety
  import opened LedgerRuns
  import opened LedgerCircuits
  import opened LedgerLatch
  import opened LedgerCloses
  import opened JournalFraming

  function ReasonNumber(reason: Reason): nat {
    match reason
    case Success => 0
    case Cancelled => 1
    case Expired => 2
    case ProtocolError => 3
    case ScopeChanged => 4
    case CarrierError => 5
  }

  function EnvelopeNumbers(e: Envelope): (ns: seq<nat>)
    ensures |ns| == 7
  {
    [Signed(e.sockets), Signed(e.targets), Signed(e.packetsPerSecond), Signed(e.packets), Signed(e.fiveTuples),
     Signed(e.durationMillis), Flag(e.heavyweight)]
  }

  function BodyNumbers(b: Body): (ns: seq<nat>)
    ensures |ns| <= 14
  {
    match b
    case Initialize => [0]
    case RebuildBaseline => [1]
    case Burn(cls, credential, attempt, digest, owner, expiresAt, envelope) =>
      [2, Flag(cls.Campaign?), credential, attempt, digest, owner, Signed(expiresAt)] + EnvelopeNumbers(envelope)
    case Finish(cls, credential, attempt, reason) =>
      [3, Flag(cls.Campaign?), credential, attempt, ReasonNumber(reason)]
    case Reset(cls) => [4, Flag(cls.Campaign?)]
  }

  function Numbers(r: Record): (ns: seq<nat>)
    ensures |ns| <= 16
  {
    [r.sequence, Signed(r.at)] + BodyNumbers(r.body)
  }

  lemma EnvelopesDiffer(a: Envelope, b: Envelope)
    requires EnvelopeNumbers(a) == EnvelopeNumbers(b)
    ensures a == b
  {
    var ns := EnvelopeNumbers(a);
    assert ns[0] == Signed(b.sockets) && ns[1] == Signed(b.targets) && ns[2] == Signed(b.packetsPerSecond);
    assert ns[3] == Signed(b.packets) && ns[4] == Signed(b.fiveTuples) && ns[5] == Signed(b.durationMillis);
    assert ns[6] == Flag(b.heavyweight);
  }

  lemma BodiesDiffer(a: Body, b: Body)
    requires BodyNumbers(a) == BodyNumbers(b)
    ensures a == b
  {
    var ns, ms := BodyNumbers(a), BodyNumbers(b);
    assert ns[0] == ms[0];
    if a.Burn? {
      assert ns[1] == ms[1] && ns[2] == ms[2] && ns[3] == ms[3] && ns[4] == ms[4] && ns[5] == ms[5] && ns[6] == ms[6];
      assert EnvelopeNumbers(a.envelope) == ns[7..] == ms[7..] == EnvelopeNumbers(b.envelope);
      EnvelopesDiffer(a.envelope, b.envelope);
    } else if a.Finish? {
      assert ns[1] == ms[1] && ns[2] == ms[2] && ns[3] == ms[3] && ns[4] == ms[4];
    } else if a.Reset? {
      assert ns[1] == ms[1];
    }
  }

  lemma RecordsDiffer(a: Record, b: Record)
    requires Numbers(a) == Numbers(b)
    ensures a == b
  {
    var ns, ms := Numbers(a), Numbers(b);
    assert ns[0] == ms[0] && ns[1] == ms[1];
    assert BodyNumbers(a.body) == ns[2..] == ms[2..] == BodyNumbers(b.body);
    BodiesDiffer(a.body, b.body);
  }

  function Text(r: Record): seq<byte> { Line(Numbers(r)) }

  ghost function Reading(data: seq<byte>): Option<Record> {
    if exists r :: Text(r) == data then var r :| Text(r) == data; Some(r) else None
  }

  ghost function TextCodec(): Codec { Codec(Text, Reading) }

  lemma TextIsSound()
    ensures Sound(TextCodec())
  {
    forall r ensures Reading(Text(r)) == Some(r) {
      var back := Reading(Text(r)).value;
      LinesDiffer(Numbers(back), Numbers(r));
      RecordsDiffer(back, r);
    }
  }

  /** No number of the record has more digits than this. */
  ghost predicate Modest(r: Record, digits: nat) {
    forall i {:trigger Numbers(r)[i]} :: 0 <= i < |Numbers(r)| ==> Numbers(r)[i] < PowerOfTen(digits)
  }

  /** Decimal text has room for every valid record: an identifier of 32 bytes has at most 78 digits. */
  lemma ModestFits(r: Record, digits: nat)
    requires ValidRecord(r) && 0 < digits <= 80 && Modest(r, digits)
    ensures Frame(TextCodec(), r).Some?
  {
    LineShort(Numbers(r), digits);
  }

  predicate Small(r: Record) {
    && ValidRecord(r)
    && forall i {:trigger Numbers(r)[i]} :: 0 <= i < |Numbers(r)| ==> Numbers(r)[i] < 100_000_000_000_000
  }

  ghost predicate FitsSmall(codec: Codec) { forall r {:trigger Small(r)} :: Small(r) ==> Frame(codec, r).Some? }

  lemma TextFitsSmall()
    ensures FitsSmall(TextCodec())
  {
    assert PowerOfTen(14) == 100_000_000_000_000;
    forall r | Small(r) ensures Frame(TextCodec(), r).Some? { ModestFits(r, 14); }
  }

  lemma BurnIsSmall(sequence: nat, owner: Id)
    requires 1 <= sequence <= 5 && owner <= 2
    ensures Small(SampleBurn(sequence, owner))
  {
  }

  lemma FinishIsSmall(sequence: nat, at: int, credential: Id, attempt: Id, reason: Reason)
    requires 1 <= sequence <= 7 && 0 < at <= 6 * HOUR && credential <= 50 && attempt <= 51
    ensures Small(Record(sequence, at, Finish(Ordinary, credential, attempt, reason)))
  {
  }

  lemma ShakyIsSmall()
    ensures forall k :: 0 <= k < |Shaky| ==> Small(Shaky[k])
  {
    assert Small(Shaky[0]);
    BurnIsSmall(2, 1);
    BurnIsSmall(3, 1);
    BurnIsSmall(4, 2);
    BurnIsSmall(5, 2);
    FinishIsSmall(6, 6 * HOUR, 40, 41, CarrierError);
  }

  lemma ShakyFits(codec: Codec)
    requires FitsSmall(codec)
    ensures Framed(codec, Shaky) && FinishesFit(codec, Shaky)
  {
    ShakyIsSmall();
    WatermarkWithin(Shaky, 6 * HOUR);
    forall i | 0 <= i < |Shaky| && Shaky[i].body.Burn? ensures Frame(codec, SuccessOf(Shaky, Shaky[i])).Some? {
      FinishIsSmall(7, HighWatermark(Shaky), Shaky[i].body.credential, Shaky[i].body.attempt, Success);
    }
  }

  lemma {:induction false} WatermarkWithin(h: History, t: int)
    requires t >= 0 && forall i :: 0 <= i < |h| ==> h[i].at <= t
    ensures HighWatermark(h) <= t
  {
    if h != [] { WatermarkWithin(DropLast(h), t); }
  }

  /** An open ordinary circuit does close in some run from a fresh journal, with nothing left to assume. */
  lemma LatchFails() returns (codec: Codec, st: Ledger, events: seq<Event>, e: Event)
    ensures Sound(codec) && Created(codec, st, HOUR, false) && Legal(codec, st, events + [e])
    ensures NoReset(codec, st, events + [e], Ordinary)
    ensures
      var open := ReadHistory(codec, Run(codec, st, events).file);
      open.Some? && Open(open.value, Some(2), Ordinary) && Run(codec, st, events).parties.owner == 2
    ensures
      var shut := ReadHistory(codec, Run(codec, st, events + [e]).file);
      shut.Some? && !Open(shut.value, Some(2), Ordinary) && Run(codec, st, events + [e]).parties.owner == 2
  {
    codec := TextCodec();
    TextIsSound();
    TextFitsSmall();
    ShakyFits(codec);
    st := Ledger(FrameOf(codec, Shaky[0]), Parties(1, {}, {}));
    events, e := OrdinaryCircuitCanClose(codec, st);
  }
}
