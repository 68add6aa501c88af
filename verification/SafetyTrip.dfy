/** The one-byte safety latch and its checksummed record
    (internal/governor/safety_trip.go): crash points, torn records, resets.

    The text encoding with its checksum is a pair of functions; a record that
    was being overwritten when the machine died may hold any bytes at all. */
module SafetyTrip {
  import opened Basics

  const LATCH_CLEAR: byte := 67
  const LATCH_TRIPPED: byte := 84
  const MAX_FILE_BYTES: nat := 16 * 1024
  const SEQUENCE_LIMIT: nat := 0x1_0000_0000_0000_0000

  /** `detail` stands for the bounded diagnostic text, empty or not. */
  datatype Record = Record(tripped: bool, sequence: nat, detail: seq<byte>)

  predicate ValidRecord(r: Record) {
    && r.sequence < SEQUENCE_LIMIT
    && (r.tripped ==> r.sequence > 0)
    && (!r.tripped && r.sequence > 0 ==> r.detail != [])
  }

  function NextSequence(s: nat): nat { (s + 1) % SEQUENCE_LIMIT }

  datatype Codec = Codec(encode: Record -> seq<byte>, decode: seq<byte> -> Option<Record>)

  ghost predicate Sound(codec: Codec) {
    && (forall r :: ValidRecord(r) ==> codec.decode(codec.encode(r)) == Some(r))
    && codec.decode([]) == None
  }

  datatype Status = IsClear(record: Record) | IsTripped(record: Record) | Indeterminate

  predicate Blocks(s: Status) { !s.IsClear? }

  function Read(codec: Codec, file: seq<byte>): Status {
    if |file| < 2 || |file| > MAX_FILE_BYTES then Indeterminate
    else
      match codec.decode(file[1..])
      case None => Indeterminate
      case Some(r) =>
        if !ValidRecord(r) then Indeterminate
        else if file[0] == LATCH_CLEAR && !r.tripped then IsClear(r)
        else if file[0] == LATCH_TRIPPED && r.tripped then IsTripped(r)
        else Indeterminate
  }

  /** How far an operation gets before the machine dies or the disk fails. */
  datatype Reach =
    | Nothing              // no byte reached the disk
    | FirstWrite           // the first write is durable, the second never started
    | Torn(rest: seq<byte>) // the record was being written: any bytes may follow the latch
    | Everything

  datatype Op =
    | Trip(detail: seq<byte>, reach: Reach)
    | Reset(expected: nat, note: seq<byte>, reach: Reach)

  predicate RecordFits(codec: Codec, r: Record) {
    ValidRecord(r) && 1 + |codec.encode(r)| <= MAX_FILE_BYTES
  }

  function TripRecord(current: Record, detail: seq<byte>): Record {
    Record(true, NextSequence(current.sequence), detail)
  }

  function ClearRecord(current: Record, note: seq<byte>): Record { Record(false, NextSequence(current.sequence), note) }

  /** The file after a trip: the latch first, then the record. */
  function AfterTrip(codec: Codec, file: seq<byte>, detail: seq<byte>, reach: Reach): seq<byte> {
    match Read(codec, file)
    case IsClear(current) =>
      var r := TripRecord(current, detail);
      if reach.Nothing? then file
      else if reach.FirstWrite? || !RecordFits(codec, r) then [LATCH_TRIPPED] + file[1..]
      else if reach.Torn? then [LATCH_TRIPPED] + reach.rest
      else [LATCH_TRIPPED] + codec.encode(r)
    case _ => file
  }

  /** The reset quotes the sequence that is tripped now. */
  predicate Quotes(codec: Codec, file: seq<byte>, expected: nat, note: seq<byte>) {
    var s := Read(codec, file);
    expected != 0 && note != [] && s.IsTripped? && s.record.sequence == expected
  }

  /** The file after a reset: the record first, the latch last. */
  function AfterReset(codec: Codec, file: seq<byte>, expected: nat, note: seq<byte>, reach: Reach): seq<byte> {
    if !Quotes(codec, file, expected, note) then file
    else
      var r := ClearRecord(Read(codec, file).record, note);
      if reach.Nothing? || !RecordFits(codec, r) then file
      else if reach.FirstWrite? then [LATCH_TRIPPED] + codec.encode(r)
      else if reach.Torn? then [LATCH_TRIPPED] + reach.rest
      else [LATCH_CLEAR] + codec.encode(r)
  }

  function Apply(codec: Codec, file: seq<byte>, op: Op): seq<byte> {
    match op
    case Trip(detail, reach) => AfterTrip(codec, file, detail, reach)
    case Reset(expected, note, reach) => AfterReset(codec, file, expected, note, reach)
  }

  function Run(codec: Codec, file: seq<byte>, ops: seq<Op>): seq<byte>
    decreases |ops|
  {
    if ops == [] then file else Run(codec, Apply(codec, file, ops[0]), ops[1..])
  }

  /** This operation is a reset that quoted the tripped sequence and wrote its final latch byte. */
  predicate Clears(codec: Codec, file: seq<byte>, op: Op) {
    && op.Reset? && op.reach.Everything?
    && Quotes(codec, file, op.expected, op.note)
    && RecordFits(codec, ClearRecord(Read(codec, file).record, op.note))
  }

  predicate SomeClears(codec: Codec, file: seq<byte>, ops: seq<Op>)
    decreases |ops|
  {
    ops != [] && (Clears(codec, file, ops[0]) || SomeClears(codec, Apply(codec, file, ops[0]), ops[1..]))
  }

  predicate Latched(file: seq<byte>) { |file| >= 1 && file[0] == LATCH_TRIPPED }

  // ----- the store -----------------------------------------------------------------------

  class TripStore {
    const codec: Codec
    var file: seq<byte>

    constructor (codec: Codec, file: seq<byte>)
      ensures this.codec == codec && this.file == file
    {
      this.codec, this.file := codec, file;
    }

    /** One synchronized byte at the front. */
    method WriteLatch(latch: byte)
      requires |file| >= 1
      modifies this
      ensures file == [latch] + old(file)[1..]
    {
      file := file[0 := latch];
    }

    /** Everything behind the latch, then a truncation to size; or the torn bytes a crash left there. */
    method WriteRecord(r: Record, reach: Reach) returns (ok: bool)
      requires |file| >= 1
      modifies this
      ensures ok <==> RecordFits(codec, r) && !reach.Torn?
      ensures file == if !RecordFits(codec, r) then old(file)
                      else [old(file)[0]] + if reach.Torn? then reach.rest else codec.encode(r)
    {
      if !RecordFits(codec, r) { return false; }
      file := [file[0]] + if reach.Torn? then reach.rest else codec.encode(r);
      return !reach.Torn?;
    }

    /** tripThen: the blocking latch is durable before any detail is written. */
    method TripLatch(detail: seq<byte>, reach: Reach)
      modifies this
      ensures file == AfterTrip(codec, old(file), detail, reach)
    {
      var current := Read(codec, file);
      if !current.IsClear? || reach.Nothing? { return; }
      var r := TripRecord(current.record, detail);
      WriteLatch(LATCH_TRIPPED);
      if reach.FirstWrite? { return; }
      var ok := WriteRecord(r, reach);
    }

    /** reset: the latch stays tripped until the whole clear record is on disk. */
    method ResetLatch(expected: nat, note: seq<byte>, reach: Reach)
      modifies this
      ensures file == AfterReset(codec, old(file), expected, note, reach)
    {
      if expected == 0 || note == [] { return; }
      var current := Read(codec, file);
      if !current.IsTripped? || expected != current.record.sequence { return; }
      var r := ClearRecord(current.record, note);
      if reach.Nothing? { return; }
      var ok := WriteRecord(r, reach);
      if !ok || reach.FirstWrite? { return; }
      WriteLatch(LATCH_CLEAR);
    }
  }

  // ----- fail-closed --------------------------------------------------------------------------

  lemma LatchedBlocks(codec: Codec, file: seq<byte>)
    requires Latched(file)
    ensures Blocks(Read(codec, file))
  {
  }

  /** A record that was written whole is read back exactly when its latch agrees with it. */
  lemma WrittenReads(codec: Codec, latch: byte, r: Record)
    requires Sound(codec) && RecordFits(codec, r)
    ensures
      var s := Read(codec, [latch] + codec.encode(r));
      s == if latch == LATCH_CLEAR && !r.tripped then IsClear(r)
           else if latch == LATCH_TRIPPED && r.tripped then IsTripped(r)
           else Indeterminate
  {
    assert ([latch] + codec.encode(r))[1..] == codec.encode(r);
    assert codec.encode(r) != [];
  }

  /** And whatever is read from any file is a valid record under the latch that agrees with it, in a file of possible
      size. */
  lemma ReadIsWritten(codec: Codec, file: seq<byte>)
    requires !Read(codec, file).Indeterminate?
    ensures
      var s := Read(codec, file);
      && 2 <= |file| <= 16 * 1024 && codec.decode(file[1..]) == Some(s.record)
      && s.record.sequence < 0x1_0000_0000_0000_0000
      && (if s.record.sequence == 0 then !s.record.tripped else s.record.tripped || s.record.detail != [])
      && file[0] == (if s.record.tripped then LATCH_TRIPPED else LATCH_CLEAR) && (s.IsTripped? <==> s.record.tripped)
  {
  }

  /** A trip changes only a clear file, a reset only a tripped one whose sequence it quotes with a note. */
  lemma OnlyTheirOwn(codec: Codec, file: seq<byte>, op: Op)
    requires Apply(codec, file, op) != file
    ensures if op.Trip? then Read(codec, file).IsClear?
            else
              && Read(codec, file).IsTripped? && Read(codec, file).record.sequence == op.expected && op.expected != 0
              && op.note != []
  {
  }

  /** A step lifts a tripped latch exactly when it is such a reset, and then the file reads clear. */
  lemma OnlyClearsLift(codec: Codec, file: seq<byte>, op: Op)
    requires Latched(file)
    ensures Clears(codec, file, op) <==> !Latched(Apply(codec, file, op))
    ensures Sound(codec) && Clears(codec, file, op) ==> Read(codec, Apply(codec, file, op)).IsClear?
  {
    if Sound(codec) && Clears(codec, file, op) {
      var r := ClearRecord(Read(codec, file).record, op.note);
      assert ([LATCH_CLEAR] + codec.encode(r))[1..] == codec.encode(r);
    }
  }

  /** Once the trip latch is on disk, every later read blocks, whatever crashes and torn bytes follow,
      until some reset quotes the exact tripped sequence and writes its final latch byte. */
  lemma {:induction false} BlocksUntilReset(codec: Codec, file: seq<byte>, ops: seq<Op>)
    requires Latched(file) && !SomeClears(codec, file, ops)
    ensures Latched(Run(codec, file, ops)) && Blocks(Read(codec, Run(codec, file, ops)))
    decreases |ops|
  {
    if ops == [] {
      LatchedBlocks(codec, file);
    } else {
      BlocksUntilReset(codec, Apply(codec, file, ops[0]), ops[1..]);
    }
  }

  /** From a clear file, a trip that gets as far as its first write blocks from then on. */
  lemma TripCommits(codec: Codec, file: seq<byte>, detail: seq<byte>, reach: Reach, ops: seq<Op>)
    requires Read(codec, file).IsClear? && !reach.Nothing?
    requires !SomeClears(codec, AfterTrip(codec, file, detail, reach), ops)
    ensures Blocks(Read(codec, Run(codec, AfterTrip(codec, file, detail, reach), ops)))
  {
    BlocksUntilReset(codec, AfterTrip(codec, file, detail, reach), ops);
  }

  /** No operation changes an indeterminate file: only repair from outside helps. */
  lemma {:induction false} IndeterminateAbsorbs(codec: Codec, file: seq<byte>, ops: seq<Op>)
    requires Read(codec, file).Indeterminate?
    ensures Run(codec, file, ops) == file
    decreases |ops|
  {
    if ops != [] { IndeterminateAbsorbs(codec, file, ops[1..]); }
  }

  /** An uninterrupted trip and the reset that quotes it bring back a clear file, two sequences later. */
  lemma TripThenReset(codec: Codec, file: seq<byte>, detail: seq<byte>, note: seq<byte>)
    requires Sound(codec) && Read(codec, file).IsClear?
    requires note != [] && Read(codec, file).record.sequence + 1 < SEQUENCE_LIMIT
    requires
      var s := Read(codec, file).record.sequence;
      RecordFits(codec, Record(true, s + 1, detail)) && RecordFits(codec, Record(false, NextSequence(s + 1), note))
    ensures
      var s := Read(codec, file).record.sequence;
      var tripped := Apply(codec, file, Trip(detail, Everything));
      && Read(codec, tripped) == IsTripped(Record(true, s + 1, detail))
      && Read(codec, Apply(codec, tripped, Reset(s + 1, note, Everything))) ==
         IsClear(Record(false, NextSequence(s + 1), note))
  {
    var s := Read(codec, file).record.sequence;
    var r1, r2 := Record(true, s + 1, detail), Record(false, NextSequence(s + 1), note);
    assert ValidRecord(r1) && ValidRecord(r2);
    var tripped := [LATCH_TRIPPED] + codec.encode(r1);
    assert tripped[1..] == codec.encode(r1);
    assert codec.encode(r1) != [] && codec.encode(r2) != [];
    assert Read(codec, tripped) == IsTripped(r1);
    var cleared := [LATCH_CLEAR] + codec.encode(r2);
    assert cleared[1..] == codec.encode(r2);
  }

  // ----- stale resets ----------------------------------------------------------------------

  /** The checksum's promise: a torn record reads as the old one, as the new one, or not at all. */
  ghost predicate TornHonestly(codec: Codec, file: seq<byte>, op: Op) {
    op.reach.Torn? && |file| >= 1 ==>
      var was, now := codec.decode(file[1..]), codec.decode(op.reach.rest);
      && (now.None? || now == was || now == Written(codec, file, op))
      && |op.reach.rest| < MAX_FILE_BYTES
  }

  /** The record an operation was writing. */
  function Written(codec: Codec, file: seq<byte>, op: Op): Option<Record> {
    var s := Read(codec, file);
    match op
    case Trip(detail, _) => if s.IsClear? then Some(TripRecord(s.record, detail)) else None
    case Reset(_, note, _) => if s.IsTripped? then Some(ClearRecord(s.record, note)) else None
  }

  ghost predicate Honest(codec: Codec, file: seq<byte>, ops: seq<Op>)
    decreases |ops|
  {
    ops == [] || (TornHonestly(codec, file, ops[0]) && Honest(codec, Apply(codec, file, ops[0]), ops[1..]))
  }

  /** One operation leaves a readable file's record, makes it unreadable, or moves its sequence on by one. */
  lemma SequenceMovesOn(codec: Codec, file: seq<byte>, op: Op)
    requires Sound(codec) && TornHonestly(codec, file, op) && !Read(codec, file).Indeterminate?
    ensures
      var s, t := Read(codec, file), Read(codec, Apply(codec, file, op));
      t.Indeterminate? || t.record == s.record || t.record.sequence == NextSequence(s.record.sequence)
  {
    var s, f := Read(codec, file), Apply(codec, file, op);
    if f != file {
      if op.reach.Torn? {
        assert f[1..] == op.reach.rest || f[1..] == file[1..];
      } else if op.reach.FirstWrite? && op.Trip? {
        assert f[1..] == file[1..];
      } else {
        var r := Written(codec, file, op).value;
        if RecordFits(codec, r) { assert f[1..] == codec.encode(r); } else { assert f[1..] == file[1..]; }
      }
    }
  }

  /** The operation replaces the record of a readable file by another readable one. */
  predicate Replaces(codec: Codec, file: seq<byte>, op: Op) {
    var s, t := Read(codec, file), Read(codec, Apply(codec, file, op));
    !s.Indeterminate? && !t.Indeterminate? && t.record != s.record
  }

  /** How many records a run puts in place, one after the other. */
  function Replacements(codec: Codec, file: seq<byte>, ops: seq<Op>): nat
    decreases |ops|
  {
    if ops == [] then 0
    else (if Replaces(codec, file, ops[0]) then 1 else 0) + Replacements(codec, Apply(codec, file, ops[0]), ops[1..])
  }

  lemma NextAndOn(s: nat, n: nat)
    requires s < SEQUENCE_LIMIT
    ensures (NextSequence(s) + n) % SEQUENCE_LIMIT == (s + 1 + n) % SEQUENCE_LIMIT
  {
    if s + 1 == SEQUENCE_LIMIT { assert (s + 1 + n) % SEQUENCE_LIMIT == (n + SEQUENCE_LIMIT) % SEQUENCE_LIMIT; }
  }

  /** The sequence of a file that can still be read counts the records put in place, in 64 bits. */
  lemma {:induction false} SequenceCounts(codec: Codec, file: seq<byte>, ops: seq<Op>)
    requires Sound(codec) && Honest(codec, file, ops) && !Read(codec, file).Indeterminate?
    ensures
      var s, t := Read(codec, file), Read(codec, Run(codec, file, ops));
      !t.Indeterminate? ==> t.record.sequence == (s.record.sequence + Replacements(codec, file, ops)) % SEQUENCE_LIMIT
    decreases |ops|
  {
    if ops != [] {
      SequenceMovesOn(codec, file, ops[0]);
      var next := Apply(codec, file, ops[0]);
      if Read(codec, next).Indeterminate? {
        IndeterminateAbsorbs(codec, next, ops[1..]);
      } else {
        SequenceCounts(codec, next, ops[1..]);
        if Replaces(codec, file, ops[0]) {
          NextAndOn(Read(codec, file).record.sequence, Replacements(codec, next, ops[1..]));
        }
      }
    }
  }

  lemma WholeTurns(s: nat, n: nat)
    requires s < SEQUENCE_LIMIT
    ensures (s + n) % SEQUENCE_LIMIT == s <==> n % SEQUENCE_LIMIT == 0
  {
    var q, r := n / SEQUENCE_LIMIT, n % SEQUENCE_LIMIT;
    var whole := if s + r < SEQUENCE_LIMIT then s + r else s + r - SEQUENCE_LIMIT;
    assert s + n == SEQUENCE_LIMIT * q + s + r;
    assert (s + n) % SEQUENCE_LIMIT == whole by {
      if s + r < SEQUENCE_LIMIT {
        Remainder(s + n, q, whole);
      } else {
        assert s + n == SEQUENCE_LIMIT * (q + 1) + whole;
        Remainder(s + n, q + 1, whole);
      }
    }
  }

  lemma Remainder(x: nat, q: nat, r: nat)
    requires r < SEQUENCE_LIMIT && x == SEQUENCE_LIMIT * q + r
    ensures x % SEQUENCE_LIMIT == r
  {
  }

  /** A reset that quotes an earlier trip takes hold of a later state exactly when that state is tripped and the
      records put in place since then went round the whole 64-bit counter, or there were none. */
  lemma StaleResetTakesHold(codec: Codec, file: seq<byte>, ops: seq<Op>, note: seq<byte>)
    requires Sound(codec) && Honest(codec, file, ops) && Read(codec, file).IsTripped? && note != []
    ensures
      var later := Run(codec, file, ops);
      Quotes(codec, later, Read(codec, file).record.sequence, note) <==>
        Read(codec, later).IsTripped? && Replacements(codec, file, ops) % SEQUENCE_LIMIT == 0
  {
    SequenceCounts(codec, file, ops);
    WholeTurns(Read(codec, file).record.sequence, Replacements(codec, file, ops));
  }

  /** Otherwise it changes nothing. */
  lemma StaleResetHarmless(codec: Codec, file: seq<byte>, ops: seq<Op>, note: seq<byte>, reach: Reach)
    requires Sound(codec) && Honest(codec, file, ops) && Read(codec, file).IsTripped?
    requires Replacements(codec, file, ops) % SEQUENCE_LIMIT != 0
    ensures
      var later := Run(codec, file, ops);
      Apply(codec, later, Reset(Read(codec, file).record.sequence, note, reach)) == later
  {
    if note != [] { StaleResetTakesHold(codec, file, ops, note); }
  }
}
