/** What the safety latch assumes of its codec is what decimal text has. */
module TripWitness {
  import opened Basics
  import opened DecimalText
  import opened SafetyTrip

  const MAX_TEXT: nat := 1024  // the longest diagnostic text or operator note

  function Text(r: Record): seq<byte> {
    Digits(Flag(r.tripped)) + [MARK] + (Digits(r.sequence) + [MARK] + r.detail)
  }

  lemma TextsDiffer(a: Record, b: Record)
    requires Text(a) == Text(b)
    ensures a == b
  {
    LineSplits(Digits(Flag(a.tripped)), Digits(a.sequence) + [MARK] + a.detail,
      Digits(Flag(b.tripped)), Digits(b.sequence) + [MARK] + b.detail);
    LineSplits(Digits(a.sequence), a.detail, Digits(b.sequence), b.detail);
    DigitsDiffer(Flag(a.tripped), Flag(b.tripped));
    DigitsDiffer(a.sequence, b.sequence);
  }

  ghost function Reading(data: seq<byte>): Option<Record> {
    if exists r :: Text(r) == data then var r :| Text(r) == data; Some(r) else None
  }

  lemma TextFits(codec: Codec, r: Record)
    requires codec.encode == Text && ValidRecord(r) && |r.detail| <= MAX_TEXT
    ensures RecordFits(codec, r)
  {
    assert PowerOfTen(12) == 1_000_000_000_000;
    assert PowerOfTen(20) == 100_000_000_000_000_000_000;
    DigitsShort(r.sequence, 20);
  }

  lemma SomeCodec() returns (codec: Codec)
    ensures Sound(codec)
    ensures forall r :: ValidRecord(r) && |r.detail| <= MAX_TEXT ==> RecordFits(codec, r)
  {
    codec := Codec(Text, Reading);
    forall r ensures Reading(Text(r)) == Some(r) { TextsDiffer(Reading(Text(r)).value, r); }
    forall r | ValidRecord(r) && |r.detail| <= MAX_TEXT ensures RecordFits(codec, r) { TextFits(codec, r); }
  }

  /** A store in which every trip of bounded text can be reset again, with nothing left to assume. */
  lemma TripsAndResets(detail: seq<byte>, note: seq<byte>) returns (codec: Codec, file: seq<byte>)
    requires |detail| <= MAX_TEXT && 0 < |note| <= MAX_TEXT
    ensures
      var tripped := Apply(codec, file, Trip(detail, Everything));
      && Sound(codec) && Read(codec, file) == IsClear(Record(false, 0, []))
      && Read(codec, tripped) == IsTripped(Record(true, 1, detail))
      && Read(codec, Apply(codec, tripped, Reset(1, note, Everything))) == IsClear(Record(false, 2, note))
  {
    codec := SomeCodec();
    var first := Record(false, 0, []);
    file := [LATCH_CLEAR] + codec.encode(first);
    assert file[1..] == codec.encode(first);
    assert RecordFits(codec, first) && codec.encode(first) != [];
    assert RecordFits(codec, Record(true, 1, detail)) && RecordFits(codec, Record(false, NextSequence(1), note));
    TripThenReset(codec, file, detail, note);
  }
}
