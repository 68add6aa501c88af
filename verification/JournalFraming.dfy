/** Length-prefixed framing of the pairing journal.

    The text encoding and its checksum are a pair of functions supplied by the
    caller; the only thing assumed of them is that decoding an encoded record
    gives the record back. */
module JournalFraming {
  import opened Basics
  import opened PairingRecords

  datatype Codec = Codec(encode: Record -> seq<byte>, decode: seq<byte> -> Option<Record>)

  ghost predicate Sound(codec: Codec) {
    forall r :: ValidRecord(r) ==> codec.decode(codec.encode(r)) == Some(r)
  }

  function PutUint32(n: int): (s: seq<byte>)
    requires 0 <= n < 0x1_0000_0000
    ensures |s| == 4 && Uint32(s) == n
  {
    var high, low := n / 0x1_0000, n % 0x1_0000;
    [high / 256, high % 256, low / 256, low % 256]
  }

  function Uint32(s: seq<byte>): (n: int)
    requires |s| == 4
    ensures 0 <= n < 0x1_0000_0000
  {
    s[0] as int * 0x100_0000 + s[1] as int * 0x1_0000 + s[2] as int * 256 + s[3] as int
  }

  /** The frame of a record, or None when the record is invalid or its text too long. */
  function Frame(codec: Codec, r: Record): (f: Option<seq<byte>>)
    ensures f.Some? ==> 4 < |f.value| <= 4 + MAX_FRAME_BYTES
  {
    if !ValidRecord(r) then None
    else
      var body := codec.encode(r);
      if |body| == 0 || |body| > MAX_FRAME_BYTES then None
      else Some(PutUint32(|body|) + body)
  }

  predicate Framed(codec: Codec, records: seq<Record>) {
    forall i :: 0 <= i < |records| ==> Frame(codec, records[i]).Some?
  }

  function FrameOf(codec: Codec, r: Record): (f: seq<byte>)
    requires Frame(codec, r).Some?
    ensures 4 < |f|
  {
    Frame(codec, r).value
  }

  /** The journal bytes that carry the records. */
  function Bytes(codec: Codec, records: seq<Record>): seq<byte>
    requires Framed(codec, records)
  {
    if records == [] then [] else FrameOf(codec, records[0]) + Bytes(codec, records[1..])
  }

  /** One frame at the offset, and how many bytes it takes. */
  function ParseFrame(codec: Codec, data: seq<byte>, offset: nat): (p: Option<(Record, nat)>)
    requires offset <= |data|
    ensures p.Some? ==> 4 < p.value.1 <= |data| - offset
  {
    if |data| - offset < 4 then None
    else
      var n := Uint32(data[offset..offset + 4]);
      if n <= 0 || n > MAX_FRAME_BYTES || n > |data| - (offset + 4) then None
      else
        match codec.decode(data[offset + 4..offset + 4 + n])
        case None => None
        case Some(r) => if ValidRecord(r) then Some((r, 4 + n)) else None
  }

  function Prepend(front: seq<Record>, rest: Option<seq<Record>>): Option<seq<Record>> {
    if rest.None? then None else Some(front + rest.value)
  }

  lemma PrependTwice(a: seq<Record>, b: seq<Record>, rest: Option<seq<Record>>)
    ensures Prepend(a, Prepend(b, rest)) == Prepend(a + b, rest)
    ensures Prepend([], rest) == rest
  {
    if rest.Some? {
      assert a + (b + rest.value) == a + b + rest.value;
      assert [] + rest.value == rest.value;
    }
  }

  /** Every record from the offset on, after `seen` earlier ones. */
  function ParseFrom(codec: Codec, data: seq<byte>, offset: nat, seen: nat): Option<seq<Record>>
    requires offset <= |data|
    decreases |data| - offset
  {
    if offset == |data| then Some([])
    else
      match ParseFrame(codec, data, offset)
      case None => None
      case Some((r, n)) =>
        if seen + 1 > MAX_LEDGER_RECORDS then None
        else Prepend([r], ParseFrom(codec, data, offset + n, seen + 1))
  }

  /** The same, by a name that a proof unfolds one frame at a time. */
  function Tail(codec: Codec, data: seq<byte>, offset: nat, seen: nat): Option<seq<Record>>
    requires offset <= |data|
  {
    ParseFrom(codec, data, offset, seen)
  }

  function DecodeJournal(codec: Codec, data: seq<byte>): Option<seq<Record>> {
    if data == [] then None else Tail(codec, data, 0, 0)
  }

  /** One iteration of the decoding loop. */
  method DecodeFrame(codec: Codec, data: seq<byte>, offset: nat) returns (frame: Option<(Record, nat)>)
    requires offset <= |data|
    ensures frame == ParseFrame(codec, data, offset)
  {
    if |data| - offset < 4 { return None; }
    var bodyLength := Uint32(data[offset..offset + 4]);
    if bodyLength <= 0 || bodyLength > MAX_FRAME_BYTES { return None; }
    if bodyLength > |data| - (offset + 4) { return None; }
    var decoded := codec.decode(data[offset + 4..offset + 4 + bodyLength]);
    if decoded.None? || !ValidRecord(decoded.value) { return None; }
    return Some((decoded.value, 4 + bodyLength));
  }

  /** One more frame, seen from what is already decoded. */
  lemma OneMoreFrame(codec: Codec, data: seq<byte>, offset: nat, records: seq<Record>, whole: Option<seq<Record>>)
    requires offset < |data| && whole == Prepend(records, Tail(codec, data, offset, |records|))
    ensures
      var p := ParseFrame(codec, data, offset);
      if p.None? || |records| + 1 > MAX_LEDGER_RECORDS then whole.None?
      else whole == Prepend(records + [p.value.0], Tail(codec, data, offset + p.value.1, |records| + 1))
  {
    var p := ParseFrame(codec, data, offset);
    if p.Some? { PrependTwice(records, [p.value.0], Tail(codec, data, offset + p.value.1, |records| + 1)); }
  }

  /** The decoding loop: one frame per iteration, collected in order. */
  method Decode(codec: Codec, data: seq<byte>) returns (result: Option<seq<Record>>)
    ensures result == DecodeJournal(codec, data)
  {
    if |data| == 0 { return None; }
    var records: seq<Record> := [];
    var offset := 0;
    ghost var whole := DecodeJournal(codec, data);
    PrependTwice([], [], whole);
    while offset < |data|
      invariant 0 <= offset <= |data|
      invariant whole == Prepend(records, Tail(codec, data, offset, |records|))
    {
      var frame := DecodeFrame(codec, data, offset);
      OneMoreFrame(codec, data, offset, records, whole);
      if frame.None? { return None; }
      records := records + [frame.value.0];
      if |records| > MAX_LEDGER_RECORDS { return None; }
      offset := offset + frame.value.1;
    }
    assert records + [] == records;
    return Some(records);
  }

  // ----- laws -------------------------------------------------------------------

  /** The data holds `part` at the offset. */
  predicate Here(data: seq<byte>, offset: nat, part: seq<byte>) {
    offset + |part| <= |data| && data[offset..offset + |part|] == part
  }

  lemma HereSplits(data: seq<byte>, offset: nat, a: seq<byte>, b: seq<byte>)
    requires Here(data, offset, a + b)
    ensures Here(data, offset, a) && Here(data, offset + |a|, b)
  {
    forall i | 0 <= i < |a| + |b| ensures data[offset + i] == (a + b)[i] {
      assert data[offset..offset + |a + b|][i] == (a + b)[i];
    }
    assert forall i :: 0 <= i < |a| ==> data[offset..offset + |a|][i] == data[offset + i] == (a + b)[i] == a[i];
    var next := offset + |a|;
    forall i | 0 <= i < |b| ensures data[next..next + |b|][i] == b[i] {
      assert data[offset + (|a| + i)] == (a + b)[|a| + i];
    }
  }

  /** What was put together is there. */
  lemma HereJoined(a: seq<byte>, b: seq<byte>)
    ensures Here(a + b, 0, a) && (a + b)[|a|..] == b
  {
  }

  lemma FrameParses(codec: Codec, data: seq<byte>, offset: nat, r: Record)
    requires Sound(codec) && Frame(codec, r).Some? && Here(data, offset, FrameOf(codec, r))
    ensures ParseFrame(codec, data, offset) == Some((r, |FrameOf(codec, r)|))
  {
    var body := codec.encode(r);
    HereSplits(data, offset, PutUint32(|body|), body);
  }

  lemma CutFrameFails(codec: Codec, data: seq<byte>, offset: nat, r: Record, k: nat)
    requires Frame(codec, r).Some? && k < |FrameOf(codec, r)|
    requires offset + k == |data| && data[offset..] == FrameOf(codec, r)[..k]
    ensures ParseFrame(codec, data, offset).None?
  {
    var f := FrameOf(codec, r);
    if 4 <= k {
      assert data[offset..][..4] == data[offset..offset + 4];
      assert f[..k][..4] == f[..4] == PutUint32(|codec.encode(r)|);
    }
  }

  /** One frame after the other gives these records, up to `end`. */
  predicate Lined(codec: Codec, data: seq<byte>, offset: nat, records: seq<Record>, end: nat)
    decreases |records|
  {
    offset <= |data| &&
    if records == [] then offset == end
    else
      var p := ParseFrame(codec, data, offset);
      p.Some? && p.value.0 == records[0] && Lined(codec, data, offset + p.value.1, records[1..], end)
  }

  lemma {:induction false} LinedParses(codec: Codec, data: seq<byte>, offset: nat, records: seq<Record>, end: nat,
                                       seen: nat)
    requires Lined(codec, data, offset, records, end) && seen + |records| <= MAX_LEDGER_RECORDS
    ensures offset <= end <= |data|
    ensures Tail(codec, data, offset, seen) == Prepend(records, Tail(codec, data, end, seen + |records|))
    decreases |records|
  {
    if records == [] {
      PrependTwice([], [], Tail(codec, data, end, seen));
    } else {
      var (r, n) := ParseFrame(codec, data, offset).value;
      LinedParses(codec, data, offset + n, records[1..], end, seen + 1);
      PrependTwice([r], records[1..], Tail(codec, data, end, seen + |records|));
      assert [r] + records[1..] == records;
    }
  }

  /** The frames of some records line up wherever they stand. */
  lemma {:induction false} FramesLineUp(codec: Codec, data: seq<byte>, offset: nat, records: seq<Record>)
    requires Sound(codec) && Framed(codec, records) && Here(data, offset, Bytes(codec, records))
    ensures Lined(codec, data, offset, records, offset + |Bytes(codec, records)|)
    decreases |records|
  {
    if records != [] {
      HereSplits(data, offset, FrameOf(codec, records[0]), Bytes(codec, records[1..]));
      FrameParses(codec, data, offset, records[0]);
      FramesLineUp(codec, data, offset + |FrameOf(codec, records[0])|, records[1..]);
    }
  }

  lemma {:induction false} BytesNonempty(codec: Codec, records: seq<Record>)
    requires Framed(codec, records)
    ensures records != [] ==> Bytes(codec, records) != []
    ensures records == [] ==> Bytes(codec, records) == []
  {
  }

  lemma {:induction false} BytesAppend(codec: Codec, records: seq<Record>, r: Record)
    requires Framed(codec, records) && Frame(codec, r).Some?
    ensures Framed(codec, records + [r])
    ensures Bytes(codec, records + [r]) == Bytes(codec, records) + FrameOf(codec, r)
  {
    if records == [] {
      assert records + [r] == [r] && [r][1..] == [];
    } else {
      BytesAppend(codec, records[1..], r);
      assert (records + [r])[1..] == records[1..] + [r];
    }
  }

  lemma AllLined(codec: Codec, data: seq<byte>, records: seq<Record>)
    requires Lined(codec, data, 0, records, |data|) && data != [] && |records| <= MAX_LEDGER_RECORDS
    ensures DecodeJournal(codec, data) == Some(records)
  {
    LinedParses(codec, data, 0, records, |data|, 0);
    assert records + [] == records;
  }

  lemma LinedThenCut(codec: Codec, data: seq<byte>, records: seq<Record>, end: nat)
    requires Lined(codec, data, 0, records, end) && |records| <= MAX_LEDGER_RECORDS
    requires end < |data| && ParseFrame(codec, data, end).None?
    ensures DecodeJournal(codec, data).None?
  {
    LinedParses(codec, data, 0, records, end, 0);
  }

  lemma WholeInside(codec: Codec, data: seq<byte>, records: seq<Record>)
    requires Sound(codec) && Framed(codec, records) && |records| <= MAX_LEDGER_RECORDS && data != []
    requires Here(data, 0, Bytes(codec, records)) && |data| == |Bytes(codec, records)|
    ensures DecodeJournal(codec, data) == Some(records)
  {
    FramesLineUp(codec, data, 0, records);
    AllLined(codec, data, records);
  }

  /** Decoding the encoded journal gives back exactly its records. */
  lemma RoundTrip(codec: Codec, records: seq<Record>)
    requires Sound(codec) && Framed(codec, records)
    requires 0 < |records| <= MAX_LEDGER_RECORDS
    ensures DecodeJournal(codec, Bytes(codec, records)) == Some(records)
  {
    var data := Bytes(codec, records);
    BytesNonempty(codec, records);
    assert Here(data, 0, data) by {
      HereJoined(data, []);
      assert data + [] == data;
    }
    WholeInside(codec, data, records);
  }

  lemma TornInside(codec: Codec, data: seq<byte>, records: seq<Record>, r: Record, k: nat)
    requires Sound(codec) && Framed(codec, records) && Frame(codec, r).Some? && |records| <= MAX_LEDGER_RECORDS
    requires 0 < k < |FrameOf(codec, r)| && Here(data, 0, Bytes(codec, records))
    requires |data| == |Bytes(codec, records)| + k && data[|Bytes(codec, records)|..] == FrameOf(codec, r)[..k]
    ensures DecodeJournal(codec, data).None?
  {
    var end := |Bytes(codec, records)|;
    FramesLineUp(codec, data, 0, records);
    CutFrameFails(codec, data, end, r, k);
    LinedThenCut(codec, data, records, end);
  }

  /** A journal that ends strictly inside a frame is rejected as a whole. */
  lemma TornTailRejected(codec: Codec, records: seq<Record>, r: Record, k: nat)
    requires Sound(codec) && Framed(codec, records) && Frame(codec, r).Some?
    requires |records| <= MAX_LEDGER_RECORDS
    requires 0 < k < |FrameOf(codec, r)|
    ensures DecodeJournal(codec, Bytes(codec, records) + FrameOf(codec, r)[..k]).None?
  {
    var whole, cut := Bytes(codec, records), FrameOf(codec, r)[..k];
    HereJoined(whole, cut);
    TornInside(codec, whole + cut, records, r, k);
  }

  /** Cutting a journal at any byte: a frame boundary yields the record prefix, any other cut is rejected. */
  lemma {:induction false} CutJournal(codec: Codec, records: seq<Record>, n: nat) returns (kept: nat)
    requires Sound(codec) && Framed(codec, records)
    requires |records| <= MAX_LEDGER_RECORDS
    requires n <= |Bytes(codec, records)|
    ensures kept <= |records|
    ensures |Bytes(codec, records[..kept])| <= n
    ensures kept < |records| ==> n < |Bytes(codec, records[..kept + 1])|
    ensures DecodeJournal(codec, Bytes(codec, records)[..n]) ==
            if n == |Bytes(codec, records[..kept])| && 0 < kept then Some(records[..kept]) else None
  {
    kept := FramesWithin(codec, records, n);
    var whole := Bytes(codec, records[..kept]);
    if kept == |records| {
      assert records[..kept] == records;
      assert Bytes(codec, records)[..n] == whole;
    } else {
      assert records[..kept + 1] == records[..kept] + [records[kept]];
      BytesAppend(codec, records[..kept], records[kept]);
      BytesPrefix(codec, records, kept + 1);
      var k := n - |whole|;
      assert Bytes(codec, records)[..n] == whole + FrameOf(codec, records[kept])[..k];
      if 0 < k {
        TornTailRejected(codec, records[..kept], records[kept], k);
      } else {
        assert Bytes(codec, records)[..n] == whole;
      }
    }
    if n == |whole| {
      if 0 < kept { RoundTrip(codec, records[..kept]); } else { BytesNonempty(codec, records[..0]); }
    }
  }

  lemma {:induction false} BytesPrefix(codec: Codec, records: seq<Record>, k: nat)
    requires Framed(codec, records) && k <= |records|
    ensures Bytes(codec, records[..k]) <= Bytes(codec, records)
  {
    if 0 < k {
      assert records[..k][1..] == records[1..][..k - 1];
      BytesPrefix(codec, records[1..], k - 1);
    } else {
      assert records[..0] == [];
    }
  }

  lemma {:induction false} FramesWithin(codec: Codec, records: seq<Record>, n: nat) returns (kept: nat)
    requires Framed(codec, records) && n <= |Bytes(codec, records)|
    ensures kept <= |records|
    ensures |Bytes(codec, records[..kept])| <= n
    ensures kept < |records| ==> n < |Bytes(codec, records[..kept + 1])|
  {
    kept := 0;
    assert records[..0] == [];
    while kept < |records| && |Bytes(codec, records[..kept + 1])| <= n
      invariant kept <= |records|
      invariant |Bytes(codec, records[..kept])| <= n
    {
      kept := kept + 1;
    }
  }

  // ----- nothing else is a journal --------------------------------------------------------------

  /** Texts one after the other, each behind its length. */
  function Packed(bodies: seq<seq<byte>>): seq<byte>
    requires forall i :: 0 <= i < |bodies| ==> |bodies[i]| <= MAX_FRAME_BYTES
  {
    if bodies == [] then [] else PutUint32(|bodies[0]|) + bodies[0] + Packed(bodies[1..])
  }

  /** The texts of these records, each of a length a frame may have. */
  predicate TextsOf(codec: Codec, bodies: seq<seq<byte>>, records: seq<Record>) {
    && |bodies| == |records|
    && forall i :: 0 <= i < |bodies| ==>
         0 < |bodies[i]| <= MAX_FRAME_BYTES && codec.decode(bodies[i]) == Some(records[i]) && ValidRecord(records[i])
  }

  /** Four bytes are the prefix of the number they spell, and of no other. */
  lemma PrefixIsUnique(s: seq<byte>)
    requires |s| == 4
    ensures PutUint32(Uint32(s)) == s
  {
    var high: nat, low: nat := 256 * (s[0] as int) + s[1] as int, 256 * (s[2] as int) + s[3] as int;
    Digits256(s[0], s[1]);
    Digits256(s[2], s[3]);
    Digits65536(high, low);
    assert Uint32(s) == 0x1_0000 * high + low;
  }

  lemma Digits256(a: nat, b: nat)
    requires b < 256
    ensures (256 * a + b) / 256 == a && (256 * a + b) % 256 == b
  {
  }

  lemma Digits65536(a: nat, b: nat)
    requires b < 0x1_0000
    ensures (0x1_0000 * a + b) / 0x1_0000 == a && (0x1_0000 * a + b) % 0x1_0000 == b
  {
  }

  lemma {:induction false} TailIsPacked(codec: Codec, data: seq<byte>, offset: nat, seen: nat)
    returns (bodies: seq<seq<byte>>)
    requires offset <= |data| && Tail(codec, data, offset, seen).Some?
    ensures
      var records := Tail(codec, data, offset, seen).value;
      && TextsOf(codec, bodies, records) && Packed(bodies) == data[offset..]
      && (records != [] ==> seen + |records| <= MAX_LEDGER_RECORDS)
    decreases |data| - offset
  {
    if offset == |data| {
      bodies := [];
    } else {
      var (r, n) := ParseFrame(codec, data, offset).value;
      var rest := TailIsPacked(codec, data, offset + n, seen + 1);
      var prefix, body := data[offset..offset + 4], data[offset + 4..offset + n];
      bodies := [body] + rest;
      PrefixIsUnique(prefix);
      assert bodies[1..] == rest;
      assert data[offset..] == prefix + body + data[offset + n..];
    }
  }

  /** Whatever the decoder accepts is, to the last byte, the texts of the records it returns, one frame each, within
      the record cap. */
  lemma DecodedIsPacked(codec: Codec, data: seq<byte>) returns (bodies: seq<seq<byte>>)
    requires DecodeJournal(codec, data).Some?
    ensures
      var records := DecodeJournal(codec, data).value;
      && TextsOf(codec, bodies, records) && Packed(bodies) == data
      && 0 < |records| <= MAX_LEDGER_RECORDS
  {
    bodies := TailIsPacked(codec, data, 0, 0);
    assert data[0..] == data;
  }

  /** The encoder writes exactly the frames the decoder takes: the two agree on every length. */
  lemma FrameLaw(codec: Codec, r: Record)
    requires Sound(codec) && ValidRecord(r) && |codec.encode(r)| < 0x1_0000_0000
    ensures
      var f := PutUint32(|codec.encode(r)|) + codec.encode(r);
      && (Frame(codec, r).Some? <==> ParseFrame(codec, f, 0) == Some((r, |f|)))
      && (Frame(codec, r).Some? ==> Frame(codec, r) == Some(f))
  {
    var body := codec.encode(r);
    var f := PutUint32(|body|) + body;
    assert f[0..4] == PutUint32(|body|) && f[4..4 + |body|] == body;
  }
}
