/** What a list of journal records means, stated over the list itself: which
    credentials are burned, which circuits are open for which reader, and which
    record may follow. The imperative replay of the source is proved against
    these definitions in LedgerReplay. */
module LedgerHistory {
  import opened Basics
  import opened PairingRecords

  type History = seq<Record>

  function DropLast(h: History): History
    requires h != []
  {
    h[..|h| - 1]
  }

  function Last(h: History): Record
    requires h != []
  {
    h[|h| - 1]
  }

  function Max(a: int, b: int): int { if a < b then b else a }

  // ----- burns and finishes -------------------------------------------------

  predicate IsBurn(r: Record, credential: Id) {
    r.body.Burn? && r.body.credential == credential
  }

  predicate IsFinish(r: Record, credential: Id) {
    r.body.Finish? && r.body.credential == credential
  }

  predicate Burned(h: History, credential: Id) {
    exists i :: 0 <= i < |h| && IsBurn(h[i], credential)
  }

  predicate Finished(h: History, credential: Id) {
    exists i :: 0 <= i < |h| && IsFinish(h[i], credential)
  }

  predicate AttemptUsed(h: History, attempt: Id) {
    exists i :: 0 <= i < |h| && h[i].body.Burn? && h[i].body.attempt == attempt
  }

  /** The FINISH body f answers some burn of h. */
  predicate Answers(h: History, f: Body)
    requires f.Finish?
  {
    exists i :: 0 <= i < |h| && IsBurn(h[i], f.credential) && h[i].body.attempt == f.attempt && h[i].body.cls == f.cls
  }

  // ----- clocks ---------------------------------------------------------------

  function HighWatermark(h: History): (t: int)
    ensures t >= 0
    ensures forall i :: 0 <= i < |h| ==> h[i].at <= t
  {
    if h == [] then 0 else Max(HighWatermark(DropLast(h)), Last(h).at)
  }

  lemma {:induction false} HighWatermarkIsReached(h: History)
    ensures HighWatermark(h) == 0 || exists i :: 0 <= i < |h| && h[i].at == HighWatermark(h)
  {
    if h != [] { HighWatermarkIsReached(DropLast(h)); }
  }

  /** The clock reading an operation uses, or None on a rollback. */
  function EffectiveNow(highWatermark: int, now: int): (t: Option<int>)
    ensures t.Some? ==> t.value == Max(highWatermark, now)
    ensures t.None? <==> now + ROLLBACK_SKEW < highWatermark
  {
    if now + ROLLBACK_SKEW < highWatermark then None
    else if now < highWatermark then Some(highWatermark)
    else Some(now)
  }

  function RebuildAt(h: History): int {
    if h != [] && h[0].body.RebuildBaseline? then h[0].at else 0
  }

  // ----- circuit state --------------------------------------------------------

  datatype Circuit = Circuit(streak: int, openedAt: int)

  function CountFailure(c: Circuit, at: int, limit: int): Circuit {
    Circuit(c.streak + 1, if c.streak + 1 >= limit && c.openedAt == 0 then at else c.openedAt)
  }

  /** The circuit as FINISH and reset records alone leave it. */
  function FinishCircuit(h: History, cls: RecordClass): (c: Circuit)
    ensures c.streak >= 0
    ensures c.openedAt == 0 && TimesNonzero(h) ==> c.streak < FailureLimit(cls)
  {
    if h == [] then Circuit(0, 0)
    else
      var c := FinishCircuit(DropLast(h), cls);
      var r := Last(h);
      match r.body
      case Finish(k, _, _, reason) =>
        if k != cls then c
        else if reason.Success? then (if c.openedAt == 0 then Circuit(0, 0) else c)
        else CountFailure(c, r.at, FailureLimit(cls))
      case Reset(k) => if k == cls then Circuit(0, 0) else c
      case _ => c
  }

  /** Burns of the class in h after its last reset that the longer history `all` never finishes. */
  function Pending(h: History, all: History, cls: RecordClass): seq<Record> {
    if h == [] then []
    else
      var p := Pending(DropLast(h), all, cls);
      var r := Last(h);
      match r.body
      case Burn(k, credential, _, _, _, _, _) =>
        if k == cls && !Finished(all, credential) then p + [r] else p
      case Reset(k) => if k == cls then [] else p
      case _ => p
  }

  predicate Owns(reader: Option<Id>, r: Record) {
    r.body.Burn? && reader == Some(r.body.owner)
  }

  /** Adds every pending burn the reader does not own as one more failure. */
  function AddDead(pending: seq<Record>, reader: Option<Id>, c: Circuit, limit: int): Circuit {
    if pending == [] then c
    else if Owns(reader, pending[0]) then AddDead(pending[1..], reader, c, limit)
    else AddDead(pending[1..], reader, CountFailure(c, pending[0].at, limit), limit)
  }

  /** The circuit of a class in the eyes of a reader; no reader at all is the inspector. */
  function CircuitFor(h: History, reader: Option<Id>, cls: RecordClass): Circuit {
    AddDead(Pending(h, h, cls), reader, FinishCircuit(h, cls), FailureLimit(cls))
  }

  predicate Open(h: History, reader: Option<Id>, cls: RecordClass) {
    CircuitFor(h, reader, cls).openedAt != 0
  }

  // ----- which record may follow -------------------------------------------

  predicate ResetAllowed(h: History, reader: Option<Id>, cls: RecordClass, at: int) {
    && EffectiveNow(Max(HighWatermark(h), at), at).Some?
    && Open(h, reader, cls)
    && (cls.Ordinary? ==> at >= CircuitFor(h, reader, cls).openedAt + CIRCUIT_HORIZON)
  }

  predicate Follows(h: History, reader: Option<Id>, r: Record) {
    && r.sequence == |h| + 1
    && (h != [] ==> Last(h).at <= r.at)
    && FollowsBody(h, reader, r)
  }

  predicate FollowsBody(h: History, reader: Option<Id>, r: Record) {
    match r.body
    case Initialize => h == []
    case RebuildBaseline => h == []
    case Burn(_, credential, attempt, _, _, _, _) => h != [] && !Burned(h, credential) && !AttemptUsed(h, attempt)
    case Finish(_, credential, _, _) => Answers(h, r.body) && !Finished(h, credential)
    case Reset(cls) => h != [] && ResetAllowed(h, reader, cls, r.at)
  }

  /** The reader's replay of h reaches its end without an error. */
  predicate Accepts(h: History, reader: Option<Id>) {
    if h == [] then true
    else Accepts(DropLast(h), reader) && Follows(DropLast(h), reader, Last(h))
  }

  // ----- basic facts ----------------------------------------------------------

  predicate TimesNonzero(h: History) {
    forall i :: 0 <= i < |h| ==> h[i].at != 0
  }

  ghost predicate Sorted(h: seq<Record>) {
    forall i, j :: 0 <= i < j < |h| ==> h[i].at <= h[j].at
  }

  lemma {:induction false} AcceptedIsSorted(h: History, reader: Option<Id>)
    requires Accepts(h, reader)
    ensures Sorted(h)
  {
    if h != [] { AcceptedIsSorted(DropLast(h), reader); }
  }

  lemma {:induction false} PendingFromHistory(h: History, all: History, cls: RecordClass)
    ensures forall p :: p in Pending(h, all, cls) ==>
      p in h && p.body.Burn? && p.body.cls == cls && !Finished(all, p.body.credential)
    ensures Sorted(h) ==> Sorted(Pending(h, all, cls))
    ensures TimesNonzero(h) ==> TimesNonzero(Pending(h, all, cls))
  {
    if h != [] {
      PendingFromHistory(DropLast(h), all, cls);
      var p := Pending(DropLast(h), all, cls);
      forall q | q in p ensures q in h {
      }
      if Sorted(h) {
        forall q | q in p ensures q.at <= Last(h).at { }
      }
    }
  }

  /** AddDead never moves an opening time, and a fresh one is the time of a pending burn. */
  lemma {:induction false} AddDeadOpening(pending: seq<Record>, reader: Option<Id>, c: Circuit, limit: int)
    ensures c.openedAt != 0 ==> AddDead(pending, reader, c, limit).openedAt == c.openedAt
    ensures
      var o := AddDead(pending, reader, c, limit).openedAt;
      c.openedAt == 0 && o != 0 ==> exists i :: 0 <= i < |pending| && pending[i].at == o && !Owns(reader, pending[i])
  {
    if pending != [] {
      var c' := if Owns(reader, pending[0]) then c else CountFailure(c, pending[0].at, limit);
      AddDeadOpening(pending[1..], reader, c', limit);
      var o := AddDead(pending, reader, c, limit).openedAt;
      if c.openedAt == 0 && o != 0 {
        if c'.openedAt != 0 {
          assert pending[0].at == o;
        } else {
          var i :| 0 <= i < |pending[1..]| && pending[1..][i].at == o && !Owns(reader, pending[1..][i]);
          assert pending[i + 1].at == o && !Owns(reader, pending[i + 1]);
        }
      }
    }
  }

  /** Counting more burns as dead can only open the circuit earlier. */
  lemma {:induction false} AddDeadMonotone(pending: seq<Record>, reader: Option<Id>, own: Circuit, full: Circuit,
          limit: int)
    requires own.openedAt == 0 == full.openedAt
    requires own.streak <= full.streak < limit
    requires Sorted(pending) && TimesNonzero(pending)
    ensures
      var o := AddDead(pending, reader, own, limit).openedAt;
      var f := AddDead(pending, None, full, limit).openedAt;
      o != 0 ==> f != 0 && f <= o
  {
    if pending != [] {
      var head, rest := pending[0], pending[1..];
      var own' := if Owns(reader, head) then own else CountFailure(own, head.at, limit);
      var full' := CountFailure(full, head.at, limit);
      assert !Owns(None, head);
      if full'.openedAt == 0 {
        AddDeadMonotone(rest, reader, own', full', limit);
      } else {
        AddDeadOpening(rest, None, full', limit);
        AddDeadOpening(rest, reader, own', limit);
        var o := AddDead(pending, reader, own, limit).openedAt;
        if o != 0 && own'.openedAt == 0 {
          var i :| 0 <= i < |rest| && rest[i].at == o;
          assert pending[i + 1].at == o;
        }
      }
    }
  }

  /** Any circuit a reader sees open the inspector sees open too, from no later a time. */
  lemma InspectorOpensFirst(h: History, reader: Option<Id>, cls: RecordClass)
    requires Sorted(h) && TimesNonzero(h)
    requires Open(h, reader, cls)
    ensures Open(h, None, cls)
    ensures CircuitFor(h, None, cls).openedAt <= CircuitFor(h, reader, cls).openedAt
  {
    var p, c, limit := Pending(h, h, cls), FinishCircuit(h, cls), FailureLimit(cls);
    PendingFromHistory(h, h, cls);
    if c.openedAt != 0 {
      AddDeadOpening(p, reader, c, limit);
      AddDeadOpening(p, None, c, limit);
    } else {
      AddDeadMonotone(p, reader, c, c, limit);
    }
  }

  /** No burn of h belongs to the reader. */
  ghost predicate Foreign(h: History, reader: Option<Id>) {
    forall i :: 0 <= i < |h| ==> !Owns(reader, h[i])
  }

  lemma {:induction false} AddDeadForeign(pending: seq<Record>, reader: Option<Id>, c: Circuit, limit: int)
    requires Foreign(pending, reader)
    ensures AddDead(pending, reader, c, limit) == AddDead(pending, None, c, limit)
  {
    if pending != [] {
      assert Foreign(pending[1..], reader);
      AddDeadForeign(pending[1..], reader, CountFailure(c, pending[0].at, limit), limit);
    }
  }

  /** A reader that wrote none of the burns reads exactly what the inspector reads. */
  lemma {:induction false} ForeignReaderAgrees(h: History, reader: Option<Id>)
    requires Foreign(h, reader)
    ensures forall cls :: CircuitFor(h, reader, cls) == CircuitFor(h, None, cls)
    ensures Accepts(h, reader) == Accepts(h, None)
  {
    forall cls ensures CircuitFor(h, reader, cls) == CircuitFor(h, None, cls) {
      PendingFromHistory(h, h, cls);
      var p := Pending(h, h, cls);
      forall i | 0 <= i < |p| ensures !Owns(reader, p[i]) {
        assert p[i] in h;
      }
      AddDeadForeign(p, reader, FinishCircuit(h, cls), FailureLimit(cls));
    }
    if h != [] {
      ForeignReaderAgrees(DropLast(h), reader);
      assert Foreign(DropLast(h), reader);
      assert forall cls :: CircuitFor(DropLast(h), reader, cls) == CircuitFor(DropLast(h), None, cls);
    }
  }
}
