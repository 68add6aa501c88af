/** The replay as the source runs it: loops over the records that fill maps,
    lists and counters, proved to compute what LedgerHistory and LedgerPolicy
    say about the record list. */
module LedgerReplay {
  import opened Basics
  import opened PairingRecords
  import opened LedgerHistory
  import opened LedgerPolicy

  datatype Entry = Entry(record: Record, finish: Option<Record>)

  /** The maps and counters a replay builds; `order` lists the burned credentials as they came. */
  datatype Snapshot = Snapshot(
    records: seq<Record>, admissions: map<Id, Entry>, attempts: set<Id>, order: seq<Id>,
    rebuildAt: int, highWatermark: int)

  const EmptySnapshot: Snapshot := Snapshot([], map[], {}, [], 0, 0)

  function Burns(h: History): seq<Record> {
    if h == [] then [] else Burns(DropLast(h)) + if Last(h).body.Burn? then [Last(h)] else []
  }

  /** A credential is in the map exactly when it was burned, and its entry is a burn of the history. */
  ghost predicate Known(s: Snapshot, h: History, c: Id) {
    && (c in s.admissions <==> Burned(h, c))
    && (c in s.admissions ==> IsBurn(s.admissions[c].record, c) && s.admissions[c].record in h)
  }

  predicate BurnAt(s: Snapshot, h: History, i: nat)
    requires i < |h|
  {
    var c := h[i].body;
    c.Burn? ==> c.credential in s.admissions && s.admissions[c.credential].record == h[i]
  }

  ghost predicate EntriesMatch(s: Snapshot, h: History) {
    && (forall c {:trigger Known(s, h, c)} :: Known(s, h, c))
    && (forall i {:trigger BurnAt(s, h, i)} :: 0 <= i < |h| ==> BurnAt(s, h, i))
  }

  predicate FinishAt(s: Snapshot, h: History, i: nat)
    requires i < |h|
  {
    var c := h[i].body;
    c.Finish? ==> && c.credential in s.admissions && s.admissions[c.credential].finish == Some(h[i])
                  && BurnOf(s.admissions[c.credential].record, c.cls)
  }

  predicate FinishKnown(s: Snapshot, h: History, c: Id) {
    c in s.admissions && s.admissions[c].finish.Some? ==>
      s.admissions[c].finish.value in h && IsFinish(s.admissions[c].finish.value, c)
  }

  ghost predicate FinishesMatch(s: Snapshot, h: History) {
    && (forall i {:trigger FinishAt(s, h, i)} :: 0 <= i < |h| ==> FinishAt(s, h, i))
    && (forall c {:trigger FinishKnown(s, h, c)} :: FinishKnown(s, h, c))
  }

  predicate OrderAt(s: Snapshot, b: seq<Record>, i: nat)
    requires i < |b| == |s.order|
  {
    s.order[i] in s.admissions && s.admissions[s.order[i]].record == b[i]
  }

  ghost predicate OrderMatches(s: Snapshot, h: History) {
    var b := Burns(h);
    && |s.order| == |b|
    && forall i {:trigger OrderAt(s, b, i)} :: 0 <= i < |b| ==> OrderAt(s, b, i)
  }

  ghost predicate Numbered(h: History) {
    forall i :: 0 <= i < |h| ==> h[i].sequence == i + 1
  }

  /** The snapshot says of h what h says itself. */
  ghost predicate Describes(s: Snapshot, h: History) {
    && s.records == h && Numbered(h)
    && EntriesMatch(s, h) && FinishesMatch(s, h) && OrderMatches(s, h)
    && (forall a {:trigger AttemptUsed(h, a)} :: a in s.attempts <==> AttemptUsed(h, a))
    && s.rebuildAt == RebuildAt(h)
    && s.highWatermark == HighWatermark(h)
  }

  lemma FinishLookup(s: Snapshot, h: History, c: Id)
    requires EntriesMatch(s, h) && FinishesMatch(s, h) && c in s.admissions
    ensures s.admissions[c].finish.Some? <==> Finished(h, c)
  {
    if s.admissions[c].finish.Some? {
      assert FinishKnown(s, h, c);
      var f := s.admissions[c].finish.value;
      var i :| 0 <= i < |h| && h[i] == f;
      assert IsFinish(h[i], c);
    }
    if Finished(h, c) {
      var i :| 0 <= i < |h| && IsFinish(h[i], c);
      assert FinishAt(s, h, i);
    }
  }

  // ----- counting the failures -------------------------------------------------------

  predicate IndexedAt(found: map<nat, Record>, s: Snapshot, cls: RecordClass, i: nat)
    requires i < |s.order|
  {
    s.order[i] in s.admissions &&
    var e := s.admissions[s.order[i]];
    BurnOf(e.record, cls) && e.finish.Some? ==> e.finish.value.sequence in found
  }

  /** Every FINISH of the class, by its sequence number. */
  ghost predicate Indexes(found: map<nat, Record>, s: Snapshot, h: History, cls: RecordClass, n: nat)
    requires n <= |s.order|
  {
    && (forall i {:trigger IndexedAt(found, s, cls, i)} :: 0 <= i < n ==> IndexedAt(found, s, cls, i))
    && (forall q :: q in found ==> found[q].sequence == q && found[q] in h)
  }

  method IndexFinishes(s: Snapshot, ghost h: History, cls: RecordClass) returns (found: map<nat, Record>)
    requires Describes(s, h)
    ensures Indexes(found, s, h, cls, |s.order|)
  {
    found := map[];
    for k := 0 to |s.order|
      invariant Indexes(found, s, h, cls, k)
    {
      assert OrderAt(s, Burns(h), k);
      var e := s.admissions[s.order[k]];
      ghost var before := found;
      if BurnOf(e.record, cls) && e.finish.Some? {
        assert FinishKnown(s, h, s.order[k]);
        found := found[e.finish.value.sequence := e.finish.value];
      }
      forall i | 0 <= i < k + 1 ensures IndexedAt(found, s, cls, i) {
        if i < k { assert IndexedAt(before, s, cls, i); }
      }
    }
  }

  /** The pass over the records: streak, opening time and the burns still pending. */
  method CountFinishes(s: Snapshot, ghost h: History, cls: RecordClass, found: map<nat, Record>)
    returns (streak: int, openedAt: int, pending: seq<Record>)
    requires Describes(s, h) && Indexes(found, s, h, cls, |s.order|)
    ensures Circuit(streak, openedAt) == FinishCircuit(h, cls) && pending == Pending(h, h, cls)
  {
    streak, openedAt, pending := 0, 0, [];
    var limit := if cls.Campaign? then 1 else FAILURE_LIMIT;
    for k := 0 to |s.records|
      invariant Circuit(streak, openedAt) == FinishCircuit(h[..k], cls)
      invariant pending == Pending(h[..k], h, cls)
    {
      var r := s.records[k];
      assert DropLast(h[..k + 1]) == h[..k] && Last(h[..k + 1]) == r;
      match r.body
      case Burn(c, credential, _, _, _, _, _) =>
        if c == cls {
          assert BurnAt(s, h, k);
          FinishLookup(s, h, credential);
          if s.admissions[credential].finish.None? {
            pending := pending + [s.admissions[credential].record];
          }
        }
      case Finish(c, credential, _, reason) =>
        if c == cls {
          FinishIndexed(s, h, k, cls, found);
          var finish := found[r.sequence];
          if finish.body.reason.Success? && openedAt == 0 {
            streak := 0;
          } else {
            if !finish.body.reason.Success? { streak := streak + 1; }
            if streak >= limit && openedAt == 0 { openedAt := finish.at; }
          }
        }
      case Reset(c) =>
        if c == cls { streak, openedAt, pending := 0, 0, []; }
      case _ =>
    }
    assert h[..|h|] == h;
  }

  /** failureState: streak and opening time of a class for the reader. */
  method FailureState(s: Snapshot, ghost h: History, reader: Option<Id>, cls: RecordClass)
    returns (streak: int, openedAt: int)
    requires Describes(s, h)
    ensures Circuit(streak, openedAt) == CircuitFor(h, reader, cls)
  {
    var found := IndexFinishes(s, h, cls);
    var pending;
    streak, openedAt, pending := CountFinishes(s, h, cls, found);
    var limit := if cls.Campaign? then 1 else FAILURE_LIMIT;
    assert pending[0..] == pending;
    for k := 0 to |pending|
      invariant AddDead(pending[k..], reader, Circuit(streak, openedAt), limit) == CircuitFor(h, reader, cls)
    {
      var tail := pending[k..];
      assert tail[0] == pending[k] && tail[1..] == pending[k + 1..];
      if !Owns(reader, pending[k]) {
        streak := streak + 1;
        if streak >= limit && openedAt == 0 { openedAt := pending[k].at; }
      }
    }
  }

  lemma {:induction false} BurnInOrder(h: History, i: nat) returns (j: nat)
    requires i < |h| && h[i].body.Burn?
    ensures j < |Burns(h)| && Burns(h)[j] == h[i]
  {
    if i == |h| - 1 { j := |Burns(DropLast(h))|; } else { j := BurnInOrder(DropLast(h), i); }
  }

  lemma FinishIndexed(s: Snapshot, h: History, k: nat, cls: RecordClass, found: map<nat, Record>)
    requires Describes(s, h) && k < |h| && h[k].body.Finish? && h[k].body.cls == cls
    requires Indexes(found, s, h, cls, |s.order|)
    ensures h[k].sequence in found && found[h[k].sequence] == h[k]
  {
    var c := h[k].body.credential;
    assert FinishAt(s, h, k) && Known(s, h, c);
    var e := s.admissions[c];
    var i :| 0 <= i < |h| && h[i] == e.record;
    var j := BurnInOrder(h, i);
    assert OrderAt(s, Burns(h), j) && Known(s, h, s.order[j]);
    assert s.order[j] == c;
    assert IndexedAt(found, s, cls, j);
    var f := found[h[k].sequence];
    var m :| 0 <= m < |h| && h[m] == f;
  }

  // ----- replaying one record ------------------------------------------------------------

  lemma BurnsKept(h: History, r: Record)
    requires !r.body.Burn?
    ensures forall x :: Burned(h + [r], x) <==> Burned(h, x)
    ensures forall a :: AttemptUsed(h + [r], a) <==> AttemptUsed(h, a)
    ensures Burns(h + [r]) == Burns(h)
  {
    var h' := h + [r];
    assert DropLast(h') == h && Last(h') == r;
    forall x ensures Burned(h', x) <==> Burned(h, x) {
      if Burned(h, x) { var i :| 0 <= i < |h| && IsBurn(h[i], x); assert IsBurn(h'[i], x); }
    }
    forall a ensures AttemptUsed(h', a) <==> AttemptUsed(h, a) {
      if AttemptUsed(h, a) { var i :| 0 <= i < |h| && h[i].body.Burn? && h[i].body.attempt == a; assert h'[i] == h[i]; }
    }
  }

  lemma BurnsGrow(h: History, r: Record)
    requires r.body.Burn?
    ensures forall x :: Burned(h + [r], x) <==> Burned(h, x) || x == r.body.credential
    ensures forall a :: AttemptUsed(h + [r], a) <==> AttemptUsed(h, a) || a == r.body.attempt
    ensures Burns(h + [r]) == Burns(h) + [r]
  {
    var h' := h + [r];
    assert DropLast(h') == h && Last(h') == r;
    assert h'[|h|] == r;
    forall x ensures Burned(h', x) <==> Burned(h, x) || x == r.body.credential {
      if Burned(h, x) { var i :| 0 <= i < |h| && IsBurn(h[i], x); assert IsBurn(h'[i], x); }
      if x == r.body.credential { assert IsBurn(h'[|h|], x); }
    }
    forall a ensures AttemptUsed(h', a) <==> AttemptUsed(h, a) || a == r.body.attempt {
      if AttemptUsed(h, a) { var i :| 0 <= i < |h| && h[i].body.Burn? && h[i].body.attempt == a; assert h'[i] == h[i]; }
    }
  }

  lemma Grown(h: History, r: Record)
    ensures forall x :: x in h + [r] <==> x in h || x == r
    ensures HighWatermark(h + [r]) == Max(HighWatermark(h), r.at)
    ensures h != [] ==> RebuildAt(h + [r]) == RebuildAt(h)
  {
    assert DropLast(h + [r]) == h && Last(h + [r]) == r;
  }

  lemma BurnEntries(s: Snapshot, h: History, r: Record, s': Snapshot)
    requires EntriesMatch(s, h) && r.body.Burn? && !Burned(h, r.body.credential)
    requires s'.admissions == s.admissions[r.body.credential := Entry(r, None)]
    ensures EntriesMatch(s', h + [r])
  {
    var h' := h + [r];
    BurnsGrow(h, r);
    assert Known(s, h, r.body.credential);
    forall c ensures Known(s', h', c) {
      assert Known(s, h, c);
      assert h'[|h|] == r;
    }
    forall i | 0 <= i < |h'| ensures BurnAt(s', h', i) {
      if i < |h| { assert BurnAt(s, h, i) && h'[i] == h[i]; }
    }
  }

  lemma BurnFinishes(s: Snapshot, h: History, r: Record, s': Snapshot)
    requires FinishesMatch(s, h) && r.body.Burn? && r.body.credential !in s.admissions
    requires s'.admissions == s.admissions[r.body.credential := Entry(r, None)]
    ensures FinishesMatch(s', h + [r])
  {
    var h' := h + [r];
    forall c ensures FinishKnown(s', h', c) { assert FinishKnown(s, h, c); }
    forall i | 0 <= i < |h'| ensures FinishAt(s', h', i) {
      if i < |h| { assert FinishAt(s, h, i) && h'[i] == h[i]; }
    }
  }

  lemma BurnOrder(s: Snapshot, h: History, r: Record, s': Snapshot)
    requires OrderMatches(s, h) && r.body.Burn? && r.body.credential !in s.admissions
    requires s'.admissions == s.admissions[r.body.credential := Entry(r, None)]
      && s'.order == s.order + [r.body.credential]
    ensures OrderMatches(s', h + [r])
  {
    BurnsGrow(h, r);
    forall i | 0 <= i < |Burns(h + [r])| ensures OrderAt(s', Burns(h + [r]), i) {
      if i < |Burns(h)| { assert OrderAt(s, Burns(h), i); }
    }
  }

  lemma BurnDescribed(s: Snapshot, h: History, r: Record, s': Snapshot)
    requires Describes(s, h) && r.body.Burn? && r.sequence == |h| + 1 && h != []
    requires !Burned(h, r.body.credential) && !AttemptUsed(h, r.body.attempt)
    requires s' == Snapshot(h + [r], s.admissions[r.body.credential := Entry(r, None)], s.attempts + {r.body.attempt},
                            s.order + [r.body.credential], s.rebuildAt, Max(s.highWatermark, r.at))
    ensures Describes(s', h + [r])
  {
    assert Known(s, h, r.body.credential);
    BurnEntries(s, h, r, s');
    BurnFinishes(s, h, r, s');
    BurnOrder(s, h, r, s');
    BurnsGrow(h, r);
    Grown(h, r);
  }

  lemma FinishEntries(s: Snapshot, h: History, r: Record, s': Snapshot)
    requires EntriesMatch(s, h) && OrderMatches(s, h) && r.body.Finish? && r.body.credential in s.admissions
    requires s'.admissions == s.admissions[r.body.credential := s.admissions[r.body.credential].(finish := Some(r))]
    requires s'.order == s.order
    ensures EntriesMatch(s', h + [r]) && OrderMatches(s', h + [r])
  {
    SameRecords(s, h, r, s');
  }

  /** A record that is no burn, and a map with the same burns, keep entries and order. */
  lemma SameRecords(s: Snapshot, h: History, r: Record, s': Snapshot)
    requires EntriesMatch(s, h) && OrderMatches(s, h) && !r.body.Burn?
    requires s'.order == s.order && s'.admissions.Keys == s.admissions.Keys
    requires forall x :: x in s.admissions ==> s'.admissions[x].record == s.admissions[x].record
    ensures EntriesMatch(s', h + [r]) && OrderMatches(s', h + [r])
  {
    var h' := h + [r];
    BurnsKept(h, r);
    forall c ensures Known(s', h', c) { assert Known(s, h, c); }
    forall i | 0 <= i < |h'| ensures BurnAt(s', h', i) {
      if i < |h| { assert BurnAt(s, h, i) && h'[i] == h[i]; }
    }
    forall i | 0 <= i < |Burns(h')| ensures OrderAt(s', Burns(h'), i) { assert OrderAt(s, Burns(h), i); }
  }

  lemma FinishFinishes(s: Snapshot, h: History, r: Record, s': Snapshot)
    requires FinishesMatch(s, h) && r.body.Finish? && !Finished(h, r.body.credential)
    requires r.body.credential in s.admissions && BurnOf(s.admissions[r.body.credential].record, r.body.cls)
    requires s'.admissions == s.admissions[r.body.credential := s.admissions[r.body.credential].(finish := Some(r))]
    ensures FinishesMatch(s', h + [r])
  {
    var h' := h + [r];
    assert h'[|h|] == r;
    forall c ensures FinishKnown(s', h', c) { assert FinishKnown(s, h, c); }
    forall i | 0 <= i < |h'| ensures FinishAt(s', h', i) {
      if i < |h| {
        assert FinishAt(s, h, i) && h'[i] == h[i];
        assert h[i].body.Finish? ==> IsFinish(h[i], h[i].body.credential);
      }
    }
  }

  lemma FinishDescribed(s: Snapshot, h: History, r: Record, s': Snapshot)
    requires Describes(s, h) && r.body.Finish? && r.sequence == |h| + 1 && h != []
    requires !Finished(h, r.body.credential)
    requires r.body.credential in s.admissions && BurnOf(s.admissions[r.body.credential].record, r.body.cls)
    requires s' == Snapshot(h + [r],
      s.admissions[r.body.credential := s.admissions[r.body.credential].(finish := Some(r))],
                            s.attempts, s.order, s.rebuildAt, Max(s.highWatermark, r.at))
    ensures Describes(s', h + [r])
  {
    FinishEntries(s, h, r, s');
    FinishFinishes(s, h, r, s');
    BurnsKept(h, r);
    Grown(h, r);
  }

  lemma OtherFinishes(s: Snapshot, h: History, r: Record, s': Snapshot)
    requires FinishesMatch(s, h) && !r.body.Finish? && s'.admissions == s.admissions
    ensures FinishesMatch(s', h + [r])
  {
    var h' := h + [r];
    forall c ensures FinishKnown(s', h', c) { assert FinishKnown(s, h, c); }
    forall i | 0 <= i < |h'| ensures FinishAt(s', h', i) {
      if i < |h| { assert FinishAt(s, h, i) && h'[i] == h[i]; }
    }
  }

  lemma AttemptsKept(h: History, r: Record, a: Id)
    requires !r.body.Burn?
    ensures AttemptUsed(h + [r], a) <==> AttemptUsed(h, a)
  {
    BurnsKept(h, r);
  }

  lemma OtherDescribed(s: Snapshot, h: History, r: Record, s': Snapshot)
    requires Describes(s, h) && r.sequence == |h| + 1
    requires if h == [] then r.body.Initialize? || r.body.RebuildBaseline? else r.body.Reset?
    requires s' == Snapshot(h + [r], s.admissions, s.attempts, s.order,
                            if r.body.RebuildBaseline? then r.at else s.rebuildAt, Max(s.highWatermark, r.at))
    ensures Describes(s', h + [r])
  {
    assert EntriesMatch(s', h + [r]) && OrderMatches(s', h + [r]) by { SameRecords(s, h, r, s'); }
    assert FinishesMatch(s', h + [r]) by { OtherFinishes(s, h, r, s'); }
    forall a ensures a in s'.attempts <==> AttemptUsed(h + [r], a) { AttemptsKept(h, r, a); }
    assert s'.highWatermark == HighWatermark(h + [r]) && s'.rebuildAt == RebuildAt(h + [r]) by { Grown(h, r); }
    assert Numbered(h + [r]);
  }

  lemma {:induction false} RejectedPrefix(h: History, k: nat, reader: Option<Id>)
    requires k <= |h| && !Accepts(h[..k], reader)
    ensures !Accepts(h, reader)
    decreases |h| - k
  {
    if k == |h| {
      assert h[..k] == h;
    } else {
      assert DropLast(h[..k + 1]) == h[..k];
      RejectedPrefix(h, k + 1, reader);
    }
  }

  lemma AnswerLookup(s: Snapshot, h: History, f: Body)
    requires Describes(s, h) && f.Finish?
    ensures f.credential in s.admissions ==> s.admissions[f.credential].record.body.Burn?
    ensures Answers(h, f) <==>
            f.credential in s.admissions && s.admissions[f.credential].record.body.attempt == f.attempt &&
            s.admissions[f.credential].record.body.cls == f.cls
  {
    assert Known(s, h, f.credential);
    if f.credential in s.admissions {
      var e := s.admissions[f.credential].record;
      var i :| 0 <= i < |h| && h[i] == e;
      if e.body.attempt == f.attempt && e.body.cls == f.cls { assert IsBurn(h[i], f.credential); }
    }
    if Answers(h, f) {
      var i :| 0 <= i < |h| && IsBurn(h[i], f.credential) && h[i].body.attempt == f.attempt && h[i].body.cls == f.cls;
      assert BurnAt(s, h, i);
    }
  }

  method ReplayFinish(s: Snapshot, ghost h: History, r: Record) returns (out: Option<Snapshot>)
    requires Describes(s, h) && r.body.Finish? && r.sequence == |h| + 1
    ensures out.Some? <==> Answers(h, r.body) && !Finished(h, r.body.credential)
    ensures out.Some? ==> Describes(out.value, h + [r])
  {
    var credential := r.body.credential;
    AnswerLookup(s, h, r.body);
    if credential !in s.admissions { return None; }
    var e := s.admissions[credential];
    if e.record.body.attempt != r.body.attempt || e.record.body.cls != r.body.cls { return None; }
    FinishLookup(s, h, credential);
    if e.finish.Some? { return None; }
    out := Some(Snapshot(s.records + [r], s.admissions[credential := e.(finish := Some(r))], s.attempts, s.order,
                         s.rebuildAt, Max(s.highWatermark, r.at)));
    FinishDescribed(s, h, r, out.value);
  }

  method ReplayBurn(s: Snapshot, ghost h: History, r: Record) returns (out: Option<Snapshot>)
    requires Describes(s, h) && r.body.Burn? && r.sequence == |h| + 1
    ensures out.Some? <==> h != [] && !Burned(h, r.body.credential) && !AttemptUsed(h, r.body.attempt)
    ensures out.Some? ==> Describes(out.value, h + [r])
  {
    var credential, attempt := r.body.credential, r.body.attempt;
    assert Known(s, h, credential) && (attempt in s.attempts <==> AttemptUsed(h, attempt));
    if |s.records| == 0 || credential in s.admissions || attempt in s.attempts { return None; }
    out := Some(Snapshot(s.records + [r], s.admissions[credential := Entry(r, None)], s.attempts + {attempt}, s.order
      + [credential],
                         s.rebuildAt, Max(s.highWatermark, r.at)));
    BurnDescribed(s, h, r, out.value);
  }

  method ReplayOther(s: Snapshot, ghost h: History, r: Record, reader: Option<Id>) returns (out: Option<Snapshot>)
    requires Describes(s, h) && !r.body.Finish? && !r.body.Burn? && r.sequence == |h| + 1
    ensures out.Some? <==> if r.body.Reset? then h != [] && ResetAllowed(h, reader, r.body.cls, r.at) else h == []
    ensures out.Some? ==> Describes(out.value, h + [r])
  {
    var rebuildAt, highWatermark := s.rebuildAt, Max(s.highWatermark, r.at);
    if r.body.Reset? {
      if |s.records| == 0 { return None; }
      // The status of the class at the reset's own time, with the watermark already raised to it.
      var streak, openedAt := FailureState(s, h, reader, r.body.cls);
      if EffectiveNow(highWatermark, r.at).None? || openedAt == 0 { return None; }
      if r.body.cls.Ordinary? && r.at < openedAt + CIRCUIT_HORIZON { return None; }
    } else {
      if |s.records| != 0 { return None; }
      if r.body.RebuildBaseline? { rebuildAt := r.at; }
    }
    out := Some(Snapshot(s.records + [r], s.admissions, s.attempts, s.order, rebuildAt, highWatermark));
    OtherDescribed(s, h, r, out.value);
  }

  method ReplayBody(s: Snapshot, ghost h: History, r: Record, reader: Option<Id>) returns (out: Option<Snapshot>)
    requires Describes(s, h) && r.sequence == |h| + 1
    ensures out.Some? <==> FollowsBody(h, reader, r)
    ensures out.Some? ==> Describes(out.value, h + [r])
  {
    if r.body.Burn? {
      out := ReplayBurn(s, h, r);
    } else if r.body.Finish? {
      out := ReplayFinish(s, h, r);
    } else {
      out := ReplayOther(s, h, r, reader);
    }
  }

  /** One iteration of the replay: the extended snapshot, or None on the first violation. */
  method ReplayOne(s: Snapshot, ghost h: History, r: Record, reader: Option<Id>) returns (out: Option<Snapshot>)
    requires Describes(s, h)
    ensures out.Some? <==> Follows(h, reader, r)
    ensures out.Some? ==> Describes(out.value, h + [r])
  {
    var index := |s.records|;
    if r.sequence != index + 1 { return None; }
    if index > 0 && r.at < s.records[index - 1].at { return None; }
    out := ReplayBody(s, h, r, reader);
  }

  /** buildPairingLedgerSnapshot: accepts exactly the histories that follow the rules, and then describes them. */
  method BuildSnapshot(records: seq<Record>, reader: Option<Id>) returns (out: Option<Snapshot>)
    ensures out.Some? <==> records != [] && Accepts(records, reader)
    ensures out.Some? ==> Describes(out.value, records)
  {
    if records == [] { return None; }
    var s := EmptySnapshot;
    for k := 0 to |records|
      invariant Describes(s, records[..k]) && Accepts(records[..k], reader)
    {
      var next := ReplayOne(s, records[..k], records[k], reader);
      assert records[..k + 1] == records[..k] + [records[k]];
      assert DropLast(records[..k + 1]) == records[..k] && Last(records[..k + 1]) == records[k];
      if next.None? {
        RejectedPrefix(records, k + 1, reader);
        return None;
      }
      s := next.value;
    }
    assert records[..|records|] == records;
    return Some(s);
  }

  // ----- the status loops ----------------------------------------------------------------

  lemma BurnsSnoc(h: History)
    requires h != []
    ensures Last(h).body.Burn? ==>
      Burns(h) != [] && DropLast(Burns(h)) == Burns(DropLast(h)) && Last(Burns(h)) == Last(h)
    ensures !Last(h).body.Burn? ==> Burns(h) == Burns(DropLast(h))
  {
  }

  lemma {:induction false} CountsOverBurns(h: History, cls: RecordClass, cutoff: int)
    ensures BurnsAfter(Burns(h), cls, cutoff) == BurnsAfter(h, cls, cutoff)
    ensures PacketsAfter(Burns(h), cls, cutoff) == PacketsAfter(h, cls, cutoff)
  {
    if h != [] {
      CountsOverBurns(DropLast(h), cls, cutoff);
      BurnsSnoc(h);
    }
  }

  lemma {:induction false} LastOverBurns(h: History, cls: RecordClass, base: int)
    ensures LastBurn(Burns(h), cls, base) == LastBurn(h, cls, base)
  {
    if h != [] {
      LastOverBurns(DropLast(h), cls, base);
      BurnsSnoc(h);
    }
  }

  /** The admission counters of statusAt, one pass over the burns. */
  method CountAdmissions(s: Snapshot, ghost h: History, cls: RecordClass, hourCutoff: int, dayCutoff: int, base: int)
    returns (hour: int, day: int, packets: int, last: int)
    requires Describes(s, h)
    ensures hour == BurnsAfter(h, cls, hourCutoff) && day == BurnsAfter(h, cls, dayCutoff)
    ensures packets == PacketsAfter(h, cls, dayCutoff) && last == LastBurn(h, cls, base)
  {
    ghost var b := Burns(h);
    hour, day, packets, last := 0, 0, 0, base;
    for k := 0 to |s.order|
      invariant hour == BurnsAfter(b[..k], cls, hourCutoff) && day == BurnsAfter(b[..k], cls, dayCutoff)
      invariant packets == PacketsAfter(b[..k], cls, dayCutoff) && last == LastBurn(b[..k], cls, base)
    {
      assert DropLast(b[..k + 1]) == b[..k] && Last(b[..k + 1]) == b[k];
      assert OrderAt(s, b, k) && Known(s, h, s.order[k]);
      var r := s.admissions[s.order[k]].record;
      if r.body.cls == cls {
        if r.at > last { last := r.at; }
        if r.at > hourCutoff { hour := hour + 1; }
        if r.at > dayCutoff {
          day := day + 1;
          packets := packets + r.body.envelope.packets;
        }
      }
    }
    assert b[..|b|] == b;
    CountsOverBurns(h, cls, hourCutoff);
    CountsOverBurns(h, cls, dayCutoff);
    LastOverBurns(h, cls, base);
  }

  /** statusAt over the snapshot. */
  method OrdinaryStatus(s: Snapshot, ghost h: History, bytes: nat, reader: Option<Id>, now: int)
    returns (status: Status)
    requires Describes(s, h)
    ensures status == StatusAt(View(h, bytes, reader), now)
  {
    var effective := EffectiveNow(s.highWatermark, now);
    if effective.None? { return RollbackStatus; }
    var t := effective.value;
    var hour, day, packets, last := CountAdmissions(s, h, Ordinary, t - HOUR, t - DAY_WINDOW, s.rebuildAt);
    if s.rebuildAt != 0 {
      if t < s.rebuildAt + HOUR { hour := hour + HOUR_LIMIT; }
      if t < s.rebuildAt + DAY_WINDOW { day, packets := day + DAY_LIMIT, packets + DAY_PACKETS; }
    }
    var next := 0;
    if last != 0 { next := last + MINIMUM_INTERVAL; }
    var failures, openedAt := FailureState(s, h, reader, Ordinary);
    if openedAt != 0 {
      return Status(CircuitIsOpen, hour, day, packets, failures, openedAt, openedAt + CIRCUIT_HORIZON, true, next);
    }
    var state := Ready;
    if |s.records| >= MAX_LEDGER_RECORDS || bytes >= MAX_LEDGER_BYTES {
      state := CapacityFull;
    } else if (next != 0 && t < next) || hour >= HOUR_LIMIT || day >= DAY_LIMIT || packets >= DAY_PACKETS {
      state := Limited;
    }
    return Status(state, hour, day, packets, failures, 0, 0, false, next);
  }

  /** hardNATCampaignStatusAt over the snapshot. */
  method HardNatStatus(s: Snapshot, ghost h: History, bytes: nat, reader: Option<Id>, now: int)
    returns (status: CampaignStatus)
    requires Describes(s, h)
    ensures status == CampaignStatusAt(View(h, bytes, reader), now)
  {
    var effective := EffectiveNow(s.highWatermark, now);
    if effective.None? { return CampaignStatus(RolledBack, 0, 0, 0, false); }
    var t := effective.value;
    var _, day, packets, _ := CountAdmissions(s, h, Campaign, t - DAY_WINDOW, t - DAY_WINDOW, 0);
    if s.rebuildAt != 0 && t < s.rebuildAt + DAY_WINDOW {
      day, packets := day + CAMPAIGN_ADMISSIONS, packets + CAMPAIGN_PACKETS;
    }
    var _, openedAt := FailureState(s, h, reader, Campaign);
    if openedAt != 0 { return CampaignStatus(CircuitIsOpen, day, packets, openedAt, true); }
    var ordinary := OrdinaryStatus(s, h, bytes, reader, t);
    var state := ordinary.state;
    if !state.CircuitIsOpen? && !state.CapacityFull? && !state.RolledBack? {
      if |s.records| >= MAX_LEDGER_RECORDS || bytes >= MAX_LEDGER_BYTES {
        state := CapacityFull;
      } else if day >= CAMPAIGN_ADMISSIONS || packets >= CAMPAIGN_PACKETS {
        state := Limited;
      } else {
        state := Ready;
      }
    }
    return CampaignStatus(state, day, packets, 0, false);
  }
}
