/** Circuits told by places in the journal: when a circuit is open for a reader, and since when. */
module LedgerOpening {
  import opened Basics
  import opened PairingRecords
  import opened LedgerHistory
  import opened LedgerPolicy
  import opened LedgerCircuits

  // ----- the failures that count ------------------------------------------------------

  /** Failures of the class with no success and no reset of the class after them. */
  ghost function StreakPlaces(h: History, cls: RecordClass): set<int> {
    set i | 0 <= i < |h| && Failed(h[i], cls) && NoSuccessBetween(h, i, |h|, cls) && NoResetAfter(h, i, cls)
  }

  /** Burns of the class since its last reset that `all` never finishes and the reader does not own. */
  ghost function DeadPlaces(h: History, all: History, reader: Option<Id>, cls: RecordClass): set<int> {
    set i | 0 <= i < |h| && DeadAt(h, all, reader, cls, i)
  }

  ghost predicate DeadAt(h: History, all: History, reader: Option<Id>, cls: RecordClass, i: int)
    requires 0 <= i < |h|
  {
    && BurnOf(h[i], cls) && !Finished(all, h[i].body.credential) && reader != Some(h[i].body.owner)
    && NoResetAfter(h, i, cls)
  }

  /** FINISH records alone have opened the circuit. */
  ghost predicate Tripped(h: History, cls: RecordClass) {
    if cls.Ordinary? then ThreeFailures(h) else OneFailure(h)
  }

  lemma TrippedIsOpened(h: History, cls: RecordClass)
    requires TimesNonzero(h)
    ensures FinishCircuit(h, cls).openedAt != 0 <==> Tripped(h, cls)
  {
    if cls.Ordinary? { OpenedByThreeFailures(h); } else { OpenedByOneFailure(h); }
  }

  lemma StreakPlacesGrow(h: History, cls: RecordClass)
    requires h != []
    ensures
      var before, n, last := StreakPlaces(DropLast(h), cls), |h| - 1, Last(h);
      && n !in before
      && StreakPlaces(h, cls) ==
         if Failed(last, cls) then before + {n} else if Succeeded(last, cls) || IsReset(last, cls) then {} else before
  {
    var g, n := DropLast(h), |h| - 1;
    assert forall i :: 0 <= i < n ==> g[i] == h[i];
    forall i | 0 <= i < n
      ensures NoResetAfter(h, i, cls) <==> NoResetAfter(g, i, cls) && !IsReset(h[n], cls)
      ensures NoSuccessBetween(h, i, |h|, cls) <==> NoSuccessBetween(g, i, n, cls) && !Succeeded(h[n], cls)
    {
      assert NoResetAfter(h, i, cls) ==> forall x :: i < x < n ==> !IsReset(g[x], cls);
      assert NoSuccessBetween(h, i, |h|, cls) ==> forall x :: i < x < n ==> !Succeeded(g[x], cls);
    }
    assert NoResetAfter(h, n, cls) && NoSuccessBetween(h, n, |h|, cls);
  }

  /** Until FINISH records open it, the streak is the number of failures that count. */
  lemma {:induction false} StreakIsCount(h: History, cls: RecordClass)
    requires TimesNonzero(h) && FinishCircuit(h, cls).openedAt == 0
    ensures FinishCircuit(h, cls).streak == |StreakPlaces(h, cls)|
  {
    if h != [] {
      var g, n := DropLast(h), |h| - 1;
      assert h[..|h|] == h && h[..n] == g;
      CircuitStep(h, n, cls);
      StreakPlacesGrow(h, cls);
      if !IsReset(h[n], cls) { StreakIsCount(g, cls); }
    }
  }

  lemma DeadPlacesGrow(h: History, all: History, reader: Option<Id>, cls: RecordClass)
    requires h != []
    ensures
      var before, n, last := DeadPlaces(DropLast(h), all, reader, cls), |h| - 1, Last(h);
      && n !in before
      && DeadPlaces(h, all, reader, cls) ==
         if IsReset(last, cls) then {}
         else if BurnOf(last, cls) && !Finished(all, last.body.credential) && !Owns(reader, last) then before + {n}
         else before
  {
    var g, n := DropLast(h), |h| - 1;
    assert forall i :: 0 <= i < n ==> g[i] == h[i];
    forall i | 0 <= i < n ensures NoResetAfter(h, i, cls) <==> NoResetAfter(g, i, cls) && !IsReset(h[n], cls) {
      assert NoResetAfter(h, i, cls) ==> forall x :: i < x < n ==> !IsReset(g[x], cls);
    }
    assert NoResetAfter(h, n, cls);
    assert forall i :: 0 <= i < n ==>
      (DeadAt(h, all, reader, cls, i) <==> DeadAt(g, all, reader, cls, i) && !IsReset(h[n], cls));
  }

  lemma {:induction false} DeadIsCount(h: History, all: History, reader: Option<Id>, cls: RecordClass)
    ensures DeadCount(Pending(h, all, cls), reader) == |DeadPlaces(h, all, reader, cls)|
  {
    if h != [] {
      DeadIsCount(DropLast(h), all, reader, cls);
      DeadPlacesGrow(h, all, reader, cls);
      DeadCountAppend(Pending(DropLast(h), all, cls), Last(h), reader);
    }
  }

  /** A circuit is open for a reader exactly when FINISH records opened it, or the failures that count and the burns
      that are dead to the reader reach the limit together. */
  lemma OpenLaw(h: History, reader: Option<Id>, cls: RecordClass)
    requires TimesNonzero(h)
    ensures Open(h, reader, cls) <==>
      || Tripped(h, cls)
      || |StreakPlaces(h, cls)| + |DeadPlaces(h, h, reader, cls)| >= (if cls.Ordinary? then 3 else 1)
  {
    OpenByCounting(h, reader, cls);
    TrippedIsOpened(h, cls);
    DeadIsCount(h, h, reader, cls);
    if FinishCircuit(h, cls).openedAt == 0 { StreakIsCount(h, cls); }
  }

  // ----- since when -----------------------------------------------------------------------

  /** The FINISH record that opened the circuit for good: nothing before it did since the last reset. */
  ghost predicate OpensAt(h: History, cls: RecordClass, k: int) {
    && 0 <= k < |h| && Failed(h[k], cls) && !Tripped(h[..k], cls) && Tripped(h[..k + 1], cls)
    && NoResetAfter(h, k, cls)
  }

  lemma NoResetExtends(h: History, n: nat, k: int, cls: RecordClass)
    requires n < |h| && 0 <= k < n && NoResetAfter(h[..n], k, cls) && !IsReset(h[n], cls)
    ensures NoResetAfter(h[..n + 1], k, cls)
  {
    var g := h[..n + 1];
    forall x | k < x < n + 1 && 0 <= x ensures !IsReset(g[x], cls) {
      if x < n { assert h[..n][x] == h[x]; }
    }
  }

  lemma {:induction false} FinishOpensAt(h: History, cls: RecordClass) returns (k: int)
    requires TimesNonzero(h) && FinishCircuit(h, cls).openedAt != 0
    ensures OpensAt(h, cls, k) && h[k].at == FinishCircuit(h, cls).openedAt
  {
    var n := |h| - 1;
    var g := h[..n];
    assert h[..n + 1] == h && DropLast(h) == g;
    CircuitStep(h, n, cls);
    TrippedIsOpened(h, cls);
    TrippedIsOpened(g, cls);
    if FinishCircuit(g, cls).openedAt != 0 {
      k := FinishOpensAt(g, cls);
      assert g[..k] == h[..k] && g[..k + 1] == h[..k + 1] && g[k] == h[k];
      NoResetExtends(h, n, k, cls);
    } else {
      k := n;
    }
  }

  lemma {:induction false} DeadOpensAt(pending: seq<Record>, reader: Option<Id>, c: Circuit, limit: int)
    returns (k: int)
    requires c.openedAt == 0 && c.streak < limit && AddDead(pending, reader, c, limit).openedAt != 0
    requires TimesNonzero(pending)
    ensures 0 <= k < |pending| && !Owns(reader, pending[k])
    ensures pending[k].at == AddDead(pending, reader, c, limit).openedAt
    ensures c.streak + DeadCount(pending[..k + 1], reader) == limit
  {
    var rest := pending[1..];
    var c' := if Owns(reader, pending[0]) then c else CountFailure(c, pending[0].at, limit);
    if c'.openedAt != 0 {
      k := 0;
      AddDeadOpening(rest, reader, c', limit);
      assert pending[..1][1..] == [];
    } else {
      k := DeadOpensAt(rest, reader, c', limit);
      k := k + 1;
      assert pending[..k + 1][1..] == rest[..k];
    }
  }

  /** An open circuit dates from the failure that reached the limit: the FINISH record that did, or else the dead
      burn with which the streak and the dead burns up to it are exactly the limit. */
  lemma OpeningTime(h: History, reader: Option<Id>, cls: RecordClass) returns (k: int)
    requires TimesNonzero(h) && Open(h, reader, cls)
    ensures
      var p, since := Pending(h, h, cls), CircuitFor(h, reader, cls).openedAt;
      if Tripped(h, cls) then OpensAt(h, cls, k) && h[k].at == since
      else
        && 0 <= k < |p| && !Owns(reader, p[k]) && p[k].at == since
        && |StreakPlaces(h, cls)| + DeadCount(p[..k + 1], reader) == FailureLimit(cls)
  {
    var p, c, limit := Pending(h, h, cls), FinishCircuit(h, cls), FailureLimit(cls);
    TrippedIsOpened(h, cls);
    PendingFromHistory(h, h, cls);
    if c.openedAt != 0 {
      k := FinishOpensAt(h, cls);
      AddDeadOpening(p, reader, c, limit);
    } else {
      k := DeadOpensAt(p, reader, c, limit);
      StreakIsCount(h, cls);
    }
  }

  // ----- what is pending ------------------------------------------------------------------

  ghost predicate PendingAt(h: History, all: History, cls: RecordClass, i: int) {
    0 <= i < |h| && BurnOf(h[i], cls) && !Finished(all, h[i].body.credential) && NoResetAfter(h, i, cls)
  }

  /** The record stands at a pending place. */
  ghost predicate IsPending(h: History, all: History, cls: RecordClass, r: Record) {
    exists i :: PendingAt(h, all, cls, i) && h[i] == r
  }

  ghost predicate Numbered(h: seq<Record>) {
    forall i, j :: 0 <= i < j < |h| ==> h[i].sequence < h[j].sequence
  }

  lemma PendingOneMore(h: History, all: History, cls: RecordClass, r: Record)
    requires h != []
    ensures IsPending(h, all, cls, r) <==>
      && !IsReset(Last(h), cls)
      && (IsPending(DropLast(h), all, cls, r) || (r == Last(h) && PendingAt(h, all, cls, |h| - 1)))
  {
    var g, n := DropLast(h), |h| - 1;
    assert forall i :: 0 <= i < n ==> g[i] == h[i];
    forall i | 0 <= i < n
      ensures PendingAt(h, all, cls, i) <==> PendingAt(g, all, cls, i) && !IsReset(h[n], cls)
    {
      assert NoResetAfter(h, i, cls) ==> forall x :: i < x < n ==> !IsReset(g[x], cls);
    }
    if IsPending(g, all, cls, r) && !IsReset(h[n], cls) {
      var i :| PendingAt(g, all, cls, i) && g[i] == r;
      assert PendingAt(h, all, cls, i) && h[i] == r;
    }
    if IsPending(h, all, cls, r) {
      var i :| PendingAt(h, all, cls, i) && h[i] == r;
      if i < n { assert PendingAt(g, all, cls, i) && g[i] == r && !IsReset(h[n], cls); }
    }
  }

  /** The pending burns are the unfinished burns of the class since its last reset, all of them, in the order of the
      journal. */
  lemma {:induction false} PendingLaw(h: History, all: History, cls: RecordClass)
    requires Numbered(h)
    ensures forall r :: r in Pending(h, all, cls) <==> IsPending(h, all, cls, r)
    ensures Numbered(Pending(h, all, cls))
  {
    if h != [] {
      var p := Pending(DropLast(h), all, cls);
      PendingLaw(DropLast(h), all, cls);
      assert NoResetAfter(h, |h| - 1, cls);
      forall r ensures r in Pending(h, all, cls) <==> IsPending(h, all, cls, r) { PendingOneMore(h, all, cls, r); }
      forall i | 0 <= i < |p| ensures p[i].sequence < Last(h).sequence {
        assert p[i] in p;
        var j :| PendingAt(DropLast(h), all, cls, j) && DropLast(h)[j] == p[i];
        assert h[j] == p[i];
      }
    }
  }

  lemma {:induction false} AcceptedSequence(h: History, reader: Option<Id>, i: nat)
    requires Accepts(h, reader) && i < |h|
    ensures h[i].sequence == i + 1
  {
    if i < |h| - 1 { AcceptedSequence(DropLast(h), reader, i); } else { assert Follows(DropLast(h), reader, h[i]); }
  }

  lemma AcceptedIsNumbered(h: History, reader: Option<Id>)
    requires Accepts(h, reader)
    ensures Numbered(h)
  {
    forall i, j | 0 <= i < j < |h| ensures h[i].sequence < h[j].sequence {
      AcceptedSequence(h, reader, i);
      AcceptedSequence(h, reader, j);
    }
  }
}
