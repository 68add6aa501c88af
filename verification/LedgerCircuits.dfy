/** When a circuit is open, and what keeps it open. */
module LedgerCircuits {
  import opened Basics
  import opened PairingRecords
  import opened LedgerHistory

  // ----- openness as counting ---------------------------------------------------

  /** Pending burns that the reader counts as dead. */
  function DeadCount(pending: seq<Record>, reader: Option<Id>): nat {
    if pending == [] then 0
    else DeadCount(pending[1..], reader) + if Owns(reader, pending[0]) then 0 else 1
  }

  lemma {:induction false} AddDeadOpens(pending: seq<Record>, reader: Option<Id>, c: Circuit, limit: int)
    requires TimesNonzero(pending)
    requires c.openedAt == 0 ==> c.streak < limit
    ensures AddDead(pending, reader, c, limit).openedAt != 0 <==>
            c.openedAt != 0 || c.streak + DeadCount(pending, reader) >= limit
  {
    if pending != [] {
      var c' := if Owns(reader, pending[0]) then c else CountFailure(c, pending[0].at, limit);
      AddDeadOpens(pending[1..], reader, c', limit);
    }
  }

  /** A circuit is open exactly when FINISH records opened it or the streak and the dead burns together reach the
      limit. */
  lemma OpenByCounting(h: History, reader: Option<Id>, cls: RecordClass)
    requires TimesNonzero(h)
    ensures Open(h, reader, cls) <==>
            FinishCircuit(h, cls).openedAt != 0 ||
            FinishCircuit(h, cls).streak + DeadCount(Pending(h, h, cls), reader) >= FailureLimit(cls)
  {
    PendingFromHistory(h, h, cls);
    AddDeadOpens(Pending(h, h, cls), reader, FinishCircuit(h, cls), FailureLimit(cls));
  }

  // ----- what FINISH records alone open -----------------------------------------

  predicate Failed(r: Record, cls: RecordClass) {
    r.body.Finish? && r.body.cls == cls && !r.body.reason.Success?
  }

  predicate Succeeded(r: Record, cls: RecordClass) {
    r.body.Finish? && r.body.cls == cls && r.body.reason.Success?
  }

  predicate IsReset(r: Record, cls: RecordClass) {
    r.body.Reset? && r.body.cls == cls
  }

  /** No reset of the class after position i. */
  predicate NoResetAfter(h: History, i: int, cls: RecordClass) {
    forall x :: i < x < |h| && 0 <= x ==> !IsReset(h[x], cls)
  }

  predicate NoSuccessBetween(h: History, i: int, k: int, cls: RecordClass) {
    forall x :: i < x < k && 0 <= x < |h| ==> !Succeeded(h[x], cls)
  }

  /** Three failed FINISH records since the last reset, with no success between them. */
  ghost predicate ThreeFailures(h: History) {
    exists i, j, k ::
      && 0 <= i < j < k < |h|
      && Failed(h[i], Ordinary) && Failed(h[j], Ordinary) && Failed(h[k], Ordinary)
      && NoSuccessBetween(h, i, k, Ordinary) && NoResetAfter(h, i, Ordinary)
  }

  /** One failed FINISH since the last reset. */
  ghost predicate OneFailure(h: History) {
    exists i :: 0 <= i < |h| && Failed(h[i], Campaign) && NoResetAfter(h, i, Campaign)
  }

  lemma CircuitStep(h: History, k: nat, cls: RecordClass)
    requires k < |h|
    ensures
      var c, c', r := FinishCircuit(h[..k], cls), FinishCircuit(h[..k + 1], cls), h[k];
      c' == if Failed(r, cls) then CountFailure(c, r.at, FailureLimit(cls))
            else if Succeeded(r, cls) && c.openedAt == 0 then Circuit(0, 0)
            else if IsReset(r, cls) then Circuit(0, 0)
            else c
  {
    assert DropLast(h[..k + 1]) == h[..k] && Last(h[..k + 1]) == h[k];
  }

  /** From i on, with no reset and no success before k, the streak never drops and an opening stays. */
  lemma {:induction false} StreakGrows(h: History, i: nat, k: nat, cls: RecordClass)
    requires i <= k <= |h| && TimesNonzero(h)
    requires NoSuccessBetween(h, i - 1, k, cls) && NoResetAfter(h, i - 1, cls)
    ensures
      var c, c' := FinishCircuit(h[..i], cls), FinishCircuit(h[..k], cls);
      && (c.openedAt != 0 ==> c'.openedAt == c.openedAt)
      && (c'.openedAt == 0 ==> c.streak <= c'.streak)
    decreases k - i
  {
    if i < k {
      CircuitStep(h, k - 1, cls);
      StreakGrows(h, i, k - 1, cls);
    }
  }

  /** An opening survives every record but a reset of its class. */
  lemma {:induction false} OpeningStays(h: History, i: nat, k: nat, cls: RecordClass)
    requires i <= k <= |h|
    requires FinishCircuit(h[..i], cls).openedAt != 0
    requires forall x :: i <= x < k ==> !IsReset(h[x], cls)
    ensures FinishCircuit(h[..k], cls).openedAt == FinishCircuit(h[..i], cls).openedAt
    decreases k - i
  {
    if i < k {
      CircuitStep(h, k - 1, cls);
      OpeningStays(h, i, k - 1, cls);
    }
  }

  /** Where an unopened streak of up to two comes from. */
  lemma {:induction false} StreakOrigin(h: History, cls: RecordClass) returns (i: int, j: int)
    requires TimesNonzero(h)
    requires FinishCircuit(h, cls).openedAt == 0 && FinishCircuit(h, cls).streak >= 1
    ensures 0 <= i <= j < |h| && Failed(h[i], cls) && Failed(h[j], cls)
    ensures NoSuccessBetween(h, i, |h|, cls) && NoResetAfter(h, i, cls)
    ensures FinishCircuit(h, cls).streak == 2 ==> i < j
  {
    var c, r := FinishCircuit(DropLast(h), cls), Last(h);
    assert DropLast(h) == h[..|h| - 1];
    CircuitStep(h, |h| - 1, cls);
    assert h[..|h|] == h;
    if Failed(r, cls) {
      if c.streak == 0 {
        i, j := |h| - 1, |h| - 1;
      } else {
        i, j := StreakOrigin(DropLast(h), cls);
        j := |h| - 1;
      }
    } else {
      i, j := StreakOrigin(DropLast(h), cls);
    }
  }

  lemma TwoFailuresCount(h: History, i: nat, j: nat)
    requires TimesNonzero(h) && i < j < |h| && Failed(h[i], Ordinary) && Failed(h[j], Ordinary)
    requires NoSuccessBetween(h, i, j, Ordinary) && NoResetAfter(h, i, Ordinary)
    ensures var c := FinishCircuit(h[..j + 1], Ordinary); c.openedAt != 0 || c.streak >= 2
  {
    CircuitStep(h, i, Ordinary);
    StreakGrows(h, i + 1, j, Ordinary);
    CircuitStep(h, j, Ordinary);
  }

  lemma ThreeFailuresOpen(h: History, i: nat, j: nat, k: nat)
    requires TimesNonzero(h)
    requires i < j < k < |h|
    requires Failed(h[i], Ordinary) && Failed(h[j], Ordinary) && Failed(h[k], Ordinary)
    requires NoSuccessBetween(h, i, k, Ordinary) && NoResetAfter(h, i, Ordinary)
    ensures FinishCircuit(h, Ordinary).openedAt != 0
  {
    TwoFailuresCount(h, i, j);
    StreakGrows(h, j + 1, k, Ordinary);
    CircuitStep(h, k, Ordinary);
    OpeningStays(h, k + 1, |h|, Ordinary);
    assert h[..|h|] == h;
  }

  lemma QuietExtends(h: History, i: int, k: int, cls: RecordClass)
    requires h != [] && k <= |h| - 1
    requires NoSuccessBetween(DropLast(h), i, k, cls) && NoResetAfter(DropLast(h), i, cls)
    requires !IsReset(Last(h), cls)
    ensures NoSuccessBetween(h, i, k, cls) && NoResetAfter(h, i, cls)
  {
    forall x | i < x < k && 0 <= x < |h| ensures !Succeeded(h[x], cls) { assert DropLast(h)[x] == h[x]; }
    forall x | i < x < |h| && 0 <= x ensures !IsReset(h[x], cls) {
      if x < |h| - 1 { assert DropLast(h)[x] == h[x]; }
    }
  }

  lemma {:induction false} OpenHasThreeFailures(h: History)
    requires TimesNonzero(h) && FinishCircuit(h, Ordinary).openedAt != 0
    ensures ThreeFailures(h)
  {
    var n, g := |h| - 1, DropLast(h);
    CircuitStep(h, n, Ordinary);
    assert h[..|h|] == h && g == h[..n];
    var i, j, k;
    if FinishCircuit(g, Ordinary).openedAt != 0 {
      OpenHasThreeFailures(g);
      i, j, k :|
        && 0 <= i < j < k < |g|
        && Failed(g[i], Ordinary) && Failed(g[j], Ordinary) && Failed(g[k], Ordinary)
        && NoSuccessBetween(g, i, k, Ordinary) && NoResetAfter(g, i, Ordinary);
    } else {
      i, j := StreakOrigin(g, Ordinary);
      k := n;
    }
    QuietExtends(h, i, k, Ordinary);
    assert Failed(h[i], Ordinary) && Failed(h[j], Ordinary) && Failed(h[k], Ordinary);
  }

  /** FINISH records open the ordinary circuit exactly when three failures since the last reset have no success
      between them. */
  lemma OpenedByThreeFailures(h: History)
    requires TimesNonzero(h)
    ensures FinishCircuit(h, Ordinary).openedAt != 0 <==> ThreeFailures(h)
  {
    if FinishCircuit(h, Ordinary).openedAt != 0 { OpenHasThreeFailures(h); }
    if ThreeFailures(h) {
      var i, j, k :|
        && 0 <= i < j < k < |h|
        && Failed(h[i], Ordinary) && Failed(h[j], Ordinary) && Failed(h[k], Ordinary)
        && NoSuccessBetween(h, i, k, Ordinary) && NoResetAfter(h, i, Ordinary);
      ThreeFailuresOpen(h, i, j, k);
    }
  }

  /** FINISH records open the campaign circuit exactly when one failed since the last reset. */
  lemma {:induction false} OpenedByOneFailure(h: History)
    requires TimesNonzero(h)
    ensures FinishCircuit(h, Campaign).openedAt != 0 <==> OneFailure(h)
  {
    if OneFailure(h) {
      var i :| 0 <= i < |h| && Failed(h[i], Campaign) && NoResetAfter(h, i, Campaign);
      CircuitStep(h, i, Campaign);
      OpeningStays(h, i + 1, |h|, Campaign);
      assert h[..|h|] == h;
    }
    if FinishCircuit(h, Campaign).openedAt != 0 {
      var n := |h| - 1;
      CircuitStep(h, n, Campaign);
      assert h[..|h|] == h && DropLast(h) == h[..n];
      if Failed(h[n], Campaign) {
        assert NoResetAfter(h, n, Campaign);
      } else {
        OpenedByOneFailure(h[..n]);
        var i :| 0 <= i < n && Failed(h[..n][i], Campaign) && NoResetAfter(h[..n], i, Campaign);
        assert Failed(h[i], Campaign);
        assert NoResetAfter(h, i, Campaign) by {
          forall x | i < x < |h| && 0 <= x ensures !IsReset(h[x], Campaign) { if x < n { assert h[..n][x] == h[x]; } }
        }
      }
    }
  }

  // ----- how one more record changes the pending burns -----------------------------

  function Without(pending: seq<Record>, credential: Id): seq<Record> {
    if pending == [] then []
    else if IsBurn(pending[0], credential) then Without(pending[1..], credential)
    else [pending[0]] + Without(pending[1..], credential)
  }

  lemma {:induction false} WithoutAppend(pending: seq<Record>, r: Record, credential: Id)
    ensures Without(pending + [r], credential) == Without(pending, credential) + if IsBurn(r, credential) then []
      else [r]
  {
    if pending == [] {
      assert pending + [r] == [r];
    } else {
      assert (pending + [r])[1..] == pending[1..] + [r];
      WithoutAppend(pending[1..], r, credential);
    }
  }

  lemma FinishedAppend(h: History, r: Record, credential: Id)
    ensures Finished(h + [r], credential) <==> Finished(h, credential) || IsFinish(r, credential)
  {
    if Finished(h, credential) {
      var i :| 0 <= i < |h| && IsFinish(h[i], credential);
      assert IsFinish((h + [r])[i], credential);
    }
    if IsFinish(r, credential) { assert IsFinish((h + [r])[|h|], credential); }
  }

  /** Finishing a credential removes its burn from the pending list and nothing else. */
  lemma {:induction false} PendingAfterFinish(h: History, all: History, f: Record, cls: RecordClass)
    requires f.body.Finish?
    ensures Pending(h, all + [f], cls) == Without(Pending(h, all, cls), f.body.credential)
  {
    if h != [] {
      PendingAfterFinish(DropLast(h), all, f, cls);
      var r := Last(h);
      if r.body.Burn? {
        FinishedAppend(all, f, r.body.credential);
        WithoutAppend(Pending(DropLast(h), all, cls), r, f.body.credential);
      }
    }
  }

  lemma {:induction false} PendingAfterOther(h: History, all: History, r: Record, cls: RecordClass)
    requires !r.body.Finish?
    ensures Pending(h, all + [r], cls) == Pending(h, all, cls)
  {
    if h != [] {
      PendingAfterOther(DropLast(h), all, r, cls);
      if Last(h).body.Burn? { FinishedAppend(all, r, Last(h).body.credential); }
    }
  }

  /** Removing a burn the reader owns leaves the dead count alone. */
  lemma {:induction false} WithoutOwned(pending: seq<Record>, credential: Id, reader: Option<Id>)
    requires forall i :: 0 <= i < |pending| && IsBurn(pending[i], credential) ==> Owns(reader, pending[i])
    ensures DeadCount(Without(pending, credential), reader) == DeadCount(pending, reader)
  {
    if pending != [] { WithoutOwned(pending[1..], credential, reader); }
  }

  lemma {:induction false} WithoutAbsent(pending: seq<Record>, credential: Id)
    requires forall i :: 0 <= i < |pending| ==> !IsBurn(pending[i], credential)
    ensures Without(pending, credential) == pending
  {
    if pending != [] { WithoutAbsent(pending[1..], credential); }
  }

  lemma {:induction false} DeadCountAppend(pending: seq<Record>, r: Record, reader: Option<Id>)
    ensures DeadCount(pending + [r], reader) == DeadCount(pending, reader) + if Owns(reader, r) then 0 else 1
  {
    if pending == [] {
      assert pending + [r] == [r];
    } else {
      assert (pending + [r])[1..] == pending[1..] + [r];
      DeadCountAppend(pending[1..], r, reader);
    }
  }

  /** A reader that owns no pending burn counts at least as many dead as any other. */
  lemma {:induction false} ForeignCountsMost(pending: seq<Record>, reader: Option<Id>, other: Option<Id>)
    requires Foreign(pending, reader)
    ensures DeadCount(pending, other) <= DeadCount(pending, reader) == |pending|
  {
    if pending != [] {
      assert Foreign(pending[1..], reader);
      ForeignCountsMost(pending[1..], reader, other);
    }
  }

  lemma {:induction false} PositiveDeadCount(pending: seq<Record>, reader: Option<Id>)
    ensures DeadCount(pending, reader) > 0 <==> exists i :: 0 <= i < |pending| && !Owns(reader, pending[i])
  {
    if pending != [] {
      PositiveDeadCount(pending[1..], reader);
      if exists i :: 0 <= i < |pending[1..]| && !Owns(reader, pending[1..][i]) {
        var i :| 0 <= i < |pending[1..]| && !Owns(reader, pending[1..][i]);
        assert !Owns(reader, pending[i + 1]);
      }
      if i :| 0 <= i < |pending| && !Owns(reader, pending[i]) && Owns(reader, pending[0]) {
        assert pending[1..][i - 1] == pending[i];
      }
    }
  }
}
