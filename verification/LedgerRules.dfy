/** The rules of a journal, record by record and place by place, and the replay that enforces them. */
module LedgerRules {
  import opened Basics
  import opened PairingRecords
  import opened LedgerHistory

  /** The first record, and only the first, sets the journal up. */
  predicate Started(h: History, i: int)
    requires 0 <= i < |h|
  {
    i == 0 <==> h[i].body.Initialize? || h[i].body.RebuildBaseline?
  }

  /** Two burns share neither their credential nor their attempt. */
  predicate Apart(a: Record, b: Record) {
    a.body.Burn? && b.body.Burn? ==> a.body.credential != b.body.credential && a.body.attempt != b.body.attempt
  }

  predicate OneFinish(a: Record, b: Record) {
    a.body.Finish? && b.body.Finish? ==> a.body.credential != b.body.credential
  }

  /** An earlier burn of the same class, credential and attempt. */
  ghost predicate AnswersBefore(h: History, j: int)
    requires 0 <= j < |h| && h[j].body.Finish?
  {
    exists i :: 0 <= i < j && h[i].body.Burn? && h[i].body.cls == h[j].body.cls
      && h[i].body.credential == h[j].body.credential && h[i].body.attempt == h[j].body.attempt
  }

  /** What the rules ask of the record at a place, given what stands before it. */
  ghost predicate RuleAt(h: History, reader: Option<Id>, j: int)
    requires 0 <= j < |h|
  {
    && h[j].sequence == j + 1 && Started(h, j)
    && (forall i :: 0 <= i < j ==> h[i].at <= h[j].at && Apart(h[i], h[j]) && OneFinish(h[i], h[j]))
    && (h[j].body.Finish? ==> AnswersBefore(h, j))
    && (h[j].body.Reset? ==>
         var since := CircuitFor(h[..j], reader, h[j].body.cls).openedAt;
         since != 0 && HighWatermark(h[..j]) <= h[j].at + ROLLBACK_SKEW
         && (h[j].body.cls.Ordinary? ==> h[j].at >= since + CIRCUIT_HORIZON))
  }

  ghost predicate Rules(h: History, reader: Option<Id>) {
    forall j {:trigger RuleAt(h, reader, j)} :: 0 <= j < |h| ==> RuleAt(h, reader, j)
  }

  lemma RuleOfPrefix(h: History, reader: Option<Id>, n: nat, j: int)
    requires 0 <= j < n <= |h|
    ensures RuleAt(h[..n], reader, j) <==> RuleAt(h, reader, j)
  {
    var g := h[..n];
    assert g[..j] == h[..j] && g[j] == h[j];
    assert forall i :: 0 <= i < j ==> g[i] == h[i];
    if h[j].body.Finish? {
      assert AnswersBefore(g, j) <==> AnswersBefore(h, j);
    }
  }

  lemma PrefixRules(h: History, reader: Option<Id>)
    requires h != []
    ensures Rules(h, reader) <==> Rules(DropLast(h), reader) && RuleAt(h, reader, |h| - 1)
  {
    var n := |h| - 1;
    forall j | 0 <= j < n ensures RuleAt(h[..n], reader, j) <==> RuleAt(h, reader, j) { RuleOfPrefix(h, reader, n, j); }
  }

  /** Burns before the last record, told by names and told by places. */
  lemma NamesBefore(h: History)
    requires h != []
    ensures
      var g, r, n := DropLast(h), Last(h), |h| - 1;
      && (r.body.Burn? ==> ((!Burned(g, r.body.credential) && !AttemptUsed(g, r.body.attempt))
            <==> forall i :: 0 <= i < n ==> Apart(h[i], r)))
      && (r.body.Finish? ==> (Answers(g, r.body) <==> AnswersBefore(h, n)))
      && (r.body.Finish? ==> (!Finished(g, r.body.credential) <==> forall i :: 0 <= i < n ==> OneFinish(h[i], r)))
  {
    var g, r, n := DropLast(h), Last(h), |h| - 1;
    assert forall i :: 0 <= i < n ==> g[i] == h[i];
    if r.body.Burn? { BurnNames(g, r); }
    if r.body.Finish? {
      FinishNames(g, r);
      if Answers(g, r.body) {
        var i :| 0 <= i < |g| && IsBurn(g[i], r.body.credential) && g[i].body.attempt == r.body.attempt
          && g[i].body.cls == r.body.cls;
        assert h[i].body.Burn?;
      }
      if AnswersBefore(h, n) {
        var i :| 0 <= i < n && h[i].body.Burn? && h[i].body.cls == h[n].body.cls
          && h[i].body.credential == h[n].body.credential && h[i].body.attempt == h[n].body.attempt;
        assert IsBurn(g[i], r.body.credential);
      }
    }
  }

  lemma BurnNames(g: History, r: Record)
    requires r.body.Burn?
    ensures (!Burned(g, r.body.credential) && !AttemptUsed(g, r.body.attempt))
      <==> forall i :: 0 <= i < |g| ==> Apart(g[i], r)
  {
    if !Burned(g, r.body.credential) && !AttemptUsed(g, r.body.attempt) {
      forall i | 0 <= i < |g| ensures Apart(g[i], r) { assert !IsBurn(g[i], r.body.credential); }
    }
    if forall i :: 0 <= i < |g| ==> Apart(g[i], r) {
      forall i | 0 <= i < |g| ensures !IsBurn(g[i], r.body.credential) { assert Apart(g[i], r); }
      forall i | 0 <= i < |g| && g[i].body.Burn? ensures g[i].body.attempt != r.body.attempt { assert Apart(g[i], r); }
    }
  }

  lemma FinishNames(g: History, r: Record)
    requires r.body.Finish?
    ensures !Finished(g, r.body.credential) <==> forall i :: 0 <= i < |g| ==> OneFinish(g[i], r)
  {
    if !Finished(g, r.body.credential) {
      forall i | 0 <= i < |g| ensures OneFinish(g[i], r) { assert !IsFinish(g[i], r.body.credential); }
    }
    if forall i :: 0 <= i < |g| ==> OneFinish(g[i], r) {
      forall i | 0 <= i < |g| ensures !IsFinish(g[i], r.body.credential) { assert OneFinish(g[i], r); }
    }
  }

  lemma LastRule(h: History, reader: Option<Id>)
    requires h != [] && Rules(DropLast(h), reader)
    ensures RuleAt(h, reader, |h| - 1) <==> Follows(DropLast(h), reader, Last(h))
  {
    var g, n := DropLast(h), |h| - 1;
    assert g == h[..n] && forall i :: 0 <= i < n ==> g[i] == h[i];
    NamesBefore(h);
    if n > 0 {
      assert RuleAt(g, reader, n - 1);
      assert forall i :: 0 <= i < n ==> g[i].at <= g[n - 1].at;
    }
  }

  /** The replay accepts a journal exactly when every record keeps the rules. */
  lemma {:induction false} ReplayLaw(h: History, reader: Option<Id>)
    ensures Accepts(h, reader) <==> Rules(h, reader)
  {
    if h != [] {
      ReplayLaw(DropLast(h), reader);
      PrefixRules(h, reader);
      if Rules(DropLast(h), reader) { LastRule(h, reader); }
    }
  }
}
