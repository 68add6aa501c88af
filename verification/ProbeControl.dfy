/** The probe controller and the transport lease (internal/probeio/probeio.go, internal/probeio/transport_lease.go):
    who owns each datagram, and what is reserved for it. One method is one locked section.

    `fault` stands for a stale generation, a clock that went back or an attempt that ran out of time. */
module ProbeControl {
  import opened Basics
  import opened ProbeBooks

  lemma {:induction false} SubsetSize(a: set<nat>, b: set<nat>)
    requires a <= b
    ensures |a| <= |b|
    decreases a
  {
    if a != {} {
      var x :| x in a;
      SubsetSize(a - {x}, b - {x});
    }
  }

  lemma RefsShrink(b: Books, i: nat, t: nat)
    requires i < |b.sockets|
    ensures |WithoutTarget(b, i, t).refs| <= |b.refs|
  {
    var after := WithoutTarget(b, i, t).refs;
    assert after.Keys <= b.refs.Keys;
    SubsetSize(after.Keys, b.refs.Keys);
    assert |after| == |after.Keys| && |b.refs| == |b.refs.Keys|;
  }

  lemma RefsGrow(refs: map<nat, nat>, t: nat, n: nat)
    ensures |refs[t := n]| == |refs| + if t in refs then 0 else 1
  {
    assert refs[t := n].Keys == refs.Keys + {t};
    assert |refs[t := n]| == |refs[t := n].Keys| && |refs| == |refs.Keys|;
  }

  predicate SameLease(a: Socket, b: Socket) { a.holder.Lease? ==> b == a }

  /** Whatever a lease holds stays as it is, and nothing new gets into a lease. */
  ghost predicate LeavesLeases(before: seq<Socket>, after: seq<Socket>) {
    && |before| <= |after|
    && (forall i {:trigger SameLease(before[i], after[i])} :: 0 <= i < |before| ==>
       SameLease(before[i], after[i]) && SameLease(after[i], before[i]))
    && (forall i :: |before| <= i < |after| ==> !after[i].holder.Lease?)
  }

  lemma OneLeaves(before: seq<Socket>, i: nat, s: Socket)
    requires i < |before| && !before[i].holder.Lease? && !s.holder.Lease?
    ensures LeavesLeases(before, before[i := s])
  {
  }

  class Controller {
    const maxSockets: nat
    const maxTargets: nat
    const maxTuples: nat

    var sockets: seq<Socket>
    var table: set<nat>
    var refs: map<nat, nat>
    var tuples: int
    var pending: nat
    var stopped: bool
    var tripping: bool
    var revoked: bool         // the attempt's terminal choice was made
    var owing: nat            // calls that found a violation and have yet to trip
    var promoted: bool

    function B(): Books
      reads this
    {
      Books(sockets, table, refs, tuples)
    }

    ghost predicate Inv()
      reads this
    {
      && Kept(B())
      && |table| + pending <= maxSockets && |refs| <= maxTargets && tuples <= maxTuples
      && (stopped ==> table == {}) && (promoted ==> stopped)
      && (forall i :: 0 <= i < |sockets| && sockets[i].life.Promoted? ==> promoted)
    }

    constructor (maxSockets: nat, maxTargets: nat, maxTuples: nat)
      ensures Inv() && sockets == [] && !promoted && !stopped && !tripping && !revoked && pending == 0 && owing == 0
      ensures table == {} && refs == map[] && tuples == 0
      ensures this.maxSockets == maxSockets && this.maxTargets == maxTargets && this.maxTuples == maxTuples
    {
      this.maxSockets, this.maxTargets, this.maxTuples := maxSockets, maxTargets, maxTuples;
      sockets, table, refs, tuples, pending := [], {}, map[], 0, 0;
      stopped, tripping, revoked, owing, promoted := false, false, false, 0, false;
    }

    /** guardViolationLocked. A violation is not yet a trip: the call gives up the lock first. A revoked attempt is
        refused without one. */
    method Guard(fault: bool) returns (ok: bool)
      modifies this`owing
      ensures ok <==> !stopped && !tripping && !revoked && !fault
      ensures owing == old(owing) + if !stopped && !tripping && !revoked && fault then 1 else 0
    {
      if stopped || tripping || revoked { return false; }
      if fault { owing := owing + 1; }
      return !fault;
    }

    /** trip, at any time: for a call that found a violation and takes the lock again, if `owed`, or for Poison, the
        attempt timer, a failed write or an exhausted resource. Only the first one marks the controller. */
    method Trip(owed: bool) returns (first: bool)
      requires Inv() && (owed ==> owing > 0)
      modifies this`owing, this`tripping
      ensures Inv() && owing == old(owing) - if owed then 1 else 0
      ensures (first <==> !stopped && !old(tripping)) && (tripping <==> old(tripping) || first)
    {
      if owed { owing := owing - 1; }
      first := !stopped && !tripping;
      if first { tripping := true; }
    }

    /** The terminal choice revokes every probe handle. */
    method Revoke()
      requires Inv()
      modifies this`revoked
      ensures Inv() && revoked
    {
      revoked := true;
    }

    /** A slot is taken before the factory is called. */
    method OpenEnter(fault: bool) returns (went: bool)
      requires Inv()
      modifies this`owing, this`pending
      ensures Inv() && (went <==> !stopped && !tripping && !revoked && !fault && |table| + old(pending) < maxSockets)
      ensures pending == old(pending) + if went then 1 else 0
      ensures owing == old(owing) + if went || stopped || tripping || revoked then 0 else 1
    {
      went := Guard(fault);
      if !went { return; }
      if |table| + pending >= maxSockets {
        owing := owing + 1;
        return false;
      }
      pending := pending + 1;
    }

    /** The opened datagram enters the table, or is closed because the controller stopped meanwhile. */
    method OpenEnd(gotOne: bool, fault: bool) returns (id: Option<nat>)
      requires Inv() && pending > 0
      modifies this`owing, this`pending, this`sockets, this`table
      ensures Inv() && pending == old(pending) - 1
      ensures id.Some? <==> gotOne && !stopped && !tripping && !revoked && !fault
      ensures id.Some? ==> id.value == |old(sockets)| && B() == WithOpened(old(B()))
      ensures id == None ==> B() == old(B())
      ensures owing == old(owing) + if !stopped && !tripping && !revoked && fault then 1 else 0
      ensures LeavesLeases(old(sockets), sockets)
    {
      pending := pending - 1;
      var ok := Guard(fault);
      if !gotOne || !ok { return None; }
      OpenKeepsBooks(B());
      assert |sockets| !in table;
      id := Some(|sockets|);
      table := table + {|sockets|};
      sockets := sockets + [Socket(Open, {}, {}, Table)];
    }

    method RegisterTarget(i: nat, t: nat, fault: bool) returns (ok: bool)
      requires Inv() && i < |sockets|
      modifies this`owing, this`sockets, this`refs, this`tuples
      ensures Inv() && |sockets| == |old(sockets)| && (ok ==> t in sockets[i].targets)
      ensures ok <==> && !stopped && !tripping && !revoked && !fault && old(sockets)[i].life.Open?
                      && (t in old(sockets)[i].targets
                         || ((t in old(refs) || |old(refs)| < maxTargets) && old(tuples) < maxTuples))
      ensures B() == if ok && t !in old(sockets)[i].targets then WithTarget(old(B()), i, t) else old(B())
      ensures owing == old(owing) + if !ok && !stopped && !tripping && !revoked && (fault || old(sockets)[i].life.Open?)
        then 1 else 0
      ensures LeavesLeases(old(sockets), sockets)
    {
      ok := Guard(fault);
      if !ok { return; }
      if !sockets[i].life.Open? { return false; }
      if t in sockets[i].targets { return true; }
      if (t !in refs && |refs| >= maxTargets) || tuples >= maxTuples {
        owing := owing + 1;
        return false;
      }
      AddTarget(i, t);
    }

    method AddTarget(i: nat, t: nat)
      requires Inv() && !stopped && i < |sockets| && sockets[i].life.Open? && t !in sockets[i].targets
      requires (t in refs || |refs| < maxTargets) && tuples < maxTuples
      modifies this`sockets, this`refs, this`tuples
      ensures Inv() && B() == WithTarget(old(B()), i, t) && LeavesLeases(old(sockets), sockets)
    {
      assert SocketOk(B(), i);
      TargetKeepsBooks(B(), i, t);
      OneLeaves(sockets, i, sockets[i].(targets := sockets[i].targets + {t}));
      RefsGrow(refs, t, (if t in refs then refs[t] else 0) + 1);
      sockets := sockets[i := sockets[i].(targets := sockets[i].targets + {t})];
      refs := refs[t := (if t in refs then refs[t] else 0) + 1];
      tuples := tuples + 1;
    }

    /** A verified reply from a registered target makes it eligible for promotion. */
    method Verify(i: nat, t: nat)
      requires Inv() && i < |sockets| && sockets[i].life.Open? && t in sockets[i].targets
      modifies this`sockets, this`table
      ensures Inv() && sockets == old(sockets)[i := old(sockets)[i].(verified := old(sockets)[i].verified + {t})]
      ensures LeavesLeases(old(sockets), sockets)
    {
      assert SocketOk(B(), i);
      OneLeaves(sockets, i, sockets[i].(verified := sockets[i].verified + {t}));
      SetSocket(i, sockets[i].(verified := sockets[i].verified + {t}));
    }

    method SetSocket(i: nat, s: Socket)
      requires Kept(B()) && i < |sockets| && s.targets == sockets[i].targets && s.verified <= s.targets
      requires (Listed(s) <==> s.holder.Table?) && (s.life.Closed? ==> s.holder.Nobody?)
        && (!Listed(s) ==> s.targets == {})
      requires s.life.Promoted? ==> forall j :: 0 <= j < |sockets| && j != i ==> !sockets[j].life.Promoted?
      modifies this`sockets, this`table
      ensures Kept(B()) && B() == WithSocket(old(B()), i, s)
      ensures Listed(s) && Listed(old(sockets)[i]) ==> table == old(table)
      ensures |table| <= |old(table)| + if Listed(old(sockets)[i]) then 0 else 1
    {
      SocketKeepsBooks(B(), i, s);
      assert SocketOk(B(), i);
      if Listed(s) {
        if i in table { assert table + {i} == table; }
        table := table + {i};
      } else {
        SubsetSize(table - {i}, table);
        table := table - {i};
      }
      sockets := sockets[i := s];
    }

    /** releaseTargetsLocked, one target at a time; its guards against negative counts never fail. */
    method ReleaseTargets(i: nat)
      requires Kept(B()) && i < |sockets| && Listed(sockets[i])
      modifies this`sockets, this`refs, this`tuples
      ensures Kept(B()) && sockets == old(sockets)[i := old(sockets)[i].(targets := {}, verified := {})]
      ensures |refs| <= |old(refs)| && tuples <= old(tuples)
    {
      while sockets[i].targets != {}
        invariant |sockets| == |old(sockets)| && Kept(B()) && |refs| <= |old(refs)| && tuples <= old(tuples)
        invariant sockets == old(sockets)[i :=
          old(sockets)[i].(targets := sockets[i].targets, verified := sockets[i].verified)]
        decreases sockets[i].targets
      {
        var t :| t in sockets[i].targets;
        ReleaseKeepsBooks(B(), i, t);
        RefsShrink(B(), i, t);
        var b := WithoutTarget(B(), i, t);
        sockets, refs := b.sockets, b.refs;
        if tuples > 0 { tuples := tuples - 1; }
      }
      assert SocketOk(B(), i);
      assert sockets[i].verified == {};
    }

    /** Take a listed socket out of the table, with its targets. */
    method Remove(i: nat, life: Life, holder: Holder)
      requires Kept(B()) && i < |sockets| && Listed(sockets[i]) && !holder.Table?
      requires (life.Closed? && holder.Nobody?)
            || (life.Promoted? && forall j :: 0 <= j < |sockets| ==> !sockets[j].life.Promoted?)
      modifies this`sockets, this`table, this`refs, this`tuples
      ensures Kept(B()) && sockets == old(sockets)[i := Socket(life, {}, {}, holder)]
      ensures table == old(table) - {i} && |table| <= |old(table)| && |refs| <= |old(refs)| && tuples <= old(tuples)
    {
      ReleaseTargets(i);
      SetSocket(i, Socket(life, {}, {}, holder));
    }

    /** detachOpenSocketsLocked */
    method DetachAll()
      requires Kept(B())
      modifies this`sockets, this`table, this`refs, this`tuples
      ensures Kept(B()) && table == {} && |sockets| == |old(sockets)|
      ensures |refs| <= |old(refs)| && tuples <= old(tuples)
      ensures forall i :: 0 <= i < |sockets| ==>
        sockets[i] == if Listed(old(sockets)[i]) then Socket(Closed, {}, {}, Nobody) else old(sockets)[i]
    {
      for i := 0 to |sockets|
        invariant Kept(B()) && |sockets| == |old(sockets)| && |refs| <= |old(refs)| && tuples <= old(tuples)
        invariant forall j :: i <= j < |sockets| ==> sockets[j] == old(sockets)[j]
        invariant forall j :: 0 <= j < i ==>
          sockets[j] == if Listed(old(sockets)[j]) then Socket(Closed, {}, {}, Nobody) else old(sockets)[j]
      {
        if Listed(sockets[i]) { Remove(i, Closed, Nobody); }
      }
      forall i ensures i !in table { assert i in table ==> SocketOk(B(), i); }
    }

    // ----- promotion ---------------------------------------------------------------------------------

    /** Several sockets may get this far at once. */
    method PromoteEnter(i: nat, t: nat, fault: bool) returns (went: bool)
      requires Inv() && i < |sockets|
      modifies this`owing, this`sockets, this`table
      ensures Inv()
      ensures went <==> && !stopped && !tripping && !revoked && !fault && !promoted && old(sockets)[i].life.Open?
                        && t in old(sockets)[i].targets && t in old(sockets)[i].verified
      ensures sockets == if went then old(sockets)[i := old(sockets)[i].(life := Promoting)] else old(sockets)
      ensures owing == old(owing) + if !stopped && !tripping && !revoked && fault then 1 else 0
      ensures LeavesLeases(old(sockets), sockets)
    {
      went := Guard(fault);
      if !went { return; }
      if promoted || !sockets[i].life.Open? || t !in sockets[i].targets || t !in sockets[i].verified { return false; }
      assert SocketOk(B(), i);
      OneLeaves(sockets, i, sockets[i].(life := Promoting));
      SetSocket(i, sockets[i].(life := Promoting));
    }

    /** Only one of them comes through: it takes the datagram and closes every sibling. */
    method PromoteEnd(i: nat, deadlineOk: bool, fault: bool) returns (won: bool)
      requires Inv() && i < |sockets|
      modifies this`sockets, this`table, this`refs, this`tuples, this`stopped, this`promoted, this`owing
      ensures Inv() && |sockets| == |old(sockets)|
      ensures won <==> deadlineOk && !old(stopped) && !tripping && !revoked && !fault && old(sockets)[i].life.Promoting?
      ensures won ==> !old(promoted) && promoted && stopped && sockets[i] == Socket(Promoted, {}, {}, Promoter)
      ensures won ==> forall j :: 0 <= j < |sockets| && j != i ==>
        sockets[j] == if Listed(old(sockets)[j]) then Socket(Closed, {}, {}, Nobody) else old(sockets)[j]
      ensures !won ==> promoted == old(promoted) && stopped == old(stopped)
      ensures !won ==> sockets == if Listed(old(sockets)[i]) then old(sockets)[i := Socket(Closed, {}, {}, Nobody)]
        else old(sockets)
      ensures owing == old(owing) + if deadlineOk && !old(stopped) && !tripping && !revoked && fault then 1 else 0
      ensures LeavesLeases(old(sockets), sockets)
    {
      var ok := false;
      if deadlineOk { ok := Guard(fault); }
      won := ok && sockets[i].life.Promoting?;
      ghost var before := B();
      if won {
        HandOver(i);
        PromotionLeavesLeases(before, sockets, i);
      } else {
        LoseDatagram(i);
      }
    }

    /** A promotion that failed closes its datagram, unless that has been done. */
    method LoseDatagram(i: nat)
      requires Inv() && i < |sockets|
      modifies this`sockets, this`table, this`refs, this`tuples
      ensures Inv() && LeavesLeases(old(sockets), sockets)
      ensures sockets == if Listed(old(sockets)[i]) then old(sockets)[i := Socket(Closed, {}, {}, Nobody)]
        else old(sockets)
    {
      assert SocketOk(B(), i);
      if Listed(sockets[i]) {
        OneLeaves(sockets, i, Socket(Closed, {}, {}, Nobody));
        Remove(i, Closed, Nobody);
      }
    }

    method HandOver(i: nat)
      requires Inv() && !stopped && i < |sockets| && sockets[i].life.Promoting?
      modifies this`sockets, this`table, this`refs, this`tuples, this`stopped, this`promoted
      ensures Inv() && |sockets| == |old(sockets)| && promoted && stopped
      ensures sockets[i] == Socket(Promoted, {}, {}, Promoter)
      ensures forall j :: 0 <= j < |sockets| && j != i ==>
        sockets[j] == if Listed(old(sockets)[j]) then Socket(Closed, {}, {}, Nobody) else old(sockets)[j]
    {
      Remove(i, Promoted, Promoter);
      promoted, stopped := true, true;
      DetachAll();
    }

    /** ProbeSocket.Close: a socket that is being promoted is left to its promoter. */
    method CloseSocket(i: nat) returns (ok: bool)
      requires Inv() && i < |sockets|
      modifies this`sockets, this`table, this`refs, this`tuples
      ensures Inv() && (ok <==> old(sockets)[i].life.Open?)
      ensures sockets == if ok then old(sockets)[i := Socket(Closed, {}, {}, Nobody)] else old(sockets)
      ensures LeavesLeases(old(sockets), sockets)
    {
      assert SocketOk(B(), i);
      if !sockets[i].life.Open? { return false; }
      LoseDatagram(i);
      return true;
    }

    /** stopLocal: everything that was not promoted is closed. */
    method StopLocal()
      requires Inv()
      modifies this`stopped, this`sockets, this`table, this`refs, this`tuples
      ensures Inv() && stopped && |sockets| == |old(sockets)| && tuples == 0 && refs == map[]
      ensures forall i :: 0 <= i < |sockets| ==>
        sockets[i] == if Listed(old(sockets)[i]) then Socket(Closed, {}, {}, Nobody) else old(sockets)[i]
      ensures LeavesLeases(old(sockets), sockets)
    {
      stopped := true;
      ghost var before := B();
      DetachAll();
      ClosingLeavesLeases(before, sockets);
      NothingRegistered(B());
    }

    /** The promoter passes the datagram on: to its lease, or it closes it. */
    method Pass(i: nat, holder: Holder)
      requires Inv() && i < |sockets| && sockets[i].life.Promoted? && !holder.Table?
      modifies this`sockets, this`table
      ensures Inv() && sockets == old(sockets)[i := old(sockets)[i].(holder := holder)]
    {
      assert SocketOk(B(), i);
      forall j | 0 <= j < |sockets| && j != i ensures !sockets[j].life.Promoted? { assert OnlyOne(B(), i, j); }
      SetSocket(i, sockets[i].(holder := holder));
    }
  }

  /** The promoted socket goes to its promoter or is closed; the others are closed or stay as they are. */
  lemma PromotionLeavesLeases(b: Books, after: seq<Socket>, i: nat)
    requires Kept(b) && |after| == |b.sockets| && i < |after|
    requires after[i] == b.sockets[i] || (Listed(b.sockets[i]) && !after[i].holder.Lease?)
    requires forall j :: 0 <= j < |after| && j != i ==>
      after[j] == b.sockets[j] || (Listed(b.sockets[j]) && after[j] == Socket(Closed, {}, {}, Nobody))
    ensures LeavesLeases(b.sockets, after)
  {
    forall j | 0 <= j < |after| ensures SameLease(b.sockets[j], after[j]) && SameLease(after[j], b.sockets[j]) {
      assert SocketOk(b, j);
    }
  }

  lemma ClosingLeavesLeases(b: Books, after: seq<Socket>)
    requires Kept(b) && |after| == |b.sockets|
    requires forall i :: 0 <= i < |after| ==>
      after[i] == if Listed(b.sockets[i]) then Socket(Closed, {}, {}, Nobody) else b.sockets[i]
    ensures LeavesLeases(b.sockets, after)
  {
    forall i | 0 <= i < |after| ensures SameLease(b.sockets[i], after[i]) && SameLease(after[i], b.sockets[i]) {
      assert SocketOk(b, i);
    }
  }

  /** With an empty table no target and no five-tuple is counted. */
  lemma NothingRegistered(b: Books)
    requires Kept(b) && b.table == {}
    ensures b.tuples == 0 && b.refs == map[]
  {
    forall i | 0 <= i < |b.sockets| ensures b.sockets[i].targets == {} { assert SocketOk(b, i); }
    NoTargets(b.sockets, |b.sockets|);
    forall t ensures t !in b.refs { assert RefOk(b, t); }
  }

  lemma {:induction false} NoTargets(sockets: seq<Socket>, n: nat)
    requires n <= |sockets| && forall i :: 0 <= i < n ==> sockets[i].targets == {}
    ensures TupleCount(sockets, n) == 0 && forall t :: RefCount(sockets, t, n) == 0
  {
    if n > 0 { NoTargets(sockets, n - 1); }
  }
}
