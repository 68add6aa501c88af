/** The machine governor: leases, reservations, drains, two-phase termination and close
    (internal/governor/governor.go, internal/governor/loopback_termination.go).

    One method is one section under the governor's lock. */
module GovernorState {
  import opened Basics
  import opened Identifiers
  import opened GovernorLeases
  import opened GovernorTables
  import opened GovernorBook

  /** A two-phase reservation was refunded on a clean verdict, or by the final close. */
  predicate RefundOk(l: Lease, closed: bool) { l.phased && l.closed && !l.phase.Clean? ==> closed }

  /** The manager of this termination has neither given a clean verdict nor seen every drain complete. */
  predicate Unsettled(l: Lease) { !l.closed && l.phased && !l.phase.Clean? && !l.phase.Settled? }

  ghost predicate RefundsOk(leases: seq<Lease>, closed: bool) {
    forall k {:trigger RefundOk(leases[k], closed)} :: 0 <= k < |leases| ==> RefundOk(leases[k], closed)
  }

  ghost predicate MovedOn(before: seq<Lease>, after: seq<Lease>) {
    && |before| <= |after|
    && forall k {:trigger Later(before[k], after[k])} :: 0 <= k < |before| ==> Later(before[k], after[k])
  }

  lemma OneMoves(leases: seq<Lease>, k: nat, l: Lease, closed: bool)
    requires k < |leases| && Later(leases[k], l)
    ensures MovedOn(leases, leases[k := l])
    ensures RefundsOk(leases, closed) && RefundOk(l, closed) ==> RefundsOk(leases[k := l], closed)
  {
    var next := leases[k := l];
    if RefundsOk(leases, closed) && RefundOk(l, closed) {
      forall j | 0 <= j < |next| ensures RefundOk(next[j], closed) { assert RefundOk(leases[j], closed); }
    }
  }

  lemma OneJoins(leases: seq<Lease>, l: Lease, closed: bool)
    requires RefundsOk(leases, closed) && !l.closed
    ensures MovedOn(leases, leases + [l]) && RefundsOk(leases + [l], closed)
  {
    var next := leases + [l];
    forall j | 0 <= j < |next| ensures RefundOk(next[j], closed) {
      if j < |leases| { assert RefundOk(leases[j], closed); }
    }
  }

  lemma StoppedLater(l: Lease)
    requires LeaseOk(l)
    ensures Later(l, Stopped(l))
  {
  }

  lemma StoppedMoveOn(before: seq<Lease>, after: seq<Lease>, only: Option<nat>)
    requires AllOk(before) && |after| == |before|
    requires forall k :: 0 <= k < |after| ==> after[k] == StoppedIf(before[k], only)
    ensures MovedOn(before, after) && AllDrainsKept(before, after)
  {
    forall k | 0 <= k < |before| ensures Later(before[k], after[k]) && DrainsKept(before[k], after[k]) {
      assert LeaseOk(before[k]);
      StoppedLater(before[k]);
      StoppedKept(before[k]);
    }
  }

  predicate Emptied(peerLeases: seq<Peer>, p: nat) {
    p < |peerLeases| && peerLeases[p].closed && peerLeases[p].attempts == map[]
  }

  lemma UpdateTwice(s: seq<Lease>, k: nat, a: Lease, b: Lease)
    requires k < |s|
    ensures s[k := a][k := b] == s[k := b]
  {
  }

  lemma MovedOnTwice(a: seq<Lease>, b: seq<Lease>, c: seq<Lease>)
    requires MovedOn(a, b) && MovedOn(b, c)
    ensures MovedOn(a, c)
  {
    forall k | 0 <= k < |a| ensures Later(a[k], c[k]) { assert Later(a[k], b[k]) && Later(b[k], c[k]); }
  }

  lemma AllPeersLeave(limits: Limits, b: Book)
    requires Sound(limits, b)
    requires forall id {:trigger Emptied(b.peerLeases, b.peers[id])} :: id in b.peers ==>
      Emptied(b.peerLeases, b.peers[id])
    ensures Sound(limits, b.(peers := map[]))
    ensures b.attempts == map[] && b.reserved == NOTHING && b.heavyweight == 0
  {
    forall id | id in b.peers ensures b.peers[id] < |b.peerLeases| && b.peerLeases[b.peers[id]].attempts == map[] {
      assert Emptied(b.peerLeases, b.peers[id]);
    }
    NobodyLeft(limits, b);
    forall p | 0 <= p < |b.peerLeases| ensures GoneOk(b.peerLeases, map[], p) {
      assert GoneOk(b.peerLeases, b.peers, p);
      assert IsRegistered(b.peerLeases, b.peers, p) ==> Emptied(b.peerLeases, b.peers[b.peerLeases[p].id]);
    }
  }

  function NewLease(p: nat, r: Request, loopback: bool): Lease {
    Lease(p, r.id, r.cost, r.heavyweight, loopback, {}, {}, 0, false, false, false, false, false, false, Idle, false,
      false)
  }

  function StoppedIf(l: Lease, only: Option<nat>): Lease {
    if only == None || l.peer == only.value then Stopped(l) else l
  }

  /** A lease after the network drains of one of them, or of another one, missed their deadline. */
  function Overdue(l: Lease, late: bool, closed: bool): Lease {
    var m := if late then l.(networkError := true) else l;
    if closed then m else Stopped(m)
  }

  class Governor {
    const limits: Limits
    const machine: bool       // phase1_machine, the only profile with two-phase attempts
    const tripsOnLimit: bool  // the manual-traversal and campaign profiles

    var peerLeases: seq<Peer>
    var leases: seq<Lease>
    var peers: map<string, nat>
    var attempts: map<string, nat>
    var reserved: Resources
    var heavyweight: int
    var finalizing: int
    var fault: bool
    var tripped: bool
    var closing: bool
    var closed: bool
    var ownerHeld: bool

    function Now(): Book
      reads this`peerLeases, this`leases, this`peers, this`attempts, this`reserved, this`heavyweight, this`finalizing
    {
      Book(peerLeases, leases, peers, attempts, reserved, heavyweight, finalizing)
    }

    ghost predicate Lifecycle()
      reads this`closed, this`peers, this`attempts, this`ownerHeld
    {
      && (closed ==> peers == map[] && attempts == map[])
      && (!ownerHeld ==> closed)
    }

    ghost predicate Inv()
      reads this
    {
      Sound(limits, Now()) && RefundsOk(leases, closed) && Lifecycle()
    }

    /** loopbackAdmissionBlockedLocked */
    predicate Blocked()
      reads this
    {
      fault || finalizing != 0
    }

    /** loopbackWorkOutstandingLocked */
    predicate Outstanding()
      reads this
    {
      exists k :: 0 <= k < |leases| && Unsettled(leases[k])
    }

    /** Nothing is ever undone: leases only move on, faults and trips stay. */
    twostate predicate Grows()
      reads this
    {
      && MovedOn(old(leases), leases) && |old(peerLeases)| <= |peerLeases|
      && (old(fault) ==> fault) && (old(tripped) ==> tripped)
      && (old(closed) ==> closed) && (!old(ownerHeld) ==> !ownerHeld)
    }

    constructor (limits: Limits, machine: bool, tripsOnLimit: bool)
      requires Within(NOTHING, limits.aggregate)
      ensures Inv()
      ensures this.limits == limits && this.machine == machine && this.tripsOnLimit == tripsOnLimit
      ensures Now() == Book([], [], map[], map[], NOTHING, 0, 0)
      ensures !fault && !tripped && !closing && !closed && ownerHeld
    {
      this.limits, this.machine, this.tripsOnLimit := limits, machine, tripsOnLimit;
      peerLeases, leases, peers, attempts := [], [], map[], map[];
      reserved, heavyweight, finalizing := NOTHING, 0, 0;
      fault, tripped, closing, closed, ownerHeld := false, false, false, false, true;
    }

    // ----- acquiring -----------------------------------------------------------------------

    method AcquirePeer(id: string) returns (p: Option<nat>)
      requires Inv()
      modifies this`peers, this`peerLeases
      ensures Inv() && Grows()
      ensures p.Some? <==>
        && ValidIdentifier(id) && !closed && !closing && !Blocked() && !tripped
        && id !in old(peers) && |old(peers)| < limits.peers
      ensures p == None ==> Now() == old(Now())
      ensures p.Some? ==> p.value == |old(peerLeases)| && Now() == AfterPeerJoins(old(Now()), id)
    {
      if !ValidIdentifier(id) || closed || closing || Blocked() || tripped { return None; }
      if id in peers || |peers| >= limits.peers { return None; }
      PeerJoinKeepsSound(limits, Now(), id);
      p := Some(|peerLeases|);
      peers := peers[id := |peerLeases|];
      peerLeases := peerLeases + [Peer(id, false, map[])];
    }

    /** validateAttemptLocked: the first check that fails decides. */
    function Validate(p: nat, r: Request): Admission
      requires p < |peerLeases|
      reads this
    {
      if !ValidIdentifier(r.id) || !r.allowed || r.id in attempts then Refused
      else if |attempts| >= limits.attempts || |peerLeases[p].attempts| >= limits.perPeer then OverLimit
      else if !Within(NOTHING, r.cost) || r.cost == NOTHING || r.duration <= 0 then Refused
      else if r.duration > limits.duration || !Within(r.cost, limits.perAttempt)
              || !Within(Plus(reserved, r.cost), limits.aggregate)
              || (r.heavyweight && heavyweight >= limits.heavyweight) then OverLimit
      else Fits
    }

    /** Whether a request fits is a question about the book with the lease in it: the first two answers are about its
        tables, the last about its reservations. */
    lemma ValidateLaw(p: nat, r: Request, loopback: bool)
      requires Inv() && p < |peerLeases|
      ensures
        var b := AfterGrant(Now(), NewLease(p, r, loopback));
        Validate(p, r) ==
          if !ValidIdentifier(r.id) || !r.allowed || r.id in attempts then Refused
          else if |b.attempts| > limits.attempts || |b.peerLeases[p].attempts| > limits.perPeer then OverLimit
          else if !Within(NOTHING, r.cost) || r.cost == NOTHING || r.duration <= 0 then Refused
          else if CostOk(NewLease(p, r, loopback), limits) && r.duration <= limits.duration
            && Within(b.reserved, limits.aggregate) && b.heavyweight <= limits.heavyweight then Fits
          else OverLimit
    {
      if r.id !in attempts {
        assert r.id !in peerLeases[p].attempts by {
          assert r.id in peerLeases[p].attempts ==>
            EntryOk(leases, peerLeases, p, r.id) && Listed(leases, attempts, peerLeases[p].attempts[r.id]);
        }
        GrowCount(attempts, r.id, |leases|);
        GrowCount(peerLeases[p].attempts, r.id, |leases|);
      }
    }

    /** The refusals that come before the cost is looked at. */
    predicate Shut(p: nat, r: Request, loopback: bool)
      requires p < |peerLeases|
      reads this
    {
      Blocked() || (loopback && (!machine || !r.connectTest)) || tripped || closed || closing || peerLeases[p].closed
    }

    method AcquireAttempt(p: nat, r: Request, loopback: bool) returns (k: Option<nat>)
      requires Inv() && p < |peerLeases|
      modifies this`leases, this`attempts, this`peerLeases, this`reserved, this`heavyweight, this`finalizing,
        this`tripped
      ensures Inv() && Grows()
      ensures k.Some? <==> !old(Shut(p, r, loopback)) && old(Validate(p, r)).Fits?
      ensures k.Some? ==> k.value == |old(leases)| && Now() == AfterGrant(old(Now()), NewLease(p, r, loopback))
      ensures k.Some? ==> !tripped && !closed && !closing && !old(peerLeases)[p].closed && !fault && finalizing == 0
      ensures k.Some? && loopback ==> machine && r.connectTest
      ensures k == None ==> reserved == old(reserved) && attempts == old(attempts) && peerLeases == old(peerLeases)
      ensures AllDrainsKept(old(leases), leases)
      ensures k == None ==> |leases| == |old(leases)| && forall j :: 0 <= j < |leases| ==>
        leases[j] == if tripped && !old(tripped) then Stopped(old(leases)[j]) else old(leases)[j]
      ensures tripped <==>
        old(tripped) || (!old(Shut(p, r, loopback)) && old(Validate(p, r)).OverLimit? && tripsOnLimit)
    {
      if Shut(p, r, loopback) { return None; }
      var verdict := Validate(p, r);
      if !verdict.Fits? {
        if verdict.OverLimit? && tripsOnLimit { Trip(); }
        return None;
      }
      k := Some(|leases|);
      Reserve(p, r, loopback);
    }

    method Reserve(p: nat, r: Request, loopback: bool)
      requires Inv() && p < |peerLeases| && !Shut(p, r, loopback) && Validate(p, r).Fits?
      modifies this`leases, this`attempts, this`peerLeases, this`reserved, this`heavyweight
      ensures Inv() && Grows()
      ensures Now() == AfterGrant(old(Now()), NewLease(p, r, loopback))
    {
      var l := NewLease(p, r, loopback);
      GrantKeepsSound(limits, Now(), l);
      OneJoins(leases, l, closed);
      var b := AfterGrant(Now(), l);
      leases, attempts, peerLeases, reserved, heavyweight :=
        b.leases, b.attempts, b.peerLeases, b.reserved, b.heavyweight;
    }

    // ----- drains and stopping -----------------------------------------------------------------

    /** One lease moves on; the totals it does not touch stay. */
    method SetLease(k: nat, l: Lease)
      requires Sound(limits, Now()) && k < |leases|
      requires SameSeat(leases[k], l) && Later(leases[k], l) && LeaseOk(l) && Finalizing(l) == Finalizing(leases[k])
      modifies this`leases
      ensures Sound(limits, Now()) && Grows() && (RefundsOk(old(leases), closed) ==> RefundsOk(leases, closed))
      ensures leases == old(leases)[k := l]
    {
      UpdateKeepsSound(limits, Now(), k, l);
      OneMoves(leases, k, l, closed);
      assert RefundsOk(leases, closed) ==> RefundOk(leases[k], closed);
      leases := leases[k := l];
    }

    method RegisterDrain(k: nat, name: string, accounting: bool) returns (d: Option<nat>)
      requires Inv() && k < |leases|
      modifies this`leases
      ensures Inv() && Grows()
      ensures
        var l := old(leases)[k];
        d.Some? <==> ValidIdentifier(name) && !closed && !closing && !l.closed && !l.stopping
                     && !(accounting && (!l.phased || l.accountingRegistered)) && DrainCount(l) < MAX_DRAINS
      ensures d == None ==> leases == old(leases)
      ensures d.Some? ==> d.value == old(leases)[k].nextDrain + 1
                          && leases == old(leases)[k := WithDrain(old(leases)[k], accounting)]
      ensures d.Some? ==> !IsOpen(old(leases)[k], d.value) && DrainsKept(old(leases)[k], leases[k])
      ensures d.Some? ==> if accounting then d.value in leases[k].accounting else d.value in leases[k].network
    {
      var l := leases[k];
      if !ValidIdentifier(name) || closed || closing || l.closed || l.stopping { return None; }
      if accounting && (!l.phased || l.accountingRegistered) { return None; }
      if DrainCount(l) >= MAX_DRAINS { return None; }
      assert LeaseOk(leases[k]);
      WithDrainOk(l, accounting);
      SetLease(k, WithDrain(l, accounting));
      return Some(l.nextDrain + 1);
    }

    method CompleteDrain(k: nat, d: nat)
      requires Inv() && k < |leases|
      modifies this`leases
      ensures Inv() && Grows()
      ensures leases == old(leases)[k := WithoutDrain(old(leases)[k], d)]
      ensures leases[k].network == old(leases)[k].network - {d}
        && leases[k].accounting == old(leases)[k].accounting - {d}
    {
      assert LeaseOk(leases[k]);
      var m := WithoutDrain(leases[k], d);
      WithoutDrainOk(leases[k], d);
      WithoutDrainSets(leases[k], d);
      SetLease(k, m);
      assert leases[k] == m;
    }

    /** beginAttemptStoppingLocked; a two-phase lease now counts as finalizing. */
    method BeginStopping(k: nat)
      requires Sound(limits, Now()) && k < |leases|
      modifies this`leases, this`finalizing
      ensures Sound(limits, Now()) && Grows() && (RefundsOk(old(leases), closed) ==> RefundsOk(leases, closed))
      ensures leases == old(leases)[k := Stopped(old(leases)[k])]
    {
      var l := leases[k];
      if l.closed || l.stopping { return; }
      assert LeaseOk(leases[k]);
      StoppedOk(l);
      StoppedLater(l);
      UpdateKeepsSound(limits, Now(), k, Stopped(l));
      OneMoves(leases, k, Stopped(l), closed);
      leases := leases[k := Stopped(l)];
      if l.phased { finalizing := finalizing + 1; }
    }

    /** Stop every live attempt, or every live attempt of one peer. */
    method StopMany(only: Option<nat>)
      requires Inv()
      modifies this`leases, this`finalizing
      ensures Inv() && Grows()
      ensures |leases| == |old(leases)| && AllDrainsKept(old(leases), leases)
      ensures forall k :: 0 <= k < |leases| ==> leases[k] == StoppedIf(old(leases)[k], only)
    {
      var i := 0;
      while i < |leases|
        invariant 0 <= i <= |leases| == |old(leases)|
        invariant Sound(limits, Now()) && RefundsOk(leases, closed)
        invariant forall k :: i <= k < |leases| ==> leases[k] == old(leases)[k]
        invariant forall k :: 0 <= k < i ==> leases[k] == StoppedIf(old(leases)[k], only)
      {
        if only == None || leases[i].peer == only.value { BeginStopping(i); }
        i := i + 1;
      }
      StoppedMoveOn(old(leases), leases, only);
    }

    /** tripLocked: whatever the store reports, this governor blocks from here on. */
    method Trip()
      requires Inv()
      modifies this`leases, this`finalizing, this`tripped
      ensures Inv() && Grows()
      ensures tripped <==> old(tripped) || !closed
      ensures |leases| == |old(leases)| && AllDrainsKept(old(leases), leases)
      ensures !closed ==> forall k :: 0 <= k < |leases| ==> leases[k] == Stopped(old(leases)[k])
      ensures closed ==> Now() == old(Now())
    {
      if closed { return; }
      tripped := true;
      StopMany(None);
    }

    // ----- releasing ------------------------------------------------------------------------------

    /** releaseAttemptLocked: the one place where a reservation is given back. */
    method Release(k: nat)
      requires Sound(limits, Now()) && k < |leases|
      requires leases[k].phased ==> leases[k].phase.Clean? || leases[k].phase.Settled?
      modifies this`leases, this`attempts, this`peerLeases, this`reserved, this`heavyweight, this`finalizing
      ensures Sound(limits, Now()) && MovedOn(old(leases), leases)
      ensures old(attempts) == map[] ==> attempts == map[]
      ensures old(leases)[k].closed ==> Now() == old(Now())
      ensures leases == old(leases)[k := Gone(old(leases)[k])]
      ensures
        var l := old(leases)[k];
        !l.closed ==> && reserved == Minus(old(reserved), l.cost) && attempts == old(attempts) - {l.id}
                      && l.peer < |old(peerLeases)|
                      && peerLeases == old(peerLeases)[l.peer := WithoutEntry(old(peerLeases)[l.peer], l.id)]
      ensures RefundsOk(old(leases), closed) && RefundOk(old(leases)[k].(closed := true), closed) ==>
        RefundsOk(leases, closed)
    {
      if leases[k].closed { return; }
      assert LeaseOk(leases[k]);
      StoppedLater(leases[k]);
      OneMoves(leases, k, Gone(leases[k]), closed);
      StopAndRefund(k);
    }

    method StopAndRefund(k: nat)
      requires Sound(limits, Now()) && k < |leases| && !leases[k].closed
      requires leases[k].phased ==> leases[k].phase.Clean? || leases[k].phase.Settled?
      modifies this`leases, this`attempts, this`peerLeases, this`reserved, this`heavyweight, this`finalizing
      ensures Sound(limits, Now())
      ensures leases == old(leases)[k := Gone(old(leases)[k])]
      ensures
        var l := old(leases)[k];
        && reserved == Minus(old(reserved), l.cost) && attempts == old(attempts) - {l.id} && l.peer < |old(peerLeases)|
        && peerLeases == old(peerLeases)[l.peer := WithoutEntry(old(peerLeases)[l.peer], l.id)]
    {
      assert LeaseOk(leases[k]);
      var l := Stopped(leases[k]);
      UpdateTwice(leases, k, l, l.(closed := true));
      BeginStopping(k);
      Refund(k);
    }

    method Refund(k: nat)
      requires Sound(limits, Now()) && k < |leases| && !leases[k].closed && leases[k].stopping
      requires leases[k].phased ==> leases[k].phase.Clean? || leases[k].phase.Settled?
      modifies this`leases, this`attempts, this`peerLeases, this`reserved, this`heavyweight
      ensures Sound(limits, Now())
      ensures leases == old(leases)[k := old(leases)[k].(closed := true)]
      ensures
        var l := old(leases)[k];
        && reserved == Minus(old(reserved), l.cost) && attempts == old(attempts) - {l.id} && l.peer < |old(peerLeases)|
        && peerLeases == old(peerLeases)[l.peer := WithoutEntry(old(peerLeases)[l.peer], l.id)]
    {
      ReleaseKeepsSound(limits, Now(), k);
      var b := AfterRelease(Now(), k);
      leases, attempts, peerLeases, reserved, heavyweight :=
        b.leases, b.attempts, b.peerLeases, b.reserved, b.heavyweight;
      assert Now() == b;
    }

    /** The end of drainOrdinaryAttempts for one lease of its batch. */
    method ReleaseOrdinary(k: nat)
      requires Inv() && k < |leases| && !leases[k].phased
      modifies this`leases, this`attempts, this`peerLeases, this`reserved, this`heavyweight, this`finalizing
      ensures Inv() && Grows()
      ensures leases == old(leases)[k := Gone(old(leases)[k])]
      ensures reserved == if old(leases)[k].closed then old(reserved) else Minus(old(reserved), old(leases)[k].cost)
    {
      Release(k);
    }

    /** A drain wait ran out while this lease still had drains. */
    method DrainTimeout(k: nat)
      requires Inv() && k < |leases|
      modifies this`leases, this`finalizing, this`tripped
      ensures Inv() && Grows()
      ensures tripped <==> old(tripped) || (!closed && !old(leases)[k].closed && !Quiet(old(leases)[k]))
      ensures old(leases)[k].closed || Quiet(old(leases)[k]) ==> Now() == old(Now())
      ensures |leases| == |old(leases)| && AllDrainsKept(old(leases), leases)
      ensures forall j :: 0 <= j < |leases| ==>
        leases[j] == if !closed && !old(leases)[k].closed && !Quiet(old(leases)[k]) then Stopped(old(leases)[j])
          else old(leases)[j]
    {
      if !leases[k].closed && !Quiet(leases[k]) { Trip(); }
    }

    method ClosePeerBegin(p: nat)
      requires Inv() && p < |peerLeases|
      modifies this`leases, this`finalizing, this`peerLeases
      ensures Inv() && Grows() && |leases| == |old(leases)| && AllDrainsKept(old(leases), leases)
      ensures peerLeases == old(peerLeases)[p := old(peerLeases)[p].(closed := true)]
      ensures old(peerLeases)[p].closed ==> leases == old(leases)
      ensures !old(peerLeases)[p].closed ==> forall k :: 0 <= k < |leases| ==>
        leases[k] == StoppedIf(old(leases)[k], Some(p))
      ensures !old(peerLeases)[p].closed ==> forall k :: 0 <= k < |leases| ==>
        if old(leases)[k].peer == p then leases[k].stopping || leases[k].closed else leases[k] == old(leases)[k]
    {
      if peerLeases[p].closed { return; }
      PeerCloseKeepsSound(limits, Now(), p);
      peerLeases := peerLeases[p := peerLeases[p].(closed := true)];
      StopMany(Some(p));
    }

    /** The peer slot is freed only when its last attempt is gone. */
    method ClosePeerEnd(p: nat)
      requires Inv() && p < |peerLeases| && peerLeases[p].closed
      modifies this`peers
      ensures Inv() && Grows()
      ensures
        var q := peerLeases[p];
        if q.id in old(peers) && old(peers)[q.id] == p && q.attempts == map[] then peers == old(peers) - {q.id}
        else peers == old(peers)
    {
      var q := peerLeases[p];
      if q.id in peers && peers[q.id] == p && q.attempts == map[] {
        PeerLeaveKeepsSound(limits, Now(), q.id);
        peers := peers - {q.id};
      }
    }

    /** The end of finishSafetyTripDrain for one peer: an idle peer is closed and dropped. */
    method SweepPeer(id: string)
      requires Inv()
      modifies this`peers, this`peerLeases
      ensures Inv() && Grows()
      ensures id in old(peers) ==> old(peers)[id] < |old(peerLeases)|
      ensures if id in old(peers) && old(peerLeases)[old(peers)[id]].attempts == map[] then
                && peers == old(peers) - {id}
                && peerLeases == old(peerLeases)[old(peers)[id] := old(peerLeases)[old(peers)[id]].(closed := true)]
              else peers == old(peers) && peerLeases == old(peerLeases)
    {
      if id !in peers { return; }
      assert PeerNameOk(peerLeases, peers, id);
      var p := peers[id];
      if peerLeases[p].attempts != map[] { return; }
      PeerCloseKeepsSound(limits, Now(), p);
      peerLeases := peerLeases[p := peerLeases[p].(closed := true)];
      PeerLeaveKeepsSound(limits, Now(), id);
      peers := peers - {id};
    }

    // ----- two-phase termination -----------------------------------------------------------------

    /** The network drains missed their deadline: trip, and remember the error. */
    method NetworkTimeout(k: nat)
      requires Inv() && k < |leases| && leases[k].phase.NetworkWait? && !leases[k].networkClosed
      modifies this`leases, this`finalizing, this`tripped
      ensures Inv() && Grows()
      ensures leases[k].networkError && (tripped <==> old(tripped) || !closed) && AllDrainsKept(old(leases), leases)
      ensures |leases| == |old(leases)| && forall j :: 0 <= j < |leases| ==>
        leases[j] == Overdue(old(leases)[j], j == k, closed)
    {
      assert LeaseOk(leases[k]);
      SetLease(k, leases[k].(networkError := true));
      ghost var before := leases;
      Trip();
      MovedOnTwice(old(leases), before, leases);
    }

    method NetworkDone(k: nat)
      requires Inv() && k < |leases| && leases[k].phase.NetworkWait?
        && (leases[k].networkClosed || leases[k].networkError)
      modifies this`leases
      ensures Inv() && Grows()
      ensures leases == old(leases)[k := old(leases)[k].(phase := AccountingWait)]
    {
      assert LeaseOk(leases[k]);
      SetLease(k, leases[k].(phase := AccountingWait));
    }

    /** A FINISH or admission error, recorded while its accounting drain is still open. */
    method RecordFinishError(k: nat)
      requires Inv() && k < |leases| && leases[k].phased && leases[k].accounting != {}
      modifies this`leases, this`fault
      ensures Inv() && Grows()
      ensures fault && leases == old(leases)[k := old(leases)[k].(finishError := true)]
    {
      assert LeaseOk(leases[k]);
      SetLease(k, leases[k].(finishError := true));
      fault := true;
    }

    /** The accounting deadline passed, or the verdict carries an earlier error: the reservation stays. */
    method FailVerdict(k: nat, timedOut: bool)
      requires Inv() && k < |leases| && leases[k].phase.AccountingWait?
      requires timedOut || leases[k].networkError || leases[k].finishError
      modifies this`leases, this`fault
      ensures Inv() && Grows()
      ensures fault == (old(fault) || timedOut) && reserved == old(reserved)
      ensures leases == old(leases)[k := old(leases)[k].(phase := Failed)]
    {
      assert LeaseOk(leases[k]);
      if timedOut { fault := true; }
      SetLease(k, leases[k].(phase := Failed));
    }

    /** No error and both witnesses closed: the only verdict that refunds. */
    method CleanVerdict(k: nat)
      requires Inv() && k < |leases| && leases[k].phase.AccountingWait?
      requires leases[k].accountingClosed && !leases[k].networkError && !leases[k].finishError
      modifies this`leases, this`attempts, this`peerLeases, this`reserved, this`heavyweight, this`finalizing
      ensures Inv() && Grows()
      ensures reserved == Minus(old(reserved), old(leases)[k].cost)
      ensures leases == old(leases)[k := old(leases)[k].(phase := Clean, closed := true)]
    {
      NotYetClosed(k);
      CleanAndRefund(k);
    }

    /** A governor that is closed has no termination under way. */
    lemma NotYetClosed(k: nat)
      requires Inv() && k < |leases| && leases[k].phase.AccountingWait?
      ensures !closed && ownerHeld
    {
      assert LeaseOk(leases[k]) && RefundOk(leases[k], closed) && Listed(leases, attempts, k);
    }

    method CleanAndRefund(k: nat)
      requires Inv() && k < |leases| && leases[k].phase.AccountingWait?
      requires leases[k].accountingClosed && !leases[k].networkError && !leases[k].finishError
      modifies this`leases, this`attempts, this`peerLeases, this`reserved, this`heavyweight, this`finalizing
      ensures Sound(limits, Now()) && RefundsOk(leases, closed) && MovedOn(old(leases), leases)
      ensures |peerLeases| == |old(peerLeases)| && reserved == Minus(old(reserved), old(leases)[k].cost)
      ensures leases == old(leases)[k := old(leases)[k].(phase := Clean, closed := true)]
    {
      var l := leases[k].(phase := Clean);
      OneMoves(leases, k, l.(closed := true), closed);
      UpdateTwice(leases, k, l, l.(closed := true));
      MarkClean(k);
      Refund(k);
    }

    method MarkClean(k: nat)
      requires Inv() && k < |leases| && leases[k].phase.AccountingWait?
      requires leases[k].accountingClosed && !leases[k].networkError && !leases[k].finishError
      modifies this`leases, this`finalizing
      ensures Inv() && Grows() && !closed && ownerHeld && !leases[k].closed && leases[k].stopping
      ensures leases == old(leases)[k := old(leases)[k].(phase := Clean)]
    {
      assert LeaseOk(leases[k]) && Listed(leases, attempts, k);
      var l := leases[k].(phase := Clean);
      UpdateKeepsSound(limits, Now(), k, l);
      OneMoves(leases, k, l, closed);
      leases := leases[k := l];
      finalizing := finalizing - 1;
    }

    /** Every drain of a failed termination has completed at last. */
    method Settle(k: nat)
      requires Inv() && k < |leases| && leases[k].phase.Failed? && leases[k].drained
      modifies this`leases
      ensures Inv() && Grows()
      ensures leases == old(leases)[k := old(leases)[k].(phase := Settled)]
    {
      assert LeaseOk(leases[k]);
      SetLease(k, leases[k].(phase := Settled));
    }

    // ----- close --------------------------------------------------------------------------------------

    method CloseBegin()
      requires Inv()
      modifies this`leases, this`finalizing, this`closing
      ensures Inv() && Grows()
      ensures closing == (old(closing) || !closed)
      ensures |leases| == |old(leases)| && AllDrainsKept(old(leases), leases)
      ensures !old(closing) && !closed ==> forall k :: 0 <= k < |leases| ==> leases[k] == Stopped(old(leases)[k])
      ensures old(closing) || closed ==> Now() == old(Now())
    {
      if closed || closing { return; }
      closing := true;
      StopMany(None);
    }

    /** The owner is kept, and Close may be tried again, while a termination is unsettled. */
    method CloseEnd()
      requires Inv() && closing && !closed
      modifies this
      ensures Inv() && Grows()
      ensures closed <==> !old(Outstanding())
      ensures AllDrainsKept(old(leases), leases)
      ensures closed ==> |leases| == |old(leases)|
      ensures closed ==> forall k :: 0 <= k < |leases| ==> leases[k] == Gone(old(leases)[k])
      ensures old(Outstanding()) ==> Now() == old(Now()) && !closing && ownerHeld == old(ownerHeld)
      ensures tripped == old(tripped) && fault == old(fault) && ownerHeld == old(ownerHeld)
      ensures closed ==> peers == map[] && attempts == map[] && reserved == NOTHING && heavyweight == 0
    {
      if Outstanding() {
        closing := false;
        return;
      }
      StopActive();
      GoneKept(old(leases), leases);
      closed := true;
      forall k | 0 <= k < |leases| ensures RefundOk(leases[k], closed) { }
    }

    /** Close hands the machine namespace back. */
    method ReleaseOwner()
      requires Inv() && closed
      modifies this`ownerHeld
      ensures Inv() && Grows() && !ownerHeld
    {
      ownerHeld := false;
    }

    /** stopActiveLocked: release everybody; the final zeroing then changes nothing. */
    method StopActive()
      requires Inv() && !Outstanding()
      modifies this
      ensures Sound(limits, Now()) && MovedOn(old(leases), leases) && |peerLeases| == |old(peerLeases)|
      ensures |leases| == |old(leases)| && forall k :: 0 <= k < |leases| ==> leases[k] == Gone(old(leases)[k])
      ensures peers == map[] && attempts == map[] && reserved == NOTHING && heavyweight == 0
      ensures closed == old(closed) && closing == old(closing) && ownerHeld == old(ownerHeld)
      ensures fault == old(fault) && tripped == old(tripped)
    {
      ReleaseAll();
      AllPeersLeave(limits, Now());
      AllGone(old(leases));
      peers, attempts, reserved, heavyweight := map[], map[], NOTHING, 0;
    }

    /** Nobody is listed any more, so whoever was live has been released. */
    lemma AllGone(before: seq<Lease>)
      requires Sound(limits, Now()) && attempts == map[] && AllOk(before) && SomeGone(before, leases)
      ensures forall k :: 0 <= k < |leases| ==> leases[k] == Gone(before[k])
    {
      forall k | 0 <= k < |leases| ensures leases[k] == Gone(before[k]) {
        assert GoneOrSame(before[k], leases[k]) && LeaseOk(before[k]);
        assert Live(leases[k]) ==> Listed(leases, attempts, k);
        GoneTwice(before[k]);
      }
    }

    method ReleaseAll()
      requires Sound(limits, Now()) && !Outstanding()
      modifies this`leases, this`attempts, this`peerLeases, this`reserved, this`heavyweight, this`finalizing
      ensures Sound(limits, Now()) && MovedOn(old(leases), leases) && |peerLeases| == |old(peerLeases)|
      ensures SomeGone(old(leases), leases)
      ensures forall id {:trigger Emptied(peerLeases, peers[id])} :: id in peers ==> Emptied(peerLeases, peers[id])
    {
      var remaining := peers.Keys;
      while remaining != {}
        invariant Sound(limits, Now()) && !Outstanding() && MovedOn(old(leases), leases)
        invariant |peerLeases| == |old(peerLeases)| && remaining <= peers.Keys && SomeGone(old(leases), leases)
        invariant forall id {:trigger Emptied(peerLeases, peers[id])} ::
          id in peers && id !in remaining ==> Emptied(peerLeases, peers[id])
      {
        var id :| id in remaining;
        assert PeerNameOk(peerLeases, peers, id);
        ghost var table, before := peerLeases, leases;
        ReleasePeer(peers[id]);
        MovedOnTwice(old(leases), before, leases);
        SomeGoneTwice(old(leases), before, leases);
        forall a | a in peers && a !in remaining - {id} ensures Emptied(peerLeases, peers[a]) {
          if a != id { assert Emptied(table, peers[a]); }
        }
        remaining := remaining - {id};
      }
    }

    method ReleaseEntry(p: nat, id: string)
      requires Sound(limits, Now()) && !Outstanding() && p < |peerLeases| && id in peerLeases[p].attempts
      modifies this`leases, this`attempts, this`peerLeases, this`reserved, this`heavyweight, this`finalizing
      ensures Sound(limits, Now()) && !Outstanding() && MovedOn(old(leases), leases)
      ensures peerLeases == old(peerLeases)[p := WithoutEntry(old(peerLeases)[p], id)] && SomeGone(old(leases), leases)
    {
      assert EntryOk(leases, peerLeases, p, id);
      OneGone(leases, peerLeases[p].attempts[id]);
      Release(peerLeases[p].attempts[id]);
    }

    method ReleasePeer(p: nat)
      requires Sound(limits, Now()) && !Outstanding() && p < |peerLeases|
      modifies this`leases, this`attempts, this`peerLeases, this`reserved, this`heavyweight, this`finalizing
      ensures Sound(limits, Now()) && !Outstanding() && MovedOn(old(leases), leases)
      ensures |peerLeases| == |old(peerLeases)| && Emptied(peerLeases, p) && SomeGone(old(leases), leases)
      ensures forall q :: 0 <= q < |peerLeases| && q != p ==> peerLeases[q] == old(peerLeases)[q]
    {
      while peerLeases[p].attempts != map[]
        invariant Sound(limits, Now()) && !Outstanding() && MovedOn(old(leases), leases)
        invariant |peerLeases| == |old(peerLeases)| && SomeGone(old(leases), leases)
        invariant forall q :: 0 <= q < |peerLeases| && q != p ==> peerLeases[q] == old(peerLeases)[q]
        decreases peerLeases[p].attempts.Keys
      {
        var id :| id in peerLeases[p].attempts;
        ghost var before := leases;
        ReleaseEntry(p, id);
        MovedOnTwice(old(leases), before, leases);
        SomeGoneTwice(old(leases), before, leases);
      }
      PeerCloseKeepsSound(limits, Now(), p);
      peerLeases := peerLeases[p := peerLeases[p].(closed := true)];
    }
  }
}
