/** A controller and the transport lease it promotes into, in any interleaving
    (internal/probeio/probeio.go, internal/probeio/transport_lease.go). */
module ProbeRuns {
  import opened Basics
  import opened ProbeBooks
  import opened ProbeControl

  datatype LeaseState = Issued | Inactive | Adopted | Standby | ChallengePassed | LeaseClosed

  class TransportLease {
    var state: LeaseState
    var socket: Option<nat>   // the promoted datagram it owns
    var detached: bool
    var completions: nat      // how often the attempt's drain was completed

    predicate Inv()
      reads this
    {
      && (socket.Some? <==> !state.Issued? && !state.LeaseClosed?)
      && (detached ==> state.ChallengePassed? || state.LeaseClosed?)
      && completions == if detached || state.LeaseClosed? then 1 else 0
    }

    constructor ()
      ensures Inv() && state.Issued? && socket == None && !detached
    {
      state, socket, detached, completions := Issued, None, false, 0;
    }

    method Attach(i: nat) returns (ok: bool)
      requires Inv()
      modifies this
      ensures Inv() && (ok <==> old(state).Issued?)
      ensures socket == (if ok then Some(i) else old(socket)) && state == (if ok then Inactive else old(state))
      ensures detached == old(detached)
    {
      if !state.Issued? || detached { return false; }
      socket, state := Some(i), Inactive;
      return true;
    }

    /** Adopt, MarkStandby and MarkChallengePassed, each from the one state before it. */
    method Advance() returns (ok: bool)
      requires Inv()
      modifies this`state
      ensures Inv() && (ok <==> old(state).Inactive? || old(state).Adopted? || old(state).Standby?)
      ensures old(state).Inactive? ==> state == Adopted
      ensures old(state).Adopted? ==> state == Standby
      ensures old(state).Standby? ==> state == ChallengePassed
      ensures !ok ==> state == old(state)
    {
      ok := true;
      match state {
        case Inactive => state := Adopted;
        case Adopted => state := Standby;
        case Standby => state := ChallengePassed;
        case _ => ok := false;
      }
    }

    /** The attempt lets go of a passed session; the lease is now its sole owner. */
    method DetachAfterFinish() returns (ok: bool)
      requires Inv()
      modifies this`detached, this`completions
      ensures Inv() && (ok <==> !old(detached) && state.ChallengePassed?)
      ensures completions == old(completions) + if ok then 1 else 0
      ensures detached == (old(detached) || ok)
    {
      if detached || !state.ChallengePassed? { return false; }
      detached, completions := true, completions + 1;
      return true;
    }

    /** closeOwned: the drain is completed here only if it has not been completed before. */
    method CloseOwned() returns (owned: Option<nat>)
      requires Inv()
      modifies this
      ensures Inv() && state.LeaseClosed? && socket == None && owned == old(socket) && detached == old(detached)
    {
      if state.LeaseClosed? { return None; }
      owned := socket;
      state, socket := LeaseClosed, None;
      if !detached { completions := completions + 1; }
    }
  }

  /** The lease holds a datagram exactly when the controller's books say so. */
  predicate Agree(sockets: seq<Socket>, held: Option<nat>) {
    && (held.Some? ==> held.value < |sockets| && sockets[held.value].holder.Lease?)
    && (forall i :: 0 <= i < |sockets| && sockets[i].holder.Lease? ==> sockets[i].life.Promoted? && held == Some(i))
  }

  lemma StillAgree(before: seq<Socket>, after: seq<Socket>, held: Option<nat>)
    requires Agree(before, held) && LeavesLeases(before, after)
    ensures Agree(after, held)
  {
    forall i | 0 <= i < |after| && after[i].holder.Lease? ensures after[i].life.Promoted? && held == Some(i) {
      assert i < |before|;
      assert SameLease(before[i], after[i]);
    }
    if held.Some? { assert SameLease(before[held.value], after[held.value]); }
  }

  ghost predicate Both(c: Controller, l: TransportLease)
    reads c, l
  {
    c.Inv() && l.Inv() && Agree(c.sockets, l.socket)
  }

  datatype Step =
    | OpenFirst(fault: bool) | OpenLast(gotOne: bool, fault: bool)
    | Register(i: nat, t: nat, fault: bool) | Reply(i: nat, t: nat) | CloseOne(i: nat)
    | PromoteFirst(i: nat, t: nat, fault: bool) | PromoteLast(i: nat, deadlineOk: bool, fault: bool)
    | Stop | TripNow(owed: bool) | Revoke
    | AttachLease(i: nat) | DropTransport(i: nat) | AdvanceLease | DetachLease | CloseLease

  method OpenStep(c: Controller, l: TransportLease, s: Step)
    requires Both(c, l)
    modifies c
    ensures Both(c, l) && c.promoted == old(c.promoted)
  {
    match s {
      case OpenFirst(fault) => var went := c.OpenEnter(fault);
      case OpenLast(gotOne, fault) =>
        if c.pending > 0 {
          var id := c.OpenEnd(gotOne, fault);
          StillAgree(old(c.sockets), c.sockets, l.socket);
        }
      case _ =>
    }
  }

  method CloseStep(c: Controller, l: TransportLease, i: nat)
    requires Both(c, l)
    modifies c
    ensures Both(c, l) && c.promoted == old(c.promoted)
  {
    if i < |c.sockets| {
      var ok := c.CloseSocket(i);
      StillAgree(old(c.sockets), c.sockets, l.socket);
    }
  }

  method TargetStep(c: Controller, l: TransportLease, s: Step)
    requires Both(c, l)
    modifies c
    ensures Both(c, l) && c.promoted == old(c.promoted)
  {
    match s {
      case Register(i, t, fault) =>
        if i < |c.sockets| {
          var ok := c.RegisterTarget(i, t, fault);
          StillAgree(old(c.sockets), c.sockets, l.socket);
        }
      case Reply(i, t) =>
        if i < |c.sockets| && c.sockets[i].life.Open? && t in c.sockets[i].targets {
          c.Verify(i, t);
          StillAgree(old(c.sockets), c.sockets, l.socket);
        }
      case _ =>
    }
  }

  method PromoteStep(c: Controller, l: TransportLease, s: Step) returns (won: bool)
    requires Both(c, l)
    modifies c
    ensures Both(c, l) && (won ==> !old(c.promoted)) && c.promoted == (old(c.promoted) || won)
  {
    won := false;
    match s {
      case PromoteFirst(i, t, fault) => if i < |c.sockets| { var went := c.PromoteEnter(i, t, fault); }
      case PromoteLast(i, deadlineOk, fault) => if i < |c.sockets| { won := c.PromoteEnd(i, deadlineOk, fault); }
      case Stop => c.StopLocal();
      case TripNow(owed) => if !owed || c.owing > 0 { var first := c.Trip(owed); }
      case Revoke => c.Revoke();
      case _ =>
    }
    StillAgree(old(c.sockets), c.sockets, l.socket);
  }

  method LeaseStep(c: Controller, l: TransportLease, s: Step)
    requires Both(c, l)
    modifies c, l
    ensures Both(c, l) && c.promoted == old(c.promoted)
  {
    match s {
      case AttachLease(i) =>
        if i < |c.sockets| && c.sockets[i].life.Promoted? && c.sockets[i].holder.Promoter? {
          var ok := l.Attach(i);
          c.Pass(i, if ok then Lease else Nobody);
        }
      case DropTransport(i) =>
        if i < |c.sockets| && c.sockets[i].life.Promoted? && c.sockets[i].holder.Promoter? { c.Pass(i, Nobody); }
      case AdvanceLease => var ok := l.Advance();
      case DetachLease => var ok := l.DetachAfterFinish();
      case CloseLease =>
        var owned := l.CloseOwned();
        if owned.Some? { c.Pass(owned.value, Nobody); }
      case _ =>
    }
  }

  /** In every interleaving: at most one promotion succeeds, every datagram has one holder, the counts equal the
      table's contents and stay within the reservation, and the attempt's drain is completed at most once. */
  method Run(c: Controller, l: TransportLease, steps: seq<Step>) returns (wins: nat)
    requires Both(c, l)
    modifies c, l
    ensures Both(c, l) && wins <= 1 && l.completions <= 1
    ensures wins == 1 ==> !old(c.promoted) && c.promoted
    ensures |c.table| + c.pending <= c.maxSockets && |c.refs| <= c.maxTargets && c.tuples <= c.maxTuples
  {
    wins := 0;
    for i := 0 to |steps|
      invariant Both(c, l) && wins <= 1
      invariant wins == 1 ==> !old(c.promoted) && c.promoted
      invariant wins == 0 ==> c.promoted == old(c.promoted)
    {
      var s := steps[i];
      if s.PromoteFirst? || s.PromoteLast? || s.Stop? || s.TripNow? || s.Revoke? {
        var won := PromoteStep(c, l, s);
        if won { wins := wins + 1; }
      } else if s.OpenFirst? || s.OpenLast? {
        OpenStep(c, l, s);
      } else if s.CloseOne? {
        CloseStep(c, l, s.i);
      } else if s.Register? || s.Reply? {
        TargetStep(c, l, s);
      } else {
        LeaseStep(c, l, s);
      }
    }
  }

  /** Nothing in the way of a controller with one socket. */
  ghost predicate Free(c: Controller)
    reads c
  {
    c.Inv() && !c.promoted && !c.stopped && !c.tripping && !c.revoked
  }

  method OneOpen() returns (c: Controller)
    ensures fresh(c) && Free(c) && c.sockets == [Socket(Open, {}, {}, Table)] && c.refs == map[] && c.tuples == 0
    ensures c.maxTargets == 1 && c.maxTuples == 1
  {
    c := new Controller(1, 1, 1);
    var went := c.OpenEnter(false);
    var id := c.OpenEnd(true, false);
  }

  method OneVerified() returns (c: Controller)
    ensures fresh(c) && Free(c) && c.sockets == [Socket(Open, {7}, {7}, Table)]
  {
    c := OneOpen();
    var ok := c.RegisterTarget(0, 7, false);
    assert {} + {7} == {7};
    c.Verify(0, 7);
  }

  method OnePromoted() returns (c: Controller)
    ensures fresh(c) && c.Inv() && c.promoted && c.sockets == [Socket(Promoted, {}, {}, Promoter)]
  {
    c := OneVerified();
    var went := c.PromoteEnter(0, 7, false);
    var won := c.PromoteEnd(0, true, false);
  }

  method Passing() returns (l: TransportLease)
    ensures fresh(l) && l.Inv() && l.socket == Some(0) && l.state.ChallengePassed? && l.detached && l.completions == 1
  {
    l := new TransportLease();
    var ok := l.Attach(0);
    ok := l.Advance();
    ok := l.Advance();
    ok := l.Advance();
    ok := l.DetachAfterFinish();
  }

  /** A verified socket is promoted into its lease, and the lease goes its way until the attempt lets go of it. */
  method Promotes() returns (c: Controller, l: TransportLease)
    ensures Both(c, l) && c.promoted && c.sockets == [Socket(Promoted, {}, {}, Lease)]
    ensures l.socket == Some(0) && l.state.ChallengePassed? && l.detached && l.completions == 1
  {
    c := OnePromoted();
    l := Passing();
    c.Pass(0, Lease);
  }
}
