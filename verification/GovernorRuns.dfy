/** Whole runs of the governor: any interleaving of its locked sections keeps the books,
    stays closed once it failed, and lets go of the machine owner only when all is quiet. */
module GovernorRuns {
  import opened Basics
  import opened Identifiers
  import opened GovernorLeases
  import opened GovernorTables
  import opened GovernorBook
  import opened GovernorState

  datatype Step =
    | JoinPeer(id: string)
    | Acquire(p: nat, request: Request, loopback: bool)
    | ClosePeerFirst(p: nat)
    | ClosePeerLast(p: nat)
    | SweepPeer(id: string)
    | Register(k: nat, name: string, accounting: bool)
    | Complete(k: nat, d: nat)
    | Stop(k: nat)
    | TimeOut(k: nat)
    | Free(k: nat)
    | NetworkLate(k: nat)
    | NetworkEnds(k: nat)
    | FinishFails(k: nat)
    | Verdict(k: nat, timedOut: bool)
    | Settles(k: nat)
    | TripAll
    | CloseFirst
    | CloseLast
    | LetOwnerGo

  /** Only these steps can trip. */
  predicate MayTrip(s: Step, tripsOnLimit: bool) {
    s.TripAll? || s.TimeOut? || s.NetworkLate? || (s.Acquire? && tripsOnLimit)
  }

  predicate StillPending(leases: seq<Lease>, k: nat) { k < |leases| && !leases[k].closed && !Quiet(leases[k]) }

  predicate NetworkOverdue(leases: seq<Lease>, k: nat) {
    k < |leases| && leases[k].phase.NetworkWait? && !leases[k].networkClosed
  }

  /** This step trips a governor in this state. */
  predicate Trips(g: Governor, s: Step)
    reads g
  {
    match s
    case TripAll => !g.closed
    case TimeOut(k) => !g.closed && StillPending(g.leases, k)
    case NetworkLate(k) => !g.closed && NetworkOverdue(g.leases, k)
    case Acquire(p, r, loopback) =>
      p < |g.peerLeases| && !g.Shut(p, r, loopback) && g.Validate(p, r).OverLimit? && g.tripsOnLimit
    case _ => false
  }

  /** Every open drain that none of the steps completes is still open. */
  ghost predicate DrainsOutlive(before: seq<Lease>, after: seq<Lease>, steps: seq<Step>) {
    && |before| <= |after|
    && forall k: nat, d: nat {:trigger IsOpen(before[k], d)} ::
         k < |before| && IsOpen(before[k], d) && Complete(k, d) !in steps ==> IsOpen(after[k], d)
  }

  lemma KeptOutlive(before: seq<Lease>, after: seq<Lease>, steps: seq<Step>)
    requires AllDrainsKept(before, after)
    ensures DrainsOutlive(before, after, steps)
  {
    forall k: nat, d: nat | k < |before| && IsOpen(before[k], d) ensures IsOpen(after[k], d) {
      assert DrainsKept(before[k], after[k]);
    }
  }

  lemma OutliveOneMore(a: seq<Lease>, b: seq<Lease>, c: seq<Lease>, steps: seq<Step>, s: Step)
    requires DrainsOutlive(a, b, steps) && DrainsOutlive(b, c, [s])
    ensures DrainsOutlive(a, c, steps + [s])
  {
    forall k: nat, d: nat | k < |a| && IsOpen(a[k], d) && Complete(k, d) !in steps + [s] ensures IsOpen(c[k], d) {
      assert Complete(k, d) !in steps && s in steps + [s];
      assert IsOpen(b[k], d);
    }
  }

  method AcquireStep(g: Governor, s: Step)
    requires g.Inv() && s.Acquire?
    modifies g
    ensures g.Inv() && g.Grows()
    ensures g.tripped <==> old(g.tripped) || old(Trips(g, s))
    ensures AllDrainsKept(old(g.leases), g.leases)
  {
    if s.p < |g.peerLeases| { var k := g.AcquireAttempt(s.p, s.request, s.loopback); }
  }

  method PeerStep(g: Governor, s: Step)
    requires g.Inv() && (s.JoinPeer? || s.ClosePeerFirst?)
    modifies g
    ensures g.Inv() && g.Grows()
    ensures g.tripped <==> old(g.tripped) || old(Trips(g, s))
    ensures AllDrainsKept(old(g.leases), g.leases)
  {
    match s {
      case JoinPeer(id) => var p := g.AcquirePeer(id);
      case ClosePeerFirst(p) => if p < |g.peerLeases| { g.ClosePeerBegin(p); }
    }
  }

  method SweepStep(g: Governor, s: Step)
    requires g.Inv() && s.SweepPeer?
    modifies g
    ensures g.Inv() && g.Grows()
    ensures g.tripped <==> old(g.tripped) || old(Trips(g, s))
    ensures AllDrainsKept(old(g.leases), g.leases)
  {
    SameKept(g.leases);
    g.SweepPeer(s.id);
  }

  method LeaveStep(g: Governor, s: Step)
    requires g.Inv() && s.ClosePeerLast?
    modifies g
    ensures g.Inv() && g.Grows()
    ensures g.tripped <==> old(g.tripped) || old(Trips(g, s))
    ensures AllDrainsKept(old(g.leases), g.leases)
  {
    SameKept(g.leases);
    if s.p < |g.peerLeases| && g.peerLeases[s.p].closed { g.ClosePeerEnd(s.p); }
  }

  method CompleteStep(g: Governor, s: Step)
    requires g.Inv() && s.Complete?
    modifies g
    ensures g.Inv() && g.Grows()
    ensures g.tripped <==> old(g.tripped) || old(Trips(g, s))
    ensures DrainsOutlive(old(g.leases), g.leases, [s])
  {
    if s.k < |g.leases| { g.CompleteDrain(s.k, s.d); }
  }

  method RegisterStep(g: Governor, s: Step)
    requires g.Inv() && s.Register?
    modifies g
    ensures g.Inv() && g.Grows()
    ensures g.tripped <==> old(g.tripped) || old(Trips(g, s))
    ensures AllDrainsKept(old(g.leases), g.leases)
  {
    if s.k < |g.leases| { var d := g.RegisterDrain(s.k, s.name, s.accounting); }
  }

  method LeaseStep(g: Governor, s: Step)
    requires g.Inv() && (s.Stop? || s.TimeOut? || s.Free?)
    modifies g
    ensures g.Inv() && g.Grows()
    ensures g.tripped <==> old(g.tripped) || old(Trips(g, s))
    ensures AllDrainsKept(old(g.leases), g.leases)
  {
    match s {
      case Stop(k) =>
        if k < |g.leases| {
          StoppedKept(g.leases[k]);
          OneKept(g.leases, k, Stopped(g.leases[k]));
          g.BeginStopping(k);
        }
      case TimeOut(k) => if k < |g.leases| { g.DrainTimeout(k); }
      case Free(k) =>
        if k < |g.leases| && !g.leases[k].phased {
          StoppedKept(g.leases[k]);
          OneKept(g.leases, k, Gone(g.leases[k]));
          g.ReleaseOrdinary(k);
        }
    }
  }

  method NetworkStep(g: Governor, s: Step)
    requires g.Inv() && (s.NetworkLate? || s.NetworkEnds?)
    modifies g
    ensures g.Inv() && g.Grows()
    ensures g.tripped <==> old(g.tripped) || old(Trips(g, s))
    ensures AllDrainsKept(old(g.leases), g.leases)
  {
    match s {
      case NetworkLate(k) => if NetworkOverdue(g.leases, k) { g.NetworkTimeout(k); }
      case NetworkEnds(k) =>
        if k < |g.leases| && g.leases[k].phase.NetworkWait? && (g.leases[k].networkClosed || g.leases[k].networkError) {
          OneKept(g.leases, k, g.leases[k].(phase := AccountingWait));
          g.NetworkDone(k);
        }
    }
  }

  method PhaseStep(g: Governor, s: Step)
    requires g.Inv() && (s.FinishFails? || s.Settles?)
    modifies g
    ensures g.Inv() && g.Grows()
    ensures g.tripped <==> old(g.tripped) || old(Trips(g, s))
    ensures AllDrainsKept(old(g.leases), g.leases)
  {
    match s {
      case FinishFails(k) =>
        if k < |g.leases| && g.leases[k].phased && g.leases[k].accounting != {} { g.RecordFinishError(k); }
      case Settles(k) => if k < |g.leases| && g.leases[k].phase.Failed? && g.leases[k].drained { g.Settle(k); }
    }
  }

  /** The accounting wait ends with the witness closed, or with its own deadline. */
  method VerdictStep(g: Governor, k: nat, timedOut: bool)
    requires g.Inv()
    modifies g
    ensures g.Inv() && g.Grows()
    ensures g.tripped == old(g.tripped)
    ensures AllDrainsKept(old(g.leases), g.leases)
  {
    if k >= |g.leases| || !g.leases[k].phase.AccountingWait? || !(timedOut || g.leases[k].accountingClosed) { return; }
    if timedOut || g.leases[k].networkError || g.leases[k].finishError {
      g.FailVerdict(k, timedOut);
    } else {
      g.CleanVerdict(k);
    }
  }

  method CloseStep(g: Governor, s: Step)
    requires g.Inv() && (s.TripAll? || s.CloseFirst? || s.CloseLast? || s.LetOwnerGo?)
    modifies g
    ensures g.Inv() && g.Grows()
    ensures g.tripped <==> old(g.tripped) || old(Trips(g, s))
    ensures AllDrainsKept(old(g.leases), g.leases)
  {
    match s {
      case TripAll => g.Trip();
      case CloseFirst => g.CloseBegin();
      case CloseLast => if g.closing && !g.closed { g.CloseEnd(); }
      case LetOwnerGo => if g.closed { g.ReleaseOwner(); }
    }
  }

  method PartyStep(g: Governor, s: Step)
    requires g.Inv()
    requires s.Acquire? || s.JoinPeer? || s.ClosePeerFirst? || s.ClosePeerLast? || s.SweepPeer?
          || s.Register? || s.Stop? || s.TimeOut? || s.Free?
    modifies g
    ensures g.Inv() && g.Grows()
    ensures g.tripped <==> old(g.tripped) || old(Trips(g, s))
    ensures AllDrainsKept(old(g.leases), g.leases)
  {
    if s.Acquire? {
      AcquireStep(g, s);
    } else if s.JoinPeer? || s.ClosePeerFirst? {
      PeerStep(g, s);
    } else if s.ClosePeerLast? {
      LeaveStep(g, s);
    } else if s.SweepPeer? {
      SweepStep(g, s);
    } else if s.Register? {
      RegisterStep(g, s);
    } else {
      LeaseStep(g, s);
    }
  }

  method OtherStep(g: Governor, s: Step)
    requires g.Inv() && !s.Complete?
    modifies g
    ensures g.Inv() && g.Grows()
    ensures g.tripped <==> old(g.tripped) || old(Trips(g, s))
    ensures AllDrainsKept(old(g.leases), g.leases)
  {
    if s.Verdict? {
      VerdictStep(g, s.k, s.timedOut);
    } else if s.NetworkLate? || s.NetworkEnds? {
      NetworkStep(g, s);
    } else if s.FinishFails? || s.Settles? {
      PhaseStep(g, s);
    } else if s.TripAll? || s.CloseFirst? || s.CloseLast? || s.LetOwnerGo? {
      CloseStep(g, s);
    } else {
      PartyStep(g, s);
    }
  }

  /** One locked section, whichever it is; only the completion of a drain ends one. */
  method TakeStep(g: Governor, s: Step)
    requires g.Inv()
    modifies g
    ensures g.Inv() && g.Grows()
    ensures g.tripped <==> old(g.tripped) || old(Trips(g, s))
    ensures DrainsOutlive(old(g.leases), g.leases, [s])
  {
    if s.Complete? {
      CompleteStep(g, s);
    } else {
      OtherStep(g, s);
      KeptOutlive(old(g.leases), g.leases, [s]);
    }
  }

  /** None of the steps can trip. */
  predicate Harmless(steps: seq<Step>, tripsOnLimit: bool) {
    forall i :: 0 <= i < |steps| ==> !MayTrip(steps[i], tripsOnLimit)
  }

  /** Every interleaving of every locked section. `trips` tells which steps found a reason to trip. */
  method Run(g: Governor, steps: seq<Step>) returns (trips: seq<bool>)
    requires g.Inv()
    modifies g
    ensures g.Inv() && g.Grows() && (steps == [] ==> g.Now() == old(g.Now()))
    ensures |trips| == |steps| && (g.tripped <==> old(g.tripped) || true in trips)
    ensures DrainsOutlive(old(g.leases), g.leases, steps)
    ensures forall i :: 0 <= i < |trips| && trips[i] ==> MayTrip(steps[i], g.tripsOnLimit)
  {
    trips := [];
    for i := 0 to |steps|
      invariant g.Inv() && g.Grows() && (steps == [] ==> g.Now() == old(g.Now()))
      invariant |trips| == i && (g.tripped <==> old(g.tripped) || true in trips)
      invariant DrainsOutlive(old(g.leases), g.leases, steps[..i])
      invariant forall j :: 0 <= j < i && trips[j] ==> MayTrip(steps[j], g.tripsOnLimit)
    {
      ghost var before := g.leases;
      trips := trips + [Trips(g, steps[i])];
      TakeStep(g, steps[i]);
      MovedOnTwice(old(g.leases), before, g.leases);
      OutliveOneMore(old(g.leases), before, g.leases, steps[..i], steps[i]);
      assert steps[..i + 1] == steps[..i] + [steps[i]];
    }
  }

  // ----- what the invariant means ---------------------------------------------------------------

  predicate HasFailed(l: Lease) { l.phase.Failed? || l.phase.Settled? }

  /** A failed verdict keeps every later peer and attempt out. */
  lemma FailedVerdictBlocks(g: Governor, k: nat)
    requires g.Inv() && k < |g.leases| && HasFailed(g.leases[k])
    ensures g.Blocked()
  {
    assert LeaseOk(g.leases[k]);
    assert IsFinalizing(g.leases[k]);
    TallyCounts(g.leases, |g.leases|);
  }

  /** One failed verdict, then any run at all: this governor admits nobody any more. */
  method FailureIsForever(g: Governor, k: nat, steps: seq<Step>, id: string, p: nat, r: Request, loopback: bool)
    returns (peer: Option<nat>, attempt: Option<nat>)
    requires g.Inv() && k < |g.leases| && HasFailed(g.leases[k])
    modifies g
    ensures peer == None && attempt == None
  {
    var trips := Run(g, steps);
    assert Later(old(g.leases)[k], g.leases[k]);
    FailedVerdictBlocks(g, k);
    peer := g.AcquirePeer(id);
    attempt := None;
    if p < |g.peerLeases| { attempt := g.AcquireAttempt(p, r, loopback); }
  }

  /** The owner is let go only after every lease is closed and every two-phase one has no drain left. */
  lemma OwnerGoneQuiet(g: Governor, k: nat)
    requires g.Inv() && !g.ownerHeld && k < |g.leases|
    ensures g.leases[k].closed
    ensures g.leases[k].phased ==> Quiet(g.leases[k]) && (g.leases[k].phase.Clean? || g.leases[k].phase.Settled?)
    ensures g.reserved == NOTHING && g.heavyweight == 0
  {
    NobodyLeft(g.limits, g.Now());
    assert Live(g.leases[k]) ==> Listed(g.leases, g.attempts, k);
    assert LeaseOk(g.leases[k]);
  }

  /** Before the final close, a two-phase reservation is given back only on a clean, drained verdict. */
  lemma EarlyRefundIsClean(g: Governor, k: nat)
    requires g.Inv() && !g.closed && k < |g.leases| && g.leases[k].phased && g.leases[k].closed
    ensures g.leases[k].phase.Clean? && Quiet(g.leases[k])
  {
    assert RefundOk(g.leases[k], g.closed);
    assert LeaseOk(g.leases[k]);
  }

  /** A live attempt is in the table of exactly one peer, and that peer is registered. */
  lemma OneTable(g: Governor, k: nat, p: nat, id: string)
    requires g.Inv() && k < |g.leases| && Live(g.leases[k])
    ensures g.leases[k].peer < |g.peerLeases| && IsRegistered(g.peerLeases, g.peers, g.leases[k].peer)
    ensures p < |g.peerLeases| ==>
      (id in g.peerLeases[p].attempts && g.peerLeases[p].attempts[id] == k <==>
        p == g.leases[k].peer && id == g.leases[k].id)
  {
    assert Seated(g.leases, g.peerLeases, k);
    assert GoneOk(g.peerLeases, g.peers, g.leases[k].peer);
    if p < |g.peerLeases| && id in g.peerLeases[p].attempts { assert EntryOk(g.leases, g.peerLeases, p, id); }
  }

  /** Whatever happens, a drain ends by its own completion only. So a two-phase lease gets its clean verdict, is
      settled, or lets the owner go, only in a run that completed every drain it had. */
  method VerdictNeedsDrains(g: Governor, k: nat, d: nat, steps: seq<Step>)
    requires g.Inv() && k < |g.leases| && g.leases[k].phased && IsOpen(g.leases[k], d)
    modifies g
    ensures g.Inv() && k < |g.leases|
    ensures Complete(k, d) in steps || IsOpen(g.leases[k], d)
    ensures g.leases[k].phase.Clean? || g.leases[k].phase.Settled? || !g.ownerHeld ==> Complete(k, d) in steps
  {
    var trips := Run(g, steps);
    assert Later(old(g.leases)[k], g.leases[k]);
    assert LeaseOk(g.leases[k]);
    if !g.ownerHeld { OwnerGoneQuiet(g, k); }
  }

  // ----- an ordinary drain that runs out -------------------------------------------------------------

  predicate SameDrains(a: Lease, b: Lease) {
    a.network == b.network && a.accounting == b.accounting && a.phased == b.phased
  }

  /** The last section of drainOrdinaryAttempts: the whole batch is released, drained or not. */
  method ReleaseBatch(g: Governor, batch: seq<nat>)
    requires g.Inv()
    requires forall i :: 0 <= i < |batch| ==> batch[i] < |g.leases| && !g.leases[batch[i]].phased
    modifies g
    ensures g.Inv() && |g.leases| == |old(g.leases)| && g.tripped == old(g.tripped)
    ensures forall i :: 0 <= i < |batch| ==> g.leases[batch[i]].closed
    ensures forall k {:trigger SameDrains(old(g.leases)[k], g.leases[k])} ::
      0 <= k < |g.leases| ==> SameDrains(old(g.leases)[k], g.leases[k])
  {
    for i := 0 to |batch|
      invariant g.Inv() && |g.leases| == |old(g.leases)| && g.tripped == old(g.tripped)
      invariant forall j :: 0 <= j < i ==> g.leases[batch[j]].closed
      invariant forall k {:trigger SameDrains(old(g.leases)[k], g.leases[k])} ::
        0 <= k < |g.leases| ==> SameDrains(old(g.leases)[k], g.leases[k])
    {
      assert SameDrains(old(g.leases)[batch[i]], g.leases[batch[i]]);
      ghost var before := g.leases;
      g.ReleaseOrdinary(batch[i]);
      forall k | 0 <= k < |g.leases| ensures SameDrains(old(g.leases)[k], g.leases[k]) {
        assert SameDrains(old(g.leases)[k], before[k]);
      }
    }
  }

  /** The last two sections of drainOrdinaryAttempts, with anything at all between them. `overdue` is the lease the
      wait reported. The victim is revoked whether or not its drains are done, which `open` tells. That happens
      without a trip exactly when nothing had tripped before, the reported lease finished between the deadline and
      the lock, and no step until the release found a reason to trip, which `trips` tells step by step. */
  method RevokedQuietly(g: Governor, batch: seq<nat>, overdue: nat, between: seq<Step>, victim: nat)
    returns (open: bool, trips: seq<bool>)
    requires g.Inv() && !g.closed && overdue < |g.leases|
    requires forall i :: 0 <= i < |batch| ==> batch[i] < |g.leases| && !g.leases[batch[i]].phased
    requires victim in batch && StillPending(g.leases, victim)
    modifies g
    ensures g.Inv() && victim < |old(g.leases)| <= |g.leases| && g.leases[victim].closed
      && (open ==> !Quiet(g.leases[victim]))
    ensures |trips| == |between| && forall i :: 0 <= i < |trips| && trips[i] ==> MayTrip(between[i], g.tripsOnLimit)
    ensures !g.tripped <==> !old(g.tripped) && !StillPending(old(g.leases), overdue) && true !in trips
    ensures Harmless(between, g.tripsOnLimit) ==> true !in trips
    ensures between == [] ==> open
  {
    g.DrainTimeout(overdue);
    ghost var middle := g.leases;
    trips := Run(g, between);
    forall i | 0 <= i < |batch| ensures batch[i] < |g.leases| && !g.leases[batch[i]].phased {
      assert Later(middle[batch[i]], g.leases[batch[i]]);
    }
    open := !g.leases[victim].closed && !Quiet(g.leases[victim]);
    ghost var last := g.leases;
    ReleaseBatch(g, batch);
    assert SameDrains(last[victim], g.leases[victim]);
  }

  const ONE_SOCKET := Resources(1, 0, 0, 0, 0)
  const FIRST := Request("a", true, true, ONE_SOCKET, false, 1)
  const SECOND := Request("b", true, true, ONE_SOCKET, false, 1)

  const SMALL := Limits(2, 2, 1, 0, 1, Resources(2, 0, 0, 0, 0), ONE_SOCKET)

  method OnePeer() returns (g: Governor)
    ensures fresh(g) && g.Inv() && g.limits == SMALL
    ensures g.Now() == Book([Peer("a", false, map[])], [], map["a" := 0], map[], NOTHING, 0, 0)
    ensures !g.fault && !g.tripped && !g.closing && !g.closed && g.machine && g.ownerHeld
  {
    g := new Governor(SMALL, true, false);
    var p := g.AcquirePeer("a");
  }

  method TwoPeers() returns (g: Governor)
    ensures fresh(g) && g.Inv() && g.limits == SMALL
    ensures g.leases == [] && g.peerLeases == [Peer("a", false, map[]), Peer("b", false, map[])]
    ensures g.attempts == map[] && g.reserved == NOTHING && g.finalizing == 0
    ensures !g.fault && !g.tripped && !g.closing && !g.closed && g.machine && g.ownerHeld
  {
    g := OnePeer();
    assert "a"[0] != "b"[0];
    assert |g.peers| == 1;
    var q := g.AcquirePeer("b");
  }

  /** The first attempt is admitted. */
  method OneAttempt() returns (g: Governor)
    ensures fresh(g) && g.Inv() && g.limits == SMALL
    ensures g.leases == [NewLease(0, FIRST, false)] && |g.peerLeases| == 2 && g.peerLeases[1] == Peer("b", false, map[])
    ensures g.attempts == map["a" := 0] && g.reserved == ONE_SOCKET && g.finalizing == 0
    ensures !g.fault && !g.tripped && !g.closing && !g.closed
  {
    g := TwoPeers();
    assert g.Validate(0, FIRST).Fits?;
    var k := g.AcquireAttempt(0, FIRST, false);
  }

  method TwoAttempts() returns (g: Governor)
    ensures fresh(g) && g.Inv() && g.leases == [NewLease(0, FIRST, false), NewLease(1, SECOND, false)]
    ensures !g.tripped && !g.closing && !g.closed
  {
    g := OneAttempt();
    assert "a"[0] != "b"[0];
    assert g.Validate(1, SECOND).Fits?;
    var k := g.AcquireAttempt(1, SECOND, false);
  }

  predicate Draining(l: Lease) { l.network == {1} && l.accounting == {} && !l.phased && !l.closed }

  method TwoDraining() returns (g: Governor)
    ensures fresh(g) && g.Inv() && !g.tripped && !g.closed && |g.leases| == 2
    ensures Draining(g.leases[0]) && Draining(g.leases[1])
  {
    g := TwoRegistered();
    g.CloseBegin();
  }

  method OneRegistered() returns (g: Governor)
    ensures fresh(g) && g.Inv() && !g.tripped && !g.closing && !g.closed && |g.leases| == 2
    ensures Draining(g.leases[0]) && g.leases[1] == NewLease(1, SECOND, false)
  {
    g := TwoAttempts();
    var c := g.RegisterDrain(0, "d", false);
    assert {} + {1} == {1};
  }

  method TwoRegistered() returns (g: Governor)
    ensures fresh(g) && g.Inv() && !g.tripped && !g.closing && !g.closed && |g.leases| == 2
    ensures Draining(g.leases[0]) && Draining(g.leases[1])
  {
    g := OneRegistered();
    var d := g.RegisterDrain(1, "d", false);
    assert {} + {1} == {1};
  }

  /** Two attempts are closed together and both are late; the reported one completes before the lock is taken. */
  method LateFinisherHidesTheOther() returns (g: Governor)
    ensures |g.leases| >= 2 && g.leases[1].closed && !Quiet(g.leases[1]) && !g.tripped
  {
    g := TwoDraining();
    g.CompleteDrain(0, 1);
    assert Quiet(g.leases[0]);
    var open, trips := RevokedQuietly(g, [0, 1], 0, [], 1);
  }

  // ----- two-phase terminations that come to an end ---------------------------------------------------------

  /** A stopping two-phase lease that waits for its one accounting drain. */
  predicate Accounting(l: Lease) {
    && l.phased && l.stopping && !l.closed && l.phase.AccountingWait? && l.network == {} && l.accounting == {1}
    && !l.networkError && !l.finishError && l.cost == ONE_SOCKET
  }

  method OnePhased() returns (g: Governor)
    ensures fresh(g) && g.Inv() && !g.closing && !g.closed && g.ownerHeld && g.reserved == ONE_SOCKET
    ensures g.leases == [NewLease(0, FIRST, true)]
  {
    g := TwoPeers();
    assert g.Validate(0, FIRST).Fits?;
    var k := g.AcquireAttempt(0, FIRST, true);
  }

  method OnePhasedDrain() returns (g: Governor)
    ensures fresh(g) && g.Inv() && !g.closing && !g.closed && g.ownerHeld && g.reserved == ONE_SOCKET
    ensures g.leases == [WithDrain(NewLease(0, FIRST, true), true)]
  {
    g := OnePhased();
    var d := g.RegisterDrain(0, "d", true);
  }

  method OneAccounting() returns (g: Governor)
    ensures fresh(g) && g.Inv() && !g.closing && !g.closed && g.ownerHeld && g.reserved == ONE_SOCKET
    ensures |g.leases| == 1 && Accounting(g.leases[0])
  {
    g := OnePhasedDrain();
    g.BeginStopping(0);
    assert {} + {1} == {1};
    g.NetworkDone(0);
  }

  method CloseUp(g: Governor)
    requires g.Inv() && !g.closing && !g.closed && |g.leases| == 1
    requires g.leases[0].phase.Clean? || g.leases[0].phase.Settled?
    modifies g
    ensures g.Inv() && g.closed && !g.ownerHeld
  {
    assert LeaseOk(g.leases[0]);
    g.CloseBegin();
    g.CloseEnd();
    g.ReleaseOwner();
  }

  /** With its drains completed in time a termination is clean: its reservation is refunded at once, and the governor
      can close and let the owner go. */
  method CleanEnd() returns (g: Governor, refunded: bool)
    ensures g.Inv() && refunded && g.closed && !g.ownerHeld
  {
    g := OneAccounting();
    g.CompleteDrain(0, 1);
    assert {1} - {1} == {} && LeaseOk(g.leases[0]);
    g.CleanVerdict(0);
    refunded := g.reserved == NOTHING && g.leases[0].closed;
    CloseUp(g);
  }

  /** A failed one keeps its reservation, but once its drains are completed it settles, and close succeeds too. */
  method FailedEnd() returns (g: Governor, kept: bool)
    ensures g.Inv() && kept && g.closed && !g.ownerHeld
  {
    g := FailedDrained();
    g.Settle(0);
    kept := g.reserved == ONE_SOCKET && !g.leases[0].closed;
    CloseUp(g);
  }

  method FailedDrained() returns (g: Governor)
    ensures fresh(g) && g.Inv() && !g.closing && !g.closed && g.reserved == ONE_SOCKET && |g.leases| == 1
    ensures g.leases[0].phase.Failed? && g.leases[0].drained && !g.leases[0].closed
  {
    g := OneAccounting();
    g.FailVerdict(0, true);
    g.CompleteDrain(0, 1);
    assert {1} - {1} == {} && LeaseOk(g.leases[0]);
  }
}
