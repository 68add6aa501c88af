/** What one attempt lease records, and what the governor adds up over all of them
    (internal/governor/governor.go, internal/governor/limits.go, internal/governor/loopback_termination.go). */
module GovernorLeases {

  const MAX_DRAINS: nat := 8

  datatype Resources = Resources(sockets: int, targets: int, packetsPerSecond: int, packets: int, fiveTuples: int)

  const NOTHING := Resources(0, 0, 0, 0, 0)

  function Plus(a: Resources, b: Resources): Resources {
    Resources(a.sockets + b.sockets, a.targets + b.targets, a.packetsPerSecond + b.packetsPerSecond,
              a.packets + b.packets, a.fiveTuples + b.fiveTuples)
  }

  function Minus(a: Resources, b: Resources): Resources {
    Resources(a.sockets - b.sockets, a.targets - b.targets, a.packetsPerSecond - b.packetsPerSecond,
              a.packets - b.packets, a.fiveTuples - b.fiveTuples)
  }

  predicate Within(a: Resources, max: Resources) {
    && a.sockets <= max.sockets && a.targets <= max.targets && a.packetsPerSecond <= max.packetsPerSecond
    && a.packets <= max.packets && a.fiveTuples <= max.fiveTuples
  }

  /** How far the manager of a two-phase termination has come. */
  datatype Phase =
    | Idle            // not stopping
    | NetworkWait     // waiting for the network drains or their deadline
    | AccountingWait  // networkDone is closed
    | Clean           // clean verdict: verdict and settled are closed
    | Failed          // failed verdict: only verdict is closed
    | Settled         // failed verdict, and every drain has completed since

  datatype Lease = Lease(
    peer: nat, id: string, cost: Resources, heavyweight: bool,
    phased: bool,                        // took the two-phase loopback lifecycle
    network: set<nat>, accounting: set<nat>, // open drain registrations of the two kinds
    nextDrain: nat, accountingRegistered: bool,
    stopping: bool, drained: bool, closed: bool,
    networkClosed: bool, accountingClosed: bool, phase: Phase,
    networkError: bool, finishError: bool)

  /** No drain registration is open. */
  predicate Quiet(l: Lease) { l.network == {} && l.accounting == {} }

  /** This drain is registered and not completed. */
  predicate IsOpen(l: Lease, d: nat) { d in l.network || d in l.accounting }

  function DrainCount(l: Lease): nat { |l.network| + |l.accounting| }

  /** maybeCloseLoopbackNetworkLocked: close whichever witness has nothing left to wait for. */
  function Witnessed(l: Lease): Lease {
    if !l.phased || !l.stopping then l
    else l.(networkClosed := l.networkClosed || l.network == {},
            accountingClosed := l.accountingClosed || l.accounting == {})
  }

  function Stopped(l: Lease): Lease {
    if l.closed || l.stopping then l
    else Witnessed(l.(stopping := true, drained := l.drained || Quiet(l),
                      phase := if l.phased then NetworkWait else l.phase))
  }

  function WithDrain(l: Lease, accounting: bool): Lease {
    var d := l.nextDrain + 1;
    if accounting then l.(nextDrain := d, accounting := l.accounting + {d}, accountingRegistered := true)
    else l.(nextDrain := d, network := l.network + {d})
  }

  function WithoutDrain(l: Lease, d: nat): Lease {
    if d !in l.network && d !in l.accounting then l
    else
      var m := l.(network := l.network - {d}, accounting := l.accounting - {d});
      Witnessed(m.(drained := l.drained || (l.stopping && Quiet(m))))
  }

  /** What every lease keeps, whatever happens around it. */
  ghost predicate LeaseOk(l: Lease) {
    && DrainCount(l) <= MAX_DRAINS && DrainsNumbered(l.network, l.accounting, l.nextDrain, l.accountingRegistered)
    && (l.stopping ==> (l.drained <==> Quiet(l))) && (l.drained ==> l.stopping)
    && (l.closed ==> l.stopping)
    && WitnessesTrue(l)
    && PhaseTrue(l)
  }

  /** Drains are numbered as they come, each of one kind, and there is one for accounting at most. */
  ghost predicate DrainsNumbered(network: set<nat>, accounting: set<nat>, next: nat, registered: bool) {
    && (forall d :: d in network ==> 0 < d <= next && d !in accounting)
    && (forall d :: d in accounting ==> 0 < d <= next)
    && |accounting| <= 1 && (accounting != {} ==> registered)
  }

  lemma DrainCompleted(network: set<nat>, accounting: set<nat>, next: nat, registered: bool, d: nat)
    requires DrainsNumbered(network, accounting, next, registered)
    ensures DrainsNumbered(network - {d}, accounting - {d}, next, registered)
    ensures |network - {d}| <= |network| && |accounting - {d}| <= |accounting|
  {
  }

  lemma DrainAdded(network: set<nat>, accounting: set<nat>, next: nat, registered: bool)
    requires DrainsNumbered(network, accounting, next, registered)
    ensures DrainsNumbered(network + {next + 1}, accounting, next + 1, registered)
    ensures !registered ==> DrainsNumbered(network, accounting + {next + 1}, next + 1, true)
  {
    if !registered { assert accounting + {next + 1} == {next + 1}; }
  }

  ghost predicate WitnessesTrue(l: Lease) {
    && (l.networkClosed <==> l.phased && l.stopping && l.network == {})
    && (l.accountingClosed <==> l.phased && l.stopping && l.accounting == {})
  }

  ghost predicate PhaseTrue(l: Lease) {
    && (l.phased ==> (l.phase.Idle? <==> !l.stopping))
    && (!l.phased ==> l.phase.Idle?)
    && (l.phase.AccountingWait? ==> l.networkError || l.networkClosed)
    && (l.phase.Clean? || l.phase.Settled? ==> Quiet(l))
    && (l.phased && l.closed ==> l.phase.Clean? || l.phase.Settled?)
  }

  lemma StoppedOk(l: Lease)
    requires LeaseOk(l)
    ensures LeaseOk(Stopped(l))
  {
  }

  lemma WithDrainOk(l: Lease, accounting: bool)
    requires LeaseOk(l) && !l.stopping && DrainCount(l) < MAX_DRAINS && (accounting ==> !l.accountingRegistered)
    ensures LeaseOk(WithDrain(l, accounting))
  {
    DrainAdded(l.network, l.accounting, l.nextDrain, l.accountingRegistered);
  }

  lemma WithoutDrainSets(l: Lease, d: nat)
    ensures
      var m := WithoutDrain(l, d);
      m.network == l.network - {d} && m.accounting == l.accounting - {d}
  {
    if !IsOpen(l, d) { assert l.network - {d} == l.network && l.accounting - {d} == l.accounting; }
  }

  lemma WithoutDrainOk(l: Lease, d: nat)
    requires LeaseOk(l)
    ensures
      var m := WithoutDrain(l, d);
      LeaseOk(m) && Later(l, m) && m.phase == l.phase && m.closed == l.closed && m.stopping == l.stopping
  {
    if IsOpen(l, d) { DrainCompleted(l.network, l.accounting, l.nextDrain, l.accountingRegistered, d); }
  }

  /** What a later state of the same lease may still look like: nothing is undone. */
  predicate Later(o: Lease, n: Lease) {
    && n.peer == o.peer && n.id == o.id && n.cost == o.cost && n.heavyweight == o.heavyweight && n.phased == o.phased
    && (o.stopping ==> n.stopping) && (o.closed ==> n.closed)
    && o.nextDrain <= n.nextDrain && (o.accountingRegistered ==> n.accountingRegistered)
    && (o.phase.Clean? ==> n.phase.Clean?)
    && (o.phase.Failed? ==> n.phase.Failed? || n.phase.Settled?)
    && (o.phase.Settled? ==> n.phase.Settled?)
  }

  /** No drain of the lease was completed. */
  predicate DrainsKept(o: Lease, n: Lease) { o.network <= n.network && o.accounting <= n.accounting }

  ghost predicate AllDrainsKept(before: seq<Lease>, after: seq<Lease>) {
    && |before| <= |after|
    && forall k {:trigger DrainsKept(before[k], after[k])} :: 0 <= k < |before| ==> DrainsKept(before[k], after[k])
  }

  lemma SameKept(leases: seq<Lease>)
    ensures AllDrainsKept(leases, leases)
  {
  }

  lemma OneKept(leases: seq<Lease>, k: nat, l: Lease)
    requires k < |leases| && DrainsKept(leases[k], l)
    ensures AllDrainsKept(leases, leases[k := l])
  {
  }

  lemma StoppedKept(l: Lease)
    ensures DrainsKept(l, Stopped(l)) && DrainsKept(l, Gone(l))
  {
  }

  lemma GoneKept(before: seq<Lease>, after: seq<Lease>)
    requires |after| == |before| && forall k :: 0 <= k < |after| ==> after[k] == Gone(before[k])
    ensures AllDrainsKept(before, after)
  {
    forall k | 0 <= k < |before| ensures DrainsKept(before[k], after[k]) { StoppedKept(before[k]); }
  }

  /** The lease once it is released. */
  function Gone(l: Lease): Lease { Stopped(l).(closed := true) }

  predicate GoneOrSame(o: Lease, n: Lease) { n == o || n == Gone(o) }

  ghost predicate SomeGone(before: seq<Lease>, after: seq<Lease>) {
    && |before| == |after|
    && forall k {:trigger GoneOrSame(before[k], after[k])} :: 0 <= k < |before| ==> GoneOrSame(before[k], after[k])
  }

  lemma GoneTwice(l: Lease)
    ensures Gone(Gone(l)) == Gone(l) && (LeaseOk(l) && l.closed ==> Gone(l) == l)
  {
  }

  lemma SomeGoneTwice(a: seq<Lease>, b: seq<Lease>, c: seq<Lease>)
    requires SomeGone(a, b) && SomeGone(b, c)
    ensures SomeGone(a, c)
  {
    forall k | 0 <= k < |a| ensures GoneOrSame(a[k], c[k]) {
      assert GoneOrSame(a[k], b[k]) && GoneOrSame(b[k], c[k]);
      GoneTwice(a[k]);
    }
  }

  lemma OneGone(ls: seq<Lease>, k: nat)
    requires k < |ls|
    ensures SomeGone(ls, ls[k := Gone(ls[k])])
  {
  }

  // ----- sums over all leases ----------------------------------------------------------------

  datatype Load = Load(resources: Resources, heavyweight: int, finalizing: int)

  predicate IsFinalizing(l: Lease) { l.phased && l.stopping && !l.phase.Clean? }

  /** What one lease holds: its cost until it is closed, and its place among the unfinished terminations. */
  function LoadOf(l: Lease): Load {
    Load(if l.closed then NOTHING else l.cost,
         if !l.closed && l.heavyweight then 1 else 0,
         if IsFinalizing(l) then 1 else 0)
  }

  function Both(a: Load, b: Load): Load {
    Load(Plus(a.resources, b.resources), a.heavyweight + b.heavyweight, a.finalizing + b.finalizing)
  }

  /** A sum in which one share was replaced by another. */
  function Replaced(sum: Load, was: Load, now: Load): Load {
    Load(Plus(Minus(sum.resources, was.resources), now.resources),
         sum.heavyweight - was.heavyweight + now.heavyweight, sum.finalizing - was.finalizing + now.finalizing)
  }

  lemma ReplacedBeside(sum: Load, was: Load, now: Load, other: Load)
    ensures Both(Replaced(sum, was, now), other) == Replaced(Both(sum, other), was, now)
    ensures Both(sum, now) == Replaced(Both(sum, was), was, now)
  {
  }

  function TallyTo(ls: seq<Lease>, n: nat): Load
    requires n <= |ls|
  {
    if n == 0 then Load(NOTHING, 0, 0) else Both(TallyTo(ls, n - 1), LoadOf(ls[n - 1]))
  }

  function Tally(ls: seq<Lease>): Load { TallyTo(ls, |ls|) }

  lemma {:induction false} TallyCongruent(ls: seq<Lease>, ms: seq<Lease>, n: nat)
    requires n <= |ls| && n <= |ms|
    requires forall k :: 0 <= k < n ==> LoadOf(ls[k]) == LoadOf(ms[k])
    ensures TallyTo(ls, n) == TallyTo(ms, n)
  {
    if n > 0 { TallyCongruent(ls, ms, n - 1); }
  }

  /** Changing one lease changes the sum by the difference of its two loads. */
  lemma TallyUpdate(ls: seq<Lease>, k: nat, l: Lease)
    requires k < |ls|
    ensures Tally(ls[k := l]) == Replaced(Tally(ls), LoadOf(ls[k]), LoadOf(l))
  {
    TallyUpdateTo(ls, k, l, |ls|);
  }

  lemma {:induction false} TallyUpdateTo(ls: seq<Lease>, k: nat, l: Lease, n: nat)
    requires k < n <= |ls|
    ensures TallyTo(ls[k := l], n) == Replaced(TallyTo(ls, n), LoadOf(ls[k]), LoadOf(l))
  {
    ReplacedBeside(TallyTo(ls, n - 1), LoadOf(ls[k]), LoadOf(l), LoadOf(ls[n - 1]));
    if k == n - 1 {
      TallyCongruent(ls[k := l], ls, k);
    } else {
      TallyUpdateTo(ls, k, l, n - 1);
    }
  }

  lemma {:induction false} TallyCounts(ls: seq<Lease>, n: nat)
    requires n <= |ls|
    ensures TallyTo(ls, n).finalizing >= 0 && TallyTo(ls, n).heavyweight >= 0
    ensures forall k :: 0 <= k < n && IsFinalizing(ls[k]) ==> TallyTo(ls, n).finalizing >= 1
  {
    if n > 0 { TallyCounts(ls, n - 1); }
  }

  lemma {:induction false} TallyClosed(ls: seq<Lease>, n: nat)
    requires n <= |ls| && forall k :: 0 <= k < n ==> ls[k].closed
    ensures TallyTo(ls, n).resources == NOTHING && TallyTo(ls, n).heavyweight == 0
  {
    if n > 0 { TallyClosed(ls, n - 1); }
  }

  lemma TallyAppend(ls: seq<Lease>, l: Lease)
    ensures Tally(ls + [l]) == Both(Tally(ls), LoadOf(l))
  {
    TallyCongruent(ls + [l], ls, |ls|);
  }
}
