/** Everything the governor counts, as one value, and the six ways its operations change it. */
module GovernorBook {
  import opened GovernorLeases
  import opened GovernorTables

  datatype Book = Book(
    peerLeases: seq<Peer>, leases: seq<Lease>, peers: map<string, nat>, attempts: map<string, nat>,
    reserved: Resources, heavyweight: int, finalizing: int)

  ghost predicate TablesOk(b: Book) {
    AttemptTable(b.leases, b.attempts) && PeerTables(b.leases, b.peerLeases) && PeerRegistry(b.peerLeases, b.peers)
  }

  /** Conservation: the running totals are the sums over the leases. */
  ghost predicate Conserved(b: Book) { Load(b.reserved, b.heavyweight, b.finalizing) == Tally(b.leases) }

  ghost predicate Bounded(limits: Limits, b: Book) {
    && |b.peers| <= limits.peers && |b.attempts| <= limits.attempts && PeerCounts(b.peerLeases, limits)
    && Within(b.reserved, limits.aggregate) && b.heavyweight <= limits.heavyweight
  }

  ghost predicate LeasesOk(limits: Limits, b: Book) { AllOk(b.leases) && CostsOk(b.leases, limits) }

  ghost predicate Sound(limits: Limits, b: Book) {
    TablesOk(b) && Conserved(b) && Bounded(limits, b) && LeasesOk(limits, b)
  }

  lemma OneLeaseKeepsOk(limits: Limits, leases: seq<Lease>, k: nat, l: Lease)
    requires k < |leases| && LeaseOk(l) && l.cost == leases[k].cost && AllOk(leases) && CostsOk(leases, limits)
    ensures AllOk(leases[k := l]) && CostsOk(leases[k := l], limits)
  {
    var next := leases[k := l];
    forall j | 0 <= j < |next| ensures LeaseOk(next[j]) { assert LeaseOk(leases[j]); }
    forall j | 0 <= j < |next| ensures CostOk(next[j], limits) { assert CostOk(leases[j], limits); }
  }

  lemma OnePeerKeepsCounts(limits: Limits, peerLeases: seq<Peer>, p: nat, n: Peer)
    requires p < |peerLeases| && PeerCountOk(n, limits) && PeerCounts(peerLeases, limits)
    ensures PeerCounts(peerLeases[p := n], limits)
  {
    var next := peerLeases[p := n];
    forall q | 0 <= q < |next| ensures PeerCountOk(next[q], limits) { assert PeerCountOk(peerLeases[q], limits); }
  }

  // ----- one lease changes ---------------------------------------------------------------------

  function Finalizing(l: Lease): int { LoadOf(l).finalizing }

  function AfterUpdate(b: Book, k: nat, l: Lease): Book
    requires k < |b.leases|
  {
    b.(leases := b.leases[k := l], finalizing := b.finalizing - Finalizing(b.leases[k]) + Finalizing(l))
  }

  lemma UpdateKeepsSound(limits: Limits, b: Book, k: nat, l: Lease)
    requires Sound(limits, b) && k < |b.leases|
    requires SameSeat(b.leases[k], l) && l.heavyweight == b.leases[k].heavyweight && LeaseOk(l)
    ensures Sound(limits, AfterUpdate(b, k, l))
  {
    UpdateKeepsTables(b.leases, k, l, b.attempts, b.peerLeases);
    UpdateKeepsSum(b, k, l);
    OneLeaseKeepsOk(limits, b.leases, k, l);
  }

  lemma UpdateKeepsSum(b: Book, k: nat, l: Lease)
    requires Conserved(b) && k < |b.leases|
    requires SameSeat(b.leases[k], l) && l.heavyweight == b.leases[k].heavyweight
    ensures Conserved(AfterUpdate(b, k, l))
  {
    TallyUpdate(b.leases, k, l);
    ReplacedBySame(Tally(b.leases), LoadOf(b.leases[k]), LoadOf(l));
  }

  lemma ReplacedBySame(sum: Load, was: Load, now: Load)
    requires was.resources == now.resources && was.heavyweight == now.heavyweight
    ensures Replaced(sum, was, now) ==
      Load(sum.resources, sum.heavyweight, sum.finalizing - was.finalizing + now.finalizing)
  {
  }

  // ----- a lease is granted ------------------------------------------------------------------------

  function AfterGrant(b: Book, l: Lease): Book
    requires l.peer < |b.peerLeases|
  {
    b.(leases := b.leases + [l], attempts := b.attempts[l.id := |b.leases|],
       peerLeases := b.peerLeases[l.peer := WithEntry(b.peerLeases[l.peer], l.id, |b.leases|)],
       reserved := Plus(b.reserved, l.cost), heavyweight := b.heavyweight + if l.heavyweight then 1 else 0)
  }

  predicate Grantable(limits: Limits, b: Book, l: Lease) {
    && l.peer < |b.peerLeases| && !b.peerLeases[l.peer].closed && l.id !in b.attempts
    && |b.attempts| < limits.attempts && |b.peerLeases[l.peer].attempts| < limits.perPeer
    && Within(NOTHING, l.cost) && Within(l.cost, limits.perAttempt)
    && Within(Plus(b.reserved, l.cost), limits.aggregate)
    && (l.heavyweight ==> b.heavyweight < limits.heavyweight)
  }

  lemma GrantKeepsSound(limits: Limits, b: Book, l: Lease)
    requires Sound(limits, b) && Grantable(limits, b, l) && LeaseOk(l) && !l.closed && !l.stopping
    ensures Sound(limits, AfterGrant(b, l))
  {
    AppendKeepsTables(b.leases, l, b.attempts, b.peerLeases);
    TallyAppend(b.leases, l);
    GrantKeepsBounds(limits, b, l);
    SameFlagsKeepRegistry(b.peerLeases, b.peers, l.peer, WithEntry(b.peerLeases[l.peer], l.id, |b.leases|));
  }

  lemma GrantKeepsBounds(limits: Limits, b: Book, l: Lease)
    requires TablesOk(b) && Bounded(limits, b) && Grantable(limits, b, l)
    ensures Bounded(limits, AfterGrant(b, l))
  {
    GrowCount(b.attempts, l.id, |b.leases|);
    var p := b.peerLeases[l.peer];
    assert l.id !in p.attempts by {
      assert l.id in p.attempts ==>
        EntryOk(b.leases, b.peerLeases, l.peer, l.id) && Listed(b.leases, b.attempts, p.attempts[l.id]);
    }
    GrowCount(p.attempts, l.id, |b.leases|);
    OnePeerKeepsCounts(limits, b.peerLeases, l.peer, WithEntry(p, l.id, |b.leases|));
  }

  lemma SameFlagsKeepRegistry(peerLeases: seq<Peer>, peers: map<string, nat>, p: nat, n: Peer)
    requires p < |peerLeases| && PeerRegistry(peerLeases, peers)
    requires n.id == peerLeases[p].id
      && (peerLeases[p].closed ==> n.closed && n.attempts.Keys <= peerLeases[p].attempts.Keys)
    ensures PeerRegistry(peerLeases[p := n], peers)
  {
    var next := peerLeases[p := n];
    forall q | 0 <= q < |next| ensures GoneOk(next, peers, q) { assert GoneOk(peerLeases, peers, q); }
    forall id | id in peers ensures PeerNameOk(next, peers, id) { assert PeerNameOk(peerLeases, peers, id); }
  }

  // ----- a lease is released ----------------------------------------------------------------------------

  /** `stopped` is the lease with its stop begun. */
  function AfterRelease(b: Book, k: nat): Book
    requires k < |b.leases| && b.leases[k].peer < |b.peerLeases|
  {
    var l := b.leases[k];
    b.(leases := b.leases[k := l.(closed := true)], attempts := b.attempts - {l.id},
       peerLeases := b.peerLeases[l.peer := WithoutEntry(b.peerLeases[l.peer], l.id)],
       reserved := Minus(b.reserved, l.cost), heavyweight := b.heavyweight - if l.heavyweight then 1 else 0)
  }

  lemma ReleaseKeepsSound(limits: Limits, b: Book, k: nat)
    requires Sound(limits, b) && k < |b.leases|
    requires var l := b.leases[k]; !l.closed && l.stopping && (l.phased ==> l.phase.Clean? || l.phase.Settled?)
    ensures b.leases[k].peer < |b.peerLeases|
    ensures Sound(limits, AfterRelease(b, k))
  {
    var l := b.leases[k];
    ReleaseKeepsAttemptTable(b.leases, k, b.attempts);
    ReleaseKeepsPeerTables(b.leases, k, b.peerLeases);
    SameFlagsKeepRegistry(b.peerLeases, b.peers, l.peer, WithoutEntry(b.peerLeases[l.peer], l.id));
    ReleaseKeepsSum(b, k);
    ReleaseKeepsBounds(limits, b, k);
    assert LeaseOk(l);
    OneLeaseKeepsOk(limits, b.leases, k, l.(closed := true));
  }

  lemma ReleaseKeepsSum(b: Book, k: nat)
    requires Conserved(b) && k < |b.leases| && !b.leases[k].closed && b.leases[k].peer < |b.peerLeases|
    ensures Conserved(AfterRelease(b, k))
  {
    var l := b.leases[k];
    TallyUpdate(b.leases, k, l.(closed := true));
    assert LoadOf(l.(closed := true)) == Load(NOTHING, 0, Finalizing(l));
  }

  lemma ReleaseKeepsBounds(limits: Limits, b: Book, k: nat)
    requires Bounded(limits, b) && LeasesOk(limits, b) && k < |b.leases| && b.leases[k].peer < |b.peerLeases|
    ensures Bounded(limits, AfterRelease(b, k))
  {
    var l := b.leases[k];
    ShrinkCount(b.attempts, l.id);
    ShrinkCount(b.peerLeases[l.peer].attempts, l.id);
    assert PeerCountOk(b.peerLeases[l.peer], limits) && CostOk(l, limits);
    OnePeerKeepsCounts(limits, b.peerLeases, l.peer, WithoutEntry(b.peerLeases[l.peer], l.id));
  }

  // ----- peers come and go --------------------------------------------------------------------------------

  function AfterPeerJoins(b: Book, id: string): Book {
    b.(peerLeases := b.peerLeases + [Peer(id, false, map[])], peers := b.peers[id := |b.peerLeases|])
  }

  lemma PeerJoinKeepsSound(limits: Limits, b: Book, id: string)
    requires Sound(limits, b) && id !in b.peers && |b.peers| < limits.peers
    ensures Sound(limits, AfterPeerJoins(b, id))
  {
    var n := AfterPeerJoins(b, id);
    GrowCount(b.peers, id, |b.peerLeases|);
    JoinKeepsTables(b, id);
    forall q | 0 <= q < |n.peerLeases| ensures GoneOk(n.peerLeases, n.peers, q) {
      if q < |b.peerLeases| { assert GoneOk(b.peerLeases, b.peers, q); }
    }
    forall a | a in n.peers ensures PeerNameOk(n.peerLeases, n.peers, a) {
      if a != id { assert PeerNameOk(b.peerLeases, b.peers, a); }
    }
  }

  lemma JoinKeepsTables(b: Book, id: string)
    requires PeerTables(b.leases, b.peerLeases)
    ensures PeerTables(b.leases, AfterPeerJoins(b, id).peerLeases)
  {
    var table := AfterPeerJoins(b, id).peerLeases;
    forall k | 0 <= k < |b.leases| && Live(b.leases[k]) ensures Seated(b.leases, table, k) {
      assert Seated(b.leases, b.peerLeases, k);
    }
    forall q, a | 0 <= q < |table| && a in table[q].attempts ensures EntryOk(b.leases, table, q, a) {
      assert EntryOk(b.leases, b.peerLeases, q, a);
    }
  }

  function AfterPeerCloses(b: Book, p: nat): Book
    requires p < |b.peerLeases|
  {
    b.(peerLeases := b.peerLeases[p := b.peerLeases[p].(closed := true)])
  }

  lemma PeerCloseKeepsSound(limits: Limits, b: Book, p: nat)
    requires Sound(limits, b) && p < |b.peerLeases|
    ensures Sound(limits, AfterPeerCloses(b, p))
  {
    var n := b.peerLeases[p].(closed := true);
    SameFlagsKeepRegistry(b.peerLeases, b.peers, p, n);
    assert PeerCountOk(b.peerLeases[p], limits);
    OnePeerKeepsCounts(limits, b.peerLeases, p, n);
    var table := b.peerLeases[p := n];
    forall k | 0 <= k < |b.leases| && Live(b.leases[k]) ensures Seated(b.leases, table, k) {
      assert Seated(b.leases, b.peerLeases, k);
    }
    forall q, a | 0 <= q < |table| && a in table[q].attempts ensures EntryOk(b.leases, table, q, a) {
      assert EntryOk(b.leases, b.peerLeases, q, a);
    }
  }

  function AfterPeerLeaves(b: Book, id: string): Book { b.(peers := b.peers - {id}) }

  lemma PeerLeaveKeepsSound(limits: Limits, b: Book, id: string)
    requires Sound(limits, b) && id in b.peers
    requires b.peers[id] < |b.peerLeases| && b.peerLeases[b.peers[id]].closed
      && b.peerLeases[b.peers[id]].attempts == map[]
    ensures Sound(limits, AfterPeerLeaves(b, id))
  {
    ShrinkCount(b.peers, id);
    var left := b.peers - {id};
    forall q | 0 <= q < |b.peerLeases| ensures GoneOk(b.peerLeases, left, q) {
      assert GoneOk(b.peerLeases, b.peers, q);
    }
    forall a | a in left ensures PeerNameOk(b.peerLeases, left, a) { assert PeerNameOk(b.peerLeases, b.peers, a); }
  }

  /** With every registered table empty nobody is live, and the totals are already zero. */
  lemma NobodyLeft(limits: Limits, b: Book)
    requires Sound(limits, b)
    requires forall id :: id in b.peers ==> b.peers[id] < |b.peerLeases| && b.peerLeases[b.peers[id]].attempts == map[]
    ensures b.attempts == map[] && b.reserved == NOTHING && b.heavyweight == 0
  {
    forall k | 0 <= k < |b.leases| ensures b.leases[k].closed {
      assert Live(b.leases[k]) ==> Seated(b.leases, b.peerLeases, k)
                                   && GoneOk(b.peerLeases, b.peers, b.leases[k].peer);
    }
    TallyClosed(b.leases, |b.leases|);
    forall id ensures id !in b.attempts {
      assert id in b.attempts ==> NameOk(b.leases, b.attempts, id);
    }
  }
}
