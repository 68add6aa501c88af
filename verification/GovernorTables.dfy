/** The governor's attempt table, peer tables and peer registry, and how each follows a change
    of one lease (internal/governor/governor.go). A lease is named by its place in the list of
    all leases ever handed out, so a stale handle is just an old index. */
module GovernorTables {
  import opened GovernorLeases

  datatype Limits = Limits(peers: nat, attempts: nat, perPeer: nat, heavyweight: nat, duration: nat,
                           aggregate: Resources, perAttempt: Resources)

  datatype Peer = Peer(id: string, closed: bool, attempts: map<string, nat>)

  /** `allowed` is what the profile's operation table says. */
  datatype Request = Request(id: string, allowed: bool, connectTest: bool,
                             cost: Resources, heavyweight: bool, duration: int)

  datatype Admission = Fits | Refused | OverLimit

  predicate Live(l: Lease) { !l.closed }

  /** Lease k is listed under its own id. */
  ghost predicate Listed(leases: seq<Lease>, attempts: map<string, nat>, k: nat)
    requires k < |leases|
  {
    leases[k].id in attempts && attempts[leases[k].id] == k
  }

  /** The name `id` leads to a live lease of that id. */
  ghost predicate NameOk(leases: seq<Lease>, attempts: map<string, nat>, id: string)
    requires id in attempts
  {
    attempts[id] < |leases| && Live(leases[attempts[id]]) && leases[attempts[id]].id == id
  }

  /** The attempt table holds exactly the live leases, each under its own id. */
  ghost predicate AttemptTable(leases: seq<Lease>, attempts: map<string, nat>) {
    && (forall id {:trigger NameOk(leases, attempts, id)} :: id in attempts ==> NameOk(leases, attempts, id))
    && (forall k {:trigger Listed(leases, attempts, k)} :: 0 <= k < |leases| && Live(leases[k]) ==>
       Listed(leases, attempts, k))
  }

  /** Lease k sits in its own peer's table. */
  ghost predicate Seated(leases: seq<Lease>, peerLeases: seq<Peer>, k: nat)
    requires k < |leases|
  {
    var l := leases[k];
    l.peer < |peerLeases| && l.id in peerLeases[l.peer].attempts && peerLeases[l.peer].attempts[l.id] == k
  }

  /** Entry `id` of peer p is a live lease of that peer. */
  ghost predicate EntryOk(leases: seq<Lease>, peerLeases: seq<Peer>, p: nat, id: string)
    requires p < |peerLeases| && id in peerLeases[p].attempts
  {
    var k := peerLeases[p].attempts[id];
    k < |leases| && Live(leases[k]) && leases[k].peer == p && leases[k].id == id
  }

  /** Every live lease sits in exactly one peer's table, and the tables hold nothing else. */
  ghost predicate PeerTables(leases: seq<Lease>, peerLeases: seq<Peer>) {
    && (forall k {:trigger Seated(leases, peerLeases, k)} :: 0 <= k < |leases| && Live(leases[k]) ==>
       Seated(leases, peerLeases, k))
    && (forall p, id {:trigger EntryOk(leases, peerLeases, p, id)} ::
          0 <= p < |peerLeases| && id in peerLeases[p].attempts ==> EntryOk(leases, peerLeases, p, id))
  }

  ghost predicate IsRegistered(peerLeases: seq<Peer>, peers: map<string, nat>, p: nat)
    requires p < |peerLeases|
  {
    peerLeases[p].id in peers && peers[peerLeases[p].id] == p
  }

  ghost predicate PeerNameOk(peerLeases: seq<Peer>, peers: map<string, nat>, id: string)
    requires id in peers
  {
    peers[id] < |peerLeases| && peerLeases[peers[id]].id == id
  }

  /** Whoever left the peer table is closed and holds no attempt. */
  ghost predicate GoneOk(peerLeases: seq<Peer>, peers: map<string, nat>, p: nat)
    requires p < |peerLeases|
  {
    IsRegistered(peerLeases, peers, p) || (peerLeases[p].closed && peerLeases[p].attempts == map[])
  }

  ghost predicate PeerRegistry(peerLeases: seq<Peer>, peers: map<string, nat>) {
    && (forall id {:trigger PeerNameOk(peerLeases, peers, id)} :: id in peers ==> PeerNameOk(peerLeases, peers, id))
    && (forall p {:trigger GoneOk(peerLeases, peers, p)} :: 0 <= p < |peerLeases| ==> GoneOk(peerLeases, peers, p))
  }

  ghost predicate AllOk(leases: seq<Lease>) {
    forall k {:trigger LeaseOk(leases[k])} :: 0 <= k < |leases| ==> LeaseOk(leases[k])
  }

  predicate CostOk(l: Lease, limits: Limits) { Within(NOTHING, l.cost) && Within(l.cost, limits.perAttempt) }

  ghost predicate CostsOk(leases: seq<Lease>, limits: Limits) {
    forall k {:trigger CostOk(leases[k], limits)} :: 0 <= k < |leases| ==> CostOk(leases[k], limits)
  }

  predicate PeerCountOk(p: Peer, limits: Limits) { |p.attempts| <= limits.perPeer }

  ghost predicate PeerCounts(peerLeases: seq<Peer>, limits: Limits) {
    forall p {:trigger PeerCountOk(peerLeases[p], limits)} :: 0 <= p < |peerLeases| ==>
      PeerCountOk(peerLeases[p], limits)
  }

  // ----- how the tables follow a change -----------------------------------------------------

  predicate SameSeat(a: Lease, b: Lease) {
    a.closed == b.closed && a.id == b.id && a.peer == b.peer && a.cost == b.cost
  }

  lemma UpdateKeepsTables(leases: seq<Lease>, k: nat, l: Lease, attempts: map<string, nat>, peerLeases: seq<Peer>)
    requires k < |leases| && SameSeat(leases[k], l)
    requires AttemptTable(leases, attempts) && PeerTables(leases, peerLeases)
    ensures AttemptTable(leases[k := l], attempts) && PeerTables(leases[k := l], peerLeases)
  {
    var next := leases[k := l];
    assert AttemptTable(next, attempts) by {
      forall j | 0 <= j < |next| && Live(next[j]) ensures Listed(next, attempts, j) {
        assert Listed(leases, attempts, j);
      }
      forall id | id in attempts ensures NameOk(next, attempts, id) { assert NameOk(leases, attempts, id); }
    }
    UpdateKeepsPeerTables(leases, k, l, peerLeases);
  }

  lemma UpdateKeepsPeerTables(leases: seq<Lease>, k: nat, l: Lease, peerLeases: seq<Peer>)
    requires k < |leases| && SameSeat(leases[k], l)
    requires PeerTables(leases, peerLeases)
    ensures PeerTables(leases[k := l], peerLeases)
  {
    var next := leases[k := l];
    forall j | 0 <= j < |next| && Live(next[j]) ensures Seated(next, peerLeases, j) {
      assert Seated(leases, peerLeases, j);
    }
    forall p, id | 0 <= p < |peerLeases| && id in peerLeases[p].attempts ensures EntryOk(next, peerLeases, p, id) {
      assert EntryOk(leases, peerLeases, p, id);
    }
  }

  function WithEntry(p: Peer, id: string, k: nat): Peer { p.(attempts := p.attempts[id := k]) }

  function WithoutEntry(p: Peer, id: string): Peer { p.(attempts := p.attempts - {id}) }

  /** A new lease under a fresh id enters both tables. */
  lemma AppendKeepsTables(leases: seq<Lease>, l: Lease, attempts: map<string, nat>, peerLeases: seq<Peer>)
    requires l.peer < |peerLeases| && Live(l) && l.id !in attempts
    requires AttemptTable(leases, attempts) && PeerTables(leases, peerLeases)
    ensures AttemptTable(leases + [l], attempts[l.id := |leases|])
    ensures PeerTables(leases + [l], peerLeases[l.peer := WithEntry(peerLeases[l.peer], l.id, |leases|)])
  {
    var next, names := leases + [l], attempts[l.id := |leases|];
    var table := peerLeases[l.peer := WithEntry(peerLeases[l.peer], l.id, |leases|)];
    forall j | 0 <= j < |next| && Live(next[j]) ensures Listed(next, names, j) && Seated(next, table, j) {
      if j < |leases| { assert Listed(leases, attempts, j) && Seated(leases, peerLeases, j); }
    }
    forall id | id in names ensures NameOk(next, names, id) {
      if id != l.id { assert NameOk(leases, attempts, id); }
    }
    forall p, id | 0 <= p < |table| && id in table[p].attempts ensures EntryOk(next, table, p, id) {
      if !(p == l.peer && id == l.id) { assert EntryOk(leases, peerLeases, p, id); }
    }
  }

  /** A released lease leaves the attempt table. */
  lemma ReleaseKeepsAttemptTable(leases: seq<Lease>, k: nat, attempts: map<string, nat>)
    requires k < |leases| && Live(leases[k]) && AttemptTable(leases, attempts)
    ensures AttemptTable(leases[k := leases[k].(closed := true)], attempts - {leases[k].id})
  {
    var next, names := leases[k := leases[k].(closed := true)], attempts - {leases[k].id};
    assert Listed(leases, attempts, k);
    forall j | 0 <= j < |next| && Live(next[j]) ensures Listed(next, names, j) { assert Listed(leases, attempts, j); }
    forall id | id in names ensures NameOk(next, names, id) { assert NameOk(leases, attempts, id); }
  }

  /** A released lease leaves its peer's table. */
  lemma ReleaseKeepsPeerTables(leases: seq<Lease>, k: nat, peerLeases: seq<Peer>)
    requires k < |leases| && Live(leases[k]) && PeerTables(leases, peerLeases)
    ensures leases[k].peer < |peerLeases|
    ensures PeerTables(leases[k := leases[k].(closed := true)],
                       peerLeases[leases[k].peer := WithoutEntry(peerLeases[leases[k].peer], leases[k].id)])
  {
    var l := leases[k];
    assert Seated(leases, peerLeases, k);
    var next, table := leases[k := l.(closed := true)], peerLeases[l.peer := WithoutEntry(peerLeases[l.peer], l.id)];
    forall j | 0 <= j < |next| && Live(next[j]) ensures Seated(next, table, j) {
      assert Seated(leases, peerLeases, j);
    }
    forall p, id | 0 <= p < |table| && id in table[p].attempts ensures EntryOk(next, table, p, id) {
      assert EntryOk(leases, peerLeases, p, id);
    }
  }

  lemma ShrinkCount(m: map<string, nat>, id: string)
    ensures |m - {id}| <= |m|
  {
    var rest := m - {id};
    assert rest.Keys <= m.Keys;
    SubsetCount(rest.Keys, m.Keys);
    assert |rest| == |rest.Keys| && |m| == |m.Keys|;
  }

  lemma {:induction false} SubsetCount(a: set<string>, b: set<string>)
    requires a <= b
    ensures |a| <= |b|
    decreases a
  {
    if a != {} {
      var x :| x in a;
      SubsetCount(a - {x}, b - {x});
    }
  }

  lemma GrowCount(m: map<string, nat>, id: string, k: nat)
    requires id !in m
    ensures |m[id := k]| == |m| + 1
  {
    assert m[id := k].Keys == m.Keys + {id};
    assert |m| == |m.Keys| && |m[id := k]| == |m[id := k].Keys|;
  }
}
