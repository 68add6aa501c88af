/** The simulator's connections (internal/natsim/network.go, internal/natsim/packetconn.go): direct routes,
    queues and the counts over them. */
module NatConns {
  import opened Basics
  import opened NatTables
  import opened NatPaths
  import opened NatLineage

  /** A direct route leads to the open, directly attached connection of that address. */
  predicate DirectEntryOk(conns: seq<Conn>, direct: map<Endpoint, nat>, e: Endpoint)
    requires e in direct
  {
    direct[e] < |conns| && conns[direct[e]].open && conns[direct[e]].local == e && conns[direct[e]].chain == []
  }

  /** An open connection without NATs is found under its own address. */
  predicate Reachable(conns: seq<Conn>, direct: map<Endpoint, nat>, c: nat)
    requires c < |conns|
  {
    conns[c].open && conns[c].chain == [] ==> conns[c].local in direct && direct[conns[c].local] == c
  }

  ghost predicate DirectOk(conns: seq<Conn>, direct: map<Endpoint, nat>) {
    && (forall e {:trigger DirectEntryOk(conns, direct, e)} :: e in direct ==> DirectEntryOk(conns, direct, e))
    && (forall c {:trigger Reachable(conns, direct, c)} :: 0 <= c < |conns| ==> Reachable(conns, direct, c))
  }

  /** Packets in the queue or in the hands of a reader that has not yet reported. */
  function Holding(conns: seq<Conn>, n: nat): nat
    requires n <= |conns|
  {
    if n == 0 then 0 else Holding(conns, n - 1) + |conns[n - 1].queue| + conns[n - 1].reading
  }

  predicate QueueOk(c: Conn, capacity: nat) {
    (!c.open ==> c.queue == []) && |c.queue| <= capacity && (!c.open ==> c.shut)
  }

  ghost predicate QueuesOk(conns: seq<Conn>, capacity: nat) {
    forall c {:trigger QueueOk(conns[c], capacity)} :: 0 <= c < |conns| ==> QueueOk(conns[c], capacity)
  }

  function OpenCount(conns: seq<Conn>, n: nat): nat
    requires n <= |conns|
  {
    if n == 0 then 0 else OpenCount(conns, n - 1) + if conns[n - 1].open then 1 else 0
  }

  lemma {:induction false} OpenUpdate(conns: seq<Conn>, c: nat, k: Conn, n: nat)
    requires c < |conns| && n <= |conns|
    ensures OpenCount(conns[c := k], n) ==
            OpenCount(conns, n) + if c >= n || k.open == conns[c].open then 0 else if k.open then 1 else -1
  {
    if n > 0 { OpenUpdate(conns, c, k, n - 1); }
  }

  lemma {:induction false} TotalsPrefix(conns: seq<Conn>, more: seq<Conn>, n: nat)
    requires n <= |conns|
    ensures Holding(conns + more, n) == Holding(conns, n) && OpenCount(conns + more, n) == OpenCount(conns, n)
  {
    if n > 0 { TotalsPrefix(conns, more, n - 1); }
  }

  lemma {:induction false} HoldingUpdate(conns: seq<Conn>, c: nat, k: Conn, n: nat)
    requires c < |conns| && n <= |conns|
    ensures Holding(conns[c := k], n) ==
            Holding(conns, n) + if c < n then |k.queue| + k.reading - |conns[c].queue| - conns[c].reading else 0
  {
    if n > 0 { HoldingUpdate(conns, c, k, n - 1); }
  }

  lemma SameSeatKeeps(nats: seq<Nat>, conns: seq<Conn>, direct: map<Endpoint, nat>, capacity: nat, c: nat, k: Conn)
    requires c < |conns| && SameSeat(conns[c], k) && QueueOk(k, capacity)
    requires Owned(nats, conns) && ConnsOk(nats, conns) && DirectOk(conns, direct) && QueuesOk(conns, capacity)
    ensures
      var next := conns[c := k];
      Owned(nats, next) && ConnsOk(nats, next) && DirectOk(next, direct) && QueuesOk(next, capacity)
  {
    var next := conns[c := k];
    forall i, key | 0 <= i < |nats| && key in nats[i].mappings ensures OwnerIs(nats, next, i, key) {
      assert OwnerIs(nats, conns, i, key);
    }
    forall j | 0 <= j < |next| ensures ChainOk(next[j].chain, |nats|) { assert ChainOk(conns[j].chain, |nats|); }
    forall e | e in direct ensures DirectEntryOk(next, direct, e) { assert DirectEntryOk(conns, direct, e); }
    forall j | 0 <= j < |next| ensures Reachable(next, direct, j) { assert Reachable(conns, direct, j); }
    forall j | 0 <= j < |next| ensures QueueOk(next[j], capacity) { assert QueueOk(conns[j], capacity); }
  }

  lemma JoinKeeps(conns: seq<Conn>, k: Conn, nats: seq<Nat>, direct: map<Endpoint, nat>, next: map<Endpoint, nat>,
                  capacity: nat)
    requires Owned(nats, conns) && ConnsOk(nats, conns) && DirectOk(conns, direct) && QueuesOk(conns, capacity)
    requires k.open && k.queue == [] && ChainOk(k.chain, |nats|)
    requires if k.chain == [] then k.local !in direct && next == direct[k.local := |conns|] else next == direct
    ensures
      var more := conns + [k];
      Owned(nats, more) && ConnsOk(nats, more) && DirectOk(more, next) && QueuesOk(more, capacity)
  {
    var more := conns + [k];
    forall i, key | 0 <= i < |nats| && key in nats[i].mappings ensures OwnerIs(nats, more, i, key) {
      assert OwnerIs(nats, conns, i, key);
    }
    forall j | 0 <= j < |more| ensures ChainOk(more[j].chain, |nats|) {
      if j < |conns| { assert ChainOk(conns[j].chain, |nats|); }
    }
    forall e | e in next ensures DirectEntryOk(more, next, e) {
      if e in direct { assert DirectEntryOk(conns, direct, e); }
    }
    forall j | 0 <= j < |more| ensures Reachable(more, next, j) {
      if j < |conns| { assert Reachable(conns, direct, j); }
    }
    forall j | 0 <= j < |more| ensures QueueOk(more[j], capacity) {
      if j < |conns| { assert QueueOk(conns[j], capacity); }
    }
  }

  function WithoutDirect(direct: map<Endpoint, nat>, k: Conn): map<Endpoint, nat> {
    if k.chain == [] then direct - {k.local} else direct
  }

  lemma RetireKeeps(nats: seq<Nat>, conns: seq<Conn>, direct: map<Endpoint, nat>, capacity: nat, c: nat, k: Conn)
    requires Owned(nats, conns) && ConnsOk(nats, conns) && DirectOk(conns, direct) && QueuesOk(conns, capacity)
    requires c < |conns| && conns[c].open && k == conns[c].(open := false, queue := []) && k.shut
    requires forall i, key :: 0 <= i < |nats| && key in nats[i].mappings ==> nats[i].mappings[key].conn != c
    ensures
      var next := conns[c := k];
      Owned(nats, next) && ConnsOk(nats, next) && DirectOk(next, WithoutDirect(direct, k)) && QueuesOk(next, capacity)
  {
    var next, left := conns[c := k], WithoutDirect(direct, k);
    assert Reachable(conns, direct, c);
    forall i, key | 0 <= i < |nats| && key in nats[i].mappings ensures OwnerIs(nats, next, i, key) {
      assert OwnerIs(nats, conns, i, key);
    }
    forall j | 0 <= j < |next| ensures ChainOk(next[j].chain, |nats|) { assert ChainOk(conns[j].chain, |nats|); }
    forall e | e in left ensures DirectEntryOk(next, left, e) { assert DirectEntryOk(conns, direct, e); }
    forall j | 0 <= j < |next| ensures Reachable(next, left, j) { assert Reachable(conns, direct, j); }
    forall j | 0 <= j < |next| ensures QueueOk(next[j], capacity) { assert QueueOk(conns[j], capacity); }
  }

  // ----- addresses stay apart ------------------------------------------------------------------------------

  lemma SameSeatApart(conns: seq<Conn>, c: nat, k: Conn)
    requires Apart(conns) && c < |conns| && k.local == conns[c].local && k.chain == conns[c].chain
      && (k.open ==> conns[c].open)
    ensures Apart(conns[c := k])
  {
    var next := conns[c := k];
    forall a, b | 0 <= a < |next| && 0 <= b < |next| ensures Differ(next, a, b) { assert Differ(conns, a, b); }
  }

  lemma NewSeatApart(conns: seq<Conn>, k: Conn)
    requires Apart(conns)
    requires forall c :: 0 <= c < |conns| && conns[c].open && conns[c].local == k.local ==>
      InnerNat(conns[c].chain) != InnerNat(k.chain)
    ensures Apart(conns + [k])
  {
    var next := conns + [k];
    forall a, b | 0 <= a < |next| && 0 <= b < |next| ensures Differ(next, a, b) {
      if a < |conns| && b < |conns| { assert Differ(conns, a, b); }
    }
  }
}
