/** The translation tables of the NAT simulator (internal/natsim/network.go): mappings, used ports
    and external routes of every NAT, and the two ways an entry comes and goes. */
module NatTables {
  import opened Basics

  datatype Endpoint = Endpoint(addr: nat, port: nat)

  datatype Allocation = Preserving | Increment | Random

  datatype Filtering = AnySource | SameAddress | SameEndpoint

  /** `dependent` is endpoint-dependent mapping, `reuse` shares one public port between destinations. */
  datatype Model = Model(dependent: bool, allocation: Allocation, filtering: Filtering, reuse: bool,
                         blocked: bool, portMin: nat, portMax: nat, seed: nat)

  datatype Key = Key(internal: Endpoint, destination: Option<Endpoint>)

  /** `history` lists every destination sent to through this mapping since it was made. */
  datatype Mapping = Mapping(key: Key, external: Endpoint, conn: nat, index: nat,
                             addresses: set<nat>, endpoints: set<Endpoint>, history: seq<Endpoint>)

  datatype PortKey = PortKey(port: nat, destination: Option<Endpoint>)

  datatype RouteKey = RouteKey(external: Endpoint, destination: Option<Endpoint>)

  datatype Route = Route(conn: nat, index: nat, box: nat)

  datatype Change = Change(after: nat, model: Model, public: Option<nat>)

  datatype Nat = Nat(public: nat, model: Model, changes: seq<Change>, nextChange: nat, outbound: nat,
                     mappings: map<Key, Mapping>, used: set<PortKey>, cursor: nat, random: nat)

  predicate ModelOk(m: Model) { 1 <= m.portMin <= m.portMax <= 65535 && (m.reuse ==> m.dependent) }

  function KeyFor(m: Model, internal: Endpoint, destination: Endpoint): Key {
    Key(internal, if m.dependent then Some(destination) else None)
  }

  function PortKeyFor(m: Model, port: nat, destination: Endpoint): PortKey {
    PortKey(port, if m.reuse then Some(destination) else None)
  }

  /** The same, recovered from a mapping when it is removed. */
  function PortKeyOf(n: Nat, m: Mapping): PortKey {
    PortKey(m.external.port, if n.model.reuse then m.key.destination else None)
  }

  function RouteKeyOf(n: Nat, m: Mapping): RouteKey { RouteKey(m.external, PortKeyOf(n, m).destination) }

  // ----- one NAT ----------------------------------------------------------------------------------

  predicate HistoryOk(m: Mapping) {
    && m.addresses == (set d | d in m.history :: d.addr)
    && m.endpoints == (set d | d in m.history)
  }

  /** The entry under `k` is filed under its own key, lies in range and holds its port. */
  predicate EntryOk(n: Nat, k: Key)
    requires k in n.mappings
  {
    var m := n.mappings[k];
    && m.key == k && m.external.addr == n.public && n.model.portMin <= m.external.port <= n.model.portMax
    && (k.destination.Some? <==> n.model.dependent)
    && PortKeyOf(n, m) in n.used && HistoryOk(m)
  }

  predicate Distinct(n: Nat, k: Key, l: Key)
    requires k in n.mappings && l in n.mappings
  {
    PortKeyOf(n, n.mappings[k]) == PortKeyOf(n, n.mappings[l]) ==> k == l
  }

  /** Used port `p` belongs to the mapping `k`. */
  predicate HeldBy(n: Nat, p: PortKey, k: Key) { k in n.mappings && PortKeyOf(n, n.mappings[k]) == p }

  ghost predicate Held(n: Nat, p: PortKey) { exists k :: HeldBy(n, p, k) }

  ghost predicate NatOk(n: Nat) {
    && ModelOk(n.model) && n.model.portMin <= n.cursor <= n.model.portMax && n.nextChange <= |n.changes|
    && (forall k {:trigger EntryOk(n, k)} :: k in n.mappings ==> EntryOk(n, k))
    && (forall k, l {:trigger Distinct(n, k, l)} :: k in n.mappings && l in n.mappings ==> Distinct(n, k, l))
    && (forall p {:trigger Held(n, p)} :: p in n.used ==> Held(n, p))
    && (forall i {:trigger ModelOk(n.changes[i].model)} :: 0 <= i < |n.changes| ==> ModelOk(n.changes[i].model))
  }

  /** A mapping through a port nobody holds. */
  function WithMapping(n: Nat, m: Mapping): Nat {
    n.(mappings := n.mappings[m.key := m], used := n.used + {PortKeyOf(n, m)})
  }

  function WithoutMapping(n: Nat, k: Key): Nat
    requires k in n.mappings
  {
    n.(mappings := n.mappings - {k}, used := n.used - {PortKeyOf(n, n.mappings[k])})
  }

  predicate Fresh(n: Nat, m: Mapping) {
    && m.key !in n.mappings && PortKeyOf(n, m) !in n.used
    && m.external.addr == n.public && n.model.portMin <= m.external.port <= n.model.portMax
    && (m.key.destination.Some? <==> n.model.dependent) && HistoryOk(m)
  }

  lemma AddKeepsNat(n: Nat, m: Mapping)
    requires NatOk(n) && Fresh(n, m)
    ensures NatOk(WithMapping(n, m))
  {
    var w := WithMapping(n, m);
    forall k | k in w.mappings ensures EntryOk(w, k) { if k != m.key { assert EntryOk(n, k); } }
    forall k, l | k in w.mappings && l in w.mappings ensures Distinct(w, k, l) {
      if k != m.key { assert EntryOk(n, k); }
      if l != m.key { assert EntryOk(n, l); }
      if k != m.key && l != m.key { assert Distinct(n, k, l); }
    }
    forall p | p in w.used ensures Held(w, p) {
      if p in n.used {
        assert Held(n, p);
        var k :| HeldBy(n, p, k);
        assert HeldBy(w, p, k);
      } else {
        assert HeldBy(w, p, m.key);
      }
    }
  }

  lemma RemoveKeepsNat(n: Nat, k: Key)
    requires NatOk(n) && k in n.mappings
    ensures NatOk(WithoutMapping(n, k))
  {
    var w := WithoutMapping(n, k);
    forall l | l in w.mappings ensures EntryOk(w, l) { assert EntryOk(n, l) && Distinct(n, k, l); }
    forall l, j | l in w.mappings && j in w.mappings ensures Distinct(w, l, j) { assert Distinct(n, l, j); }
    forall p | p in w.used ensures Held(w, p) {
      assert Held(n, p);
      var l :| HeldBy(n, p, l);
      assert HeldBy(w, p, l);
    }
  }

  // ----- all NATs and the routes ------------------------------------------------------------------

  datatype Tables = Tables(nats: seq<Nat>, owners: map<nat, nat>, routes: map<RouteKey, Route>, active: int)

  predicate Owns(t: Tables, i: nat)
    requires i < |t.nats|
  {
    t.nats[i].public in t.owners && t.owners[t.nats[i].public] == i
  }

  predicate OwnerOk(t: Tables, a: nat)
    requires a in t.owners
  {
    t.owners[a] < |t.nats| && t.nats[t.owners[a]].public == a
  }

  /** Mapping k of NAT i has its route. */
  predicate Routed(t: Tables, i: nat, k: Key)
    requires i < |t.nats| && k in t.nats[i].mappings
  {
    var m := t.nats[i].mappings[k];
    var rk := RouteKeyOf(t.nats[i], m);
    rk in t.routes && t.routes[rk] == Route(m.conn, m.index, i)
  }

  predicate LeadsTo(t: Tables, rk: RouteKey, i: nat, k: Key) {
    i < |t.nats| && k in t.nats[i].mappings && RouteKeyOf(t.nats[i], t.nats[i].mappings[k]) == rk
  }

  ghost predicate RouteOk(t: Tables, rk: RouteKey)
    requires rk in t.routes
  {
    exists k :: LeadsTo(t, rk, t.routes[rk].box, k)
  }

  function MappingCount(nats: seq<Nat>, n: nat): nat
    requires n <= |nats|
  {
    if n == 0 then 0 else MappingCount(nats, n - 1) + |nats[n - 1].mappings|
  }

  ghost predicate OwnersOk(t: Tables) {
    && (forall i {:trigger Owns(t, i)} :: 0 <= i < |t.nats| ==> Owns(t, i))
    && (forall a {:trigger OwnerOk(t, a)} :: a in t.owners ==> OwnerOk(t, a))
  }

  ghost predicate RoutesOk(t: Tables) {
    && (forall i, k {:trigger Routed(t, i, k)} :: 0 <= i < |t.nats| && k in t.nats[i].mappings ==> Routed(t, i, k))
    && (forall rk {:trigger RouteOk(t, rk)} :: rk in t.routes ==> RouteOk(t, rk))
  }

  ghost predicate NatsOk(t: Tables) { forall i {:trigger NatOk(t.nats[i])} :: 0 <= i < |t.nats| ==> NatOk(t.nats[i]) }

  /** Mappings, used ports and routes agree one to one, and the counter is their number. */
  ghost predicate Coherent(t: Tables) {
    NatsOk(t) && OwnersOk(t) && RoutesOk(t) && t.active == MappingCount(t.nats, |t.nats|)
  }

  lemma {:induction false} CountUpdate(nats: seq<Nat>, i: nat, w: Nat, n: nat)
    requires i < |nats| && n <= |nats|
    ensures MappingCount(nats[i := w], n) == MappingCount(nats, n) + if i < n then |w.mappings| - |nats[i].mappings|
      else 0
  {
    if n > 0 { CountUpdate(nats, i, w, n - 1); }
  }

  /** Two mappings never share a route key: the address names the NAT, the port key the mapping. */
  lemma RouteKeysDistinct(t: Tables, i: nat, k: Key, j: nat, l: Key)
    requires NatsOk(t) && OwnersOk(t)
    requires i < |t.nats| && j < |t.nats| && k in t.nats[i].mappings && l in t.nats[j].mappings
    requires RouteKeyOf(t.nats[i], t.nats[i].mappings[k]) == RouteKeyOf(t.nats[j], t.nats[j].mappings[l])
    ensures i == j && k == l
  {
    assert NatOk(t.nats[i]) && NatOk(t.nats[j]);
    assert EntryOk(t.nats[i], k) && EntryOk(t.nats[j], l);
    assert Owns(t, i) && Owns(t, j);
    assert Distinct(t.nats[i], k, l);
  }

  function AfterAdd(t: Tables, i: nat, m: Mapping): Tables
    requires i < |t.nats|
  {
    t.(nats := t.nats[i := WithMapping(t.nats[i], m)],
       routes := t.routes[RouteKeyOf(t.nats[i], m) := Route(m.conn, m.index, i)], active := t.active + 1)
  }

  function AfterRemove(t: Tables, i: nat, k: Key): Tables
    requires i < |t.nats| && k in t.nats[i].mappings
  {
    t.(nats := t.nats[i := WithoutMapping(t.nats[i], k)],
       routes := t.routes - {RouteKeyOf(t.nats[i], t.nats[i].mappings[k])}, active := t.active - 1)
  }

  lemma SameAddressesKeepOwners(t: Tables, i: nat, w: Nat, u: Tables)
    requires OwnersOk(t) && i < |t.nats| && w.public == t.nats[i].public
    requires u.nats == t.nats[i := w] && u.owners == t.owners
    ensures OwnersOk(u)
  {
    forall j | 0 <= j < |u.nats| ensures Owns(u, j) { assert Owns(t, j); }
    forall a | a in u.owners ensures OwnerOk(u, a) { assert OwnerOk(t, a); }
  }

  lemma OneNatKeepsNats(t: Tables, i: nat, w: Nat, u: Tables)
    requires NatsOk(t) && i < |t.nats| && NatOk(w) && u.nats == t.nats[i := w]
    ensures NatsOk(u)
  {
    forall j | 0 <= j < |u.nats| ensures NatOk(u.nats[j]) { assert NatOk(t.nats[j]); }
  }

  lemma AddKeepsRoutes(t: Tables, i: nat, m: Mapping)
    requires NatsOk(t) && OwnersOk(t) && RoutesOk(t) && i < |t.nats| && Fresh(t.nats[i], m)
    ensures RoutesOk(AfterAdd(t, i, m))
  {
    var u := AfterAdd(t, i, m);
    var rk := RouteKeyOf(t.nats[i], m);
    assert NatOk(t.nats[i]) && Owns(t, i);
    forall j, k | 0 <= j < |u.nats| && k in u.nats[j].mappings ensures Routed(u, j, k) {
      if !(j == i && k == m.key) {
        assert Routed(t, j, k) && NatOk(t.nats[j]) && EntryOk(t.nats[j], k) && Owns(t, j);
      }
    }
    forall r | r in u.routes ensures RouteOk(u, r) {
      if r == rk {
        assert LeadsTo(u, r, i, m.key);
      } else {
        assert RouteOk(t, r);
        var k :| LeadsTo(t, r, t.routes[r].box, k);
        assert LeadsTo(u, r, t.routes[r].box, k);
      }
    }
  }

  lemma RemoveKeepsRoutes(t: Tables, i: nat, k: Key)
    requires NatsOk(t) && OwnersOk(t) && RoutesOk(t) && i < |t.nats| && k in t.nats[i].mappings
    ensures RoutesOk(AfterRemove(t, i, k))
  {
    var u := AfterRemove(t, i, k);
    var rk := RouteKeyOf(t.nats[i], t.nats[i].mappings[k]);
    forall j, l | 0 <= j < |u.nats| && l in u.nats[j].mappings ensures Routed(u, j, l) {
      assert Routed(t, j, l);
      if RouteKeyOf(t.nats[j], t.nats[j].mappings[l]) == rk { RouteKeysDistinct(t, i, k, j, l); }
    }
    forall r | r in u.routes ensures RouteOk(u, r) {
      assert RouteOk(t, r);
      var l :| LeadsTo(t, r, t.routes[r].box, l);
      assert LeadsTo(u, r, t.routes[r].box, l);
    }
  }

  lemma AddKeepsCoherent(t: Tables, i: nat, m: Mapping)
    requires Coherent(t) && i < |t.nats| && Fresh(t.nats[i], m)
    ensures Coherent(AfterAdd(t, i, m))
  {
    var n := t.nats[i];
    assert NatOk(n);
    AddKeepsNat(n, m);
    OneNatKeepsNats(t, i, WithMapping(n, m), AfterAdd(t, i, m));
    SameAddressesKeepOwners(t, i, WithMapping(n, m), AfterAdd(t, i, m));
    AddKeepsRoutes(t, i, m);
    CountUpdate(t.nats, i, WithMapping(n, m), |t.nats|);
    assert n.mappings[m.key := m].Keys == n.mappings.Keys + {m.key};
    assert |n.mappings[m.key := m].Keys| == |n.mappings[m.key := m]| && |n.mappings.Keys| == |n.mappings|;
  }

  lemma RemoveKeepsCoherent(t: Tables, i: nat, k: Key)
    requires Coherent(t) && i < |t.nats| && k in t.nats[i].mappings
    ensures Coherent(AfterRemove(t, i, k))
  {
    var n := t.nats[i];
    assert NatOk(n);
    RemoveKeepsNat(n, k);
    OneNatKeepsNats(t, i, WithoutMapping(n, k), AfterRemove(t, i, k));
    SameAddressesKeepOwners(t, i, WithoutMapping(n, k), AfterRemove(t, i, k));
    RemoveKeepsRoutes(t, i, k);
    CountUpdate(t.nats, i, WithoutMapping(n, k), |t.nats|);
    assert (n.mappings - {k}).Keys == n.mappings.Keys - {k};
    assert |(n.mappings - {k}).Keys| == |n.mappings - {k}| && |n.mappings.Keys| == |n.mappings|;
  }
}
