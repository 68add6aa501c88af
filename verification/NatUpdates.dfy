/** The other updates of a NAT that keep its tables coherent: counters move, a mapping is used again,
    a behaviour change replaces an emptied NAT, a new NAT joins. */
module NatUpdates {
  import opened NatTables

  function WithNat(t: Tables, i: nat, w: Nat): Tables
    requires i < |t.nats|
  {
    t.(nats := t.nats[i := w])
  }

  /** Only the packet count, the port cursor and the random state differ. */
  predicate SameTables(n: Nat, w: Nat) {
    && w.public == n.public && w.model == n.model && w.mappings == n.mappings && w.used == n.used
    && w.changes == n.changes && w.nextChange == n.nextChange
    && w.model.portMin <= w.cursor <= w.model.portMax
  }

  lemma CountersKeepCoherent(t: Tables, i: nat, w: Nat)
    requires Coherent(t) && i < |t.nats| && SameTables(t.nats[i], w)
    ensures Coherent(WithNat(t, i, w))
  {
    var n, u := t.nats[i], WithNat(t, i, w);
    assert NatOk(n);
    assert NatOk(w) by {
      forall k | k in w.mappings ensures EntryOk(w, k) { assert EntryOk(n, k); }
      forall k, l | k in w.mappings && l in w.mappings ensures Distinct(w, k, l) { assert Distinct(n, k, l); }
      forall p | p in w.used ensures Held(w, p) {
        assert Held(n, p);
        var k :| HeldBy(n, p, k);
        assert HeldBy(w, p, k);
      }
      forall j | 0 <= j < |w.changes| ensures ModelOk(w.changes[j].model) { assert ModelOk(n.changes[j].model); }
    }
    OneNatKeepsNats(t, i, w, u);
    SameAddressesKeepOwners(t, i, w, u);
    CountUpdate(t.nats, i, w, |t.nats|);
    RoutesFollow(t, i, w, u);
  }

  /** The routes see only keys, externals and owners of mappings. */
  predicate SameRoutes(n: Nat, w: Nat) {
    && w.mappings.Keys == n.mappings.Keys && w.model == n.model
    && forall k :: k in n.mappings ==>
       && w.mappings[k].key == n.mappings[k].key && w.mappings[k].external == n.mappings[k].external
                                       && w.mappings[k].conn == n.mappings[k].conn
                                       && w.mappings[k].index == n.mappings[k].index
  }

  lemma RoutesFollow(t: Tables, i: nat, w: Nat, u: Tables)
    requires RoutesOk(t) && i < |t.nats| && SameRoutes(t.nats[i], w) && u == WithNat(t, i, w)
    ensures RoutesOk(u)
  {
    forall j, k | 0 <= j < |u.nats| && k in u.nats[j].mappings ensures Routed(u, j, k) {
      assert k in t.nats[j].mappings;
      assert Routed(t, j, k);
    }
    forall rk | rk in u.routes ensures RouteOk(u, rk) {
      assert RouteOk(t, rk);
      var k :| LeadsTo(t, rk, t.routes[rk].box, k);
      assert LeadsTo(u, rk, t.routes[rk].box, k);
    }
  }

  /** One more send through an existing mapping. */
  function Reused(m: Mapping, d: Endpoint): Mapping {
    m.(addresses := m.addresses + {d.addr}, endpoints := m.endpoints + {d}, history := m.history + [d])
  }

  function WithReuse(n: Nat, k: Key, d: Endpoint): Nat
    requires k in n.mappings
  {
    n.(mappings := n.mappings[k := Reused(n.mappings[k], d)])
  }

  lemma ReuseKeepsHistory(m: Mapping, d: Endpoint)
    requires HistoryOk(m)
    ensures HistoryOk(Reused(m, d))
  {
    var r := Reused(m, d);
    forall a ensures a in r.addresses <==> a in (set e | e in r.history :: e.addr) {
      if a in m.addresses {
        var e :| e in m.history && e.addr == a;
        assert e in r.history;
      }
      if a == d.addr { assert d in r.history; }
    }
  }

  lemma ReuseKeepsNat(n: Nat, k: Key, d: Endpoint)
    requires NatOk(n) && k in n.mappings
    ensures NatOk(WithReuse(n, k, d))
  {
    var w := WithReuse(n, k, d);
    assert EntryOk(n, k);
    ReuseKeepsHistory(n.mappings[k], d);
    forall l | l in w.mappings ensures EntryOk(w, l) { assert EntryOk(n, l); }
    forall l, j | l in w.mappings && j in w.mappings ensures Distinct(w, l, j) { assert Distinct(n, l, j); }
    forall p | p in w.used ensures Held(w, p) {
      assert Held(n, p);
      var l :| HeldBy(n, p, l);
      assert HeldBy(w, p, l);
    }
    forall j | 0 <= j < |w.changes| ensures ModelOk(w.changes[j].model) { assert ModelOk(n.changes[j].model); }
  }

  lemma ReuseKeepsCoherent(t: Tables, i: nat, k: Key, d: Endpoint)
    requires Coherent(t) && i < |t.nats| && k in t.nats[i].mappings
    ensures Coherent(WithNat(t, i, WithReuse(t.nats[i], k, d)))
  {
    var n := t.nats[i];
    var w := WithReuse(n, k, d);
    var u := WithNat(t, i, w);
    assert NatOk(n);
    ReuseKeepsNat(n, k, d);
    OneNatKeepsNats(t, i, w, u);
    SameAddressesKeepOwners(t, i, w, u);
    CountUpdate(t.nats, i, w, |t.nats|);
    assert w.mappings.Keys == n.mappings.Keys;
    assert |w.mappings.Keys| == |w.mappings| && |n.mappings.Keys| == |n.mappings|;
    RoutesFollow(t, i, w, u);
  }

  // ----- behaviour changes --------------------------------------------------------------------------

  function Changed(n: Nat, public: nat): Nat
    requires n.nextChange < |n.changes|
  {
    var m := n.changes[n.nextChange].model;
    n.(public := public, model := m, cursor := m.portMin, random := m.seed, nextChange := n.nextChange + 1,
       mappings := map[], used := {})
  }

  function AfterChange(t: Tables, i: nat, public: nat): Tables
    requires i < |t.nats| && t.nats[i].nextChange < |t.nats[i].changes|
  {
    t.(nats := t.nats[i := Changed(t.nats[i], public)],
       owners := if public == t.nats[i].public then t.owners else (t.owners - {t.nats[i].public})[public := i])
  }

  /** An emptied NAT holds no port either, so clearing the port set again changes nothing. */
  lemma EmptiedHoldsNoPort(n: Nat)
    requires NatOk(n) && n.mappings == map[]
    ensures n.used == {}
  {
    forall p ensures p !in n.used {
      assert p in n.used ==> Held(n, p);
    }
  }

  lemma ChangeKeepsCoherent(t: Tables, i: nat, public: nat)
    requires Coherent(t) && i < |t.nats| && t.nats[i].nextChange < |t.nats[i].changes| && t.nats[i].mappings == map[]
    requires public in t.owners ==> t.owners[public] == i
    ensures Coherent(AfterChange(t, i, public))
  {
    var n, u := t.nats[i], AfterChange(t, i, public);
    var w := u.nats[i];
    assert NatOk(n) && Owns(t, i) && ModelOk(n.changes[n.nextChange].model);
    assert NatOk(w) by {
      forall j | 0 <= j < |w.changes| ensures ModelOk(w.changes[j].model) { assert ModelOk(n.changes[j].model); }
    }
    OneNatKeepsNats(t, i, w, u);
    CountUpdate(t.nats, i, w, |t.nats|);
    forall j | 0 <= j < |u.nats| ensures Owns(u, j) { assert Owns(t, j); }
    forall a | a in u.owners ensures OwnerOk(u, a) {
      if a != public { assert OwnerOk(t, a); }
    }
    forall j, k | 0 <= j < |u.nats| && k in u.nats[j].mappings ensures Routed(u, j, k) { assert Routed(t, j, k); }
    forall rk | rk in u.routes ensures RouteOk(u, rk) {
      assert RouteOk(t, rk);
      var k :| LeadsTo(t, rk, t.routes[rk].box, k);
      assert LeadsTo(u, rk, t.routes[rk].box, k);
    }
  }

  // ----- a new NAT ------------------------------------------------------------------------------------

  function AfterJoin(t: Tables, n: Nat): Tables { t.(nats := t.nats + [n], owners := t.owners[n.public := |t.nats|]) }

  lemma {:induction false} CountPrefix(nats: seq<Nat>, more: seq<Nat>, n: nat)
    requires n <= |nats|
    ensures MappingCount(nats + more, n) == MappingCount(nats, n)
  {
    if n > 0 { CountPrefix(nats, more, n - 1); }
  }

  lemma JoinKeepsRoutes(t: Tables, n: Nat)
    requires RoutesOk(t) && n.mappings == map[]
    ensures RoutesOk(AfterJoin(t, n))
  {
    var u := AfterJoin(t, n);
    forall j, k | 0 <= j < |u.nats| && k in u.nats[j].mappings ensures Routed(u, j, k) {
      assert j != |t.nats|;
      assert u.nats[j] == t.nats[j];
      assert Routed(t, j, k);
    }
    forall rk | rk in u.routes ensures RouteOk(u, rk) {
      assert RouteOk(t, rk);
      var k :| LeadsTo(t, rk, t.routes[rk].box, k);
      assert LeadsTo(u, rk, t.routes[rk].box, k);
    }
  }

  lemma JoinKeepsCoherent(t: Tables, n: Nat)
    requires Coherent(t) && NatOk(n) && n.mappings == map[] && n.public !in t.owners
    ensures Coherent(AfterJoin(t, n))
  {
    var u := AfterJoin(t, n);
    JoinKeepsRoutes(t, n);
    assert t.nats + [n] == u.nats;
    CountPrefix(t.nats, [n], |t.nats|);
    assert MappingCount(u.nats, |u.nats|) == MappingCount(u.nats, |t.nats|) + |n.mappings|;
    assert NatsOk(u) by {
      forall j | 0 <= j < |u.nats| ensures NatOk(u.nats[j]) { if j < |t.nats| { assert NatOk(t.nats[j]); } }
    }
    assert OwnersOk(u) by {
      forall j | 0 <= j < |u.nats| ensures Owns(u, j) { if j < |t.nats| { assert Owns(t, j); } }
      forall a | a in u.owners ensures OwnerOk(u, a) { if a != n.public { assert OwnerOk(t, a); } }
    }
  }
}
