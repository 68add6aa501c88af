/** Ways through a chain of NATs: outbound as the sender's mapped address (internal/natsim/network.go,
    MappedAddr), inbound as the route of a reply. */
module NatPaths {
  import opened Basics
  import opened NatTables

  /** `shut` is set before the connection leaves the tables, `open` until it has left them. */
  datatype Conn = Conn(local: Endpoint, chain: seq<nat>, open: bool, shut: bool, queue: seq<Datagram>, reading: nat)

  datatype Datagram = Datagram(packet: seq<nat>, source: Endpoint)

  predicate ChainOk(chain: seq<nat>, nats: nat) {
    && (forall j :: 0 <= j < |chain| ==> chain[j] < nats)
    && (forall j, l :: 0 <= j < l < |chain| ==> chain[j] != chain[l])
  }

  // ----- inbound through one NAT --------------------------------------------------------------------

  /** translateInboundLocked's search condition. */
  predicate Matches(n: Nat, k: Key, external: Endpoint, source: Endpoint) {
    k in n.mappings && n.mappings[k].external == external && (!n.model.reuse || k.destination == Some(source))
  }

  predicate Lets(f: Filtering, m: Mapping, source: Endpoint) {
    match f
    case AnySource => true
    case SameAddress => source.addr in m.addresses
    case SameEndpoint => source in m.endpoints
  }

  /** The configured rule, read off the sends made through the mapping. */
  ghost predicate HistoryLets(f: Filtering, history: seq<Endpoint>, source: Endpoint) {
    match f
    case AnySource => true
    case SameAddress => exists d :: d in history && d.addr == source.addr
    case SameEndpoint => source in history
  }

  lemma FilteringRefinesHistory(n: Nat, k: Key, source: Endpoint)
    requires NatOk(n) && k in n.mappings
    ensures Lets(n.model.filtering, n.mappings[k], source) <==>
      HistoryLets(n.model.filtering, n.mappings[k].history, source)
  {
    assert EntryOk(n, k);
  }

  lemma OneMatch(n: Nat, k: Key, l: Key, external: Endpoint, source: Endpoint)
    requires NatOk(n) && Matches(n, k, external, source) && Matches(n, l, external, source)
    ensures k == l
  {
    assert EntryOk(n, k) && EntryOk(n, l) && Distinct(n, k, l);
  }

  /** What an inbound packet becomes behind this NAT, if it passes. */
  ghost function Inward(n: Nat, external: Endpoint, source: Endpoint): Option<Endpoint> {
    if k :| Matches(n, k, external, source) then
      if Lets(n.model.filtering, n.mappings[k], source) then Some(k.internal) else None
    else None
  }

  lemma InwardIs(n: Nat, k: Key, external: Endpoint, source: Endpoint)
    requires NatOk(n) && Matches(n, k, external, source)
    ensures Inward(n, external, source) == if Lets(n.model.filtering, n.mappings[k], source) then Some(k.internal)
      else None
  {
    var l :| Matches(n, l, external, source) && Inward(n, external, source) ==
      if Lets(n.model.filtering, n.mappings[l], source) then Some(l.internal) else None;
    OneMatch(n, k, l, external, source);
  }

  /** An inbound packet passes a NAT exactly when the mapping it addresses exists and the sends made
      through that mapping since its creation allow its source. */
  lemma PassesByHistory(n: Nat, external: Endpoint, source: Endpoint)
    requires NatOk(n)
    ensures Inward(n, external, source).Some? <==>
      exists k :: Matches(n, k, external, source) && HistoryLets(n.model.filtering, n.mappings[k].history, source)
  {
    forall k | Matches(n, k, external, source)
      ensures Inward(n, external, source).Some? <==> HistoryLets(n.model.filtering, n.mappings[k].history, source)
    {
      InwardIs(n, k, external, source);
      FilteringRefinesHistory(n, k, source);
    }
  }

  // ----- whole chains -----------------------------------------------------------------------------------

  predicate Known(nats: seq<Nat>, chain: seq<nat>) { forall j :: 0 <= j < |chain| ==> chain[j] < |nats| }

  /** The address the first `depth` NATs show to `d`. */
  function Mapped(nats: seq<Nat>, chain: seq<nat>, local: Endpoint, d: Endpoint, depth: nat): Option<Endpoint>
    requires depth <= |chain| && Known(nats, chain)
  {
    if depth == 0 then Some(local)
    else
      var s := Mapped(nats, chain, local, d, depth - 1);
      if s == None then None
      else
        var n := nats[chain[depth - 1]];
        var k := KeyFor(n.model, s.value, d);
        if k in n.mappings then Some(n.mappings[k].external) else None
  }

  /** Every mapping on that way has carried a packet to `d`. */
  predicate Used(nats: seq<Nat>, chain: seq<nat>, local: Endpoint, d: Endpoint, depth: nat)
    requires depth <= |chain| && Known(nats, chain)
  {
    depth == 0 ||
    (Used(nats, chain, local, d, depth - 1) &&
     var s := Mapped(nats, chain, local, d, depth - 1);
     var n := nats[chain[depth - 1]];
     s.Some? && KeyFor(n.model, s.value, d) in n.mappings && d in n.mappings[KeyFor(n.model, s.value, d)].history)
  }

  /** Walk inwards from NAT `depth - 1` to the first. */
  ghost function Walk(nats: seq<Nat>, chain: seq<nat>, depth: nat, external: Endpoint,
                      source: Endpoint): Option<Endpoint>
    requires depth <= |chain| && Known(nats, chain)
  {
    if depth == 0 then Some(external)
    else
      var inner := Inward(nats[chain[depth - 1]], external, source);
      if inner == None then None else Walk(nats, chain, depth - 1, inner.value, source)
  }

  lemma {:induction false} PathFrame(nats: seq<Nat>, next: seq<Nat>, chain: seq<nat>, local: Endpoint, d: Endpoint,
                                     depth: nat)
    requires depth <= |chain| && Known(nats, chain) && Known(next, chain)
    requires forall j :: 0 <= j < depth ==> nats[chain[j]] == next[chain[j]]
    ensures Mapped(nats, chain, local, d, depth) == Mapped(next, chain, local, d, depth)
    ensures Used(nats, chain, local, d, depth) == Used(next, chain, local, d, depth)
  {
    if depth > 0 { PathFrame(nats, next, chain, local, d, depth - 1); }
  }

  /** A packet back along a used path undoes the translation. */
  lemma {:induction false} WalkBack(nats: seq<Nat>, chain: seq<nat>, local: Endpoint, d: Endpoint, depth: nat)
    requires depth <= |chain| && Known(nats, chain)
    requires forall j :: 0 <= j < depth ==> NatOk(nats[chain[j]])
    requires Used(nats, chain, local, d, depth)
    ensures Mapped(nats, chain, local, d, depth).Some?
    ensures Walk(nats, chain, depth, Mapped(nats, chain, local, d, depth).value, d) == Some(local)
  {
    if depth > 0 {
      WalkBack(nats, chain, local, d, depth - 1);
      var n := nats[chain[depth - 1]];
      var k := KeyFor(n.model, Mapped(nats, chain, local, d, depth - 1).value, d);
      assert NatOk(n);
      assert EntryOk(n, k);
      InwardIs(n, k, n.mappings[k].external, d);
      FilteringRefinesHistory(n, k, d);
    }
  }

  // ----- the reply ------------------------------------------------------------------------------------------

  /** The two lookups of transmit: a route for this very source, else a route for everybody. */
  function Lookup(routes: map<RouteKey, Route>, external: Endpoint, source: Endpoint): Option<Route> {
    if RouteKey(external, Some(source)) in routes then Some(routes[RouteKey(external, Some(source))])
    else if RouteKey(external, None) in routes then Some(routes[RouteKey(external, None)])
    else None
  }

  /** A mapping's own destination finds the mapping's own route. */
  lemma LookupFinds(t: Tables, i: nat, k: Key, d: Endpoint)
    requires Coherent(t) && i < |t.nats| && k in t.nats[i].mappings
      && (t.nats[i].model.reuse ==> k.destination == Some(d))
    ensures
      var m := t.nats[i].mappings[k];
      Lookup(t.routes, m.external, d) == Some(Route(m.conn, m.index, i))
  {
    var n := t.nats[i];
    var m := n.mappings[k];
    assert Routed(t, i, k) && NatOk(n) && EntryOk(n, k) && Owns(t, i);
    var rk := RouteKey(m.external, Some(d));
    if rk in t.routes { RouteNamesItsNat(t, rk); }
  }

  /** A route's address names its NAT; a route for one source only is a port-reusing NAT's. */
  lemma RouteNamesItsNat(t: Tables, rk: RouteKey)
    requires Coherent(t) && rk in t.routes
    ensures rk.external.addr in t.owners && t.owners[rk.external.addr] == t.routes[rk].box < |t.nats|
    ensures rk.destination.Some? ==> t.nats[t.routes[rk].box].model.reuse
  {
    assert RouteOk(t, rk);
    var j := t.routes[rk].box;
    var l :| LeadsTo(t, rk, j, l);
    assert NatOk(t.nats[j]) && EntryOk(t.nats[j], l) && Owns(t, j);
  }

  /** The mappings belong to open connections whose chain passes through their NAT. */
  predicate OwnerIs(nats: seq<Nat>, conns: seq<Conn>, i: nat, k: Key)
    requires i < |nats| && k in nats[i].mappings
  {
    var m := nats[i].mappings[k];
    m.conn < |conns| && conns[m.conn].open && m.index < |conns[m.conn].chain| && conns[m.conn].chain[m.index] == i
  }

  ghost predicate Owned(nats: seq<Nat>, conns: seq<Conn>) {
    forall i, k {:trigger OwnerIs(nats, conns, i, k)} :: 0 <= i < |nats| && k in nats[i].mappings ==>
      OwnerIs(nats, conns, i, k)
  }

  ghost predicate ConnsOk(nats: seq<Nat>, conns: seq<Conn>) {
    forall c {:trigger ChainOk(conns[c].chain, |nats|)} :: 0 <= c < |conns| ==> ChainOk(conns[c].chain, |nats|)
  }

  /** Which connection a packet from `source` to `external` gets to, before its queue is looked at. */
  ghost function Target(t: Tables, conns: seq<Conn>, direct: map<Endpoint, nat>, external: Endpoint,
                        source: Endpoint): Option<nat>
    requires Coherent(t) && Owned(t.nats, conns) && ConnsOk(t.nats, conns)
  {
    if external in direct then Some(direct[external])
    else
      var r := Lookup(t.routes, external, source);
      if r == None then None
      else
        RouteTargetsExist(t, conns, external, source);
        var c := conns[r.value.conn];
        if !c.shut && Walk(t.nats, c.chain, r.value.index + 1, external, source) == Some(c.local) then
          Some(r.value.conn) else None
  }

  /** Every NAT on the way in has a mapping for the packet, and the sends made through it allow the source. */
  ghost predicate LetIn(nats: seq<Nat>, chain: seq<nat>, depth: nat, external: Endpoint, source: Endpoint,
                        local: Endpoint)
    requires depth <= |chain| && Known(nats, chain)
  {
    if depth == 0 then external == local
    else
      var n := nats[chain[depth - 1]];
      exists k {:trigger Matches(n, k, external, source)} :: Matches(n, k, external, source)
        && HistoryLets(n.model.filtering, n.mappings[k].history, source)
        && LetIn(nats, chain, depth - 1, k.internal, source, local)
  }

  lemma {:induction false} WalkIsLetIn(nats: seq<Nat>, chain: seq<nat>, depth: nat, external: Endpoint,
                                       source: Endpoint, local: Endpoint)
    requires depth <= |chain| && Known(nats, chain)
    requires forall j :: 0 <= j < depth ==> NatOk(nats[chain[j]])
    ensures Walk(nats, chain, depth, external, source) == Some(local) <==>
      LetIn(nats, chain, depth, external, source, local)
  {
    if depth > 0 {
      var n := nats[chain[depth - 1]];
      forall k | Matches(n, k, external, source)
        ensures Walk(nats, chain, depth, external, source) == Some(local) <==>
          HistoryLets(n.model.filtering, n.mappings[k].history, source)
          && LetIn(nats, chain, depth - 1, k.internal, source, local)
      {
        InwardIs(n, k, external, source);
        FilteringRefinesHistory(n, k, source);
        WalkIsLetIn(nats, chain, depth - 1, k.internal, source, local);
      }
    }
  }

  /** Nothing gets in unasked: a packet to an address that no open endpoint has reaches a connection only through NATs
      that the connection's chain begins with, each by a mapping whose sends allow the source. */
  lemma NothingUnasked(t: Tables, conns: seq<Conn>, direct: map<Endpoint, nat>, external: Endpoint, source: Endpoint)
    requires Coherent(t) && Owned(t.nats, conns) && ConnsOk(t.nats, conns)
    requires external !in direct && Target(t, conns, direct, external, source).Some?
    ensures
      var c := Target(t, conns, direct, external, source).value;
      && c < |conns| && !conns[c].shut && Known(t.nats, conns[c].chain)
      && exists depth :: 0 < depth <= |conns[c].chain|
           && LetIn(t.nats, conns[c].chain, depth, external, source, conns[c].local)
  {
    RouteTargetsExist(t, conns, external, source);
    var r := Lookup(t.routes, external, source).value;
    var chain := conns[r.conn].chain;
    forall j | 0 <= j < r.index + 1 ensures NatOk(t.nats[chain[j]]) { }
    WalkIsLetIn(t.nats, chain, r.index + 1, external, source, conns[r.conn].local);
  }

  lemma RouteTargetsExist(t: Tables, conns: seq<Conn>, external: Endpoint, source: Endpoint)
    requires Coherent(t) && Owned(t.nats, conns) && ConnsOk(t.nats, conns)
    ensures Lookup(t.routes, external, source).Some? ==>
      var r := Lookup(t.routes, external, source).value;
      r.conn < |conns| && r.index < |conns[r.conn].chain| && Known(t.nats, conns[r.conn].chain)
  {
    if Lookup(t.routes, external, source).Some? {
      var rk := if RouteKey(external, Some(source)) in t.routes then RouteKey(external, Some(source))
        else RouteKey(external, None);
      assert RouteOk(t, rk);
      var i := t.routes[rk].box;
      var k :| LeadsTo(t, rk, i, k);
      assert Routed(t, i, k) && OwnerIs(t.nats, conns, i, k);
      assert ChainOk(conns[t.nats[i].mappings[k].conn].chain, |t.nats|);
    }
  }

  /** After connection `c` has sent to the direct peer `d`, the peer's reply to the source it saw reaches `c`
      exactly when the outermost mapping on the way belongs to `c`. */
  lemma ReplyReaches(t: Tables, conns: seq<Conn>, direct: map<Endpoint, nat>, c: nat, d: Endpoint)
    requires Coherent(t) && Owned(t.nats, conns) && ConnsOk(t.nats, conns)
    requires c < |conns| && !conns[c].shut && conns[c].chain != [] && Known(t.nats, conns[c].chain)
    requires Used(t.nats, conns[c].chain, conns[c].local, d, |conns[c].chain|)
    ensures
      var chain := conns[c].chain;
      var seen := Mapped(t.nats, chain, conns[c].local, d, |chain|);
      var n := t.nats[chain[|chain| - 1]];
      var inner := Mapped(t.nats, chain, conns[c].local, d, |chain| - 1);
      && seen.Some? && inner.Some? && KeyFor(n.model, inner.value, d) in n.mappings
      && (seen.value !in direct ==>
           (Target(t, conns, direct, seen.value, d) == Some(c) <==>
             n.mappings[KeyFor(n.model, inner.value, d)].conn == c))
  {
    var chain, local := conns[c].chain, conns[c].local;
    forall j | 0 <= j < |chain| ensures NatOk(t.nats[chain[j]]) { }
    WalkBack(t.nats, chain, local, d, |chain|);
    var i := chain[|chain| - 1];
    var k := KeyFor(t.nats[i].model, Mapped(t.nats, chain, local, d, |chain| - 1).value, d);
    assert NatOk(t.nats[i]) && OwnerIs(t.nats, conns, i, k);
    LookupFinds(t, i, k, d);
    var m := t.nats[i].mappings[k];
    if m.conn == c {
      assert ChainOk(chain, |t.nats|);
      assert m.index == |chain| - 1;
    }
  }
}
