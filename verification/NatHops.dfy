/** One outbound packet at one NAT (internal/natsim/network.go, translateOutboundLocked and
    applyChangesLocked): the changes that are due, then the mapping that carries the packet. */
module NatHops {
  import opened Basics
  import opened NatTables
  import opened NatUpdates
  import opened NatPorts
  import opened NatPaths
  import opened NatLineage

  // ----- owners of mappings ---------------------------------------------------------------------------

  /** The mapping under k was there before, with the same owner. */
  predicate Kept(n: Nat, w: Nat, k: Key)
    requires k in w.mappings
  {
    k in n.mappings && w.mappings[k].conn == n.mappings[k].conn && w.mappings[k].index == n.mappings[k].index
  }

  /** Fewer mappings, the same NATs: owners stay what they were. */
  lemma FewerStayOwned(nats: seq<Nat>, next: seq<Nat>, conns: seq<Conn>)
    requires Owned(nats, conns) && |next| == |nats|
    requires forall i, k :: 0 <= i < |next| && k in next[i].mappings ==> Kept(nats[i], next[i], k)
    ensures Owned(next, conns)
  {
    forall i, k | 0 <= i < |next| && k in next[i].mappings ensures OwnerIs(next, conns, i, k) {
      assert Kept(nats[i], next[i], k) && OwnerIs(nats, conns, i, k);
    }
  }

  lemma SizeOnly(nats: seq<Nat>, next: seq<Nat>, conns: seq<Conn>)
    requires ConnsOk(nats, conns) && |next| == |nats|
    ensures ConnsOk(next, conns)
  {
    forall c | 0 <= c < |conns| ensures ChainOk(conns[c].chain, |next|) { assert ChainOk(conns[c].chain, |nats|); }
  }

  lemma ActivePositive(t: Tables, i: nat, k: Key)
    requires Coherent(t) && i < |t.nats| && k in t.nats[i].mappings
    ensures t.active > 0
  {
    CountUpdate(t.nats, i, t.nats[i].(mappings := map[]), |t.nats|);
    assert k in t.nats[i].mappings.Keys && |t.nats[i].mappings.Keys| == |t.nats[i].mappings|;
  }

  lemma RemoveKeepsOwned(t: Tables, i: nat, k: Key, conns: seq<Conn>)
    requires i < |t.nats| && k in t.nats[i].mappings && Owned(t.nats, conns) && ConnsOk(t.nats, conns)
    ensures Owned(AfterRemove(t, i, k).nats, conns) && ConnsOk(AfterRemove(t, i, k).nats, conns)
  {
    FewerStayOwned(t.nats, AfterRemove(t, i, k).nats, conns);
    SizeOnly(t.nats, AfterRemove(t, i, k).nats, conns);
  }

  // ----- behaviour changes ------------------------------------------------------------------------------

  predicate Due(n: Nat) { n.nextChange < |n.changes| && n.outbound >= n.changes[n.nextChange].after }

  /** The address the next change gives the NAT: a new one, or the one it has. */
  function DueAddress(n: Nat): nat
    requires n.nextChange < |n.changes|
  {
    if n.changes[n.nextChange].public.Some? then n.changes[n.nextChange].public.value else n.public
  }

  predicate Clashes(n: Nat, i: nat, owners: map<nat, nat>)
    requires n.nextChange < |n.changes|
  {
    DueAddress(n) in owners && owners[DueAddress(n)] != i
  }

  function Readdressed(owners: map<nat, nat>, i: nat, was: nat, public: nat): map<nat, nat> {
    if public == was then owners else (owners - {was})[public := i]
  }

  datatype Settled = Settled(box: Nat, owners: map<nat, nat>, ok: bool)

  /** NAT i after the changes that are due; an address of another NAT stops them. */
  function Settle(n: Nat, i: nat, owners: map<nat, nat>): Settled
    decreases |n.changes| - n.nextChange
  {
    if !Due(n) then Settled(n, owners, true)
    else if Clashes(n, i, owners) then Settled(n, owners, false)
    else Settle(Changed(n, DueAddress(n)), i, Readdressed(owners, i, n.public, DueAddress(n)))
  }

  /** Change b is due for a NAT that has sent `outbound` packets. */
  predicate Passed(n: Nat, b: nat)
    requires b < |n.changes|
  {
    n.changes[b].after <= n.outbound
  }

  /** The address after the changes before `next`: the last one they name, or the old one. */
  ghost predicate LastAddress(n: Nat, next: nat, public: nat)
    requires n.nextChange <= next <= |n.changes|
  {
    || (public == n.public && forall b :: n.nextChange <= b < next ==> n.changes[b].public == None)
    || exists b :: n.nextChange <= b < next && n.changes[b].public == Some(public)
         && forall j :: b < j < next ==> n.changes[j].public == None
  }

  /** The due changes are worked off in order and up to the first that is not due or clashes. The last one
      worked off decides the model; any one of them empties the NAT; the packet count is not touched. */
  lemma {:induction false} SettleIsTheLastDue(n: Nat, i: nat, owners: map<nat, nat>)
    requires n.nextChange <= |n.changes|
    ensures
      var s := Settle(n, i, owners);
      var w := s.box;
      && w.changes == n.changes && w.outbound == n.outbound && n.nextChange <= w.nextChange <= |n.changes|
      && (forall b :: n.nextChange <= b < w.nextChange ==> Passed(n, b))
      && (if s.ok then !Due(w) else Due(w) && Clashes(w, i, s.owners))
      && (if w.nextChange == n.nextChange then w == n && s.owners == owners
          else
            var m := n.changes[w.nextChange - 1].model;
            w.mappings == map[] && w.used == {} && w.model == m && w.cursor == m.portMin && w.random == m.seed)
      && LastAddress(n, w.nextChange, w.public)
    decreases |n.changes| - n.nextChange
  {
    if Due(n) && !Clashes(n, i, owners) {
      var w := Changed(n, DueAddress(n));
      SettleIsTheLastDue(w, i, Readdressed(owners, i, n.public, DueAddress(n)));
      forall b | n.nextChange <= b < Settle(n, i, owners).box.nextChange ensures Passed(n, b) {
        assert b > n.nextChange ==> Passed(w, b);
      }
    }
  }

  /** A NAT with changes is never part of a plain network, so they need not be followed there. */
  lemma SettleKeepsKin(nats: seq<Nat>, conns: seq<Conn>, i: nat, owners: map<nat, nat>)
    requires i < |nats| && Kin(nats, conns) && nats[i].nextChange <= |nats[i].changes|
    ensures var w := Settle(nats[i], i, owners).box; Kin(nats[i := w], conns) && SameFace(nats[i], w)
  {
    var n := nats[i];
    var w := Settle(n, i, owners).box;
    SettleIsTheLastDue(n, i, owners);
    if n.changes == [] {
      assert nats[i := w] == nats;
    } else {
      ChangingIsNotPlain(nats[i := w], conns, i);
    }
  }

  // ----- the mapping ----------------------------------------------------------------------------------------

  /** This NAT has carried a packet from `internal` to `d` and showed it as `external`. */
  predicate Carried(n: Nat, internal: Endpoint, d: Endpoint, external: Endpoint) {
    var k := KeyFor(n.model, internal, d);
    k in n.mappings && n.mappings[k].external == external && d in n.mappings[k].history
  }

  ghost predicate CanAllocate(n: Nat, d: Endpoint) { exists p :: InRange(n.model, p) && !Taken(n, p, d) }

  predicate SameConfig(n: Nat, w: Nat) {
    w.model == n.model && w.public == n.public && w.changes == n.changes && w.nextChange == n.nextChange
  }

  /** A NAT whose port range has been searched, or not. */
  ghost predicate Searched(n: Nat, w: Nat, tried: bool, internal: Endpoint, d: Endpoint, r: Option<Endpoint>) {
    if !tried then w.cursor == n.cursor && w.random == n.random
    else
      && ModelOk(n.model) && InRange(n.model, n.cursor) && (r.Some? ==> r.value.addr == n.public)
      && Picked(n, internal.port, d, if r.Some? then Some(r.value.port) else None, w.cursor, w.random)
  }

  lemma FirstFreeSame(m: Nat, n: Nat, start: nat, a: nat, d: Endpoint)
    requires m.model == n.model && m.used == n.used && ModelOk(m.model) && FirstFree(m, start, a, d)
    ensures FirstFree(n, start, a, d)
  {
    forall b: nat | b < a ensures Taken(n, Probe(n.model, start, b), d) {
      assert Taken(m, Probe(m.model, start, b), d);
    }
  }

  lemma PickedSame(m: Nat, n: Nat, internalPort: nat, d: Endpoint, port: Option<nat>, cursor: nat, random: nat)
    requires ModelOk(m.model) && InRange(m.model, m.cursor) && Picked(m, internalPort, d, port, cursor, random)
    requires m.model == n.model && m.used == n.used && m.cursor == n.cursor && m.random == n.random
    ensures Picked(n, internalPort, d, port, cursor, random)
  {
    if port == None {
      forall p | InRange(n.model, p) ensures Taken(n, p, d) { assert Taken(m, p, d); }
    } else if !Keeps(m, internalPort, d) {
      var start := StartOf(m);
      var a: nat :| port.value == Probe(m.model, start, a) && FirstFree(m, start, a, d);
      FirstFreeSame(m, n, start, a, d);
    }
  }

  /** The packet counter has no part in it. */
  lemma SearchedCounts(n: Nat, m: Nat, v: Nat, w: Nat, tried: bool, internal: Endpoint, d: Endpoint,
                       r: Option<Endpoint>)
    requires Searched(m, v, tried, internal, d, r) && m == n.(outbound := m.outbound)
    requires w.cursor == v.cursor && w.random == v.random
    ensures Searched(n, w, tried, internal, d, r)
  {
    if tried {
      PickedSame(m, n, internal.port, d, if r.Some? then Some(r.value.port) else None, v.cursor, v.random);
    }
  }

  /** A NAT with at most one more mapping, made by `c` and still unused. */
  predicate Extends(n: Nat, w: Nat, k: Key, made: bool, c: nat, index: nat) {
    && SameConfig(n, w) && w.outbound == n.outbound
    && (if made then
          && k in w.mappings && w.mappings == n.mappings[k := w.mappings[k]]
          && w.mappings[k].conn == c && w.mappings[k].index == index && w.mappings[k].history == []
        else w.mappings == n.mappings)
  }

  /** Exactly the mapping under k carried a packet of connection c to d: an old one has one more destination in
      its history, a new one is c's. */
  predicate Carries(n: Nat, w: Nat, k: Key, c: nat, index: nat, d: Endpoint) {
    && k in w.mappings && w.mappings == n.mappings[k := w.mappings[k]]
    && (if k in n.mappings then w.mappings[k] == Reused(n.mappings[k], d)
        else w.mappings[k].conn == c && w.mappings[k].index == index && w.mappings[k].history == [d])
  }

  /** One outbound packet without a behaviour change: what it comes out as and which mapping carries it. */
  ghost predicate Translated(n: Nat, w: Nat, room: bool, c: nat, index: nat, internal: Endpoint, d: Endpoint,
                             r: Option<Endpoint>) {
    var k := KeyFor(n.model, internal, d);
    && SameConfig(n, w) && w.outbound == n.outbound + 1
    && Searched(n, w, !n.model.blocked && k !in n.mappings && room, internal, d, r)
    && (r.Some? <==> !n.model.blocked && (k in n.mappings || (room && CanAllocate(n, d))))
    && (if r == None then w.mappings == n.mappings
        else Carries(n, w, k, c, index, d) && w.mappings[k].external == r.value)
  }

  /** One outbound packet of connection c at NAT i. */
  ghost predicate Hopped(t: Tables, u: Tables, i: nat, c: nat, index: nat, internal: Endpoint, d: Endpoint,
                         max: nat, r: Option<Endpoint>)
    requires i < |t.nats|
  {
    var n := t.nats[i];
    var s := Settle(n, i, t.owners);
    && |u.nats| == |t.nats| && u.nats == t.nats[i := u.nats[i]] && u.owners == s.owners
    && (if !s.ok then r == None && u.nats[i] == s.box
        else
          var room := t.active - |n.mappings| + |s.box.mappings| < max;
          Translated(s.box, u.nats[i], room, c, index, internal, d, r))
  }

  /** A packet on its own path keeps descent: what it finds is its own, what it makes continues its own. */
  lemma TranslatedKeepsKin(t: Tables, i: nat, w: Nat, conns: seq<Conn>, room: bool, c: nat, index: nat,
                           internal: Endpoint, d: Endpoint, r: Option<Endpoint>)
    requires Coherent(t) && ConnsOk(t.nats, conns) && Kin(t.nats, conns) && Apart(conns) && i < |t.nats| && NatOk(w)
    requires c < |conns| && conns[c].open && index < |conns[c].chain| && conns[c].chain[index] == i
    requires Known(t.nats, conns[c].chain) && Mapped(t.nats, conns[c].chain, conns[c].local, d, index) == Some(internal)
    requires Translated(t.nats[i], w, room, c, index, internal, d, r)
    ensures Kin(t.nats[i := w], conns) && SameFace(t.nats[i], w)
  {
    var n := t.nats[i];
    var k := KeyFor(n.model, internal, d);
    OneFace(t.nats, i, w);
    if Plain(t.nats, conns) {
      if r == None || k in n.mappings {
        assert SameRoutes(n, w);
        LineageFollows(t.nats, conns, i, w);
      } else {
        NewMappingKeepsLineage(t, i, w, conns, c, index, internal, d);
      }
    }
    FacesKeepPlain(t.nats, t.nats[i := w], conns);
  }

  lemma NewMappingKeepsLineage(t: Tables, i: nat, w: Nat, conns: seq<Conn>, c: nat, index: nat,
                               internal: Endpoint, d: Endpoint)
    requires Coherent(t) && ConnsOk(t.nats, conns) && Plain(t.nats, conns) && Lineage(t.nats, conns) && Apart(conns)
    requires i < |t.nats| && NatOk(w) && SameConfig(t.nats[i], w)
    requires c < |conns| && conns[c].open && index < |conns[c].chain| && conns[c].chain[index] == i
    requires Known(t.nats, conns[c].chain) && Mapped(t.nats, conns[c].chain, conns[c].local, d, index) == Some(internal)
    requires KeyFor(t.nats[i].model, internal, d) !in t.nats[i].mappings
    requires Carries(t.nats[i], w, KeyFor(t.nats[i].model, internal, d), c, index, d)
    ensures Lineage(t.nats[i := w], conns)
  {
    var n := t.nats[i];
    var k := KeyFor(n.model, internal, d);
    var m := w.mappings[k];
    assert EntryOk(w, k);
    var k0 := PathRoots(t, conns, c, index, d);
    assert Rooted(t.nats, conns, m, k0);
    assert ChainOk(conns[c].chain, |t.nats|);
    LineageAdds(t.nats, conns, i, m, k0);
    var n1 := WithMapping(n, m);
    assert w.mappings == n1.mappings;
    LineageFollows(t.nats[i := n1], conns, i, w);
    assert t.nats[i := n1][i := w] == t.nats[i := w];
  }

  lemma CarriesAtMostOne(n: Nat, w: Nat, k: Key)
    requires k in w.mappings && w.mappings == n.mappings[k := w.mappings[k]]
    ensures |w.mappings| <= |n.mappings| + 1
  {
    assert w.mappings.Keys == n.mappings.Keys + {k};
    assert |w.mappings.Keys| == |w.mappings| && |n.mappings.Keys| == |n.mappings|;
  }

  /** No packet costs a NAT more than one mapping. */
  lemma HopActive(t: Tables, u: Tables, i: nat, c: nat, index: nat, internal: Endpoint, d: Endpoint, max: nat,
                  r: Option<Endpoint>)
    requires Coherent(t) && Coherent(u) && i < |t.nats|
    requires Hopped(t, u, i, c, index, internal, d, max, r)
    ensures u.active <= t.active + 1
  {
    var n, w := t.nats[i], u.nats[i];
    assert NatOk(n);
    SettleIsTheLastDue(n, i, t.owners);
    CountUpdate(t.nats, i, w, |t.nats|);
    var s := Settle(n, i, t.owners);
    if s.ok && r.Some? { CarriesAtMostOne(s.box, w, KeyFor(s.box.model, internal, d)); }
  }

  /** The whole of one hop keeps descent. */
  lemma HopKeepsKin(t: Tables, u: Tables, conns: seq<Conn>, i: nat, c: nat, index: nat, internal: Endpoint, d: Endpoint,
                    max: nat, r: Option<Endpoint>)
    requires Coherent(t) && Coherent(u) && ConnsOk(t.nats, conns) && Kin(t.nats, conns) && Apart(conns)
    requires i < |t.nats|
    requires c < |conns| && conns[c].open && index < |conns[c].chain| && conns[c].chain[index] == i
    requires Known(t.nats, conns[c].chain) && Mapped(t.nats, conns[c].chain, conns[c].local, d, index) == Some(internal)
    requires Hopped(t, u, i, c, index, internal, d, max, r)
    ensures Kin(u.nats, conns) && SameFaces(t.nats, u.nats)
  {
    var n, w := t.nats[i], u.nats[i];
    var s := Settle(n, i, t.owners);
    assert NatOk(n);
    SettleKeepsKin(t.nats, conns, i, t.owners);
    SettleIsTheLastDue(n, i, t.owners);
    assert NatOk(w);
    if n.changes != [] {
      assert w.changes == n.changes;
      ChangingIsNotPlain(u.nats, conns, i);
    } else {
      assert s == Settled(n, t.owners, true);
      var room := t.active - |n.mappings| + |s.box.mappings| < max;
      TranslatedKeepsKin(t, i, w, conns, room, c, index, internal, d, r);
    }
    OneFace(t.nats, i, w);
  }

  // ----- what a mapping may become ---------------------------------------------------------------------------

  /** A mapping once made keeps its address and owner; its history only grows. */
  predicate Older(m: Mapping, l: Mapping) {
    l.external == m.external && l.conn == m.conn && l.index == m.index && m.history <= l.history
  }

  predicate Grew(n: Nat, w: Nat) {
    w.model == n.model && w.public == n.public && w.changes == n.changes
    && forall k :: k in n.mappings ==> k in w.mappings && Older(n.mappings[k], w.mappings[k])
  }

  lemma GrewTwice(a: Nat, b: Nat, c: Nat)
    requires Grew(a, b) && Grew(b, c)
    ensures Grew(a, c)
  {
    forall k | k in a.mappings ensures k in c.mappings && Older(a.mappings[k], c.mappings[k]) {
      assert Older(a.mappings[k], b.mappings[k]) && Older(b.mappings[k], c.mappings[k]);
    }
  }

  lemma HopGrows(t: Tables, u: Tables, i: nat, c: nat, index: nat, internal: Endpoint, d: Endpoint, max: nat,
                 r: Option<Endpoint>)
    requires i < |t.nats| && t.nats[i].changes == [] && Hopped(t, u, i, c, index, internal, d, max, r)
    ensures Grew(t.nats[i], u.nats[i])
  {
    assert Settle(t.nats[i], i, t.owners) == Settled(t.nats[i], t.owners, true);
  }

  /** A way that has been used stays as it is while its mappings only grow. */
  lemma {:induction false} WayStays(nats: seq<Nat>, next: seq<Nat>, chain: seq<nat>, local: Endpoint, d: Endpoint,
                                    depth: nat)
    requires depth <= |chain| && Known(nats, chain) && Known(next, chain)
    requires forall j :: 0 <= j < depth ==> Grew(nats[chain[j]], next[chain[j]])
    requires Used(nats, chain, local, d, depth) && Mapped(nats, chain, local, d, depth).Some?
    ensures Used(next, chain, local, d, depth)
    ensures Mapped(next, chain, local, d, depth) == Mapped(nats, chain, local, d, depth)
  {
    if depth > 0 {
      WayStays(nats, next, chain, local, d, depth - 1);
      var n, w := nats[chain[depth - 1]], next[chain[depth - 1]];
      assert Grew(n, w);
      var k := KeyFor(n.model, Mapped(nats, chain, local, d, depth - 1).value, d);
      assert Older(n.mappings[k], w.mappings[k]);
    }
  }

  /** Another connection's departure leaves the mappings of a plain way alone. */
  lemma {:induction false} WayOutlives(t: Tables, next: seq<Nat>, conns: seq<Conn>, c: nat, e: nat, d: Endpoint,
                                       depth: nat)
    requires Coherent(t) && ConnsOk(t.nats, conns) && Plain(t.nats, conns) && Lineage(t.nats, conns) && Apart(conns)
    requires c < |conns| && conns[c].open && c != e && depth <= |conns[c].chain| && |next| == |t.nats|
    requires Known(t.nats, conns[c].chain)
    requires forall i {:trigger Gone(t.nats[i], next[i], e)} :: 0 <= i < |next| ==> Gone(t.nats[i], next[i], e)
    requires Used(t.nats, conns[c].chain, conns[c].local, d, depth)
    requires Mapped(t.nats, conns[c].chain, conns[c].local, d, depth).Some?
    ensures Used(next, conns[c].chain, conns[c].local, d, depth)
    ensures Mapped(next, conns[c].chain, conns[c].local, d, depth) ==
      Mapped(t.nats, conns[c].chain, conns[c].local, d, depth)
  {
    if depth > 0 {
      WayOutlives(t, next, conns, c, e, d, depth - 1);
      OwnPath(t, conns, c, d, depth);
      assert OwnAt(t.nats, conns, c, d, depth - 1);
      var i := conns[c].chain[depth - 1];
      assert Gone(t.nats[i], next[i], e);
    }
  }

  // ----- all hops of one packet -----------------------------------------------------------------------------

  /** Change b of the NAT moves it to an address or blocks it. */
  predicate Upsets(n: Nat, b: nat)
    requires b < |n.changes|
  {
    n.changes[b].public.Some? || n.changes[b].model.blocked
  }

  ghost predicate UpsetAhead(n: Nat) { exists b :: n.nextChange <= b < |n.changes| && Upsets(n, b) }

  /** Changes that keep the address never clash. */
  lemma {:induction false} SettlesInPlace(n: Nat, i: nat, owners: map<nat, nat>)
    requires n.public in owners && owners[n.public] == i
    requires forall b :: n.nextChange <= b < |n.changes| ==> n.changes[b].public == None
    ensures var s := Settle(n, i, owners); s.ok && s.owners == owners && s.box.public == n.public
    decreases |n.changes| - n.nextChange
  {
    if Due(n) { SettlesInPlace(Changed(n, n.public), i, owners); }
  }

  /** At hop j the packet has no mapping and cannot get one, or the NAT blocks it; with a change due, one that is
      still ahead moves or blocks the NAT, or there is no room. */
  ghost predicate Stops(nats: seq<Nat>, next: seq<Nat>, chain: seq<nat>, local: Endpoint, d: Endpoint, active: int,
                        max: nat, j: nat)
    requires Known(nats, chain) && Known(next, chain)
  {
    && j < |chain| && Mapped(next, chain, local, d, j).Some?
    && var n := nats[chain[j]];
       if Due(n) then UpsetAhead(n) || active + j >= max
       else
         || n.model.blocked
         || (KeyFor(n.model, Mapped(next, chain, local, d, j).value, d) !in n.mappings
             && (active + j >= max || !CanAllocate(n, d)))
  }

  predicate ModelOf(n: Nat, w: Nat, b: nat)
    requires b < |n.changes|
  {
    w.model == n.changes[b].model
  }

  /** After the changes that were due: the model of one of them, and the same address if none moves the NAT. */
  ghost predicate Renewed(n: Nat, w: Nat) {
    && (exists b :: n.nextChange <= b < |n.changes| && ModelOf(n, w, b))
    && (!UpsetAhead(n) ==> w.public == n.public)
  }

  /** At hop j of the way of c's packet to d exactly one mapping was used or made; a change that was due had
      emptied the NAT first. */
  ghost predicate HopDone(nats: seq<Nat>, next: seq<Nat>, chain: seq<nat>, local: Endpoint, d: Endpoint, c: nat, j: nat)
    requires Known(nats, chain) && Known(next, chain) && j < |chain|
  {
    var n, w := nats[chain[j]], next[chain[j]];
    && Mapped(next, chain, local, d, j).Some?
    && var k := KeyFor(w.model, Mapped(next, chain, local, d, j).value, d);
       if Due(n) then Renewed(n, w) && Carries(n.(mappings := map[]), w, k, c, j, d)
       else SameConfig(n, w) && w.outbound == n.outbound + 1 && Carries(n, w, k, c, j, d)
  }

  predicate EarlierHop(chain: seq<nat>, done: nat, i: nat)
    requires done <= |chain|
  {
    exists j :: 0 <= j < done && chain[j] == i
  }

  /** What the first `done` hops of c's packet to d have done, and that nothing else happened. */
  ghost predicate HopsDone(t: Tables, u: Tables, conn: Conn, c: nat, d: Endpoint, done: nat)
    requires Known(t.nats, conn.chain) && Known(u.nats, conn.chain) && done <= |conn.chain|
  {
    && SameFaces(t.nats, u.nats) && u.active <= t.active + done
    && (forall j {:trigger HopDone(t.nats, u.nats, conn.chain, conn.local, d, c, j)} :: 0 <= j < done ==>
          HopDone(t.nats, u.nats, conn.chain, conn.local, d, c, j))
    && (forall i {:trigger EarlierHop(conn.chain, done, i)} :: 0 <= i < |t.nats| && !EarlierHop(conn.chain, done, i) ==>
          u.nats[i] == t.nats[i])
  }

  /** One more hop leaves the earlier ones as they are. */
  lemma HopLeavesEarlier(t: Tables, v: Tables, u: Tables, conn: Conn, c: nat, d: Endpoint, index: nat, j: nat)
    requires ChainOk(conn.chain, |t.nats|) && Known(t.nats, conn.chain) && |v.nats| == |t.nats| == |u.nats|
    requires j < index < |conn.chain| && u.nats == v.nats[conn.chain[index] := u.nats[conn.chain[index]]]
    requires HopDone(t.nats, v.nats, conn.chain, conn.local, d, c, j)
    ensures HopDone(t.nats, u.nats, conn.chain, conn.local, d, c, j)
  {
    PathFrame(v.nats, u.nats, conn.chain, conn.local, d, j);
  }

  /** What the due changes make of a NAT: emptied, with the model of one of them. */
  lemma DueSettles(n: Nat, i: nat, owners: map<nat, nat>)
    requires NatOk(n) && Due(n)
    ensures
      var s := Settle(n, i, owners);
      s.ok ==> && s.box.mappings == map[] && s.box.used == {} && ModelOk(s.box.model)
               && (exists b :: n.nextChange <= b < |n.changes| && ModelOf(n, s.box, b))
  {
    SettleIsTheLastDue(n, i, owners);
    var s := Settle(n, i, owners);
    if s.ok {
      assert ModelOf(n, s.box, s.box.nextChange - 1);
      assert ModelOk(n.changes[s.box.nextChange - 1].model);
    }
  }

  /** Where no change is ahead that moves or blocks the NAT, it stays where it is and does not block. */
  lemma CalmSettles(n: Nat, i: nat, owners: map<nat, nat>)
    requires NatOk(n) && Due(n) && !UpsetAhead(n) && n.public in owners && owners[n.public] == i
    ensures var s := Settle(n, i, owners); s.ok && s.box.public == n.public && !s.box.model.blocked
  {
    forall b | n.nextChange <= b < |n.changes| ensures n.changes[b].public == None && !n.changes[b].model.blocked {
      assert !Upsets(n, b);
    }
    SettlesInPlace(n, i, owners);
    SettleIsTheLastDue(n, i, owners);
  }

  lemma EmptyAllocates(n: Nat, d: Endpoint)
    requires ModelOk(n.model) && n.used == {}
    ensures CanAllocate(n, d)
  {
    assert InRange(n.model, n.model.portMin) && !Taken(n, n.model.portMin, d);
  }

  /** One hop with a change due. */
  lemma DueHop(v: Tables, u: Tables, i: nat, c: nat, index: nat, inner: Endpoint, d: Endpoint, max: nat,
               r: Option<Endpoint>)
    requires Coherent(v) && i < |v.nats| && Due(v.nats[i]) && Hopped(v, u, i, c, index, inner, d, max, r)
    ensures r.Some? ==>
      && Renewed(v.nats[i], u.nats[i])
      && Carries(v.nats[i].(mappings := map[]), u.nats[i], KeyFor(u.nats[i].model, inner, d), c, index, d)
    ensures r == None ==> UpsetAhead(v.nats[i]) || v.active >= max
  {
    var n, s := v.nats[i], Settle(v.nats[i], i, v.owners);
    assert NatOk(n) && Owns(v, i);
    DueSettles(n, i, v.owners);
    if !UpsetAhead(n) { CalmSettles(n, i, v.owners); }
    if s.ok {
      EmptyAllocates(s.box, d);
      if r.Some? {
        var b :| n.nextChange <= b < |n.changes| && ModelOf(n, s.box, b);
        assert ModelOf(n, u.nats[i], b);
      }
    }
  }

  lemma NextHopDone(t: Tables, v: Tables, u: Tables, conn: Conn, c: nat, d: Endpoint, index: nat, max: nat,
                    r: Option<Endpoint>)
    requires Coherent(v) && ChainOk(conn.chain, |t.nats|) && Known(t.nats, conn.chain)
    requires |v.nats| == |t.nats| == |u.nats| && index < |conn.chain| && HopsDone(t, v, conn, c, d, index)
    requires Mapped(v.nats, conn.chain, conn.local, d, index).Some?
    requires
      var inner := Mapped(v.nats, conn.chain, conn.local, d, index).value;
      Hopped(v, u, conn.chain[index], c, index, inner, d, max, r)
    ensures r.Some? ==> HopDone(t.nats, u.nats, conn.chain, conn.local, d, c, index)
    ensures r == None ==> Stops(t.nats, u.nats, conn.chain, conn.local, d, t.active, max, index)
  {
    var i := conn.chain[index];
    assert !EarlierHop(conn.chain, index, i);
    assert v.nats[i] == t.nats[i];
    PathFrame(v.nats, u.nats, conn.chain, conn.local, d, index);
    if Due(t.nats[i]) {
      DueHop(v, u, i, c, index, Mapped(v.nats, conn.chain, conn.local, d, index).value, d, max, r);
    } else {
      assert Settle(t.nats[i], i, v.owners) == Settled(t.nats[i], v.owners, true);
    }
  }

  /** The hops of a packet add up. */
  lemma HopsAdvance(t: Tables, v: Tables, u: Tables, conns: seq<Conn>, c: nat, d: Endpoint, index: nat, max: nat,
                    r: Option<Endpoint>)
    requires Coherent(v) && Coherent(u) && ConnsOk(v.nats, conns) && Kin(v.nats, conns) && Apart(conns)
    requires c < |conns| && conns[c].open && index < |conns[c].chain| && |v.nats| == |t.nats| == |u.nats|
    requires Known(t.nats, conns[c].chain) && Mapped(v.nats, conns[c].chain, conns[c].local, d, index).Some?
    requires HopsDone(t, v, conns[c], c, d, index)
    requires
      var inner := Mapped(v.nats, conns[c].chain, conns[c].local, d, index).value;
      Hopped(v, u, conns[c].chain[index], c, index, inner, d, max, r)
    ensures Kin(u.nats, conns) && SameFaces(t.nats, u.nats)
    ensures r.Some? ==> HopsDone(t, u, conns[c], c, d, index + 1)
    ensures r == None ==> Stops(t.nats, u.nats, conns[c].chain, conns[c].local, d, t.active, max, index)
  {
    var conn := conns[c];
    var i := conn.chain[index];
    var inner := Mapped(v.nats, conn.chain, conn.local, d, index).value;
    assert ChainOk(conns[c].chain, |v.nats|);
    HopKeepsKin(v, u, conns, i, c, index, inner, d, max, r);
    FacesTwice(t.nats, v.nats, u.nats);
    HopActive(v, u, i, c, index, inner, d, max, r);
    NextHopDone(t, v, u, conn, c, d, index, max, r);
    if r.Some? {
      forall j | 0 <= j < index + 1 ensures HopDone(t.nats, u.nats, conn.chain, conn.local, d, c, j) {
        if j < index { HopLeavesEarlier(t, v, u, conn, c, d, index, j); }
      }
      forall h | 0 <= h < |t.nats| && !EarlierHop(conn.chain, index + 1, h) ensures u.nats[h] == t.nats[h] {
        assert conn.chain[index] != h;
        assert !EarlierHop(conn.chain, index, h);
      }
    }
  }

  /** The packet left `c` through its whole chain as `source`; at every NAT of the chain, and at no other, it used
      one mapping or made one. */
  ghost predicate Left(t: Tables, u: Tables, conns: seq<Conn>, c: nat, d: Endpoint, source: Endpoint) {
    && c < |conns| && Known(t.nats, conns[c].chain) && Known(u.nats, conns[c].chain)
    && Mapped(u.nats, conns[c].chain, conns[c].local, d, |conns[c].chain|) == Some(source)
    && Used(u.nats, conns[c].chain, conns[c].local, d, |conns[c].chain|)
    && HopsDone(t, u, conns[c], c, d, |conns[c].chain|)
  }

  /** One of c's NATs stopped the packet. */
  ghost predicate Failed(t: Tables, u: Tables, conns: seq<Conn>, c: nat, d: Endpoint, max: nat) {
    && c < |conns| && Known(t.nats, conns[c].chain) && Known(u.nats, conns[c].chain)
    && exists j :: Stops(t.nats, u.nats, conns[c].chain, conns[c].local, d, t.active, max, j)
  }

  ghost predicate AllGrew(nats: seq<Nat>, next: seq<Nat>) {
    && |next| == |nats|
    && forall i {:trigger Grew(nats[i], next[i])} :: 0 <= i < |nats| && nats[i].changes == [] ==> Grew(nats[i], next[i])
  }

  lemma NothingGrew(nats: seq<Nat>)
    ensures AllGrew(nats, nats) && SameFaces(nats, nats)
  {
  }

  lemma HopGrowsAll(nats: seq<Nat>, v: Tables, u: Tables, i: nat, c: nat, index: nat, internal: Endpoint, d: Endpoint,
                    max: nat, r: Option<Endpoint>)
    requires i < |v.nats| && AllGrew(nats, v.nats) && Hopped(v, u, i, c, index, internal, d, max, r)
    ensures AllGrew(nats, u.nats)
  {
    forall h | 0 <= h < |nats| && nats[h].changes == [] ensures Grew(nats[h], u.nats[h]) {
      assert Grew(nats[h], v.nats[h]);
      if h == i {
        HopGrows(v, u, i, c, index, internal, d, max, r);
        GrewTwice(nats[h], v.nats[h], u.nats[h]);
      }
    }
  }
}
