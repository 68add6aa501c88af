/** The simulated network itself (internal/natsim/network.go, internal/natsim/packetconn.go):
    sends, deliveries, reads, closes and behaviour changes. One method is one locked section. */
module NatNetwork {
  import opened Basics
  import opened Identifiers
  import opened NatTables
  import opened NatUpdates
  import opened NatPorts
  import opened NatPaths
  import opened NatLineage
  import opened NatConns
  import opened NatHops

  function Queued(c: Conn, packet: seq<nat>, source: Endpoint): Conn {
    c.(queue := c.queue + [Datagram(packet, source)])
  }

  /** The oldest datagram is in the hands of a reader. */
  function Handed(c: Conn): (k: Conn)
    requires c.queue != []
    ensures SameSeat(c, k) && k.shut == c.shut && [c.queue[0]] + k.queue == c.queue && k.reading == c.reading + 1
  {
    c.(queue := c.queue[1..], reading := c.reading + 1)
  }

  /** A packet offered to its target, or dropped. */
  function AfterForward(target: Option<nat>, conns: seq<Conn>, capacity: nat, packet: seq<nat>,
                        source: Endpoint): seq<Conn> {
    if target.Some? && target.value < |conns| && !conns[target.value].shut && |conns[target.value].queue| < capacity
    then conns[target.value := Queued(conns[target.value], packet, source)]
    else conns
  }

  /** The packet, seen as coming from `source`, went to the target of `d`. */
  ghost predicate Arrived(t: Tables, conns: seq<Conn>, next: seq<Conn>, direct: map<Endpoint, nat>, capacity: nat,
                          packet: seq<nat>, d: Endpoint, source: Endpoint) {
    && Coherent(t) && Owned(t.nats, conns) && ConnsOk(t.nats, conns)
    && next == AfterForward(Target(t, conns, direct, d, source), conns, capacity, packet, source)
  }

  datatype Outcome = Refused | Rejected | Sent(source: Endpoint)

  function NewNat(public: nat, model: Model, changes: seq<Change>): Nat {
    Nat(public, model, changes, 0, 0, map[], {}, model.portMin, model.seed)
  }

  /** Some of connection c's mappings are gone, nobody else's. */
  predicate Between(n: Nat, w: Nat, c: nat) {
    && w.model == n.model && w.public == n.public && w.changes == n.changes
    && (forall k :: k in w.mappings ==> k in n.mappings && w.mappings[k] == n.mappings[k])
    && (forall k :: k in n.mappings && n.mappings[k].conn != c ==> k in w.mappings)
  }

  /** Changes come into force after strictly growing packet counts, each with a model that is possible. */
  predicate ChangesOk(changes: seq<Change>) {
    && (forall j :: 0 <= j < |changes| ==> changes[j].after > 0 && ModelOk(changes[j].model))
    && (forall j :: 0 < j < |changes| ==> changes[j - 1].after < changes[j].after)
  }

  lemma {:induction false} LaterChange(changes: seq<Change>, j: nat, l: nat)
    requires ChangesOk(changes) && j < l < |changes|
    ensures 0 < changes[j].after < changes[l].after
  {
    if j < l - 1 { LaterChange(changes, j, l - 1); }
  }

  lemma ChangesOrdered(changes: seq<Change>)
    requires ChangesOk(changes)
    ensures forall j, l :: 0 <= j < l < |changes| ==> 0 < changes[j].after < changes[l].after
  {
    forall j, l | 0 <= j < l < |changes| ensures 0 < changes[j].after < changes[l].after { LaterChange(changes, j, l); }
  }

  lemma FewerKeys(m: map<Key, Mapping>, k: Key)
    requires k in m
    ensures |m - {k}| < |m|
  {
    assert (m - {k}).Keys == m.Keys - {k};
    assert |(m - {k}).Keys| == |m - {k}| && |m.Keys| == |m|;
  }

  lemma JoinKeepsKin(nats: seq<Nat>, n: Nat, conns: seq<Conn>)
    requires Owned(nats, conns) && ConnsOk(nats, conns) && Kin(nats, conns) && n.mappings == map[]
    ensures Owned(nats + [n], conns) && ConnsOk(nats + [n], conns) && Kin(nats + [n], conns)
  {
    var next := nats + [n];
    forall j, k | 0 <= j < |next| && k in next[j].mappings ensures OwnerIs(next, conns, j, k) {
      assert j != |nats| && next[j] == nats[j];
      assert OwnerIs(nats, conns, j, k);
    }
    forall c | 0 <= c < |conns| ensures ChainOk(conns[c].chain, |next|) { assert ChainOk(conns[c].chain, |nats|); }
    if Plain(next, conns) {
      PlainBefore(nats, conns, next, conns);
      LineageJoins(nats, n, conns);
    }
  }

  lemma GoneKeepsKin(nats: seq<Nat>, next: seq<Nat>, conns: seq<Conn>, c: nat)
    requires Kin(nats, conns) && ConnsOk(nats, conns) && |next| == |nats|
    requires forall i {:trigger Gone(nats[i], next[i], c)} :: 0 <= i < |nats| ==> Gone(nats[i], next[i], c)
    ensures Kin(next, conns) && SameFaces(nats, next)
  {
    assert SameFaces(nats, next) by {
      forall i | 0 <= i < |nats| ensures SameFace(nats[i], next[i]) { assert Gone(nats[i], next[i], c); }
    }
    if Lineage(nats, conns) { LineageForgets(nats, next, conns, c); }
    KinFaces(nats, next, conns);
  }

  lemma GoneOwnsNone(nats: seq<Nat>, next: seq<Nat>, c: nat)
    requires |next| == |nats|
    requires forall i {:trigger Gone(nats[i], next[i], c)} :: 0 <= i < |nats| ==> Gone(nats[i], next[i], c)
    ensures forall i, k :: 0 <= i < |next| && k in next[i].mappings ==> next[i].mappings[k].conn != c
  {
    forall i, k | 0 <= i < |next| && k in next[i].mappings ensures next[i].mappings[k].conn != c {
      assert Gone(nats[i], next[i], c);
    }
  }

  lemma {:induction false} NoneOpen(conns: seq<Conn>, n: nat)
    requires n <= |conns| && forall c :: 0 <= c < |conns| ==> !conns[c].open
    ensures OpenCount(conns, n) == 0
  {
    if n > 0 { NoneOpen(conns, n - 1); }
  }

  lemma {:induction false} NoneMapped(nats: seq<Nat>, n: nat)
    requires n <= |nats| && forall i :: 0 <= i < |nats| ==> nats[i].mappings == map[]
    ensures MappingCount(nats, n) == 0
  {
    if n > 0 { NoneMapped(nats, n - 1); }
  }

  /** With every connection closed no mapping, no route and no direct route is left. */
  lemma NobodyOpen(t: Tables, conns: seq<Conn>, direct: map<Endpoint, nat>)
    requires Coherent(t) && Owned(t.nats, conns) && DirectOk(conns, direct)
    requires forall c :: 0 <= c < |conns| ==> !conns[c].open
    ensures t.active == 0 && OpenCount(conns, |conns|) == 0 && direct == map[] && t.routes == map[]
  {
    forall i | 0 <= i < |t.nats| ensures t.nats[i].mappings == map[] {
      forall k ensures k !in t.nats[i].mappings {
        assert k in t.nats[i].mappings ==> OwnerIs(t.nats, conns, i, k);
      }
    }
    NoneOpen(conns, |conns|);
    NoneMapped(t.nats, |t.nats|);
    forall e ensures e !in direct { assert e in direct ==> DirectEntryOk(conns, direct, e); }
    forall rk ensures rk !in t.routes { assert rk in t.routes ==> RouteOk(t, rk); }
  }

  class Network {
    const maxConns: nat
    const maxMappings: nat
    const capacity: nat
    const maxDatagram: nat

    var names: set<string>
    var nats: seq<Nat>
    var owners: map<nat, nat>
    var routes: map<RouteKey, Route>
    var active: int
    var conns: seq<Conn>
    var direct: map<Endpoint, nat>
    var activeConns: int
    var closed: bool
    var queued: int
    var written: nat
    var delivered: nat
    var dropped: nat
    var rejected: nat

    function T(): Tables
      reads this`nats, this`owners, this`routes, this`active
    {
      Tables(nats, owners, routes, active)
    }

    ghost predicate TablesOk()
      reads this`nats, this`owners, this`routes, this`active, this`conns
    {
      Coherent(T()) && Owned(nats, conns) && ConnsOk(nats, conns)
    }

    /** Nobody shares an address behind the same NAT; in a plain network nobody shares a mapping. */
    ghost predicate Kinship()
      reads this`nats, this`conns
    {
      Kin(nats, conns) && Apart(conns)
    }

    ghost predicate CountsOk()
      reads this`conns, this`direct, this`queued, this`activeConns
    {
      && DirectOk(conns, direct) && QueuesOk(conns, capacity)
      && queued == Holding(conns, |conns|) && activeConns == OpenCount(conns, |conns|)
    }

    ghost predicate Inv()
      reads this
    {
      TablesOk() && Kinship() && CountsOk() && written == delivered + dropped + rejected
    }

    constructor (maxConns: nat, maxMappings: nat, capacity: nat, maxDatagram: nat)
      ensures Inv() && names == {} && nats == [] && conns == [] && owners == map[] && direct == map[]
      ensures active == 0 && activeConns == 0 && !closed
      ensures this.maxConns == maxConns && this.maxMappings == maxMappings
      ensures this.capacity == capacity && this.maxDatagram == maxDatagram
    {
      this.maxConns, this.maxMappings, this.capacity, this.maxDatagram := maxConns, maxMappings, capacity, maxDatagram;
      names, nats, owners, routes, active, conns, direct := {}, [], map[], map[], 0, [], map[];
      activeConns, closed, queued, written, delivered, dropped, rejected := 0, false, 0, 0, 0, 0, 0;
    }

    // ----- mappings come and go ------------------------------------------------------------------

    /** removeMappingLocked; its guards on the route and on the counter never fail. */
    method RemoveMapping(i: nat, k: Key)
      requires TablesOk() && i < |nats| && k in nats[i].mappings
      modifies this`nats, this`routes, this`active
      ensures TablesOk() && T() == AfterRemove(old(T()), i, k)
    {
      RemoveKeepsCoherent(T(), i, k);
      RemoveKeepsOwned(T(), i, k, conns);
      ActivePositive(T(), i, k);
      assert Routed(T(), i, k);
      var m := nats[i].mappings[k];
      var rk := RouteKeyOf(nats[i], m);
      if rk in routes && routes[rk] == Route(m.conn, m.index, i) { routes := routes - {rk}; }
      if active > 0 { active := active - 1; }
      nats := nats[i := WithoutMapping(nats[i], k)];
    }

    /** clearNATMappingsLocked */
    method ClearMappings(i: nat)
      requires TablesOk() && i < |nats|
      modifies this`nats, this`routes, this`active
      ensures TablesOk() && nats == old(nats)[i := old(nats)[i].(mappings := map[], used := {})]
    {
      while nats[i].mappings != map[]
        invariant TablesOk() && |nats| == |old(nats)|
        invariant nats == old(nats)[i := old(nats)[i].(mappings := nats[i].mappings, used := nats[i].used)]
        decreases |nats[i].mappings|
      {
        var k :| k in nats[i].mappings;
        FewerKeys(nats[i].mappings, k);
        RemoveMapping(i, k);
      }
      assert NatOk(nats[i]);
      EmptiedHoldsNoPort(nats[i]);
    }

    /** One round of applyChangesLocked: an address of another NAT stops it before anything is cleared. */
    method ApplyChange(i: nat) returns (ok: bool)
      requires TablesOk() && i < |nats| && Due(nats[i])
      modifies this`nats, this`owners, this`routes, this`active
      ensures TablesOk() && (ok <==> !Clashes(old(nats)[i], i, old(owners)))
      ensures !ok ==> T() == old(T())
      ensures ok ==>
        var n := old(nats)[i];
        && nats == old(nats)[i := Changed(n, DueAddress(n))]
        && owners == Readdressed(old(owners), i, n.public, DueAddress(n))
    {
      var public := DueAddress(nats[i]);
      if public in owners && owners[public] != i { return false; }
      ClearMappings(i);
      ReplaceNat(i, public);
      return true;
    }

    method ReplaceNat(i: nat, public: nat)
      requires TablesOk() && i < |nats| && nats[i].nextChange < |nats[i].changes| && nats[i].mappings == map[]
      requires public in owners ==> owners[public] == i
      modifies this`nats, this`owners
      ensures TablesOk() && nats == old(nats)[i := Changed(old(nats)[i], public)]
      ensures owners == Readdressed(old(owners), i, old(nats)[i].public, public)
    {
      ChangeKeepsCoherent(T(), i, public);
      FewerStayOwned(nats, AfterChange(T(), i, public).nats, conns);
      SizeOnly(nats, AfterChange(T(), i, public).nats, conns);
      var u := AfterChange(T(), i, public);
      nats, owners := u.nats, u.owners;
    }

    /** applyChangesLocked */
    method ApplyChanges(i: nat) returns (ok: bool)
      requires TablesOk() && i < |nats|
      modifies this`nats, this`owners, this`routes, this`active
      ensures TablesOk()
      ensures
        var s := Settle(old(nats)[i], i, old(owners));
        ok == s.ok && nats == old(nats)[i := s.box] && owners == s.owners
    {
      while Due(nats[i])
        invariant TablesOk() && |nats| == |old(nats)| && nats == old(nats)[i := nats[i]]
        invariant Settle(nats[i], i, owners) == Settle(old(nats)[i], i, old(owners))
        decreases |nats[i].changes| - nats[i].nextChange
      {
        ok := ApplyChange(i);
        if !ok { return; }
      }
      return true;
    }

    // ----- outbound through one NAT ---------------------------------------------------------------

    method SetCounters(i: nat, w: Nat)
      requires TablesOk() && i < |nats| && SameTables(nats[i], w)
      modifies this`nats
      ensures TablesOk() && nats == old(nats)[i := w]
    {
      CountersKeepCoherent(T(), i, w);
      FewerStayOwned(nats, nats[i := w], conns);
      SizeOnly(nats, nats[i := w], conns);
      nats := nats[i := w];
    }

    method Reuse(i: nat, k: Key, d: Endpoint)
      requires TablesOk() && i < |nats| && k in nats[i].mappings
      modifies this`nats
      ensures TablesOk() && nats == old(nats)[i := WithReuse(old(nats)[i], k, d)]
    {
      ReuseKeepsCoherent(T(), i, k, d);
      FewerStayOwned(nats, nats[i := WithReuse(nats[i], k, d)], conns);
      SizeOnly(nats, nats[i := WithReuse(nats[i], k, d)], conns);
      nats := nats[i := WithReuse(nats[i], k, d)];
    }

    method Insert(i: nat, m: Mapping)
      requires TablesOk() && i < |nats| && Fresh(nats[i], m)
      requires m.conn < |conns| && conns[m.conn].open
      requires m.index < |conns[m.conn].chain| && conns[m.conn].chain[m.index] == i
      modifies this`nats, this`routes, this`active
      ensures TablesOk() && T() == AfterAdd(old(T()), i, m)
    {
      AddKeepsCoherent(T(), i, m);
      var u := AfterAdd(T(), i, m);
      assert Owned(u.nats, conns) by {
        forall j, k | 0 <= j < |u.nats| && k in u.nats[j].mappings ensures OwnerIs(u.nats, conns, j, k) {
          if !(j == i && k == m.key) { assert OwnerIs(nats, conns, j, k); }
        }
      }
      SizeOnly(nats, u.nats, conns);
      nats, routes, active := u.nats, u.routes, u.active;
    }

    /** A new mapping for a key that has none, as long as the network and the port range have room. */
    method MakeMapping(c: nat, index: nat, internal: Endpoint, d: Endpoint) returns (ok: bool)
      requires TablesOk() && c < |conns| && conns[c].open
      requires index < |conns[c].chain| && conns[c].chain[index] < |nats|
      requires KeyFor(nats[conns[c].chain[index]].model, internal, d) !in nats[conns[c].chain[index]].mappings
      modifies this`nats, this`routes, this`active
      ensures TablesOk() && |nats| == |old(nats)|
      ensures
        var i := conns[c].chain[index];
        var n := old(nats)[i];
        && nats == old(nats)[i := nats[i]] && (ok <==> old(active) < maxMappings && CanAllocate(n, d))
        && Extends(n, nats[i], KeyFor(n.model, internal, d), ok, c, index)
        && Searched(n, nats[i], old(active) < maxMappings, internal, d,
             if ok then Some(nats[i].mappings[KeyFor(n.model, internal, d)].external) else None)
    {
      var i := conns[c].chain[index];
      var n := nats[i];
      assert NatOk(nats[i]);
      if active >= maxMappings { return false; }
      var port, cursor, random := AllocatePort(n, internal.port, d);
      SetCounters(i, n.(cursor := cursor, random := random));
      if port == None { return false; }
      Insert(i, Mapping(KeyFor(n.model, internal, d), Endpoint(n.public, port.value), c, index, {}, {}, []));
      return true;
    }

    /** translateOutboundLocked */
    method Translate(c: nat, index: nat, internal: Endpoint, d: Endpoint) returns (r: Option<Endpoint>)
      requires TablesOk() && c < |conns| && conns[c].open
      requires index < |conns[c].chain| && conns[c].chain[index] < |nats|
      modifies this`nats, this`owners, this`routes, this`active
      ensures TablesOk() && |nats| == |old(nats)|
      ensures Hopped(old(T()), T(), conns[c].chain[index], c, index, internal, d, maxMappings, r)
      ensures r.Some? ==> Carried(nats[conns[c].chain[index]], internal, d, r.value)
    {
      var i := conns[c].chain[index];
      ghost var n := nats[i];
      var fine := ApplyChanges(i);
      CountUpdate(old(nats), i, nats[i], |nats|);
      if !fine { return None; }
      r := CarryOut(c, index, internal, d);
    }

    method CarryOut(c: nat, index: nat, internal: Endpoint, d: Endpoint) returns (r: Option<Endpoint>)
      requires TablesOk() && c < |conns| && conns[c].open
      requires index < |conns[c].chain| && conns[c].chain[index] < |nats|
      modifies this`nats, this`routes, this`active
      ensures TablesOk() && |nats| == |old(nats)|
      ensures
        var i := conns[c].chain[index];
        && nats == old(nats)[i := nats[i]]
        && Translated(old(nats)[i], nats[i], old(active) < maxMappings, c, index, internal, d, r)
    {
      var i := conns[c].chain[index];
      assert NatOk(nats[i]);
      SetCounters(i, nats[i].(outbound := nats[i].outbound + 1));
      if nats[i].model.blocked { return None; }
      var k := KeyFor(nats[i].model, internal, d);
      if k in nats[i].mappings {
        Reuse(i, k, d);
        return Some(nats[i].mappings[k].external);
      }
      r := CarryNew(c, index, internal, d);
      SearchedCounts(old(nats)[i], old(nats)[i].(outbound := old(nats)[i].outbound + 1), nats[i], nats[i],
        old(active) < maxMappings, internal, d, r);
    }

    /** A packet that needs a new mapping. */
    method CarryNew(c: nat, index: nat, internal: Endpoint, d: Endpoint) returns (r: Option<Endpoint>)
      requires TablesOk() && c < |conns| && conns[c].open
      requires index < |conns[c].chain| && conns[c].chain[index] < |nats|
      requires KeyFor(nats[conns[c].chain[index]].model, internal, d) !in nats[conns[c].chain[index]].mappings
      modifies this`nats, this`routes, this`active
      ensures TablesOk() && |nats| == |old(nats)|
      ensures
        var i := conns[c].chain[index];
        var n, w, k := old(nats)[i], nats[i], KeyFor(old(nats)[i].model, internal, d);
        && nats == old(nats)[i := w] && SameConfig(n, w) && w.outbound == n.outbound
        && (r.Some? <==> old(active) < maxMappings && CanAllocate(n, d))
        && (if r == None then w.mappings == n.mappings
            else Carries(n, w, k, c, index, d) && w.mappings[k].external == r.value)
        && Searched(n, w, old(active) < maxMappings, internal, d, r)
    {
      var i := conns[c].chain[index];
      var k := KeyFor(nats[i].model, internal, d);
      var made := MakeMapping(c, index, internal, d);
      if !made { return None; }
      Reuse(i, k, d);
      return Some(nats[i].mappings[k].external);
    }

    // ----- delivery ---------------------------------------------------------------------------------

    /** Replace one connection; `change` is what the queue counter has to follow. */
    method SetConn(c: nat, k: Conn, change: int)
      requires TablesOk() && Kinship() && CountsOk() && c < |conns| && SameSeat(conns[c], k) && QueueOk(k, capacity)
      requires change == |k.queue| + k.reading - |conns[c].queue| - conns[c].reading
      modifies this`conns, this`queued
      ensures TablesOk() && Kinship() && CountsOk() && conns == old(conns)[c := k] && queued == old(queued) + change
    {
      SameSeatKeeps(nats, conns, direct, capacity, c, k);
      SameSeatApart(conns, c, k);
      KinSeats(nats, conns, conns[c := k]);
      HoldingUpdate(conns, c, k, |conns|);
      OpenUpdate(conns, c, k, |conns|);
      queued := queued + change;
      conns := conns[c := k];
    }

    /** deliverLocked: a full queue or a closed connection drops. */
    method Deliver(c: nat, packet: seq<nat>, source: Endpoint)
      requires TablesOk() && Kinship() && CountsOk() && c < |conns| && conns[c].open
      modifies this`conns, this`queued, this`delivered, this`dropped
      ensures TablesOk() && Kinship() && CountsOk()
      ensures
        var fits := !old(conns)[c].shut && |old(conns)[c].queue| < capacity;
        && conns == (if fits then old(conns)[c := Queued(old(conns)[c], packet, source)] else old(conns))
        && delivered == old(delivered) + (if fits then 1 else 0) && dropped == old(dropped) + (if fits then 0 else 1)
    {
      if conns[c].shut || |conns[c].queue| >= capacity {
        dropped := dropped + 1;
        return;
      }
      assert QueueOk(conns[c], capacity);
      SetConn(c, Queued(conns[c], packet, source), 1);
      delivered := delivered + 1;
    }

    /** A reader takes one datagram out of the queue; the counter learns of it later. */
    method TakeOne(c: nat) returns (got: Option<Datagram>)
      requires Inv() && c < |conns|
      modifies this`conns, this`queued
      ensures Inv() && queued == old(queued)
      ensures got == if old(conns)[c].queue == [] then None else Some(old(conns)[c].queue[0])
      ensures conns == if got == None then old(conns) else old(conns)[c := Handed(old(conns)[c])]
    {
      if conns[c].queue == [] { return None; }
      got := Some(conns[c].queue[0]);
      assert QueueOk(conns[c], capacity);
      SetConn(c, Handed(conns[c]), 0);
    }

    /** consumeQueued; the counter is never already zero here. */
    method ReportTaken(c: nat)
      requires Inv() && c < |conns| && conns[c].reading > 0
      modifies this`conns, this`queued
      ensures Inv() && queued == old(queued) - 1 && queued >= 0
      ensures conns == old(conns)[c := old(conns)[c].(reading := old(conns)[c].reading - 1)]
    {
      assert QueueOk(conns[c], capacity);
      SetConn(c, conns[c].(reading := conns[c].reading - 1), -1);
    }

    // ----- transmit ---------------------------------------------------------------------------------

    /** translateInboundLocked: at most one mapping matches, whatever order the table is searched in. */
    method TranslateIn(i: nat, external: Endpoint, source: Endpoint) returns (r: Option<Endpoint>)
      requires TablesOk() && i < |nats|
      ensures r == Inward(nats[i], external, source)
    {
      assert NatOk(nats[i]);
      var n := nats[i];
      if k :| k in n.mappings && Matches(n, k, external, source) {
        InwardIs(n, k, external, source);
        return if Lets(n.model.filtering, n.mappings[k], source) then Some(k.internal) else None;
      }
      return None;
    }

    method WalkIn(chain: seq<nat>, depth: nat, external: Endpoint, source: Endpoint) returns (r: Option<Endpoint>)
      requires TablesOk() && depth <= |chain| && Known(nats, chain)
      ensures r == Walk(nats, chain, depth, external, source)
    {
      r := Some(external);
      var left := depth;
      while left > 0 && r.Some?
        invariant 0 <= left <= depth
        invariant r.Some? ==> Walk(nats, chain, depth, external, source) == Walk(nats, chain, left, r.value, source)
        invariant r == None ==> Walk(nats, chain, depth, external, source) == None
      {
        r := TranslateIn(chain[left - 1], r.value, source);
        left := left - 1;
      }
    }

    /** Where a translated packet goes. */
    method Resolve(d: Endpoint, source: Endpoint) returns (target: Option<nat>)
      requires TablesOk() && CountsOk()
      ensures target == Target(T(), conns, direct, d, source)
      ensures target.Some? ==> target.value < |conns| && conns[target.value].open
    {
      if d in direct {
        assert DirectEntryOk(conns, direct, d);
        return Some(direct[d]);
      }
      var route := Lookup(routes, d, source);
      if route == None { return None; }
      RouteTargetsExist(T(), conns, d, source);
      var c := conns[route.value.conn];
      if c.shut { return None; }
      var local := WalkIn(c.chain, route.value.index + 1, d, source);
      assert QueueOk(conns[route.value.conn], capacity);
      return if local == Some(c.local) then Some(route.value.conn) else None;
    }

    /** Every NAT of the chain in turn; the first failure rejects the packet. */
    method TranslateAll(c: nat, d: Endpoint) returns (source: Option<Endpoint>)
      requires TablesOk() && Kinship() && c < |conns| && conns[c].open
      modifies this`nats, this`owners, this`routes, this`active
      ensures TablesOk() && Kinship() && SameFaces(old(nats), nats) && AllGrew(old(nats), nats)
      ensures source.Some? ==> Left(old(T()), T(), conns, c, d, source.value)
      ensures source == None ==> Failed(old(T()), T(), conns, c, d, maxMappings)
      ensures conns[c].chain == [] ==> T() == old(T())
    {
      var chain, local := conns[c].chain, conns[c].local;
      assert ChainOk(conns[c].chain, |nats|);
      source := Some(local);
      var index := 0;
      while index < |chain|
        invariant 0 <= index <= |chain| && TablesOk() && Kinship()
        invariant Known(nats, chain) && Known(old(nats), chain) && AllGrew(old(nats), nats)
        invariant HopsDone(old(T()), T(), conns[c], c, d, index)
        invariant source.Some? && Mapped(nats, chain, local, d, index) == source && Used(nats, chain, local, d, index)
        invariant chain == [] ==> T() == old(T())
      {
        source := TranslateNext(c, d, index, source.value, old(T()));
        if source == None { return; }
        index := index + 1;
      }
    }

    /** One round of that loop. */
    method TranslateNext(c: nat, d: Endpoint, index: nat, inner: Endpoint, ghost start: Tables)
      returns (source: Option<Endpoint>)
      requires TablesOk() && Kinship() && c < |conns| && conns[c].open && index < |conns[c].chain|
      requires Known(nats, conns[c].chain) && Known(start.nats, conns[c].chain) && AllGrew(start.nats, nats)
      requires HopsDone(start, T(), conns[c], c, d, index)
      requires Mapped(nats, conns[c].chain, conns[c].local, d, index) == Some(inner)
      requires Used(nats, conns[c].chain, conns[c].local, d, index)
      modifies this`nats, this`owners, this`routes, this`active
      ensures TablesOk() && Kinship() && Known(nats, conns[c].chain)
      ensures SameFaces(start.nats, nats) && AllGrew(start.nats, nats)
      ensures source.Some? ==>
        && HopsDone(start, T(), conns[c], c, d, index + 1)
        && Mapped(nats, conns[c].chain, conns[c].local, d, index + 1) == source
        && Used(nats, conns[c].chain, conns[c].local, d, index + 1)
      ensures source == None ==>
        Stops(start.nats, nats, conns[c].chain, conns[c].local, d, start.active, maxMappings, index)
    {
      ghost var before := T();
      assert ChainOk(conns[c].chain, |nats|);
      source := Translate(c, index, inner, d);
      PathFrame(before.nats, nats, conns[c].chain, conns[c].local, d, index);
      HopsAdvance(start, before, T(), conns, c, d, index, maxMappings, source);
      HopGrowsAll(start.nats, before, T(), conns[c].chain[index], c, index, inner, d, maxMappings, source);
    }

    method Transmit(c: nat, packet: seq<nat>, d: Endpoint) returns (r: Outcome)
      requires Inv() && c < |conns|
      modifies this
      ensures Inv() && direct == old(direct) && names == old(names) && closed == old(closed)
      ensures |conns| == |old(conns)| && SameFaces(old(nats), nats) && AllGrew(old(nats), nats)
      ensures r.Refused? <==> old(closed || conns[c].shut || !conns[c].open)
      ensures r.Refused? ==> written == old(written) && T() == old(T())
      ensures !r.Refused? ==> written == old(written) + 1
      ensures rejected == old(rejected) + if r.Rejected? then 1 else 0
      ensures !r.Sent? ==> conns == old(conns)
      ensures r.Sent? ==>
        && |packet| <= maxDatagram && Left(old(T()), T(), old(conns), c, d, r.source)
        && Arrived(T(), old(conns), conns, direct, capacity, packet, d, r.source)
      ensures r.Rejected? ==> |packet| > maxDatagram || Failed(old(T()), T(), old(conns), c, d, maxMappings)
      ensures old(conns)[c].chain == [] ==> T() == old(T())
      ensures delivered == old(delivered) + if conns != old(conns) then 1 else 0
    {
      if closed || conns[c].shut || !conns[c].open {
        NothingGrew(nats);
        return Refused;
      }
      var source := Account(c, packet, d);
      return if source == None then Rejected else Sent(source.value);
    }

    /** Every packet accepted for sending is counted once more when its fate is known. */
    method Account(c: nat, packet: seq<nat>, d: Endpoint) returns (source: Option<Endpoint>)
      requires Inv() && c < |conns| && conns[c].open
      modifies this`nats, this`owners, this`routes, this`active, this`conns, this`queued
      modifies this`written, this`delivered, this`dropped, this`rejected
      ensures Inv() && written == old(written) + 1 && rejected == old(rejected) + if source == None then 1 else 0
      ensures |conns| == |old(conns)| && SameFaces(old(nats), nats) && AllGrew(old(nats), nats)
      ensures source == None ==>
        && conns == old(conns)
        && (|packet| > maxDatagram || Failed(old(T()), T(), old(conns), c, d, maxMappings))
      ensures source.Some? ==>
        && |packet| <= maxDatagram && Left(old(T()), T(), old(conns), c, d, source.value)
        && Arrived(T(), old(conns), conns, direct, capacity, packet, d, source.value)
      ensures old(conns)[c].chain == [] ==> T() == old(T())
      ensures delivered == old(delivered) + if conns != old(conns) then 1 else 0
    {
      written := written + 1;
      if |packet| > maxDatagram {
        rejected := rejected + 1;
        NothingGrew(nats);
        return None;
      }
      source := SendOut(c, packet, d);
      if source == None { rejected := rejected + 1; }
    }

    method SendOut(c: nat, packet: seq<nat>, d: Endpoint) returns (source: Option<Endpoint>)
      requires TablesOk() && Kinship() && CountsOk() && c < |conns| && conns[c].open
      modifies this`nats, this`owners, this`routes, this`active, this`conns, this`queued, this`delivered, this`dropped
      ensures TablesOk() && Kinship() && CountsOk() && |conns| == |old(conns)|
      ensures SameFaces(old(nats), nats) && AllGrew(old(nats), nats)
      ensures source == None ==>
        && conns == old(conns) && delivered == old(delivered) && dropped == old(dropped)
        && Failed(old(T()), T(), old(conns), c, d, maxMappings)
      ensures source.Some? ==>
        && delivered + dropped == old(delivered) + old(dropped) + 1
        && delivered == old(delivered) + (if conns != old(conns) then 1 else 0)
        && Left(old(T()), T(), old(conns), c, d, source.value)
        && Arrived(T(), old(conns), conns, direct, capacity, packet, d, source.value)
      ensures old(conns)[c].chain == [] ==> T() == old(T())
    {
      source := TranslateAll(c, d);
      if source.Some? { Forward(packet, d, source.value); }
    }

    /** Deliver to the target, or count a drop. */
    method Forward(packet: seq<nat>, d: Endpoint, source: Endpoint)
      requires TablesOk() && Kinship() && CountsOk()
      modifies this`conns, this`queued, this`delivered, this`dropped
      ensures TablesOk() && Kinship() && CountsOk() && delivered + dropped == old(delivered) + old(dropped) + 1
      ensures delivered == old(delivered) + if conns != old(conns) then 1 else 0
      ensures Arrived(T(), old(conns), conns, direct, capacity, packet, d, source)
    {
      var target := Resolve(d, source);
      if target == None {
        dropped := dropped + 1;
      } else {
        Deliver(target.value, packet, source);
      }
    }

    // ----- set-up and closing ---------------------------------------------------------------------------

    method AddNat(name: string, public: nat, model: Model, changes: seq<Change>) returns (i: Option<nat>)
      requires Inv()
      modifies this`names, this`nats, this`owners
      ensures Inv()
      ensures i.Some? <==>
        && Canonical(name) && ModelOk(model) && ChangesOk(changes) && !closed
        && name !in old(names) && public !in old(owners)
      ensures i == None ==> T() == old(T()) && names == old(names)
      ensures i.Some? ==>
        && i.value == |old(nats)| && nats == old(nats) + [NewNat(public, model, changes)]
        && names == old(names) + {name} && owners == old(owners)[public := i.value]
      ensures i.Some? ==> forall j, l :: 0 <= j < l < |changes| ==> 0 < changes[j].after < changes[l].after
    {
      if !Canonical(name) || !ModelOk(model) || !ChangesOk(changes) { return None; }
      if closed || name in names || public in owners { return None; }
      ChangesOrdered(changes);
      var n := NewNat(public, model, changes);
      JoinKeepsCoherent(T(), n);
      JoinKeepsKin(nats, n, conns);
      var u := AfterJoin(T(), n);
      i := Some(|nats|);
      names, nats, owners := names + {name}, u.nats, u.owners;
    }

    /** An open endpoint already sits at this address behind the same inner NAT. */
    predicate AddressTaken(local: Endpoint, chain: seq<nat>)
      reads this
    {
      exists c :: 0 <= c < |conns| && conns[c].open && conns[c].local == local
        && InnerNat(conns[c].chain) == InnerNat(chain)
    }

    method AddConn(local: Endpoint, chain: seq<nat>) returns (c: Option<nat>)
      requires Inv()
      modifies this`conns, this`direct, this`activeConns
      ensures Inv()
      ensures c.Some? <==>
        && ChainOk(chain, |nats|) && !closed && old(activeConns) < maxConns
        && (forall x :: 0 <= x < |old(conns)| && old(conns)[x].open && old(conns)[x].local == local ==>
             InnerNat(old(conns)[x].chain) != InnerNat(chain))
        && (chain == [] ==> local !in old(direct))
      ensures c == None ==> conns == old(conns) && direct == old(direct)
      ensures c.Some? ==>
        && c.value == |old(conns)| && conns == old(conns) + [Conn(local, chain, true, false, [], 0)]
        && activeConns == old(activeConns) + 1
        && direct == if chain == [] then old(direct)[local := c.value] else old(direct)
    {
      if !ChainOk(chain, |nats|) || closed || activeConns >= maxConns || AddressTaken(local, chain) { return None; }
      if chain == [] && local in direct { return None; }
      c := Some(|conns|);
      Seat(Conn(local, chain, true, false, [], 0));
    }

    /** A new connection takes its place. */
    method Seat(k: Conn)
      requires Inv() && !AddressTaken(k.local, k.chain) && (k.chain == [] ==> k.local !in direct)
      requires ChainOk(k.chain, |nats|) && k.open && k.queue == [] && k.reading == 0
      modifies this`conns, this`direct, this`activeConns
      ensures Inv() && conns == old(conns) + [k] && activeConns == old(activeConns) + 1
      ensures direct == if k.chain == [] then old(direct)[k.local := |old(conns)|] else old(direct)
    {
      TotalsPrefix(conns, [k], |conns|);
      NewSeatApart(conns, k);
      KinSeats(nats, conns, conns + [k]);
      conns := conns + [k];
      activeConns := activeConns + 1;
      if k.chain == [] { direct := direct[k.local := |conns| - 1]; }
      JoinKeeps(old(conns), k, nats, old(direct), direct, capacity);
      assert conns[..|old(conns)|] == old(conns);
    }

    /** PacketConn.Close marks the connection before it takes the network's lock. */
    method ShutConn(c: nat)
      requires Inv() && c < |conns|
      modifies this`conns, this`queued
      ensures Inv() && conns == old(conns)[c := old(conns)[c].(shut := true)]
    {
      assert QueueOk(conns[c], capacity);
      SetConn(c, conns[c].(shut := true), 0);
    }

    /** removeConnectionMappingsLocked over every NAT: exactly this connection's mappings go. */
    method ForgetMappings(c: nat)
      requires TablesOk() && Kinship()
      modifies this`nats, this`routes, this`active
      ensures TablesOk() && Kinship() && |nats| == |old(nats)|
      ensures forall i {:trigger Gone(old(nats)[i], nats[i], c)} :: 0 <= i < |nats| ==> Gone(old(nats)[i], nats[i], c)
    {
      for i := 0 to |nats|
        invariant TablesOk() && |nats| == |old(nats)|
        invariant forall j {:trigger Gone(old(nats)[j], nats[j], c)} :: 0 <= j < i ==> Gone(old(nats)[j], nats[j], c)
        invariant forall j :: i <= j < |nats| ==> nats[j] == old(nats)[j]
      {
        ForgetIn(i, c);
      }
      GoneKeepsKin(old(nats), nats, conns, c);
    }

    method ForgetIn(i: nat, c: nat)
      requires TablesOk() && i < |nats|
      modifies this`nats, this`routes, this`active
      ensures TablesOk() && |nats| == |old(nats)| && nats == old(nats)[i := nats[i]]
      ensures Gone(old(nats)[i], nats[i], c)
    {
      while exists k :: k in nats[i].mappings && nats[i].mappings[k].conn == c
        invariant TablesOk() && |nats| == |old(nats)| && nats == old(nats)[i := nats[i]]
        invariant Between(old(nats)[i], nats[i], c)
        decreases |nats[i].mappings|
      {
        var k :| k in nats[i].mappings && nats[i].mappings[k].conn == c;
        FewerKeys(nats[i].mappings, k);
        RemoveMapping(i, k);
      }
    }

    /** closePacketConn: routes, mappings and queued packets all go. */
    method CloseConn(c: nat)
      requires Inv() && c < |conns| && conns[c].shut
      modifies this`nats, this`routes, this`active, this`conns, this`direct, this`queued, this`activeConns
      ensures Inv() && conns == old(conns)[c := old(conns)[c].(open := false, queue := [])]
      ensures |nats| == |old(nats)| && closed == old(closed)
      ensures !old(conns)[c].open ==> T() == old(T())
      ensures old(conns)[c].open ==>
        forall i {:trigger Gone(old(nats)[i], nats[i], c)} :: 0 <= i < |nats| ==> Gone(old(nats)[i], nats[i], c)
    {
      assert QueueOk(conns[c], capacity);
      if !conns[c].open { return; }
      ForgetMappings(c);
      GoneOwnsNone(old(nats), nats, c);
      Retire(c);
    }

    /** With no mapping left, the direct route goes, the queue is drained and the slot is given back.
        The guard on the direct route and those on the counters never fail. */
    method Retire(c: nat)
      requires Inv() && c < |conns| && conns[c].open && conns[c].shut
      requires forall i, k :: 0 <= i < |nats| && k in nats[i].mappings ==> nats[i].mappings[k].conn != c
      modifies this`conns, this`direct, this`queued, this`activeConns
      ensures Inv() && conns == old(conns)[c := old(conns)[c].(open := false, queue := [])]
    {
      var k := conns[c].(open := false, queue := []);
      RetireKeeps(nats, conns, direct, capacity, c, k);
      SameSeatApart(conns, c, k);
      KinSeats(nats, conns, conns[c := k]);
      HoldingUpdate(conns, c, k, |conns|);
      OpenUpdate(conns, c, k, |conns|);
      assert Reachable(conns, direct, c);
      if conns[c].chain == [] && conns[c].local in direct && direct[conns[c].local] == c {
        direct := direct - {conns[c].local};
      }
      queued := queued - |conns[c].queue|;
      if activeConns > 0 { activeConns := activeConns - 1; }
      conns := conns[c := k];
    }

    method MarkClosed()
      requires Inv()
      modifies this`closed
      ensures Inv() && closed
    {
      closed := true;
    }

    /** Network.Close: first nothing more is accepted, then every connection is closed. Nothing is left but the
        datagrams that readers have taken and not yet reported. */
    method Close()
      requires Inv()
      modifies this
      ensures Inv() && closed && |conns| == |old(conns)| && |nats| == |old(nats)|
      ensures old(closed) ==> T() == old(T()) && conns == old(conns)
      ensures !old(closed) ==>
        && active == 0 && activeConns == 0 && direct == map[] && routes == map[]
        && (forall c :: 0 <= c < |conns| ==> !conns[c].open && conns[c].queue == [])
    {
      if closed { return; }
      MarkClosed();
      for c := 0 to |conns|
        invariant Inv() && closed && |conns| == |old(conns)| && |nats| == |old(nats)|
        invariant forall j :: 0 <= j < c ==> !conns[j].open && conns[j].queue == []
      {
        ShutConn(c);
        CloseConn(c);
      }
      NobodyOpen(T(), conns, direct);
    }
  }
}
