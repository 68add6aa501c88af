/** Whose packets a mapping carries. In a plainly configured network every mapping descends from the local
    address of the one connection that made it, so no two connections ever share one. */
module NatLineage {
  import opened Basics
  import opened NatTables
  import opened NatUpdates
  import opened NatPaths

  // ----- the configuration --------------------------------------------------------------------------

  /** Behind a NAT that gives one port to several destinations the next NAT has to tell destinations apart. */
  predicate TellsApart(nats: seq<Nat>, chain: seq<nat>, j: nat)
    requires Known(nats, chain) && j + 1 < |chain|
  {
    nats[chain[j]].model.reuse ==> nats[chain[j + 1]].model.dependent
  }

  predicate ChainPlain(nats: seq<Nat>, chain: seq<nat>) {
    && Known(nats, chain)
    && forall j {:trigger TellsApart(nats, chain, j)} :: 0 <= j < |chain| - 1 ==> TellsApart(nats, chain, j)
  }

  predicate Unchanging(n: Nat) { n.changes == [] }

  predicate Collides(c: Conn, n: Nat) { c.local.addr == n.public }

  /** What a caller decides when it sets the network up: no behaviour changes, no connection on a NAT's public
      address, and port reuse only where the next NAT tells destinations apart (or is not there). */
  ghost predicate Plain(nats: seq<Nat>, conns: seq<Conn>) {
    && (forall i {:trigger Unchanging(nats[i])} :: 0 <= i < |nats| ==> Unchanging(nats[i]))
    && (forall c {:trigger ChainPlain(nats, conns[c].chain)} :: 0 <= c < |conns| ==> ChainPlain(nats, conns[c].chain))
    && (forall c, i {:trigger Collides(conns[c], nats[i])} :: 0 <= c < |conns| && 0 <= i < |nats| ==>
       !Collides(conns[c], nats[i]))
  }

  /** A NAT that never changes keeps its public face. */
  predicate SameFace(n: Nat, w: Nat) {
    w.changes == n.changes && (n.changes == [] ==> w.public == n.public && w.model == n.model)
  }

  ghost predicate SameFaces(nats: seq<Nat>, next: seq<Nat>) {
    |next| == |nats| && forall i {:trigger SameFace(nats[i], next[i])} :: 0 <= i < |nats| ==> SameFace(nats[i], next[i])
  }

  lemma FacesTwice(a: seq<Nat>, b: seq<Nat>, c: seq<Nat>)
    requires SameFaces(a, b) && SameFaces(b, c)
    ensures SameFaces(a, c)
  {
    forall i | 0 <= i < |a| ensures SameFace(a[i], c[i]) { assert SameFace(a[i], b[i]) && SameFace(b[i], c[i]); }
  }

  lemma OneFace(nats: seq<Nat>, i: nat, w: Nat)
    requires i < |nats| && SameFace(nats[i], w)
    ensures SameFaces(nats, nats[i := w])
  {
  }

  lemma ChainsKeepPlain(nats: seq<Nat>, next: seq<Nat>, chain: seq<nat>)
    requires |nats| <= |next| && Known(nats, chain)
    requires forall i :: 0 <= i < |nats| ==> next[i].model == nats[i].model
    ensures ChainPlain(nats, chain) <==> ChainPlain(next, chain)
  {
    forall j | 0 <= j < |chain| - 1 ensures TellsApart(nats, chain, j) == TellsApart(next, chain, j) { }
  }

  /** The configuration outlives every step that only moves tables. */
  lemma FacesKeepPlain(nats: seq<Nat>, next: seq<Nat>, conns: seq<Conn>)
    requires SameFaces(nats, next) && ConnsOk(nats, conns)
    ensures Plain(nats, conns) <==> Plain(next, conns)
  {
    if Plain(nats, conns) || Plain(next, conns) {
      forall i | 0 <= i < |nats| ensures Unchanging(nats[i]) && Unchanging(next[i]) && next[i].model == nats[i].model
        && next[i].public == nats[i].public {
        assert SameFace(nats[i], next[i]);
        assert Plain(nats, conns) ==> Unchanging(nats[i]);
        assert Plain(next, conns) ==> Unchanging(next[i]);
      }
      forall c | 0 <= c < |conns| ensures ChainPlain(nats, conns[c].chain) && ChainPlain(next, conns[c].chain) {
        assert ChainOk(conns[c].chain, |nats|);
        ChainsKeepPlain(nats, next, conns[c].chain);
        assert Plain(nats, conns) ==> ChainPlain(nats, conns[c].chain);
        assert Plain(next, conns) ==> ChainPlain(next, conns[c].chain);
      }
      forall c, i | 0 <= c < |conns| && 0 <= i < |nats| ensures !Collides(conns[c], nats[i])
        && !Collides(conns[c], next[i]) {
        assert Plain(nats, conns) ==> !Collides(conns[c], nats[i]);
        assert Plain(next, conns) ==> !Collides(conns[c], next[i]);
      }
    }
  }

  // ----- descent --------------------------------------------------------------------------------------

  /** Mapping k of NAT i continues mapping k0 of the NAT before it, for the same connection. */
  predicate Child(nats: seq<Nat>, conns: seq<Conn>, i: nat, k: Key, k0: Key)
    requires i < |nats| && k in nats[i].mappings && OwnerIs(nats, conns, i, k) && nats[i].mappings[k].index > 0
  {
    var m := nats[i].mappings[k];
    var j := conns[m.conn].chain[m.index - 1];
    && j < |nats| && k0 in nats[j].mappings
    && nats[j].mappings[k0].conn == m.conn && nats[j].mappings[k0].index == m.index - 1
    && nats[j].mappings[k0].external == k.internal
    && (nats[j].model.reuse ==> k0.destination == k.destination)
  }

  ghost predicate Descends(nats: seq<Nat>, conns: seq<Conn>, i: nat, k: Key)
    requires i < |nats| && k in nats[i].mappings
  {
    OwnerIs(nats, conns, i, k) &&
    var m := nats[i].mappings[k];
    if m.index == 0 then k.internal == conns[m.conn].local else exists k0 :: Child(nats, conns, i, k, k0)
  }

  ghost predicate Lineage(nats: seq<Nat>, conns: seq<Conn>) {
    forall i, k {:trigger Descends(nats, conns, i, k)} ::
      0 <= i < |nats| && k in nats[i].mappings ==> Descends(nats, conns, i, k)
  }

  function InnerNat(chain: seq<nat>): Option<nat> { if chain == [] then None else Some(chain[0]) }

  /** Two open connections never have the same address behind the same inner NAT. */
  predicate Differ(conns: seq<Conn>, c: nat, e: nat)
    requires c < |conns| && e < |conns|
  {
    && conns[c].open && conns[e].open && conns[c].local == conns[e].local
    && InnerNat(conns[c].chain) == InnerNat(conns[e].chain)
    ==> c == e
  }

  ghost predicate Apart(conns: seq<Conn>) {
    forall c, e {:trigger Differ(conns, c, e)} :: 0 <= c < |conns| && 0 <= e < |conns| ==> Differ(conns, c, e)
  }

  ghost predicate Kin(nats: seq<Nat>, conns: seq<Conn>) { Plain(nats, conns) ==> Lineage(nats, conns) }

  // ----- the descent of a whole path ---------------------------------------------------------------------

  /** The mapping at level j of the way from c to d. */
  predicate OwnAt(nats: seq<Nat>, conns: seq<Conn>, c: nat, d: Endpoint, j: nat)
    requires c < |conns| && Known(nats, conns[c].chain) && j < |conns[c].chain|
  {
    var s := Mapped(nats, conns[c].chain, conns[c].local, d, j);
    var n := nats[conns[c].chain[j]];
    s.Some? &&
    var k := KeyFor(n.model, s.value, d);
    k in n.mappings && n.mappings[k].conn == c && n.mappings[k].index == j
  }

  /** At the first NAT: the address behind it is the connection's, and nobody else has it. */
  lemma OwnFirst(t: Tables, conns: seq<Conn>, c: nat, k: Key)
    requires Coherent(t) && ConnsOk(t.nats, conns) && Plain(t.nats, conns) && Lineage(t.nats, conns) && Apart(conns)
    requires c < |conns| && conns[c].open && conns[c].chain != [] && conns[c].chain[0] < |t.nats|
    requires k in t.nats[conns[c].chain[0]].mappings && k.internal == conns[c].local
    ensures var m := t.nats[conns[c].chain[0]].mappings[k]; m.conn == c && m.index == 0
  {
    var i := conns[c].chain[0];
    assert Descends(t.nats, conns, i, k);
    var m := t.nats[i].mappings[k];
    if m.index > 0 {
      var j := ParentNat(t, conns, i, k);
      assert Collides(conns[c], t.nats[j]);
    } else {
      assert Differ(conns, c, m.conn);
    }
  }

  /** Behind a later NAT every address is the public one of an earlier NAT. */
  lemma ParentNat(t: Tables, conns: seq<Conn>, i: nat, k: Key) returns (j: nat)
    requires Coherent(t) && i < |t.nats| && k in t.nats[i].mappings
    requires Descends(t.nats, conns, i, k) && t.nats[i].mappings[k].index > 0
    ensures j < |t.nats| && t.nats[j].public == k.internal.addr
  {
    var k0 :| Child(t.nats, conns, i, k, k0);
    var m := t.nats[i].mappings[k];
    j := conns[m.conn].chain[m.index - 1];
    assert NatOk(t.nats[j]) && EntryOk(t.nats[j], k0);
  }

  /** At a later NAT: the parent's external address and destination name the parent, and so its connection. */
  lemma OwnNext(t: Tables, conns: seq<Conn>, c: nat, x: nat, k0: Key, k: Key, d: Endpoint)
    requires Coherent(t) && ConnsOk(t.nats, conns) && Plain(t.nats, conns) && Lineage(t.nats, conns)
    requires c < |conns| && Known(t.nats, conns[c].chain) && 0 < x < |conns[c].chain|
    requires var n := t.nats[conns[c].chain[x - 1]];
             k0 in n.mappings && n.mappings[k0].conn == c && n.mappings[k0].index == x - 1
               && n.mappings[k0].external == k.internal
             && (n.model.dependent ==> k0.destination == Some(d))
    requires var n := t.nats[conns[c].chain[x]]; k in n.mappings && (n.model.dependent ==> k.destination == Some(d))
    ensures var m := t.nats[conns[c].chain[x]].mappings[k]; m.conn == c && m.index == x
  {
    var j, i := conns[c].chain[x - 1], conns[c].chain[x];
    var n := t.nats[j];
    assert NatOk(n) && EntryOk(n, k0) && Owns(t, j);
    assert Descends(t.nats, conns, i, k);
    var m := t.nats[i].mappings[k];
    if m.index == 0 {
      assert Collides(conns[m.conn], n);
    } else {
      var k1 :| Child(t.nats, conns, i, k, k1);
      var j1 := conns[m.conn].chain[m.index - 1];
      assert NatOk(t.nats[j1]) && EntryOk(t.nats[j1], k1) && Owns(t, j1);
      assert j1 == j;
      assert ChainPlain(t.nats, conns[c].chain);
      assert TellsApart(t.nats, conns[c].chain, x - 1);
      assert Distinct(n, k0, k1);
    }
  }

  /** Every mapping on the way of a connection's packets is its own. */
  lemma {:induction false} OwnPath(t: Tables, conns: seq<Conn>, c: nat, d: Endpoint, depth: nat)
    requires Coherent(t) && ConnsOk(t.nats, conns) && Plain(t.nats, conns) && Lineage(t.nats, conns) && Apart(conns)
    requires c < |conns| && conns[c].open && Known(t.nats, conns[c].chain) && depth <= |conns[c].chain|
    requires Mapped(t.nats, conns[c].chain, conns[c].local, d, depth).Some?
    ensures forall j :: 0 <= j < depth ==> OwnAt(t.nats, conns, c, d, j)
  {
    if depth > 0 {
      OwnPath(t, conns, c, d, depth - 1);
      var chain := conns[c].chain;
      var s := Mapped(t.nats, chain, conns[c].local, d, depth - 1).value;
      var k := KeyFor(t.nats[chain[depth - 1]].model, s, d);
      if depth == 1 {
        OwnFirst(t, conns, c, k);
      } else {
        assert OwnAt(t.nats, conns, c, d, depth - 2);
        var s0 := Mapped(t.nats, chain, conns[c].local, d, depth - 2).value;
        OwnNext(t, conns, c, depth - 1, KeyFor(t.nats[chain[depth - 2]].model, s0, d), k, d);
      }
    }
  }

  // ----- how descent follows a change --------------------------------------------------------------------

  /** A mapping is used again, or a counter moves. */
  lemma LineageFollows(nats: seq<Nat>, conns: seq<Conn>, i: nat, w: Nat)
    requires i < |nats| && SameRoutes(nats[i], w) && Lineage(nats, conns)
    ensures Lineage(nats[i := w], conns)
  {
    var next := nats[i := w];
    forall j, k | 0 <= j < |next| && k in next[j].mappings ensures Descends(next, conns, j, k) {
      assert k in nats[j].mappings;
      assert Descends(nats, conns, j, k);
      if nats[j].mappings[k].index > 0 {
        var k0 :| Child(nats, conns, j, k, k0);
        assert Child(next, conns, j, k, k0);
      }
    }
  }

  /** The new mapping m continues k0, or starts at its connection's own address. */
  predicate Rooted(nats: seq<Nat>, conns: seq<Conn>, m: Mapping, k0: Key) {
    && m.conn < |conns| && conns[m.conn].open && m.index < |conns[m.conn].chain|
    && (m.index == 0 ==> m.key.internal == conns[m.conn].local)
    && (m.index > 0 ==>
          var j := conns[m.conn].chain[m.index - 1];
          && j < |nats| && k0 in nats[j].mappings
          && nats[j].mappings[k0].conn == m.conn && nats[j].mappings[k0].index == m.index - 1
          && nats[j].mappings[k0].external == m.key.internal
          && (nats[j].model.reuse ==> k0.destination == m.key.destination))
  }

  /** A connection makes a mapping at some level of its own path. */
  lemma LineageAdds(nats: seq<Nat>, conns: seq<Conn>, i: nat, m: Mapping, k0: Key)
    requires i < |nats| && m.key !in nats[i].mappings && Lineage(nats, conns) && Rooted(nats, conns, m, k0)
    requires ChainOk(conns[m.conn].chain, |nats|) && conns[m.conn].chain[m.index] == i
    ensures Lineage(nats[i := WithMapping(nats[i], m)], conns)
  {
    var next := nats[i := WithMapping(nats[i], m)];
    forall j, k | 0 <= j < |next| && k in next[j].mappings ensures Descends(next, conns, j, k) {
      if j == i && k == m.key {
        assert OwnerIs(next, conns, i, k);
        if m.index > 0 { assert Child(next, conns, i, k, k0); }
      } else {
        assert Descends(nats, conns, j, k);
        if nats[j].mappings[k].index > 0 {
          var k1 :| Child(nats, conns, j, k, k1);
          assert Child(next, conns, j, k, k1);
        }
      }
    }
  }

  /** Exactly one connection's mappings are gone. */
  predicate Gone(n: Nat, w: Nat, c: nat) {
    && w.model == n.model && w.public == n.public && w.changes == n.changes
    && (forall k :: k in w.mappings ==> k in n.mappings && w.mappings[k] == n.mappings[k])
    && (forall k :: k in n.mappings ==> (k in w.mappings <==> n.mappings[k].conn != c))
  }

  lemma LineageForgets(nats: seq<Nat>, next: seq<Nat>, conns: seq<Conn>, c: nat)
    requires Lineage(nats, conns) && |next| == |nats|
    requires forall i {:trigger Gone(nats[i], next[i], c)} :: 0 <= i < |nats| ==> Gone(nats[i], next[i], c)
    ensures Lineage(next, conns)
  {
    forall i, k | 0 <= i < |next| && k in next[i].mappings ensures Descends(next, conns, i, k) {
      assert Gone(nats[i], next[i], c);
      assert Descends(nats, conns, i, k);
      var m := nats[i].mappings[k];
      assert OwnerIs(next, conns, i, k);
      if m.index > 0 {
        var k0 :| Child(nats, conns, i, k, k0);
        var j := conns[m.conn].chain[m.index - 1];
        assert Gone(nats[j], next[j], c);
        assert Child(next, conns, i, k, k0);
      }
    }
  }

  predicate SameSeat(a: Conn, b: Conn) { a.local == b.local && a.chain == b.chain && a.open == b.open }

  /** Connections come, or change in what no mapping of theirs depends on. */
  lemma LineageSeats(nats: seq<Nat>, conns: seq<Conn>, next: seq<Conn>)
    requires Lineage(nats, conns) && |conns| <= |next|
    requires forall i, k :: 0 <= i < |nats| && k in nats[i].mappings && nats[i].mappings[k].conn < |conns| ==>
      SameSeat(conns[nats[i].mappings[k].conn], next[nats[i].mappings[k].conn])
    ensures Lineage(nats, next)
  {
    forall i, k | 0 <= i < |nats| && k in nats[i].mappings ensures Descends(nats, next, i, k) {
      assert Descends(nats, conns, i, k);
      if nats[i].mappings[k].index > 0 {
        var k0 :| Child(nats, conns, i, k, k0);
        assert Child(nats, next, i, k, k0);
      }
    }
  }

  /** A new NAT has no mapping yet. */
  lemma LineageJoins(nats: seq<Nat>, n: Nat, conns: seq<Conn>)
    requires Lineage(nats, conns) && n.mappings == map[] && ConnsOk(nats, conns)
    ensures Lineage(nats + [n], conns)
  {
    var next := nats + [n];
    forall i, k | 0 <= i < |next| && k in next[i].mappings ensures Descends(next, conns, i, k) {
      assert i != |nats| && next[i] == nats[i];
      assert Descends(nats, conns, i, k);
      if nats[i].mappings[k].index > 0 {
        var k0 :| Child(nats, conns, i, k, k0);
        assert Child(next, conns, i, k, k0);
      }
    }
  }

  /** What a connection's packet meets at level `index` is its own, so a mapping made there is rooted. */
  lemma PathRoots(t: Tables, conns: seq<Conn>, c: nat, index: nat, d: Endpoint) returns (k0: Key)
    requires Coherent(t) && ConnsOk(t.nats, conns) && Plain(t.nats, conns) && Lineage(t.nats, conns) && Apart(conns)
    requires c < |conns| && conns[c].open && Known(t.nats, conns[c].chain) && index < |conns[c].chain|
    requires Mapped(t.nats, conns[c].chain, conns[c].local, d, index).Some?
    ensures
      var internal := Mapped(t.nats, conns[c].chain, conns[c].local, d, index).value;
      var k := KeyFor(t.nats[conns[c].chain[index]].model, internal, d);
      forall m: Mapping :: m.conn == c && m.index == index && m.key == k ==> Rooted(t.nats, conns, m, k0)
  {
    var chain := conns[c].chain;
    k0 := Key(conns[c].local, None);
    if index > 0 {
      OwnPath(t, conns, c, d, index);
      assert OwnAt(t.nats, conns, c, d, index - 1);
      var n := t.nats[chain[index - 1]];
      k0 := KeyFor(n.model, Mapped(t.nats, chain, conns[c].local, d, index - 1).value, d);
      assert ChainPlain(t.nats, chain) && TellsApart(t.nats, chain, index - 1);
      assert NatOk(n);
    }
  }

  lemma ChangingIsNotPlain(nats: seq<Nat>, conns: seq<Conn>, i: nat)
    requires i < |nats| && nats[i].changes != []
    ensures !Plain(nats, conns)
  {
    assert !Unchanging(nats[i]);
  }

  // ----- and the configuration ------------------------------------------------------------------------------

  /** A NAT or connection may have joined; those there before have the same place in the configuration. */
  ghost predicate Enlarges(nats: seq<Nat>, conns: seq<Conn>, next: seq<Nat>, after: seq<Conn>) {
    && |nats| <= |next| && |conns| <= |after|
    && (forall i {:trigger SameFace(nats[i], next[i])} :: 0 <= i < |nats| ==> SameFace(nats[i], next[i]))
    && (forall c {:trigger SamePlace(conns[c], after[c])} :: 0 <= c < |conns| ==> SamePlace(conns[c], after[c]))
  }

  predicate SamePlace(a: Conn, b: Conn) { a.local == b.local && a.chain == b.chain }

  /** A larger plain network was plain before. */
  lemma PlainBefore(nats: seq<Nat>, conns: seq<Conn>, next: seq<Nat>, after: seq<Conn>)
    requires ConnsOk(nats, conns) && Enlarges(nats, conns, next, after) && Plain(next, after)
    ensures Plain(nats, conns)
  {
    forall i | 0 <= i < |nats|
      ensures Unchanging(nats[i]) && next[i].model == nats[i].model && next[i].public == nats[i].public
    {
      assert SameFace(nats[i], next[i]) && Unchanging(next[i]);
    }
    forall c | 0 <= c < |conns| ensures ChainPlain(nats, conns[c].chain) {
      assert SamePlace(conns[c], after[c]) && ChainOk(conns[c].chain, |nats|) && ChainPlain(next, after[c].chain);
      ChainsKeepPlain(nats, next, conns[c].chain);
    }
    forall c, i | 0 <= c < |conns| && 0 <= i < |nats| ensures !Collides(conns[c], nats[i]) {
      assert SamePlace(conns[c], after[c]) && !Collides(after[c], next[i]);
    }
  }

  lemma KinFaces(nats: seq<Nat>, next: seq<Nat>, conns: seq<Conn>)
    requires Kin(nats, conns) && ConnsOk(nats, conns) && SameFaces(nats, next)
    requires Lineage(nats, conns) ==> Lineage(next, conns)
    ensures Kin(next, conns)
  {
    FacesKeepPlain(nats, next, conns);
  }

  lemma KinSeats(nats: seq<Nat>, conns: seq<Conn>, next: seq<Conn>)
    requires Kin(nats, conns) && ConnsOk(nats, conns) && |conns| <= |next|
    requires forall c :: 0 <= c < |conns| ==> SamePlace(conns[c], next[c])
    requires forall i, k :: 0 <= i < |nats| && k in nats[i].mappings && nats[i].mappings[k].conn < |conns| ==>
      SameSeat(conns[nats[i].mappings[k].conn], next[nats[i].mappings[k].conn])
    ensures Kin(nats, next)
  {
    if Plain(nats, next) {
      PlainBefore(nats, conns, nats, next);
      LineageSeats(nats, conns, next);
    }
  }

  /** The reply of a direct peer finds its way in every plain network. */
  lemma PlainReplyReaches(t: Tables, conns: seq<Conn>, direct: map<Endpoint, nat>, c: nat, d: Endpoint)
    requires Coherent(t) && Owned(t.nats, conns) && ConnsOk(t.nats, conns)
    requires Plain(t.nats, conns) && Lineage(t.nats, conns) && Apart(conns)
    requires forall e :: e in direct ==> direct[e] < |conns| && conns[direct[e]].local == e
    requires c < |conns| && conns[c].open && !conns[c].shut && conns[c].chain != [] && Known(t.nats, conns[c].chain)
    requires Used(t.nats, conns[c].chain, conns[c].local, d, |conns[c].chain|)
    ensures
      var seen := Mapped(t.nats, conns[c].chain, conns[c].local, d, |conns[c].chain|);
      seen.Some? && seen.value !in direct && Target(t, conns, direct, seen.value, d) == Some(c)
  {
    var chain := conns[c].chain;
    ReplyReaches(t, conns, direct, c, d);
    OwnPath(t, conns, c, d, |chain|);
    assert OwnAt(t.nats, conns, c, d, |chain| - 1);
    var seen := Mapped(t.nats, chain, conns[c].local, d, |chain|).value;
    var n := t.nats[chain[|chain| - 1]];
    var k := KeyFor(n.model, Mapped(t.nats, chain, conns[c].local, d, |chain| - 1).value, d);
    assert NatOk(n) && EntryOk(n, k);
    assert seen in direct ==> Collides(conns[direct[seen]], n);
  }
}
