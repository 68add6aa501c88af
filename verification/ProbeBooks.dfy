/** What a probe controller counts over its sockets (internal/probeio/probeio.go): target references,
    five-tuples and the socket table. A socket is named by its place among all sockets ever opened. */
module ProbeBooks {

  datatype Life = Open | Promoting | Promoted | Closed

  /** Who holds the datagram. */
  datatype Holder = Table | Promoter | Lease | Nobody

  datatype Socket = Socket(life: Life, targets: set<nat>, verified: set<nat>, holder: Holder)

  datatype Books = Books(sockets: seq<Socket>, table: set<nat>, refs: map<nat, nat>, tuples: int)

  predicate Listed(s: Socket) { s.life.Open? || s.life.Promoting? }

  function RefCount(sockets: seq<Socket>, t: nat, n: nat): nat
    requires n <= |sockets|
  {
    if n == 0 then 0 else RefCount(sockets, t, n - 1) + if t in sockets[n - 1].targets then 1 else 0
  }

  function TupleCount(sockets: seq<Socket>, n: nat): nat
    requires n <= |sockets|
  {
    if n == 0 then 0 else TupleCount(sockets, n - 1) + |sockets[n - 1].targets|
  }

  /** The reference count of one target is the number of sockets that registered it. */
  predicate RefOk(b: Books, t: nat) {
    var n := RefCount(b.sockets, t, |b.sockets|);
    (t in b.refs <==> n > 0) && (t in b.refs ==> b.refs[t] == n)
  }

  /** A socket is in the table while it is open or being promoted; one holder has its datagram. */
  predicate SocketOk(b: Books, i: nat)
    requires i < |b.sockets|
  {
    var s := b.sockets[i];
    && (i in b.table <==> Listed(s))
    && (Listed(s) <==> s.holder.Table?) && (s.life.Closed? ==> s.holder.Nobody?)
    && (!Listed(s) ==> s.targets == {}) && s.verified <= s.targets
  }

  predicate OnlyOne(b: Books, i: nat, j: nat)
    requires i < |b.sockets| && j < |b.sockets|
  {
    b.sockets[i].life.Promoted? && b.sockets[j].life.Promoted? ==> i == j
  }

  ghost predicate Kept(b: Books) {
    && (forall i {:trigger i in b.table} :: i in b.table ==> i < |b.sockets|)
    && (forall i {:trigger SocketOk(b, i)} :: 0 <= i < |b.sockets| ==> SocketOk(b, i))
    && (forall i, j {:trigger OnlyOne(b, i, j)} :: 0 <= i < |b.sockets| && 0 <= j < |b.sockets| ==> OnlyOne(b, i, j))
    && (forall t {:trigger RefOk(b, t)} :: RefOk(b, t))
    && b.tuples == TupleCount(b.sockets, |b.sockets|)
  }

  lemma {:induction false} RefUpdate(sockets: seq<Socket>, i: nat, s: Socket, t: nat, n: nat)
    requires i < |sockets| && n <= |sockets|
    ensures RefCount(sockets[i := s], t, n) == RefCount(sockets, t, n)
            + (if i < n && t in s.targets then 1 else 0) - (if i < n && t in sockets[i].targets then 1 else 0)
  {
    if n > 0 { RefUpdate(sockets, i, s, t, n - 1); }
  }

  lemma {:induction false} TupleUpdate(sockets: seq<Socket>, i: nat, s: Socket, n: nat)
    requires i < |sockets| && n <= |sockets|
    ensures TupleCount(sockets[i := s], n) == TupleCount(sockets, n) + if i < n then
      |s.targets| - |sockets[i].targets| else 0
  {
    if n > 0 { TupleUpdate(sockets, i, s, n - 1); }
  }

  lemma {:induction false} CountsPrefix(sockets: seq<Socket>, more: seq<Socket>, t: nat, n: nat)
    requires n <= |sockets|
    ensures RefCount(sockets + more, t, n) == RefCount(sockets, t, n)
      && TupleCount(sockets + more, n) == TupleCount(sockets, n)
  {
    if n > 0 { CountsPrefix(sockets, more, t, n - 1); }
  }

  /** A socket changes without touching its targets. */
  function WithSocket(b: Books, i: nat, s: Socket): Books
    requires i < |b.sockets|
  {
    b.(sockets := b.sockets[i := s], table := if Listed(s) then b.table + {i} else b.table - {i})
  }

  lemma SocketKeepsBooks(b: Books, i: nat, s: Socket)
    requires Kept(b) && i < |b.sockets| && s.targets == b.sockets[i].targets && s.verified <= s.targets
    requires (Listed(s) <==> s.holder.Table?) && (s.life.Closed? ==> s.holder.Nobody?)
      && (!Listed(s) ==> s.targets == {})
    requires s.life.Promoted? ==> forall j :: 0 <= j < |b.sockets| && j != i ==> !b.sockets[j].life.Promoted?
    ensures Kept(WithSocket(b, i, s))
  {
    var w := WithSocket(b, i, s);
    TupleUpdate(b.sockets, i, s, |b.sockets|);
    forall t ensures RefOk(w, t) {
      assert RefOk(b, t);
      RefUpdate(b.sockets, i, s, t, |b.sockets|);
    }
    forall j | 0 <= j < |w.sockets| ensures SocketOk(w, j) { assert SocketOk(b, j); }
    forall j, k | 0 <= j < |w.sockets| && 0 <= k < |w.sockets| ensures OnlyOne(w, j, k) { assert OnlyOne(b, j, k); }
  }

  function WithTarget(b: Books, i: nat, t: nat): Books
    requires i < |b.sockets|
  {
    b.(sockets := b.sockets[i := b.sockets[i].(targets := b.sockets[i].targets + {t})],
       refs := b.refs[t := (if t in b.refs then b.refs[t] else 0) + 1], tuples := b.tuples + 1)
  }

  lemma TargetKeepsBooks(b: Books, i: nat, t: nat)
    requires Kept(b) && i < |b.sockets| && Listed(b.sockets[i]) && t !in b.sockets[i].targets
    ensures Kept(WithTarget(b, i, t))
  {
    var w, s := WithTarget(b, i, t), b.sockets[i].(targets := b.sockets[i].targets + {t});
    TupleUpdate(b.sockets, i, s, |b.sockets|);
    forall u ensures RefOk(w, u) {
      assert RefOk(b, u);
      RefUpdate(b.sockets, i, s, u, |b.sockets|);
    }
    forall j | 0 <= j < |w.sockets| ensures SocketOk(w, j) { assert SocketOk(b, j); }
    forall j, k | 0 <= j < |w.sockets| && 0 <= k < |w.sockets| ensures OnlyOne(w, j, k) { assert OnlyOne(b, j, k); }
  }

  /** One target of a socket is released. */
  function WithoutTarget(b: Books, i: nat, t: nat): Books
    requires i < |b.sockets|
  {
    var s := b.sockets[i];
    b.(sockets := b.sockets[i := s.(targets := s.targets - {t}, verified := s.verified - {t})],
       refs := if t !in b.refs || b.refs[t] <= 1 then b.refs - {t} else b.refs[t := b.refs[t] - 1],
       tuples := b.tuples - 1)
  }

  lemma ReleaseKeepsBooks(b: Books, i: nat, t: nat)
    requires Kept(b) && i < |b.sockets| && Listed(b.sockets[i]) && t in b.sockets[i].targets
    ensures Kept(WithoutTarget(b, i, t)) && b.tuples > 0
  {
    var w := WithoutTarget(b, i, t);
    var s := w.sockets[i];
    TupleUpdate(b.sockets, i, s, |b.sockets|);
    forall u ensures RefOk(w, u) {
      assert RefOk(b, u);
      RefUpdate(b.sockets, i, s, u, |b.sockets|);
    }
    forall j | 0 <= j < |w.sockets| ensures SocketOk(w, j) { assert SocketOk(b, j); }
    forall j, k | 0 <= j < |w.sockets| && 0 <= k < |w.sockets| ensures OnlyOne(w, j, k) { assert OnlyOne(b, j, k); }
  }

  function WithOpened(b: Books): Books {
    b.(sockets := b.sockets + [Socket(Open, {}, {}, Table)], table := b.table + {|b.sockets|})
  }

  lemma OpenKeepsBooks(b: Books)
    requires Kept(b)
    ensures Kept(WithOpened(b))
  {
    var w := WithOpened(b);
    CountsPrefix(b.sockets, [Socket(Open, {}, {}, Table)], 0, |b.sockets|);
    forall t ensures RefOk(w, t) {
      assert RefOk(b, t);
      CountsPrefix(b.sockets, [Socket(Open, {}, {}, Table)], t, |b.sockets|);
    }
    forall j | 0 <= j < |w.sockets| ensures SocketOk(w, j) { if j < |b.sockets| { assert SocketOk(b, j); } }
    forall j, k | 0 <= j < |w.sockets| && 0 <= k < |w.sockets| ensures OnlyOne(w, j, k) {
      if j < |b.sockets| && k < |b.sockets| { assert OnlyOne(b, j, k); }
    }
  }
}
