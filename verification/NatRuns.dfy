/** Whole runs of the NAT simulator, and the way of one packet and its reply. */
module NatRuns {
  import opened Basics
  import opened NatTables
  import opened NatPaths
  import opened NatPorts
  import opened NatLineage
  import opened NatConns
  import opened NatHops
  import opened NatNetwork

  datatype Step =
    | AddNat(name: string, public: nat, model: Model, changes: seq<Change>)
    | AddConn(local: Endpoint, chain: seq<nat>)
    | Send(c: nat, packet: seq<nat>, d: Endpoint)
    | Take(c: nat)
    | Report(c: nat)
    | Shut(c: nat)
    | Close(c: nat)
    | CloseNetwork

  /** What one step does to the configuration and to the mappings: they grow, or one connection's go. */
  ghost predicate Moves(nats: seq<Nat>, conns: seq<Conn>, next: seq<Nat>, after: seq<Conn>, gone: Option<nat>) {
    && Enlarges(nats, conns, next, after)
    && (forall c :: 0 <= c < |conns| && gone != Some(c) ==> after[c].open == conns[c].open)
    && (if gone == None then
          forall i {:trigger Grew(nats[i], next[i])} :: 0 <= i < |nats| && nats[i].changes == [] ==>
            Grew(nats[i], next[i])
        else
          && |next| == |nats|
          && forall i {:trigger Gone(nats[i], next[i], gone.value)} :: 0 <= i < |nats| ==>
             Gone(nats[i], next[i], gone.value))
  }

  lemma StillMoves(nats: seq<Nat>, conns: seq<Conn>, next: seq<Nat>, after: seq<Conn>)
    requires nats <= next && |conns| <= |after| && forall c :: 0 <= c < |conns| ==> SameSeat(conns[c], after[c])
    ensures Moves(nats, conns, next, after, None)
  {
  }

  /** What one step does to the queue of a connection: `taken` leaves at the front, `come` joins at the end. */
  predicate QueueMoves(before: Conn, after: Conn, taken: seq<Datagram>, come: seq<Datagram>) {
    taken + after.queue == before.queue + come
  }

  function TakenBy(s: Step, got: Option<Datagram>, c: nat): seq<Datagram> {
    if s == Take(c) && got.Some? then [got.value] else []
  }

  function ComeTo(come: Option<(nat, Datagram)>, c: nat): seq<Datagram> {
    if come.Some? && come.value.0 == c then [come.value.1] else []
  }

  /** Every queue but that of a closed connection moves by what was taken and by what came. */
  ghost predicate QueuesMove(before: seq<Conn>, after: seq<Conn>, s: Step, gone: Option<nat>, got: Option<Datagram>,
                             come: Option<(nat, Datagram)>) {
    && |before| <= |after| && (got.Some? ==> s.Take?) && (come.Some? ==> s.Send? && come.value.1.packet == s.packet)
    && (forall c {:trigger TakenBy(s, got, c)} {:trigger after[c]} :: 0 <= c < |before| && gone != Some(c) ==>
         QueueMoves(before[c], after[c], TakenBy(s, got, c), ComeTo(come, c)))
    && (forall c :: |before| <= c < |after| ==> after[c].queue == [])
  }

  lemma QueuesStand(before: seq<Conn>, after: seq<Conn>, s: Step, gone: Option<nat>)
    requires |before| <= |after|
    requires forall c :: 0 <= c < |before| && gone != Some(c) ==> after[c].queue == before[c].queue
    requires forall c :: |before| <= c < |after| ==> after[c].queue == []
    ensures QueuesMove(before, after, s, gone, None, None)
  {
    forall c | 0 <= c < |before| && gone != Some(c) ensures QueueMoves(before[c], after[c], [], []) {
      assert [] + after[c].queue == before[c].queue + [];
    }
  }

  /** `got` is what a reader is handed; `come` is what a delivery put into a queue. */
  method TakeStep(net: Network, s: Step)
    returns (ghost gone: Option<nat>, got: Option<Datagram>, ghost come: Option<(nat, Datagram)>)
    requires net.Inv()
    modifies net
    ensures net.Inv() && Moves(old(net.nats), old(net.conns), net.nats, net.conns, gone)
    ensures gone.Some? ==> s == Close(gone.value)
    ensures QueuesMove(old(net.conns), net.conns, s, gone, got, come)
    ensures net.delivered == old(net.delivered) + if come.Some? then 1 else 0
  {
    gone, got, come := None, None, None;
    if s.AddNat? || s.AddConn? || s.CloseNetwork? {
      SetUpStep(net, s);
    } else if s.c < |net.conns| {
      if s.Send? {
        come := SendStep(net, s);
      } else if s.Close? {
        gone := CloseStep(net, s);
      } else if s.Take? {
        got := ReadStep(net, s);
      } else {
        QueueStep(net, s);
      }
    } else {
      StillMoves(net.nats, net.conns, net.nats, net.conns);
      QueuesStand(net.conns, net.conns, s, None);
    }
  }

  method SetUpStep(net: Network, s: Step)
    requires net.Inv() && (s.AddNat? || s.AddConn? || s.CloseNetwork?)
    modifies net
    ensures net.Inv() && Moves(old(net.nats), old(net.conns), net.nats, net.conns, None)
    ensures QueuesMove(old(net.conns), net.conns, s, None, None, None) && net.delivered == old(net.delivered)
  {
    match s {
      case AddNat(name, public, model, changes) => var i := net.AddNat(name, public, model, changes);
      case AddConn(local, chain) => var c := net.AddConn(local, chain);
      case CloseNetwork => net.MarkClosed();
    }
    StillMoves(old(net.nats), old(net.conns), net.nats, net.conns);
    QueuesStand(old(net.conns), net.conns, s, None);
  }

  method ReadStep(net: Network, s: Step) returns (got: Option<Datagram>)
    requires net.Inv() && s.Take? && s.c < |net.conns|
    modifies net
    ensures net.Inv() && Moves(old(net.nats), old(net.conns), net.nats, net.conns, None)
    ensures QueuesMove(old(net.conns), net.conns, s, None, got, None) && net.delivered == old(net.delivered)
  {
    got := net.TakeOne(s.c);
    StillMoves(old(net.nats), old(net.conns), net.nats, net.conns);
    forall c | 0 <= c < |net.conns|
      ensures QueueMoves(old(net.conns)[c], net.conns[c], TakenBy(s, got, c), ComeTo(None, c))
    {
      assert old(net.conns)[c].queue + [] == old(net.conns)[c].queue;
      assert [] + net.conns[c].queue == net.conns[c].queue;
    }
  }

  method QueueStep(net: Network, s: Step)
    requires net.Inv() && (s.Report? || s.Shut?) && s.c < |net.conns|
    modifies net
    ensures net.Inv() && Moves(old(net.nats), old(net.conns), net.nats, net.conns, None)
    ensures QueuesMove(old(net.conns), net.conns, s, None, None, None) && net.delivered == old(net.delivered)
  {
    match s {
      case Report(c) => if net.conns[c].reading > 0 { net.ReportTaken(c); }
      case Shut(c) => net.ShutConn(c);
    }
    StillMoves(old(net.nats), old(net.conns), net.nats, net.conns);
    QueuesStand(old(net.conns), net.conns, s, None);
  }

  method SendStep(net: Network, s: Step) returns (ghost come: Option<(nat, Datagram)>)
    requires net.Inv() && s.Send? && s.c < |net.conns|
    modifies net
    ensures net.Inv() && Moves(old(net.nats), old(net.conns), net.nats, net.conns, None)
    ensures QueuesMove(old(net.conns), net.conns, s, None, None, come)
    ensures net.delivered == old(net.delivered) + if come.Some? then 1 else 0
  {
    ghost var before := net.conns;
    var r := net.Transmit(s.c, s.packet, s.d);
    come := None;
    if net.conns == before {
      QueuesStand(before, net.conns, s, None);
    } else {
      ghost var c := Target(net.T(), before, net.direct, s.d, r.source).value;
      come := Some((c, Datagram(s.packet, r.source)));
      OneComes(before, net.conns, s, c, Datagram(s.packet, r.source));
    }
  }

  lemma OneComes(before: seq<Conn>, after: seq<Conn>, s: Step, c: nat, d: Datagram)
    requires c < |before| && after == before[c := before[c].(queue := before[c].queue + [d])]
    requires s.Send? && d.packet == s.packet
    ensures QueuesMove(before, after, s, None, None, Some((c, d)))
  {
    forall i | 0 <= i < |before| ensures QueueMoves(before[i], after[i], [], ComeTo(Some((c, d)), i)) {
      assert [] + after[i].queue == after[i].queue && before[i].queue + [] == before[i].queue;
    }
  }

  /** closePacketConn runs only for a connection that has been shut. */
  method CloseStep(net: Network, s: Step) returns (ghost gone: Option<nat>)
    requires net.Inv() && s.Close? && s.c < |net.conns|
    modifies net
    ensures net.Inv() && Moves(old(net.nats), old(net.conns), net.nats, net.conns, gone)
    ensures gone.Some? ==> gone.value == s.c
    ensures QueuesMove(old(net.conns), net.conns, s, gone, None, None) && net.delivered == old(net.delivered)
  {
    gone := None;
    if net.conns[s.c].shut && net.conns[s.c].open {
      ghost var before := net.nats;
      net.CloseConn(s.c);
      GoneKeepsFaces(before, net.nats, s.c);
      gone := Some(s.c);
    } else {
      StillMoves(net.nats, net.conns, net.nats, net.conns);
    }
    QueuesStand(old(net.conns), net.conns, s, gone);
  }

  lemma GoneKeepsFaces(nats: seq<Nat>, next: seq<Nat>, c: nat)
    requires |next| == |nats|
    requires forall i {:trigger Gone(nats[i], next[i], c)} :: 0 <= i < |nats| ==> Gone(nats[i], next[i], c)
    ensures SameFaces(nats, next)
  {
    forall i | 0 <= i < |nats| ensures SameFace(nats[i], next[i]) { assert Gone(nats[i], next[i], c); }
  }

  /** On every run the tables stay in one-to-one agreement and every packet is accounted for. */
  method Run(net: Network, steps: seq<Step>)
    requires net.Inv()
    modifies net
    ensures net.Inv()
    ensures net.written == net.delivered + net.dropped + net.rejected
    ensures net.active == MappingCount(net.nats, |net.nats|)
    ensures net.queued == Holding(net.conns, |net.conns|)
  {
    for i := 0 to |steps|
      invariant net.Inv()
    {
      var _, _, _ := TakeStep(net, steps[i]);
    }
  }

  /** Whatever happens around it, until it is closed a connection gives its datagrams out in the order of delivery, each
      once: what its readers got, followed by what is still queued, is what was queued at first and all that was
      delivered to it since. */
  method ReadInOrder(net: Network, c: nat, steps: seq<Step>) returns (taken: seq<Datagram>, ghost come: seq<Datagram>)
    requires net.Inv() && c < |net.conns| && Close(c) !in steps
    modifies net
    ensures net.Inv() && c < |net.conns|
    ensures taken + net.conns[c].queue == old(net.conns)[c].queue + come
  {
    taken, come := [], [];
    for i := 0 to |steps|
      invariant net.Inv() && c < |net.conns|
      invariant taken + net.conns[c].queue == old(net.conns)[c].queue + come
    {
      ghost var before := net.conns;
      var gone, got, arrived := TakeStep(net, steps[i]);
      InOrder(old(net.conns)[c].queue, before[c], net.conns[c], taken, come, TakenBy(steps[i], got, c),
        ComeTo(arrived, c));
      taken, come := taken + TakenBy(steps[i], got, c), come + ComeTo(arrived, c);
    }
  }

  lemma InOrder(first: seq<Datagram>, before: Conn, after: Conn, taken: seq<Datagram>, come: seq<Datagram>,
                got: seq<Datagram>, arrived: seq<Datagram>)
    requires taken + before.queue == first + come && QueueMoves(before, after, got, arrived)
    ensures taken + got + after.queue == first + (come + arrived)
  {
    assert taken + got + after.queue == taken + (got + after.queue);
    assert taken + (before.queue + arrived) == taken + before.queue + arrived;
    assert first + come + arrived == first + (come + arrived);
  }

  // ----- a reply at once ---------------------------------------------------------------------------------

  /** Who made the outermost mapping that carries this connection's packets to `d`. */
  function OuterOwner(nats: seq<Nat>, conn: Conn, d: Endpoint): Option<nat>
    requires Known(nats, conn.chain)
  {
    if conn.chain == [] then None
    else
      var s := Mapped(nats, conn.chain, conn.local, d, |conn.chain| - 1);
      var n := nats[conn.chain[|conn.chain| - 1]];
      if s == None || KeyFor(n.model, s.value, d) !in n.mappings then None
      else Some(n.mappings[KeyFor(n.model, s.value, d)].conn)
  }

  /** Connection c can be written to and has room for one more packet. */
  predicate Ready(net: Network, c: nat)
    reads net
  {
    c < |net.conns| && net.conns[c].open && !net.conns[c].shut && |net.conns[c].queue| < net.capacity
  }

  /** A packet from behind a chain of NATs to a direct peer, and the peer's answer to the source it saw:
      with no endpoint squatting on that source, the answer is queued at the sender exactly when the sender
      made the outermost mapping. */
  method RoundTrip(net: Network, c: nat, peer: nat, packet: seq<nat>, answer: seq<nat>) returns (r: Outcome)
    requires net.Inv() && !net.closed && Ready(net, c) && Ready(net, peer)
    requires net.conns[c].chain != [] && net.conns[peer].chain == [] && |answer| <= net.maxDatagram
    modifies net
    ensures net.Inv() && |net.nats| == |old(net.nats)|
    ensures r.Sent? && r.source !in net.direct ==>
      && |net.conns| == |old(net.conns)| && Known(net.nats, old(net.conns)[c].chain)
      && (net.conns[c].queue == old(net.conns)[c].queue + [Datagram(answer, old(net.conns)[peer].local)]
          <==> OuterOwner(net.nats, old(net.conns)[c], old(net.conns)[peer].local) == Some(c))
  {
    var d := net.conns[peer].local;
    assert Reachable(net.conns, net.direct, peer);
    r := net.Transmit(c, packet, d);
    if r.Sent? && r.source !in net.direct { Answer(net, c, peer, answer, r.source); }
  }

  method Answer(net: Network, c: nat, peer: nat, answer: seq<nat>, seen: Endpoint)
    requires net.Inv() && !net.closed && Ready(net, c) && c != peer && seen !in net.direct
      && |answer| <= net.maxDatagram
    requires peer < |net.conns| && net.conns[peer].open && !net.conns[peer].shut && net.conns[peer].chain == []
    requires net.conns[c].chain != [] && Known(net.nats, net.conns[c].chain)
    requires Mapped(net.nats, net.conns[c].chain, net.conns[c].local, net.conns[peer].local, |net.conns[c].chain|) ==
      Some(seen)
    requires Used(net.nats, net.conns[c].chain, net.conns[c].local, net.conns[peer].local, |net.conns[c].chain|)
    modifies net
    ensures net.Inv() && net.T() == old(net.T()) && net.direct == old(net.direct) && |net.conns| == |old(net.conns)|
    ensures net.conns[c].queue == old(net.conns)[c].queue + [Datagram(answer, old(net.conns)[peer].local)]
            <==> OuterOwner(net.nats, old(net.conns)[c], old(net.conns)[peer].local) == Some(c)
  {
    ReplyReaches(net.T(), net.conns, net.direct, c, net.conns[peer].local);
    var r := net.Transmit(peer, answer, seen);
  }

  // ----- a reply at any later time --------------------------------------------------------------------------

  /** Connection c has sent to d through every NAT of its chain and was seen as `seen`. */
  ghost predicate Way(nats: seq<Nat>, conns: seq<Conn>, c: nat, d: Endpoint, seen: Endpoint) {
    && c < |conns| && conns[c].open && Known(nats, conns[c].chain)
    && Mapped(nats, conns[c].chain, conns[c].local, d, |conns[c].chain|) == Some(seen)
    && Used(nats, conns[c].chain, conns[c].local, d, |conns[c].chain|)
  }

  /** In a plain network no step takes that way away, except c's own close. */
  lemma WayMoves(t: Tables, conns: seq<Conn>, next: seq<Nat>, after: seq<Conn>, gone: Option<nat>, c: nat, d: Endpoint,
                 seen: Endpoint)
    requires Coherent(t) && ConnsOk(t.nats, conns) && Kin(t.nats, conns) && Apart(conns)
    requires Moves(t.nats, conns, next, after, gone) && gone != Some(c) && Plain(next, after)
    requires Way(t.nats, conns, c, d, seen)
    ensures Way(next, after, c, d, seen)
  {
    PlainBefore(t.nats, conns, next, after);
    var chain, local := conns[c].chain, conns[c].local;
    assert SamePlace(conns[c], after[c]);
    if gone == None {
      forall j | 0 <= j < |chain| ensures Grew(t.nats[chain[j]], next[chain[j]]) {
        assert Unchanging(t.nats[chain[j]]);
      }
      WayStays(t.nats, next, chain, local, d, |chain|);
    } else {
      WayOutlives(t, next, conns, c, gone.value, d, |chain|);
    }
  }

  /** Behind any chain of NATs: c writes to a direct peer, then anything at all happens, then the peer answers the
      source it saw. While c is not closed the answer is queued at c as coming from the peer, in every network whose
      set-up is plain, unless c's queue is full. */
  method LateReply(net: Network, c: nat, peer: nat, packet: seq<nat>, steps: seq<Step>, answer: seq<nat>)
    returns (r: Outcome, waiting: seq<Datagram>, back: Outcome)
    requires net.Inv() && c < |net.conns| && peer < |net.conns| && net.conns[c].chain != []
      && net.conns[peer].chain == []
    requires Close(c) !in steps
    modifies net
    ensures net.Inv() && |net.conns| >= |old(net.conns)|
    ensures r.Sent? && back.Sent? && Plain(net.nats, net.conns) && !net.conns[c].shut && |waiting| < net.capacity ==>
      net.conns[c].queue == waiting + [Datagram(answer, old(net.conns)[peer].local)]
  {
    waiting, back := [], Refused;
    var d := net.conns[peer].local;
    r := net.Transmit(c, packet, d);
    if r.Sent? { waiting, back := RunThenAnswer(net, c, peer, d, r.source, steps, answer); }
  }

  method RunThenAnswer(net: Network, c: nat, peer: nat, d: Endpoint, seen: Endpoint, steps: seq<Step>, answer: seq<nat>)
    returns (waiting: seq<Datagram>, back: Outcome)
    requires net.Inv() && Way(net.nats, net.conns, c, d, seen) && net.conns[c].chain != []
    requires peer < |net.conns| && net.conns[peer].chain == [] && net.conns[peer].local == d && Close(c) !in steps
    modifies net
    ensures net.Inv() && |net.conns| >= |old(net.conns)|
    ensures back.Sent? && Plain(net.nats, net.conns) && !net.conns[c].shut && |waiting| < net.capacity ==>
      net.conns[c].queue == waiting + [Datagram(answer, d)]
  {
    for i := 0 to |steps|
      invariant net.Inv() && |net.conns| >= |old(net.conns)| && c < |net.conns| && peer < |net.conns|
      invariant net.conns[peer].chain == [] && net.conns[peer].local == d && net.conns[c].chain != []
      invariant Plain(net.nats, net.conns) ==> Way(net.nats, net.conns, c, d, seen)
    {
      ghost var t, conns := net.T(), net.conns;
      var gone, _, _ := TakeStep(net, steps[i]);
      assert SamePlace(conns[c], net.conns[c]) && SamePlace(conns[peer], net.conns[peer]);
      if Plain(net.nats, net.conns) {
        PlainBefore(t.nats, conns, net.nats, net.conns);
        WayMoves(t, conns, net.nats, net.conns, gone, c, d, seen);
      }
    }
    waiting := net.conns[c].queue;
    back := LastAnswer(net, c, peer, d, seen, answer);
  }

  method LastAnswer(net: Network, c: nat, peer: nat, d: Endpoint, seen: Endpoint, answer: seq<nat>)
    returns (back: Outcome)
    requires net.Inv() && c < |net.conns| && peer < |net.conns|
    requires net.conns[peer].chain == [] && net.conns[peer].local == d && net.conns[c].chain != []
    requires Plain(net.nats, net.conns) ==> Way(net.nats, net.conns, c, d, seen)
    modifies net
    ensures net.Inv() && |net.conns| == |old(net.conns)|
    ensures
      var queue := old(net.conns)[c].queue;
      back.Sent? && Plain(net.nats, net.conns) && !net.conns[c].shut && |queue| < net.capacity ==>
        net.conns[c].queue == queue + [Datagram(answer, d)]
  {
    ghost var nats, conns := net.nats, net.conns;
    if Plain(net.nats, net.conns) && !net.conns[c].shut {
      forall e | e in net.direct ensures net.direct[e] < |conns| && conns[net.direct[e]].local == e {
        assert DirectEntryOk(conns, net.direct, e);
      }
      PlainReplyReaches(net.T(), net.conns, net.direct, c, d);
    }
    back := net.Transmit(peer, answer, seen);
    if Plain(net.nats, net.conns) { PlainBefore(nats, conns, net.nats, net.conns); }
  }

  // ----- two senders, one outer mapping -----------------------------------------------------------------

  const INNER := Model(true, Increment, SameEndpoint, true, false, 40000, 40000, 1)
  const LEFT := Endpoint(1, 9)
  const RIGHT := Endpoint(2, 9)
  const NEAR := Endpoint(30, 9)
  const FAR := Endpoint(31, 9)
  const SHARED := Endpoint(10, 40000)

  function Host(local: Endpoint): Conn { Conn(local, [0, 1], true, false, [], 0) }

  /** Two hosts behind a port-reusing inner NAT and some outer NAT, and a direct peer. */
  method TwoHosts(outer: Model, size: nat) returns (net: Network)
    requires ModelOk(outer)
    ensures fresh(net) && net.Inv() && !net.closed && net.active == 0
    ensures net.maxMappings == 8 && net.maxDatagram == size && net.capacity == 2
    ensures net.nats == [NewNat(10, INNER, []), NewNat(20, outer, [])] && net.direct == map[FAR := 2]
    ensures net.conns == [Host(LEFT), Host(RIGHT), Conn(FAR, [], true, false, [], 0)]
  {
    net := BothHosts(outer, size);
    var y := net.AddConn(FAR, []);
  }

  method TwoNats(outer: Model, size: nat) returns (net: Network)
    requires ModelOk(outer)
    ensures fresh(net) && net.Inv() && !net.closed && net.active == 0 && net.activeConns == 0 && net.maxConns == 4
    ensures net.maxMappings == 8 && net.maxDatagram == size && net.capacity == 2
    ensures net.nats == [NewNat(10, INNER, []), NewNat(20, outer, [])] && net.direct == map[] && net.conns == []
  {
    net := OneNat(size);
    assert "inner"[0] != "outer"[0];
    var j := net.AddNat("outer", 20, outer, []);
  }

  method OneNat(size: nat) returns (net: Network)
    ensures fresh(net) && net.Inv() && !net.closed && net.active == 0 && net.activeConns == 0 && net.maxConns == 4
    ensures net.maxMappings == 8 && net.maxDatagram == size && net.capacity == 2
    ensures net.names == {"inner"} && net.owners == map[10 := 0]
    ensures net.nats == [NewNat(10, INNER, [])] && net.direct == map[] && net.conns == []
  {
    net := new Network(4, 8, 2, size);
    var i := net.AddNat("inner", 10, INNER, []);
  }

  method BothHosts(outer: Model, size: nat) returns (net: Network)
    requires ModelOk(outer)
    ensures fresh(net) && net.Inv() && !net.closed && net.active == 0 && net.activeConns == 2 && net.maxConns == 4
    ensures net.maxMappings == 8 && net.maxDatagram == size && net.capacity == 2
    ensures net.nats == [NewNat(10, INNER, []), NewNat(20, outer, [])] && net.direct == map[]
    ensures net.conns == [Host(LEFT), Host(RIGHT)]
  {
    net := TwoNats(outer, size);
    var a := net.AddConn(LEFT, [0, 1]);
    var b := net.AddConn(RIGHT, [0, 1]);
  }

  /** The inner NAT has one port, so everything it shows is that port. */
  lemma OnePort(n: Nat, k: Key)
    requires NatOk(n) && n.model == INNER && n.public == 10 && k in n.mappings
    ensures n.mappings[k].external == SHARED
  {
    assert EntryOk(n, k);
  }

  const PEER := Conn(FAR, [], true, false, [], 0)

  predicate Faces(nats: seq<Nat>, outer: Model) {
    && |nats| == 2 && nats[0].model == INNER && nats[0].public == 10 && nats[0].changes == []
    && nats[1].model == outer && nats[1].public == 20 && nats[1].changes == []
  }

  /** A packet to an address that is neither a NAT's nor a direct connection's reaches nobody. */
  lemma NobodyThere(t: Tables, conns: seq<Conn>, direct: map<Endpoint, nat>, e: Endpoint, source: Endpoint)
    requires Coherent(t) && Owned(t.nats, conns) && ConnsOk(t.nats, conns)
    requires e !in direct && forall i :: 0 <= i < |t.nats| ==> t.nats[i].public != e.addr
    ensures Target(t, conns, direct, e, source) == None
  {
    var one, all := RouteKey(e, Some(source)), RouteKey(e, None);
    assert e.addr in t.owners ==> OwnerOk(t, e.addr);
    if one in t.routes { RouteNamesItsNat(t, one); }
    if all in t.routes { RouteNamesItsNat(t, all); }
  }

  /** A network with room has nothing to stop the left host's first packet. */
  lemma NothingStops(t: Tables, u: Tables, conns: seq<Conn>, outer: Model)
    requires ModelOk(outer) && !outer.blocked && t.active == 0 && conns == [Host(LEFT), Host(RIGHT), PEER]
    requires t.nats == [NewNat(10, INNER, []), NewNat(20, outer, [])] && |u.nats| == 2
    ensures !Failed(t, u, conns, 0, NEAR, 8)
  {
    assert InRange(INNER, 40000) && !Taken(t.nats[0], 40000, NEAR);
    assert InRange(outer, outer.portMin) && !Taken(t.nats[1], outer.portMin, NEAR);
  }

  /** The left host's packet to NEAR makes one mapping in each NAT, both its own. */
  method LeftSends(outer: Model, packet: seq<nat>, size: nat) returns (net: Network, first: Outcome)
    requires ModelOk(outer) && !outer.dependent && !outer.blocked && |packet| <= size
    ensures fresh(net) && net.Inv() && !net.closed && net.maxMappings == 8 && net.maxDatagram == size
      && net.capacity == 2
    ensures first.Sent? && Faces(net.nats, outer) && net.active <= 2
    ensures net.direct == map[FAR := 2] && net.conns == [Host(LEFT), Host(RIGHT), PEER]
    ensures net.nats[0].mappings.Keys == {Key(LEFT, Some(NEAR))}
    ensures net.nats[1].mappings.Keys == {Key(SHARED, None)} && net.nats[1].mappings[Key(SHARED, None)].conn == 0
  {
    net := TwoHosts(outer, size);
    ghost var t, conns := net.T(), net.conns;
    first := net.Transmit(0, packet, NEAR);
    NothingStops(t, net.T(), conns, outer);
    AfterLeft(t, net.T(), conns, net.conns, net.direct, packet, first.source, outer);
  }

  lemma AfterLeft(t: Tables, u: Tables, conns: seq<Conn>, next: seq<Conn>, direct: map<Endpoint, nat>, packet: seq<nat>,
                  source: Endpoint, outer: Model)
    requires !outer.dependent && Coherent(u) && SameFaces(t.nats, u.nats) && t.active == 0
    requires t.nats == [NewNat(10, INNER, []), NewNat(20, outer, [])]
    requires conns == [Host(LEFT), Host(RIGHT), PEER] && direct == map[FAR := 2]
    requires Left(t, u, conns, 0, NEAR, source) && Arrived(u, conns, next, direct, 2, packet, NEAR, source)
    ensures Faces(u.nats, outer) && next == conns && u.active <= 2
    ensures u.nats[0].mappings.Keys == {Key(LEFT, Some(NEAR))}
    ensures u.nats[1].mappings.Keys == {Key(SHARED, None)} && u.nats[1].mappings[Key(SHARED, None)].conn == 0
  {
    FacesAre(t.nats, u.nats, outer);
    NobodyThere(u, conns, direct, NEAR, source);
    LeftMappings(t, u, outer);
  }

  lemma FacesAre(nats: seq<Nat>, next: seq<Nat>, outer: Model)
    requires Faces(nats, outer) && SameFaces(nats, next)
    ensures Faces(next, outer)
  {
    assert SameFace(nats[0], next[0]) && SameFace(nats[1], next[1]);
  }

  lemma LeftMappings(t: Tables, u: Tables, outer: Model)
    requires !outer.dependent && t.nats == [NewNat(10, INNER, []), NewNat(20, outer, [])] && Coherent(u)
      && |u.nats| == 2
    requires HopsDone(t, u, Host(LEFT), 0, NEAR, 2)
    ensures u.nats[0].mappings.Keys == {Key(LEFT, Some(NEAR))}
    ensures u.nats[1].mappings.Keys == {Key(SHARED, None)} && u.nats[1].mappings[Key(SHARED, None)].conn == 0
  {
    var n, m := t.nats[0], u.nats[0];
    assert HopDone(t.nats, u.nats, [0, 1], LEFT, NEAR, 0, 0);
    assert Mapped(u.nats, [0, 1], LEFT, NEAR, 0) == Some(LEFT);
    assert NatOk(m);
    OnePort(m, Key(LEFT, Some(NEAR)));
    assert HopDone(t.nats, u.nats, [0, 1], LEFT, NEAR, 0, 1);
    assert Mapped(u.nats, [0, 1], LEFT, NEAR, 1) == Some(SHARED);
  }

  lemma PortIsFree(n: Nat)
    requires NatOk(n) && n.model == INNER && n.mappings.Keys == {Key(LEFT, Some(NEAR))}
    ensures CanAllocate(n, FAR)
  {
    var p := PortKeyFor(INNER, 40000, FAR);
    assert EntryOk(n, Key(LEFT, Some(NEAR)));
    assert p in n.used ==> Held(n, p);
    assert InRange(n.model, 40000) && !Taken(n, 40000, FAR);
  }

  /** Nothing stops the right host's packet either: the inner NAT gives it the same port for another
      destination, and the outer NAT already has a mapping for that port. */
  lemma NothingStopsRight(t: Tables, u: Tables, conns: seq<Conn>, outer: Model)
    requires !outer.dependent && !outer.blocked && t.active <= 2 && conns == [Host(LEFT), Host(RIGHT), PEER]
    requires Coherent(t) && Coherent(u) && Faces(t.nats, outer) && Faces(u.nats, outer)
    requires t.nats[0].mappings.Keys == {Key(LEFT, Some(NEAR))} && t.nats[1].mappings.Keys == {Key(SHARED, None)}
    ensures !Failed(t, u, conns, 1, FAR, 8)
  {
    assert NatOk(t.nats[0]) && NatOk(u.nats[0]);
    PortIsFree(t.nats[0]);
    var k := Key(RIGHT, Some(FAR));
    assert Mapped(u.nats, [0, 1], RIGHT, FAR, 0) == Some(RIGHT);
    if k in u.nats[0].mappings {
      OnePort(u.nats[0], k);
      assert Mapped(u.nats, [0, 1], RIGHT, FAR, 1) == Some(SHARED);
    }
  }

  /** The packet of the right host went out through the left host's outer mapping. */
  lemma RightUsesLeft(t: Tables, u: Tables, conns: seq<Conn>, direct: map<Endpoint, nat>, outer: Model,
                      source: Endpoint)
    requires !outer.dependent && conns == [Host(LEFT), Host(RIGHT), PEER] && direct == map[FAR := 2]
    requires Coherent(u) && Owned(u.nats, conns) && ConnsOk(u.nats, conns) && Faces(t.nats, outer)
      && Faces(u.nats, outer)
    requires Key(SHARED, None) in t.nats[1].mappings && t.nats[1].mappings[Key(SHARED, None)].conn == 0
    requires Left(t, u, conns, 1, FAR, source)
    ensures source !in direct && Target(u, conns, direct, source, FAR) != Some(1)
  {
    assert NatOk(u.nats[0]) && NatOk(u.nats[1]);
    assert Mapped(u.nats, [0, 1], RIGHT, FAR, 0) == Some(RIGHT);
    OnePort(u.nats[0], Key(RIGHT, Some(FAR)));
    assert Mapped(u.nats, [0, 1], RIGHT, FAR, 1) == Some(SHARED);
    assert HopDone(t.nats, u.nats, [0, 1], RIGHT, FAR, 1, 1);
    assert EntryOk(u.nats[1], Key(SHARED, None));
    ReplyReaches(u, conns, direct, 1, FAR);
  }

  /** Whatever the outer NAT is, as long as it does not tell destinations apart: both packets go out, nothing
      changes, no address collides, the queue is empty, and the answer that FAR sends to the source it saw does
      not reach the right host. */
  method ReplyIsLost(outer: Model, packet: seq<nat>, answer: seq<nat>)
    returns (net: Network, first: Outcome, second: Outcome, back: Outcome)
    requires ModelOk(outer) && !outer.dependent && !outer.blocked
    ensures fresh(net) && net.Inv() && Faces(net.nats, outer) && first.Sent? && second.Sent? && back == Sent(FAR)
    ensures |net.conns| == 3 && net.conns[0].local == LEFT && net.conns[2].local == FAR
    ensures net.conns[1] == Host(RIGHT)
  {
    net, first := LeftSends(outer, packet, |packet| + |answer|);
    second := RightSends(net, outer, packet);
    back := net.Transmit(2, answer, second.source);
  }

  method RightSends(net: Network, outer: Model, packet: seq<nat>) returns (second: Outcome)
    requires net.Inv() && !net.closed && Faces(net.nats, outer) && net.active <= 2 && !outer.dependent && !outer.blocked
    requires net.maxMappings == 8 && |packet| <= net.maxDatagram && net.capacity == 2
    requires net.direct == map[FAR := 2] && net.conns == [Host(LEFT), Host(RIGHT), PEER]
    requires net.nats[0].mappings.Keys == {Key(LEFT, Some(NEAR))} && net.nats[1].mappings.Keys == {Key(SHARED, None)}
    requires net.nats[1].mappings[Key(SHARED, None)].conn == 0
    modifies net
    ensures net.Inv() && !net.closed && Faces(net.nats, outer) && second.Sent? && second.source !in net.direct
    ensures |net.conns| == 3 && net.conns == [Host(LEFT), Host(RIGHT), PEER.(queue := net.conns[2].queue)]
    ensures Target(net.T(), net.conns, net.direct, second.source, FAR) != Some(1)
  {
    ghost var t, conns := net.T(), net.conns;
    second := net.Transmit(1, packet, FAR);
    FacesAre(t.nats, net.nats, outer);
    NothingStopsRight(t, net.T(), conns, outer);
    RightUsesLeft(t, net.T(), conns, net.direct, outer, second.source);
    QueuesDoNotRoute(net.T(), conns, net.conns, net.direct, second.source, FAR);
  }

  /** Where a packet goes does not depend on what waits in the queues. */
  lemma QueuesDoNotRoute(t: Tables, conns: seq<Conn>, next: seq<Conn>, direct: map<Endpoint, nat>, e: Endpoint,
                         source: Endpoint)
    requires Coherent(t) && Owned(t.nats, conns) && ConnsOk(t.nats, conns) && Owned(t.nats, next)
      && ConnsOk(t.nats, next)
    requires |next| == |conns| && forall c :: 0 <= c < |conns| ==>
      SameSeat(conns[c], next[c]) && conns[c].shut == next[c].shut
    ensures Target(t, next, direct, e, source) == Target(t, conns, direct, e, source)
  {
    RouteTargetsExist(t, conns, e, source);
  }

  // ----- a connection on a NAT's own address, and a change of behaviour --------------------------------------

  const HOST := Conn(LEFT, [0], true, false, [], 0)

  function Squatted(model: Model): Endpoint { Endpoint(20, model.portMin) }

  method LoneNat(model: Model, changes: seq<Change>, size: nat) returns (net: Network)
    requires ModelOk(model) && ChangesOk(changes)
    ensures fresh(net) && net.Inv() && !net.closed && net.active == 0 && net.activeConns == 0 && net.maxConns == 4
    ensures net.maxMappings == 8 && net.maxDatagram == size && net.capacity == 2
    ensures net.nats == [NewNat(20, model, changes)] && net.conns == [] && net.direct == map[]
  {
    net := new Network(4, 8, 2, size);
    var i := net.AddNat("nat", 20, model, changes);
  }

  method OneHost(model: Model, changes: seq<Change>, size: nat) returns (net: Network)
    requires ModelOk(model) && ChangesOk(changes)
    ensures fresh(net) && net.Inv() && !net.closed && net.active == 0 && net.activeConns == 1 && net.maxConns == 4
    ensures net.maxMappings == 8 && net.maxDatagram == size && net.capacity == 2
    ensures net.nats == [NewNat(20, model, changes)] && net.conns == [HOST] && net.direct == map[]
  {
    net := LoneNat(model, changes, size);
    var a := net.AddConn(LEFT, [0]);
  }

  /** One host behind one NAT, and a direct peer. */
  method HostAndPeer(model: Model, changes: seq<Change>, size: nat) returns (net: Network)
    requires ModelOk(model) && ChangesOk(changes)
    ensures fresh(net) && net.Inv() && !net.closed && net.active == 0 && net.activeConns == 2 && net.maxConns == 4
    ensures net.maxMappings == 8 && net.maxDatagram == size && net.capacity == 2
    ensures net.nats == [NewNat(20, model, changes)] && net.conns == [HOST, PEER] && net.direct == map[FAR := 1]
  {
    net := OneHost(model, changes, size);
    var b := net.AddConn(FAR, []);
  }

  method HostAndSquatter(model: Model, size: nat) returns (net: Network)
    requires ModelOk(model)
    ensures fresh(net) && net.Inv() && !net.closed && net.active == 0
    ensures net.maxMappings == 8 && net.maxDatagram == size && net.capacity == 2
    ensures net.nats == [NewNat(20, model, [])] && net.direct == map[FAR := 1, Squatted(model) := 2]
    ensures net.conns == [HOST, PEER, Conn(Squatted(model), [], true, false, [], 0)]
  {
    net := HostAndPeer(model, [], size);
    var s := net.AddConn(Squatted(model), []);
  }

  /** The host's first packet goes out. */
  lemma HostIsHeard(t: Tables, u: Tables, conns: seq<Conn>, model: Model, changes: seq<Change>)
    requires ModelOk(model) && !model.blocked && ChangesOk(changes)
    requires t.nats == [NewNat(20, model, changes)] && t.active == 0 && |u.nats| == 1 && conns != [] && conns[0] == HOST
    ensures !Failed(t, u, conns, 0, FAR, 8)
  {
    assert InRange(model, model.portMin) && !Taken(t.nats[0], model.portMin, FAR);
  }

  lemma OnePortShows(t: Tables, u: Tables, conns: seq<Conn>, model: Model, source: Endpoint)
    requires ModelOk(model) && model.portMin == model.portMax && t.nats == [NewNat(20, model, [])] && Coherent(u)
    requires conns != [] && conns[0] == HOST && SameFaces(t.nats, u.nats) && Left(t, u, conns, 0, FAR, source)
    ensures source == Squatted(model)
  {
    var n := u.nats[0];
    assert SameFace(t.nats[0], n) && NatOk(n);
    assert Mapped(u.nats, [0], LEFT, FAR, 0) == Some(LEFT);
    assert EntryOk(n, KeyFor(n.model, LEFT, FAR));
  }

  /** Behind one NAT with one port, whatever its model: a direct connection that sits on the NAT's public endpoint
      gets the reply, and the host does not. */
  method SquatterTakesReply(model: Model, packet: seq<nat>, answer: seq<nat>)
    returns (net: Network, first: Outcome, back: Outcome)
    requires ModelOk(model) && !model.blocked && model.portMin == model.portMax
    ensures fresh(net) && net.Inv() && first == Sent(Squatted(model)) && back == Sent(FAR) && |net.conns| == 3
    ensures net.conns[0] == HOST && net.conns[2].queue == [Datagram(answer, FAR)]
  {
    net := HostAndSquatter(model, |packet| + |answer|);
    ghost var t, conns := net.T(), net.conns;
    first := net.Transmit(0, packet, FAR);
    HostIsHeard(t, net.T(), conns, model, []);
    OnePortShows(t, net.T(), conns, model, first.source);
    back := net.Transmit(1, answer, first.source);
  }

  function Afresh(model: Model): seq<Change> { [Change(1, model, None)] }

  /** Nothing from FAR passes a NAT that lets in only endpoints sent to, if it has sent to NEAR alone. */
  lemma FarIsShutOut(t: Tables, conns: seq<Conn>, direct: map<Endpoint, nat>, seen: Endpoint)
    requires Coherent(t) && Owned(t.nats, conns) && ConnsOk(t.nats, conns) && |t.nats| == 1
    requires seen !in direct && t.nats[0].model.filtering.SameEndpoint?
    requires forall k :: k in t.nats[0].mappings ==> t.nats[0].mappings[k].history == [NEAR]
    requires forall c :: 0 <= c < |conns| ==> conns[c].chain == [] || conns[c].chain == [0]
    ensures Target(t, conns, direct, seen, FAR) == None
  {
    RouteTargetsExist(t, conns, seen, FAR);
    assert NatOk(t.nats[0]);
    PassesByHistory(t.nats[0], seen, FAR);
    var r := Lookup(t.routes, seen, FAR);
    if r.Some? {
      var chain := conns[r.value.conn].chain;
      assert chain == [0] && r.value.index == 0;
      assert Walk(t.nats, chain, 1, seen, FAR) == None;
    }
  }

  lemma BecomesDue(t: Tables, u: Tables, conns: seq<Conn>, model: Model, source: Endpoint)
    requires t.nats == [NewNat(20, model, Afresh(model))] && t.active == 0 && conns == [HOST, PEER] && Coherent(u)
    requires Left(t, u, conns, 0, FAR, source)
    ensures |u.nats| == 1 && u.nats[0].public == 20 && u.nats[0].changes == Afresh(model) && Due(u.nats[0])
    ensures u.nats[0].nextChange == 0 && u.active <= 1 && source.addr == 20
  {
    assert HopDone(t.nats, u.nats, [0], LEFT, FAR, 0, 0);
    assert Mapped(u.nats, [0], LEFT, FAR, 0) == Some(LEFT);
    assert NatOk(u.nats[0]) && EntryOk(u.nats[0], KeyFor(u.nats[0].model, LEFT, FAR));
  }

  /** The packet that finds the change due goes out too. */
  lemma ChangeLetsPass(t: Tables, u: Tables, conns: seq<Conn>, model: Model)
    requires |t.nats| == |u.nats| == 1 && !model.blocked && t.active <= 1 && conns != [] && conns[0] == HOST
    requires t.nats[0].changes == Afresh(model) && Due(t.nats[0])
    ensures !Failed(t, u, conns, 0, NEAR, 8) && !UpsetAhead(t.nats[0])
  {
    assert forall b :: 0 <= b < |t.nats[0].changes| ==> !Upsets(t.nats[0], b);
  }

  /** The change leaves one mapping, used for NEAR alone, in a NAT of the same address and the given model. */
  lemma AfterChange(t: Tables, u: Tables, conns: seq<Conn>, model: Model, source: Endpoint)
    requires |t.nats| == 1 && t.nats[0].changes == Afresh(model) && Due(t.nats[0]) && t.nats[0].public == 20
    requires !UpsetAhead(t.nats[0]) && conns != [] && conns[0] == HOST && Left(t, u, conns, 0, NEAR, source)
    ensures |u.nats| == 1 && u.nats[0].public == 20 && u.nats[0].model == model
    ensures forall k :: k in u.nats[0].mappings ==> u.nats[0].mappings[k].history == [NEAR]
  {
    assert HopDone(t.nats, u.nats, [0], LEFT, NEAR, 0, 0);
    var b :| t.nats[0].nextChange <= b < |t.nats[0].changes| && ModelOf(t.nats[0], u.nats[0], b);
  }

  method SendsTwice(model: Model, packet: seq<nat>, size: nat) returns (net: Network, first: Outcome, second: Outcome)
    requires ModelOk(model) && !model.blocked && |packet| <= size
    ensures fresh(net) && net.Inv() && !net.closed && net.maxDatagram == size && net.capacity == 2
    ensures first.Sent? && second.Sent? && first.source !in net.direct
    ensures |net.nats| == 1 && net.nats[0].model == model
    ensures forall k :: k in net.nats[0].mappings ==> net.nats[0].mappings[k].history == [NEAR]
    ensures |net.conns| == 2 && net.conns[0] == HOST && net.conns[1].(queue := []) == PEER
  {
    net, first := SendsOnce(model, packet, size);
    ghost var t, conns := net.T(), net.conns;
    second := net.Transmit(0, packet, NEAR);
    ChangeLetsPass(t, net.T(), conns, model);
    AfterChange(t, net.T(), conns, model, second.source);
    NobodyThere(net.T(), conns, net.direct, NEAR, second.source);
  }

  method SendsOnce(model: Model, packet: seq<nat>, size: nat) returns (net: Network, first: Outcome)
    requires ModelOk(model) && !model.blocked && |packet| <= size
    ensures fresh(net) && net.Inv() && !net.closed && net.maxMappings == 8 && net.maxDatagram == size
      && net.capacity == 2
    ensures first.Sent? && first.source.addr == 20 && net.active <= 1 && net.direct == map[FAR := 1]
    ensures |net.nats| == 1 && net.nats[0].public == 20 && net.nats[0].changes == Afresh(model) && Due(net.nats[0])
    ensures |net.conns| == 2 && net.conns[0] == HOST && net.conns[1].(queue := []) == PEER
  {
    net := HostAndPeer(model, Afresh(model), size);
    ghost var t, conns := net.T(), net.conns;
    first := net.Transmit(0, packet, FAR);
    HostIsHeard(t, net.T(), conns, model, Afresh(model));
    BecomesDue(t, net.T(), conns, model, first.source);
  }

  /** Behind one NAT that lets in only endpoints sent to, whatever else its model, a behaviour change between the
      packet and its answer loses the answer. */
  method ChangeLosesReply(model: Model, packet: seq<nat>, answer: seq<nat>)
    returns (net: Network, first: Outcome, second: Outcome, back: Outcome)
    requires ModelOk(model) && !model.blocked && model.filtering.SameEndpoint?
    ensures fresh(net) && net.Inv() && first.Sent? && second.Sent? && back == Sent(FAR)
    ensures |net.conns| == 2 && net.conns[0] == HOST
  {
    net, first, second := SendsTwice(model, packet, |packet| + |answer|);
    FarIsShutOut(net.T(), net.conns, net.direct, first.source);
    back := net.Transmit(1, answer, first.source);
  }
}
