/** External port selection (internal/natsim/network.go, allocatePortLocked). */
module NatPorts {
  import opened Basics
  import opened NatTables

  function Span(m: Model): nat
    requires ModelOk(m)
  {
    m.portMax - m.portMin + 1
  }

  /** The a-th port looked at when the search starts `start` ports into the range. */
  function Probe(m: Model, start: nat, a: nat): nat
    requires ModelOk(m)
  {
    m.portMin + (start + a) % Span(m)
  }

  predicate Taken(n: Nat, port: nat, destination: Endpoint) { PortKeyFor(n.model, port, destination) in n.used }

  predicate InRange(m: Model, port: nat) { m.portMin <= port <= m.portMax }

  /** The multiplicative generator's next state. */
  function NextRandom(state: nat): nat { (state * 6364136223846793005 + 1442695040888963407) % 0x1_0000_0000_0000_0000 }

  /** Where the search starts: at the cursor, or at a random place. */
  function StartOf(n: Nat): nat
    requires ModelOk(n.model) && InRange(n.model, n.cursor)
  {
    if n.model.allocation.Random? then NextRandom(n.random) % Span(n.model) else n.cursor - n.model.portMin
  }

  predicate Keeps(n: Nat, internalPort: nat, destination: Endpoint) {
    n.model.allocation.Preserving? && InRange(n.model, internalPort) && !Taken(n, internalPort, destination)
  }

  /** The a-th probe is free and no earlier one is. */
  ghost predicate FirstFree(n: Nat, start: nat, a: nat, destination: Endpoint)
    requires ModelOk(n.model)
  {
    !Taken(n, Probe(n.model, start, a), destination) && AllTaken(n, start, a, destination)
  }

  ghost predicate AllTaken(n: Nat, start: nat, count: nat, destination: Endpoint)
    requires ModelOk(n.model)
  {
    forall b: nat {:trigger Probe(n.model, start, b)} :: b < count ==> Taken(n, Probe(n.model, start, b), destination)
  }

  /** The next port of the range, which goes around. */
  function PortAfter(m: Model, port: nat): nat { if port == m.portMax then m.portMin else port + 1 }

  /** What an allocation gives and leaves behind: the internal port itself, if the NAT preserves it and it is free;
      otherwise the first free port from where the search starts, or none. A search from the cursor leaves it one past
      the port it found; a search from a random place leaves the cursor and moves the generator on. */
  ghost predicate Picked(n: Nat, internalPort: nat, destination: Endpoint, port: Option<nat>, cursor: nat, random: nat)
    requires ModelOk(n.model) && InRange(n.model, n.cursor)
  {
    var start :=
      if n.model.allocation.Random? then NextRandom(n.random) % Span(n.model) else n.cursor - n.model.portMin;
    if n.model.allocation.Preserving? && InRange(n.model, internalPort) && !Taken(n, internalPort, destination)
    then port == Some(internalPort) && cursor == n.cursor && random == n.random
    else
      && random == (if n.model.allocation.Random? then NextRandom(n.random) else n.random)
      && cursor == (if n.model.allocation.Random? || port == None then n.cursor else PortAfter(n.model, port.value))
      && (port.Some? ==> exists a: nat {:trigger Probe(n.model, start, a)} ::
           port.value == Probe(n.model, start, a) && FirstFree(n, start, a, destination))
      && (port == None ==> forall p :: InRange(n.model, p) ==> Taken(n, p, destination))
  }

  lemma ModBelow(x: nat, s: nat)
    requires s > 0 && x < 2 * s
    ensures x % s == if x < s then x else x - s
  {
    if x >= s { assert x == s * 1 + (x - s); }
  }

  /** Span successive probes visit every port of the range. */
  lemma ProbesCover(m: Model, start: nat, port: nat) returns (a: nat)
    requires ModelOk(m) && start < Span(m) && InRange(m, port)
    ensures a < Span(m) && Probe(m, start, a) == port
  {
    var q := port - m.portMin;
    a := if q >= start then q - start else q + Span(m) - start;
    ModBelow(start + a, Span(m));
  }

  lemma NextProbe(m: Model, start: nat, a: nat)
    requires ModelOk(m) && start < Span(m) && a < Span(m)
    ensures InRange(m, Probe(m, start, a))
    ensures Probe(m, start, a + 1) == if Probe(m, start, a) == m.portMax then m.portMin else Probe(m, start, a) + 1
  {
    ModBelow(start + a, Span(m));
    ModBelow(start + a + 1, Span(m));
  }

  /** The search loop: every other allocation advances the cursor as it goes. */
  method Search(n: Nat, start: nat, destination: Endpoint) returns (found: Option<nat>, cursor: nat)
    requires ModelOk(n.model) && InRange(n.model, n.cursor) && start < Span(n.model)
    requires !n.model.allocation.Random? ==> n.cursor == n.model.portMin + start
    ensures InRange(n.model, cursor)
    ensures found.Some? ==> found.value < Span(n.model) && FirstFree(n, start, found.value, destination)
    ensures found == None ==> AllTaken(n, start, Span(n.model), destination)
    ensures cursor == if n.model.allocation.Random? || found == None then n.cursor
      else PortAfter(n.model, Probe(n.model, start, found.value))
  {
    cursor := n.cursor;
    var a := 0;
    ModBelow(start, Span(n.model));
    while a < Span(n.model)
      invariant 0 <= a <= Span(n.model) && InRange(n.model, cursor)
      invariant cursor == if n.model.allocation.Random? then n.cursor else Probe(n.model, start, a)
      invariant AllTaken(n, start, a, destination)
    {
      NextProbe(n.model, start, a);
      var candidate := if n.model.allocation.Random? then Probe(n.model, start, a) else cursor;
      if !n.model.allocation.Random? {
        cursor := if cursor + 1 > n.model.portMax then n.model.portMin else cursor + 1;
      }
      if !Taken(n, candidate, destination) { return Some(a), cursor; }
      a := a + 1;
    }
    found := None;
    ModBelow(start + Span(n.model), Span(n.model));
  }

  /** Exhaustion is reported exactly when the whole range is taken. */
  method AllocatePort(n: Nat, internalPort: nat, destination: Endpoint)
    returns (port: Option<nat>, cursor: nat, random: nat)
    requires ModelOk(n.model) && InRange(n.model, n.cursor)
    ensures InRange(n.model, cursor)
    ensures port.Some? ==> InRange(n.model, port.value) && !Taken(n, port.value, destination)
    ensures port == None <==> forall p :: InRange(n.model, p) ==> Taken(n, p, destination)
    ensures Keeps(n, internalPort, destination) ==> port == Some(internalPort)
    ensures port.Some? && !Keeps(n, internalPort, destination) ==>
      exists a: nat :: port.value == Probe(n.model, StartOf(n), a) && FirstFree(n, StartOf(n), a, destination)
    ensures Picked(n, internalPort, destination, port, cursor, random)
  {
    random := n.random;
    if Keeps(n, internalPort, destination) { return Some(internalPort), n.cursor, random; }
    if n.model.allocation.Random? { random := NextRandom(random); }
    var start := StartOf(n);
    var found;
    found, cursor := Search(n, start, destination);
    if found.Some? {
      NextProbe(n.model, start, found.value);
      return Some(Probe(n.model, start, found.value)), cursor, random;
    }
    forall p | InRange(n.model, p) ensures Taken(n, p, destination) {
      var b := ProbesCover(n.model, start, p);
    }
    return None, cursor, random;
  }
}
