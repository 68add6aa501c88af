/** The router's public ports (internal/c1crouter/nat_linux.go, reservePort): per remote, a six-round
    Feistel network over 14 bits with an arbitrary round function. */
module PortPermutation {
  import opened Basics

  const HALF: nat := 128
  const UNIVERSE: nat := 16384
  const BASE: nat := 49152
  const ROUNDS: nat := 6

  datatype Half2 = Half2(left: nat, right: nat)

  predicate Valid(h: Half2) { h.left < HALF && h.right < HALF }

  function Pow2(bits: nat): nat { if bits == 0 then 1 else 2 * Pow2(bits - 1) }

  /** Exclusive or of the low bits. */
  function Xor(a: nat, b: nat, bits: nat): nat {
    if bits == 0 then 0 else 2 * Xor(a / 2, b / 2, bits - 1) + if a % 2 == b % 2 then 0 else 1
  }

  lemma {:induction false} XorUndoes(a: nat, b: nat, bits: nat)
    requires a < Pow2(bits)
    ensures Xor(a, b, bits) < Pow2(bits)
    ensures Xor(Xor(a, b, bits), b, bits) == a
  {
    if bits > 0 { XorUndoes(a / 2, b / 2, bits - 1); }
  }

  function Xor7(a: nat, b: nat): nat { Xor(a, b, 7) }

  lemma Xor7Undoes(a: nat, b: nat)
    requires a < HALF
    ensures Xor7(a, b) < HALF && Xor7(Xor7(a, b), b) == a
  {
    assert Pow2(7) == 2 * Pow2(6) && Pow2(6) == 2 * Pow2(5) && Pow2(5) == 2 * Pow2(4) && Pow2(4) == 2 * Pow2(3);
    assert Pow2(3) == 2 * Pow2(2) && Pow2(2) == 2 * Pow2(1) && Pow2(1) == 2 * Pow2(0);
    XorUndoes(a, b, 7);
  }

  /** The keyed digest's first byte, cut to seven bits, is any function of round and right half. */
  type Mixer = (nat, nat) -> nat

  function Round(f: Mixer, round: nat, h: Half2): Half2 { Half2(h.right, Xor7(h.left, f(round, h.right))) }

  function Unround(f: Mixer, round: nat, h: Half2): Half2 { Half2(Xor7(h.right, f(round, h.left)), h.left) }

  function Rounds(f: Mixer, n: nat, h: Half2): Half2 { if n == 0 then h else Round(f, n - 1, Rounds(f, n - 1, h)) }

  function Unrounds(f: Mixer, n: nat, h: Half2): Half2 {
    if n == 0 then h else Unrounds(f, n - 1, Unround(f, n - 1, h))
  }

  lemma {:induction false} RoundsUndo(f: Mixer, n: nat, h: Half2)
    requires Valid(h)
    ensures Valid(Rounds(f, n, h)) && Unrounds(f, n, Rounds(f, n, h)) == h
  {
    if n > 0 {
      RoundsUndo(f, n - 1, h);
      var m := Rounds(f, n - 1, h);
      Xor7Undoes(m.left, f(n - 1, m.right));
      assert Unround(f, n - 1, Round(f, n - 1, m)) == m;
    }
  }

  lemma {:induction false} UnroundsUndo(f: Mixer, n: nat, h: Half2)
    requires Valid(h)
    ensures Valid(Unrounds(f, n, h)) && Rounds(f, n, Unrounds(f, n, h)) == h
  {
    if n > 0 {
      Xor7Undoes(h.right, f(n - 1, h.left));
      var m := Unround(f, n - 1, h);
      UnroundsUndo(f, n - 1, m);
      assert Round(f, n - 1, m) == h;
    }
  }

  function Split(x: nat): Half2 { Half2(x / HALF, x % HALF) }

  function Join(h: Half2): nat { HALF * h.left + h.right }

  /** The port of the given reservation. */
  function PortOf(f: Mixer, ordinal: nat): nat { BASE + Join(Rounds(f, ROUNDS, Split(ordinal))) }

  /** The reservation of the given port. */
  function OrdinalOf(f: Mixer, port: nat): nat
    requires port >= BASE
  {
    Join(Unrounds(f, ROUNDS, Split(port - BASE)))
  }

  lemma SplitJoin(h: Half2)
    requires Valid(h)
    ensures Join(h) < UNIVERSE && Split(Join(h)) == h
  {
  }

  lemma JoinSplit(x: nat)
    requires x < UNIVERSE
    ensures Valid(Split(x)) && Join(Split(x)) == x
  {
  }

  /** A bijection between the first 16384 reservations and the ports 49152 to 65535. */
  lemma PortOfBijective(f: Mixer, ordinal: nat)
    requires ordinal < UNIVERSE
    ensures BASE <= PortOf(f, ordinal) < BASE + UNIVERSE == 65536 && OrdinalOf(f, PortOf(f, ordinal)) == ordinal
  {
    JoinSplit(ordinal);
    RoundsUndo(f, ROUNDS, Split(ordinal));
    SplitJoin(Rounds(f, ROUNDS, Split(ordinal)));
  }

  // ----- what the rounds are there for -----------------------------------------------------------------

  lemma {:induction false} XorReaches(a: nat, b: nat, bits: nat)
    requires a < Pow2(bits) && b < Pow2(bits)
    ensures Xor(a, Xor(a, b, bits), bits) == b
  {
    if bits > 0 { XorReaches(a / 2, b / 2, bits - 1); }
  }

  lemma {:induction false} XorNothing(a: nat, bits: nat)
    requires a < Pow2(bits)
    ensures Xor(a, 0, bits) == a
  {
    if bits > 0 { XorNothing(a / 2, bits - 1); }
  }

  lemma Xor7Reaches(a: nat, b: nat)
    requires a < HALF && b < HALF
    ensures Xor7(a, Xor7(a, b)) == b && Xor7(a, 0) == a
  {
    assert Pow2(7) == 2 * Pow2(6) && Pow2(6) == 2 * Pow2(5) && Pow2(5) == 2 * Pow2(4) && Pow2(4) == 2 * Pow2(3);
    assert Pow2(3) == 2 * Pow2(2) && Pow2(2) == 2 * Pow2(1) && Pow2(1) == 2 * Pow2(0);
    XorReaches(a, b, 7);
    XorNothing(a, 7);
  }

  /** Rounds without a digest swap the halves. */
  lemma {:induction false} SilentRounds(f: Mixer, n: nat, h: Half2)
    requires Valid(h) && forall r, x :: 0 <= r < n && 0 <= x ==> f(r, x) == 0
    ensures Rounds(f, n, h) == if n % 2 == 0 then h else Half2(h.right, h.left)
  {
    if n > 0 {
      SilentRounds(f, n - 1, h);
      Xor7Reaches(h.left, 0);
      Xor7Reaches(h.right, 0);
    }
  }

  /** Nothing about the port of a reservation is fixed: the digest can bring it anywhere in the range. */
  lemma AnyPort(ordinal: nat, port: nat) returns (f: Mixer)
    requires ordinal < UNIVERSE && BASE <= port < BASE + UNIVERSE
    ensures PortOf(f, ordinal) == port
  {
    var from, to := Split(ordinal), Split(port - BASE);
    JoinSplit(ordinal);
    JoinSplit(port - BASE);
    var a, b := Xor7(from.left, to.left), Xor7(from.right, to.right);
    f := (r: nat, x: nat) => if r == 4 then a else if r == 5 then b else 0;
    SilentRounds(f, 4, from);
    Xor7Reaches(from.left, to.left);
    Xor7Reaches(from.right, to.right);
    assert Rounds(f, 5, from) == Half2(from.right, to.left);
    assert Rounds(f, 6, from) == to;
  }

  lemma RoundDistinct(f: Mixer, round: nat, a: Half2, b: Half2)
    requires Valid(a) && Valid(b) && a != b
    ensures Round(f, round, a) != Round(f, round, b)
  {
    Xor7Undoes(a.left, f(round, a.right));
    Xor7Undoes(b.left, f(round, b.right));
  }

  /** Two digests that agree but for one round lead to different places once they differ there. */
  lemma {:induction false} RoundsDistinct(f: Mixer, g: Mixer, round: nat, n: nat, h: Half2)
    requires Valid(h) && round < n && Rounds(f, round + 1, h) != Rounds(g, round + 1, h)
    requires forall r, x :: round < r && 0 <= x ==> f(r, x) == g(r, x)
    ensures Rounds(f, n, h) != Rounds(g, n, h)
  {
    if round + 1 < n {
      RoundsDistinct(f, g, round, n - 1, h);
      RoundsUndo(f, n - 1, h);
      RoundsUndo(g, n - 1, h);
      RoundDistinct(f, n - 1, Rounds(f, n - 1, h), Rounds(g, n - 1, h));
    }
  }

  lemma {:induction false} SameRounds(f: Mixer, g: Mixer, n: nat, h: Half2)
    requires forall r, x :: 0 <= r < n && 0 <= x ==> f(r, x) == g(r, x)
    ensures Rounds(f, n, h) == Rounds(g, n, h)
  {
    if n > 0 { SameRounds(f, g, n - 1, h); }
  }

  /** The port depends on the first six rounds of the digest and on no other. */
  lemma SixRounds(f: Mixer, g: Mixer, ordinal: nat)
    requires forall r, x :: 0 <= r < 6 && 0 <= x ==> f(r, x) == g(r, x)
    ensures PortOf(f, ordinal) == PortOf(g, ordinal)
  {
    SameRounds(f, g, ROUNDS, Split(ordinal));
  }

  /** And on each of the six: for every reservation a digest that differs in that round alone gives another port. */
  lemma EveryRoundMatters(ordinal: nat, round: nat) returns (f: Mixer, g: Mixer)
    requires ordinal < UNIVERSE && round < 6
    ensures forall r, x :: 0 <= r && 0 <= x && r != round ==> f(r, x) == g(r, x)
    ensures PortOf(f, ordinal) != PortOf(g, ordinal)
  {
    f := (r: nat, x: nat) => 0;
    g := (r: nat, x: nat) => if r == round then 1 else 0;
    var h := Split(ordinal);
    JoinSplit(ordinal);
    SameRounds(f, g, round, h);
    RoundsUndo(f, round, h);
    var m := Rounds(f, round, h);
    XorOneDiffers(m.left);
    RoundsDistinct(f, g, round, ROUNDS, h);
    RoundsUndo(f, ROUNDS, h);
    RoundsUndo(g, ROUNDS, h);
    SplitJoin(Rounds(f, ROUNDS, h));
    SplitJoin(Rounds(g, ROUNDS, h));
  }

  lemma XorOneDiffers(a: nat)
    requires a < HALF
    ensures Xor7(a, 0) != Xor7(a, 1)
  {
    assert Xor(a, 0, 7) % 2 == a % 2 && Xor(a, 1, 7) % 2 != a % 2;
  }

  lemma OrdinalOfBijective(f: Mixer, port: nat)
    requires BASE <= port < BASE + UNIVERSE
    ensures OrdinalOf(f, port) < UNIVERSE && PortOf(f, OrdinalOf(f, port)) == port
  {
    JoinSplit(port - BASE);
    UnroundsUndo(f, ROUNDS, Split(port - BASE));
    SplitJoin(Unrounds(f, ROUNDS, Split(port - BASE)));
  }

  // ----- the allocator -----------------------------------------------------------------------------

  const SEQUENTIAL_BASE: nat := 40000
  const SEQUENTIAL_LIMIT: nat := 9000

  function Ports(f: Mixer, n: nat): seq<nat> { seq(n, i requires 0 <= i < n => PortOf(f, i)) }

  class Router {
    const uniform: bool                  // apdm_uniform16/1
    const mixers: nat -> Mixer           // one keyed function per remote
    var perTarget: map<nat, nat>
    var next: nat
    ghost var issued: map<nat, seq<nat>> // what each remote has been given, in order

    ghost predicate Inv()
      reads this
    {
      && perTarget.Keys == issued.Keys
      && (forall t :: t in perTarget ==> perTarget[t] <= UNIVERSE && issued[t] == Ports(mixers(t), perTarget[t]))
      && next <= SEQUENTIAL_LIMIT
    }

    constructor (uniform: bool, mixers: nat -> Mixer)
      ensures Inv() && perTarget == map[] && next == 0 && this.uniform == uniform && this.mixers == mixers
    {
      this.uniform, this.mixers, perTarget, next, issued := uniform, mixers, map[], 0, map[];
    }

    /** The round loop. */
    method Permute(f: Mixer, ordinal: nat) returns (port: nat)
      ensures port == PortOf(f, ordinal)
    {
      var left: nat, right: nat := ordinal / HALF, ordinal % HALF;
      for round := 0 to ROUNDS
        invariant Half2(left, right) == Rounds(f, round, Split(ordinal))
      {
        left, right := right, Xor7(left, f(round, right));
      }
      return BASE + left * HALF + right;
    }

    method ReservePort(target: nat) returns (port: Option<nat>)
      requires Inv()
      modifies this
      ensures Inv()
      ensures uniform ==> next == old(next)
      ensures !uniform ==> perTarget == old(perTarget) && issued == old(issued)
      ensures
        var count := if target in old(perTarget) then old(perTarget)[target] else 0;
        uniform ==> && (port == None <==> count >= UNIVERSE)
                    && (port.Some? ==> && issued == old(issued)[target := Ports(mixers(target), count) + [port.value]]
                                       && perTarget == old(perTarget)[target := count + 1])
                    && (port == None ==> perTarget == old(perTarget) && issued == old(issued))
      ensures !uniform ==> && (port == None <==> old(next) == SEQUENTIAL_LIMIT)
                           && (port.Some? ==> port.value == SEQUENTIAL_BASE + old(next) && next == old(next) + 1)
                           && (port == None ==> next == old(next))
    {
      if uniform {
        port := ReserveUniform(target);
      } else if next < SEQUENTIAL_LIMIT {
        port := Some(SEQUENTIAL_BASE + next);
        next := next + 1;
      } else {
        port := None;
      }
    }

    method ReserveUniform(target: nat) returns (port: Option<nat>)
      requires Inv()
      modifies this`perTarget, this`issued
      ensures Inv()
      ensures
        var count := if target in old(perTarget) then old(perTarget)[target] else 0;
        && (port == None <==> count >= UNIVERSE)
        && (port.Some? ==> && issued == old(issued)[target := Ports(mixers(target), count) + [port.value]]
                           && perTarget == old(perTarget)[target := count + 1])
        && (port == None ==> perTarget == old(perTarget) && issued == old(issued))
    {
      var ordinal := if target in perTarget then perTarget[target] else 0;
      if ordinal >= UNIVERSE { return None; }
      var p := Permute(mixers(target), ordinal);
      PortsGrow(mixers(target), ordinal);
      perTarget := perTarget[target := ordinal + 1];
      issued := issued[target := Ports(mixers(target), ordinal) + [p]];
      return Some(p);
    }
  }

  lemma PortsGrow(f: Mixer, n: nat)
    ensures Ports(f, n + 1) == Ports(f, n) + [PortOf(f, n)]
  {
  }

  /** After any number of reservations for one remote, its ports are pairwise distinct and in range. */
  lemma PortsDistinct(f: Mixer, n: nat, i: nat, j: nat)
    requires i < j < n <= UNIVERSE
    ensures Ports(f, n)[i] != Ports(f, n)[j] && BASE <= Ports(f, n)[i] <= 65535
  {
    PortOfBijective(f, i);
    PortOfBijective(f, j);
  }

  /** And 16384 of them are every port of the range. */
  lemma PortsCover(f: Mixer, port: nat)
    requires BASE <= port <= 65535
    ensures port in Ports(f, UNIVERSE)
  {
    OrdinalOfBijective(f, port);
    assert Ports(f, UNIVERSE)[OrdinalOf(f, port)] == port;
  }
}
