/** The router's IPv4/UDP packets (internal/c1crouter/model.go, parseUDP, encodeUDP, checksum); the header
    checksum is that of section 3.1 of RFC 791. */
module UdpCodec {
  import opened Basics

  /** Four address bytes for IPv4; anything else is not encoded. */
  datatype Endpoint = Endpoint(addr: seq<byte>, port: nat)

  datatype Datagram = Datagram(source: Endpoint, target: Endpoint, payload: seq<byte>)

  const MAX_PAYLOAD: nat := 65507

  function High(x: nat): byte { (x / 256) % 256 }

  function Low(x: nat): byte { x % 256 }

  function Word(a: byte, b: byte): nat { a * 256 + b }

  lemma WordParts(x: nat)
    requires x < 65536
    ensures Word(High(x), Low(x)) == x
  {
  }

  // ----- checksum -----------------------------------------------------------------------------------

  function WordAt(p: seq<byte>, i: nat): (w: nat)
    requires 2 * i + 2 <= |p|
    ensures w <= 65535
  {
    Word(p[2 * i], p[2 * i + 1])
  }

  /** The sum of the first n big-endian words, kept in 32 bits. */
  function SumTo(p: seq<byte>, n: nat): nat
    requires 2 * n <= |p|
  {
    if n == 0 then 0 else (SumTo(p, n - 1) + WordAt(p, n - 1)) % 0x1_0000_0000
  }

  function Sum(p: seq<byte>): nat { SumTo(p, |p| / 2) }

  /** End-around carry until one word is left. */
  function Fold(s: nat): (r: nat)
    ensures r <= 65535
    decreases s
  {
    if s < 65536 then s else Fold(s % 65536 + s / 65536)
  }

  function Checksum(p: seq<byte>): nat { 65535 - Fold(Sum(p)) }

  lemma CarryKeepsResidue(q: nat, r: nat)
    ensures (r + q) % 65535 == (65536 * q + r) % 65535
  {
    var k, m := (r + q) / 65535, (r + q) % 65535;
    assert 65536 * q + r == 65535 * (k + q) + m;
  }

  /** Folding keeps the value modulo 65535 and never turns a positive sum into zero. */
  lemma {:induction false} FoldKeepsResidue(s: nat)
    ensures Fold(s) % 65535 == s % 65535
    ensures s > 0 ==> Fold(s) > 0
    decreases s
  {
    if s >= 65536 {
      CarryKeepsResidue(s / 65536, s % 65536);
      FoldKeepsResidue(s % 65536 + s / 65536);
    }
  }

  /** Adding the complement of a folded sum folds to all ones. */
  lemma ComplementFolds(s: nat)
    requires s > 0
    ensures Fold(s + (65535 - Fold(s))) == 65535
  {
    FoldKeepsResidue(s);
    ComplementResidue(s, Fold(s));
    FoldKeepsResidue(s + (65535 - Fold(s)));
  }

  lemma ComplementResidue(s: nat, f: nat)
    requires f <= 65535 && f % 65535 == s % 65535
    ensures (s + (65535 - f)) % 65535 == 0
  {
    var q := s / 65535;
    assert s == 65535 * q + s % 65535;
  }

  /** checksum: one loop adds, one folds. */
  method ComputeChecksum(p: seq<byte>) returns (c: nat)
    ensures c == Checksum(p)
  {
    var s := AddWords(p);
    s := FoldDown(s);
    c := 65535 - s;
  }

  method AddWords(p: seq<byte>) returns (s: nat)
    ensures s == Sum(p)
  {
    s := 0;
    var i, words := 0, 0;
    while i + 1 < |p|
      invariant 0 <= i <= |p| && i == 2 * words
      invariant s == SumTo(p, words)
    {
      s := (s + Word(p[i], p[i + 1])) % 0x1_0000_0000;
      i, words := i + 2, words + 1;
    }
  }

  lemma Carries(s: nat)
    requires s >= 65536
    ensures s % 65536 + s / 65536 < s && Fold(s) == Fold(s % 65536 + s / 65536)
  {
  }

  /** Each carry makes the sum smaller. */
  method FoldDown(sum: nat) returns (s: nat)
    ensures s == Fold(sum)
  {
    s := sum;
    while s >= 65536
      invariant Fold(s) == Fold(sum)
      decreases s
    {
      Carries(s);
      s := s % 65536 + s / 65536;
    }
  }

  // ----- the packet ----------------------------------------------------------------------------------

  predicate Encodable(e: Endpoint) { |e.addr| == 4 && 0 < e.port < 65536 }

  /** The 20 header bytes around a given checksum. */
  function Header(source: Endpoint, target: Endpoint, length: nat, sum: nat): seq<byte>
    requires Encodable(source) && Encodable(target)
  {
    [0x45, 0, High(length), Low(length), 0, 0, 0, 0, 64, 17, High(sum), Low(sum)] + source.addr + target.addr
  }

  function Transport(source: Endpoint, target: Endpoint, payload: seq<byte>): seq<byte> {
    [High(source.port), Low(source.port), High(target.port), Low(target.port),
     High(8 + |payload|), Low(8 + |payload|), 0, 0] + payload
  }

  function FullHeader(source: Endpoint, target: Endpoint, length: nat): seq<byte>
    requires Encodable(source) && Encodable(target)
  {
    Header(source, target, length, Checksum(Header(source, target, length, 0)))
  }

  /** The packet that carries this datagram. */
  function Packet(d: Datagram): seq<byte>
    requires Encodable(d.source) && Encodable(d.target)
  {
    FullHeader(d.source, d.target, 28 + |d.payload|) + Transport(d.source, d.target, d.payload)
  }

  function Parse(packet: seq<byte>): Option<Datagram> {
    if |packet| < 28 || packet[0] / 16 != 4 || packet[9] != 17 then None
    else
      var h: nat := (packet[0] % 16) * 4;
      var n := Word(packet[2], packet[3]);
      if h < 20 || n < h + 8 || n != |packet| || Word(packet[6], packet[7]) % 0x4000 != 0 then None
      else
        var u := packet[h..n];
        if Word(u[4], u[5]) != |u| then None
        else
          var source := Endpoint(packet[12..16], Word(u[0], u[1]));
          var target := Endpoint(packet[16..20], Word(u[2], u[3]));
          if source.port == 0 || target.port == 0 then None else Some(Datagram(source, target, u[8..]))
  }

  /** parseUDP undoes encodeUDP for every pair of endpoints and every payload that fits. */
  lemma RoundTrip(d: Datagram)
    requires Encodable(d.source) && Encodable(d.target) && |d.payload| <= MAX_PAYLOAD
    ensures Parse(Packet(d)) == Some(d)
  {
    var h, u := FullHeader(d.source, d.target, 28 + |d.payload|), Transport(d.source, d.target, d.payload);
    HeaderFields(d.source, d.target, 28 + |d.payload|);
    TransportFields(d);
    ParseFields(h, u, d);
  }

  predicate HeaderSays(h: seq<byte>, source: Endpoint, target: Endpoint, length: nat) {
    && |h| == 20 && h[0] == 0x45 && h[9] == 17 && h[6] == 0 && h[7] == 0 && Word(h[2], h[3]) == length
    && h[1] == 0 && h[4] == 0 && h[5] == 0 && h[8] == 64
    && h[12..16] == source.addr && h[16..20] == target.addr
  }

  predicate TransportSays(u: seq<byte>, d: Datagram) {
    && |u| == 8 + |d.payload|
    && Word(u[0], u[1]) == d.source.port && Word(u[2], u[3]) == d.target.port && Word(u[4], u[5]) == |u|
    && u[8..] == d.payload
  }

  lemma ParseFields(h: seq<byte>, u: seq<byte>, d: Datagram)
    requires Encodable(d.source) && Encodable(d.target)
    requires HeaderSays(h, d.source, d.target, 28 + |d.payload|) && TransportSays(u, d)
    ensures Parse(h + u) == Some(d)
  {
    var p := h + u;
    assert p[20..|p|] == u;
    assert p[12..16] == h[12..16] && p[16..20] == h[16..20];
  }

  lemma HeaderFields(source: Endpoint, target: Endpoint, length: nat)
    requires Encodable(source) && Encodable(target) && length < 65536
    ensures HeaderSays(FullHeader(source, target, length), source, target, length)
  {
    WordParts(length);
  }

  lemma TransportFields(d: Datagram)
    requires d.source.port < 65536 && d.target.port < 65536 && |d.payload| <= MAX_PAYLOAD
    ensures TransportSays(Transport(d.source, d.target, d.payload), d)
  {
    WordParts(8 + |d.payload|);
    WordParts(d.source.port);
    WordParts(d.target.port);
  }

  /** A header of version 4, of any length, of a packet of `total` bytes that is not a fragment and carries UDP. */
  predicate HeaderOf(h: seq<byte>, total: nat, source: seq<byte>, target: seq<byte>) {
    && 20 <= |h| <= 60 && |h| % 4 == 0 && h[0] == 64 + |h| / 4 && h[9] == 17 && Word(h[2], h[3]) == total
    && h[6] % 64 == 0 && h[7] == 0 && h[12..16] == source && h[16..20] == target
  }

  /** The packet is such a header and one UDP datagram that fills the rest. */
  ghost predicate Bears(packet: seq<byte>, d: Datagram) {
    && Encodable(d.source) && Encodable(d.target)
    && exists n {:trigger packet[..n]} :: 0 <= n <= |packet|
         && HeaderOf(packet[..n], |packet|, d.source.addr, d.target.addr) && TransportSays(packet[n..], d)
  }

  lemma CarriedParses(packet: seq<byte>, d: Datagram)
    requires Bears(packet, d)
    ensures Parse(packet) == Some(d)
  {
    var n :| 0 <= n <= |packet| && HeaderOf(packet[..n], |packet|, d.source.addr, d.target.addr)
      && TransportSays(packet[n..], d);
    var h, u := packet[..n], packet[n..];
    assert h[0] == packet[0] && h[2] == packet[2] && h[3] == packet[3] && h[6] == packet[6] && h[7] == packet[7];
    assert packet[12..16] == h[12..16] && packet[16..20] == h[16..20] && h[9] == packet[9];
    FlagsOnly(packet[6], packet[7]);
    HeaderLength(packet[0], n);
    assert packet[n..|packet|] == u;
  }

  lemma HeaderLength(first: byte, n: nat)
    requires 20 <= n <= 60 && n % 4 == 0 && first as int == 64 + n / 4
    ensures first / 16 == 4 && (first % 16) * 4 == n
  {
  }

  /** The low fourteen bits of a word are zero exactly when those of its bytes are. */
  lemma FlagsOnly(high: byte, low: byte)
    ensures Word(high, low) % 0x4000 == 0 <==> high % 64 == 0 && low == 0
  {
    var q, r := high / 64, high % 64;
    assert Word(high, low) == 0x4000 * q + (256 * r + low);
  }

  lemma ParsedCarries(packet: seq<byte>)
    requires Parse(packet).Some?
    ensures Bears(packet, Parse(packet).value)
  {
    var d := Parse(packet).value;
    var n: nat := (packet[0] % 16) * 4;
    var h, u := packet[..n], packet[n..];
    assert u == packet[n..|packet|];
    assert h[0] == packet[0] && h[2] == packet[2] && h[3] == packet[3] && h[6] == packet[6] && h[7] == packet[7];
    assert packet[12..16] == h[12..16] && packet[16..20] == h[16..20] && h[9] == packet[9];
    FlagsOnly(packet[6], packet[7]);
  }

  /** parseUDP accepts exactly the whole, unfragmented packets, and gives the datagram they carry. */
  lemma ParseLaw(packet: seq<byte>, d: Datagram)
    ensures Parse(packet) == Some(d) <==> Bears(packet, d)
  {
    if Bears(packet, d) { CarriedParses(packet, d); }
    if Parse(packet) == Some(d) { ParsedCarries(packet); }
  }

  /** No packet that parses is the beginning of another. */
  lemma NothingBehind(packet: seq<byte>, more: seq<byte>)
    requires Parse(packet).Some? && more != []
    ensures Parse(packet + more) == None
  {
    var p := packet + more;
    assert p[2] == packet[2] && p[3] == packet[3];
  }

  /** Whatever parses could have been encoded. */
  lemma ParsedIsEncodable(packet: seq<byte>)
    requires Parse(packet).Some?
    ensures
      var d := Parse(packet).value;
      Encodable(d.source) && Encodable(d.target) && |d.payload| <= MAX_PAYLOAD && Parse(Packet(d)) == Some(d)
  {
    RoundTrip(Parse(packet).value);
  }

  /** Word 5 of one header is `c` more than that of another; the rest agrees. */
  predicate DifferBy(a: seq<byte>, b: seq<byte>, c: nat) {
    && |a| == |b| == 20
    && (forall i :: 0 <= i < 10 && i != 5 ==> WordAt(a, i) == WordAt(b, i)) && WordAt(a, 5) == WordAt(b, 5) + c
  }

  /** So few words never leave the 32 bits. */
  lemma {:induction false} SumIsPlain(p: seq<byte>, n: nat)
    requires 2 * n <= |p| && n <= 10
    ensures SumTo(p, n) <= 65535 * n
    ensures n > 0 ==> SumTo(p, n) == SumTo(p, n - 1) + WordAt(p, n - 1)
  {
    if n > 0 {
      SumIsPlain(p, n - 1);
      var x := SumTo(p, n - 1) + WordAt(p, n - 1);
      assert x < 0x1_0000_0000;
      assert x % 0x1_0000_0000 == x;
    }
  }

  lemma {:induction false} SumsDiffer(a: seq<byte>, b: seq<byte>, c: nat, n: nat)
    requires DifferBy(a, b, c) && n <= 10 && c <= 65535
    ensures SumTo(a, n) == SumTo(b, n) + if n > 5 then c else 0
    ensures n > 0 ==> SumTo(b, n) >= WordAt(b, 0)
  {
    if n > 0 {
      SumsDiffer(a, b, c, n - 1);
      SumIsPlain(a, n);
      SumIsPlain(b, n);
    }
  }

  lemma HeadersDiffer(source: Endpoint, target: Endpoint, length: nat, c: nat)
    requires Encodable(source) && Encodable(target) && c <= 65535
    ensures DifferBy(Header(source, target, length, c), Header(source, target, length, 0), c)
    ensures WordAt(Header(source, target, length, 0), 0) > 0
  {
    var a, b := Header(source, target, length, c), Header(source, target, length, 0);
    WordParts(c);
    forall i | 0 <= i < 10 && i != 5 ensures WordAt(a, i) == WordAt(b, i) {
      assert a[2 * i] == b[2 * i] && a[2 * i + 1] == b[2 * i + 1];
    }
  }

  /** Recomputing the checksum over the finished header gives zero. */
  lemma HeaderSumsToZero(source: Endpoint, target: Endpoint, length: nat)
    requires Encodable(source) && Encodable(target)
    ensures Checksum(FullHeader(source, target, length)) == 0
  {
    var bare := Header(source, target, length, 0);
    var c := Checksum(bare);
    HeadersDiffer(source, target, length, c);
    SumsDiffer(FullHeader(source, target, length), bare, c, 10);
    ComplementFolds(Sum(bare));
  }

  // ----- encoding in place ---------------------------------------------------------------------------

  method PutWord(p: array<byte>, i: nat, x: nat)
    requires i + 2 <= p.Length
    modifies p
    ensures p[..] == old(p[..])[i := High(x)][i + 1 := Low(x)]
  {
    p[i], p[i + 1] := High(x), Low(x);
  }

  method Copy(p: array<byte>, i: nat, bytes: seq<byte>)
    requires i + |bytes| <= p.Length
    modifies p
    ensures p[..] == old(p[..])[..i] + bytes + old(p[..])[i + |bytes|..]
  {
    forall j | 0 <= j < |bytes| { p[i + j] := bytes[j]; }
  }

  /** encodeUDP: everything that is not IPv4 on both sides, has a zero port or is too long is refused. */
  method Encode(d: Datagram) returns (r: Option<seq<byte>>)
    requires d.source.port < 65536 && d.target.port < 65536
    ensures r.Some? <==> Encodable(d.source) && Encodable(d.target) && |d.payload| <= MAX_PAYLOAD
    ensures r.Some? ==> r.value == Packet(d)
  {
    if !Encodable(d.source) || !Encodable(d.target) || |d.payload| > MAX_PAYLOAD { return None; }
    var p := new byte[28 + |d.payload|](_ => 0);
    FillHeader(p, d);
    ghost var header := p[..20];
    FillTransport(p, d);
    assert p[..] == header + Transport(d.source, d.target, d.payload);
    return Some(p[..]);
  }

  method FillHeader(p: array<byte>, d: Datagram)
    requires Encodable(d.source) && Encodable(d.target) && p.Length == 28 + |d.payload|
    requires forall i :: 0 <= i < p.Length ==> p[i] == 0
    modifies p
    ensures p[..20] == FullHeader(d.source, d.target, p.Length)
    ensures forall i :: 20 <= i < p.Length ==> p[i] == 0
  {
    FillBare(p, d);
    ghost var bare := p[..20];
    var sum := ComputeChecksum(p[..20]);
    PutWord(p, 10, sum);
    assert p[..20] == WithSum(bare, sum);
    SumInPlace(d.source, d.target, p.Length, sum);
  }

  function WithSum(header: seq<byte>, sum: nat): seq<byte>
    requires |header| == 20
  {
    header[..10] + [High(sum), Low(sum)] + header[12..]
  }

  lemma SumInPlace(source: Endpoint, target: Endpoint, length: nat, sum: nat)
    requires Encodable(source) && Encodable(target)
    ensures Header(source, target, length, sum) == WithSum(Header(source, target, length, 0), sum)
  {
  }

  method FillBare(p: array<byte>, d: Datagram)
    requires Encodable(d.source) && Encodable(d.target) && p.Length == 28 + |d.payload|
    requires forall i :: 0 <= i < p.Length ==> p[i] == 0
    modifies p
    ensures p[..20] == Header(d.source, d.target, p.Length, 0)
    ensures forall i :: 20 <= i < p.Length ==> p[i] == 0
  {
    p[0], p[8], p[9] := 0x45, 64, 17;
    PutWord(p, 2, p.Length);
    ghost var before := p[..];
    Copy(p, 12, d.source.addr + d.target.addr);
    assert p[..20] == before[..12] + d.source.addr + d.target.addr;
  }

  method FillTransport(p: array<byte>, d: Datagram)
    requires p.Length == 28 + |d.payload| && forall i :: 20 <= i < p.Length ==> p[i] == 0
    modifies p
    ensures p[..20] == old(p[..20]) && p[20..] == Transport(d.source, d.target, d.payload)
  {
    PutWord(p, 20, d.source.port);
    PutWord(p, 22, d.target.port);
    PutWord(p, 24, 8 + |d.payload|);
    Copy(p, 28, d.payload);
  }
}
