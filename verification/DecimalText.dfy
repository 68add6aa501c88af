/** Lists of numbers as decimal text: different lists have different texts, and a list of numbers of
    ordinary size has a short one. Codecs built on it meet what the journal and the safety latch ask of theirs. */
module DecimalText {
  import opened Basics

  const MARK: byte := 10

  function Digits(n: nat): (text: seq<byte>)
    ensures text != [] && forall i :: 0 <= i < |text| ==> text[i] < MARK
  {
    if n < 10 then [n] else Digits(n / 10) + [n % 10]
  }

  /** Each number is followed by a mark. */
  function Line(ns: seq<nat>): seq<byte> {
    if ns == [] then [] else Digits(ns[0]) + [MARK] + Line(ns[1..])
  }

  function PowerOfTen(k: nat): nat { if k == 0 then 1 else 10 * PowerOfTen(k - 1) }

  lemma {:induction false} DigitsDiffer(m: nat, n: nat)
    requires Digits(m) == Digits(n)
    ensures m == n
  {
    if m >= 10 && n >= 10 {
      var a, b := Digits(m / 10), Digits(n / 10);
      assert a == Digits(m)[..|Digits(m)| - 1] == b;
      assert m % 10 == Digits(m)[|Digits(m)| - 1] == n % 10;
      DigitsDiffer(m / 10, n / 10);
    }
  }

  /** The first mark ends the first number. */
  lemma LineSplits(a: seq<byte>, x: seq<byte>, b: seq<byte>, y: seq<byte>)
    requires forall i :: 0 <= i < |a| ==> a[i] < MARK
    requires forall i :: 0 <= i < |b| ==> b[i] < MARK
    requires a + [MARK] + x == b + [MARK] + y
    ensures a == b && x == y
  {
    var s, t := a + [MARK] + x, b + [MARK] + y;
    assert s[|a|] == MARK && t[|b|] == MARK;
    assert a == s[..|a|] == t[..|b|] == b;
    assert x == s[|a| + 1..] == t[|b| + 1..] == y;
  }

  lemma {:induction false} LinesDiffer(ms: seq<nat>, ns: seq<nat>)
    requires Line(ms) == Line(ns)
    ensures ms == ns
  {
    if ms != [] && ns != [] {
      LineSplits(Digits(ms[0]), Line(ms[1..]), Digits(ns[0]), Line(ns[1..]));
      DigitsDiffer(ms[0], ns[0]);
      LinesDiffer(ms[1..], ns[1..]);
      assert ms == [ms[0]] + ms[1..] == [ns[0]] + ns[1..] == ns;
    }
  }

  lemma {:induction false} DigitsShort(n: nat, k: nat)
    requires k > 0 && n < PowerOfTen(k)
    ensures |Digits(n)| <= k
  {
    if n >= 10 {
      assert n / 10 < PowerOfTen(k - 1);
      DigitsShort(n / 10, k - 1);
    }
  }

  lemma {:induction false} LineShort(ns: seq<nat>, k: nat)
    requires 0 < k <= 80 && forall i :: 0 <= i < |ns| ==> ns[i] < PowerOfTen(k)
    ensures |Line(ns)| <= 81 * |ns|
  {
    if ns != [] {
      DigitsShort(ns[0], k);
      LineShort(ns[1..], k);
    }
  }

  function Signed(x: int): (n: nat)
    ensures x == if n % 2 == 0 then n / 2 else -(n + 1) / 2
  {
    if x >= 0 then 2 * x else -2 * x - 1
  }

  function Flag(b: bool): (n: nat)
    ensures b <==> n == 1
  {
    if b then 1 else 0
  }
}
