/** The two rate limiters: probe sends (internal/probeio/probeio.go, reserveSendLocked) and automatic
    control packets of an active session (internal/probeio/wireguard_active_policy.go, beforeWrite).
    Both are exact: they decide as if they counted the whole history. Times are nanoseconds. */
module SlidingWindow {

  const SECOND: int := 1_000_000_000

  predicate Sorted(h: seq<int>) { forall i, j :: 0 <= i < j < |h| ==> h[i] <= h[j] }

  /** How many of these times lie within the second before `now`. */
  function Recent(h: seq<int>, now: int): nat {
    if h == [] then 0 else Recent(h[..|h| - 1], now) + if h[|h| - 1] > now - SECOND then 1 else 0
  }

  /** How many lie in the window (t - 1s, t]. */
  function InWindow(h: seq<int>, t: int): nat {
    if h == [] then 0 else InWindow(h[..|h| - 1], t) + if t - SECOND < h[|h| - 1] <= t then 1 else 0
  }

  /** Every time was added with fewer than `limit` in the second before it. */
  predicate Paced(h: seq<int>, limit: nat) {
    h == [] || (Paced(h[..|h| - 1], limit) && Recent(h[..|h| - 1], h[|h| - 1]) < limit)
  }

  /** Then no sliding second, wherever it ends, holds more than `limit`. */
  lemma {:induction false} PacedBounds(h: seq<int>, limit: nat, t: int)
    requires Sorted(h) && Paced(h, limit)
    ensures InWindow(h, t) <= limit
  {
    if h != [] {
      var init, last := h[..|h| - 1], h[|h| - 1];
      PacedBounds(init, limit, t);
      if last <= t { WindowWithinRecent(init, last, t); }
    }
  }

  lemma {:induction false} WindowWithinRecent(h: seq<int>, now: int, t: int)
    requires now <= t
    ensures InWindow(h, t) <= Recent(h, now)
  {
    if h != [] { WindowWithinRecent(h[..|h| - 1], now, t); }
  }

  lemma {:induction false} RecentAppend(a: seq<int>, b: seq<int>, now: int)
    ensures Recent(a + b, now) == Recent(a, now) + Recent(b, now)
  {
    if b == [] {
      assert a + b == a;
    } else {
      RecentAppend(a, b[..|b| - 1], now);
      assert (a + b)[..|a + b| - 1] == a + b[..|b| - 1];
    }
  }

  lemma {:induction false} AllOld(h: seq<int>, now: int)
    requires forall i :: 0 <= i < |h| ==> h[i] <= now - SECOND
    ensures Recent(h, now) == 0
  {
    if h != [] { AllOld(h[..|h| - 1], now); }
  }

  lemma {:induction false} AllNew(h: seq<int>, now: int)
    requires forall i :: 0 <= i < |h| ==> h[i] > now - SECOND
    ensures Recent(h, now) == |h|
  {
    if h != [] { AllNew(h[..|h| - 1], now); }
  }

  /** What a limiter kept, next to what it dropped because it was a second old at `horizon`. */
  predicate KeptOf(history: seq<int>, kept: seq<int>, horizon: int) {
    && |kept| <= |history| && history[|history| - |kept|..] == kept
    && (forall i :: 0 <= i < |history| - |kept| ==> history[i] <= horizon - SECOND)
  }

  /** Keeping only young entries loses nothing. */
  lemma KeptCounts(history: seq<int>, kept: seq<int>, horizon: int, now: int)
    requires KeptOf(history, kept, horizon) && horizon <= now
    ensures Recent(history, now) == Recent(kept, now)
  {
    var cut := |history| - |kept|;
    var dropped := history[..cut];
    assert dropped + kept == history;
    RecentAppend(dropped, kept, now);
    assert Recent(dropped, now) == 0 by {
      forall i | 0 <= i < |dropped| ensures dropped[i] <= now - SECOND { assert dropped[i] == history[i]; }
      AllOld(dropped, now);
    }
  }

  predicate UpTo(h: seq<int>, now: int) { forall i :: 0 <= i < |h| ==> h[i] <= now }

  /** A limiter's books: an ordered, paced history of which the young part is kept. */
  predicate Books(history: seq<int>, kept: seq<int>, limit: nat, now: int) {
    Sorted(history) && UpTo(history, now) && Paced(history, limit) && KeptOf(history, kept, now)
  }

  lemma BooksAge(history: seq<int>, kept: seq<int>, limit: nat, before: int, now: int)
    requires Books(history, kept, limit, before) && before <= now
    ensures Books(history, kept, limit, now)
  {
  }

  lemma PacedAppend(history: seq<int>, limit: nat, now: int)
    requires Paced(history, limit) && Recent(history, now) < limit
    ensures Paced(history + [now], limit)
  {
    var next := history + [now];
    assert next[..|next| - 1] == history && next[|next| - 1] == now;
  }

  lemma KeptAppend(history: seq<int>, kept: seq<int>, now: int)
    requires KeptOf(history, kept, now)
    ensures KeptOf(history + [now], kept + [now], now)
  {
    var cut := |history| - |kept|;
    assert (history + [now])[cut..] == history[cut..] + [now];
  }

  lemma BooksAppend(history: seq<int>, kept: seq<int>, limit: nat, now: int)
    requires Books(history, kept, limit, now) && Recent(history, now) < limit
    ensures Books(history + [now], kept + [now], limit, now)
  {
    PacedAppend(history, limit, now);
    KeptAppend(history, kept, now);
  }

  // ----- probe sends ----------------------------------------------------------------------------

  class SendBudget {
    const packets: nat
    const perSecond: nat
    var sent: nat
    var times: seq<int>
    ghost var history: seq<int>

    ghost predicate Inv(now: int)
      reads this
    {
      sent == |history| <= packets && Books(history, times, perSecond, now)
    }

    constructor (packets: nat, perSecond: nat, now: int)
      ensures Inv(now) && history == [] && this.packets == packets && this.perSecond == perSecond
    {
      this.packets, this.perSecond, sent, times, history := packets, perSecond, 0, [], [];
    }

    /** How many sends at the front of the list are a second old. */
    method Expired(now: int) returns (first: nat)
      ensures first <= |times| && forall i :: 0 <= i < first ==> times[i] <= now - SECOND
      ensures first < |times| ==> times[first] > now - SECOND
    {
      first := 0;
      while first < |times| && times[first] <= now - SECOND
        invariant 0 <= first <= |times|
        invariant forall i :: 0 <= i < first ==> times[i] <= now - SECOND
      {
        first := first + 1;
      }
    }

    /** Admits exactly when the total is not used up and the whole history shows fewer than
        `perSecond` sends in the second before `now`. `before` is the previous clock reading. */
    method Reserve(before: int, now: int) returns (ok: bool)
      requires Inv(before) && before <= now
      modifies this
      ensures Inv(now)
      ensures ok <==> |old(history)| < packets && Recent(old(history), now) < perSecond
      ensures history == if ok then old(history) + [now] else old(history)
    {
      if sent >= packets {
        BooksAge(history, times, perSecond, before, now);
        return false;
      }
      DropExpired(before, now);
      if |times| >= perSecond { return false; }
      BooksAppend(history, times, perSecond, now);
      sent := sent + 1;
      times := times + [now];
      history := history + [now];
      return true;
    }

    method DropExpired(before: int, now: int)
      requires Books(history, times, perSecond, before) && before <= now
      modifies this`times
      ensures Books(history, times, perSecond, now) && Recent(history, now) == |times|
    {
      var first := Expired(now);
      Compacted(history, times, first, before, now);
      times := times[first..];
    }
  }

  /** Dropping the expired front leaves exactly the sends of the last second. */
  lemma Compacted(history: seq<int>, times: seq<int>, first: nat, before: int, now: int)
    requires Sorted(history) && KeptOf(history, times, before) && before <= now && first <= |times|
    requires forall i :: 0 <= i < first ==> times[i] <= now - SECOND
    requires first < |times| ==> times[first] > now - SECOND
    ensures KeptOf(history, times[first..], now) && Recent(history, now) == |times| - first
  {
    var cut := |history| - |times|;
    assert forall i :: 0 <= i < |times| ==> times[i] == history[cut + i];
    assert history[cut + first..] == times[first..];
    forall i | 0 <= i < |times[first..]| ensures times[first..][i] > now - SECOND {
      assert times[first] <= times[first + i];
    }
    AllNew(times[first..], now);
    forall i | 0 <= i < cut + first ensures history[i] <= now - SECOND {
      if i >= cut { assert history[i] == times[i - cut]; }
    }
    KeptCounts(history, times[first..], now, now);
  }

  /** Over any run of clock readings, in order: no sliding second holds more than `perSecond` sends, and
      there are never more than `packets`. */
  method RunSends(budget: SendBudget, start: int, clock: seq<int>, t: int)
    requires budget.Inv(start) && Sorted(clock) && forall i :: 0 <= i < |clock| ==> start <= clock[i]
    modifies budget
    ensures InWindow(budget.history, t) <= budget.perSecond && |budget.history| <= budget.packets
  {
    var now := start;
    for i := 0 to |clock|
      invariant budget.Inv(now) && forall j :: i <= j < |clock| ==> now <= clock[j]
    {
      var ok := budget.Reserve(now, clock[i]);
      now := clock[i];
    }
    PacedBounds(budget.history, budget.perSecond, t);
  }

  // ----- control packets of an active session ------------------------------------------------------

  const SLOTS: nat := 4

  function ControlLimit(ceiling: nat): nat { 4 * (ceiling / SECOND + if ceiling % SECOND != 0 then 1 else 0) }

  /** The window is a fixed array of four; `used` counts the slots in use. */
  class ControlBudget {
    const limit: nat
    const window: array<int>
    var used: nat
    var last: int
    var admitted: nat
    ghost var history: seq<int>

    /** Before the total is used up, everything dropped is a second older than the last admission. */
    ghost predicate Inv()
      reads this, window
    {
      && window.Length == SLOTS && used <= SLOTS && admitted == |history| <= limit && 0 <= last
      && Sorted(history) && UpTo(history, last) && Paced(history, SLOTS)
      && (admitted < limit ==> KeptOf(history, window[..used], last))
    }

    constructor (ceiling: nat)
      ensures Inv() && history == [] && limit == ControlLimit(ceiling) && fresh(window)
    {
      limit := ControlLimit(ceiling);
      window := new int[SLOTS];
      used, last, admitted, history := 0, 0, 0, [];
    }

    /** Keep, in place, the entries younger than a second. */
    method Compact(now: int)
      requires window.Length == SLOTS && used <= SLOTS
      modifies this`used, window
      ensures used <= old(used) && window[..used] == Younger(old(window[..used]), now)
    {
      var kept := 0;
      ghost var was := window[..];
      for i := 0 to used
        invariant 0 <= kept <= i && used == old(used)
        invariant window[..kept] == Younger(was[..i], now)
        invariant forall j :: i <= j < SLOTS ==> window[j] == was[j]
      {
        YoungerStep(was, i, now);
        assert window[i] == was[i];
        if now - window[i] < SECOND {
          ghost var young := window[..kept];
          window[kept] := window[i];
          kept := kept + 1;
          assert window[..kept] == young + [was[i]];
        }
      }
      used := kept;
    }

    /** Admits exactly when the clock has not gone back, the total is not used up and the whole history
        shows fewer than four admissions in the second before `now`; this holds for every clock. */
    method Admit(now: int) returns (ok: bool)
      requires Inv()
      modifies this`used, this`last, this`admitted, this`history, window
      ensures Inv()
      ensures ok <==> now >= old(last) && now >= 0 && Recent(old(history), now) < SLOTS && |old(history)| < limit
      ensures history == if ok then old(history) + [now] else old(history)
    {
      ghost var kept := window[..used];
      Compact(now);
      if admitted < limit {
        YoungerKept(history, kept, last, now);
        if now >= last { KeptCounts(history, kept, last, now); }
      }
      if now < last || now < 0 || used == SLOTS || admitted >= limit { return false; }
      Record(now);
      return true;
    }

    method Record(now: int)
      requires window.Length == SLOTS && used < SLOTS && admitted == |history| < limit && 0 <= now
      requires Books(history, window[..used], SLOTS, now) && Recent(history, now) < SLOTS
      modifies this`used, this`last, this`admitted, this`history, window
      ensures Inv() && history == old(history) + [now]
    {
      BooksAppend(history, window[..used], SLOTS, now);
      ghost var young := window[..used];
      last := now;
      window[used] := now;
      used := used + 1;
      assert window[..used] == young + [now];
      admitted := admitted + 1;
      history := history + [now];
    }
  }

  /** The entries younger than a second, in order. */
  function Younger(h: seq<int>, now: int): seq<int> {
    if h == [] then [] else Younger(h[..|h| - 1], now) + if now - h[|h| - 1] < SECOND then [h[|h| - 1]] else []
  }

  lemma YoungerStep(h: seq<int>, i: nat, now: int)
    requires i < |h|
    ensures Younger(h[..i + 1], now) == Younger(h[..i], now) + if now - h[i] < SECOND then [h[i]] else []
  {
    assert h[..i + 1][..i] == h[..i];
  }

  /** Of an ordered list they are a tail, and what is dropped is old. */
  lemma {:induction false} YoungerTail(h: seq<int>, now: int)
    requires Sorted(h)
    ensures |Younger(h, now)| == Recent(h, now) <= |h|
    ensures KeptOf(h, Younger(h, now), now)
  {
    if h != [] {
      var init, last := h[..|h| - 1], h[|h| - 1];
      YoungerTail(init, now);
      if now - last < SECOND {
        TailGrows(init, Younger(init, now), last, now);
        assert h == init + [last];
      } else {
        assert UpTo(init, last);
        AllOld(init, now);
        assert Younger(h, now) == [];
      }
    }
  }

  lemma TailGrows(init: seq<int>, kept: seq<int>, last: int, now: int)
    requires KeptOf(init, kept, now)
    ensures KeptOf(init + [last], kept + [last], now)
  {
    var cut := |init| - |kept|;
    assert (init + [last])[cut..] == init[cut..] + [last];
  }

  lemma YoungerKept(history: seq<int>, kept: seq<int>, last: int, now: int)
    requires Sorted(history) && KeptOf(history, kept, last)
    ensures |Younger(kept, now)| == Recent(kept, now) <= |kept|
    ensures KeptOf(history, Younger(kept, now), if last < now then now else last)
    ensures |Younger(kept, now)| == |kept| ==> Younger(kept, now) == kept
  {
    var cut := |history| - |kept|;
    assert forall i :: 0 <= i < |kept| ==> kept[i] == history[cut + i];
    YoungerTail(kept, now);
    var young := Younger(kept, now);
    var drop := |kept| - |young|;
    assert history[cut + drop..] == kept[drop..];
    forall i | 0 <= i < cut + drop ensures history[i] <= (if last < now then now else last) - SECOND {
      if i >= cut { assert history[i] == kept[i - cut]; }
    }
  }

  /** Over any run of readings, forward or backward: at most four admissions in every sliding second, and
      at most four for every started second of the ceiling. */
  method RunControl(budget: ControlBudget, readings: seq<int>, t: int)
    requires budget.Inv()
    modifies budget, budget.window
    ensures InWindow(budget.history, t) <= SLOTS && |budget.history| <= budget.limit
  {
    for i := 0 to |readings|
      invariant budget.Inv()
    {
      var ok := budget.Admit(readings[i]);
    }
    PacedBounds(budget.history, SLOTS, t);
  }
}
