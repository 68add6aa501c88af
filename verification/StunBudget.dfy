/** The serial multi-socket binding exchange (internal/stunobserve/allocation.go, internal/stunobserve/client.go)
    and the send budget it declares: three sends per socket, waits of 500 ms, 1 s and 2 s, and a reply that may
    come at any moment. */
module StunBudget {
  import opened SlidingWindow

  const MAX_TRANSMISSIONS: nat := 3
  const INITIAL_RTO: int := 500_000_000

  /** The wait after the given transmission. */
  function Wait(attempt: nat): int {
    if attempt == 0 then INITIAL_RTO else if attempt == 1 then 2 * INITIAL_RTO else 4 * INITIAL_RTO
  }

  /** Half a second, then twice as long each time. */
  lemma WaitDoubles(attempt: nat)
    requires attempt + 1 < MAX_TRANSMISSIONS
    ensures Wait(0) == 500_000_000 && Wait(attempt + 1) == 2 * Wait(attempt)
  {
  }

  datatype Sent = Sent(time: int, socket: nat, attempt: nat)

  /** What may follow a send: its own retransmission after the whole wait, or the next socket at any time. */
  predicate Follows(a: Sent, b: Sent) {
    || (b.socket == a.socket && b.attempt == a.attempt + 1 && b.time >= a.time + Wait(a.attempt))
    || (b.socket > a.socket && b.attempt == 0 && b.time >= a.time)
  }

  predicate Schedule(s: seq<Sent>) {
    && (s != [] ==> s[0].attempt == 0)
    && (forall i :: 0 <= i < |s| ==> s[i].attempt < MAX_TRANSMISSIONS)
    && (forall i :: 0 <= i < |s| - 1 ==> Follows(s[i], s[i + 1]))
  }

  function Times(s: seq<Sent>): seq<int> { seq(|s|, i requires 0 <= i < |s| => s[i].time) }

  /** Retransmissions whose predecessor is also younger than `low`. */
  function Doubles(s: seq<Sent>, low: int): nat {
    if |s| < 2 then 0
    else
      var a, b := s[|s| - 2], s[|s| - 1];
      Doubles(s[..|s| - 1], low) + if a.socket == b.socket && a.time > low then 1 else 0
  }

  lemma ScheduleInit(s: seq<Sent>)
    requires Schedule(s) && s != []
    ensures Schedule(s[..|s| - 1])
    ensures Times(s) == Times(s[..|s| - 1]) + [s[|s| - 1].time]
    ensures |s| >= 2 ==> Follows(s[|s| - 2], s[|s| - 1])
  {
    var init := s[..|s| - 1];
    assert forall i :: 0 <= i < |init| ==> init[i] == s[i];
    if |s| >= 2 { assert Follows(s[|s| - 2], s[|s| - 2 + 1]); }
  }

  lemma RecentStep(s: seq<Sent>, now: int)
    requires Schedule(s) && s != []
    ensures Recent(Times(s), now) == Recent(Times(s[..|s| - 1]), now) + if s[|s| - 1].time > now - SECOND then 1 else 0
  {
    ScheduleInit(s);
    var t := Times(s);
    assert t[..|t| - 1] == Times(s[..|s| - 1]);
  }

  /** Every double costs at least the first wait. */
  lemma {:induction false} DoublesTakeTime(s: seq<Sent>, low: int)
    requires Schedule(s) && s != [] && s[|s| - 1].time > low
    ensures s[|s| - 1].time > low + INITIAL_RTO * Doubles(s, low)
  {
    if |s| >= 2 {
      ScheduleInit(s);
      var init := s[..|s| - 1];
      if s[|s| - 2].time > low { DoublesTakeTime(init, low); } else { OldHaveNone(init, low); }
    }
  }

  lemma {:induction false} OldHaveNone(s: seq<Sent>, low: int)
    requires Schedule(s) && s != [] && s[|s| - 1].time <= low
    ensures Doubles(s, low) == 0 && Recent(Times(s), low + SECOND) == 0
  {
    RecentStep(s, low + SECOND);
    if |s| >= 2 {
      ScheduleInit(s);
      OldHaveNone(s[..|s| - 1], low);
    } else {
      assert Times(s[..0]) == [];
    }
  }

  /** A young send is the first young one of its socket, or a double. */
  lemma {:induction false} SocketsAndDoubles(s: seq<Sent>, now: int)
    requires Schedule(s) && s != []
    ensures Recent(Times(s), now) <= s[|s| - 1].socket + 1 + Doubles(s, now - SECOND)
  {
    RecentStep(s, now);
    if |s| >= 2 {
      ScheduleInit(s);
      var init := s[..|s| - 1];
      SocketsAndDoubles(init, now);
      if s[|s| - 2].time <= now - SECOND { OldHaveNone(init, now - SECOND); }
    } else {
      assert Times(s[..0]) == [];
    }
  }

  /** Up to any moment after the last send, one second holds at most one send per socket and one more. */
  lemma RateBound(s: seq<Sent>, now: int)
    requires Schedule(s) && s != [] && s[|s| - 1].time <= now
    ensures Recent(Times(s), now) <= s[|s| - 1].socket + 2
  {
    if s[|s| - 1].time > now - SECOND {
      SocketsAndDoubles(s, now);
      DoublesTakeTime(s, now - SECOND);
    } else {
      OldHaveNone(s, now - SECOND);
    }
  }

  lemma {:induction false} TotalBound(s: seq<Sent>)
    requires Schedule(s) && s != []
    ensures |s| <= MAX_TRANSMISSIONS * s[|s| - 1].socket + s[|s| - 1].attempt + 1
  {
    if |s| >= 2 {
      ScheduleInit(s);
      TotalBound(s[..|s| - 1]);
    }
  }

  /** How many sends of one socket lie within the second before `now`. */
  function SocketRecent(s: seq<Sent>, socket: nat, now: int): nat {
    if s == [] then 0
    else
      var last := s[|s| - 1];
      SocketRecent(s[..|s| - 1], socket, now) + if last.socket == socket && last.time > now - SECOND then 1 else 0
  }

  lemma {:induction false} OneSocketAndDoubles(s: seq<Sent>, socket: nat, now: int)
    requires Schedule(s) && s != []
    ensures SocketRecent(s, socket, now) <= 1 + Doubles(s, now - SECOND)
    ensures socket > s[|s| - 1].socket || s[|s| - 1].time <= now - SECOND ==> SocketRecent(s, socket, now) == 0
  {
    if |s| >= 2 {
      ScheduleInit(s);
      OneSocketAndDoubles(s[..|s| - 1], socket, now);
    }
  }

  /** One socket never sends more than twice in a second. */
  lemma OneSocketRate(s: seq<Sent>, socket: nat, now: int)
    requires Schedule(s) && s != [] && s[|s| - 1].time <= now
    ensures SocketRecent(s, socket, now) <= 2
  {
    OneSocketAndDoubles(s, socket, now);
    if s[|s| - 1].time > now - SECOND { DoublesTakeTime(s, now - SECOND); }
  }

  /** The declared rate and total always leave room for the next send of the schedule. */
  lemma NextSendFits(s: seq<Sent>, e: Sent, sockets: nat)
    requires Schedule(s + [e]) && e.socket < sockets
    ensures Recent(Times(s), e.time) < sockets + 1 && |s| < MAX_TRANSMISSIONS * sockets
  {
    var next := s + [e];
    assert next[..|next| - 1] == s;
    RecentStep(next, e.time);
    RateBound(next, e.time);
    TotalBound(next);
    assert e.attempt < MAX_TRANSMISSIONS by { assert next[|s|] == e; }
  }

  lemma ScheduleGrows(s: seq<Sent>, e: Sent)
    requires Schedule(s) && e.attempt < MAX_TRANSMISSIONS
      && (if s == [] then e.attempt == 0 else Follows(s[|s| - 1], e))
    ensures Schedule(s + [e]) && Times(s + [e]) == Times(s) + [e.time]
  {
    var next := s + [e];
    forall i | 0 <= i < |next| - 1 ensures Follows(next[i], next[i + 1]) {
      if i < |s| - 1 { assert Follows(s[i], s[i + 1]); }
    }
  }

  /** The schedule that needs the whole rate: one retransmission, then every other socket at once. */
  function Busiest(sockets: nat): seq<Sent>
    requires sockets >= 1
  {
    if sockets == 1 then [Sent(0, 0, 0), Sent(INITIAL_RTO, 0, 1)]
      else Busiest(sockets - 1) + [Sent(INITIAL_RTO, sockets - 1, 0)]
  }

  /** So K + 1 is not only enough but needed. */
  lemma {:induction false} RateIsTight(sockets: nat)
    requires sockets >= 1
    ensures var s := Busiest(sockets); Schedule(s) && |s| == sockets + 1 && s[sockets].socket == sockets - 1
    ensures var s := Busiest(sockets); s[sockets].time == INITIAL_RTO && Recent(Times(s), INITIAL_RTO) == sockets + 1
  {
    var s := Busiest(sockets);
    if sockets == 1 {
      assert s[..1] == [Sent(0, 0, 0)] && s[..1][..0] == [];
      RecentStep(s, INITIAL_RTO);
      RecentStep(s[..1], INITIAL_RTO);
    } else {
      RateIsTight(sockets - 1);
      ScheduleGrows(Busiest(sockets - 1), Sent(INITIAL_RTO, sockets - 1, 0));
      RecentStep(s, INITIAL_RTO);
      assert s[..|s| - 1] == Busiest(sockets - 1);
    }
  }

  // ----- the run ------------------------------------------------------------------------------------

  /** How one transmission ends: it is not made at all, because the exchange is cancelled or its deadline has passed;
      a reply or an error comes at any moment; or the whole wait goes by and then some. */
  datatype Ending = Unsent(after: nat) | Over(after: nat) | Silence(extra: nat)

  /** All sends so far, in a budget that holds exactly them. */
  ghost predicate Running(budget: SendBudget, log: seq<Sent>, sockets: nat, now: int)
    reads budget
  {
    && Schedule(log) && budget.Inv(now) && budget.history == Times(log)
    && budget.perSecond >= sockets + 1 && budget.packets >= MAX_TRANSMISSIONS * sockets
    && (log != [] ==> log[|log| - 1].time <= now)
  }

  /** The j-th send of a socket: the first at the start, the others after silence and the whole wait. */
  predicate InTurn(sends: seq<Sent>, j: nat, socket: nat, start: int, endings: nat -> Ending)
    requires j < |sends|
  {
    && !endings(j).Unsent? && sends[j].socket == socket && sends[j].attempt == j
    && (if j == 0 then sends[0].time == start
        else endings(j - 1).Silence? && sends[j].time == sends[j - 1].time + Wait(j - 1) + endings(j - 1).extra)
  }

  ghost predicate AllInTurn(sends: seq<Sent>, socket: nat, start: int, endings: nat -> Ending) {
    forall j {:trigger InTurn(sends, j, socket, start, endings)} :: 0 <= j < |sends| ==>
      InTurn(sends, j, socket, start, endings)
  }

  /** The sends of one socket: in turn, and no fewer than three unless one was not made or a reply or an error ended
      the exchange. */
  ghost predicate Made(sends: seq<Sent>, socket: nat, start: int, endings: nat -> Ending) {
    && |sends| <= 3 && AllInTurn(sends, socket, start, endings)
    && (|sends| < 3 ==> endings(|sends|).Unsent? || (sends != [] && endings(|sends| - 1).Over?))
  }

  /** The same, while the exchange runs. */
  ghost predicate Making(sends: seq<Sent>, socket: nat, start: int, endings: nat -> Ending, now: int) {
    && AllInTurn(sends, socket, start, endings)
    && (if sends == [] then now == start
        else
          var last := |sends| - 1;
          endings(last).Silence? && sends[last].socket == socket && sends[last].attempt == last
          && now == sends[last].time + Wait(last) + endings(last).extra)
  }

  lemma OneMoreMade(sends: seq<Sent>, socket: nat, start: int, endings: nat -> Ending, now: int)
    requires Making(sends, socket, start, endings, now) && |sends| < 3
    ensures
      var k := |sends|;
      var more := sends + [Sent(now, socket, k)];
      && (endings(k).Unsent? ==> Made(sends, socket, start, endings))
      && (endings(k).Over? ==> Made(more, socket, start, endings))
      && (endings(k).Silence? ==> Making(more, socket, start, endings, now + Wait(k) + endings(k).extra))
      && (endings(k).Silence? && k == 2 ==> Made(more, socket, start, endings))
  {
    var k := |sends|;
    var more := sends + [Sent(now, socket, k)];
    if !endings(k).Unsent? {
      forall j | 0 <= j < |more| ensures InTurn(more, j, socket, start, endings) {
        if j < k { assert InTurn(sends, j, socket, start, endings); }
      }
    }
  }

  /** What may come next in a log. */
  predicate Next(log: seq<Sent>, e: Sent) { if log == [] then e.attempt == 0 else Follows(log[|log| - 1], e) }

  /** One transmission, accounted before it is made; the budget never refuses it. */
  method Transmit(budget: SendBudget, sockets: nat, before: int, now: int, ghost log: seq<Sent>, ghost e: Sent)
    returns (ok: bool)
    requires Running(budget, log, sockets, before) && before <= now == e.time
    requires e.socket < sockets && e.attempt < MAX_TRANSMISSIONS && Next(log, e)
    modifies budget
    ensures ok && Running(budget, log + [e], sockets, now)
  {
    ScheduleGrows(log, e);
    NextSendFits(log, e, sockets);
    ok := budget.Reserve(before, now);
  }

  method Rest(budget: SendBudget, sockets: nat, before: int, now: int, ghost log: seq<Sent>)
    requires Running(budget, log, sockets, before) && before <= now
    ensures Running(budget, log, sockets, now)
  {
    BooksAge(budget.history, budget.times, budget.perSecond, before, now);
  }

  /** All sends so far, with those of this socket at the end. */
  ghost predicate Sending(budget: SendBudget, log: seq<Sent>, sends: seq<Sent>, sockets: nat, now: int)
    reads budget
  {
    Running(budget, log + sends, sockets, now)
  }

  /** The next transmission of the socket is accounted for and made. */
  method SendNext(budget: SendBudget, sockets: nat, socket: nat, ghost start: int, ghost endings: nat -> Ending,
                  before: int, now: int, ghost log: seq<Sent>, ghost sends: seq<Sent>)
    returns (ok: bool)
    requires socket < sockets && |sends| < 3 && before <= now
    requires log == [] || (log[|log| - 1].socket < socket && log[|log| - 1].time <= start)
    requires Sending(budget, log, sends, sockets, before) && Making(sends, socket, start, endings, now)
    modifies budget
    ensures ok && Sending(budget, log, sends + [Sent(now, socket, |sends|)], sockets, now)
  {
    ghost var e := Sent(now, socket, |sends|);
    NextMade(log, sends, socket, start, endings, now);
    assert log + sends + [e] == log + (sends + [e]);
    ok := Transmit(budget, sockets, before, now, log + sends, e);
  }

  /** The moment the exchange comes back to its loop, or ends. */
  function After(ending: Ending, attempt: nat, now: int): int {
    if ending.Silence? then now + Wait(attempt) + ending.extra else now + ending.after
  }

  /** One iteration: the transmission is not made, or it is made and a reply, an error or silence follows. */
  method Attempt(budget: SendBudget, sockets: nat, socket: nat, start: int, endings: nat -> Ending, attempt: nat,
                 before: int, now: int, ghost log: seq<Sent>, ghost sends: seq<Sent>)
    returns (sentAt: int, later: int, over: bool, ok: bool, ghost more: seq<Sent>)
    requires socket < sockets && attempt == |sends| < 3 && before <= now
    requires log == [] || (log[|log| - 1].socket < socket && log[|log| - 1].time <= start)
    requires Sending(budget, log, sends, sockets, before) && Making(sends, socket, start, endings, now)
    modifies budget
    ensures ok && Sending(budget, log, more, sockets, sentAt) && before <= sentAt <= later
    ensures later == After(endings(attempt), attempt, now) && (over <==> !endings(attempt).Silence?)
    ensures more == if endings(attempt).Unsent? then sends else sends + [Sent(now, socket, attempt)]
  {
    later, over := After(endings(attempt), attempt, now), !endings(attempt).Silence?;
    if endings(attempt).Unsent? { return before, later, over, true, sends; }
    ok := SendNext(budget, sockets, socket, start, endings, before, now, log, sends);
    sentAt, more := now, sends + [Sent(now, socket, attempt)];
  }

  /** runBindingExchange: up to three transmissions. */
  method Exchange(budget: SendBudget, sockets: nat, socket: nat, start: int, endings: nat -> Ending,
                  ghost log: seq<Sent>)
    returns (now: int, ok: bool, ghost sends: seq<Sent>)
    requires socket < sockets && Running(budget, log, sockets, start)
    requires log == [] || log[|log| - 1].socket < socket
    modifies budget
    ensures ok && Running(budget, log + sends, sockets, now) && start <= now
    ensures Made(sends, socket, start, endings)
  {
    now, ok, sends := start, true, [];
    assert log + [] == log;
    var attempt, before, over := 0, start, false;
    while attempt < MAX_TRANSMISSIONS && !over
      invariant 0 <= attempt <= MAX_TRANSMISSIONS && start <= before <= now && ok
      invariant Sending(budget, log, sends, sockets, before)
      invariant over || (|sends| == attempt && Making(sends, socket, start, endings, now))
      invariant over || attempt == 3 ==> Made(sends, socket, start, endings)
      decreases MAX_TRANSMISSIONS - attempt
    {
      OneMoreMade(sends, socket, start, endings, now);
      before, now, over, ok, sends :=
        Attempt(budget, sockets, socket, start, endings, attempt, before, now, log, sends);
      attempt := attempt + 1;
    }
    Rest(budget, sockets, before, now, log + sends);
  }

  lemma NextMade(log: seq<Sent>, sends: seq<Sent>, socket: nat, start: int, endings: nat -> Ending, now: int)
    requires Making(sends, socket, start, endings, now)
    requires log == [] || (log[|log| - 1].socket < socket && log[|log| - 1].time <= start)
    ensures Next(log + sends, Sent(now, socket, |sends|))
  {
    var all := log + sends;
    if sends == [] { assert all == log; } else { assert all[|all| - 1] == sends[|sends| - 1]; }
  }

  /** The part of the log that a socket wrote, between the parts of the sockets before and after it. */
  ghost predicate Wrote(log: seq<Sent>, from: int, to: int, socket: nat, endings: nat -> nat -> Ending) {
    0 <= from <= to <= |log| && exists start :: Made(log[from..to], socket, start, endings(socket))
  }

  /** The log is cut into the parts of the sockets, in their order. */
  ghost predicate AllWrote(log: seq<Sent>, cuts: seq<int>, sockets: nat, endings: nat -> nat -> Ending) {
    && |cuts| == sockets + 1 && cuts[0] == 0 && cuts[sockets] == |log|
    && forall s: nat {:trigger endings(s)} :: s < sockets ==> Wrote(log, cuts[s], cuts[s + 1], s, endings)
  }

  lemma OneMoreWrote(log: seq<Sent>, sends: seq<Sent>, cuts: seq<int>, socket: nat, start: int,
                     endings: nat -> nat -> Ending)
    requires AllWrote(log, cuts, socket, endings) && Made(sends, socket, start, endings(socket))
    requires log == [] || log[|log| - 1].socket < socket
    ensures AllWrote(log + sends, cuts + [|log + sends|], socket + 1, endings)
    ensures log + sends == [] || (log + sends)[|log + sends| - 1].socket < socket + 1
  {
    var grown, next := log + sends, cuts + [|log + sends|];
    if sends != [] { assert InTurn(sends, |sends| - 1, socket, start, endings(socket)); }
    forall s: nat | s < socket + 1 ensures Wrote(grown, next[s], next[s + 1], s, endings) {
      if s < socket {
        var _ := endings(s);
        assert Wrote(log, cuts[s], cuts[s + 1], s, endings);
        assert grown[cuts[s]..cuts[s + 1]] == log[cuts[s]..cuts[s + 1]];
      } else {
        assert grown[|log|..|grown|] == sends;
      }
    }
  }

  /** Observe: the sockets one after another. For every timing of replies the budget never refuses a send,
      no sliding second holds more than K + 1 of them, and there are at most 3K; every socket makes its own
      transmissions, in its turn and to the end. */
  method Observe(budget: SendBudget, sockets: nat, start: int, endings: nat -> nat -> Ending, pauses: nat -> nat,
                 t: int)
    returns (ok: bool, ghost log: seq<Sent>, ghost cuts: seq<int>)
    requires budget.Inv(start) && budget.history == []
    requires budget.perSecond >= sockets + 1 && budget.packets >= MAX_TRANSMISSIONS * sockets
    modifies budget
    ensures ok && Schedule(log) && budget.history == Times(log)
    ensures InWindow(Times(log), t) <= sockets + 1 && |log| <= MAX_TRANSMISSIONS * sockets
    ensures AllWrote(log, cuts, sockets, endings)
  {
    log, ok, cuts := [], true, [0];
    var now := start;
    for socket := 0 to sockets
      invariant ok && Running(budget, log, sockets, now)
      invariant log == [] || log[|log| - 1].socket < socket
      invariant AllWrote(log, cuts, socket, endings)
    {
      var later := now + pauses(socket);
      Rest(budget, sockets, now, later, log);
      ghost var sends;
      now, ok, sends := Exchange(budget, sockets, socket, later, endings(socket), log);
      ghost var grown := log + sends;
      OneMoreWrote(log, sends, cuts, socket, later, endings);
      log, cuts := grown, cuts + [|grown|];
    }
    SchedulePaced(log, sockets);
    PacedBounds(Times(log), sockets + 1, t);
    if log != [] { TotalBound(log); }
  }

  /** A schedule is paced at the declared rate, whatever larger rate the budget holds. */
  lemma {:induction false} SchedulePaced(s: seq<Sent>, sockets: nat)
    requires Schedule(s) && (s != [] ==> s[|s| - 1].socket < sockets)
    ensures Paced(Times(s), sockets + 1) && Sorted(Times(s))
  {
    if s != [] {
      ScheduleInit(s);
      var init := s[..|s| - 1];
      SchedulePaced(init, sockets);
      assert init + [s[|s| - 1]] == s;
      NextSendFits(init, s[|s| - 1], sockets);
      assert Times(s)[..|s| - 1] == Times(init);
      if |s| >= 2 { assert Times(init)[|s| - 2] <= s[|s| - 1].time; }
    }
  }
}
