/** The rolling budgets, stated over whole histories by recorded time. */
module LedgerBudgets {
  import opened PairingRecords
  import opened LedgerHistory
  import opened LedgerPolicy

  /** Burns of the class recorded in the half-open window (t - window, t]. */
  function BurnsIn(h: History, cls: RecordClass, window: int, t: int): nat {
    if h == [] then 0
    else BurnsIn(DropLast(h), cls, window, t) + if BurnOf(Last(h), cls) && t - window < Last(h).at <= t then 1 else 0
  }

  function PacketsIn(h: History, cls: RecordClass, window: int, t: int): int {
    if h == [] then 0
    else
      var rest := PacketsIn(DropLast(h), cls, window, t);
      rest + if BurnOf(Last(h), cls) && t - window < Last(h).at <= t then Last(h).body.envelope.packets else 0
  }

  /** Every rolling promise of the ledger, for every instant t. */
  ghost predicate WithinBudgets(h: History) {
    && (forall t: int :: BurnsIn(h, Ordinary, HOUR, t) <= HOUR_LIMIT)
    && (forall t: int :: BurnsIn(h, Ordinary, DAY_WINDOW, t) <= DAY_LIMIT)
    && (forall t: int :: PacketsIn(h, Ordinary, DAY_WINDOW, t) <= DAY_PACKETS)
    && (forall t: int :: BurnsIn(h, Campaign, DAY_WINDOW, t) <= CAMPAIGN_ADMISSIONS)
    && (forall i, j :: 0 <= i < j < |h| && BurnOf(h[i], Ordinary) && BurnOf(h[j], Ordinary)
                       ==> h[i].at + MINIMUM_INTERVAL <= h[j].at)
    && (h != [] && h[0].body.RebuildBaseline? && h[0].at != 0 ==>
          forall i :: 0 <= i < |h| && h[i].body.Burn? ==> h[0].at + DAY_WINDOW <= h[i].at)
  }

  ghost predicate PacketsNonnegative(h: History) {
    forall i :: 0 <= i < |h| && h[i].body.Burn? ==> h[i].body.envelope.packets >= 0
  }

  lemma {:induction false} WindowWithinTail(h: History, cls: RecordClass, window: int, t: int, cutoff: int)
    requires cutoff <= t - window
    ensures BurnsIn(h, cls, window, t) <= BurnsAfter(h, cls, cutoff)
    ensures PacketsNonnegative(h) ==> 0 <= PacketsIn(h, cls, window, t) <= PacketsAfter(h, cls, cutoff)
  {
    if h != [] {
      WindowWithinTail(DropLast(h), cls, window, t, cutoff);
      assert PacketsNonnegative(h) ==> PacketsNonnegative(DropLast(h));
    }
  }

  /** The conditions under which a burn may join a history without breaking a budget. */
  ghost predicate Affordable(h: History, r: Record) {
    && r.body.Burn?
    && HighWatermark(h) <= r.at
    && (RebuildAt(h) != 0 ==> RebuildAt(h) + DAY_WINDOW <= r.at)
    && match r.body.cls
       case Ordinary =>
         && BurnsAfter(h, Ordinary, r.at - HOUR) + 1 <= HOUR_LIMIT
         && BurnsAfter(h, Ordinary, r.at - DAY_WINDOW) + 1 <= DAY_LIMIT
         && PacketsAfter(h, Ordinary, r.at - DAY_WINDOW) + r.body.envelope.packets <= DAY_PACKETS
         && forall i :: 0 <= i < |h| && BurnOf(h[i], Ordinary) ==> h[i].at + MINIMUM_INTERVAL <= r.at
       case Campaign =>
         BurnsAfter(h, Campaign, r.at - DAY_WINDOW) == 0
  }

  lemma WindowAfterBurn(h: History, r: Record, cls: RecordClass, window: int, t: int)
    requires r.body.Burn? && r.body.cls == cls && window >= 0
    requires PacketsNonnegative(h)
    ensures
      var n := BurnsIn(h + [r], cls, window, t);
      n == BurnsIn(h, cls, window, t) || n <= BurnsAfter(h, cls, r.at - window) + 1
    ensures
      var n := PacketsIn(h + [r], cls, window, t);
      n == PacketsIn(h, cls, window, t) || n <= PacketsAfter(h, cls, r.at - window) + r.body.envelope.packets
  {
    assert DropLast(h + [r]) == h && Last(h + [r]) == r;
    if t - window < r.at <= t {
      WindowWithinTail(h, cls, window, t, r.at - window);
    }
  }

  lemma OtherRecordKeepsWindows(h: History, r: Record, cls: RecordClass, window: int, t: int)
    requires !BurnOf(r, cls)
    ensures BurnsIn(h + [r], cls, window, t) == BurnsIn(h, cls, window, t)
    ensures PacketsIn(h + [r], cls, window, t) == PacketsIn(h, cls, window, t)
  {
    assert DropLast(h + [r]) == h && Last(h + [r]) == r;
  }

  /** An affordable burn leaves every rolling promise intact. */
  lemma BurnKeepsBudgets(h: History, r: Record)
    requires h != [] && WithinBudgets(h) && PacketsNonnegative(h)
    requires Affordable(h, r)
    ensures WithinBudgets(h + [r])
  {
    var h' := h + [r];
    forall t: int
      ensures BurnsIn(h', Ordinary, HOUR, t) <= HOUR_LIMIT
    {
      if r.body.cls.Ordinary? { WindowAfterBurn(h, r, Ordinary, HOUR, t); }
      else { OtherRecordKeepsWindows(h, r, Ordinary, HOUR, t); }
    }
    forall t: int
      ensures BurnsIn(h', Ordinary, DAY_WINDOW, t) <= DAY_LIMIT
      ensures PacketsIn(h', Ordinary, DAY_WINDOW, t) <= DAY_PACKETS
      ensures BurnsIn(h', Campaign, DAY_WINDOW, t) <= CAMPAIGN_ADMISSIONS
    {
      if r.body.cls.Ordinary? {
        WindowAfterBurn(h, r, Ordinary, DAY_WINDOW, t);
        OtherRecordKeepsWindows(h, r, Campaign, DAY_WINDOW, t);
      } else {
        OtherRecordKeepsWindows(h, r, Ordinary, DAY_WINDOW, t);
        WindowAfterBurn(h, r, Campaign, DAY_WINDOW, t);
      }
    }
  }

  /** FINISH and reset records neither spend nor refund. */
  lemma OtherRecordKeepsBudgets(h: History, r: Record)
    requires h != [] && WithinBudgets(h)
    requires r.body.Finish? || r.body.Reset?
    ensures WithinBudgets(h + [r])
  {
    var h' := h + [r];
    forall t: int ensures BurnsIn(h', Ordinary, HOUR, t) <= HOUR_LIMIT {
      OtherRecordKeepsWindows(h, r, Ordinary, HOUR, t);
    }
    forall t: int
      ensures BurnsIn(h', Ordinary, DAY_WINDOW, t) <= DAY_LIMIT
      ensures PacketsIn(h', Ordinary, DAY_WINDOW, t) <= DAY_PACKETS
      ensures BurnsIn(h', Campaign, DAY_WINDOW, t) <= CAMPAIGN_ADMISSIONS
    {
      OtherRecordKeepsWindows(h, r, Ordinary, DAY_WINDOW, t);
      OtherRecordKeepsWindows(h, r, Campaign, DAY_WINDOW, t);
    }
  }

  lemma FirstRecordKeepsBudgets(r: Record)
    requires r.body.Initialize? || r.body.RebuildBaseline?
    ensures WithinBudgets([r])
  {
    forall cls, window, t ensures BurnsIn([r], cls, window, t) == 0 == PacketsIn([r], cls, window, t) {
      assert DropLast([r]) == [] && Last([r]) == r;
    }
  }
}
