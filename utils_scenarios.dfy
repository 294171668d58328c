/** Worked ledgers for calculateConsistency and calculateStats, with the figures they produce. */
module UtilsScenarios {
  import opened Common
  import opened Types
  import opened Grouping
  import opened Sorting
  import opened Utils
  import opened UtilsProps

  function Entry(id: string, date: string, pnl: real): DayEntry
  {
    DayEntry(id, date, pnl)
  }

  function TradeOn(date: string, result: real): Trade
  {
    Trade("t", date, Nasdaq, NewYork, Buy, 0.0, 0.0, 0.0, 0.0, result, 0.0, 0, Calm, Calm, true, "")
  }

  /** One winning day of 1000 against a 40% rule and a 2500 target: the day is all of the profit. */
  lemma ScenarioSingleDay(stamp: string -> int)
    ensures var r := ConsistencyOf([Entry("a", "2024-01-01", 1000.0)], 40.0, 2500.0, stamp);
      && r.totalNetProfit == 1000.0 && r.bestDayPnL == 1000.0 && r.consistencyPercent == 100.0
      && !r.isPassingConsistency && !r.isTargetReached && !r.isEvaluationPassed
      && r.consistencyShortfall == 1500.0
  {
    var entries := [Entry("a", "2024-01-01", 1000.0)];
    assert EntryItems(entries) == [(DayKey("2024-01-01"), 1000.0)];
    assert GroupAll(EntryItems(entries)) == [Group(DayKey("2024-01-01"), 1000.0, 1)];
  }

  /** A ledger whose entries all book `p`: the total is the number of entries times `p`. */
  lemma {:induction false} EvenLedgerTotal(entries: seq<DayEntry>, p: real)
    requires forall i :: 0 <= i < |entries| ==> entries[i].pnl == p
    ensures PnlSum(entries) == |entries| as real * p
  {
    if |entries| > 0 {
      EvenLedgerTotal(entries[..|entries| - 1], p);
    }
  }

  /**
   * A ledger of entries that all book the same profit `p` on pairwise different days: every
   * day totals `p`, so the best day is `p` and is the first day of the ledger.
   */
  lemma {:induction false} EvenDaysBest(entries: seq<DayEntry>, p: real)
    requires |entries| > 0 && p > 0.0
    requires forall i :: 0 <= i < |entries| ==> entries[i].pnl == p
    requires Distinct(EntryDays(entries))
    ensures BestDay(GroupAll(EntryItems(entries))) == Best(p, DayKey(entries[0].date))
  {
    var items := EntryItems(entries);
    EntryItemKeys(entries);
    GroupAllDistinct(items);
    var days := GroupAll(items);
    forall i | 0 <= i < |entries| ensures days[i] == Group(DayKey(entries[i].date), p, 1) {
      EntryItemsAt(entries, i);
    }
    BestDaySpec(days);
  }

  /**
   * Five entries of 500 on five different days, against a 40% rule and a 2000 target:
   * each day is 20% of the 2500 total, so the ledger passes both the rule and the target.
   */
  lemma ScenarioFiveEvenDays(entries: seq<DayEntry>, stamp: string -> int)
    requires |entries| == 5
    requires forall i :: 0 <= i < 5 ==> entries[i].pnl == 500.0 && 'T' !in entries[i].date
    requires forall i, j :: 0 <= i < j < 5 ==> entries[i].date != entries[j].date
    ensures var r := ConsistencyOf(entries, 40.0, 2000.0, stamp);
      && r.totalNetProfit == 2500.0 && r.bestDayPnL == 500.0 && r.bestDayDate == entries[0].date
      && r.consistencyPercent == 20.0 && r.isPassingConsistency && r.isTargetReached && r.isEvaluationPassed
      && r.consistencyShortfall == 0.0
  {
    forall i | 0 <= i < 5 ensures EntryDays(entries)[i] == entries[i].date {
      DayKeyOfPlainDate(entries[i].date);
    }
    assert Distinct(EntryDays(entries));
    EvenLedgerTotal(entries, 500.0);
    EvenDaysBest(entries, 500.0);
    var days := GroupAll(EntryItems(entries));
    assert ConsistencyOf(entries, 40.0, 2000.0, stamp)
        == ConsistencyFrom(2500.0, days, 500.0, entries[0].date, 40.0, 2000.0, stamp);
  }

  /**
   * From 50000 the trades take the balance to 52000, 49000 and 51000: the fall from the
   * 52000 peak to 49000 is the largest drawdown, 3000, which is 6% of the initial balance.
   */
  lemma ScenarioDrawdown(dates: seq<string>, stamp: string -> int)
    requires |dates| == 3
    ensures var trades := [TradeOn(dates[0], 2000.0), TradeOn(dates[1], -3000.0), TradeOn(dates[2], 2000.0)];
      var r := StatsOf(trades, 50000.0, stamp);
      && r.currentBalance == 51000.0 && r.maxDrawdownAmount == 3000.0 && r.maxDrawdownPercent == 6.0
  {
    var trades := [TradeOn(dates[0], 2000.0), TradeOn(dates[1], -3000.0), TradeOn(dates[2], 2000.0)];
    var p1 := [trades[0]];
    var p2 := [trades[0], trades[1]];
    assert p1[..0] == [] && p2[..1] == p1 && trades[..2] == p2;
    assert ResultSum(p1) == 2000.0;
    assert ResultSum(p2) == -1000.0;
    assert ResultSum(trades) == 1000.0;
    assert Peak(50000.0, p1) == 52000.0;
    assert Peak(50000.0, p2) == 52000.0;
    assert MaxDrawdown(50000.0, p1) == 0.0;
    assert MaxDrawdown(50000.0, p2) == 3000.0;
    assert MaxDrawdown(50000.0, trades) == 3000.0;
  }
}
