/**
 * What the figures of calculateConsistency and calculateStats mean, stated over the
 * specification functions the two methods are proved equal to.
 */
module UtilsProps {
  import opened Common
  import opened Types
  import opened Grouping
  import opened Sorting
  import opened Utils

  // ---------------------------------------------------------------------------
  // The best-day and worst-day scans

  /**
   * The best day is the largest positive day total, or 0 with date "" when no day is
   * positive; among days tied for the maximum the first one keeps the title.
   */
  lemma {:induction false} BestDaySpec(days: seq<DayPnL>)
    ensures forall i :: 0 <= i < |days| ==> days[i].total <= BestDay(days).pnl
    ensures BestDay(days).pnl > 0.0 <==> exists i :: 0 <= i < |days| && days[i].total > 0.0
    ensures BestDay(days).pnl > 0.0 ==>
              exists i :: 0 <= i < |days| && days[i].total == BestDay(days).pnl && days[i].key == BestDay(days).date
                          && forall j :: 0 <= j < i ==> days[j].total < BestDay(days).pnl
  {
    if |days| > 0 {
      var n := |days| - 1;
      var prefix := days[..n];
      BestDaySpec(prefix);
      assert forall i :: 0 <= i < n ==> prefix[i] == days[i];
      var b, d := BestDay(prefix).pnl, BestDay(prefix).date;
      if days[n].total > b {
        assert BestDay(days) == Best(days[n].total, days[n].key);
      } else {
        assert BestDay(days) == Best(b, d);
        if b > 0.0 {
          var i :| 0 <= i < n && prefix[i].total == b && prefix[i].key == d
                   && forall j :: 0 <= j < i ==> prefix[j].total < b;
          assert days[i].total == b && days[i].key == d;
        }
      }
    }
  }

  /** The worst day is the smallest negative day total, or 0 when no day is negative. */
  lemma {:induction false} WorstDaySpec(days: seq<DayPnL>)
    ensures forall i :: 0 <= i < |days| ==> days[i].total >= WorstDay(days)
    ensures WorstDay(days) < 0.0 ==> exists i :: 0 <= i < |days| && days[i].total == WorstDay(days)
  {
    if |days| > 0 {
      var n := |days| - 1;
      var prefix := days[..n];
      WorstDaySpec(prefix);
      assert forall i :: 0 <= i < n ==> prefix[i] == days[i];
      if WorstDay(days) < 0.0 && WorstDay(days) == WorstDay(prefix) {
        var i :| 0 <= i < n && prefix[i].total == WorstDay(prefix);
        assert days[i].total == WorstDay(days);
      }
    }
  }

  // ---------------------------------------------------------------------------
  // calculateConsistency

  lemma {:induction false} EntryItemsSum(entries: seq<DayEntry>)
    ensures SumAll(EntryItems(entries)) == PnlSum(entries)
  {
    if |entries| > 0 {
      var n := |entries| - 1;
      EntryItemsSum(entries[..n]);
      assert EntryItems(entries)[..n] == EntryItems(entries[..n]);
    }
  }

  /** The ledger total is the sum of every entry's pnl and of the aggregated day totals. */
  lemma {:induction false} ConsistencyTotals(entries: seq<DayEntry>, rulePercent: real, profitTarget: real, stamp: string -> int,
                          r: ConsistencyStats)
    requires rulePercent != 0.0
    requires r == ConsistencyOf(entries, rulePercent, profitTarget, stamp)
    ensures r.totalNetProfit == PnlSum(entries)
    ensures TotalOf(r.aggregatedDays) == r.totalNetProfit
    ensures CountOf(r.aggregatedDays) == |entries|
  {
    var days := GroupAll(EntryItems(entries));
    GroupAllSums(EntryItems(entries));
    EntryItemsSum(entries);
    SortKeepsTotals(days, NewestFirst(stamp));
  }

  /**
   * aggregatedDays holds one element per distinct day key of the ledger, carrying the
   * sum of that day's pnl, newest day first.
   */
  lemma {:induction false} AggregatedDaysSpec(entries: seq<DayEntry>, rulePercent: real, profitTarget: real,
                                              stamp: string -> int, days: seq<DayPnL>)
    requires rulePercent != 0.0
    requires days == ConsistencyOf(entries, rulePercent, profitTarget, stamp).aggregatedDays
    ensures Distinct(Keys(days))
    ensures forall k :: k in Keys(days) <==> k in EntryDays(entries)
    ensures forall i :: 0 <= i < |days| ==> days[i].total == SumFor(EntryItems(entries), days[i].key)
    ensures forall i, j :: 0 <= i < j < |days| ==> stamp(days[i].key) >= stamp(days[j].key)
  {
    assert days == SortDesc(GroupAll(EntryItems(entries)), NewestFirst(stamp));
    SortedGroupsSpec(EntryItems(entries), NewestFirst(stamp), days);
    EntryItemKeys(entries);
    forall i, j | 0 <= i < j < |days| ensures stamp(days[i].key) >= stamp(days[j].key) {
      assert NewestFirst(stamp)(days[i]) >= NewestFirst(stamp)(days[j]);
    }
  }

  /**
   * bestDayPnL is at least 0 and at least every day total; bestDayDate is "" when no day
   * is positive, and otherwise names the first day (in ledger order) with the best total.
   */
  lemma {:induction false} ConsistencyBestDay(entries: seq<DayEntry>, rulePercent: real, profitTarget: real, stamp: string -> int,
                           r: ConsistencyStats)
    requires rulePercent != 0.0
    requires r == ConsistencyOf(entries, rulePercent, profitTarget, stamp)
    ensures var days := GroupAll(EntryItems(entries));
      && r.bestDayPnL >= 0.0
      && (forall i :: 0 <= i < |days| ==> days[i].total <= r.bestDayPnL)
      && (r.bestDayPnL > 0.0 <==> exists i :: 0 <= i < |days| && days[i].total > 0.0)
      && (r.bestDayPnL == 0.0 ==> r.bestDayDate == "")
      && (r.bestDayPnL > 0.0 ==>
            exists i :: 0 <= i < |days| && days[i].total == r.bestDayPnL && days[i].key == r.bestDayDate
                        && forall j :: 0 <= j < i ==> days[j].total < r.bestDayPnL)
  {
    BestDaySpec(GroupAll(EntryItems(entries)));
  }

  /** `best / (rule / 100)` is the total in which `best` makes up exactly `rule` percent. */
  lemma RequiredTotal(best: real, rulePercent: real, total: real)
    requires rulePercent > 0.0
    ensures best / (rulePercent / 100.0) * rulePercent == best * 100.0
    ensures total >= best / (rulePercent / 100.0) <==> best * 100.0 <= rulePercent * total
  {
    var req := best / (rulePercent / 100.0);
    assert req * (rulePercent / 100.0) == best;
    assert total >= req <==> total * rulePercent >= req * rulePercent;
  }

  /** The consistency figures, for any total and any non-negative best day. */
  lemma {:induction false} ConsistencyFigures(r: ConsistencyStats, total: real, days: seq<DayPnL>, best: real, bestDate: string,
                           rulePercent: real, profitTarget: real, stamp: string -> int)
    requires rulePercent > 0.0 && best >= 0.0
    requires r == ConsistencyFrom(total, days, best, bestDate, rulePercent, profitTarget, stamp)
    ensures r.totalNetProfit > 0.0 && r.bestDayPnL > 0.0 ==>
              r.consistencyPercent > 0.0 && r.consistencyPercent * r.totalNetProfit == r.bestDayPnL * 100.0
    ensures r.totalNetProfit <= 0.0 || r.bestDayPnL == 0.0 ==> r.consistencyPercent == 0.0
    ensures r.isPassingConsistency <==>
              r.totalNetProfit > 0.0 && r.bestDayPnL * 100.0 <= rulePercent * r.totalNetProfit
    ensures r.totalNetProfit <= 0.0 ==> !r.isPassingConsistency && !r.isEvaluationPassed
    ensures r.isTargetReached <==> r.totalNetProfit >= profitTarget
    ensures r.isEvaluationPassed <==> r.isTargetReached && r.isPassingConsistency
    ensures r.consistencyShortfall >= 0.0
    ensures r.bestDayPnL > 0.0 ==> r.requiredTotalProfitForConsistency * rulePercent == r.bestDayPnL * 100.0
    ensures r.bestDayPnL == 0.0 ==> r.requiredTotalProfitForConsistency == 0.0
    ensures r.consistencyShortfall == 0.0 <==> r.totalNetProfit >= r.requiredTotalProfitForConsistency
    ensures r.consistencyShortfall > 0.0 ==>
              r.totalNetProfit + r.consistencyShortfall == r.requiredTotalProfitForConsistency
    ensures r.totalNetProfit > 0.0 ==> (r.consistencyShortfall == 0.0 <==> r.isPassingConsistency)
    ensures r.bestDayPnL == 0.0 && r.totalNetProfit < 0.0 ==> r.consistencyShortfall == -r.totalNetProfit
  {
    if total > 0.0 {
      PercentOf(best, total, rulePercent);
    }
    if best > 0.0 {
      RequiredTotal(best, rulePercent, total);
    }
  }

  /**
   * The consistency figures: the percent is the best day's share of a positive total;
   * passing means a positive total in which the best day is within the rule; the
   * evaluation passes when the target is reached and consistency passes.
   */
  lemma {:induction false} ConsistencyFlags(entries: seq<DayEntry>, rulePercent: real, profitTarget: real, stamp: string -> int,
                         r: ConsistencyStats)
    requires rulePercent > 0.0
    requires r == ConsistencyOf(entries, rulePercent, profitTarget, stamp)
    ensures r.totalNetProfit > 0.0 && r.bestDayPnL > 0.0 ==>
              r.consistencyPercent > 0.0 && r.consistencyPercent * r.totalNetProfit == r.bestDayPnL * 100.0
    ensures r.totalNetProfit <= 0.0 || r.bestDayPnL == 0.0 ==> r.consistencyPercent == 0.0
    ensures r.isPassingConsistency <==>
              r.totalNetProfit > 0.0 && r.bestDayPnL * 100.0 <= rulePercent * r.totalNetProfit
    ensures r.totalNetProfit <= 0.0 ==> !r.isPassingConsistency && !r.isEvaluationPassed
    ensures r.isTargetReached <==> r.totalNetProfit >= profitTarget
    ensures r.isEvaluationPassed <==> r.isTargetReached && r.isPassingConsistency
  {
    var days := GroupAll(EntryItems(entries));
    ConsistencyFigures(r, PnlSum(entries), days, BestDay(days).pnl, BestDay(days).date,
                       rulePercent, profitTarget, stamp);
  }

  /**
   * The shortfall is never negative; with a positive total it is 0 exactly when
   * consistency passes, and otherwise adding it to the total brings the best day's share
   * down to the rule exactly. With no positive day it is what lifts a negative total to 0.
   */
  lemma {:induction false} ConsistencyShortfall(entries: seq<DayEntry>, rulePercent: real, profitTarget: real, stamp: string -> int,
                             r: ConsistencyStats)
    requires rulePercent > 0.0
    requires r == ConsistencyOf(entries, rulePercent, profitTarget, stamp)
    ensures r.consistencyShortfall >= 0.0
    ensures r.bestDayPnL > 0.0 ==> r.requiredTotalProfitForConsistency * rulePercent == r.bestDayPnL * 100.0
    ensures r.bestDayPnL == 0.0 ==> r.requiredTotalProfitForConsistency == 0.0
    ensures r.consistencyShortfall == 0.0 <==> r.totalNetProfit >= r.requiredTotalProfitForConsistency
    ensures r.consistencyShortfall > 0.0 ==>
              r.totalNetProfit + r.consistencyShortfall == r.requiredTotalProfitForConsistency
    ensures r.totalNetProfit > 0.0 ==> (r.consistencyShortfall == 0.0 <==> r.isPassingConsistency)
    ensures r.bestDayPnL == 0.0 && r.totalNetProfit < 0.0 ==> r.consistencyShortfall == -r.totalNetProfit
  {
    var days := GroupAll(EntryItems(entries));
    ConsistencyFigures(r, PnlSum(entries), days, BestDay(days).pnl, BestDay(days).date,
                       rulePercent, profitTarget, stamp);
  }

  // ---------------------------------------------------------------------------
  // calculateStats

  lemma {:induction false} TradeItemsSum(trades: seq<Trade>)
    ensures SumAll(TradeItems(trades)) == ResultSum(trades)
  {
    if |trades| > 0 {
      var n := |trades| - 1;
      TradeItemsSum(trades[..n]);
      assert TradeItems(trades)[..n] == TradeItems(trades[..n]);
    }
  }

  /** One equity point per trade, in input order, holding the day and the balance after that trade. */
  lemma {:induction false} EquityCurveSpec(initialBalance: real, trades: seq<Trade>)
    ensures forall k {:trigger EquityCurve(initialBalance, trades)[k]} :: 0 <= k < |trades| ==>
              EquityCurve(initialBalance, trades)[k]
              == EquityPoint(DayKey(trades[k].date), Balance(initialBalance, trades[..k + 1]))
  {
    if |trades| > 0 {
      var n := |trades| - 1;
      EquityCurveSpec(initialBalance, trades[..n]);
      forall k | 0 <= k < n
        ensures EquityCurve(initialBalance, trades)[k]
                == EquityPoint(DayKey(trades[k].date), Balance(initialBalance, trades[..k + 1]))
      {
        assert trades[..n][k] == trades[k];
        assert trades[..n][..k + 1] == trades[..k + 1];
      }
      assert trades[..n + 1] == trades;
    }
  }

  /**
   * The balance and the equity curve of calculateStats: the final balance is the initial
   * one plus the net profit; there is one point per trade, in input order, holding the
   * trade's day and the balance after it; the last point holds the final balance.
   */
  lemma {:induction false} StatsEquityCurve(trades: seq<Trade>, initialBalance: real, stamp: string -> int, r: TradeStats)
    requires r == StatsOf(trades, initialBalance, stamp)
    ensures r.netProfit == ResultSum(trades)
    ensures r.currentBalance == initialBalance + r.netProfit
    ensures r.totalTrades == |trades|
    ensures |r.equityCurve| == |trades|
    ensures forall k {:trigger r.equityCurve[k]} :: 0 <= k < |trades| ==>
              r.equityCurve[k] == EquityPoint(DayKey(trades[k].date), Balance(initialBalance, trades[..k + 1]))
    ensures |trades| > 0 ==> r.equityCurve[|trades| - 1].balance == r.currentBalance
  {
    EquityCurveSpec(initialBalance, trades);
    if |trades| > 0 {
      assert trades[..|trades|] == trades;
    }
  }

  /** The peak is the largest balance after any prefix of the trades, the empty one included. */
  lemma {:induction false} PeakSpec(initialBalance: real, trades: seq<Trade>)
    ensures forall i :: 0 <= i <= |trades| ==> Balance(initialBalance, trades[..i]) <= Peak(initialBalance, trades)
    ensures exists i :: 0 <= i <= |trades| && Peak(initialBalance, trades) == Balance(initialBalance, trades[..i])
  {
    if |trades| == 0 {
      assert Peak(initialBalance, trades) == Balance(initialBalance, trades[..0]);
    } else {
      var n := |trades| - 1;
      var prefix := trades[..n];
      PeakSpec(initialBalance, prefix);
      forall i | 0 <= i <= |trades| ensures Balance(initialBalance, trades[..i]) <= Peak(initialBalance, trades) {
        if i <= n {
          assert prefix[..i] == trades[..i];
        } else {
          assert trades[..i] == trades;
        }
      }
      var i :| 0 <= i <= n && Peak(initialBalance, prefix) == Balance(initialBalance, prefix[..i]);
      if Peak(initialBalance, trades) == Balance(initialBalance, trades) {
        assert trades[..|trades|] == trades;
      } else {
        assert prefix[..i] == trades[..i];
      }
    }
  }

  /**
   * The maximum drawdown is the largest fall from an earlier (or the initial) balance to
   * a later one: it bounds every such fall and is reached by one of them, so it is never
   * negative.
   */
  lemma {:induction false} DrawdownSpec(initialBalance: real, trades: seq<Trade>)
    ensures forall i, j :: 0 <= i <= j <= |trades| ==>
              Balance(initialBalance, trades[..i]) - Balance(initialBalance, trades[..j])
              <= MaxDrawdown(initialBalance, trades)
    ensures exists i, j :: 0 <= i <= j <= |trades| &&
              MaxDrawdown(initialBalance, trades)
              == Balance(initialBalance, trades[..i]) - Balance(initialBalance, trades[..j])
  {
    DrawdownBound(initialBalance, trades);
    DrawdownAttained(initialBalance, trades);
  }

  lemma {:induction false} DrawdownBound(initialBalance: real, trades: seq<Trade>)
    ensures forall i, j :: 0 <= i <= j <= |trades| ==>
              Balance(initialBalance, trades[..i]) - Balance(initialBalance, trades[..j])
              <= MaxDrawdown(initialBalance, trades)
  {
    if |trades| > 0 {
      var n := |trades| - 1;
      var prefix := trades[..n];
      DrawdownBound(initialBalance, prefix);
      PeakSpec(initialBalance, trades);
      var dd := MaxDrawdown(initialBalance, trades);
      assert trades[..|trades|] == trades;
      forall i, j | 0 <= i <= j <= |trades|
        ensures Balance(initialBalance, trades[..i]) - Balance(initialBalance, trades[..j]) <= dd
      {
        if j <= n {
          assert prefix[..i] == trades[..i];
          assert prefix[..j] == trades[..j];
        }
      }
    }
  }

  lemma {:induction false} DrawdownAttained(initialBalance: real, trades: seq<Trade>)
    ensures exists i, j :: 0 <= i <= j <= |trades| &&
              MaxDrawdown(initialBalance, trades)
              == Balance(initialBalance, trades[..i]) - Balance(initialBalance, trades[..j])
  {
    if |trades| == 0 {
      assert MaxDrawdown(initialBalance, trades)
             == Balance(initialBalance, trades[..0]) - Balance(initialBalance, trades[..0]);
    } else {
      var n := |trades| - 1;
      var prefix := trades[..n];
      var dd := MaxDrawdown(initialBalance, trades);
      assert trades[..|trades|] == trades;
      if dd == MaxDrawdown(initialBalance, prefix) {
        DrawdownAttained(initialBalance, prefix);
        var i, j :| 0 <= i <= j <= n &&
          MaxDrawdown(initialBalance, prefix) == Balance(initialBalance, prefix[..i]) - Balance(initialBalance, prefix[..j]);
        assert prefix[..i] == trades[..i];
        assert prefix[..j] == trades[..j];
      } else {
        PeakSpec(initialBalance, trades);
        var i :| 0 <= i <= |trades| && Peak(initialBalance, trades) == Balance(initialBalance, trades[..i]);
        assert dd == Balance(initialBalance, trades[..i]) - Balance(initialBalance, trades[..|trades|]);
      }
    }
  }

  /** Without a losing trade the balance never falls, so there is no drawdown. */
  lemma {:induction false} NoLossNoDrawdown(initialBalance: real, trades: seq<Trade>)
    requires forall k :: 0 <= k < |trades| ==> trades[k].resultAmount >= 0.0
    ensures Peak(initialBalance, trades) == Balance(initialBalance, trades)
    ensures MaxDrawdown(initialBalance, trades) == 0.0
  {
    if |trades| > 0 {
      var n := |trades| - 1;
      NoLossNoDrawdown(initialBalance, trades[..n]);
      assert trades[n].resultAmount >= 0.0;
    }
  }

  /** The ratios of calculateStats, for any counts and sums it may have gathered. */
  lemma {:induction false} StatsFigures(r: TradeStats, initialBalance: real, totalTrades: nat, netProfit: real, winning: nat,
                     totalRR: real, maxDD: real, curve: seq<EquityPoint>, days: seq<DayPnL>,
                     best: real, bestDate: string, worst: real, stamp: string -> int)
    requires winning <= totalTrades
    requires r == StatsFrom(initialBalance, totalTrades, netProfit, winning, totalRR, maxDD, curve, days,
                            best, bestDate, worst, stamp)
    ensures 0.0 <= r.winRate <= 100.0
    ensures r.totalTrades == 0 ==> r.winRate == 0.0
    ensures r.totalTrades > 0 ==> r.winRate * (r.totalTrades as real) == (winning as real) * 100.0
    ensures winning == 0 ==> r.avgRR == 0.0
    ensures winning > 0 ==> r.avgRR * (winning as real) == totalRR
    ensures initialBalance <= 0.0 ==> r.maxDrawdownPercent == 0.0
    ensures initialBalance > 0.0 ==> r.maxDrawdownPercent * initialBalance == r.maxDrawdownAmount * 100.0
    ensures initialBalance > 0.0 && r.maxDrawdownAmount >= 0.0 ==> r.maxDrawdownPercent >= 0.0
    ensures r.bestDayPercentOfTotal != 0.0 ==> r.netProfit > 0.0 && r.bestDayPnL > 0.0
    ensures r.netProfit > 0.0 && r.bestDayPnL > 0.0 ==>
              r.bestDayPercentOfTotal * r.netProfit == r.bestDayPnL * 100.0
  {
    if totalTrades > 0 {
      PercentOf(winning as real, totalTrades as real, 100.0);
    }
    if winning > 0 {
      assert totalRR / (winning as real) * (winning as real) == totalRR;
    }
    if initialBalance > 0.0 {
      PercentOf(maxDD, initialBalance, 0.0);
    }
    if netProfit > 0.0 && best > 0.0 {
      PercentOf(best, netProfit, 0.0);
    }
  }

  /** The drawdown figures of calculateStats. */
  lemma {:induction false} StatsDrawdown(trades: seq<Trade>, initialBalance: real, stamp: string -> int, r: TradeStats)
    requires r == StatsOf(trades, initialBalance, stamp)
    ensures r.maxDrawdownAmount == MaxDrawdown(initialBalance, trades)
    ensures r.maxDrawdownAmount >= 0.0
    ensures (forall k :: 0 <= k < |trades| ==> trades[k].resultAmount >= 0.0) ==> r.maxDrawdownAmount == 0.0
    ensures initialBalance <= 0.0 ==> r.maxDrawdownPercent == 0.0
    ensures initialBalance > 0.0 ==>
              r.maxDrawdownPercent >= 0.0 && r.maxDrawdownPercent * initialBalance == r.maxDrawdownAmount * 100.0
  {
    var days := GroupAll(TradeItems(trades));
    DrawdownSpec(initialBalance, trades);
    WinCountBound(trades);
    StatsFigures(r, initialBalance, |trades|, ResultSum(trades), WinCount(trades), WinRRSum(trades),
                 MaxDrawdown(initialBalance, trades), EquityCurve(initialBalance, trades), days,
                 BestDay(days).pnl, BestDay(days).date, WorstDay(days), stamp);
    if forall k :: 0 <= k < |trades| ==> trades[k].resultAmount >= 0.0 {
      NoLossNoDrawdown(initialBalance, trades);
    }
  }

  lemma {:induction false} WinCountBound(trades: seq<Trade>)
    ensures WinCount(trades) <= |trades|
    ensures (forall k :: 0 <= k < |trades| ==> trades[k].resultAmount <= 0.0) ==> WinCount(trades) == 0
  {
    if |trades| > 0 {
      WinCountBound(trades[..|trades| - 1]);
    }
  }

  /**
   * The summary figures: the win rate is the percentage of winning trades and 0 without
   * trades, the average R:R is the mean over the winners and 0 without them, the worst day
   * is at most 0 and the best at least 0, and the best day's share is 0 unless the net
   * profit and the best day are both positive.
   */
  lemma {:induction false} StatsSummary(trades: seq<Trade>, initialBalance: real, stamp: string -> int,
                                        r: TradeStats, wins: nat)
    requires r == StatsOf(trades, initialBalance, stamp)
    requires wins == WinCount(trades)
    ensures 0.0 <= r.winRate <= 100.0
    ensures r.totalTrades == 0 ==> r.winRate == 0.0
    ensures r.totalTrades > 0 ==> r.winRate * (r.totalTrades as real) == (wins as real) * 100.0
    ensures wins == 0 ==> r.avgRR == 0.0
    ensures wins > 0 ==> r.avgRR * (wins as real) == WinRRSum(trades)
    ensures r.worstDayPnL <= 0.0 <= r.bestDayPnL
    ensures r.bestDayPercentOfTotal != 0.0 ==> r.netProfit > 0.0 && r.bestDayPnL > 0.0
    ensures r.netProfit > 0.0 && r.bestDayPnL > 0.0 ==>
              r.bestDayPercentOfTotal * r.netProfit == r.bestDayPnL * 100.0
  {
    var days := GroupAll(TradeItems(trades));
    WorstDaySpec(days);
    WinCountBound(trades);
    StatsFigures(r, initialBalance, |trades|, ResultSum(trades), wins, WinRRSum(trades),
                 MaxDrawdown(initialBalance, trades), EquityCurve(initialBalance, trades), days,
                 BestDay(days).pnl, BestDay(days).date, WorstDay(days), stamp);
  }

  /** dailyPnLChart has one element per day, oldest day first, and its totals add up to the net profit. */
  lemma {:induction false} StatsChart(trades: seq<Trade>, initialBalance: real, stamp: string -> int, r: TradeStats)
    requires r == StatsOf(trades, initialBalance, stamp)
    ensures Distinct(Keys(r.dailyPnLChart))
    ensures forall k :: k in Keys(r.dailyPnLChart) <==> k in TradeDays(trades)
    ensures forall i :: 0 <= i < |r.dailyPnLChart| ==>
              r.dailyPnLChart[i].total == SumFor(TradeItems(trades), r.dailyPnLChart[i].key)
  {
    var chart := r.dailyPnLChart;
    assert chart == SortDesc(GroupAll(TradeItems(trades)), OldestFirst(stamp));
    SortedGroupsSpec(TradeItems(trades), OldestFirst(stamp), chart);
    TradeItemKeys(trades);
  }

  /** The daily chart runs from the oldest day to the newest. */
  lemma {:induction false} StatsChartOrder(trades: seq<Trade>, initialBalance: real, stamp: string -> int, r: TradeStats)
    requires r == StatsOf(trades, initialBalance, stamp)
    ensures forall i, j :: 0 <= i < j < |r.dailyPnLChart| ==>
              stamp(r.dailyPnLChart[i].key) <= stamp(r.dailyPnLChart[j].key)
  {
    var chart := r.dailyPnLChart;
    assert chart == SortDesc(GroupAll(TradeItems(trades)), OldestFirst(stamp));
    forall i, j | 0 <= i < j < |chart| ensures stamp(chart[i].key) <= stamp(chart[j].key) {
      assert OldestFirst(stamp)(chart[i]) >= OldestFirst(stamp)(chart[j]);
    }
  }

  /** The bars of the daily chart add up to the net profit. */
  lemma {:induction false} StatsChartTotal(trades: seq<Trade>, initialBalance: real, stamp: string -> int, r: TradeStats)
    requires r == StatsOf(trades, initialBalance, stamp)
    ensures TotalOf(r.dailyPnLChart) == r.netProfit
    ensures CountOf(r.dailyPnLChart) == |trades|
  {
    var chart := r.dailyPnLChart;
    assert chart == SortDesc(GroupAll(TradeItems(trades)), OldestFirst(stamp));
    SortedGroupsSpec(TradeItems(trades), OldestFirst(stamp), chart);
    TradeItemsSum(trades);
  }
}
