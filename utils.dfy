/**
 * The ledger analytics: `calculateConsistency` over the day-entry ledger and
 * `calculateStats` over the trade ledger. Each is a method with the loops of the
 * source, proved equal to a specification function built from the definitions below;
 * the lemmas after them state what those figures mean.
 */
module Utils {
  import opened Common
  import opened Types
  import opened Grouping
  import opened Sorting

  /** A day of the aggregated ledger: `key` is the day, `total` its net PnL. */
  type DayPnL = Group<string>

  /** Index of the first 'T' in `date`, or its length when there is none. */
  function FirstT(date: string): (i: nat)
    ensures i <= |date|
    ensures forall j :: 0 <= j < i ==> date[j] != 'T'
    ensures i < |date| ==> date[i] == 'T'
  {
    if |date| == 0 || date[0] == 'T' then 0 else 1 + FirstT(date[1..])
  }

  /** `date.split('T')[0]`: the longest prefix of the date without a 'T'. */
  function DayKey(date: string): (k: string)
    ensures k <= date
    ensures 'T' !in k
    ensures |k| < |date| ==> date[|k|] == 'T'
  {
    date[..FirstT(date)]
  }

  /** A date without a time part is its own day key. */
  lemma {:induction false} DayKeyOfPlainDate(date: string)
    requires 'T' !in date
    ensures DayKey(date) == date
  {
  }

  lemma {:induction false} DayKeyIdempotent(date: string)
    ensures DayKey(DayKey(date)) == DayKey(date)
  {
    DayKeyOfPlainDate(DayKey(date));
  }

  // ---------------------------------------------------------------------------
  // Specification functions over ledger prefixes

  function PnlSum(entries: seq<DayEntry>): real
  {
    if |entries| == 0 then 0.0 else PnlSum(entries[..|entries| - 1]) + entries[|entries| - 1].pnl
  }

  /** The `(day, pnl)` pairs the first loop of calculateConsistency adds to `dailyPnL`. */
  function EntryItems(entries: seq<DayEntry>): (items: seq<(string, real)>)
    ensures |items| == |entries|
  {
    if |entries| == 0 then []
    else EntryItems(entries[..|entries| - 1]) + [(DayKey(entries[|entries| - 1].date), entries[|entries| - 1].pnl)]
  }

  /** The `(day, resultAmount)` pairs calculateStats adds to its `dailyPnL`. */
  function TradeItems(trades: seq<Trade>): (items: seq<(string, real)>)
    ensures |items| == |trades|
  {
    if |trades| == 0 then []
    else TradeItems(trades[..|trades| - 1]) + [(DayKey(trades[|trades| - 1].date), trades[|trades| - 1].resultAmount)]
  }

  lemma {:induction false} EntryItemsAt(entries: seq<DayEntry>, i: nat)
    requires i < |entries|
    ensures EntryItems(entries)[i] == (DayKey(entries[i].date), entries[i].pnl)
  {
    var n := |entries| - 1;
    if i < n {
      EntryItemsAt(entries[..n], i);
    }
  }

  lemma {:induction false} TradeItemsAt(trades: seq<Trade>, i: nat)
    requires i < |trades|
    ensures TradeItems(trades)[i] == (DayKey(trades[i].date), trades[i].resultAmount)
  {
    var n := |trades| - 1;
    if i < n {
      TradeItemsAt(trades[..n], i);
    }
  }

  /** The day key of every record, in ledger order. */
  function DaysOf<T>(xs: seq<T>, dateOf: T -> string): (ds: seq<string>)
    ensures |ds| == |xs|
    ensures forall i :: 0 <= i < |xs| ==> ds[i] == DayKey(dateOf(xs[i]))
  {
    seq(|xs|, i requires 0 <= i < |xs| => DayKey(dateOf(xs[i])))
  }

  function EntryDate(e: DayEntry): string { e.date }
  function TradeDate(t: Trade): string { t.date }

  function EntryDays(entries: seq<DayEntry>): seq<string> { DaysOf(entries, EntryDate) }
  function TradeDays(trades: seq<Trade>): seq<string> { DaysOf(trades, TradeDate) }

  lemma {:induction false} EntryItemKeys(entries: seq<DayEntry>)
    ensures ItemKeys(EntryItems(entries)) == EntryDays(entries)
  {
    forall i | 0 <= i < |entries| ensures ItemKeys(EntryItems(entries))[i] == EntryDays(entries)[i] {
      EntryItemsAt(entries, i);
    }
  }

  lemma {:induction false} TradeItemKeys(trades: seq<Trade>)
    ensures ItemKeys(TradeItems(trades)) == TradeDays(trades)
  {
    forall i | 0 <= i < |trades| ensures ItemKeys(TradeItems(trades))[i] == TradeDays(trades)[i] {
      TradeItemsAt(trades, i);
    }
  }

  /** The best day found so far: its total and its date. */
  datatype Best = Best(pnl: real, date: string)

  /** The best-day scan: strict `>` so the first day reaching the maximum keeps the title. */
  function BestDay(days: seq<DayPnL>): (b: Best)
    ensures b.pnl >= 0.0
    ensures b.pnl == 0.0 ==> b.date == ""
  {
    if |days| == 0 then Best(0.0, "")
    else
      var b := BestDay(days[..|days| - 1]);
      var d := days[|days| - 1];
      if d.total > b.pnl then Best(d.total, d.key) else b
  }

  /** The worst-day scan of calculateStats, starting from 0. */
  function WorstDay(days: seq<DayPnL>): (w: real)
    ensures w <= 0.0
  {
    if |days| == 0 then 0.0
    else
      var worst := WorstDay(days[..|days| - 1]);
      if days[|days| - 1].total < worst then days[|days| - 1].total else worst
  }

  function NewestFirst(stamp: string -> int): DayPnL -> real
  {
    (d: DayPnL) => stamp(d.key) as real
  }

  function OldestFirst(stamp: string -> int): DayPnL -> real
  {
    (d: DayPnL) => -(stamp(d.key) as real)
  }

  datatype ConsistencyStats = ConsistencyStats(
    totalNetProfit: real,
    bestDayPnL: real,
    bestDayDate: string,
    consistencyPercent: real,
    isPassingConsistency: bool,
    isTargetReached: bool,
    isEvaluationPassed: bool,
    consistencyShortfall: real,
    requiredTotalProfitForConsistency: real,
    aggregatedDays: seq<DayPnL>)

  /** The figures derived from the per-day totals, once the ledger has been scanned. */
  function ConsistencyFrom(total: real, days: seq<DayPnL>, best: real, bestDate: string,
                           rulePercent: real, profitTarget: real, stamp: string -> int): (r: ConsistencyStats)
    requires rulePercent != 0.0
    ensures r.consistencyShortfall >= 0.0
    ensures r.isPassingConsistency ==> r.totalNetProfit > 0.0
    ensures r.isEvaluationPassed <==> r.isTargetReached && r.isPassingConsistency
    ensures multiset(r.aggregatedDays) == multiset(days)
  {
    var pct := if total > 0.0 && best > 0.0 then best / total * 100.0 else 0.0;
    var passing := total > 0.0 && pct <= rulePercent;
    var reached := total >= profitTarget;
    var required := if best > 0.0 then best / (rulePercent / 100.0) else 0.0;
    var shortfall := if required > total then required - total else 0.0;
    ConsistencyStats(total, best, bestDate, pct, passing, reached, reached && passing,
                     shortfall, required, SortDesc(days, NewestFirst(stamp)))
  }

  /** What calculateConsistency returns for a ledger. */
  function ConsistencyOf(entries: seq<DayEntry>, rulePercent: real, profitTarget: real,
                         stamp: string -> int): (r: ConsistencyStats)
    requires rulePercent != 0.0
    ensures r.bestDayPnL >= 0.0 && (r.bestDayPnL == 0.0 ==> r.bestDayDate == "")
    ensures r.consistencyShortfall >= 0.0
    ensures |r.aggregatedDays| <= |entries|
  {
    var days := GroupAll(EntryItems(entries));
    var best := BestDay(days);
    ConsistencyFrom(PnlSum(entries), days, best.pnl, best.date, rulePercent, profitTarget, stamp)
  }

  // ---------------------------------------------------------------------------
  // calculateConsistency

  /** One pass of the first loop: the prefix grows by entry `i`. */
  lemma {:induction false} EntryStep(entries: seq<DayEntry>, i: nat)
    requires i < |entries|
    ensures PnlSum(entries[..i + 1]) == PnlSum(entries[..i]) + entries[i].pnl
    ensures GroupAll(EntryItems(entries[..i + 1]))
            == AddTo(GroupAll(EntryItems(entries[..i])), DayKey(entries[i].date), entries[i].pnl)
  {
    assert entries[..i + 1][..i] == entries[..i];
    var items := EntryItems(entries[..i + 1]);
    assert items[..i] == EntryItems(entries[..i]);
  }

  /** One pass of a best/worst-day loop: the prefix grows by day `j`. */
  lemma {:induction false} DayStep(days: seq<DayPnL>, j: nat)
    requires j < |days|
    ensures BestDay(days[..j + 1]) ==
              (if days[j].total > BestDay(days[..j]).pnl then Best(days[j].total, days[j].key) else BestDay(days[..j]))
    ensures WorstDay(days[..j + 1]) ==
              (if days[j].total < WorstDay(days[..j]) then days[j].total else WorstDay(days[..j]))
  {
    assert days[..j + 1][..j] == days[..j];
  }

  method CalculateConsistency(entries: seq<DayEntry>, rulePercent: real, profitTarget: real,
                              stamp: string -> int) returns (r: ConsistencyStats)
    requires rulePercent != 0.0
    ensures r == ConsistencyOf(entries, rulePercent, profitTarget, stamp)
  {
    var dailyPnL: seq<DayPnL> := [];
    var totalNetProfit := 0.0;
    var i := 0;
    while i < |entries|
      invariant 0 <= i <= |entries|
      invariant totalNetProfit == PnlSum(entries[..i])
      invariant dailyPnL == GroupAll(EntryItems(entries[..i]))
    {
      EntryStep(entries, i);
      totalNetProfit := totalNetProfit + entries[i].pnl;
      dailyPnL := AddTo(dailyPnL, DayKey(entries[i].date), entries[i].pnl);
      i := i + 1;
    }
    assert entries[..i] == entries;

    var bestDayPnL := 0.0;
    var bestDayDate := "";
    var j := 0;
    while j < |dailyPnL|
      invariant 0 <= j <= |dailyPnL|
      invariant Best(bestDayPnL, bestDayDate) == BestDay(dailyPnL[..j])
    {
      DayStep(dailyPnL, j);
      if dailyPnL[j].total > bestDayPnL {
        bestDayPnL := dailyPnL[j].total;
        bestDayDate := dailyPnL[j].key;
      }
      j := j + 1;
    }
    assert dailyPnL[..j] == dailyPnL;
    r := ConsistencyFrom(totalNetProfit, dailyPnL, bestDayPnL, bestDayDate, rulePercent, profitTarget, stamp);
  }

  // ---------------------------------------------------------------------------
  // The trade ledger

  function ResultSum(trades: seq<Trade>): real
  {
    if |trades| == 0 then 0.0 else ResultSum(trades[..|trades| - 1]) + trades[|trades| - 1].resultAmount
  }

  function WinCount(trades: seq<Trade>): nat
  {
    if |trades| == 0 then 0
    else WinCount(trades[..|trades| - 1]) + (if trades[|trades| - 1].resultAmount > 0.0 then 1 else 0)
  }

  /** Sum of `rrAchieved` over the winning trades. */
  function WinRRSum(trades: seq<Trade>): real
  {
    if |trades| == 0 then 0.0
    else
      var t := trades[|trades| - 1];
      WinRRSum(trades[..|trades| - 1]) + (if t.resultAmount > 0.0 then t.rrAchieved else 0.0)
  }

  /** The account balance after the given trades. */
  function Balance(initialBalance: real, trades: seq<Trade>): real
  {
    initialBalance + ResultSum(trades)
  }

  /** The running peak: the largest balance seen so far, starting from the initial balance. */
  function Peak(initialBalance: real, trades: seq<Trade>): (p: real)
    ensures p >= initialBalance
    ensures p >= Balance(initialBalance, trades)
  {
    if |trades| == 0 then initialBalance
    else Max(Peak(initialBalance, trades[..|trades| - 1]), Balance(initialBalance, trades))
  }

  /** The running maximum of `peak - balance`, starting from 0. */
  function MaxDrawdown(initialBalance: real, trades: seq<Trade>): (d: real)
    ensures d >= 0.0
    ensures d >= Peak(initialBalance, trades) - Balance(initialBalance, trades)
  {
    if |trades| == 0 then 0.0
    else Max(MaxDrawdown(initialBalance, trades[..|trades| - 1]),
             Peak(initialBalance, trades) - Balance(initialBalance, trades))
  }

  datatype EquityPoint = EquityPoint(date: string, balance: real)

  function EquityCurve(initialBalance: real, trades: seq<Trade>): (c: seq<EquityPoint>)
    ensures |c| == |trades|
    ensures |trades| > 0 ==> c[|trades| - 1].balance == Balance(initialBalance, trades)
  {
    if |trades| == 0 then []
    else EquityCurve(initialBalance, trades[..|trades| - 1])
         + [EquityPoint(DayKey(trades[|trades| - 1].date), Balance(initialBalance, trades))]
  }

  datatype TradeStats = TradeStats(
    currentBalance: real,
    netProfit: real,
    winRate: real,
    totalTrades: nat,
    avgRR: real,
    maxDrawdownAmount: real,
    maxDrawdownPercent: real,
    bestDayPnL: real,
    worstDayPnL: real,
    bestDayDate: string,
    bestDayPercentOfTotal: real,
    equityCurve: seq<EquityPoint>,
    dailyPnLChart: seq<DayPnL>)

  /** The summary figures, once the trades and the days have been scanned. */
  function StatsFrom(initialBalance: real, totalTrades: nat, netProfit: real, winning: nat, totalRR: real,
                     maxDD: real, curve: seq<EquityPoint>, days: seq<DayPnL>,
                     best: real, bestDate: string, worst: real, stamp: string -> int): (r: TradeStats)
    ensures r.currentBalance == initialBalance + r.netProfit
    ensures totalTrades == 0 ==> r.winRate == 0.0
    ensures r.bestDayPercentOfTotal != 0.0 ==> r.netProfit > 0.0 && r.bestDayPnL > 0.0
    ensures multiset(r.dailyPnLChart) == multiset(days)
  {
    var winRate := if totalTrades > 0 then (winning as real) / (totalTrades as real) * 100.0 else 0.0;
    var avgRR := if winning > 0 then totalRR / (winning as real) else 0.0;
    var ddPercent := if initialBalance > 0.0 then maxDD / initialBalance * 100.0 else 0.0;
    var bestPct := if netProfit > 0.0 && best > 0.0 then best / netProfit * 100.0 else 0.0;
    TradeStats(initialBalance + netProfit, netProfit, winRate, totalTrades, avgRR, maxDD, ddPercent,
               best, worst, bestDate, bestPct, curve, SortDesc(days, OldestFirst(stamp)))
  }

  /** What calculateStats returns for a trade ledger. */
  function StatsOf(trades: seq<Trade>, initialBalance: real, stamp: string -> int): (r: TradeStats)
    ensures r.totalTrades == |trades| && |r.equityCurve| == |trades|
    ensures r.maxDrawdownAmount >= 0.0
    ensures r.worstDayPnL <= 0.0 <= r.bestDayPnL
    ensures |r.dailyPnLChart| <= |trades|
  {
    var days := GroupAll(TradeItems(trades));
    var best := BestDay(days);
    StatsFrom(initialBalance, |trades|, ResultSum(trades), WinCount(trades), WinRRSum(trades),
              MaxDrawdown(initialBalance, trades), EquityCurve(initialBalance, trades), days,
              best.pnl, best.date, WorstDay(days), stamp)
  }

  // ---------------------------------------------------------------------------
  // calculateStats

  /** The variables of the trade loop of calculateStats. */
  datatype Running = Running(netProfit: real, winningTrades: nat, totalRR: real, currentBalance: real,
                             maxBalance: real, maxDrawdownAmount: real, dailyPnL: seq<DayPnL>,
                             equityCurve: seq<EquityPoint>)

  /** One pass of the trade loop. */
  function Step(s: Running, trade: Trade): (next: Running)
    ensures next.currentBalance - next.netProfit == s.currentBalance - s.netProfit
    ensures next.maxBalance >= next.currentBalance && next.maxBalance >= s.maxBalance
    ensures next.maxDrawdownAmount >= s.maxDrawdownAmount
    ensures next.maxDrawdownAmount >= next.maxBalance - next.currentBalance
    ensures next.winningTrades <= s.winningTrades + 1
    ensures |next.equityCurve| == |s.equityCurve| + 1
  {
    var balance := s.currentBalance + trade.resultAmount;
    var peak := if balance > s.maxBalance then balance else s.maxBalance;
    var drawdown := peak - balance;
    var day := DayKey(trade.date);
    Running(s.netProfit + trade.resultAmount,
            s.winningTrades + (if trade.resultAmount > 0.0 then 1 else 0),
            s.totalRR + (if trade.resultAmount > 0.0 then trade.rrAchieved else 0.0),
            balance, peak,
            if drawdown > s.maxDrawdownAmount then drawdown else s.maxDrawdownAmount,
            AddTo(s.dailyPnL, day, trade.resultAmount),
            s.equityCurve + [EquityPoint(day, balance)])
  }

  /** The loop variables after a prefix of the trades. */
  function Run(initialBalance: real, trades: seq<Trade>): (r: Running)
    ensures r.currentBalance == initialBalance + r.netProfit
    ensures r.maxBalance >= r.currentBalance && r.maxBalance >= initialBalance
    ensures r.maxDrawdownAmount >= 0.0 && r.maxDrawdownAmount >= r.maxBalance - r.currentBalance
    ensures r.winningTrades <= |trades|
    ensures |r.equityCurve| == |trades|
  {
    if |trades| == 0 then Running(0.0, 0, 0.0, initialBalance, initialBalance, 0.0, [], [])
    else Step(Run(initialBalance, trades[..|trades| - 1]), trades[|trades| - 1])
  }

  lemma {:induction false} RunStep(initialBalance: real, trades: seq<Trade>, i: nat)
    requires i < |trades|
    ensures Run(initialBalance, trades[..i + 1]) == Step(Run(initialBalance, trades[..i]), trades[i])
  {
    assert trades[..i + 1][..i] == trades[..i];
  }

  /** The running totals, balance, peak and drawdown are the specification figures of the prefix. */
  lemma {:induction false} RunFigures(initialBalance: real, trades: seq<Trade>)
    ensures var r := Run(initialBalance, trades);
      && r.netProfit == ResultSum(trades) && r.winningTrades == WinCount(trades) && r.totalRR == WinRRSum(trades)
      && r.currentBalance == Balance(initialBalance, trades) && r.maxBalance == Peak(initialBalance, trades)
      && r.maxDrawdownAmount == MaxDrawdown(initialBalance, trades)
  {
    if |trades| > 0 {
      RunFigures(initialBalance, trades[..|trades| - 1]);
    }
  }

  /** The per-day accumulator is the grouping of the prefix's `(day, resultAmount)` pairs. */
  lemma {:induction false} RunDays(initialBalance: real, trades: seq<Trade>)
    ensures Run(initialBalance, trades).dailyPnL == GroupAll(TradeItems(trades))
  {
    if |trades| > 0 {
      var n := |trades| - 1;
      RunDays(initialBalance, trades[..n]);
      var items := TradeItems(trades);
      assert items[..n] == TradeItems(trades[..n]);
    }
  }

  /** The equity curve holds one point per trade with the balance after it. */
  lemma {:induction false} RunCurve(initialBalance: real, trades: seq<Trade>)
    ensures Run(initialBalance, trades).equityCurve == EquityCurve(initialBalance, trades)
  {
    if |trades| > 0 {
      RunCurve(initialBalance, trades[..|trades| - 1]);
      RunFigures(initialBalance, trades);
    }
  }

  /** The loop variables are the specification figures of the prefix processed so far. */
  lemma {:induction false} RunIsSpec(initialBalance: real, trades: seq<Trade>)
    ensures Run(initialBalance, trades) ==
            Running(ResultSum(trades), WinCount(trades), WinRRSum(trades), Balance(initialBalance, trades),
                    Peak(initialBalance, trades), MaxDrawdown(initialBalance, trades),
                    GroupAll(TradeItems(trades)), EquityCurve(initialBalance, trades))
  {
    RunFigures(initialBalance, trades);
    RunDays(initialBalance, trades);
    RunCurve(initialBalance, trades);
  }

  /** The `Object.entries(dailyPnL).forEach` of calculateStats: best day (strict `>`) and worst day. */
  method ScanDays(dailyPnL: seq<DayPnL>) returns (bestDayPnL: real, bestDayDate: string, worstDayPnL: real)
    ensures Best(bestDayPnL, bestDayDate) == BestDay(dailyPnL)
    ensures worstDayPnL == WorstDay(dailyPnL)
  {
    bestDayPnL, worstDayPnL, bestDayDate := 0.0, 0.0, "";
    var j := 0;
    while j < |dailyPnL|
      invariant 0 <= j <= |dailyPnL|
      invariant Best(bestDayPnL, bestDayDate) == BestDay(dailyPnL[..j])
      invariant worstDayPnL == WorstDay(dailyPnL[..j])
    {
      DayStep(dailyPnL, j);
      var pnl := dailyPnL[j].total;
      if pnl > bestDayPnL {
        bestDayPnL := pnl;
        bestDayDate := dailyPnL[j].key;
      }
      if pnl < worstDayPnL {
        worstDayPnL := pnl;
      }
      j := j + 1;
    }
    assert dailyPnL[..j] == dailyPnL;
  }

  /** The body of the `trades.forEach` callback of calculateStats, on the variables it updates. */
  method ApplyTrade(acc: Running, trade: Trade) returns (next: Running)
    ensures next == Step(acc, trade)
  {
    var netProfit, winningTrades, totalRR := acc.netProfit, acc.winningTrades, acc.totalRR;
    var currentBalance, maxBalance, maxDrawdownAmount := acc.currentBalance, acc.maxBalance, acc.maxDrawdownAmount;
    netProfit := netProfit + trade.resultAmount;
    if trade.resultAmount > 0.0 {
      winningTrades := winningTrades + 1;
      totalRR := totalRR + trade.rrAchieved;
    }
    currentBalance := currentBalance + trade.resultAmount;
    if currentBalance > maxBalance {
      maxBalance := currentBalance;
    }
    var currentDrawdown := maxBalance - currentBalance;
    if currentDrawdown > maxDrawdownAmount {
      maxDrawdownAmount := currentDrawdown;
    }
    var day := DayKey(trade.date);
    var dailyPnL := AddTo(acc.dailyPnL, day, trade.resultAmount);
    var equityCurve := acc.equityCurve + [EquityPoint(day, currentBalance)];
    next := Running(netProfit, winningTrades, totalRR, currentBalance, maxBalance, maxDrawdownAmount,
                    dailyPnL, equityCurve);
  }

  method CalculateStats(trades: seq<Trade>, initialBalance: real, stamp: string -> int) returns (r: TradeStats)
    ensures r == StatsOf(trades, initialBalance, stamp)
  {
    var acc := Running(0.0, 0, 0.0, initialBalance, initialBalance, 0.0, [], []);
    var i := 0;
    while i < |trades|
      invariant 0 <= i <= |trades|
      invariant acc == Run(initialBalance, trades[..i])
    {
      RunStep(initialBalance, trades, i);
      acc := ApplyTrade(acc, trades[i]);
      i := i + 1;
    }
    assert trades[..i] == trades;
    RunIsSpec(initialBalance, trades);
    var dailyPnL := acc.dailyPnL;

    var bestDayPnL, bestDayDate, worstDayPnL := ScanDays(dailyPnL);
    r := StatsFrom(initialBalance, |trades|, acc.netProfit, acc.winningTrades, acc.totalRR,
                   acc.maxDrawdownAmount, acc.equityCurve, dailyPnL, bestDayPnL, bestDayDate, worstDayPnL, stamp);
  }
}
