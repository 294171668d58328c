/**
 * The prop-firm evaluation page: the dollar limits derived from the rule percentages, the
 * four rule checks on the trade statistics, the three-way verdict badge, the progress bars
 * and the values the rule editor saves.
 */
module PropFirm {
  import opened Common
  import opened Types
  import opened Grouping
  import opened Utils
  import UtilsProps
  import opened Store

  // ---------------------------------------------------------------------------
  // Rule editor

  /**
   * What `handleSave` hands to the store: each parsed field, or its default when the field
   * parses to NaN or 0 (the `|| default` of the source).
   */
  function SavedConfiguration(editBal: Option<real>, editTarget: Option<real>, editDailyLoss: Option<real>,
                              editMaxDD: Option<real>, editConsistency: Option<real>): (r: (Settings, Rules))
    ensures r.0.initialBalance == (if editBal.Some? && editBal.value != 0.0 then editBal.value else 50000.0)
    ensures r.1.profitTargetPercent == (if editTarget.Some? && editTarget.value != 0.0 then editTarget.value else 10.0)
    ensures r.1.maxDailyLossPercent == (if editDailyLoss.Some? && editDailyLoss.value != 0.0 then editDailyLoss.value else 5.0)
    ensures r.1.maxOverallDrawdownPercent == (if editMaxDD.Some? && editMaxDD.value != 0.0 then editMaxDD.value else 10.0)
    ensures r.1.consistencyRulePercent == (if editConsistency.Some? && editConsistency.value != 0.0 then editConsistency.value else 40.0)
    ensures r.0.initialBalance != 0.0 && r.1.profitTargetPercent != 0.0 && r.1.maxDailyLossPercent != 0.0
    ensures r.1.maxOverallDrawdownPercent != 0.0 && r.1.consistencyRulePercent != 0.0
  {
    (Settings(OrDefault(editBal, 50000.0)),
     Rules(OrDefault(editTarget, 10.0), OrDefault(editDailyLoss, 5.0), OrDefault(editMaxDD, 10.0),
           OrDefault(editConsistency, 40.0)))
  }

  /** `handleSave`: the balance goes to `settings`, the four percentages to the rules. */
  method HandleSave(store: Store, editBal: Option<real>, editTarget: Option<real>, editDailyLoss: Option<real>,
                    editMaxDD: Option<real>, editConsistency: Option<real>)
    modifies store
    ensures var cfg := SavedConfiguration(editBal, editTarget, editDailyLoss, editMaxDD, editConsistency);
      store.state == old(store.state).(settings := cfg.0, propFirmRules := cfg.1)
  {
    var cfg := SavedConfiguration(editBal, editTarget, editDailyLoss, editMaxDD, editConsistency);
    store.UpdateSettingsObject(SettingsPatch(Some(cfg.0.initialBalance)));
    store.UpdateRules(RulesPatch(Some(cfg.1.profitTargetPercent), Some(cfg.1.maxDailyLossPercent),
                                 Some(cfg.1.maxOverallDrawdownPercent), Some(cfg.1.consistencyRulePercent)));
  }

  // ---------------------------------------------------------------------------
  // Dollar limits and rule checks

  datatype DollarLimits = DollarLimits(targetDollars: real, maxDdDollars: real, maxDailyLossDollars: real)

  /** `initBal * (percent / 100)` for the target, the overall drawdown and the daily loss. */
  function Limits(initBal: real, rules: Rules): (l: DollarLimits)
    ensures l.targetDollars * 100.0 == initBal * rules.profitTargetPercent
    ensures l.maxDdDollars * 100.0 == initBal * rules.maxOverallDrawdownPercent
    ensures l.maxDailyLossDollars * 100.0 == initBal * rules.maxDailyLossPercent
  {
    DollarLimits(initBal * (rules.profitTargetPercent / 100.0),
                 initBal * (rules.maxOverallDrawdownPercent / 100.0),
                 initBal * (rules.maxDailyLossPercent / 100.0))
  }

  datatype Checks = Checks(targetMet: bool, ddFailed: bool, dailyFailed: bool, consistencyFailed: bool)

  /** The four status checks: the target is inclusive, the three failures are strict. */
  function RuleChecks(stats: TradeStats, initBal: real, rules: Rules): (c: Checks)
    ensures c.targetMet <==> stats.netProfit * 100.0 >= initBal * rules.profitTargetPercent
    ensures c.ddFailed <==> stats.maxDrawdownAmount * 100.0 > initBal * rules.maxOverallDrawdownPercent
    ensures c.dailyFailed <==> Abs(stats.worstDayPnL) * 100.0 > initBal * rules.maxDailyLossPercent
  {
    var l := Limits(initBal, rules);
    Checks(stats.netProfit >= l.targetDollars,
           stats.maxDrawdownAmount > l.maxDdDollars,
           Abs(stats.worstDayPnL) > l.maxDailyLossDollars,
           stats.bestDayPercentOfTotal > rules.consistencyRulePercent)
  }

  predicate IsOverallFailing(c: Checks)
  {
    c.ddFailed || c.dailyFailed || c.consistencyFailed
  }

  predicate IsOverallPassing(c: Checks)
  {
    c.targetMet && !IsOverallFailing(c)
  }

  datatype Verdict = Violated | Passed | InProgress

  /** The badge: VIOLATED if any rule fails, else PASSED if the target is met, else IN PROGRESS. */
  function VerdictOf(c: Checks): (v: Verdict)
    ensures v == Violated <==> c.ddFailed || c.dailyFailed || c.consistencyFailed
    ensures v == Passed <==> c.targetMet && !c.ddFailed && !c.dailyFailed && !c.consistencyFailed
    ensures v == InProgress <==> !c.targetMet && !c.ddFailed && !c.dailyFailed && !c.consistencyFailed
  {
    if IsOverallFailing(c) then Violated else if IsOverallPassing(c) then Passed else InProgress
  }

  /** Failing and passing never hold together; a failure wins over a met target. */
  lemma FailingExcludesPassing(c: Checks)
    ensures !(IsOverallFailing(c) && IsOverallPassing(c))
    ensures IsOverallFailing(c) && c.targetMet ==> VerdictOf(c) == Violated
  {
  }

  /**
   * The daily-loss rule looks at the size of the worst day: it fails exactly when the worst
   * day lost more than the limit (the worst day is never positive).
   */
  lemma {:induction false} DailyLossCheck(trades: seq<Trade>, initBal: real, stamp: string -> int, rules: Rules)
    ensures var stats := StatsOf(trades, initBal, stamp);
      RuleChecks(stats, initBal, rules).dailyFailed
      <==> -stats.worstDayPnL > Limits(initBal, rules).maxDailyLossDollars
  {
    var days := GroupAll(TradeItems(trades));
    assert StatsOf(trades, initBal, stamp).worstDayPnL == WorstDay(days);
    UtilsProps.WorstDaySpec(days);
  }

  /**
   * An empty trade ledger with a positive balance and positive percentages breaks no rule and
   * has not reached the target: the evaluation is in progress.
   */
  lemma EmptyLedgerInProgress(initBal: real, rules: Rules, stamp: string -> int)
    requires initBal > 0.0
    requires rules.profitTargetPercent > 0.0 && rules.maxDailyLossPercent > 0.0
    requires rules.maxOverallDrawdownPercent > 0.0 && rules.consistencyRulePercent > 0.0
    ensures VerdictOf(RuleChecks(StatsOf([], initBal, stamp), initBal, rules)) == InProgress
  {
    var l := Limits(initBal, rules);
    assert l.targetDollars > 0.0 && l.maxDdDollars > 0.0 && l.maxDailyLossDollars > 0.0;
  }

  // ---------------------------------------------------------------------------
  // Progress bars

  datatype BarColor = Primary | Danger | Warning | Success

  /** `Math.min(current / max * 100, 100)`. */
  function ProgressPercent(current: real, max: real): (p: real)
    requires max != 0.0
    ensures p <= 100.0
    ensures p == 100.0 || p == current / max * 100.0
    ensures current / max * 100.0 >= 100.0 ==> p == 100.0
    ensures current / max * 100.0 < 100.0 ==> p == current / max * 100.0
  {
    Min(current / max * 100.0, 100.0)
  }

  /** For a bar where reaching the maximum is bad: danger above 80, warning above 50, else success; otherwise success only at 100. */
  function BarColorOf(percent: real, invertDanger: bool): (c: BarColor)
    ensures invertDanger ==> (c == Danger <==> percent > 80.0)
    ensures invertDanger ==> (c == Warning <==> 50.0 < percent <= 80.0)
    ensures invertDanger ==> (c == Success <==> percent <= 50.0)
    ensures !invertDanger ==> (c == Success <==> percent >= 100.0)
    ensures !invertDanger ==> (c == Primary <==> percent < 100.0)
  {
    if invertDanger then
      if percent > 80.0 then Danger else if percent > 50.0 then Warning else Success
    else
      if percent >= 100.0 then Success else Primary
  }

  /** The drawn width, `Math.max(percent, 0)`, lies in [0, 100]. */
  function BarWidth(current: real, max: real): (w: real)
    requires max != 0.0
    ensures 0.0 <= w <= 100.0
    ensures current / max >= 0.0 ==> w == ProgressPercent(current, max)
    ensures current / max < 0.0 ==> w == 0.0
  {
    Max(ProgressPercent(current, max), 0.0)
  }

  /** The target bar is complete exactly when the target is met. */
  lemma TargetBarComplete(stats: TradeStats, initBal: real, rules: Rules)
    requires Limits(initBal, rules).targetDollars > 0.0
    ensures var target := Limits(initBal, rules).targetDollars;
      BarColorOf(ProgressPercent(Max(stats.netProfit, 0.0), target), false) == Success
      <==> RuleChecks(stats, initBal, rules).targetMet
  {
    var target := Limits(initBal, rules).targetDollars;
    PercentOf(Max(stats.netProfit, 0.0), target, 100.0);
    PercentOf(Max(stats.netProfit, 0.0), target, 99.0);
  }
}
