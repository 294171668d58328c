/**
 * The dashboard of the day-entry ledger: adding a win or a loss, saving the settings, the
 * progress figures, the status message chosen by priority, the win/loss streak and the
 * per-day rows of the history table.
 */
module App {
  import opened Common
  import opened Types
  import opened Grouping
  import opened Sorting
  import opened Utils
  import opened UtilsProps
  import opened Store

  // ---------------------------------------------------------------------------
  // Handlers

  /** The button pressed: the amount is booked as a profit or as a loss. */
  datatype EntryKind = Win | Loss

  /**
   * The entry `handleAddEntry` books, or `None` when it returns early: an empty date, an empty
   * amount, or an amount that does not parse (`parsed` is `parseFloat(newPnL)`, `None` for NaN).
   * A win stores the magnitude, a loss its negation.
   */
  function NewEntry(kind: EntryKind, id: string, newDate: string, newPnL: string, parsed: Option<real>): (r: Option<DayEntry>)
    ensures r.None? <==> newDate == [] || newPnL == [] || parsed.None?
    ensures r.Some? ==> r.value.id == id && r.value.date == newDate && Abs(r.value.pnl) == Abs(parsed.value)
    ensures r.Some? && kind == Win ==> r.value.pnl >= 0.0
    ensures r.Some? && kind == Loss ==> r.value.pnl <= 0.0
  {
    if newDate == [] || newPnL == [] || parsed.None? then None
    else
      var finalPnL := Abs(parsed.value);
      Some(DayEntry(id, newDate, if kind == Loss then -finalPnL else finalPnL))
  }

  /** `handleAddEntry`: books the new entry in the store, or leaves the store alone. */
  method HandleAddEntry(store: Store, kind: EntryKind, id: string, newDate: string, newPnL: string, parsed: Option<real>)
    modifies store
    ensures NewEntry(kind, id, newDate, newPnL, parsed).None? ==> store.state == old(store.state)
    ensures NewEntry(kind, id, newDate, newPnL, parsed).Some? ==>
              store.state == old(store.state).(entries := old(store.state.entries) + [NewEntry(kind, id, newDate, newPnL, parsed).value])
  {
    if newDate == [] || newPnL == [] {
      return;
    }
    if parsed.None? {
      return;
    }
    var finalPnL := Abs(parsed.value);
    if kind == Loss {
      finalPnL := -finalPnL;
    }
    store.AddEntry(DayEntry(id, newDate, finalPnL));
  }

  /**
   * `handleSaveSettings`: each field falls back to 50000, 2500 or 40 when it parses to NaN or
   * 0; since the values passed on are never 0, the store takes all three as given.
   */
  method HandleSaveSettings(store: Store, editAccSize: Option<real>, editTarget: Option<real>, editRule: Option<real>)
    modifies store
    ensures store.state == old(store.state).(accountSize := OrDefault(editAccSize, 50000.0),
                                             profitTarget := OrDefault(editTarget, 2500.0),
                                             consistencyRulePercent := OrDefault(editRule, 40.0))
    ensures Defined(store.state)
  {
    store.UpdateSettingsScalars(OrDefault(editAccSize, 50000.0), Some(OrDefault(editTarget, 2500.0)),
                                Some(OrDefault(editRule, 40.0)));
  }

  // ---------------------------------------------------------------------------
  // Progress figures

  predicate IsFailingConsistency(stats: ConsistencyStats)
  {
    stats.totalNetProfit > 0.0 && !stats.isPassingConsistency
  }

  /**
   * The consistency alert fires exactly when the total is positive and the best day is above
   * the rule's share of it; then a positive shortfall is what brings the total to the
   * required one.
   */
  lemma {:induction false} FailingConsistencySpec(entries: seq<DayEntry>, rulePercent: real, profitTarget: real,
                                                  stamp: string -> int, r: ConsistencyStats)
    requires rulePercent > 0.0
    requires r == ConsistencyOf(entries, rulePercent, profitTarget, stamp)
    ensures IsFailingConsistency(r) <==>
              r.totalNetProfit > 0.0 && r.bestDayPnL * 100.0 > rulePercent * r.totalNetProfit
    ensures IsFailingConsistency(r) ==>
              r.consistencyShortfall > 0.0
              && r.totalNetProfit + r.consistencyShortfall == r.requiredTotalProfitForConsistency
  {
    ConsistencyFlags(entries, rulePercent, profitTarget, stamp, r);
    ConsistencyShortfall(entries, rulePercent, profitTarget, stamp, r);
  }

  /** `Math.min(Math.max(total / profitTarget * 100, 0), 100)` */
  function TargetProgress(total: real, profitTarget: real): (p: real)
    requires profitTarget != 0.0
    ensures 0.0 <= p <= 100.0
    ensures profitTarget > 0.0 ==> (p == 100.0 <==> total >= profitTarget)
    ensures profitTarget > 0.0 ==> (p == 0.0 <==> total <= 0.0)
    ensures profitTarget > 0.0 && 0.0 <= total <= profitTarget ==> p * profitTarget == total * 100.0
  {
    var p := Min(Max(total / profitTarget * 100.0, 0.0), 100.0);
    if profitTarget > 0.0 then
      PercentOf(total, profitTarget, 100.0);
      PercentOf(total, profitTarget, 0.0);
      p
    else p
  }

  /** `Math.min(consistencyPercent, 100)`: the width of the consistency bar. */
  function ConsistencyProgress(stats: ConsistencyStats): (p: real)
    ensures p <= 100.0
    ensures p == stats.consistencyPercent || (p == 100.0 && stats.consistencyPercent > 100.0)
  {
    Min(stats.consistencyPercent, 100.0)
  }

  /** For a ledger's figures the consistency bar is never negative. */
  lemma {:induction false} ConsistencyProgressBounds(entries: seq<DayEntry>, rulePercent: real, profitTarget: real,
                                                     stamp: string -> int, r: ConsistencyStats)
    requires rulePercent > 0.0
    requires r == ConsistencyOf(entries, rulePercent, profitTarget, stamp)
    ensures 0.0 <= ConsistencyProgress(r) <= 100.0
  {
    ConsistencyFlags(entries, rulePercent, profitTarget, stamp, r);
  }

  // ---------------------------------------------------------------------------
  // Status message

  datatype Status = ReadyToStart | ChallengePassed | ConsistencyAlert | DrawdownPhase | OnTrack

  /** The first matching case of the status chain. */
  function StatusOf(entryCount: nat, stats: ConsistencyStats): (s: Status)
    ensures s == ReadyToStart <==> entryCount == 0
    ensures s == ChallengePassed ==> stats.isEvaluationPassed
    ensures s == ConsistencyAlert ==> IsFailingConsistency(stats) && !stats.isEvaluationPassed
    ensures s == DrawdownPhase ==> stats.totalNetProfit < 0.0 && !stats.isEvaluationPassed
    ensures s == OnTrack ==> stats.totalNetProfit >= 0.0 && !stats.isEvaluationPassed && !IsFailingConsistency(stats)
  {
    if entryCount == 0 then ReadyToStart
    else if stats.isEvaluationPassed then ChallengePassed
    else if IsFailingConsistency(stats) then ConsistencyAlert
    else if stats.totalNetProfit < 0.0 then DrawdownPhase
    else OnTrack
  }

  /**
   * The amount the status message asks for: the consistency shortfall under an alert, the
   * profit still missing while on track short of the target, nothing otherwise.
   */
  function ActionAmount(status: Status, stats: ConsistencyStats, profitTarget: real): (a: Option<real>)
    ensures a.Some? <==> status == ConsistencyAlert || (status == OnTrack && !stats.isTargetReached)
  {
    match status
    case ConsistencyAlert => Some(stats.consistencyShortfall)
    case OnTrack => if !stats.isTargetReached then Some(profitTarget - stats.totalNetProfit) else None
    case _ => None
  }

  /**
   * Exactly one status applies to a ledger, each by its own condition: no entries; the
   * evaluation passed; a positive total failing the rule; a negative total; anything else,
   * including a zero total with entries, is on track.
   */
  lemma {:induction false} StatusSpec(entries: seq<DayEntry>, rulePercent: real, profitTarget: real,
                                      stamp: string -> int, r: ConsistencyStats)
    requires rulePercent > 0.0
    requires r == ConsistencyOf(entries, rulePercent, profitTarget, stamp)
    ensures StatusOf(|entries|, r) == ReadyToStart <==> |entries| == 0
    ensures StatusOf(|entries|, r) == ChallengePassed <==>
              |entries| > 0 && r.totalNetProfit >= profitTarget && r.isPassingConsistency
    ensures StatusOf(|entries|, r) == ConsistencyAlert <==>
              |entries| > 0 && r.totalNetProfit > 0.0 && !r.isPassingConsistency
    ensures StatusOf(|entries|, r) == DrawdownPhase <==> |entries| > 0 && r.totalNetProfit < 0.0
    ensures StatusOf(|entries|, r) == OnTrack <==>
              |entries| > 0 && (r.totalNetProfit == 0.0 || (r.isPassingConsistency && r.totalNetProfit < profitTarget))
  {
    ConsistencyFlags(entries, rulePercent, profitTarget, stamp, r);
  }

  /** Whatever the message asks for is a positive amount that completes the goal it names. */
  lemma {:induction false} ActionAmountPositive(entries: seq<DayEntry>, rulePercent: real, profitTarget: real,
                                                stamp: string -> int, r: ConsistencyStats)
    requires rulePercent > 0.0
    requires r == ConsistencyOf(entries, rulePercent, profitTarget, stamp)
    ensures var a := ActionAmount(StatusOf(|entries|, r), r, profitTarget);
      a.Some? ==> a.value > 0.0
    ensures var a := ActionAmount(StatusOf(|entries|, r), r, profitTarget);
      StatusOf(|entries|, r) == OnTrack && a.Some? ==> r.totalNetProfit + a.value == profitTarget
  {
    FailingConsistencySpec(entries, rulePercent, profitTarget, stamp, r);
    ConsistencyFlags(entries, rulePercent, profitTarget, stamp, r);
  }

  // ---------------------------------------------------------------------------
  // Streaks

  /** Whether a day continues a run of the given sign (1: wins, -1: losses). */
  predicate Continues(day: DayPnL, sign: int)
  {
    if sign > 0 then day.total > 0.0 else day.total < 0.0
  }

  /** Length of the run of days of the given sign at the front of `days`. */
  function LeadingRun(days: seq<DayPnL>, sign: int): (n: nat)
    ensures n <= |days|
    ensures forall j :: 0 <= j < n ==> Continues(days[j], sign)
  {
    if |days| == 0 || !Continues(days[0], sign) then 0 else 1 + LeadingRun(days[1..], sign)
  }

  /** The leading run is the one `k` whose days all continue it and that stops at the end or at a day that does not. */
  lemma {:induction false} LeadingRunSpec(days: seq<DayPnL>, sign: int, k: nat)
    requires k <= |days|
    ensures LeadingRun(days, sign) == k <==>
              (forall j :: 0 <= j < k ==> Continues(days[j], sign)) && (k == |days| || !Continues(days[k], sign))
  {
    if |days| > 0 && k > 0 {
      LeadingRunSpec(days[1..], sign, k - 1);
      if (forall j :: 0 <= j < k ==> Continues(days[j], sign)) {
        assert forall j :: 0 <= j < k - 1 ==> Continues(days[1..][j], sign);
      }
    }
  }

  /** A day cannot be both a win and a loss, so at most one of the streaks is nonzero. */
  lemma StreaksExclusive(days: seq<DayPnL>)
    ensures LeadingRun(days, 1) == 0 || LeadingRun(days, -1) == 0
  {
  }

  /**
   * The streak counter of the dashboard: walk the days, newest first, counting wins or
   * losses until the sign changes or a flat day stops the run.
   */
  method ComputeStreaks(days: seq<DayPnL>) returns (winStreak: nat, lossStreak: nat)
    ensures winStreak == LeadingRun(days, 1)
    ensures lossStreak == LeadingRun(days, -1)
    ensures winStreak == 0 || lossStreak == 0
    ensures winStreak + lossStreak <= |days|
  {
    winStreak, lossStreak := 0, 0;
    var i := 0;
    while i < |days|
      invariant 0 <= i <= |days|
      invariant winStreak + lossStreak == i
      invariant winStreak == 0 || lossStreak == 0
      invariant forall j :: 0 <= j < winStreak ==> days[j].total > 0.0
      invariant forall j :: 0 <= j < lossStreak ==> days[j].total < 0.0
    {
      var pnl := days[i].total;
      if pnl > 0.0 {
        if lossStreak > 0 {
          break;
        }
        winStreak := winStreak + 1;
      } else if pnl < 0.0 {
        if winStreak > 0 {
          break;
        }
        lossStreak := lossStreak + 1;
      } else {
        break;
      }
      i := i + 1;
    }
    LeadingRunSpec(days, 1, winStreak);
    LeadingRunSpec(days, -1, lossStreak);
  }

  /**
   * On the dashboard the days come newest first, so the streak is the run of wins or losses
   * ending with the newest day, and it never exceeds the number of days.
   */
  lemma {:induction false} StreakOfLedger(entries: seq<DayEntry>, rulePercent: real, profitTarget: real,
                                          stamp: string -> int, days: seq<DayPnL>)
    requires rulePercent != 0.0
    requires days == ConsistencyOf(entries, rulePercent, profitTarget, stamp).aggregatedDays
    ensures forall i, j :: 0 <= i < j < |days| ==> stamp(days[i].key) >= stamp(days[j].key)
    ensures LeadingRun(days, 1) <= |days| && LeadingRun(days, -1) <= |days|
    ensures forall j :: 0 <= j < LeadingRun(days, 1) ==> days[j].total > 0.0
    ensures forall j :: 0 <= j < LeadingRun(days, -1) ==> days[j].total < 0.0
  {
    AggregatedDaysSpec(entries, rulePercent, profitTarget, stamp, days);
    LeadingRunSpec(days, 1, LeadingRun(days, 1));
    LeadingRunSpec(days, -1, LeadingRun(days, -1));
  }

  // ---------------------------------------------------------------------------
  // Day rows

  /** One row of the history table: the entries of the day, the best-day mark and the share of the total. */
  datatype DayRow = DayRow(dayEntries: seq<DayEntry>, isBest: bool, percentOfTotal: Option<real>)

  /** `entries.filter(e => e.date.startsWith(day))` */
  function EntriesOfDay(entries: seq<DayEntry>, day: string): (r: seq<DayEntry>)
    ensures forall i :: 0 <= i < |r| ==> r[i] in entries && day <= r[i].date
    ensures forall i :: 0 <= i < |entries| && day <= entries[i].date ==> entries[i] in r
  {
    if |entries| == 0 then []
    else
      var n := |entries| - 1;
      EntriesOfDay(entries[..n], day) + (if day <= entries[n].date then [entries[n]] else [])
  }

  function DayRowOf(day: DayPnL, stats: ConsistencyStats, entries: seq<DayEntry>): (row: DayRow)
    ensures row.percentOfTotal.Some? <==> stats.totalNetProfit > 0.0 && day.total > 0.0
    ensures row.percentOfTotal.Some? ==> row.percentOfTotal.value > 0.0
    ensures row.isBest ==> day.key == stats.bestDayDate && stats.bestDayPnL > 0.0
    ensures forall e :: e in row.dayEntries <==> e in entries && day.key <= e.date
  {
    DayRow(EntriesOfDay(entries, day.key),
           day.key == stats.bestDayDate && stats.bestDayPnL > 0.0,
           if stats.totalNetProfit > 0.0 && day.total > 0.0 then Some(day.total / stats.totalNetProfit * 100.0) else None)
  }

  /** The row of a day no better than the best day, for figures whose percent is the best day's share. */
  lemma RowFigures(day: DayPnL, r: ConsistencyStats, entries: seq<DayEntry>)
    requires day.total <= r.bestDayPnL
    requires r.totalNetProfit > 0.0 && r.bestDayPnL > 0.0 ==> r.consistencyPercent * r.totalNetProfit == r.bestDayPnL * 100.0
    ensures var row := DayRowOf(day, r, entries);
      && (row.percentOfTotal.Some? <==> r.totalNetProfit > 0.0 && day.total > 0.0)
      && (row.percentOfTotal.Some? ==> 0.0 < row.percentOfTotal.value <= r.consistencyPercent)
      && (row.isBest <==> day.key == r.bestDayDate && r.bestDayPnL > 0.0)
  {
    if r.totalNetProfit > 0.0 && day.total > 0.0 {
      PercentOf(day.total, r.totalNetProfit, r.consistencyPercent);
    }
  }

  /**
   * A row shows a share only for a winning day of a profitable ledger; that share is positive
   * and at most the best day's share, the consistency percent.
   */
  lemma {:induction false} DayRowSpec(entries: seq<DayEntry>, rulePercent: real, profitTarget: real,
                                      stamp: string -> int, r: ConsistencyStats, day: DayPnL)
    requires rulePercent > 0.0
    requires r == ConsistencyOf(entries, rulePercent, profitTarget, stamp)
    requires day in r.aggregatedDays
    ensures var row := DayRowOf(day, r, entries);
      && (row.percentOfTotal.Some? <==> r.totalNetProfit > 0.0 && day.total > 0.0)
      && (row.percentOfTotal.Some? ==> 0.0 < row.percentOfTotal.value <= r.consistencyPercent)
      && (row.isBest <==> day.key == r.bestDayDate && r.bestDayPnL > 0.0)
  {
    var days := GroupAll(EntryItems(entries));
    assert r.aggregatedDays == SortDesc(days, NewestFirst(stamp));
    SortKeepsGroups(days, NewestFirst(stamp));
    var k :| 0 <= k < |days| && days[k] == day;
    ConsistencyBestDay(entries, rulePercent, profitTarget, stamp, r);
    ConsistencyFlags(entries, rulePercent, profitTarget, stamp, r);
    RowFigures(day, r, entries);
  }

  /** Every entry is listed under the row of its own day. */
  lemma DayRowEntries(entries: seq<DayEntry>, day: string)
    ensures forall e :: e in entries && DayKey(e.date) == day ==> e in EntriesOfDay(entries, day)
  {
    forall e | e in entries && DayKey(e.date) == day
      ensures e in EntriesOfDay(entries, day)
    {
    }
  }

  /** When some day is profitable, exactly one row carries the best-day mark. */
  lemma {:induction false} OneBestRow(entries: seq<DayEntry>, rulePercent: real, profitTarget: real,
                                      stamp: string -> int, r: ConsistencyStats)
    requires rulePercent > 0.0
    requires r == ConsistencyOf(entries, rulePercent, profitTarget, stamp)
    requires r.bestDayPnL > 0.0
    ensures exists i :: 0 <= i < |r.aggregatedDays| && DayRowOf(r.aggregatedDays[i], r, entries).isBest
    ensures forall i, j ::
              (0 <= i < |r.aggregatedDays| && 0 <= j < |r.aggregatedDays|
               && DayRowOf(r.aggregatedDays[i], r, entries).isBest
               && DayRowOf(r.aggregatedDays[j], r, entries).isBest) ==> i == j
  {
    var days := GroupAll(EntryItems(entries));
    var sorted := r.aggregatedDays;
    assert sorted == SortDesc(days, NewestFirst(stamp));
    ConsistencyBestDay(entries, rulePercent, profitTarget, stamp, r);
    AggregatedDaysSpec(entries, rulePercent, profitTarget, stamp, sorted);
    SortKeepsGroups(days, NewestFirst(stamp));
    var k :| 0 <= k < |days| && days[k].total == r.bestDayPnL && days[k].key == r.bestDayDate;
    assert days[k] in sorted;
    var m :| 0 <= m < |sorted| && sorted[m] == days[k];
    assert DayRowOf(sorted[m], r, entries).isBest;
    forall i, j | 0 <= i < |sorted| && 0 <= j < |sorted|
      && DayRowOf(sorted[i], r, entries).isBest && DayRowOf(sorted[j], r, entries).isBest
      ensures i == j
    {
      assert Keys(sorted)[i] == Keys(sorted)[j];
    }
  }
}
