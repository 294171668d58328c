/**
 * The trade form: the reward-to-risk ratio computed on submit and the `Trade` record built
 * from the parsed fields, each unparseable number stored as 0.
 */
module AddTrade {
  import opened Common
  import opened Types
  import opened Store

  /**
   * The R:R of a trade from its parsed result and risk (`None` for NaN). A winner with a
   * positive risk gets `result / risk`; a loser gets `result / risk` whatever the risk is,
   * which is not a finite number when the risk is 0 or unparseable: that case is `None`.
   * Everything else, a flat or unparseable result included, gets 0.
   */
  function RewardToRisk(result: Option<real>, risk: Option<real>): (rr: Option<real>)
    ensures result.Some? && result.value > 0.0 && risk.Some? && risk.value > 0.0 ==>
              rr.Some? && rr.value > 0.0 && rr.value * risk.value == result.value
    ensures result.None? || result.value == 0.0 ==> rr == Some(0.0)
    ensures result.Some? && result.value > 0.0 && (risk.None? || risk.value <= 0.0) ==> rr == Some(0.0)
    ensures result.Some? && result.value < 0.0 && risk.Some? && risk.value != 0.0 ==>
              rr.Some? && rr.value * risk.value == result.value
    ensures result.Some? && result.value < 0.0 && risk.Some? && risk.value > 0.0 ==> rr.Some? && rr.value < 0.0
    ensures rr.None? <==> result.Some? && result.value < 0.0 && (risk.None? || risk.value == 0.0)
  {
    if result.Some? && result.value > 0.0 && risk.Some? && risk.value > 0.0 then
      Some(result.value / risk.value)
    else if result.Some? && result.value < 0.0 then
      if risk.Some? && risk.value != 0.0 then Some(result.value / risk.value) else None
    else Some(0.0)
  }

  /** The fields of the form, each number as parsed (`None` for NaN). */
  datatype TradeForm = TradeForm(
    date: string,
    instrument: Instrument,
    session: Session,
    direction: Direction,
    entryPrice: Option<real>,
    stopLoss: Option<real>,
    takeProfit: Option<real>,
    riskAmount: Option<real>,
    resultAmount: Option<real>,
    duration: Option<int>,
    emotionBefore: Emotion,
    emotionAfter: Emotion,
    ruleFollowed: bool,
    notes: string)

  /** `parseInt(duration, 10) || 0` */
  function DurationOrZero(d: Option<int>): (m: int)
    ensures d.Some? ==> m == d.value
    ensures d.None? ==> m == 0
  {
    if d.Some? then d.value else 0
  }

  /**
   * The record `handleSubmit` books, with `id` the fresh identifier and `isoDate` the form's
   * date in ISO form; `None` when its R:R would not be a finite number.
   */
  function BuildTrade(id: string, isoDate: string, form: TradeForm): (t: Option<Trade>)
    ensures t.None? <==> RewardToRisk(form.resultAmount, form.riskAmount).None?
    ensures t.Some? ==>
      && t.value.id == id && t.value.date == isoDate
      && t.value.instrument == form.instrument && t.value.session == form.session
      && t.value.direction == form.direction
      && t.value.entryPrice == (if form.entryPrice.Some? then form.entryPrice.value else 0.0)
      && t.value.stopLoss == (if form.stopLoss.Some? then form.stopLoss.value else 0.0)
      && t.value.takeProfit == (if form.takeProfit.Some? then form.takeProfit.value else 0.0)
      && t.value.riskAmount == (if form.riskAmount.Some? then form.riskAmount.value else 0.0)
      && t.value.resultAmount == (if form.resultAmount.Some? then form.resultAmount.value else 0.0)
      && t.value.rrAchieved == RewardToRisk(form.resultAmount, form.riskAmount).value
      && t.value.durationMinutes == (if form.duration.Some? then form.duration.value else 0)
      && t.value.emotionBefore == form.emotionBefore && t.value.emotionAfter == form.emotionAfter
      && t.value.ruleFollowed == form.ruleFollowed && t.value.notes == form.notes
  {
    match RewardToRisk(form.resultAmount, form.riskAmount)
    case None => None
    case Some(rr) =>
      Some(Trade(id, isoDate, form.instrument, form.session, form.direction,
                 OrDefault(form.entryPrice, 0.0), OrDefault(form.stopLoss, 0.0), OrDefault(form.takeProfit, 0.0),
                 OrDefault(form.riskAmount, 0.0), OrDefault(form.resultAmount, 0.0), rr,
                 DurationOrZero(form.duration), form.emotionBefore, form.emotionAfter, form.ruleFollowed, form.notes))
  }

  /**
   * A booked trade's R:R agrees in sign with its result whenever the risk is positive, and is
   * 0 for a trade that is not a loss and did not risk a positive amount.
   */
  lemma TradeRRSign(id: string, isoDate: string, form: TradeForm)
    requires BuildTrade(id, isoDate, form).Some?
    ensures var t := BuildTrade(id, isoDate, form).value;
      && (t.riskAmount > 0.0 ==> (t.rrAchieved > 0.0 <==> t.resultAmount > 0.0))
      && (t.riskAmount > 0.0 ==> (t.rrAchieved < 0.0 <==> t.resultAmount < 0.0))
      && (t.resultAmount >= 0.0 && t.riskAmount <= 0.0 ==> t.rrAchieved == 0.0)
  {
  }

  /** A winner of 150 with no risk stated gets an R:R of 0 rather than a division by zero. */
  lemma ScenarioZeroRisk(id: string, isoDate: string, form: TradeForm)
    requires form.resultAmount == Some(150.0) && form.riskAmount == Some(0.0)
    ensures BuildTrade(id, isoDate, form).Some?
    ensures BuildTrade(id, isoDate, form).value.rrAchieved == 0.0
    ensures BuildTrade(id, isoDate, form).value.riskAmount == 0.0
  {
  }

  /** `handleSubmit`: books the new trade in the store, or leaves the store alone. */
  method HandleSubmit(store: Store, id: string, isoDate: string, form: TradeForm)
    modifies store
    ensures BuildTrade(id, isoDate, form).None? ==> store.state == old(store.state)
    ensures BuildTrade(id, isoDate, form).Some? ==>
              store.state == old(store.state).(trades := old(store.state.trades) + [BuildTrade(id, isoDate, form).value])
  {
    var t := BuildTrade(id, isoDate, form);
    if t.Some? {
      store.AddTrade(t.value);
    }
  }
}
