/** The record shapes of the journal: day entries, trades and the persisted application state. */
module Types {

  datatype Emotion = Calm | FOMO | Revenge | Bored | Anxious | Confident | Greedy | Fearful
  datatype Instrument = Nasdaq | SP500 | EURUSD | GBPUSD | Gold | Oil | Crypto | Other
  datatype Session = London | NewYork | Asian | Overnight
  datatype Direction = Buy | Sell

  /** One line of the simple ledger: a signed profit or loss booked on a date. */
  datatype DayEntry = DayEntry(id: string, date: string, pnl: real)

  datatype Trade = Trade(
    id: string,
    date: string,
    instrument: Instrument,
    session: Session,
    direction: Direction,
    entryPrice: real,
    stopLoss: real,
    takeProfit: real,
    riskAmount: real,
    resultAmount: real,
    rrAchieved: real,
    durationMinutes: int,
    emotionBefore: Emotion,
    emotionAfter: Emotion,
    ruleFollowed: bool,
    notes: string)

  datatype Settings = Settings(initialBalance: real)

  datatype Rules = Rules(
    profitTargetPercent: real,
    maxDailyLossPercent: real,
    maxOverallDrawdownPercent: real,
    consistencyRulePercent: real)

  datatype AppState = AppState(
    entries: seq<DayEntry>,
    consistencyRulePercent: real,
    accountSize: real,
    profitTarget: real,
    trades: seq<Trade>,
    settings: Settings,
    propFirmRules: Rules)
}
