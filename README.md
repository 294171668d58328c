# Trading journal analytics — a Dafny model

The system is a single-user trading journal for a prop-firm evaluation. It keeps two ledgers in
one application state:

- a ledger of day entries (date, signed profit or loss), which the dashboard checks against a
  consistency rule (no single day may be more than a given percent of the total profit) and a
  profit target;
- a ledger of trades (instrument, session, direction, prices, risk, result, R:R, duration,
  emotions, whether the rules were followed), from which the prop-firm page derives balance,
  drawdown, win rate and best/worst day and gives a verdict against the firm's rules.

This project models:

- the two analytics functions of `utils.ts`, `calculateConsistency` and `calculateStats`;
- the decision logic the pages build on them: the prop-firm verdict and progress bars, the
  dashboard's status chain, streak counter and day rows, the trade form's R:R and fallbacks,
  the analytics aggregations and the history filter;
- the store: its loader and the operations that replace the state.

Modules follow the source files:

- `Types` (`types.ts`);
- `Utils`, `UtilsProps` and `UtilsScenarios` (`utils.ts`);
- `PropFirm`, `App`, `Store`, `AddTrade`, `Analytics` and `History`.

Three modules are shared:

- `Common` holds the parsed-number `Option` and the `x || default` fallback;
- `Grouping` holds the keyed accumulator records (`acc[k] = (acc[k] || 0) + amount`), kept in
  first-appearance order, which is the iteration order of such records;
- `Sorting` holds the stable descending sort every `.sort` uses.

Each part takes the form of its source:

- the loops of `utils.ts`, the streak loop and the three analytics accumulations are methods
  with loop invariants, proved equal to specification functions over ledger prefixes;
- the store is a class whose one `state` field every method replaces;
- the page logic is functions and lemmas.

Conventions:

- Amounts are `real`.
- A parsed number is an `Option` (`None` stands for NaN).
- `new Date(x).getTime()` is a parameter `stamp: string -> int`.
- The fresh id of a new record and the ISO form of a form date are parameters.

## Model

| member | source | states |
|---|---|---|
| Common.OrDefault | store.tsx:25-27 | the falsy fallback on a parsed number: the value when it is a nonzero number, the default for NaN or 0; a nonzero default gives a nonzero result |
| Grouping.AddToKeys | utils.ts:24 | updating the record under a day keeps the key order and appends the day only when it is new |
| Grouping.AddToLookup | utils.ts:24 | adding an amount under a key raises that key's total by the amount and its count by one, and leaves every other key alone |
| Grouping.AddToSums | utils.ts:24 | each addition raises the record's grand total by the amount and its count by one |
| Grouping.AddTo | utils.ts:24 | updating the record adds at most one group; a new group holds the key, the amount and a count of 1 |
| Grouping.TotalOfAppend | utils.ts:24 | appending a group adds its total and count to the grand figures |
| Grouping.TotalOfUpdate | utils.ts:24 | replacing a group in place changes the grand figures by the difference |
| Grouping.GroupAll | utils.ts:21-25 | the record never holds more groups than there were items, and holds at least one when there was an item |
| Grouping.GroupAllKeys | utils.ts:21-25 | the record's keys are the day keys of the entries without repetition, in first-appearance order |
| Grouping.GroupAllLookup | utils.ts:21-25 | the total and count under any key are the sum and number of the items with that key |
| Grouping.GroupAllSums | utils.ts:21-25 | the grand total of the record is the sum of all amounts and its count the number of items |
| Grouping.GroupAllDistinct | utils.ts:21-25 | when no key repeats, the record holds one group per item, in item order |
| Grouping.GroupAllKeySet | utils.ts:21-25 | no key appears twice, and a key has a group exactly when some item carries it |
| Grouping.GroupAllSpec | utils.ts:21-25 | every group carries the sum and count of its key's items, and the grand totals are kept |
| Grouping.InsertKeepsTotals | utils.ts:54-56 | inserting a group into a sorted list adds its total and count |
| Grouping.SortKeepsTotals | utils.ts:54-56 | sorting the per-day groups keeps the grand total and count |
| Grouping.SortKeepsDistinctKeys | utils.ts:54-56 | sorting keeps one group per key |
| Grouping.SortKeepsGroups | utils.ts:54-56 | sorting keeps the same keys and the same group under each key |
| Grouping.SortedGroupsSpec | utils.ts:53-56 | the sorted record has distinct keys, exactly the items' keys, each group with its key's sum and count, and the grand totals |
| Grouping.FirstAppearances | utils.ts:30 | every key occurs in the first-appearance list, the list holds nothing else, and no key repeats |
| Grouping.IndexOfKey | utils.ts:24 | the lookup returns the first group holding the key, or the length when there is none |
| Sorting.Insert | utils.ts:56 | insertion adds exactly the element to the multiset |
| Sorting.InsertSorted | utils.ts:56 | insertion into a descending list keeps it descending |
| Sorting.SortDesc | utils.ts:54-56 | the sort returns a permutation of its input, ordered by descending key |
| Sorting.SortedMembers | utils.ts:54-56 | an element is in the sorted list exactly when it is in the input |
| Sorting.InsertKeepsDistinct | utils.ts:54-56 | inserting an element whose projection is new keeps projections distinct |
| Sorting.SortKeepsDistinct | utils.ts:54-56 | sorting never makes two elements agree on a projection that told them apart |
| Sorting.WithKey | utils.ts:54-56 | the elements with a given key, in their order, never more than the input |
| Sorting.InsertWithKey | utils.ts:56 | inserting an element puts it before the elements of its own key and leaves their order alone |
| Sorting.SortStable | utils.ts:54-56 | the sort is stable: the elements of any one key appear in input order |
| Utils.FirstT | utils.ts:23 | the position of the first 'T', or the length of the date when there is none |
| Utils.DayKey | utils.ts:23 | the day key is a prefix of the date without a 'T' that stops at the date's end or at its first 'T' |
| Utils.DayKeyOfPlainDate | utils.ts:23 | a date without a 'T' is its own day key |
| Utils.DayKeyIdempotent | utils.ts:23 | taking the day key of a day key changes nothing |
| Utils.EntryItems | utils.ts:21-24 | the first loop adds one `(day, pnl)` item per entry |
| Utils.TradeItems | utils.ts:100-101 | the trade loop adds one `(day, result)` item per trade |
| Utils.EntryItemsAt | utils.ts:21-24 | the i-th item added is the i-th entry's day key and pnl |
| Utils.TradeItemsAt | utils.ts:100-101 | the i-th item added is the i-th trade's day key and result |
| Utils.DaysOf | utils.ts:23 | one day key per record, in ledger order, each the text of its date before the first 'T' |
| Utils.EntryItemKeys | utils.ts:23 | the keys of the added items are the entries' day keys, in order |
| Utils.TradeItemKeys | utils.ts:100 | the keys of the added items are the trades' day keys, in order |
| Utils.BestDay | utils.ts:27-35 | the best day is never negative, and its date is "" when it is 0 |
| Utils.WorstDay | utils.ts:114-125 | the worst day is never positive |
| Utils.ConsistencyFrom | utils.ts:37-56 | the shortfall is never negative; passing needs a positive total; the evaluation passes iff the target is reached and consistency passes; the aggregated days are a permutation of the per-day records |
| Utils.ConsistencyOf | utils.ts:16-70 | for a ledger the best day is not negative and has date "" when 0, the shortfall is not negative, and there are no more days than entries |
| Utils.EntryStep | utils.ts:21-25 | one pass of the entry loop adds the entry's pnl to the total and to its day's record |
| Utils.DayStep | utils.ts:30-35 | one pass of a best/worst scan replaces the best only on a strictly larger total and the worst on a strictly smaller one |
| Utils.Peak | utils.ts:92-94 | the peak is at least the initial balance and at least the current balance |
| Utils.MaxDrawdown | utils.ts:95-98 | the maximum drawdown is at least 0 and at least the current distance below the peak |
| Utils.EquityCurve | utils.ts:103-106 | one point per trade, the last holding the current balance |
| Utils.StatsFrom | utils.ts:109-131 | the balance is the initial one plus the net profit; no trades means a win rate of 0; a nonzero best-day share needs a positive net profit and best day; the chart is a permutation of the per-day records |
| Utils.StatsOf | utils.ts:72-148 | one trade counted and one equity point per trade; the drawdown is at least 0; worst day ≤ 0 ≤ best day; no more chart bars than trades |
| Utils.Step | utils.ts:84-106 | one trade keeps balance minus net profit unchanged, keeps the peak at or above the balance and never lowers it, never lowers the maximum drawdown and keeps it at or above the distance below the peak, adds at most one winner and exactly one equity point |
| Utils.Run | utils.ts:76-107 | after any prefix: balance = initial balance + net profit; peak at or above the balance and the initial balance; drawdown at least 0 and at least the distance below the peak; winners at most the trades; one equity point per trade |
| Utils.CalculateConsistency | utils.ts:16-70 | the two loops compute exactly the consistency figures of the ledger |
| Utils.RunStep | utils.ts:83-107 | one pass of the trade loop applies the step to the figures of the prefix |
| Utils.RunFigures | utils.ts:83-98 | after any prefix the net profit, wins, R:R sum, balance, peak and maximum drawdown of the loop are those of the prefix |
| Utils.RunDays | utils.ts:100-101 | after any prefix the loop's day record groups the prefix's trades by day |
| Utils.RunCurve | utils.ts:103-106 | after any prefix the loop's equity curve is the prefix's curve |
| Utils.RunIsSpec | utils.ts:83-107 | after any prefix the loop variables are that prefix's net profit, wins, R:R sum, balance, peak, maximum drawdown, day record and equity curve |
| Utils.ScanDays | utils.ts:114-125 | the day scan yields the first strictly best day and the worst day, both starting from 0 |
| Utils.ApplyTrade | utils.ts:84-106 | the loop body updates each variable as one step of the trade loop |
| Utils.CalculateStats | utils.ts:72-148 | the loop and the day scan compute exactly the trade statistics of the ledger |
| UtilsProps.BestDaySpec | utils.ts:27-35 | the best day is at least every day; it is positive exactly when some day is, and then it is the first day reaching the maximum |
| UtilsProps.WorstDaySpec | utils.ts:114-125 | the worst day is at most every day; when negative it is some day's total |
| UtilsProps.EntryItemsSum | utils.ts:21-25 | the added amounts sum to the sum of the entries' pnl |
| UtilsProps.ConsistencyTotals | utils.ts:18-25 | the total is the sum of every entry's pnl and of the per-day totals, which count every entry once |
| UtilsProps.AggregatedDaysSpec | utils.ts:53-56 | the aggregated days are one per distinct day key of the ledger, each with that day's summed pnl, newest first |
| UtilsProps.ConsistencyBestDay | utils.ts:27-35 | the best day of the ledger is at least 0 and every day total; the date names the first best day, or is "" when no day is positive |
| UtilsProps.RequiredTotal | utils.ts:48 | `best / (rule / 100)` is the total of which `best` is exactly `rule` percent, and a total reaches it exactly when the best day is within the rule |
| UtilsProps.ConsistencyFigures | utils.ts:37-51 | the percent, the flags and the shortfall, for any total and non-negative best day |
| UtilsProps.ConsistencyFlags | utils.ts:37-44 | the percent is the best day's share of a positive total, else 0; passing means a positive total with the best day within the rule; target reached iff total ≥ target; evaluation passed iff both |
| UtilsProps.ConsistencyShortfall | utils.ts:46-51 | the shortfall is never negative and is 0 exactly when the total reaches the required total; with a positive total it is 0 exactly when consistency passes, and otherwise total plus shortfall is the required total |
| UtilsProps.TradeItemsSum | utils.ts:100-101 | the amounts added per day sum to the net profit |
| UtilsProps.EquityCurveSpec | utils.ts:103-106 | the k-th point holds the k-th trade's day and the balance after it |
| UtilsProps.StatsEquityCurve | utils.ts:83-107 | the final balance is the initial one plus the net profit; the equity curve has one point per trade in input order, and its last point is the final balance |
| UtilsProps.PeakSpec | utils.ts:92-94 | the running peak is the largest balance after any prefix, the initial balance included, and is attained |
| UtilsProps.DrawdownSpec | utils.ts:76-98 | the maximum drawdown bounds every fall from an earlier balance to a later one, and is attained by one |
| UtilsProps.DrawdownBound | utils.ts:95-98 | no fall from an earlier balance to a later one exceeds the maximum drawdown |
| UtilsProps.DrawdownAttained | utils.ts:95-98 | some fall from an earlier balance to a later one equals the maximum drawdown |
| UtilsProps.NoLossNoDrawdown | utils.ts:90-98 | without a losing trade the balance is the peak and the drawdown is 0 |
| UtilsProps.StatsFigures | utils.ts:109-127 | win rate, average R:R, drawdown percent and best-day share as the ratios they stand for, each 0 when its divisor is absent |
| UtilsProps.StatsDrawdown | utils.ts:112 | the reported drawdown is the maximum drawdown: at least 0, 0 without losing trades; the percent is 0 unless the balance is positive, and otherwise is its share of the balance |
| UtilsProps.WinCountBound | utils.ts:85-88 | the number of winners is at most the number of trades, and 0 when no trade is positive |
| UtilsProps.StatsSummary | utils.ts:109-127 | win rate in [0,100] and 0 without trades; average R:R the mean over the winners and 0 without them; worst day ≤ 0 ≤ best day; best-day share 0 unless net profit and best day are both positive |
| UtilsProps.StatsChart | utils.ts:129-131 | the chart has one bar per distinct trade day, each with that day's summed result |
| UtilsProps.StatsChartOrder | utils.ts:131 | the chart runs from the oldest day to the newest |
| UtilsProps.StatsChartTotal | utils.ts:129-131 | the bars add up to the net profit and count every trade once |
| UtilsScenarios.ScenarioSingleDay | utils.ts:16-70 | one 1000 day under a 40% rule and a 2500 target: 100% share, failing, target not reached, 1500 short |
| UtilsScenarios.EvenLedgerTotal | utils.ts:21-22 | entries all booking `p` total the number of entries times `p` |
| UtilsScenarios.EvenDaysBest | utils.ts:27-35 | equal profits on distinct days make the first day the best, since a tie does not replace it |
| UtilsScenarios.ScenarioFiveEvenDays | utils.ts:16-70 | five 500 days under a 40% rule and a 2000 target: 20% share, passing, target reached, evaluation passed, no shortfall |
| UtilsScenarios.ScenarioDrawdown | utils.ts:72-148 | +2000, −3000, +2000 from 50000: balance 51000, drawdown 3000, 6% of the initial balance |
| PropFirm.SavedConfiguration | pages/PropFirm.tsx:49-56 | each saved field is the parsed value, or 50000 / 10 / 5 / 10 / 40 when it parses to NaN or 0; none of them is 0 |
| PropFirm.HandleSave | pages/PropFirm.tsx:49-57 | saving sets the settings and the four rule percents to the saved configuration and changes nothing else |
| PropFirm.Limits | pages/PropFirm.tsx:62-66 | each dollar limit is the initial balance times its percent over 100 |
| PropFirm.RuleChecks | pages/PropFirm.tsx:62-72 | the target is met iff the net profit reaches the target percent of the initial balance; the drawdown and daily-loss rules fail iff the drawdown, or the size of the worst day, exceeds its percent of the initial balance |
| PropFirm.VerdictOf | pages/PropFirm.tsx:103-104 | VIOLATED iff a rule fails; PASSED iff the target is met and none fails; IN PROGRESS iff neither |
| PropFirm.FailingExcludesPassing | pages/PropFirm.tsx:74-75 | failing and passing never hold together, and a failure overrides a met target |
| PropFirm.DailyLossCheck | pages/PropFirm.tsx:71 | the daily-loss rule fails exactly when the worst day lost more than the limit |
| PropFirm.EmptyLedgerInProgress | pages/PropFirm.tsx:60-75 | no trades, a positive balance and positive percents give IN PROGRESS |
| PropFirm.ProgressPercent | pages/PropFirm.tsx:9 | the bar percent is at most 100; it is the ratio in percent whenever that is below 100, and 100 exactly when the ratio reaches 100 |
| PropFirm.BarColorOf | pages/PropFirm.tsx:11-18 | inverted bars: danger above 80, warning in (50, 80], success at most 50; other bars: success exactly at 100 or more, primary below |
| PropFirm.BarWidth | pages/PropFirm.tsx:29 | the drawn width lies in [0, 100]; it is the percent when the ratio is not negative, and 0 when the ratio is negative |
| PropFirm.TargetBarComplete | pages/PropFirm.tsx:108-113 | the profit-target bar turns green exactly when the target is met |
| App.NewEntry | App.tsx:22-38 | no entry iff the date or the amount is empty or the amount does not parse; otherwise the entry has the amount's magnitude, not negative for a win and not positive for a loss |
| App.HandleAddEntry | App.tsx:22-41 | the store is unchanged when no entry is made, and otherwise gains exactly the new entry at the end |
| App.HandleSaveSettings | App.tsx:43-51 | account size, target and rule are set to the parsed values, or 50000 / 2500 / 40 for NaN or 0; nothing else changes |
| App.FailingConsistencySpec | App.tsx:92 | the alert fires iff the total is positive and the best day exceeds the rule's share of it; then the shortfall is positive and lifts the total to the required one |
| App.TargetProgress | App.tsx:93 | the target progress lies in [0,100]; for a positive target it is 100 iff the target is reached, 0 iff the total is not positive, and in between the total's share of the target |
| App.ConsistencyProgress | App.tsx:94 | the consistency bar is the percent capped at 100 |
| App.ConsistencyProgressBounds | App.tsx:94 | for a ledger's figures the consistency bar lies in [0,100] |
| App.ActionAmount | App.tsx:115-139 | the message asks for an amount exactly under a consistency alert, or when on track short of the target |
| App.StatusOf | App.tsx:101-140 | no entries, and only that, gives the greeting; a pass needs the evaluation passed; an alert needs a failing consistency; the drawdown message needs a negative total; on track has neither a pass, an alert nor a negative total |
| App.StatusSpec | App.tsx:101-140 | each status holds exactly under its condition: no entries; passed; positive total failing the rule; negative total; otherwise on track, a zero total with entries included |
| App.ActionAmountPositive | App.tsx:115-139 | any amount asked for is positive; when on track it is exactly what reaches the target |
| App.LeadingRunSpec | App.tsx:142-155 | the run length is the one `k` whose first `k` days all continue the run and that stops at the end or at a day that does not |
| App.LeadingRun | App.tsx:142-155 | a run is never longer than the day list and every day in it continues the run |
| App.StreaksExclusive | App.tsx:142-155 | at most one of the win and loss streaks is nonzero |
| App.ComputeStreaks | App.tsx:142-155 | the loop returns the leading run of winning days and of losing days; at most one is nonzero and together they do not exceed the days |
| App.StreakOfLedger | App.tsx:142-155 | on the dashboard's days, newest first, the streaks count winning or losing days back from the newest one and are bounded by the number of days |
| App.EntriesOfDay | App.tsx:471 | the listed entries are exactly the ledger's entries whose date starts with the day |
| App.DayRowOf | App.tsx:470-475 | a share is shown iff the ledger total and the day are positive, and is then positive; the best mark needs the best date and a positive best day; the row lists exactly the entries whose date starts with the day |
| App.RowFigures | App.tsx:472-475 | for a day no better than the best day, the share is shown iff the total and the day are positive and is then in (0, consistency percent]; the best mark needs the best date and a positive best day |
| App.DayRowSpec | App.tsx:471-475 | a day row of the ledger shows a share only for a winning day of a profitable ledger, positive and at most the consistency percent; it is marked best iff its date is the best date and the best day is positive |
| App.DayRowEntries | App.tsx:471 | every entry is listed under the row of its own day key |
| App.OneBestRow | App.tsx:470-472 | when some day is profitable exactly one row is marked best |
| Store.OrElse | store.tsx:24 | the falsy fallback on a saved object or list: the saved value when present, else the default |
| Store.LoadState | store.tsx:18-56 | with nothing saved the clean default state; otherwise every saved field, with the defaults for missing or falsy ones; rule percent and target are never 0 |
| Store.Without | store.tsx:67-69 | removal by id never lengthens the list |
| Store.WithoutMembers | store.tsx:67-69 | an element survives iff it was there and its id differs |
| Store.WithoutAppend | store.tsx:67-69 | removal distributes over concatenation, so the survivors keep their order |
| Store.WithoutAbsent | store.tsx:67-69 | removing an id no element carries changes nothing |
| Store.WithoutIdempotent | store.tsx:67-69 | removing twice is removing once |
| Store.MergeRules | store.tsx:92-94 | each rule field is the patch's value when present, else the old one |
| Store.MergeRulesIdempotent | store.tsx:92-94 | merging the same patch twice is merging it once, and an empty patch changes nothing |
| Store.Store.constructor | store.tsx:18-56 | the store starts from the loaded state |
| Store.Store.AddEntry | store.tsx:63-65 | the entry is appended and nothing else changes |
| Store.Store.DeleteEntry | store.tsx:67-69 | the entries with the id are removed, the rest kept in order, nothing else changes |
| Store.Store.UpdateSettingsObject | store.tsx:72-73 | the patch is merged into the settings only |
| Store.Store.UpdateSettingsScalars | store.tsx:74-81 | the account size is set; target and rule keep their old value when the new one is 0 or missing; nothing else changes |
| Store.Store.AddTrade | store.tsx:84-86 | the trade is appended and nothing else changes |
| Store.Store.DeleteTrade | store.tsx:88-90 | the trades with the id are removed, the rest kept in order, nothing else changes |
| Store.Store.UpdateRules | store.tsx:92-94 | the rule fields present in the patch are overwritten, the others kept, nothing else changes |
| Store.Store.ImportState | store.tsx:96-98 | the state becomes the imported one |
| AddTrade.RewardToRisk | pages/AddTrade.tsx:33-39 | a winner with positive risk gets the positive ratio; a flat or unparseable result gets 0, as does a winner without positive risk; a loser with nonzero risk gets the ratio, negative for positive risk; the ratio is not finite iff a loser has zero or unparseable risk |
| AddTrade.DurationOrZero | pages/AddTrade.tsx:53 | an unparseable duration is 0 |
| AddTrade.BuildTrade | pages/AddTrade.tsx:41-58 | the record holds the form's fields, each unparseable number as 0, and the computed R:R; there is none iff the R:R would not be finite |
| AddTrade.TradeRRSign | pages/AddTrade.tsx:34-52 | with positive risk the R:R has the sign of the result; a trade that is not a loss and has no positive risk has R:R 0 |
| AddTrade.ScenarioZeroRisk | pages/AddTrade.tsx:35-39 | a 150 winner with zero risk gets R:R 0 |
| AddTrade.HandleSubmit | pages/AddTrade.tsx:41-62 | the built trade is appended to the store, which is otherwise unchanged |
| Analytics.SessionItems | pages/Analytics.tsx:24-29 | only winning trades contribute, each with a positive amount |
| Analytics.InstrumentItems | pages/Analytics.tsx:13-17 | one item per trade |
| Analytics.EmotionItems | pages/Analytics.tsx:36-41 | never more items than trades |
| Analytics.RuleBroken | pages/Analytics.tsx:36-41 | the number of rule-breaking trades is at most the number of trades, and 0 exactly when every trade followed the rules |
| Analytics.InstrumentStep | pages/Analytics.tsx:13-17 | one trade more adds its result under its instrument |
| Analytics.SessionStep | pages/Analytics.tsx:24-29 | one trade more adds its result under its session only when it is a winner |
| Analytics.EmotionStep | pages/Analytics.tsx:36-41 | one trade more adds one mistake under its emotion only when it broke the rules |
| Analytics.InstrumentData | pages/Analytics.tsx:11-19 | the loop builds the per-instrument record, sorted by profit |
| Analytics.SessionData | pages/Analytics.tsx:22-31 | the loop builds the per-session record of winning profit |
| Analytics.EmotionData | pages/Analytics.tsx:34-43 | the loop builds the per-emotion record of mistakes, sorted by count |
| Analytics.InstrumentItemsSum | pages/Analytics.tsx:13-17 | the per-instrument amounts sum to the net result |
| Analytics.InstrumentDataSpec | pages/Analytics.tsx:11-19 | each instrument's profit and count are its trades' sum and number; the counts sum to the trades and the profits to the net result; no instrument repeats; most profitable first |
| Analytics.PositiveGroups | pages/Analytics.tsx:24-29 | grouping positive amounts gives positive totals |
| Analytics.SessionDataSpec | pages/Analytics.tsx:22-31 | every session value is positive and is that session's winning profit; the values sum to the winners' profit and count the winning trades; no session repeats |
| Analytics.SessionItemsCount | pages/Analytics.tsx:25 | one session item per winning trade |
| Analytics.EmotionItemsCount | pages/Analytics.tsx:37 | one emotion item per rule-breaking trade |
| Analytics.EmotionDataSpec | pages/Analytics.tsx:34-43 | each emotion counts the rule-breaking trades that started in it; the counts sum to the rule-breaking trades; no emotion repeats; most frequent first |
| Analytics.Scatter | pages/Analytics.tsx:46-52 | at most one point per trade, each with a positive duration |
| Analytics.ScatterMembers | pages/Analytics.tsx:47-51 | every timed trade has its (duration, result) point and every point comes from a trade |
| Analytics.ScatterAppend | pages/Analytics.tsx:47 | the points keep the trades' order |
| Analytics.ScatterSize | pages/Analytics.tsx:47 | the number of points is the number of timed trades |
| History.Selected | pages/History.tsx:10-16 | a trade is kept iff it is in the ledger and passes the filter |
| History.SelectedCounts | pages/History.tsx:10-16 | a trade passing the filter is selected as often as it is in the ledger, any other trade never |
| History.FilteredTrades | pages/History.tsx:9-17 | the page shows no more trades than the ledger: a permutation of the selected ones, newest timestamp first |
| History.FilteredTradesSpec | pages/History.tsx:9-17 | each trade passing the filter is shown as often as it is in the ledger, any other never; newer timestamps first; trades with equal timestamps keep their ledger order |
| History.KeepAll | pages/History.tsx:11-15 | 'All' and any unknown filter keep the whole ledger in order |
| History.FlatTradesHidden | pages/History.tsx:12-13 | a flat trade is neither a win nor a loss |
| History.SelectionsSpec | pages/History.tsx:12-14 | 'Wins' keeps exactly the positive trades, 'Losses' the negative ones, 'Rule Broken' those that broke the rules |

## Left out

- Utils.CalculateConsistency: requires a nonzero rule percent. With 0 the source divides by zero at utils.ts:48 and yields a non-finite required total.
- App.TargetProgress: requires a nonzero profit target. With 0 the source divides by zero at App.tsx:93.
- PropFirm.ProgressPercent: requires a nonzero maximum. With 0 the source's ratio is infinite or NaN at pages/PropFirm.tsx:9.
- AddTrade.BuildTrade: a loss whose risk is 0 or unparseable gets no record. The source books it with an R:R of −Infinity or NaN (pages/AddTrade.tsx:38), which `real` cannot hold.
- AddTrade.HandleSubmit: for the same case the store is left unchanged, while the source appends the trade with that non-finite R:R.
- Floating point: amounts are exact reals. Rounding, NaN propagation and ±Infinity are not modelled.
- Day-keyed records: JavaScript iterates integer-like keys (such as "20240101") in ascending numeric order before other keys. The model keeps first-appearance order for every key; ISO dates with dashes are not integer-like.
- Date parsing: `new Date(...).getTime()` is the parameter `stamp`. Its NaN for an unparseable date, which breaks the sort comparator, is not modelled.
- Parsing: `parseFloat`/`parseInt` are inputs given as optional numbers. The ISO conversion of the form date is an input too.
- Identifiers: `crypto.randomUUID` is an `id` parameter.
- Analytics.Scatter: the constant size field `z` of each point is not modelled.
- Store.Store.UpdateSettingsObject: a settings patch can only carry `initialBalance`, the one field of `Settings`.
- Store.LoadState: a saved field is present or missing as a whole. A saved object of the wrong shape, and a saved list that is falsy but present, are not modelled.
- Persistence and the UI:
  - `localStorage`, `JSON.parse`/`stringify`, backup export/import, `FileReader`, `alert` and `setTimeout` (I/O and timers);
  - JSX, CSS classes, charts and icons, and the currency and percent formatting;
  - the strategy text and its arithmetic, the React context plumbing, and pages/Dashboard.tsx;
  - form-field state such as clearing the amount after an entry is added.

Three behaviours of the code a reader might not expect:

- **Consistency shortfall.** With no positive day and a negative total, the shortfall is minus the total (utils.ts:48-51), not 0. `UtilsProps.ConsistencyFigures` states this case.
- **R:R of a loss with zero risk.** It is not defined as 0 (pages/AddTrade.tsx:37-38); see `AddTrade.BuildTrade` above.
- **Dollar limits with a non-positive balance.** They are `initBal * percent / 100` (pages/PropFirm.tsx:63-66), negative for a negative balance, not fixed at 0.
