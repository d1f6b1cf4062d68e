# stock-quant: the per-bar trading pipeline in Dafny

This project models the decision core of the `stock-quant` back-testing
system, together with the bookkeeping and reporting around it:

- **Signal classifier.** The enhanced-volume indicator evaluates one bar's
  snapshot of moving averages, standard deviations, candles, RSI,
  Bollinger bands and KDJ. It emits four signal lines (main/enhanced ×
  buy/sell) and signal records (`enhanced_volume.dfy`).
- **Order policy.** Lot-rounded buy and sell sizing under the cash,
  portfolio and per-order caps, and the commission breakdown
  (`order_policy.dfy`).
- **Strategy state machines.**
  - The base strategy's order lifecycle with its trade and asset logs
    (`trading_common.dfy`).
  - `EnhancedVolumeStrategy`, which trades on enhanced signals
    (`trading_strategy_common.dfy`).
  - `SingleVolumeStrategy`, which trades on main signals
    (`single_volume.dfy`).
- **Chart data.**
  - The continuous calendar index.
  - The valid-date filter.
  - The holdings replay, which rebuilds holdings, average cost and total
    assets from the trade log (`visual_tools.dfy`).
- **Signal files.**
  - Path metadata, the file-name predicate and the newest-first listing.
  - The conjunctive filter chain and the date sort of the signal
    analysis (`signal_handler.dfy`).
- **HTML report.** Default summary counts, filter labels, row classes and
  one table row per signal (`util_html.dfy`).
- **Registries.** The strategy and indicator registries: a list plus a
  name map, idempotent registration and module-name skip rules
  (`registry.dfy`).

Shared helpers:
- `wrappers.dfy` holds `Option`/`Result`.
- `text.dfy` holds prefix, suffix and substring tests, split/join with
  their round trips, lexicographic order and a descending stable
  insertion sort.

Conventions:
- Prices, volumes and indicator values are `real`.
- A NaN line value is `Option.None`.
- Bar dates are day numbers (`int`).
- Dates read from signal CSV files are strings, compared
  lexicographically as pandas compares them.
- Objects whose fields the source updates are Dafny classes. Each class's
  `State()` function gives its state as a value, and each of its methods is
  proved equal to a state-transition function. The lemmas are stated about
  those functions.

## Model

| member | source | states |
|---|---|---|
| EnhancedVolume.RsiUp | core/strategy/indicator/volume/enhanced_volume.py:52-55 | the up-move is `max(delta, 0)`: non-negative, at least the change, and either 0 or the change |
| EnhancedVolume.RsiDown | core/strategy/indicator/volume/enhanced_volume.py:52-55 | the down-move is non-negative, and up-move minus down-move is the price change |
| EnhancedVolume.Rsi | core/strategy/indicator/volume/enhanced_volume.py:56-59 | RSI with the 1e-10 guard lies in [0, 100) and is 0 when there is no up-move |
| EnhancedVolume.Rsv | core/strategy/indicator/volume/enhanced_volume.py:68-73 | RSV is non-negative exactly when the close is at least the 9-bar low |
| EnhancedVolume.RsvMayExceedHundred | core/strategy/indicator/volume/enhanced_volume.py:68-73 | because the numerator uses the 9-bar low and the denominator the 3-bar range, RSV can exceed 100 |
| EnhancedVolume.KdjJ | core/strategy/indicator/volume/enhanced_volume.py:76-78 | J − K = 2(K − D), so J equals K when K equals D |
| EnhancedVolume.VolumeMultiplier | core/strategy/indicator/volume/enhanced_volume.py:88-89 | the multiplier lies between its base and its base plus its cap |
| EnhancedVolume.MultiplierRanges | core/strategy/indicator/volume/enhanced_volume.py:88-89 | the 5-day multiplier lies in [0.9, 1.5] and the 20-day one in [0.8, 1.3] |
| EnhancedVolume.VolumeExcess | core/strategy/indicator/volume/enhanced_volume.py:92-95 | the excess is non-zero only when today's volume MA beats the horizon MA × multiplier, and it is then today − horizon; it is positive iff today beats both |
| EnhancedVolume.NegativeExcessPossible | core/strategy/indicator/volume/enhanced_volume.py:92-95 | with a multiplier below 1 the excess can be negative, so the score tests `> 0` rather than `!= 0` |
| EnhancedVolume.DownUpExclusive | core/strategy/indicator/volume/enhanced_volume.py:98-107 | three falling bars and three rising bars never hold together |
| EnhancedVolume.PriceCountBuy | core/strategy/indicator/volume/enhanced_volume.py:110-114 | the buy price count is non-zero iff three falling bars and the horizon close-MA is above today's |
| EnhancedVolume.PriceCountSell | core/strategy/indicator/volume/enhanced_volume.py:115-119 | the sell price count is non-zero iff three rising bars and the horizon close-MA is below today's |
| EnhancedVolume.BuyScore | core/strategy/indicator/volume/enhanced_volume.py:121-126 | a buy score is non-zero iff both volume excess and price count are positive, and it is never positive |
| EnhancedVolume.SellScore | core/strategy/indicator/volume/enhanced_volume.py:121-126 | a sell score is non-zero iff both parts are positive, and it is never negative |
| EnhancedVolume.Classify | core/strategy/indicator/volume/enhanced_volume.py:129-170 | an enhanced buy implies a main buy, and an enhanced sell implies a main sell |
| EnhancedVolume.MainBuyMeaning | core/strategy/indicator/volume/enhanced_volume.py:92-134 | main buy iff more than 50 bars and, on both horizons, a volume spike, three falling bars and a falling close-MA |
| EnhancedVolume.MainSellMeaning | core/strategy/indicator/volume/enhanced_volume.py:92-134 | main sell iff more than 50 bars and, on both horizons, a volume spike, three rising bars and a rising close-MA |
| EnhancedVolume.MainSignalsExclusive | core/strategy/indicator/volume/enhanced_volume.py:102-134 | main buy and main sell never fire together, and neither do the enhanced buy and sell |
| EnhancedVolume.NoSignalDuringWarmup | core/strategy/indicator/volume/enhanced_volume.py:133-134 | on the first 50 bars no signal of any kind fires |
| EnhancedVolume.BollBuyAlmostAlways | core/strategy/indicator/volume/enhanced_volume.py:147-148 | the Bollinger buy gate fails only when low, close and lower band are all equal |
| EnhancedVolume.BollSellAlmostAlways | core/strategy/indicator/volume/enhanced_volume.py:150-151 | the Bollinger sell gate fails only when high, close and upper band are all equal |
| EnhancedVolume.RsiBuyTriggersExclusive | core/strategy/indicator/volume/enhanced_volume.py:137-145 | "RSI below 30" and "RSI crossed up through 30" never hold on the same bar |
| EnhancedVolume.Lines | core/strategy/indicator/volume/enhanced_volume.py:157-177 | each line holds a value exactly when its signal fires and is NaN otherwise |
| EnhancedVolume.BarRecordsShape | core/strategy/indicator/volume/enhanced_volume.py:158-178 | one record per fired signal, in the order normal before strong, with the fixed type and description; at most two per bar, all dated on the bar |
| EnhancedVolume.EnhancedVolumeIndicator.constructor | core/strategy/indicator/volume/enhanced_volume.py:34-35 | all lines and the record log start empty |
| EnhancedVolume.EnhancedVolumeIndicator.Next | core/strategy/indicator/volume/enhanced_volume.py:80-178 | each line gains exactly this bar's value, NaN unless its signal fired, and the log gains this bar's records |
| OrderPolicy.UsableCash | core/strategy/trading/trading_strategy_common.py:130-135 | usable cash is the least of cash, value × buy share and value × portfolio share |
| OrderPolicy.WholeUnits | core/strategy/trading/trading_strategy_common.py:142 | the floored quotient is a multiple of the unit, and the next unit would overspend |
| OrderPolicy.RoundToLot | core/strategy/trading/trading_strategy_common.py:147 | rounding down to a lot gives a lot multiple within one lot of the input, and it is at least a lot when the input is |
| OrderPolicy.BuySize | core/strategy/trading/trading_strategy_common.py:124-160 | a buy is sized iff price > 0 and usable cash covers one lot; the size is a lot multiple ≥ lot whose cost fits the usable cash (hence the cash), and one more lot would not fit |
| OrderPolicy.BuyInnerRejectUnreachable | core/strategy/trading/trading_strategy_common.py:145-160 | once the entry test passes, the whole-share count is already at least a lot, so the inner reject branch is dead |
| OrderPolicy.SellCap | core/strategy/trading/trading_strategy_common.py:174 | the cap is a lot multiple whose value fits value × sell share, and one more lot would not |
| OrderPolicy.SellSize | core/strategy/trading/trading_strategy_common.py:163-188 | no sell without at least a lot of position; a sized sell is a lot multiple between a lot and the position, within the sell cap, and is either the position rounded down or the cap |
| OrderPolicy.BrokerCommission | core/strategy/trading/trading_strategy_common.py:228 | the commission is the larger of rate × value and the minimum |
| OrderPolicy.SettlementFee | core/strategy/trading/trading_strategy_common.py:233-234 | the settlement fee is clamped to its band: the minimum at or below it, the maximum at or above it (for a well-formed band), and rate × value inside it |
| OrderPolicy.Breakdown | core/strategy/trading/trading_strategy_common.py:225-246 | each fee is its formula on the trade value (broker commission, three proportional fees, clamped settlement fee, flat system fee), and the total is their sum |
| OrderPolicy.CommissionDetails | core/strategy/trading/trading_strategy_common.py:220-247 | a breakdown exists iff the commission model has parameters, and it is that of the trade value \|size\| × price |
| OrderPolicy.CommissionIgnoresSign | core/strategy/trading/trading_strategy_common.py:225 | buying and selling the same quantity give the same breakdown |
| OrderPolicy.CommissionMonotone | core/strategy/trading/trading_strategy_common.py:225-246 | with non-negative rates, a larger quantity never costs less in total |
| OrderPolicy.BreakdownMonotone | core/strategy/trading/trading_strategy_common.py:225-246 | with non-negative rates, a larger trade value never costs less in total |
| OrderPolicy.HongKongExample | settings.py:30-39 | with the Hong Kong parameters, 10 000 shares at 10 cost commission 30, stamp duty 130, levy 2.7, fee 5, settlement 2 and system fee 15, 184.7 in all |
| OrderPolicy.DefaultBuyExamples | core/strategy/trading/common.py:86-99 | with the defaults and cash = value = 100 000, a price of 1 000 is declined (the 20% cap buys only 20 shares) and a price of 100 gives 200 shares |
| OrderPolicy.FeeNotBudgeted | core/strategy/trading/trading_strategy_common.py:137-160 | the sizer leaves the commission out of the budget: with 2 000 cash at price 20 it orders 100 shares, whose cost plus the Hong Kong fees exceeds the cash |
| TradingCommon.NewTradeRecord | core/strategy/trading/common.py:35-54 | a trade record is created iff its date is a date or a string, and it raises the date-type error otherwise |
| TradingCommon.NewAssetRecord | core/strategy/trading/common.py:69-78 | an asset record is created iff its date is a date or a string |
| TradingCommon.TradeRecordManager.constructor | core/strategy/trading/common.py:11-12 | the log starts empty |
| TradingCommon.TradeRecordManager.AddTradeRecord | core/strategy/trading/common.py:14-16 | on success exactly one record is appended at the end; on a bad date the log is unchanged |
| TradingCommon.AssetRecordManager.constructor | core/strategy/trading/common.py:58-59 | the log starts empty |
| TradingCommon.AssetRecordManager.AddAssetRecord | core/strategy/trading/common.py:61-62 | on success exactly one record is appended at the end; on a bad date the log is unchanged |
| TradingCommon.CountAppend | core/strategy/trading/common.py:136-171 | appending a record raises the count of matching records by one exactly when it matches |
| TradingCommon.ExecutionRecord | core/strategy/trading/common.py:144-169 | a completed order logs B/buy or S/sell, the absolute executed size, the executed price, total amount = price × signed executed size, its reference and the fee |
| TradingCommon.AfterNotify | core/strategy/trading/common.py:131-176 | Submitted/Accepted change nothing; every other status clears the pending order; only Completed appends the execution record and one asset record and bumps the matching counter |
| TradingCommon.AfterNotifyBalanced | core/strategy/trading/common.py:131-176 | notify_order keeps each executed counter equal to its number of B/S records, with one asset record per trade |
| TradingCommon.NotifyAllBalanced | core/strategy/trading/common.py:131-176 | the books stay balanced over any sequence of notifications |
| TradingCommon.EmptyBalanced | core/strategy/trading/common.py:101-116 | a fresh strategy's books balance |
| TradingCommon.BuyOrder | core/strategy/trading/trading_strategy_common.py:124-160 | a buy order is placed iff the sizer accepts; it is at the close, a lot multiple, and its cost fits the cash |
| TradingCommon.SellOrder | core/strategy/trading/trading_strategy_common.py:163-188 | no sell order without a position; a placed one is at the close, a lot multiple between a lot and the position |
| TradingCommon.StrategyBase.constructor | core/strategy/trading/common.py:101-116 | default sizing parameters (lot 100, 0.8, 0.2, 0.3), no order, zero counters, empty logs |
| TradingCommon.StrategyBase.TradingStrategyBuy | core/strategy/trading/common.py:125-126 | the base buy hook changes nothing |
| TradingCommon.StrategyBase.TradingStrategySell | core/strategy/trading/common.py:128-129 | the base sell hook changes nothing |
| TradingCommon.StrategyBase.NotifyOrder | core/strategy/trading/common.py:131-176 | the new state is AfterNotify of the old one |
| TradingStrategyCommon.NewSignalTrade | core/strategy/trading/trading_strategy_common.py:24-38 | the strategy's trade record is created iff its date is a date or a string |
| TradingStrategyCommon.SignalTradeManager.constructor | core/strategy/trading/trading_strategy_common.py:12-14 | the log starts empty |
| TradingStrategyCommon.SignalTradeManager.AddSignalRecord | core/strategy/trading/trading_strategy_common.py:16-17 | on success exactly one record is appended at the end; on a bad date the log is unchanged |
| TradingStrategyCommon.PlacedRecord | core/strategy/trading/trading_strategy_common.py:155-156 | a placed buy logs B/strong_buy and a placed sell S/strong_sell, with the order's size |
| TradingStrategyCommon.Place | core/strategy/trading/trading_strategy_common.py:155-160 | a declined order changes nothing; an accepted one becomes pending and appends exactly one record |
| TradingStrategyCommon.Step | core/strategy/trading/trading_strategy_common.py:99-122 | a pending order makes the bar a no-op; otherwise an enhanced buy places the sized buy order (if the sizer accepts), an enhanced sell without an enhanced buy places the sized sell order, no signal places nothing; the handled signal is counted and one asset record is appended |
| TradingStrategyCommon.AfterSignalNotify | core/strategy/trading/trading_strategy_common.py:196-211 | every status but Submitted/Accepted clears the pending order; only Completed bumps the matching counter; nothing is logged |
| TradingStrategyCommon.StepKeepsSignalBooks | core/strategy/trading/trading_strategy_common.py:99-188 | a bar keeps "B/S records ≤ buy/sell signals, and a pending order is the last record" |
| TradingStrategyCommon.NotifyKeepsSignalBooks | core/strategy/trading/trading_strategy_common.py:196-211 | a notification keeps the same books invariant |
| TradingStrategyCommon.NoTradeDuringWarmup | core/strategy/trading/trading_strategy_common.py:105-121 | during the indicator's first 50 bars no order is placed and no signal is counted |
| TradingStrategyCommon.EnhancedVolumeStrategy.constructor | core/strategy/trading/trading_strategy_common.py:82-97 | no order, zero counters, empty logs, and the books invariant holds |
| TradingStrategyCommon.EnhancedVolumeStrategy.TradingStrategyBuy | core/strategy/trading/trading_strategy_common.py:124-160 | the new state is Place of the old one with the sized buy order |
| TradingStrategyCommon.EnhancedVolumeStrategy.TradingStrategySell | core/strategy/trading/trading_strategy_common.py:163-188 | the new state is Place of the old one with the sized sell order |
| TradingStrategyCommon.EnhancedVolumeStrategy.Next | core/strategy/trading/trading_strategy_common.py:99-122 | the new state is Step of the old one |
| TradingStrategyCommon.EnhancedVolumeStrategy.NotifyOrder | core/strategy/trading/trading_strategy_common.py:196-211 | the new state is AfterSignalNotify of the old one |
| SingleVolume.Step | core/strategy/trading/volume/single_volume_.py:15-27 | a pending order makes the bar a no-op; otherwise a main buy sets the sized buy order, a main sell without a main buy the sized sell order, and no signal changes nothing; the signal is counted even when the sizer declines; no record of any kind is appended |
| SingleVolume.StepKeepsBalance | core/strategy/trading/volume/single_volume_.py:15-27 | a bar keeps the base class's balanced books |
| SingleVolume.SingleVolumeStrategy.constructor | core/strategy/trading/volume/single_volume_.py:11-13 | a fresh base strategy with default parameters and empty books |
| SingleVolume.SingleVolumeStrategy.TradingStrategyBuy | core/strategy/trading/volume/single_volume_.py:29-63 | an accepted buy becomes the pending order; a rejected one leaves the order untouched |
| SingleVolume.SingleVolumeStrategy.TradingStrategySell | core/strategy/trading/volume/single_volume_.py:65-93 | an accepted sell becomes the pending order; with no position or a rejected size nothing changes |
| SingleVolume.SingleVolumeStrategy.Next | core/strategy/trading/volume/single_volume_.py:15-27 | the new state is Step of the old one |
| VisualTools.MinDate | core/visualization/visual_tools_plotly.py:25 | the minimum date is a row's date and no row's date is below it |
| VisualTools.MaxDate | core/visualization/visual_tools_plotly.py:26 | the maximum date is a row's date and no row's date is above it |
| VisualTools.CloseOn | core/visualization/visual_tools_plotly.py:30 | a day has a close iff some row has that date, and it is that row's close |
| VisualTools.PrepareContinuousDates | core/visualization/visual_tools_plotly.py:14-31 | for non-empty input with distinct dates, every day from min to max, day k dated min + k with the close on that date (NaN when none); otherwise an error |
| VisualTools.ContinuousKeepsEveryBar | core/visualization/visual_tools_plotly.py:25-31 | every original bar appears on its own day with its own close |
| VisualTools.KeepRows | core/visualization/visual_tools_plotly.py:58 | a row is kept iff its date cell is one of the valid dates |
| VisualTools.KeepRowsSingleton | core/visualization/visual_tools_plotly.py:58 | a single row is kept iff its date is valid; with the append law this fixes the filter's order and multiplicity |
| VisualTools.KeepRowsAppend | core/visualization/visual_tools_plotly.py:63 | filtering distributes over concatenation, so the original order is kept |
| VisualTools.FirstDateLikeIndex | core/visualization/visual_tools_plotly.py:53-55 | the index of the first column whose lower-cased name contains "date" |
| VisualTools.FirstDateLike | core/visualization/visual_tools_plotly.py:53-55 | no column is found iff none contains "date"; otherwise it is the first such column |
| VisualTools.DateColumn | core/visualization/visual_tools_plotly.py:50-62 | the date column is "date" when present, otherwise the first date-like column |
| VisualTools.FilterValidDates | core/visualization/visual_tools_plotly.py:34-70 | None or empty input gives an empty frame; without a date-like column the records come back unchanged; otherwise the columns are kept and the rows are exactly those dated on a valid date, in their original order and multiplicity (`KeepRows`) |
| VisualTools.ApplyTrade | core/visualization/visual_tools_plotly.py:110-139 | holdings never go negative |
| VisualTools.BuyEffect | core/visualization/visual_tools_plotly.py:112-122 | a buy adds its size, sets the average cost to the size-weighted average of old cost and price, and lowers capital by size × price + commission |
| VisualTools.PartialSellEffect | core/visualization/visual_tools_plotly.py:123-139 | a sell that leaves shares keeps the average cost, lowers holdings by the size, and raises capital by size × price − commission |
| VisualTools.FullSellEffect | core/visualization/visual_tools_plotly.py:132-139 | a sell down to zero or below resets holdings, average cost and total cost to 0 |
| VisualTools.ApplyTradeConsistent | core/visualization/visual_tools_plotly.py:110-139 | each trade keeps total cost = holdings × average cost |
| VisualTools.DayConsistent | core/visualization/visual_tools_plotly.py:109-139 | a day's trades keep total cost = holdings × average cost |
| VisualTools.ReplayConsistent | core/visualization/visual_tools_plotly.py:107-150 | the whole replay keeps total cost = holdings × average cost |
| VisualTools.RowOf | core/visualization/visual_tools_plotly.py:141-150 | a day's row carries the holdings and average cost; total assets are capital + holdings × close when the day has a close, NaN otherwise |
| VisualTools.RowsAt | core/visualization/visual_tools_plotly.py:107-155 | row k belongs to day k and shows the position after all trades up to and including that day |
| VisualTools.Holdings | core/visualization/visual_tools_plotly.py:72-157 | exactly one row per day of the continuous index |
| VisualTools.NoTradesConstant | core/visualization/visual_tools_plotly.py:84-92 | without trades every day shows 0 holdings, 0 average cost and the initial capital |
| VisualTools.ApplyTradeStep | core/visualization/visual_tools_plotly.py:110-139 | the loop body's updates equal ApplyTrade on the position |
| VisualTools.CalculateHoldings | core/visualization/visual_tools_plotly.py:72-157 | the loop's rows equal Holdings of the days, trades and capital |
| Text.SortDesc | core/signal/signal_handler.py:42 | the result is a permutation of the input |
| Text.SortDescSorted | core/signal/signal_handler.py:42 | the result is sorted by descending key |
| Text.JoinSplit | core/signal/signal_handler.py:23 | joining the components of a split path gives back the path |
| Text.SplitJoin | core/signal/signal_handler.py:23 | splitting a joined path gives back its components |
| SignalHandler.PathMetadata | core/signal/signal_handler.py:22-28 | the data source is the first path component, and no field contains a separator |
| SignalHandler.MetadataOfComponents | core/signal/signal_handler.py:66-69 | components 0, 1 and 2 of the path become data source, stock info and strategy, each "unknown" when missing |
| SignalHandler.EntryOf | core/signal/signal_handler.py:33-39 | an entry records the path relative to the root and the file time |
| SignalHandler.EntryMetadata | core/signal/signal_handler.py:22-39 | an entry's metadata are the first three components of its relative path |
| SignalHandler.Collected | core/signal/signal_handler.py:17-39 | an entry is collected iff it comes from a walked file whose name starts with `stock_signals_` and ends with `.csv` |
| SignalHandler.SignalGet | core/signal/signal_handler.py:9-47 | fails iff the signal root is missing; otherwise it returns the collected entries sorted by file time |
| SignalHandler.SignalGetResult | core/signal/signal_handler.py:42 | the listing is newest first, a permutation of the collected entries, and holds exactly them |
| SignalHandler.Tagged | core/signal/signal_handler.py:65-77 | every row of a file is tagged with that file's path metadata and keeps its own fields |
| SignalHandler.Combined | core/signal/signal_handler.py:54-77 | nothing is read iff no chosen path exists; the rows are characterized by `CombinedAppend` and `CombinedMembers` |
| SignalHandler.CombinedAppend | core/signal/signal_handler.py:56-77 | each further path appends its file's tagged rows and counts one read when it exists, and adds nothing when it is missing |
| SignalHandler.CombinedMembers | core/signal/signal_handler.py:56-83 | a combined row is exactly a tagged row of some chosen path that exists |
| SignalHandler.Where | core/signal/signal_handler.py:86-101 | a row survives a filter iff it was there and passes |
| SignalHandler.WhereWhere | core/signal/signal_handler.py:86-101 | two successive filters equal one filter on their conjunction |
| SignalHandler.FilterChainMatches | core/signal/signal_handler.py:86-101 | the five successive filters keep exactly the rows matching every active filter |
| SignalHandler.NoFiltersKeepAll | core/signal/signal_handler.py:86 | with no active filter every row is kept |
| SignalHandler.Analyze | core/signal/signal_handler.py:51-108 | the analysis fails iff none of the paths exists |
| SignalHandler.AnalyzeResult | core/signal/signal_handler.py:83-105 | the result is date-descending, a permutation of the matching combined rows, and holds exactly them |
| SignalHandler.ReadSignals | core/signal/signal_handler.py:55-77 | the reading loop yields exactly the combined tagged rows and the number of files read |
| SignalHandler.SignalsAnalyze | core/signal/signal_handler.py:51-108 | the loop's result equals Analyze |
| UtilHtml.Get | common/util_html.py:54-59 | a present key gives its value and a missing key the default |
| UtilHtml.CountType | common/util_html.py:25-27 | a type count never exceeds the number of signals |
| UtilHtml.CountTypeIndices | common/util_html.py:25-27 | the type count equals the number of positions whose signal type is present, non-empty and contains the word |
| UtilHtml.StockInfos | common/util_html.py:28 | there are no more distinct stocks than signals, and at least one when there are signals |
| UtilHtml.StockInfosMembers | common/util_html.py:28 | a stock is counted iff some signal has it as its stock info ("" when missing) |
| UtilHtml.DefaultSummary | common/util_html.py:22-29 | the total is the number of signals; buy and sell are the numbers of signals whose type contains the word; unique stocks is the number of distinct stock infos |
| UtilHtml.SummaryValue | common/util_html.py:39-42 | a missing summary key shows 0 |
| UtilHtml.ShownSummary | common/util_html.py:22-42 | without a summary the default counts are shown, otherwise the supplied values with 0 for missing keys |
| UtilHtml.FilterLabel | common/util_html.py:32-36 | an empty or missing filter shows its placeholder, otherwise its value |
| UtilHtml.RowClass | common/util_html.py:47-51 | "price-up" iff the type contains buy; "price-down" iff it contains sell and not buy; empty otherwise |
| UtilHtml.Cells | common/util_html.py:54-59 | six cells (date, type, description, stock info, data source, strategy), "-" for a missing field |
| UtilHtml.RowShowsCells | common/util_html.py:53-60 | a rendered row opens with `<tr>`, shows every cell in a `<td>` (the type with its class) and closes with `</tr>` |
| UtilHtml.CountsMatchRowClasses | common/util_html.py:22-51 | the default buy count equals the number of price-up rows; price-down rows never outnumber the sell count |
| UtilHtml.SignalsToHtml | common/util_html.py:7-205 | the shown summary, the filter labels with their placeholders, exactly one rendered row per signal in input order, and the body as the rows joined by newlines |
| Registry.LastNamed | core/strategy/strategy_manager.py:65-71 | the last listed class with a name, or None iff no listed class has it |
| Registry.Registered | core/strategy/strategy_manager.py:65-71 | a listed class changes nothing; a new one is appended, mapped under its name, and its name is added to the keys if new (likewise indicator_manager.py:68-74) |
| Registry.Lookup | core/strategy/strategy_manager.py:73-75 | an unregistered name gives None; in a valid registry the answer is the last listed class with the name (likewise indicator_manager.py:76-78) |
| Registry.EmptyValid | core/strategy/strategy_manager.py:15-17 | the empty registry satisfies the map/list invariant |
| Registry.RegisterValid | core/strategy/strategy_manager.py:65-71 | registration keeps the map/list invariant |
| Registry.RegisterIdempotent | core/strategy/strategy_manager.py:67 | registering a class twice is the same as once |
| Registry.RegisterThenLookup | core/strategy/strategy_manager.py:68-70 | after registering a new class its name looks it up, and every other name is unaffected |
| Registry.SameNameLaterWins | core/strategy/indicator_manager.py:70-73 | two distinct classes with one name both stay listed, the map keeps the later one, and the name is a key |
| Registry.ClassesIn | core/strategy/strategy_manager.py:37-41 | exactly the module's class attributes that are proper subclasses of the base |
| Registry.Candidates | core/strategy/strategy_manager.py:22-62 | exactly the proper subclasses found in modules that import and are not skipped |
| Registry.DiscoveryRegistersProperSubclasses | core/strategy/indicator_manager.py:23-66 | discovery registers exactly the candidates found, and only proper subclasses of the base (likewise strategy_manager.py:20-63) |
| Registry.RegisterAllProps | core/strategy/strategy_manager.py:20-63 | registering many classes keeps the invariant and lists exactly the old classes plus the new ones |
| Registry.RegisterAllAppend | core/strategy/strategy_manager.py:20-63 | registering a + b is registering a, then b |
| Registry.ClassRegistry.Register | core/strategy/strategy_manager.py:65-71 | the new state is Registered of the old one (likewise indicator_manager.py:68-74) |
| Registry.ClassRegistry.Get | core/strategy/strategy_manager.py:73-75 | the answer is Lookup in the current state (likewise indicator_manager.py:76-78) |
| Registry.ClassRegistry.Names | core/strategy/strategy_manager.py:81-83 | in a valid registry a name is listed iff it looks up a class (likewise indicator_manager.py:84-86) |
| Registry.ClassRegistry.RegisterClassesIn | core/strategy/strategy_manager.py:37-41 | registers exactly the module's proper subclasses, in attribute order |
| Registry.ClassRegistry.Scan | core/strategy/strategy_manager.py:22-62 | registers exactly the candidates of the scanned modules, in order |
| Registry.ClassRegistry.constructor | core/strategy/strategy_manager.py:15-63 | the registry is built from the top-level candidates, then the volume sub-directory's (likewise indicator_manager.py:18-66) |

## Left out

- Backtrader internals are not modelled: SMA, standard deviation, Bollinger bands, highest/lowest, broker fills, `getvalue`/`getcash`, and `comminfo._getcommission`. Their outputs are parameters: a `Snapshot` for the indicator, a `Bar` for the strategies, and the fee for `notify_order`.
- IEEE floating point is not modelled; all arithmetic is on exact reals. The 1e-10 guards are explicit constants.
- EnhancedVolume.Next: line buffers are modelled as growing sequences, not backtrader's line arrays.
- The moving averages the indicator needs over the first bars are inputs.
- TradingCommon.NewTradeRecord: a string date is accepted without parsing. The source converts it with `pd.Timestamp` (common.py:42), which raises on a string it cannot parse; the model does not capture that error.
- TradingCommon.NewAssetRecord: likewise, an unparseable string date raises in `pd.Timestamp` (common.py:75) but is accepted by the model.
- TradingStrategyCommon.NewSignalTrade: likewise, an unparseable string date raises in `pd.Timestamp` (trading_strategy_common.py:32) but is accepted by the model.
- OrderPolicy.SellSize: requires a non-zero close whenever a position is held. With a position and a zero close, the source divides by zero (trading_strategy_common.py:174, single_volume_.py:78) and `next` raises ZeroDivisionError. The model does not capture that error path: `SellOrder`, both `Step` functions and both `TradingStrategySell` methods carry the same precondition (`SellDefined`/`StepDefined`).
- VisualTools.FilterValidDates: when the `date` column does not hold dates and some row is dropped, the source raises AttributeError while logging the dropped dates (`.dt.strftime`, visual_tools_plotly.py:66-68). The model returns the kept rows instead. Cells that are not dates never match a valid date.
- The `SingleVolumeIndicator` whose main lines `SingleVolumeStrategy` reads is not part of this model. Its two main line values are parameters of `Next`.
- Python inheritance of `SingleVolumeStrategy` from `StrategyBase` becomes composition: the strategy holds its base object.
- The `transform_to_dataframe` methods of the record managers are not modelled. They are pandas conversions of the log fields.
- `notify_trade`, `set_indicator` and the logging calls are not modelled. They only write log lines or store a reference.
- `StrategyBase.calculate_commission` wraps `comminfo._getcommission`, which is outside the model. Its result is the `fee` parameter of `NotifyOrder`.
- VisualTools.PrepareContinuousDates: for an empty frame or duplicate dates, pandas raises; the model returns an error without distinguishing the two.
- VisualTools.Holdings: requires every buy to have a positive size. With a non-positive size, the average-cost division can divide by zero.
- Holdings input: a missing trade log, an empty one, or one without a date column are all the `None`/empty case.
- The `date in index.dropna()` tests of `calculate_holdings` always hold, because the continuous index has no missing dates. They are therefore not modelled as branches.
- `common.util_csv` (`read_data`, `combine_data`) is not part of this model. A readable file is a list of CSV rows in a map from path to rows, and combining is concatenation.
- The file-system walk, file existence and file creation times are inputs. The formatting of creation times is not modelled; the model takes the formatted string.
- The data source can never be "unknown": splitting a path always yields at least one component. The model keeps that default only for the other two fields.
- SignalHandler.PassStock: pandas `str.contains` treats the filter as a regular expression. The model treats it as a plain substring test.
- SignalHandler.Analyze: pandas `sort_values` uses an unstable sort. The model fixes one stable order, so rows with equal dates may come out in a different order than pandas would produce.
- Signal dates are compared as strings, which pandas does when the CSV column holds ISO date strings.
- UtilHtml.SignalsToHtml: the page template text, CSS and the two wall-clock time stamps are not modelled. Only the summary values, the filter labels and the table body are.
- Signal dictionaries and filters hold strings. A key present with a `None` value is not modelled.
- Chart construction and saving are not modelled, nor is `save_clean_html`.
- Module discovery through `importlib`/`pkgutil` is an input: the list of modules and their attributes. A module that fails to import has no attributes.
- The `get_*_source_code` methods are not modelled. `get_all_strategies`/`get_all_indicators` return the `classes` field unchanged.
- OrderPolicy.BuySize: the commission is not included in the buy budget, as in the source. `OrderPolicy.FeeNotBudgeted` shows that cost plus fee can exceed the cash.
