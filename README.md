# Trading backtester and short-link store, modelled in Dafny

This project models two independent parts of one C# repository.

**The backtesting pipeline (`TradingSystem`).** A moving-average trend
classifier, a signal generator with stop-loss and take-profit levels, a
risk-based position sizer, a portfolio that keeps cash and positions, a
report, and the engine loop that replays historical candles through all of
them. The in-memory market data source stands in for the data feed.

**The in-memory URL shortener (`WeatherApi`).** A `ShortUrl` entry with an
expiry time and an access counter. A keyed table that creates entries under
random codes, retrying on collisions. Lookup, and counted redirects.

Money and prices are `real` (exact decimals without rounding). Timestamps
and time spans are `int` ticks. The clocks, the random number generator and
URL parsing are parameters.

Files, one module each:

| file | module | models |
|---|---|---|
| `wrappers.dfy` | `Wrappers` | nullable results and exceptions as `Option` / `Result` / `Outcome` |
| `numbers.dfy` | `Numbers` | `Math.Abs`, `Min`, `Max`, `Clamp` on decimals |
| `domain.dfy` | `Domain` | `CurrencyPair`, `TradeActionType`, `HistoricalCandle`, `TradeSignal`, `TradePosition` (a class, with a value view `Position`) |
| `configuration.dfy` | `Configuration` | `TradingConfiguration` and its defaults |
| `trend_analyzer.dfy` | `TrendAnalysis` | `TrendAnalyzer.Analyze` and the means it uses |
| `risk_manager.dfy` | `Risk` | `RiskManager.CalculatePositionSize` |
| `signal_generator.dfy` | `Signals` | `SignalGenerator.Generate`, `ShouldClosePosition`, `ComputeConfidence` |
| `portfolio_manager.dfy` | `Portfolio` | `PortfolioManager` (a class over a sequence of `TradePosition` objects), proved against pure functions on an `Account` value |
| `reporting.dfy` | `Reporting` | `TradingReport` (a class) |
| `market_data.dfy` | `MarketData` | `InMemoryMarketDataSource` |
| `engine.dfy` | `Engine` | `TradingEngine.RunAsync` (a class whose nested loops are proved against the pure fold `Run`) |
| `short_url.dfy` | `ShortUrls` | `ShortUrl` (a class) |
| `url_shortening_service.dfy` | `UrlShortening` | `InMemoryUrlShorteningService` (a class over a map) and `GenerateCode` |

How the state is modelled:

- **Portfolio.** The stateful `PortfolioManager` keeps `cash` and a `seq<TradePosition>`.
  Its methods are proved to compute the pure functions `OpenOn` and `CloseOn` on the
  account's value. Those functions carry the properties.
- **Portfolio invariant.** `Valid()` ties the object to the value and keeps `Sound`:
  - every position is well formed;
  - each pair has at most one open position;
  - cash equals the initial capital, plus the realized profit, minus the cost tied up in open positions.
- **Report.** A position is recorded only once it is closed, and a closed position never
  changes again. So the report keeps value copies of the completed positions.
- **Engine.** `TradingEngine.RunAsync` runs the source's nested loops over pairs and candles
  on the real objects. Its contract says that it computes the fold `Run`. The counting and
  invariant lemmas are stated about `Run`.

## Model

| member | source | states |
|---|---|---|
| `Configuration.Default` | TradingSystem/Configuration/TradingConfiguration.cs:12-41 | the default configuration has 0 < short window < long window, a risk fraction in [0,1] and stop/take factors in (0,1); its data window runs from 1980-01-01 to the given clock reading; it trades four pairs, USD/AUD first; its horizon is 48 hours |
| `Domain.HistoricalCandle.TypicalPrice` | TradingSystem/Domain/HistoricalCandle.cs:16 | the typical price lies between low and high when the close does, and equals the close on a flat bar |
| `Domain.TradeSignal.IsActionable` | TradingSystem/Domain/TradeSignal.cs:18 | a signal is actionable exactly when it is a Buy, Sell or Close with confidence > 0, so a Hold signal or one with confidence ≤ 0 is never actionable |
| `Domain.Position.UnrealizedPnL` | TradingSystem/Domain/TradePosition.cs:38-42 | (p − entry)·qty for a long position and (entry − p)·qty for a short one; 0 at the entry price; for qty > 0, positive exactly when the price moved in the position's favour |
| `Domain.Position.RealizedPnL` | TradingSystem/Domain/TradePosition.cs:44-46 | present exactly when an exit price is set, and then equals the unrealized P&L at the exit price |
| `Domain.Position.Close` | TradingSystem/Domain/TradePosition.cs:48-57 | fails with AlreadyClosed exactly when the position is closed; otherwise sets exit price and closing time, keeps every other field, and the realized P&L becomes the unrealized P&L at the exit price |
| `Domain.NewPosition` | TradingSystem/Domain/TradePosition.cs:10-36 | fails with InvalidDirection exactly when the direction is neither Buy nor Sell; otherwise an open position with no exit and no realized P&L, holding the given fields |
| `Domain.TradePosition.constructor` | TradingSystem/Domain/TradePosition.cs:10-36 | for a Buy or Sell direction, the object holds the new open position |
| `Domain.TradePosition.Create` | TradingSystem/Domain/TradePosition.cs:10-22 | refuses a direction other than Buy or Sell with InvalidDirection; otherwise a fresh open position object |
| `Domain.TradePosition.Close` | TradingSystem/Domain/TradePosition.cs:48-57 | on a closed position it fails and changes nothing; otherwise the object becomes the closed value; pair, direction, entry price, quantity and opening time are constants |
| `TrendAnalysis.Sqrt` | TradingSystem/Analytics/TrendAnalyzer.cs:34 | the square root used for the volatility is 0 at 0 and positive on positive input |
| `TrendAnalysis.Variance` | TradingSystem/Analytics/TrendAnalyzer.cs:32-33 | the population variance is never negative |
| `TrendAnalysis.Threshold` | TradingSystem/Analytics/TrendAnalyzer.cs:36 | the band is positive for a non-negative mean (0.0001 at a zero mean) and negative for a negative mean |
| `TrendAnalysis.Classify` | TradingSystem/Analytics/TrendAnalyzer.cs:38-48 | Bullish iff momentum > threshold; Bearish iff momentum ≤ threshold and momentum < −threshold; for a non-negative threshold, Sideways iff −threshold ≤ momentum ≤ threshold |
| `TrendAnalysis.TrendAnalyzer.Analyze` | TradingSystem/Analytics/TrendAnalyzer.cs:12-49 | (Sideways, 0, 0) when there are fewer candles than the long window or the windows are not 0 < short < long; otherwise momentum = mean of the last short closes − mean of the last long closes, the trend is the classification of the momentum against the mean's threshold, and the volatility is 0 exactly when the closes' variance is 0; volatility is never negative |
| `TrendAnalysis.TrailingWindowDecides` | TradingSystem/Analytics/TrendAnalyzer.cs:26-27 | two candle lists whose last long-window closes agree get the same reading |
| `TrendAnalysis.MomentumOfRising` | TradingSystem/Analytics/TrendAnalyzer.cs:28-30 | strictly increasing values have a last-k mean above the overall mean |
| `TrendAnalysis.MomentumOfFalling` | TradingSystem/Analytics/TrendAnalyzer.cs:28-30 | strictly decreasing values have a last-k mean below the overall mean |
| `TrendAnalysis.AnalyzeMonotoneWindow` | TradingSystem/Analytics/TrendAnalyzer.cs:26-30 | a strictly rising window of closes gives momentum > 0, a strictly falling one momentum < 0 |
| `TrendAnalysis.AnalyzeFlatWindow` | TradingSystem/Analytics/TrendAnalyzer.cs:19-48 | candles that all close at one non-negative price give (Sideways, 0, 0) |
| `TrendAnalysis.RisingTestSeriesIsBullish` | TradingSystem.SystemTests/TrendAnalyzerTests.cs:19-30 | the closes 1.0..1.5 with windows 3 and 5 read Bullish, with momentum > 0 and volatility ≥ 0 |
| `TrendAnalysis.FallingTestSeriesIsBearish` | TradingSystem.SystemTests/TrendAnalyzerTests.cs:32-42 | the closes 1.5..1.0 with windows 3 and 5 read Bearish, with momentum < 0 |
| `Risk.EffectivePrice` | TradingSystem/Execution/RiskManager.cs:18 | the divisor is at least 0.0001 and at least the price: the price itself from 0.0001 up and exactly 0.0001 below it, so sizing never divides by zero |
| `Risk.CalculatePositionSize` | TradingSystem/Execution/RiskManager.cs:10-19 | never negative; 0 without capital; with capital and a non-negative risk fraction, size × effective price = capital × risk; 0 for a non-positive risk fraction |
| `Risk.SizeGrowsWithCapital` | TradingSystem/Execution/RiskManager.cs:12-18 | for a non-negative risk fraction, more capital never gives a smaller size |
| `Risk.SizeShrinksWithPrice` | TradingSystem/Execution/RiskManager.cs:17-18 | with capital and a non-negative risk fraction, a higher price never gives a larger size |
| `Risk.SizedOrderIsAffordable` | TradingSystem/Execution/RiskManager.cs:17-18 | with a risk fraction in [0,1] and a price of at least 0.0001, the sized order costs at most the capital |
| `Signals.Above` | TradingSystem/Analytics/SignalGenerator.cs:101 | the level a positive factor above a positive price lies above it |
| `Signals.Below` | TradingSystem/Analytics/SignalGenerator.cs:102 | the level a positive factor below a positive price lies below it |
| `Signals.ComputeConfidence` | TradingSystem/Analytics/SignalGenerator.cs:111-120 | confidence lies in [0,1]; for non-negative volatility it is 0 exactly when momentum is 0; for positive volatility it is \|momentum\|/volatility while that is at most 1, and 1 above |
| `Signals.ExitDecision` | TradingSystem/Analytics/SignalGenerator.cs:45-58 | with a position open the action is Close exactly when the exit rule fires and Hold otherwise, never with protective levels |
| `Signals.EntryDecision` | TradingSystem/Analytics/SignalGenerator.cs:59-79 | without a position: Bullish gives Buy with stop close·(1−SL) and target close·(1+TP); Bearish gives Sell with stop close·(1+SL) and target close·(1−TP); Sideways gives Hold with no levels; each action occurs exactly for its trend |
| `Signals.SignalGenerator.Generate` | TradingSystem/Analytics/SignalGenerator.cs:20-91 | fails with EmptyCandles exactly on an empty list; otherwise the signal's pair, time, price and confidence come from the input and the latest candle; with an open position it is Close or Hold with no levels, Close exactly when the exit rule fires; without one, the action and levels follow the trend as above |
| `Signals.ShouldClosePosition` | TradingSystem/Analytics/SignalGenerator.cs:93-108 | the dual exit rule without the division: a long position closes exactly when the close reaches entry·(1+TP), falls to entry·(1−SL), or its unrealized result is at most −SL/2 times its entry notional floored at 1; a short position mirrors the two levels with the same loss test |
| `Signals.NoExitAtEntryPrice` | TradingSystem/Analytics/SignalGenerator.cs:93-108 | with positive factors and entry price, a position is never closed at its own entry price |
| `Signals.LongExitLevels` | TradingSystem/Analytics/SignalGenerator.cs:93-104 | for a long position worth at least 1 at entry, the dual rule closes exactly when the price reaches entry·(1+TP) or falls to entry·(1−SL/2); the loss-ratio test always fires before the configured stop |
| `Signals.ShortExitLevels` | TradingSystem/Analytics/SignalGenerator.cs:93-108 | mirror image for a short position: closes exactly when the price falls to entry·(1−TP) or rises to entry·(1+SL/2) |
| `Portfolio.OpenIndex` | TradingSystem/Execution/PortfolioManager.cs:26-27 | finds the last position of the pair that is still open, and none exactly when no position of the pair is open |
| `Portfolio.OpenOn` | TradingSystem/Execution/PortfolioManager.cs:29-71 | no change for a non-Buy/Sell action, a quantity ≤ 0 or a pair that has an open position; a decimal division by zero exactly when a Buy must be scaled at price 0; otherwise, if the traded quantity is positive, exactly one open position is appended, earlier positions are untouched, a Buy debits price·qty (cash stays ≥ 0) and a Sell credits it, and a scaled Buy leaves cash exactly 0 |
| `Portfolio.OpenOnAccepted` | TradingSystem/Execution/PortfolioManager.cs:46-70 | an order that passes the checks opens exactly when its traded quantity (the cash-capped quantity for an over-budget Buy) is positive |
| `Portfolio.CloseOn` | TradingSystem/Execution/PortfolioManager.cs:73-99 | no change for a non-Close signal or a pair without an open position; otherwise that position is closed at the signal's price and time (never hitting the already-closed error), a long position's proceeds price·qty are credited and a short one's debited |
| `Portfolio.OpenKeepsConsistent` | TradingSystem/Execution/PortfolioManager.cs:41-70 | opening keeps every position well formed and at most one open position per pair |
| `Portfolio.CloseKeepsConsistent` | TradingSystem/Execution/PortfolioManager.cs:80-86 | closing keeps every position well formed and at most one open position per pair |
| `Portfolio.OpenKeepsBalance` | TradingSystem/Execution/PortfolioManager.cs:59-70 | opening keeps cash = initial capital + realized profit − cost tied up in open positions |
| `Portfolio.CloseReleasesCost` | TradingSystem/Execution/PortfolioManager.cs:86-96 | closing removes exactly the closed position's entry cost from the open cost |
| `Portfolio.CloseRealizesProfit` | TradingSystem/Execution/PortfolioManager.cs:86-96 | closing adds exactly the position's P&L at the exit price to the realized total |
| `Portfolio.CloseKeepsBalance` | TradingSystem/Execution/PortfolioManager.cs:86-96 | closing keeps cash = initial capital + realized profit − open cost |
| `Portfolio.OrdersKeepSound` | TradingSystem/Execution/PortfolioManager.cs:29-99 | after any sequence of open and close orders each pair has at most one open position and the cash still balances |
| `Portfolio.OpenThenCloseRestoresCash` | TradingSystem/Execution/PortfolioManager.cs:46-96 | opening a position and then closing it at the same price returns the cash to its value before the open, scaled or not |
| `Portfolio.EquityWithoutOpenPositions` | TradingSystem/Execution/PortfolioManager.cs:101-116 | with no open positions the equity equals the cash |
| `Portfolio.EquityAtEntryPrices` | TradingSystem/Execution/PortfolioManager.cs:101-116 | marked at their entry prices, the open positions make the equity equal to initial capital + realized profit |
| `Portfolio.PortfolioManager.constructor` | TradingSystem/Execution/PortfolioManager.cs:14-18 | starts with cash equal to the initial capital and no positions |
| `Portfolio.PortfolioManager.GetOpenPosition` | TradingSystem/Execution/PortfolioManager.cs:26-27 | returns the object at the last open position of the pair, or none when the pair has no open position |
| `Portfolio.PortfolioManager.OpenPosition` | TradingSystem/Execution/PortfolioManager.cs:29-71 | computes OpenOn on the portfolio: a refused order changes nothing; a successful one appends exactly one fresh position object; the invariant is kept |
| `Portfolio.PortfolioManager.Record` | TradingSystem/Execution/PortfolioManager.cs:59-70 | debits or credits the cost and appends a fresh open position |
| `Portfolio.PortfolioManager.ClosePosition` | TradingSystem/Execution/PortfolioManager.cs:73-99 | computes CloseOn on the portfolio and returns the closed position object, or changes nothing; the list of objects is unchanged and the invariant is kept |
| `Portfolio.PortfolioManager.Settle` | TradingSystem/Execution/PortfolioManager.cs:86-96 | closes the one position object and settles its proceeds in cash; every other position is unchanged |
| `Portfolio.PortfolioManager.CalculateEquity` | TradingSystem/Execution/PortfolioManager.cs:101-116 | the loop returns cash plus the signed market value of every open position whose pair has a price, skipping the others |
| `Portfolio.PortfolioManager.TotalRealizedProfit` | TradingSystem/Execution/PortfolioManager.cs:118-120 | the realized profit of the closed positions equals the cash gained over the initial capital plus the cost still tied up in open positions |
| `Reporting.WithOutcome` | TradingSystem/Reporting/TradingReport.cs:44-50 | a closed position is appended and an open one ignored, so a list of closed positions stays one |
| `Reporting.TradingReport.constructor` | TradingSystem/Reporting/TradingReport.cs:16-22 | fixes initial capital, target profit, horizon and generation time; no signals, no completed positions, final equity 0 |
| `Reporting.TradingReport.RecordSignal` | TradingSystem/Reporting/TradingReport.cs:42 | appends the signal and changes nothing else |
| `Reporting.TradingReport.RecordPositionOutcome` | TradingSystem/Reporting/TradingReport.cs:44-50 | adds the position only when it is closed, raising the total realized profit by its P&L; an open position changes nothing |
| `Reporting.TradingReport.Complete` | TradingSystem/Reporting/TradingReport.cs:52-55 | sets the final equity; the profit target is then achieved iff final equity − initial capital ≥ target profit |
| `MarketData.Insert` | TradingSystem/Data/InMemoryMarketDataSource.cs:42 | inserting into a time-sorted list keeps it sorted and adds exactly that candle |
| `MarketData.SortByTimestamp` | TradingSystem/Data/InMemoryMarketDataSource.cs:42 | the result is sorted by timestamp and a permutation of the input |
| `MarketData.SortKeepsSorted` | TradingSystem/Data/InMemoryMarketDataSource.cs:42 | sorting a sorted list returns it unchanged |
| `MarketData.Filter` | TradingSystem/Data/InMemoryMarketDataSource.cs:41 | every kept candle is in [start, end], and the kept multiset is exactly the in-range part of the input |
| `MarketData.FilterKeepsAll` | TradingSystem/Data/InMemoryMarketDataSource.cs:41 | when every candle is in range, filtering keeps the list as it is |
| `MarketData.InMemoryMarketDataSource.FromCandles` | TradingSystem/Data/InMemoryMarketDataSource.cs:16-22 | the single-pair constructor stores just that pair, its candles sorted by timestamp and as a permutation of the input |
| `MarketData.InMemoryMarketDataSource.GetHistoricalData` | TradingSystem/Data/InMemoryMarketDataSource.cs:29-46 | an unknown pair gives nothing; every result lies in [start, end], the result is sorted by timestamp and is, as a multiset, exactly the stored in-range candles |
| `MarketData.QueryOverOwnSpan` | TradingSystem/Data/InMemoryMarketDataSource.cs:40-43 | sorted stored candles queried over their own time span come back unchanged |
| `Engine.OpenView` | TradingSystem/Runtime/TradingEngine.cs:70 | the engine sees the pair's last open position, or none when it has none |
| `Engine.SizedOrderNeverFails` | TradingSystem/Runtime/TradingEngine.cs:84-88 | an order sized by the risk rule from the current cash never makes OpenPosition divide by zero |
| `Engine.Execute` | TradingSystem/Runtime/TradingEngine.cs:79-103 | a Buy/Sell opens a position sized from the current cash and the risk fraction and hands over the new open position; a Close closes the pair's open position at the signal's price and time and hands it over; a Hold changes nothing |
| `Engine.Handle` | TradingSystem/Runtime/TradingEngine.cs:74-103 | a signal that is not actionable changes neither the account nor the completed list; only a successful Close adds to the completed list, by exactly the closed position |
| `Engine.SignalFor` | TradingSystem/Runtime/TradingEngine.cs:70-71 | the signal is for the pair, at the newest buffered candle's time and close |
| `Engine.ProcessCandle` | TradingSystem/Runtime/TradingEngine.cs:63-103 | every candle updates the pair's last price; below the long window nothing else changes; from it on exactly one signal is recorded, actionable or not, and handled |
| `Engine.RunPair` | TradingSystem/Runtime/TradingEngine.cs:55-58 | a pair with fewer candles than the long window leaves signals, portfolio, completed list and last prices unchanged |
| `Engine.RunCandlesCount` | TradingSystem/Runtime/TradingEngine.cs:60-72 | the inner loop appends one signal per candle whose buffer reaches the long window and keeps the earlier signals |
| `Engine.RunCandlesRecords` | TradingSystem/Runtime/TradingEngine.cs:61-72 | the appended signals come in candle order, each at its candle's time and close |
| `Engine.RunCandlesFirstSignal` | TradingSystem/Runtime/TradingEngine.cs:61-71 | the first signal of a pair is generated against the account as the pair's loop found it |
| `Engine.RunCandlesLastPrice` | TradingSystem/Runtime/TradingEngine.cs:61-64 | after the inner loop the pair's last price is its newest close; other pairs' prices are untouched |
| `Engine.RunPairRecords` | TradingSystem/Runtime/TradingEngine.cs:55-72 | a pair with n ≥ long window ≥ 1 candles adds exactly n − long window + 1 signals and ends priced at its last close |
| `Engine.RunPairsCount` | TradingSystem/Runtime/TradingEngine.cs:47-72 | the outer loop processes pairs in configuration order, only appending, each pair contributing its own count |
| `Engine.SystemTestRecords` | TradingSystem.SystemTests/TradingEngineSystemTests.cs:20-50 | 120 stored candles queried over their own span with a long window of 20 give 101 signals, so the report's signal list is not empty, and the pair's last price is its newest close |
| `Engine.FlatSignalIsNotActionable` | TradingSystem/Runtime/TradingEngine.cs:71-77 | over candles that all close at one non-negative price every signal has confidence 0 and is not actionable, and for an account with no open position it is Hold |
| `Engine.RunCandlesFlat` | TradingSystem/Runtime/TradingEngine.cs:61-77 | a flat pair records only signals that are not actionable, and all Hold when the account has no open position; the account and completed list are unchanged |
| `Engine.RunPairsFlat` | TradingSystem/Runtime/TradingEngine.cs:47-77 | over a flat market the outer loop leaves account and completed list unchanged and records only signals that are not actionable, all Hold when the account has no open position |
| `Engine.FlatMarketKeepsCapital` | TradingSystem/Runtime/TradingEngine.cs:38-110 | a run over a flat market from a fresh portfolio emits only Hold signals, none actionable, never trades, and its final equity is the initial capital |
| `Engine.HandleKeeps` | TradingSystem/Runtime/TradingEngine.cs:74-103 | acting on a signal keeps the portfolio invariant, keeps the completed list closed-only, and adds the same profit to both |
| `Engine.ProcessCandleKeeps` | TradingSystem/Runtime/TradingEngine.cs:63-103 | one candle keeps that invariant |
| `Engine.RunCandlesKeeps` | TradingSystem/Runtime/TradingEngine.cs:60-105 | the inner loop keeps that invariant |
| `Engine.RunPairsKeeps` | TradingSystem/Runtime/TradingEngine.cs:47-106 | the outer loop keeps that invariant |
| `Engine.RunKeeps` | TradingSystem/Runtime/TradingEngine.cs:38-110 | a run ends with a sound portfolio, completed positions that are all closed (opened ones filtered out), and a report realized profit equal to the profit the portfolio realized during the run |
| `Engine.TradingEngine.constructor` | TradingSystem/Runtime/TradingEngine.cs:24-36 | stores the data source, signal generator, configuration and portfolio |
| `Engine.TradingEngine.RunAsync` | TradingSystem/Runtime/TradingEngine.cs:38-111 | the portfolio ends in Run's final account; the report holds Run's signals and completed positions and the configuration's capital, target and horizon; final equity is CalculateEquity over the last price of every processed pair, set once after all pairs |
| `Engine.TradingEngine.ReplayPairs` | TradingSystem/Runtime/TradingEngine.cs:47-106 | the loop over the configured pairs computes RunPairs and keeps the portfolio invariant |
| `Engine.TradingEngine.ReplayNextPair` | TradingSystem/Runtime/TradingEngine.cs:49-105 | one pass of the outer loop fetches the pair's candles, skips a pair below the long window, and advances RunPairs by exactly one pair |
| `Engine.TradingEngine.ReplayPair` | TradingSystem/Runtime/TradingEngine.cs:60-105 | for a pair that was not skipped, the loop over its candles, with a growing buffer, computes RunPair |
| `Engine.TradingEngine.Advance` | TradingSystem/Runtime/TradingEngine.cs:63-68 | one iteration computes ProcessCandle on the grown buffer, and so advances RunCandles by exactly one candle |
| `Engine.CandleStep` | TradingSystem/Runtime/TradingEngine.cs:61-72 | one candle appends nothing below the long window and, from it on, exactly one signal at that candle's time and close, keeping the earlier signals |
| `Engine.TradingEngine.Trade` | TradingSystem/Runtime/TradingEngine.cs:70-104 | generates the pair's signal against its open position, records it, and handles it as Handle says |
| `Engine.TradingEngine.Enter` | TradingSystem/Runtime/TradingEngine.cs:81-94 | sizes a Buy/Sell from the current cash, opens it, and offers the new position to the report, which ignores it while open |
| `Engine.TradingEngine.Exit` | TradingSystem/Runtime/TradingEngine.cs:95-103 | closes the pair's open position and records it as completed |
| `ShortUrls.ExpiryIsMonotone` | WeatherApi/Models/ShortUrl.cs:29 | an entry expired at some time is expired at every later time |
| `ShortUrls.ExpiryBoundary` | WeatherApi/Models/ShortUrl.cs:29 | without an expiry time an entry never expires; with one it is expired exactly from that instant on |
| `ShortUrls.ShortUrl.constructor` | WeatherApi/Models/ShortUrl.cs:7-27 | a new entry holds its code, target, creation and expiry times, has access count 0 and no last access |
| `ShortUrls.ShortUrl.RegisterAccess` | WeatherApi/Models/ShortUrl.cs:31-35 | raises the access count by exactly 1 and records the access time; code, target and lifetime are constants |
| `UrlShortening.AlphabetIndexInverts` | WeatherApi/Services/InMemoryUrlShorteningService.cs:9 | each of the 62 alphabet characters has its own position, so no character repeats |
| `UrlShortening.CodeOf` | WeatherApi/Services/InMemoryUrlShorteningService.cs:100-112 | a code has one character per random byte, all from the 62-character alphabet |
| `UrlShortening.CodeRoundTrip` | WeatherApi/Services/InMemoryUrlShorteningService.cs:108 | reading a code's characters back as alphabet positions gives the bytes modulo 62 |
| `UrlShortening.SameCode` | WeatherApi/Services/InMemoryUrlShorteningService.cs:108 | two byte buffers of one length give the same code exactly when they agree modulo 62 |
| `UrlShortening.AttemptBytes` | WeatherApi/Services/InMemoryUrlShorteningService.cs:102-103 | each attempt fills a buffer of exactly the code length |
| `UrlShortening.GenerateCode` | WeatherApi/Services/InMemoryUrlShorteningService.cs:100-112 | the loop over the character buffer builds exactly the code of the bytes |
| `UrlShortening.ExpiryFor` | WeatherApi/Services/InMemoryUrlShorteningService.cs:45-46 | an expiry time exists exactly when a time-to-live is given; a positive time-to-live makes the entry live at creation and expired exactly from creation + TTL; without one it never expires |
| `UrlShortening.FirstFree` | WeatherApi/Services/InMemoryUrlShorteningService.cs:48-61 | the first attempt whose code's key is not yet in the table, all earlier ones colliding; none when every attempt collides |
| `UrlShortening.InMemoryUrlShorteningService.constructor` | WeatherApi/Services/InMemoryUrlShorteningService.cs:15-30 | for positive settings, an empty table with those settings |
| `UrlShortening.InMemoryUrlShorteningService.Create` | WeatherApi/Services/InMemoryUrlShorteningService.cs:15-30 | refuses a code length ≤ 0, then a maximum number of attempts ≤ 0; otherwise a fresh empty table |
| `UrlShortening.InMemoryUrlShorteningService.CreateWithDefaults` | WeatherApi/Services/InMemoryUrlShorteningService.cs:15 | without explicit settings the service is created, empty, with codes of 8 characters and at most 20 attempts |
| `UrlShortening.CodeIsNotBlank` | WeatherApi/Services/InMemoryUrlShorteningService.cs:66 | a code of at least one character is never blank, since no alphabet character is white space |
| `UrlShortening.InMemoryUrlShorteningService.GeneratedCodeIsFound` | WeatherApi/Services/InMemoryUrlShorteningService.cs:53-73 | an attempt's code finds the entry filed under its key; with CreateShortUrl's contract, the code just created looks up the new entry |
| `UrlShortening.InMemoryUrlShorteningService.CreateShortUrl` | WeatherApi/Services/InMemoryUrlShorteningService.cs:32-62 | refuses a URL that is not absolute http(s), then a time-to-live ≤ 0, leaving the table unchanged; otherwise adds exactly one fresh unvisited entry under the first attempt's code whose key was not in the table, with the parsed URL, creation time now and expiry from the time-to-live, and no other entry changes; if every attempt collides it fails and the table is unchanged |
| `UrlShortening.InMemoryUrlShorteningService.Entry` | WeatherApi/Services/InMemoryUrlShorteningService.cs:64-83 | a code finds an entry exactly when it is not blank and its key is in the table, and then finds the entry under that key |
| `UrlShortening.InMemoryUrlShorteningService.TryGetShortUrl` | WeatherApi/Services/InMemoryUrlShorteningService.cs:64-73 | a blank code finds nothing; otherwise found iff the code's key is in the table, returning that entry, or nothing |
| `UrlShortening.InMemoryUrlShorteningService.TryRegisterHit` | WeatherApi/Services/InMemoryUrlShorteningService.cs:75-98 | a blank or unknown code returns false with nothing and changes nothing; an expired entry is handed back with false and no access; any other entry counts exactly one access at now and is handed back with true |

## Left out

- Decimal arithmetic: money is exact `real`. The 28-digit rounding and overflow of C# `decimal` are not modelled, so "a scaled Buy leaves cash exactly 0" holds here without rounding.
- Floating point in the trend analysis: the source computes the variance and square root in `double` and converts the threshold through `double`. Here the variance is exact, the threshold is exactly 0.0005·mean, and the square root is a fixed number of Newton steps.
- `TrendAnalysis.Sqrt`: states only what the classification and the confidence rely on (0 at 0, positive on positive input), not closeness to the true square root.
- Signal reasons: the two trend reasons format the momentum into text. Here they are fixed strings.
- Clocks: `DateTime.UtcNow` in the report and the default configuration, and `DateTimeOffset.UtcNow` in the URL service, are parameters.
- Async and cancellation: `RunAsync`'s `await` and `CancellationToken` are not modelled. The data fetch is a function `Fetch` called once per pair.
- The market data interface and the HTTP data source are not modelled. Neither is the object wiring in the factory. The engine takes any `Fetch` function; `InMemoryMarketDataSource` is one.
- `RiskManager` is a stateless object passed to the engine. It is modelled as the function `Risk.CalculatePositionSize`.
- `Engine.SystemTestRecords`: covers the system test's signal count. It does not show that the test's trending series produces a Buy or Sell, nor that its final equity is non-negative. Those depend on the concrete 120 decimal prices.
- `MarketData.SortByTimestamp`: states sorted and a permutation, not that candles with equal timestamps keep their input order as `OrderBy` does.
- Thread safety: `ConcurrentDictionary` and `Interlocked` are replaced by a single-threaded map and counter.
- The 64-bit access counter: `ShortUrls.ShortUrl.RegisterAccess` counts with an unbounded integer. The wrap-around of `long` after 2^63 − 1 increments is not modelled.
- The random number generator: its output is an input stream of bytes, cut into one code-length block per attempt.
- URL parsing: `Uri.TryCreate` with the scheme check and `ToString` is the abstract function `parseUrl`.
- Case-insensitive keys: the `OrdinalIgnoreCase` comparison is the abstract key function `keyOf`.
- DateTimeOffset range: an expiry time beyond the largest `DateTimeOffset` throws in the source. Here it is just a larger integer.
- Logging: the collision warning is not modelled.
- The web controllers, host setup, QR code generation and the request/response records are not modelled.
