/** The backtest loop: for each configured pair, fetch its candles, feed a
    growing buffer to the signal generator candle by candle, and trade the
    actionable signals on the portfolio. */
module Engine {
  import opened Wrappers
  import opened Domain
  import opened Configuration
  import opened TrendAnalysis
  import opened Signals
  import opened Risk
  import opened Portfolio
  import opened Reporting
  import opened MarketData

  /** The market data source: the candles of a pair between two instants. */
  type Fetch = (CurrencyPair, Timestamp, Timestamp) -> seq<HistoricalCandle>

  /** Everything a run accumulates: the account, the report's two lists and
      the last close seen per pair. */
  datatype RunState = RunState(
    account: Account,
    signals: seq<TradeSignal>,
    completed: seq<Position>,
    lastPrices: map<CurrencyPair, real>)

  /** The open position of `pair`, as GetOpenPosition finds it. */
  function OpenView(a: Account, pair: CurrencyPair): (r: Option<Position>)
    ensures r.None? <==> OpenIndex(a.positions, pair).None?
    ensures r.Some? ==> r.value == a.positions[OpenIndex(a.positions, pair).value] && IsOpenFor(r.value, pair)
  {
    match OpenIndex(a.positions, pair)
    case None => None
    case Some(i) => Some(a.positions[i])
  }

  /** The engine's order size never makes OpenPosition divide by zero:
      without cash the size is 0 and the order is refused, and with cash a
      zero price costs nothing, so no scaling happens. */
  lemma SizedOrderNeverFails(a: Account, signal: TradeSignal, riskPerTrade: real)
    ensures OpenOn(a, signal, CalculatePositionSize(a.cash, signal.price, riskPerTrade)).Success?
  {
    var q := CalculatePositionSize(a.cash, signal.price, riskPerTrade);
    if a.cash > 0.0 && signal.price == 0.0 {
      assert signal.price * q == 0.0;
    }
  }

  /** What the engine does with an actionable signal: a Buy or Sell opens a
      position sized by the risk rule, a Close closes the pair's position.
      The second component is the position handed to the report, if any. */
  function Execute(a: Account, signal: TradeSignal, riskPerTrade: real): (r: (Account, Option<Position>))
    ensures (signal.action == Buy || signal.action == Sell) ==>
      (var placed := OpenOn(a, signal, CalculatePositionSize(a.cash, signal.price, riskPerTrade));
       && placed.Success?
       && (placed.value.None? ==> r == (a, None))
       && (placed.value.Some? ==> r.0 == placed.value.value && r.1.Some? && r.1.value.IsOpen()))
    ensures signal.action == Close ==>
      && (CloseOn(a, signal).None? ==> r == (a, None))
      && (CloseOn(a, signal).Some? ==>
            && r.0 == CloseOn(a, signal).value
            && r.1 == Some(r.0.positions[OpenIndex(a.positions, signal.pair).value])
            && r.1.value.closedAt == Some(signal.timestamp) && r.1.value.exitPrice == Some(signal.price))
    ensures signal.action == Hold ==> r == (a, None)
  {
    if signal.action == Buy || signal.action == Sell then
      var quantity := CalculatePositionSize(a.cash, signal.price, riskPerTrade);
      SizedOrderNeverFails(a, signal, riskPerTrade);
      match OpenOn(a, signal, quantity).value
      case None => (a, None)
      case Some(b) => (b, Some(b.positions[|b.positions| - 1]))
    else if signal.action == Close then
      match CloseOn(a, signal)
      case None => (a, None)
      case Some(b) => (b, Some(b.positions[OpenIndex(a.positions, signal.pair).value]))
    else (a, None)
  }

  /** A recorded signal acted on: the new account and completed list. A
      signal that is not actionable changes neither, and only a Close can
      add to the completed list. */
  function Handle(a: Account, completed: seq<Position>, signal: TradeSignal, riskPerTrade: real)
    : (r: (Account, seq<Position>))
    ensures !signal.IsActionable() ==> r == (a, completed)
    ensures signal.IsActionable() ==> r.0 == Execute(a, signal, riskPerTrade).0
    ensures signal.action != Close ==> r.1 == completed
    ensures signal.action == Close && signal.IsActionable() && CloseOn(a, signal).Some? ==>
      r.1 == completed + [r.0.positions[OpenIndex(a.positions, signal.pair).value]]
  {
    if !signal.IsActionable() then (a, completed)
    else
      var (b, outcome) := Execute(a, signal, riskPerTrade);
      (b, if outcome.Some? then WithOutcome(completed, outcome.value) else completed)
  }

  /** A Buy or Sell never adds to the completed list: the position it
      opens is still open. */
  lemma HandleOpen(a: Account, completed: seq<Position>, signal: TradeSignal, riskPerTrade: real)
    requires signal.IsActionable() && (signal.action == Buy || signal.action == Sell)
    ensures var placed := OpenOn(a, signal, CalculatePositionSize(a.cash, signal.price, riskPerTrade));
      && placed.Success?
      && Handle(a, completed, signal, riskPerTrade)
         == (if placed.value.Some? then placed.value.value else a, completed)
  {
    SizedOrderNeverFails(a, signal, riskPerTrade);
  }

  /** A Close adds exactly the closed position to the completed list. */
  lemma HandleClose(a: Account, completed: seq<Position>, signal: TradeSignal, riskPerTrade: real)
    requires signal.IsActionable() && signal.action == Close
    ensures CloseOn(a, signal).None? ==> Handle(a, completed, signal, riskPerTrade) == (a, completed)
    ensures CloseOn(a, signal).Some? ==>
      var b := CloseOn(a, signal).value;
      var p := b.positions[OpenIndex(a.positions, signal.pair).value];
      && p.closedAt.Some?
      && Handle(a, completed, signal, riskPerTrade) == (b, completed + [p])
  {
  }

  /** The signal for the buffer, generated against the pair's open position. */
  function SignalFor(generator: SignalGenerator, a: Account, pair: CurrencyPair, buffer: seq<HistoricalCandle>,
                     configuration: TradingConfiguration): (s: TradeSignal)
    requires |buffer| > 0
    ensures s.pair == pair && s.timestamp == buffer[|buffer| - 1].timestamp && s.price == buffer[|buffer| - 1].close
  {
    generator.Generate(pair, buffer, configuration, OpenView(a, pair)).value
  }

  /** One pass of the inner loop, after `buffer` has grown by its newest
      candle: remember the close, and once the buffer is long enough record
      a signal and act on it. */
  function ProcessCandle(st: RunState, generator: SignalGenerator, configuration: TradingConfiguration,
                         pair: CurrencyPair, buffer: seq<HistoricalCandle>): (r: RunState)
    requires |buffer| > 0
    ensures r.lastPrices == st.lastPrices[pair := buffer[|buffer| - 1].close]
    ensures |buffer| < configuration.longWindow ==>
      r.account == st.account && r.signals == st.signals && r.completed == st.completed
    ensures |buffer| >= configuration.longWindow ==>
      (var signal := SignalFor(generator, st.account, pair, buffer, configuration);
       && r.signals == st.signals + [signal]
       && (r.account, r.completed) == Handle(st.account, st.completed, signal, configuration.riskPerTrade))
  {
    var lastPrices := st.lastPrices[pair := buffer[|buffer| - 1].close];
    if |buffer| < configuration.longWindow then st.(lastPrices := lastPrices)
    else
      var signal := SignalFor(generator, st.account, pair, buffer, configuration);
      var (account, completed) := Handle(st.account, st.completed, signal, configuration.riskPerTrade);
      RunState(account, st.signals + [signal], completed, lastPrices)
  }

  /** The inner loop from the j-th candle on: the buffer before candle j
      holds candles[..j]. */
  function RunCandles(st: RunState, generator: SignalGenerator, configuration: TradingConfiguration,
                      pair: CurrencyPair, candles: seq<HistoricalCandle>, j: nat): RunState
    requires j <= |candles|
    decreases |candles| - j
  {
    if j == |candles| then st
    else RunCandles(ProcessCandle(st, generator, configuration, pair, candles[..j + 1]),
                    generator, configuration, pair, candles, j + 1)
  }

  /** One pair: skipped entirely when it has fewer candles than the long window. */
  function RunPair(st: RunState, generator: SignalGenerator, configuration: TradingConfiguration,
                   pair: CurrencyPair, candles: seq<HistoricalCandle>): (r: RunState)
    ensures |candles| < configuration.longWindow ==> r == st
  {
    if |candles| < configuration.longWindow then st
    else RunCandles(st, generator, configuration, pair, candles, 0)
  }

  /** The candles the run fetches for a pair. */
  function Candles(fetch: Fetch, configuration: TradingConfiguration, pair: CurrencyPair): seq<HistoricalCandle> {
    fetch(pair, configuration.historicalDataStart, configuration.historicalDataEnd)
  }

  /** The outer loop from the k-th configured pair on. */
  function RunPairs(st: RunState, fetch: Fetch, generator: SignalGenerator, configuration: TradingConfiguration, k: nat)
    : RunState
    requires k <= |configuration.currencyPairs|
    decreases |configuration.currencyPairs| - k
  {
    if k == |configuration.currencyPairs| then st
    else
      var pair := configuration.currencyPairs[k];
      RunPairs(RunPair(st, generator, configuration, pair, Candles(fetch, configuration, pair)),
               fetch, generator, configuration, k + 1)
  }

  /** One step of the outer loop: the k-th pair, then the rest. */
  lemma RunPairsStep(st: RunState, fetch: Fetch, generator: SignalGenerator, configuration: TradingConfiguration, k: nat)
    requires k < |configuration.currencyPairs|
    ensures var pair := configuration.currencyPairs[k];
      RunPairs(st, fetch, generator, configuration, k)
      == RunPairs(RunPair(st, generator, configuration, pair, fetch(pair, configuration.historicalDataStart, configuration.historicalDataEnd)),
                  fetch, generator, configuration, k + 1)
  {
  }

  /** A whole run from the account's current value. */
  function Run(account: Account, fetch: Fetch, generator: SignalGenerator, configuration: TradingConfiguration): RunState {
    RunPairs(RunState(account, [], [], map[]), fetch, generator, configuration, 0)
  }

  // ---------------------------------------------------------------------
  // What a run records

  /** The first candle index, from j on, whose buffer reaches the long
      window: the buffer of candle j holds j + 1 candles. */
  function FirstSignal(j: nat, longWindow: int): nat {
    if j + 1 >= longWindow then j else longWindow - 1
  }

  /** The number of signals the inner loop records from candle j of n on. */
  function SignalCount(n: nat, j: nat, longWindow: int): nat {
    if FirstSignal(j, longWindow) < n then n - FirstSignal(j, longWindow) else 0
  }

  /** The inner loop appends one signal per candle from the first whose
      buffer reaches the long window; the signals already recorded stay. */
  lemma {:induction false} RunCandlesCount(st: RunState, generator: SignalGenerator,
                                           configuration: TradingConfiguration, pair: CurrencyPair,
                                           candles: seq<HistoricalCandle>, j: nat)
    requires j <= |candles|
    ensures var r := RunCandles(st, generator, configuration, pair, candles, j);
      && |r.signals| == |st.signals| + SignalCount(|candles|, j, configuration.longWindow)
      && r.signals[..|st.signals|] == st.signals
    decreases |candles| - j
  {
    if j < |candles| {
      var s1 := ProcessCandle(st, generator, configuration, pair, candles[..j + 1]);
      CandleStep(st, generator, configuration, pair, candles, j);
      RunCandlesCount(s1, generator, configuration, pair, candles, j + 1);
      var r := RunCandles(s1, generator, configuration, pair, candles, j + 1);
      PrefixOfPrefix(st.signals, s1.signals, r.signals);
    }
  }

  /** One candle of the inner loop: past the long window it appends one
      signal, for the pair at the candle's time and close; before it,
      nothing. */
  lemma CandleStep(st: RunState, generator: SignalGenerator, configuration: TradingConfiguration,
                   pair: CurrencyPair, candles: seq<HistoricalCandle>, j: nat)
    requires j < |candles|
    ensures var s1 := ProcessCandle(st, generator, configuration, pair, candles[..j + 1]);
      && |s1.signals| == |st.signals| + (if j + 1 >= configuration.longWindow then 1 else 0)
      && s1.signals[..|st.signals|] == st.signals
      && (j + 1 >= configuration.longWindow ==> RecordedAt(s1.signals[|st.signals|], pair, candles[j]))
  {
    var buffer := candles[..j + 1];
    assert buffer[|buffer| - 1] == candles[j];
    if j + 1 >= configuration.longWindow {
      var s1 := ProcessCandle(st, generator, configuration, pair, buffer);
      assert s1.signals[..|st.signals|] == st.signals;
    }
  }

  /** A signal for `pair` at the time and close of `candle`. */
  predicate RecordedAt(signal: TradeSignal, pair: CurrencyPair, candle: HistoricalCandle) {
    signal.pair == pair && signal.timestamp == candle.timestamp && signal.price == candle.close
  }

  /** The signals the inner loop appends come in candle order, each for the
      pair at its candle's time and close. */
  lemma {:induction false} RunCandlesRecords(st: RunState, generator: SignalGenerator,
                                             configuration: TradingConfiguration, pair: CurrencyPair,
                                             candles: seq<HistoricalCandle>, j: nat)
    requires j <= |candles|
    ensures var r := RunCandles(st, generator, configuration, pair, candles, j);
      var first := FirstSignal(j, configuration.longWindow);
      && |r.signals| == |st.signals| + SignalCount(|candles|, j, configuration.longWindow)
      && forall u :: |st.signals| <= u < |r.signals| ==>
           RecordedAt(r.signals[u], pair, candles[first + (u - |st.signals|)])
    decreases |candles| - j
  {
    RunCandlesCount(st, generator, configuration, pair, candles, j);
    if j < |candles| {
      var s1 := ProcessCandle(st, generator, configuration, pair, candles[..j + 1]);
      CandleStep(st, generator, configuration, pair, candles, j);
      RunCandlesRecords(s1, generator, configuration, pair, candles, j + 1);
      RunCandlesCount(s1, generator, configuration, pair, candles, j + 1);
      var r := RunCandles(s1, generator, configuration, pair, candles, j + 1);
      ShiftRecords(st.signals, s1.signals, r.signals, pair, candles,
                   FirstSignal(j, configuration.longWindow), FirstSignal(j + 1, configuration.longWindow));
    }
  }

  /** The bookkeeping step of RunCandlesRecords: signals from `next` on
      behind `b`, preceded by at most one signal for candle `first`, are
      signals from `first` on behind `a`. */
  lemma ShiftRecords(a: seq<TradeSignal>, b: seq<TradeSignal>, r: seq<TradeSignal>, pair: CurrencyPair,
                     candles: seq<HistoricalCandle>, first: nat, next: nat)
    requires |a| <= |b| <= |r| && r[..|b|] == b
    requires |a| < |r| ==> first + (|r| - |a|) <= |candles|
    requires |b| < |r| ==> next + (|r| - |b|) <= |candles|
    requires |b| == |a| ==> next == first
    requires |b| != |a| ==> |b| == |a| + 1 && next == first + 1 && RecordedAt(b[|a|], pair, candles[first])
    requires forall u :: |b| <= u < |r| ==> RecordedAt(r[u], pair, candles[next + (u - |b|)])
    ensures forall u :: |a| <= u < |r| ==> RecordedAt(r[u], pair, candles[first + (u - |a|)])
  {
    forall u | |a| <= u < |r|
      ensures RecordedAt(r[u], pair, candles[first + (u - |a|)])
    {
      if u < |b| {
        assert r[u] == r[..|b|][u];
      } else {
        assert first + (u - |a|) == next + (u - |b|);
      }
    }
  }

  /** The first signal the inner loop records is generated against the
      account the loop started from: nothing trades before it. */
  lemma RunCandlesFirstSignal(st: RunState, generator: SignalGenerator,
                              configuration: TradingConfiguration, pair: CurrencyPair,
                              candles: seq<HistoricalCandle>, j: nat)
    requires j <= |candles| && FirstSignal(j, configuration.longWindow) < |candles|
    ensures var r := RunCandles(st, generator, configuration, pair, candles, j);
      var first := FirstSignal(j, configuration.longWindow);
      && |r.signals| > |st.signals|
      && r.signals[|st.signals|] == SignalFor(generator, st.account, pair, candles[..first + 1], configuration)
  {
    FirstSignalFrom(st, generator, configuration, pair, candles, j, st.account, FirstSignal(j, configuration.longWindow));
  }

  /** RunCandlesFirstSignal with the starting account `a` and the first
      signalling candle `first` held fixed through the induction. */
  lemma {:induction false} FirstSignalFrom(st: RunState, generator: SignalGenerator,
                                           configuration: TradingConfiguration, pair: CurrencyPair,
                                           candles: seq<HistoricalCandle>, j: nat, a: Account, first: nat)
    requires j <= first < |candles| && first == FirstSignal(j, configuration.longWindow) && st.account == a
    ensures var r := RunCandles(st, generator, configuration, pair, candles, j);
      && |r.signals| > |st.signals|
      && r.signals[|st.signals|] == SignalFor(generator, a, pair, candles[..first + 1], configuration)
    decreases |candles| - j
  {
    if j + 1 >= configuration.longWindow {
      SignalAtWindow(st, generator, configuration, pair, candles, j);
    } else {
      var s1 := ProcessCandle(st, generator, configuration, pair, candles[..j + 1]);
      FirstSignalFrom(s1, generator, configuration, pair, candles, j + 1, a, first);
    }
  }

  /** A candle whose buffer reaches the long window records its signal
      first, against the account as it is. */
  lemma SignalAtWindow(st: RunState, generator: SignalGenerator, configuration: TradingConfiguration,
                       pair: CurrencyPair, candles: seq<HistoricalCandle>, j: nat)
    requires j < |candles| && j + 1 >= configuration.longWindow
    ensures var r := RunCandles(st, generator, configuration, pair, candles, j);
      && |r.signals| > |st.signals|
      && r.signals[|st.signals|] == SignalFor(generator, st.account, pair, candles[..j + 1], configuration)
  {
    var s1 := ProcessCandle(st, generator, configuration, pair, candles[..j + 1]);
    RunCandlesCount(s1, generator, configuration, pair, candles, j + 1);
    var r := RunCandles(s1, generator, configuration, pair, candles, j + 1);
    assert s1.signals == st.signals + [SignalFor(generator, st.account, pair, candles[..j + 1], configuration)];
    assert r.signals[|st.signals|] == r.signals[..|s1.signals|][|st.signals|];
  }

  /** After the inner loop the pair's last price is the close of its
      newest candle; the other pairs' prices are untouched. */
  lemma {:induction false} RunCandlesLastPrice(st: RunState, generator: SignalGenerator,
                                               configuration: TradingConfiguration, pair: CurrencyPair,
                                               candles: seq<HistoricalCandle>, j: nat)
    requires j < |candles|
    ensures RunCandles(st, generator, configuration, pair, candles, j).lastPrices
              == st.lastPrices[pair := candles[|candles| - 1].close]
    decreases |candles| - j
  {
    var s1 := ProcessCandle(st, generator, configuration, pair, candles[..j + 1]);
    if j + 1 < |candles| {
      RunCandlesLastPrice(s1, generator, configuration, pair, candles, j + 1);
      UpdateTwice(st.lastPrices, pair, candles[j].close, candles[|candles| - 1].close);
    }
  }

  /** A pair with n >= LongWindow >= 1 candles adds exactly n - LongWindow + 1
      signals and ends with its last close as its price. */
  lemma RunPairRecords(st: RunState, generator: SignalGenerator, configuration: TradingConfiguration,
                       pair: CurrencyPair, candles: seq<HistoricalCandle>)
    requires 1 <= configuration.longWindow <= |candles|
    ensures var r := RunPair(st, generator, configuration, pair, candles);
      && |r.signals| == |st.signals| + |candles| - configuration.longWindow + 1
      && r.signals[..|st.signals|] == st.signals
      && r.lastPrices == st.lastPrices[pair := candles[|candles| - 1].close]
  {
    RunCandlesCount(st, generator, configuration, pair, candles, 0);
    RunCandlesLastPrice(st, generator, configuration, pair, candles, 0);
  }

  /** The signals a pair with n candles contributes: none below the long
      window, one per candle from the first whose buffer reaches it. */
  function PairSignals(n: nat, longWindow: int): nat {
    if n < longWindow then 0 else SignalCount(n, 0, longWindow)
  }

  /** The signals the outer loop records from the k-th configured pair on. */
  function ExpectedSignals(fetch: Fetch, configuration: TradingConfiguration, k: nat): nat
    requires k <= |configuration.currencyPairs|
    decreases |configuration.currencyPairs| - k
  {
    if k == |configuration.currencyPairs| then 0
    else
      PairSignals(|Candles(fetch, configuration, configuration.currencyPairs[k])|, configuration.longWindow)
      + ExpectedSignals(fetch, configuration, k + 1)
  }

  /** The outer loop only appends, pair after pair, each pair's share. */
  lemma {:induction false} RunPairsCount(st: RunState, fetch: Fetch, generator: SignalGenerator,
                                         configuration: TradingConfiguration, k: nat)
    requires k <= |configuration.currencyPairs|
    ensures var r := RunPairs(st, fetch, generator, configuration, k);
      && |r.signals| == |st.signals| + ExpectedSignals(fetch, configuration, k)
      && r.signals[..|st.signals|] == st.signals
    decreases |configuration.currencyPairs| - k
  {
    if k < |configuration.currencyPairs| {
      var pair := configuration.currencyPairs[k];
      var candles := Candles(fetch, configuration, pair);
      if |candles| >= configuration.longWindow {
        RunCandlesCount(st, generator, configuration, pair, candles, 0);
      }
      var s1 := RunPair(st, generator, configuration, pair, candles);
      RunPairsCount(s1, fetch, generator, configuration, k + 1);
      var r := RunPairs(s1, fetch, generator, configuration, k + 1);
      assert r.signals[..|st.signals|] == r.signals[..|s1.signals|][..|st.signals|];
    }
  }

  /** The engine's system test: one pair whose 120 stored candles, in time
      order, are queried over their own time span, with a long window of
      20, records 101 signals and prices the pair at its last close. */
  lemma SystemTestRecords(account: Account, source: InMemoryMarketDataSource, generator: SignalGenerator,
                          configuration: TradingConfiguration, pair: CurrencyPair, candles: seq<HistoricalCandle>)
    requires |candles| == 120 && SortedByTime(candles)
    requires source.data == map[pair := candles]
    requires configuration.currencyPairs == [pair] && configuration.longWindow == 20
    requires configuration.historicalDataStart == candles[0].timestamp
    requires configuration.historicalDataEnd == candles[119].timestamp
    ensures var r := Run(account, (p, start, end) => source.GetHistoricalData(p, start, end), generator, configuration);
      && |r.signals| == 101
      && r.lastPrices == map[pair := candles[119].close]
  {
    var fetch: Fetch := (p, start, end) => source.GetHistoricalData(p, start, end);
    QueryOverOwnSpan(source, pair);
    assert Candles(fetch, configuration, pair) == candles;
    var st := RunState(account, [], [], map[]);
    RunPairsCount(st, fetch, generator, configuration, 0);
    RunPairRecords(st, generator, configuration, pair, candles);
    assert Run(account, fetch, generator, configuration) == RunPair(st, generator, configuration, pair, candles);
  }

  /** Candles that all close at the same non-negative price. */
  predicate Flat(candles: seq<HistoricalCandle>, c: real) {
    c >= 0.0 && forall i :: 0 <= i < |candles| ==> candles[i].close == c
  }

  /** No position of the account is open. */
  predicate NothingOpen(a: Account) {
    forall j :: 0 <= j < |a.positions| ==> !a.positions[j].IsOpen()
  }

  /** A signal over a flat window: never acted on, and a plain Hold when the
      account holds nothing. */
  predicate Quiet(a: Account, s: TradeSignal) {
    !s.IsActionable() && (NothingOpen(a) ==> s.action == Hold)
  }

  /** In a flat market every reading is sideways with no momentum, so every
      signal has confidence 0 and none is acted on; without an open position
      the generator holds. */
  lemma FlatSignalIsNotActionable(generator: SignalGenerator, a: Account, pair: CurrencyPair,
                                  buffer: seq<HistoricalCandle>, configuration: TradingConfiguration, c: real)
    requires |buffer| > 0 && Flat(buffer, c)
    ensures Quiet(a, SignalFor(generator, a, pair, buffer, configuration))
  {
    AnalyzeFlatWindow(generator.trendAnalyzer, buffer, configuration.shortWindow, configuration.longWindow, c);
    if NothingOpen(a) {
      assert OpenView(a, pair).None?;
    }
  }

  /** The inner loop over flat candles records only quiet signals and leaves
      the account and the completed list alone. */
  lemma {:induction false} RunCandlesFlat(st: RunState, generator: SignalGenerator,
                                          configuration: TradingConfiguration, pair: CurrencyPair,
                                          candles: seq<HistoricalCandle>, j: nat, c: real)
    requires j <= |candles| && Flat(candles, c)
    ensures var r := RunCandles(st, generator, configuration, pair, candles, j);
      && r.account == st.account && r.completed == st.completed
      && |st.signals| <= |r.signals| && r.signals[..|st.signals|] == st.signals
      && forall u :: |st.signals| <= u < |r.signals| ==> Quiet(st.account, r.signals[u])
    decreases |candles| - j
  {
    if j < |candles| {
      var buffer := candles[..j + 1];
      assert Flat(buffer, c);
      var s1 := ProcessCandle(st, generator, configuration, pair, buffer);
      FlatStep(st, generator, configuration, pair, buffer, c);
      RunCandlesFlat(s1, generator, configuration, pair, candles, j + 1, c);
      var r := RunCandles(s1, generator, configuration, pair, candles, j + 1);
      PrefixOfPrefix(st.signals, s1.signals, r.signals);
      forall u | |st.signals| <= u < |r.signals|
        ensures Quiet(st.account, r.signals[u])
      {
        if u < |s1.signals| {
          assert r.signals[u] == r.signals[..|s1.signals|][u];
        }
      }
    }
  }

  /** Every element of `s + [x]` is an element of `s` or is `x`. */
  lemma AppendedMembers<T>(s: seq<T>, t: seq<T>, x: T)
    requires t == s + [x]
    ensures forall i :: 0 <= i < |t| ==> t[i] in s || t[i] == x
  {
    forall i | 0 <= i < |t|
      ensures t[i] in s || t[i] == x
    {
      if i < |s| {
        assert t[i] == s[i];
      }
    }
  }

  /** A second update of one key overrides the first. */
  lemma UpdateTwice<K, V>(m: map<K, V>, k: K, v: V, w: V)
    ensures m[k := v][k := w] == m[k := w]
  {
  }

  /** Growing a prefix by the next element gives the next prefix. */
  lemma PrefixGrows<T>(s: seq<T>, j: nat)
    requires j < |s|
    ensures s[..j] + [s[j]] == s[..j + 1]
  {
  }

  /** A prefix of a prefix is a prefix. */
  lemma PrefixOfPrefix<T>(a: seq<T>, b: seq<T>, c: seq<T>)
    requires |a| <= |b| <= |c| && c[..|b|] == b && b[..|a|] == a
    ensures c[..|a|] == a
  {
    assert c[..|a|] == c[..|b|][..|a|];
  }

  /** One flat candle keeps the account and the completed list and records
      at most one signal, which is quiet. */
  lemma FlatStep(st: RunState, generator: SignalGenerator, configuration: TradingConfiguration,
                 pair: CurrencyPair, buffer: seq<HistoricalCandle>, c: real)
    requires |buffer| > 0 && Flat(buffer, c)
    ensures var s1 := ProcessCandle(st, generator, configuration, pair, buffer);
      && s1.account == st.account && s1.completed == st.completed
      && (s1.signals == st.signals
          || (|s1.signals| == |st.signals| + 1 && s1.signals[..|st.signals|] == st.signals
              && Quiet(st.account, s1.signals[|st.signals|])))
  {
    if |buffer| >= configuration.longWindow {
      FlatSignalIsNotActionable(generator, st.account, pair, buffer, configuration, c);
    }
  }

  /** Every configured pair's candles are flat (each at its own price). */
  predicate FlatMarket(fetch: Fetch, configuration: TradingConfiguration) {
    forall k :: 0 <= k < |configuration.currencyPairs| ==>
      var candles := Candles(fetch, configuration, configuration.currencyPairs[k]);
      |candles| == 0 || Flat(candles, candles[0].close)
  }

  lemma {:induction false} RunPairsFlat(st: RunState, fetch: Fetch, generator: SignalGenerator,
                                        configuration: TradingConfiguration, k: nat)
    requires k <= |configuration.currencyPairs| && FlatMarket(fetch, configuration)
    ensures var r := RunPairs(st, fetch, generator, configuration, k);
      && r.account == st.account && r.completed == st.completed
      && |st.signals| <= |r.signals| && r.signals[..|st.signals|] == st.signals
      && forall u :: |st.signals| <= u < |r.signals| ==> Quiet(st.account, r.signals[u])
    decreases |configuration.currencyPairs| - k
  {
    if k < |configuration.currencyPairs| {
      var pair := configuration.currencyPairs[k];
      var candles := Candles(fetch, configuration, pair);
      if |candles| > 0 && |candles| >= configuration.longWindow {
        RunCandlesFlat(st, generator, configuration, pair, candles, 0, candles[0].close);
      } else if |candles| >= configuration.longWindow {
        assert RunCandles(st, generator, configuration, pair, candles, 0) == st;
      }
      var s1 := RunPair(st, generator, configuration, pair, candles);
      RunPairsFlat(s1, fetch, generator, configuration, k + 1);
      var r := RunPairs(s1, fetch, generator, configuration, k + 1);
      assert r.signals[..|st.signals|] == r.signals[..|s1.signals|][..|st.signals|];
      forall u | |st.signals| <= u < |s1.signals|
        ensures r.signals[u] == s1.signals[u]
      {
        assert r.signals[u] == r.signals[..|s1.signals|][u];
      }
    }
  }

  /** A run over a flat market from an account without positions only ever
      holds and never trades: the final equity is the starting cash. */
  lemma FlatMarketKeepsCapital(initialCapital: real, fetch: Fetch, generator: SignalGenerator,
                               configuration: TradingConfiguration)
    requires FlatMarket(fetch, configuration)
    ensures var r := Run(Account(initialCapital, []), fetch, generator, configuration);
      && r.account == Account(initialCapital, []) && r.completed == []
      && (forall u :: 0 <= u < |r.signals| ==> r.signals[u].action == Hold && !r.signals[u].IsActionable())
      && Equity(r.account, r.lastPrices) == initialCapital
  {
    var st := RunState(Account(initialCapital, []), [], [], map[]);
    RunPairsFlat(st, fetch, generator, configuration, 0);
    var r := Run(Account(initialCapital, []), fetch, generator, configuration);
    assert NothingOpen(st.account);
    forall u | 0 <= u < |r.signals|
      ensures r.signals[u].action == Hold && !r.signals[u].IsActionable()
    {
      assert Quiet(st.account, r.signals[u]);
    }
    EquityWithoutOpenPositions(r.account, r.lastPrices);
  }

  // ---------------------------------------------------------------------
  // What a run keeps

  /** The portfolio's invariant holds, the completed list holds closed
      positions only, and the report's realized profit is exactly what the
      portfolio realized beyond `base`. */
  predicate Keeps(initialCapital: real, base: real, a: Account, completed: seq<Position>) {
    && Sound(initialCapital, a)
    && (forall i :: 0 <= i < |completed| ==> completed[i].closedAt.Some?)
    && RealizedTotal(a.positions) == base + SumBy(completed, RealizedOrZero)
  }

  /** Acting on a signal keeps the invariant: a new position realizes
      nothing yet, and a closed one adds the same profit to the portfolio
      and to the completed list. */
  lemma HandleKeeps(initialCapital: real, base: real, a: Account, completed: seq<Position>, signal: TradeSignal,
                    riskPerTrade: real)
    requires Keeps(initialCapital, base, a, completed)
    ensures var r := Handle(a, completed, signal, riskPerTrade);
      Keeps(initialCapital, base, r.0, r.1)
  {
    var r := Handle(a, completed, signal, riskPerTrade);
    if signal.IsActionable() {
      if signal.action == Buy || signal.action == Sell {
        var q := CalculatePositionSize(a.cash, signal.price, riskPerTrade);
        SizedOrderNeverFails(a, signal, riskPerTrade);
        if OpenOn(a, signal, q).value.Some? {
          var b := OpenOn(a, signal, q).value.value;
          OpenKeepsConsistent(a, signal, q);
          OpenKeepsBalance(initialCapital, a, signal, q);
          var newPosition := b.positions[|a.positions|];
          assert b.positions == a.positions + [newPosition];
          SumByAppend(a.positions, newPosition, RealizedOf);
        }
      } else if signal.action == Close && CloseOn(a, signal).Some? {
        var i := OpenIndex(a.positions, signal.pair).value;
        var p := a.positions[i];
        CloseKeepsConsistent(a, signal);
        CloseKeepsBalance(initialCapital, a, signal);
        CloseRealizesProfit(a, signal);
        var closed := r.0.positions[i];
        assert closed == p.Close(signal.price, signal.timestamp).value;
        SumByAppend(completed, closed, RealizedOrZero);
      }
    }
  }

  /** One candle keeps the invariant. */
  lemma ProcessCandleKeeps(initialCapital: real, base: real, st: RunState, generator: SignalGenerator,
                           configuration: TradingConfiguration, pair: CurrencyPair, buffer: seq<HistoricalCandle>)
    requires |buffer| > 0
    requires Keeps(initialCapital, base, st.account, st.completed)
    ensures var r := ProcessCandle(st, generator, configuration, pair, buffer);
      Keeps(initialCapital, base, r.account, r.completed)
  {
    if |buffer| >= configuration.longWindow {
      var signal := SignalFor(generator, st.account, pair, buffer, configuration);
      HandleKeeps(initialCapital, base, st.account, st.completed, signal, configuration.riskPerTrade);
    }
  }

  lemma {:induction false} RunCandlesKeeps(initialCapital: real, base: real, st: RunState, generator: SignalGenerator,
                                           configuration: TradingConfiguration, pair: CurrencyPair,
                                           candles: seq<HistoricalCandle>, j: nat)
    requires j <= |candles|
    requires Keeps(initialCapital, base, st.account, st.completed)
    ensures var r := RunCandles(st, generator, configuration, pair, candles, j);
      Keeps(initialCapital, base, r.account, r.completed)
    decreases |candles| - j
  {
    if j < |candles| {
      var s1 := ProcessCandle(st, generator, configuration, pair, candles[..j + 1]);
      ProcessCandleKeeps(initialCapital, base, st, generator, configuration, pair, candles[..j + 1]);
      RunCandlesKeeps(initialCapital, base, s1, generator, configuration, pair, candles, j + 1);
    }
  }

  lemma {:induction false} RunPairsKeeps(initialCapital: real, base: real, st: RunState, fetch: Fetch,
                                         generator: SignalGenerator, configuration: TradingConfiguration, k: nat)
    requires k <= |configuration.currencyPairs|
    requires Keeps(initialCapital, base, st.account, st.completed)
    ensures var r := RunPairs(st, fetch, generator, configuration, k);
      Keeps(initialCapital, base, r.account, r.completed)
    decreases |configuration.currencyPairs| - k
  {
    if k < |configuration.currencyPairs| {
      var pair := configuration.currencyPairs[k];
      var candles := Candles(fetch, configuration, pair);
      if |candles| >= configuration.longWindow {
        RunCandlesKeeps(initialCapital, base, st, generator, configuration, pair, candles, 0);
      }
      var s1 := RunPair(st, generator, configuration, pair, candles);
      RunPairsKeeps(initialCapital, base, s1, fetch, generator, configuration, k + 1);
    }
  }

  /** A whole run from a sound account ends sound, reports only closed
      positions, and the report's realized profit is exactly the profit the
      portfolio realized during the run. */
  lemma RunKeeps(initialCapital: real, account: Account, fetch: Fetch, generator: SignalGenerator,
                 configuration: TradingConfiguration)
    requires Sound(initialCapital, account)
    ensures var r := Run(account, fetch, generator, configuration);
      && Sound(initialCapital, r.account)
      && (forall i :: 0 <= i < |r.completed| ==> r.completed[i].closedAt.Some?)
      && SumBy(r.completed, RealizedOrZero) == RealizedTotal(r.account.positions) - RealizedTotal(account.positions)
  {
    RunPairsKeeps(initialCapital, RealizedTotal(account.positions), RunState(account, [], [], map[]),
                  fetch, generator, configuration, 0);
  }

  // ---------------------------------------------------------------------
  // The engine object

  class TradingEngine {
    const marketDataSource: Fetch
    const signalGenerator: SignalGenerator
    const configuration: TradingConfiguration
    const portfolioManager: PortfolioManager

    constructor (marketDataSource: Fetch, signalGenerator: SignalGenerator, configuration: TradingConfiguration,
                 portfolioManager: PortfolioManager)
      ensures this.marketDataSource == marketDataSource && this.signalGenerator == signalGenerator
      ensures this.configuration == configuration && this.portfolioManager == portfolioManager
    {
      this.marketDataSource := marketDataSource;
      this.signalGenerator := signalGenerator;
      this.configuration := configuration;
      this.portfolioManager := portfolioManager;
    }

    /** The run, proved to compute Run on the portfolio's starting value;
        `generatedAtUtc` is the report's clock reading. */
    method RunAsync(generatedAtUtc: Timestamp) returns (report: TradingReport)
      requires portfolioManager.Valid()
      modifies portfolioManager, portfolioManager.positions
      ensures fresh(report) && portfolioManager.Valid()
      ensures var final := Run(old(portfolioManager.State()), marketDataSource, signalGenerator, configuration);
        && portfolioManager.State() == final.account
        && report.signals == final.signals
        && report.completedPositions == final.completed
        && report.finalEquity == Equity(final.account, final.lastPrices)
      ensures report.initialCapital == configuration.initialCapital && report.targetProfit == configuration.targetProfit
      ensures report.targetHorizon == configuration.targetTimeWindow && report.generatedAtUtc == generatedAtUtc
    {
      report := new TradingReport(configuration.initialCapital, configuration.targetProfit,
                                  configuration.targetTimeWindow, generatedAtUtc);
      assert portfolioManager.positions == old(portfolioManager.positions);
      var lastPrices := ReplayPairs(report);
      ghost var final := Run(old(portfolioManager.State()), marketDataSource, signalGenerator, configuration);
      ghost var account := portfolioManager.State();
      assert account == final.account && portfolioManager.Valid();
      var equity := portfolioManager.CalculateEquity(lastPrices);
      report.Complete(equity);
      assert portfolioManager.State() == account;
    }

    /** The outer loop over the configured pairs, into a fresh report. */
    method ReplayPairs(report: TradingReport) returns (lastPrices: map<CurrencyPair, real>)
      requires portfolioManager.Valid() && report.signals == [] && report.completedPositions == []
      modifies portfolioManager, portfolioManager.positions, report
      ensures portfolioManager.Valid()
      ensures forall i :: 0 <= i < |portfolioManager.positions| ==> portfolioManager.positions[i] in old(portfolioManager.positions) || fresh(portfolioManager.positions[i])
      ensures RunState(portfolioManager.State(), report.signals, report.completedPositions, lastPrices)
        == Run(old(portfolioManager.State()), marketDataSource, signalGenerator, configuration)
    {
      var pm := portfolioManager;
      lastPrices := map[];
      ghost var run := Run(pm.State(), marketDataSource, signalGenerator, configuration);
      var pairs := configuration.currencyPairs;
      var k := 0;
      while k < |pairs|
        invariant 0 <= k <= |pairs| && pm.Valid()
        invariant forall i :: 0 <= i < |pm.positions| ==> pm.positions[i] in old(pm.positions) || fresh(pm.positions[i])
        invariant RunPairs(RunState(pm.State(), report.signals, report.completedPositions, lastPrices),
                           marketDataSource, signalGenerator, configuration, k) == run
      {
        ghost var before := pm.positions;
        forall o | o in before
          ensures o in old(pm.positions) || fresh(o)
        {
          var m :| 0 <= m < |before| && before[m] == o;
        }
        lastPrices := ReplayNextPair(report, k, lastPrices);
        k := k + 1;
      }
    }

    /** One pass of the outer loop: fetch the k-th pair's candles and, unless
        there are fewer than the long window, replay them. */
    method ReplayNextPair(report: TradingReport, k: nat, lastPrices: map<CurrencyPair, real>)
      returns (prices: map<CurrencyPair, real>)
      requires k < |configuration.currencyPairs| && portfolioManager.Valid()
      modifies portfolioManager, portfolioManager.positions, report
      ensures portfolioManager.Valid()
      ensures forall i :: 0 <= i < |portfolioManager.positions| ==> portfolioManager.positions[i] in old(portfolioManager.positions) || fresh(portfolioManager.positions[i])
      ensures RunPairs(RunState(portfolioManager.State(), report.signals, report.completedPositions, prices),
                       marketDataSource, signalGenerator, configuration, k + 1)
        == RunPairs(RunState(old(portfolioManager.State()), old(report.signals), old(report.completedPositions), lastPrices),
                    marketDataSource, signalGenerator, configuration, k)
    {
      var pair := configuration.currencyPairs[k];
      var candles := marketDataSource(pair, configuration.historicalDataStart, configuration.historicalDataEnd);
      RunPairsStep(RunState(portfolioManager.State(), report.signals, report.completedPositions, lastPrices),
                   marketDataSource, signalGenerator, configuration, k);
      prices := lastPrices;
      if |candles| >= configuration.longWindow {
        prices := ReplayPair(report, pair, candles, lastPrices);
      }
    }

    /** The inner loop for one pair with enough candles: grow the buffer
        candle by candle, remembering each close and trading once the buffer
        reaches the long window. */
    method ReplayPair(report: TradingReport, pair: CurrencyPair, candles: seq<HistoricalCandle>,
                      lastPrices: map<CurrencyPair, real>) returns (prices: map<CurrencyPair, real>)
      requires |candles| >= configuration.longWindow && portfolioManager.Valid()
      modifies portfolioManager, portfolioManager.positions, report
      ensures portfolioManager.Valid()
      ensures forall i :: 0 <= i < |portfolioManager.positions| ==> portfolioManager.positions[i] in old(portfolioManager.positions) || fresh(portfolioManager.positions[i])
      ensures RunState(portfolioManager.State(), report.signals, report.completedPositions, prices)
        == RunPair(RunState(old(portfolioManager.State()), old(report.signals), old(report.completedPositions), lastPrices),
                   signalGenerator, configuration, pair, candles)
    {
      var pm := portfolioManager;
      ghost var run := RunCandles(RunState(pm.State(), report.signals, report.completedPositions, lastPrices),
                                  signalGenerator, configuration, pair, candles, 0);
      prices := lastPrices;
      var buffer: seq<HistoricalCandle> := [];
      var j := 0;
      while j < |candles|
        invariant 0 <= j <= |candles| && buffer == candles[..j]
        invariant pm.Valid()
        invariant forall i :: 0 <= i < |pm.positions| ==> pm.positions[i] in old(pm.positions) || fresh(pm.positions[i])
        invariant RunCandles(RunState(pm.State(), report.signals, report.completedPositions, prices),
                             signalGenerator, configuration, pair, candles, j) == run
      {
        PrefixGrows(candles, j);
        buffer := buffer + [candles[j]];
        ghost var before := pm.positions;
        forall o | o in before
          ensures o in old(pm.positions) || fresh(o)
        {
          var k :| 0 <= k < |before| && before[k] == o;
        }
        prices := Advance(report, pair, candles, j, buffer, prices);
        j := j + 1;
      }
    }

    /** One pass of the inner loop after the buffer has grown: remember the
        newest close and, once the buffer reaches the long window, trade. */
    method Advance(report: TradingReport, pair: CurrencyPair, ghost candles: seq<HistoricalCandle>, ghost j: nat,
                   buffer: seq<HistoricalCandle>, lastPrices: map<CurrencyPair, real>)
      returns (prices: map<CurrencyPair, real>)
      requires j < |candles| && buffer == candles[..j + 1] && portfolioManager.Valid()
      modifies portfolioManager, portfolioManager.positions, report
      ensures portfolioManager.Valid()
      ensures forall i :: 0 <= i < |portfolioManager.positions| ==> portfolioManager.positions[i] in old(portfolioManager.positions) || fresh(portfolioManager.positions[i])
      ensures RunState(portfolioManager.State(), report.signals, report.completedPositions, prices)
        == ProcessCandle(RunState(old(portfolioManager.State()), old(report.signals), old(report.completedPositions), lastPrices),
                         signalGenerator, configuration, pair, buffer)
      ensures RunCandles(RunState(portfolioManager.State(), report.signals, report.completedPositions, prices),
                         signalGenerator, configuration, pair, candles, j + 1)
        == RunCandles(RunState(old(portfolioManager.State()), old(report.signals), old(report.completedPositions), lastPrices),
                      signalGenerator, configuration, pair, candles, j)
    {
      prices := lastPrices[pair := buffer[|buffer| - 1].close];
      if |buffer| >= configuration.longWindow {
        Trade(report, pair, buffer);
      }
    }

    /** The body of the inner loop once the buffer is long enough: generate,
        record and act on the pair's signal. */
    method Trade(report: TradingReport, pair: CurrencyPair, buffer: seq<HistoricalCandle>)
      requires |buffer| > 0 && portfolioManager.Valid()
      modifies portfolioManager, portfolioManager.positions, report
      ensures portfolioManager.Valid()
      ensures forall i :: 0 <= i < |portfolioManager.positions| ==> portfolioManager.positions[i] in old(portfolioManager.positions) || fresh(portfolioManager.positions[i])
      ensures var signal := SignalFor(signalGenerator, old(portfolioManager.State()), pair, buffer, configuration);
        && report.signals == old(report.signals) + [signal]
        && (portfolioManager.State(), report.completedPositions)
           == Handle(old(portfolioManager.State()), old(report.completedPositions), signal, configuration.riskPerTrade)
    {
      var pm := portfolioManager;
      var openPosition := pm.GetOpenPosition(pair);
      var openView := if openPosition.Some? then Some(openPosition.value.View()) else None;
      assert openView == OpenView(pm.State(), pair);
      var generated := signalGenerator.Generate(pair, buffer, configuration, openView);
      var signal := generated.value;
      label Generated:
      report.RecordSignal(signal);
      assert unchanged@Generated(pm, pm.positions);
      assert pm.positions == old(pm.positions);
      if signal.IsActionable() {
        if signal.action == Buy || signal.action == Sell {
          Enter(report, signal);
        } else if signal.action == Close {
          Exit(report, signal);
        }
      }
    }

    /** A Buy or Sell: open a position sized by the risk rule. */
    method Enter(report: TradingReport, signal: TradeSignal)
      requires portfolioManager.Valid() && signal.IsActionable() && (signal.action == Buy || signal.action == Sell)
      modifies portfolioManager, report
      ensures portfolioManager.Valid()
      ensures forall i :: 0 <= i < |portfolioManager.positions| ==> portfolioManager.positions[i] in old(portfolioManager.positions) || fresh(portfolioManager.positions[i])
      ensures report.signals == old(report.signals)
      ensures (portfolioManager.State(), report.completedPositions)
        == Handle(old(portfolioManager.State()), old(report.completedPositions), signal, configuration.riskPerTrade)
    {
      var pm := portfolioManager;
      ghost var before := pm.State();
      HandleOpen(before, report.completedPositions, signal, configuration.riskPerTrade);
      var quantity := CalculatePositionSize(pm.cash, signal.price, configuration.riskPerTrade);
      var placed := pm.OpenPosition(signal, quantity);
      if placed.value.Some? {
        var position := placed.value.value;
        AppendedMembers(old(pm.positions), pm.positions, position);
        assert position.View() == pm.State().positions[|before.positions|];
        label Placed:
        report.RecordPositionOutcome(position);
        assert unchanged@Placed(pm, pm.positions);
      }
    }

    /** A Close: close the pair's open position, if there is one. */
    method Exit(report: TradingReport, signal: TradeSignal)
      requires portfolioManager.Valid() && signal.IsActionable() && signal.action == Close
      modifies portfolioManager, portfolioManager.positions, report
      ensures portfolioManager.Valid()
      ensures portfolioManager.positions == old(portfolioManager.positions)
      ensures report.signals == old(report.signals)
      ensures (portfolioManager.State(), report.completedPositions)
        == Handle(old(portfolioManager.State()), old(report.completedPositions), signal, configuration.riskPerTrade)
    {
      var pm := portfolioManager;
      ghost var before := pm.State();
      HandleClose(before, report.completedPositions, signal, configuration.riskPerTrade);
      var closed := pm.ClosePosition(signal);
      if closed.Some? {
        assert closed.value.View() == pm.State().positions[OpenIndex(before.positions, signal.pair).value];
        label Closed:
        report.RecordPositionOutcome(closed.value);
        assert unchanged@Closed(pm, pm.positions);
      }
    }
  }
}
