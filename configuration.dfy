/** The run parameters of a backtest, with the source's defaults. */
module Configuration {
  import opened Domain

  datatype TradingConfiguration = TradingConfiguration(
    initialCapital: real,
    targetProfit: real,
    targetTimeWindow: Duration,
    historicalDataStart: Timestamp,
    historicalDataEnd: Timestamp,
    currencyPairs: seq<CurrencyPair>,
    riskPerTrade: real,       // fraction of cash put at risk per trade
    shortWindow: int,
    longWindow: int,
    stopLossFactor: real,
    takeProfitFactor: real)

  const TicksPerHour: int := 36_000_000_000

  /** new DateTime(1980, 1, 1) in ticks. */
  const Year1980: Timestamp := 624_511_296_000_000_000

  /** A configuration in which trend analysis can classify at all (short
      window strictly inside the long one), risk is a fraction and the exit
      levels are strictly away from the entry price. */
  predicate IsMeaningful(c: TradingConfiguration) {
    && 0 < c.shortWindow < c.longWindow
    && 0.0 <= c.riskPerTrade <= 1.0
    && 0.0 < c.stopLossFactor < 1.0
    && 0.0 < c.takeProfitFactor < 1.0
  }

  /** The defaults; the end of the data window is the clock reading `utcNow`. */
  function Default(utcNow: Timestamp): (c: TradingConfiguration)
    ensures IsMeaningful(c)
    ensures c.historicalDataEnd == utcNow && c.historicalDataStart == Year1980
    ensures |c.currencyPairs| == 4 && c.currencyPairs[0] == CurrencyPair("USD", "AUD")
    ensures c.targetTimeWindow == 48 * TicksPerHour
  {
    TradingConfiguration(
      100.0,
      2500.0,
      48 * TicksPerHour,
      Year1980,
      utcNow,
      [CurrencyPair("USD", "AUD"), CurrencyPair("EUR", "USD"), CurrencyPair("GBP", "USD"), CurrencyPair("USD", "JPY")],
      0.01,
      12,
      48,
      0.005,
      0.01)
  }
}
