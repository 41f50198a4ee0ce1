/** Turning a trend reading and the open position into a trade signal. */
module Signals {
  import opened Wrappers
  import opened Numbers
  import opened Domain
  import opened Configuration
  import opened TrendAnalysis

  // The source formats the momentum into the two trend reasons; here the
  // reasons are fixed texts.
  const CloseReason: string := "Exit based on trailing stop or target."
  const MaintainReason: string := "Existing position maintained."
  const BullishReason: string := "Bullish momentum detected."
  const BearishReason: string := "Bearish momentum detected."
  const NoTrendReason: string := "No clear trend signal."

  /** The action part of a signal, with its protective levels and reason. */
  datatype Decision = Decision(action: TradeActionType, stopLoss: Option<real>, takeProfit: Option<real>, reason: string)

  /** A quotient by a positive divisor is at most `t` exactly when the
      dividend is at most `t` times the divisor. */
  lemma QuotientAtMost(x: real, d: real, t: real)
    requires d > 0.0
    ensures x / d <= t <==> x <= t * d
  {
    assert (t - x / d) * d == t * d - x;
    if x / d <= t {
      assert (t - x / d) * d >= 0.0;
    }
    if x <= t * d {
      assert (t * d - x) / d >= 0.0;
      assert (t * d - x) / d == t - x / d;
    }
  }

  /** The mirror image of QuotientAtMost. */
  lemma QuotientAtLeast(x: real, d: real, t: real)
    requires d > 0.0
    ensures t <= x / d <==> t * d <= x
  {
    assert (x / d - t) * d == x - t * d;
    if t <= x / d {
      assert (x / d - t) * d >= 0.0;
    }
    if t * d <= x {
      assert (x - t * d) / d >= 0.0;
      assert (x - t * d) / d == x / d - t;
    }
  }

  /** The level `factor` (a fraction) above `price`. */
  function Above(price: real, factor: real): (level: real)
    ensures price > 0.0 && factor > 0.0 ==> level > price
  {
    price * (1.0 + factor)
  }

  /** The level `factor` (a fraction) below `price`. */
  function Below(price: real, factor: real): (level: real)
    ensures price > 0.0 && factor > 0.0 ==> level < price
  {
    price * (1.0 - factor)
  }

  /** The strength of a reading in [0, 1]: momentum measured against
      volatility, or the bare momentum capped at 1 when there is no volatility. */
  function ComputeConfidence(momentum: real, volatility: real): (c: real)
    ensures 0.0 <= c <= 1.0
    ensures volatility >= 0.0 ==> (c == 0.0 <==> momentum == 0.0)
    ensures volatility > 0.0 && Abs(momentum) <= volatility ==> c * volatility == Abs(momentum)
    ensures volatility > 0.0 && Abs(momentum) >= volatility ==> c == 1.0
  {
    if volatility == 0.0 then Min(1.0, Abs(momentum))
    else
      var ratio := Abs(momentum) / volatility;
      assert volatility > 0.0 ==> ratio * volatility == Abs(momentum) && (momentum != 0.0 ==> ratio > 0.0)
                                  && (Abs(momentum) >= volatility ==> ratio >= 1.0)
                                  && (Abs(momentum) <= volatility ==> ratio <= 1.0) by {
        if volatility > 0.0 {
          QuotientAtLeast(Abs(momentum), volatility, 1.0);
          QuotientAtMost(Abs(momentum), volatility, 1.0);
        }
      }
      Clamp(ratio, 0.0, 1.0)
  }

  /** The dual exit rule: take profit, stop loss, or a loss ratio below half
      the stop-loss factor. Anything not long is treated as short. The loss
      ratio divides the unrealized result by the entry notional, floored at
      1; the contract states the rule without the division. */
  function ShouldClosePosition(position: Position, latest: HistoricalCandle, configuration: TradingConfiguration)
    : (close: bool)
    ensures var e, p, tp, sl := position.entryPrice, latest.close, configuration.takeProfitFactor, configuration.stopLossFactor;
      var lossHit := position.UnrealizedPnL(p) <= -(sl / 2.0) * Max(1.0, e * position.quantity);
      close <==>
        if position.direction == Buy then p >= Above(e, tp) || p <= Below(e, sl) || lossHit
        else p <= Below(e, tp) || p >= Above(e, sl) || lossHit
  {
    var price := latest.close;
    var threshold := configuration.stopLossFactor / 2.0;
    var notional := Max(1.0, position.entryPrice * position.quantity);
    var pnl := position.UnrealizedPnL(price) / notional;
    QuotientAtMost(position.UnrealizedPnL(price), notional, -threshold);
    if position.direction == Buy then
      var takeProfit := Above(position.entryPrice, configuration.takeProfitFactor);
      var stopLoss := Below(position.entryPrice, configuration.stopLossFactor);
      price >= takeProfit || price <= stopLoss || pnl <= -threshold
    else
      var shortTakeProfit := Below(position.entryPrice, configuration.takeProfitFactor);
      var shortStopLoss := Above(position.entryPrice, configuration.stopLossFactor);
      price <= shortTakeProfit || price >= shortStopLoss || pnl <= -threshold
  }

  /** What to do with the open position `position` at the newest candle. */
  function ExitDecision(position: Position, latest: HistoricalCandle, configuration: TradingConfiguration)
    : (d: Decision)
    ensures d.action == Close <==> ShouldClosePosition(position, latest, configuration)
    ensures d.action == Close || d.action == Hold
    ensures d.stopLoss.None? && d.takeProfit.None?
  {
    if ShouldClosePosition(position, latest, configuration) then Decision(Close, None, None, CloseReason)
    else Decision(Hold, None, None, MaintainReason)
  }

  /** What to do without a position: follow the trend, with protective
      levels placed on either side of the newest close. */
  function EntryDecision(trend: MarketTrend, close: real, configuration: TradingConfiguration): (d: Decision)
    ensures d.action == Buy <==> trend == Bullish
    ensures d.action == Sell <==> trend == Bearish
    ensures d.action == Hold <==> trend == Sideways
    ensures trend == Bullish ==>
      && d.stopLoss == Some(Below(close, configuration.stopLossFactor))
      && d.takeProfit == Some(Above(close, configuration.takeProfitFactor))
    ensures trend == Bearish ==>
      && d.stopLoss == Some(Above(close, configuration.stopLossFactor))
      && d.takeProfit == Some(Below(close, configuration.takeProfitFactor))
    ensures trend == Sideways ==> d.stopLoss.None? && d.takeProfit.None?
  {
    match trend
    case Bullish =>
      Decision(Buy, Some(Below(close, configuration.stopLossFactor)),
                    Some(Above(close, configuration.takeProfitFactor)), BullishReason)
    case Bearish =>
      Decision(Sell, Some(Above(close, configuration.stopLossFactor)),
                     Some(Below(close, configuration.takeProfitFactor)), BearishReason)
    case Sideways => Decision(Hold, None, None, NoTrendReason)
  }

  datatype SignalGenerator = SignalGenerator(trendAnalyzer: TrendAnalyzer) {

    /** The signal for the newest of `candles`: an exit decision while a
        position is open, an entry decision from the trend otherwise. */
    function Generate(pair: CurrencyPair, candles: seq<HistoricalCandle>, configuration: TradingConfiguration,
                      openPosition: Option<Position>): (r: Result<TradeSignal, TradingError>)
      ensures r.Failure? <==> |candles| == 0
      ensures r.Failure? ==> r.error == EmptyCandles
      ensures r.Success? ==>
        var latest := candles[|candles| - 1];
        var reading := trendAnalyzer.Analyze(candles, configuration.shortWindow, configuration.longWindow);
        && r.value.pair == pair
        && r.value.timestamp == latest.timestamp
        && r.value.price == latest.close
        && r.value.confidence == ComputeConfidence(reading.momentum, reading.volatility)
      ensures r.Success? && openPosition.Some? ==>
        var latest := candles[|candles| - 1];
        && (r.value.action == Close || r.value.action == Hold)
        && (r.value.action == Close <==> ShouldClosePosition(openPosition.value, latest, configuration))
        && r.value.stopLoss.None? && r.value.takeProfit.None?
      ensures r.Success? && openPosition.None? ==>
        var close := candles[|candles| - 1].close;
        var trend := trendAnalyzer.Analyze(candles, configuration.shortWindow, configuration.longWindow).trend;
        && (r.value.action == Buy <==> trend == Bullish)
        && (r.value.action == Sell <==> trend == Bearish)
        && (r.value.action == Hold <==> trend == Sideways)
        && (trend == Bullish ==>
              && r.value.stopLoss == Some(Below(close, configuration.stopLossFactor))
              && r.value.takeProfit == Some(Above(close, configuration.takeProfitFactor)))
        && (trend == Bearish ==>
              && r.value.stopLoss == Some(Above(close, configuration.stopLossFactor))
              && r.value.takeProfit == Some(Below(close, configuration.takeProfitFactor)))
        && (trend == Sideways ==> r.value.stopLoss.None? && r.value.takeProfit.None?)
    {
      if |candles| == 0 then Failure(EmptyCandles)
      else
        var reading := trendAnalyzer.Analyze(candles, configuration.shortWindow, configuration.longWindow);
        var latest := candles[|candles| - 1];
        var confidence := ComputeConfidence(reading.momentum, reading.volatility);
        var close := latest.close;
        var decision := if openPosition.Some? then ExitDecision(openPosition.value, latest, configuration)
                        else EntryDecision(reading.trend, close, configuration);
        Success(TradeSignal(pair, decision.action, latest.timestamp, close, confidence,
                            decision.stopLoss, decision.takeProfit, decision.reason))
    }
  }

  // ---------------------------------------------------------------------
  // The exit rule

  /** With positive factors and a positive entry price, a position is never
      closed at its own entry price. */
  lemma NoExitAtEntryPrice(position: Position, latest: HistoricalCandle, configuration: TradingConfiguration)
    requires position.entryPrice > 0.0
    requires configuration.stopLossFactor > 0.0 && configuration.takeProfitFactor > 0.0
    requires latest.close == position.entryPrice
    ensures !ShouldClosePosition(position, latest, configuration)
  {
    var e := position.entryPrice;
    assert position.UnrealizedPnL(latest.close) == 0.0;
    assert e * configuration.takeProfitFactor > 0.0;
    assert e * configuration.stopLossFactor > 0.0;
  }

  /** A long position's loss reaches h times its entry notional exactly at
      entry * (1 - h). */
  lemma LongLossLevel(e: real, q: real, p: real, h: real)
    requires q > 0.0
    ensures (p - e) * q <= -h * (e * q) <==> p <= e * (1.0 - h)
  {
    assert (p - e) * q + h * (e * q) == (p - e * (1.0 - h)) * q;
  }

  /** A short position's loss reaches h times its entry notional exactly at
      entry * (1 + h). */
  lemma ShortLossLevel(e: real, q: real, p: real, h: real)
    requires q > 0.0
    ensures (e - p) * q <= -h * (e * q) <==> p >= e * (1.0 + h)
  {
    assert (e - p) * q + h * (e * q) == (e * (1.0 + h) - p) * q;
  }

  /** Half the stop distance is reached before the full one. */
  lemma HalfStopFirst(e: real, sl: real)
    requires e > 0.0 && sl >= 0.0
    ensures e * (1.0 - sl) <= e * (1.0 - sl / 2.0)
    ensures e * (1.0 + sl) >= e * (1.0 + sl / 2.0)
  {
    assert e * sl >= 0.0;
  }

  /** The long exit rule on plain numbers: with an entry notional of at
      least 1, the loss test is the price at half the stop distance, which
      the full stop level can never precede. */
  lemma LongRule(e: real, q: real, p: real, tp: real, sl: real, pnl: real)
    requires e > 0.0 && q > 0.0 && e * q >= 1.0 && sl >= 0.0 && pnl == (p - e) * q
    ensures (p >= Above(e, tp) || p <= Below(e, sl) || pnl <= -(sl / 2.0) * Max(1.0, e * q)) <==>
      p >= e * (1.0 + tp) || p <= e * (1.0 - sl / 2.0)
  {
    assert Max(1.0, e * q) == e * q;
    LongLossLevel(e, q, p, sl / 2.0);
    HalfStopFirst(e, sl);
  }

  /** The short exit rule on plain numbers, the mirror image of LongRule. */
  lemma ShortRule(e: real, q: real, p: real, tp: real, sl: real, pnl: real)
    requires e > 0.0 && q > 0.0 && e * q >= 1.0 && sl >= 0.0 && pnl == (e - p) * q
    ensures (p <= Below(e, tp) || p >= Above(e, sl) || pnl <= -(sl / 2.0) * Max(1.0, e * q)) <==>
      p <= e * (1.0 - tp) || p >= e * (1.0 + sl / 2.0)
  {
    assert Max(1.0, e * q) == e * q;
    ShortLossLevel(e, q, p, sl / 2.0);
    HalfStopFirst(e, sl);
  }

  /** For a long position worth at least 1 at entry, the loss-ratio test is
      the price falling to entry * (1 - stopLossFactor / 2), which the
      configured stop level, further below, can never precede: the rule
      closes exactly at the take-profit level or at half the stop distance. */
  lemma LongExitLevels(position: Position, latest: HistoricalCandle, configuration: TradingConfiguration)
    requires position.direction == Buy
    requires position.entryPrice > 0.0 && position.quantity > 0.0
    requires position.entryPrice * position.quantity >= 1.0
    requires configuration.stopLossFactor >= 0.0
    ensures ShouldClosePosition(position, latest, configuration) <==>
      || latest.close >= position.entryPrice * (1.0 + configuration.takeProfitFactor)
      || latest.close <= position.entryPrice * (1.0 - configuration.stopLossFactor / 2.0)
  {
    LongRule(position.entryPrice, position.quantity, latest.close, configuration.takeProfitFactor,
             configuration.stopLossFactor, position.UnrealizedPnL(latest.close));
  }

  /** The mirror image of LongExitLevels for a short position. */
  lemma ShortExitLevels(position: Position, latest: HistoricalCandle, configuration: TradingConfiguration)
    requires position.direction != Buy
    requires position.entryPrice > 0.0 && position.quantity > 0.0
    requires position.entryPrice * position.quantity >= 1.0
    requires configuration.stopLossFactor >= 0.0
    ensures ShouldClosePosition(position, latest, configuration) <==>
      || latest.close <= position.entryPrice * (1.0 - configuration.takeProfitFactor)
      || latest.close >= position.entryPrice * (1.0 + configuration.stopLossFactor / 2.0)
  {
    ShortRule(position.entryPrice, position.quantity, latest.close, configuration.takeProfitFactor,
              configuration.stopLossFactor, position.UnrealizedPnL(latest.close));
  }
}
