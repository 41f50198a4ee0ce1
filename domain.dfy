/** The trading system's value records (currency pairs, candles, signals)
    and its one mutable entity, the trade position. */
module Domain {
  import opened Wrappers

  /** Points in time and time spans, in .NET ticks of 100 nanoseconds. */
  type Timestamp = int
  type Duration = int

  /** A tradable currency pair such as USD/AUD; equality is by value. */
  datatype CurrencyPair = CurrencyPair(baseCurrency: string, quoteCurrency: string) {
    function Symbol(): string {
      baseCurrency + "/" + quoteCurrency
    }
  }

  datatype TradeActionType = Hold | Buy | Sell | Close

  /** One historical OHLCV bar. */
  datatype HistoricalCandle = HistoricalCandle(
    timestamp: Timestamp,
    open: real,
    high: real,
    low: real,
    close: real,
    volume: real)
  {
    /** The average of high, low and close; it lies inside the bar's range. */
    function TypicalPrice(): (r: real)
      ensures low <= close <= high ==> low <= r <= high
      ensures low == high == close ==> r == close
    {
      (high + low + close) / 3.0
    }
  }

  /** The decision the strategy produces for one bar; immutable, compared by value. */
  datatype TradeSignal = TradeSignal(
    pair: CurrencyPair,
    action: TradeActionType,
    timestamp: Timestamp,
    price: real,
    confidence: real,
    stopLoss: Option<real>,
    takeProfit: Option<real>,
    reason: string)
  {
    /** A signal is acted on when it asks for a trade and carries some confidence. */
    predicate IsActionable()
      ensures IsActionable() <==> (action == Buy || action == Sell || action == Close) && confidence > 0.0
    {
      action != Hold && confidence > 0.0
    }
  }

  /** The exceptions the core raises. */
  datatype TradingError =
    | EmptyCandles       // signal generation over no bars
    | InvalidDirection   // a position that is neither long nor short
    | AlreadyClosed      // closing a closed position
    | DivideByZero       // decimal division of the cash by a zero price

  /** The two legal position directions: Buy is long, Sell is short. */
  predicate IsDirection(d: TradeActionType) {
    d == Buy || d == Sell
  }

  /** The value of a trade position at one moment: what a TradePosition
      object holds. */
  datatype Position = Position(
    pair: CurrencyPair,
    direction: TradeActionType,
    entryPrice: real,
    quantity: real,
    openedAt: Timestamp,
    closedAt: Option<Timestamp>,
    exitPrice: Option<real>)
  {
    predicate IsOpen() {
      closedAt.None?
    }

    /** +1 for a long position, -1 for anything else. */
    function Multiplier(): real {
      if direction == Buy then 1.0 else -1.0
    }

    /** Profit of the position if it were closed at the given price: a long
        position gains when the price rises, a short one when it falls. */
    function UnrealizedPnL(currentPrice: real): (r: real)
      ensures direction == Buy ==> r == (currentPrice - entryPrice) * quantity
      ensures direction != Buy ==> r == (entryPrice - currentPrice) * quantity
      ensures currentPrice == entryPrice ==> r == 0.0
      ensures quantity > 0.0 ==>
        (r > 0.0 <==> (direction == Buy && currentPrice > entryPrice) || (direction != Buy && currentPrice < entryPrice))
    {
      (currentPrice - entryPrice) * quantity * Multiplier()
    }

    /** Profit locked in by the exit; absent while the position is open. */
    function RealizedPnL(): (r: Option<real>)
      ensures r.Some? <==> exitPrice.Some?
      ensures r.Some? ==> r.value == UnrealizedPnL(exitPrice.value)
    {
      if exitPrice.None? then None
      else Some((exitPrice.value - entryPrice) * quantity * Multiplier())
    }

    /** The transition to closed; a closed position refuses to close again. */
    function Close(price: real, at: Timestamp): (r: Result<Position, TradingError>)
      ensures r.Failure? <==> closedAt.Some?
      ensures r.Failure? ==> r.error == AlreadyClosed
      ensures r.Success? ==>
        && r.value.closedAt == Some(at) && r.value.exitPrice == Some(price)
        && r.value.pair == pair && r.value.direction == direction
        && r.value.entryPrice == entryPrice && r.value.quantity == quantity && r.value.openedAt == openedAt
      ensures r.Success? ==> r.value.RealizedPnL() == Some(UnrealizedPnL(price))
    {
      if closedAt.Some? then Failure(AlreadyClosed)
      else
        var closed := this.(exitPrice := Some(price), closedAt := Some(at));
        assert closed.RealizedPnL() == Some(closed.UnrealizedPnL(price));
        assert closed.UnrealizedPnL(price) == UnrealizedPnL(price);
        Success(closed)
    }
  }

  /** The value a TradePosition constructor produces, or its exception. */
  function NewPosition(pair: CurrencyPair, direction: TradeActionType, entryPrice: real, quantity: real, openedAt: Timestamp)
    : (r: Result<Position, TradingError>)
    ensures r.Failure? <==> !IsDirection(direction)
    ensures r.Failure? ==> r.error == InvalidDirection
    ensures r.Success? ==>
      && r.value.IsOpen() && r.value.exitPrice.None? && r.value.RealizedPnL().None?
      && r.value.pair == pair && r.value.direction == direction
      && r.value.entryPrice == entryPrice && r.value.quantity == quantity && r.value.openedAt == openedAt
  {
    if !IsDirection(direction) then Failure(InvalidDirection)
    else Success(Position(pair, direction, entryPrice, quantity, openedAt, None, None))
  }

  /** An open or closed simulated holding. Everything but the exit is fixed
      at construction; the exit is written once, by Close. */
  class TradePosition {
    const pair: CurrencyPair
    const direction: TradeActionType
    const entryPrice: real
    const quantity: real
    const openedAt: Timestamp
    var closedAt: Option<Timestamp>
    var exitPrice: Option<real>

    function View(): Position
      reads this
    {
      Position(pair, direction, entryPrice, quantity, openedAt, closedAt, exitPrice)
    }

    /** The constructor proper, for a legal direction; Create models the
        direction check that throws. */
    constructor (pair: CurrencyPair, direction: TradeActionType, entryPrice: real, quantity: real, openedAt: Timestamp)
      requires IsDirection(direction)
      ensures View() == NewPosition(pair, direction, entryPrice, quantity, openedAt).value
    {
      this.pair := pair;
      this.direction := direction;
      this.entryPrice := entryPrice;
      this.quantity := quantity;
      this.openedAt := openedAt;
      this.closedAt := None;
      this.exitPrice := None;
    }

    static method Create(pair: CurrencyPair, direction: TradeActionType, entryPrice: real, quantity: real, openedAt: Timestamp)
      returns (r: Result<TradePosition, TradingError>)
      ensures r.Failure? <==> NewPosition(pair, direction, entryPrice, quantity, openedAt).Failure?
      ensures r.Failure? ==> r.error == InvalidDirection
      ensures r.Success? ==> fresh(r.value) && r.value.View() == NewPosition(pair, direction, entryPrice, quantity, openedAt).value
    {
      if !IsDirection(direction) {
        return Failure(InvalidDirection);
      }
      var p := new TradePosition(pair, direction, entryPrice, quantity, openedAt);
      return Success(p);
    }

    function UnrealizedPnL(currentPrice: real): real
      reads this
    {
      View().UnrealizedPnL(currentPrice)
    }

    function RealizedPnL(): Option<real>
      reads this
    {
      View().RealizedPnL()
    }

    /** Records the exit; on an already closed position it fails and changes nothing. */
    method Close(exitPrice: real, closedAt: Timestamp) returns (outcome: Outcome<TradingError>)
      modifies this
      ensures old(View()).Close(exitPrice, closedAt).Failure? ==>
        outcome == Fail(AlreadyClosed) && View() == old(View())
      ensures old(View()).Close(exitPrice, closedAt).Success? ==>
        outcome == Pass && View() == old(View()).Close(exitPrice, closedAt).value
    {
      if this.closedAt.Some? {
        return Fail(AlreadyClosed);
      }
      this.exitPrice := Some(exitPrice);
      this.closedAt := Some(closedAt);
      return Pass;
    }
  }
}
