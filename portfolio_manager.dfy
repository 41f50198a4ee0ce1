/** The simulated trading account: cash plus the list of positions, with at
    most one open position per currency pair. */
module Portfolio {
  import opened Wrappers
  import opened Domain

  /** The value of the account at one moment. */
  datatype Account = Account(cash: real, positions: seq<Position>)

  predicate IsOpenFor(p: Position, pair: CurrencyPair) {
    p.pair == pair && p.IsOpen()
  }

  /** The index of the last open position for `pair`, if there is one. */
  function OpenIndex(positions: seq<Position>, pair: CurrencyPair): (r: Option<nat>)
    ensures r.Some? ==> r.value < |positions| && IsOpenFor(positions[r.value], pair)
    ensures r.Some? ==> forall j :: r.value < j < |positions| ==> !IsOpenFor(positions[j], pair)
    ensures r.None? <==> forall j :: 0 <= j < |positions| ==> !IsOpenFor(positions[j], pair)
    decreases |positions|
  {
    if |positions| == 0 then None
    else if IsOpenFor(positions[|positions| - 1], pair) then Some(|positions| - 1)
    else OpenIndex(positions[..|positions| - 1], pair)
  }

  /** Every position is long or short, and has an exit price exactly when it
      has a closing time. */
  predicate WellFormed(p: Position) {
    IsDirection(p.direction) && (p.closedAt.Some? <==> p.exitPrice.Some?)
  }

  predicate AtMostOneOpenPerPair(positions: seq<Position>) {
    forall i, j :: 0 <= i < j < |positions| && positions[i].IsOpen() && positions[j].IsOpen() ==>
      positions[i].pair != positions[j].pair
  }

  predicate Consistent(a: Account) {
    && (forall i :: 0 <= i < |a.positions| ==> WellFormed(a.positions[i]))
    && AtMostOneOpenPerPair(a.positions)
  }

  // ---------------------------------------------------------------------
  // Sums over positions

  function SumBy(positions: seq<Position>, f: Position -> real): real
    decreases |positions|
  {
    if |positions| == 0 then 0.0
    else SumBy(positions[..|positions| - 1], f) + f(positions[|positions| - 1])
  }

  lemma SumByAppend(positions: seq<Position>, x: Position, f: Position -> real)
    ensures SumBy(positions + [x], f) == SumBy(positions, f) + f(x)
  {
    assert (positions + [x])[..|positions|] == positions;
  }

  lemma {:induction false} SumByUpdate(positions: seq<Position>, i: nat, x: Position, f: Position -> real)
    requires i < |positions|
    ensures SumBy(positions[i := x], f) == SumBy(positions, f) - f(positions[i]) + f(x)
    decreases |positions|
  {
    var n := |positions| - 1;
    if i == n {
      assert positions[i := x][..n] == positions[..n];
    } else {
      assert positions[i := x][..n] == positions[..n][i := x];
      SumByUpdate(positions[..n], i, x, f);
    }
  }

  lemma {:induction false} SumByAgree(positions: seq<Position>, f: Position -> real, g: Position -> real)
    requires forall i :: 0 <= i < |positions| ==> f(positions[i]) == g(positions[i])
    ensures SumBy(positions, f) == SumBy(positions, g)
    decreases |positions|
  {
    if |positions| > 0 {
      SumByAgree(positions[..|positions| - 1], f, g);
    }
  }

  /** Profit locked in by a closed position; nothing for an open one. */
  function RealizedOf(p: Position): real {
    if p.closedAt.Some? && p.RealizedPnL().Some? then p.RealizedPnL().value else 0.0
  }

  /** The signed cash an open position tied up at entry: paid for a long
      position, received for a short one. */
  function OpenCostOf(p: Position): real {
    if !p.IsOpen() then 0.0
    else if p.direction == Buy then p.entryPrice * p.quantity
    else -(p.entryPrice * p.quantity)
  }

  /** The signed value of an open position at the known market price of its
      pair; nothing when the position is closed or its pair has no price. */
  function MarketValueOf(p: Position, marketPrices: map<CurrencyPair, real>): real {
    if !p.IsOpen() || p.pair !in marketPrices then 0.0
    else if p.direction == Buy then marketPrices[p.pair] * p.quantity
    else -(marketPrices[p.pair] * p.quantity)
  }

  function RealizedTotal(positions: seq<Position>): real {
    SumBy(positions, RealizedOf)
  }

  function OpenCost(positions: seq<Position>): real {
    SumBy(positions, OpenCostOf)
  }

  function Equity(a: Account, marketPrices: map<CurrencyPair, real>): real {
    a.cash + SumBy(a.positions, p => MarketValueOf(p, marketPrices))
  }

  /** The cash of an account that started with `initialCapital`: every open
      position accounts for what it cost, every closed one for its profit. */
  predicate Balanced(initialCapital: real, a: Account) {
    a.cash == initialCapital + RealizedTotal(a.positions) - OpenCost(a.positions)
  }

  // ---------------------------------------------------------------------
  // Opening and closing, on values

  /** Whether a Buy of `quantity` at the signal's price costs more than the cash. */
  predicate NeedsScaling(a: Account, signal: TradeSignal, quantity: real) {
    signal.action == Buy && signal.price * quantity > a.cash
  }

  /** The quantity actually traded: a Buy that costs more than the cash is
      cut down to what the cash pays for. */
  function TradedQuantity(a: Account, signal: TradeSignal, quantity: real): real
    requires NeedsScaling(a, signal, quantity) ==> signal.price != 0.0
  {
    if NeedsScaling(a, signal, quantity) then a.cash / signal.price else quantity
  }

  /** Whether OpenPosition refuses the order before pricing it. */
  predicate Refused(a: Account, signal: TradeSignal, quantity: real) {
    !IsDirection(signal.action) || quantity <= 0.0 || OpenIndex(a.positions, signal.pair).Some?
  }

  /** OpenPosition on the account's value: None when the order is refused,
      the new account when a position was opened, or the decimal division
      by a zero price that scaling a Buy can run into. */
  function OpenOn(a: Account, signal: TradeSignal, quantity: real): (r: Result<Option<Account>, TradingError>)
    ensures r.Failure? <==>
      !Refused(a, signal, quantity) && NeedsScaling(a, signal, quantity) && signal.price == 0.0
    ensures r.Failure? ==> r.error == DivideByZero
    ensures Refused(a, signal, quantity) ==> r == Success(None)
    ensures r.Success? && r.value.Some? ==>
      var b := r.value.value;
      var q := TradedQuantity(a, signal, quantity);
      && q > 0.0
      && |b.positions| == |a.positions| + 1
      && b.positions[..|a.positions|] == a.positions
      && b.positions[|a.positions|] == Position(signal.pair, signal.action, signal.price, q, signal.timestamp, None, None)
      && (signal.action == Buy ==> b.cash == a.cash - signal.price * q && b.cash >= 0.0)
      && (signal.action == Sell ==> b.cash == a.cash + signal.price * q)
      && (NeedsScaling(a, signal, quantity) ==> b.cash == 0.0)
    ensures r.Success? && r.value.None? ==>
      Refused(a, signal, quantity) || TradedQuantity(a, signal, quantity) <= 0.0
  {
    if Refused(a, signal, quantity) then Success(None)
    else if NeedsScaling(a, signal, quantity) && signal.price == 0.0 then Failure(DivideByZero)
    else
      var q := TradedQuantity(a, signal, quantity);
      if q <= 0.0 then Success(None)
      else
        assert NeedsScaling(a, signal, quantity) ==> signal.price * q == a.cash;
        assert (a.positions + [OpenedPosition(signal, q)])[..|a.positions|] == a.positions;
        Success(Some(Opened(a, signal, q)))
  }

  /** The two outcomes of an order that passes the checks. */
  lemma OpenOnAccepted(a: Account, signal: TradeSignal, quantity: real)
    requires !Refused(a, signal, quantity) && !(NeedsScaling(a, signal, quantity) && signal.price == 0.0)
    ensures TradedQuantity(a, signal, quantity) <= 0.0 ==> OpenOn(a, signal, quantity) == Success(None)
    ensures TradedQuantity(a, signal, quantity) > 0.0 ==>
      OpenOn(a, signal, quantity) == Success(Some(Opened(a, signal, TradedQuantity(a, signal, quantity))))
  {
  }

  /** The position a signal opens for quantity `q`. */
  function OpenedPosition(signal: TradeSignal, q: real): Position {
    Position(signal.pair, signal.action, signal.price, q, signal.timestamp, None, None)
  }

  /** The account after opening `q` at the signal's price: a Buy pays, a
      Sell receives. */
  function Opened(a: Account, signal: TradeSignal, q: real): Account {
    var cost := signal.price * q;
    var cash := if signal.action == Buy then a.cash - cost else a.cash + cost;
    Account(cash, a.positions + [OpenedPosition(signal, q)])
  }

  /** ClosePosition on the account's value: None for a signal that is not
      Close or a pair without an open position; otherwise the account with
      that position closed at the signal's price and time and the proceeds
      settled. */
  function CloseOn(a: Account, signal: TradeSignal): (r: Option<Account>)
    ensures r.None? <==> signal.action != Close || OpenIndex(a.positions, signal.pair).None?
    ensures r.Some? ==>
      var i := OpenIndex(a.positions, signal.pair).value;
      var p := a.positions[i];
      var b := r.value;
      && p.Close(signal.price, signal.timestamp).Success?
      && b.positions == a.positions[i := p.Close(signal.price, signal.timestamp).value]
      && (p.direction == Buy ==> b.cash == a.cash + signal.price * p.quantity)
      && (p.direction != Buy ==> b.cash == a.cash - signal.price * p.quantity)
  {
    if signal.action != Close then None
    else
      match OpenIndex(a.positions, signal.pair)
      case None => None
      case Some(i) => Some(Settled(a, i, signal))
  }

  /** The account after closing position `i` at the signal's price and time:
      a long position's proceeds are received, a short one's paid. */
  function Settled(a: Account, i: nat, signal: TradeSignal): Account
    requires i < |a.positions| && a.positions[i].IsOpen()
  {
    var p := a.positions[i];
    var proceeds := signal.price * p.quantity;
    var cash := if p.direction == Buy then a.cash + proceeds else a.cash - proceeds;
    Account(cash, a.positions[i := p.Close(signal.price, signal.timestamp).value])
  }

  // ---------------------------------------------------------------------
  // What opening and closing preserve

  lemma OpenKeepsConsistent(a: Account, signal: TradeSignal, quantity: real)
    requires Consistent(a)
    requires OpenOn(a, signal, quantity).Success? && OpenOn(a, signal, quantity).value.Some?
    ensures Consistent(OpenOn(a, signal, quantity).value.value)
  {
    var b := OpenOn(a, signal, quantity).value.value;
    var n := |a.positions|;
    assert b.positions == a.positions + [b.positions[n]] by {
      assert b.positions == b.positions[..n] + [b.positions[n]];
    }
    forall i, j | 0 <= i < j < |b.positions| && b.positions[i].IsOpen() && b.positions[j].IsOpen()
      ensures b.positions[i].pair != b.positions[j].pair
    {
      if j == n {
        assert !IsOpenFor(a.positions[i], signal.pair);
      }
    }
  }

  lemma CloseKeepsConsistent(a: Account, signal: TradeSignal)
    requires Consistent(a)
    requires CloseOn(a, signal).Some?
    ensures Consistent(CloseOn(a, signal).value)
  {
    var i := OpenIndex(a.positions, signal.pair).value;
    var b := CloseOn(a, signal).value;
    assert forall j :: 0 <= j < |b.positions| && j != i ==> b.positions[j] == a.positions[j];
    assert !b.positions[i].IsOpen();
  }

  lemma OpenKeepsBalance(initialCapital: real, a: Account, signal: TradeSignal, quantity: real)
    requires Balanced(initialCapital, a)
    requires OpenOn(a, signal, quantity).Success? && OpenOn(a, signal, quantity).value.Some?
    ensures Balanced(initialCapital, OpenOn(a, signal, quantity).value.value)
  {
    var b := OpenOn(a, signal, quantity).value.value;
    var n := |a.positions|;
    var p := b.positions[n];
    assert b.positions == a.positions + [p] by {
      assert b.positions == b.positions[..n] + [p];
    }
    SumByAppend(a.positions, p, RealizedOf);
    SumByAppend(a.positions, p, OpenCostOf);
    assert RealizedOf(p) == 0.0;
  }

  /** Closing a position takes its entry cost out of the open cost. */
  lemma CloseReleasesCost(a: Account, signal: TradeSignal)
    requires CloseOn(a, signal).Some?
    ensures var p := a.positions[OpenIndex(a.positions, signal.pair).value];
      OpenCost(CloseOn(a, signal).value.positions) == OpenCost(a.positions) - OpenCostOf(p)
  {
    var i := OpenIndex(a.positions, signal.pair).value;
    var closed := a.positions[i].Close(signal.price, signal.timestamp).value;
    SumByUpdate(a.positions, i, closed, OpenCostOf);
  }

  lemma CloseKeepsBalance(initialCapital: real, a: Account, signal: TradeSignal)
    requires Balanced(initialCapital, a)
    requires CloseOn(a, signal).Some?
    ensures Balanced(initialCapital, CloseOn(a, signal).value)
  {
    var p := a.positions[OpenIndex(a.positions, signal.pair).value];
    var b := CloseOn(a, signal).value;
    var price, e, q := signal.price, p.entryPrice, p.quantity;
    CloseRealizesProfit(a, signal);
    CloseReleasesCost(a, signal);
    if p.direction == Buy {
      assert (price - e) * q + e * q == price * q;
    } else {
      assert (e - price) * q - e * q == -(price * q);
    }
  }

  /** The invariant of a PortfolioManager: well-formed positions, at most one
      open position per pair, and cash that balances. */
  predicate Sound(initialCapital: real, a: Account) {
    Consistent(a) && Balanced(initialCapital, a)
  }

  /** An order the portfolio receives. */
  datatype Order = OpenOrder(signal: TradeSignal, quantity: real) | CloseOrder(signal: TradeSignal)

  /** One order applied to the account; a refused order changes nothing. */
  function Step(a: Account, order: Order): Result<Account, TradingError> {
    match order
    case OpenOrder(signal, quantity) =>
      (match OpenOn(a, signal, quantity)
       case Failure(e) => Failure(e)
       case Success(None) => Success(a)
       case Success(Some(b)) => Success(b))
    case CloseOrder(signal) =>
      (match CloseOn(a, signal)
       case None => Success(a)
       case Some(b) => Success(b))
  }

  /** A sequence of orders, stopping at the first error. */
  function Apply(a: Account, orders: seq<Order>): Result<Account, TradingError>
    decreases |orders|
  {
    if |orders| == 0 then Success(a)
    else
      match Step(a, orders[0])
      case Failure(e) => Failure(e)
      case Success(b) => Apply(b, orders[1..])
  }

  /** Whatever orders arrive, a sound account stays sound: in particular no
      pair ever has two open positions. */
  lemma {:induction false} OrdersKeepSound(initialCapital: real, a: Account, orders: seq<Order>)
    requires Sound(initialCapital, a)
    requires Apply(a, orders).Success?
    ensures Sound(initialCapital, Apply(a, orders).value)
    ensures AtMostOneOpenPerPair(Apply(a, orders).value.positions)
    decreases |orders|
  {
    if |orders| > 0 {
      var b := Step(a, orders[0]).value;
      match orders[0] {
        case OpenOrder(signal, quantity) =>
          if OpenOn(a, signal, quantity).value.Some? {
            OpenKeepsConsistent(a, signal, quantity);
            OpenKeepsBalance(initialCapital, a, signal, quantity);
          }
        case CloseOrder(signal) =>
          if CloseOn(a, signal).Some? {
            CloseKeepsConsistent(a, signal);
            CloseKeepsBalance(initialCapital, a, signal);
          }
      }
      OrdersKeepSound(initialCapital, b, orders[1..]);
    }
  }

  /** Opening a position and closing it at the same price gives back exactly
      the cash it started with, whether the order was scaled down or not. */
  lemma OpenThenCloseRestoresCash(a: Account, signal: TradeSignal, quantity: real, exit: TradeSignal)
    requires OpenOn(a, signal, quantity).Success? && OpenOn(a, signal, quantity).value.Some?
    requires exit.action == Close && exit.pair == signal.pair && exit.price == signal.price
    ensures CloseOn(OpenOn(a, signal, quantity).value.value, exit).Some?
    ensures CloseOn(OpenOn(a, signal, quantity).value.value, exit).value.cash == a.cash
  {
    var b := OpenOn(a, signal, quantity).value.value;
    var n := |a.positions|;
    assert IsOpenFor(b.positions[n], signal.pair);
    var i := OpenIndex(b.positions, signal.pair).value;
    assert i == n;
  }

  /** Without open positions there is nothing to mark to market. */
  lemma EquityWithoutOpenPositions(a: Account, marketPrices: map<CurrencyPair, real>)
    requires forall i :: 0 <= i < |a.positions| ==> !a.positions[i].IsOpen()
    ensures Equity(a, marketPrices) == a.cash
  {
    var f := p => MarketValueOf(p, marketPrices);
    SumByAgree(a.positions, f, p => 0.0);
    SumOfZero(a.positions);
  }

  lemma {:induction false} SumOfZero(positions: seq<Position>)
    ensures SumBy(positions, p => 0.0) == 0.0
    decreases |positions|
  {
    if |positions| > 0 {
      SumOfZero(positions[..|positions| - 1]);
    }
  }

  /** Marked at their entry prices, the open positions are worth what they
      cost, so a balanced account's equity is the initial capital plus the
      realized profit. */
  lemma EquityAtEntryPrices(initialCapital: real, a: Account, marketPrices: map<CurrencyPair, real>)
    requires Balanced(initialCapital, a)
    requires forall i :: 0 <= i < |a.positions| && a.positions[i].IsOpen() ==>
      a.positions[i].pair in marketPrices && marketPrices[a.positions[i].pair] == a.positions[i].entryPrice
    ensures Equity(a, marketPrices) == initialCapital + RealizedTotal(a.positions)
  {
    SumByAgree(a.positions, p => MarketValueOf(p, marketPrices), OpenCostOf);
  }

  /** Closing a position adds its profit at the exit price to the realized total. */
  lemma CloseRealizesProfit(a: Account, signal: TradeSignal)
    requires CloseOn(a, signal).Some?
    ensures var p := a.positions[OpenIndex(a.positions, signal.pair).value];
      RealizedTotal(CloseOn(a, signal).value.positions) == RealizedTotal(a.positions) + p.UnrealizedPnL(signal.price)
  {
    var i := OpenIndex(a.positions, signal.pair).value;
    var p := a.positions[i];
    var closed := p.Close(signal.price, signal.timestamp).value;
    SumByUpdate(a.positions, i, closed, RealizedOf);
  }

  // ---------------------------------------------------------------------
  // The account object

  /** The values the position objects hold, in order. */
  function Views(positions: seq<TradePosition>): (views: seq<Position>)
    reads positions
    ensures |views| == |positions|
    ensures forall i :: 0 <= i < |positions| ==> views[i] == positions[i].View()
  {
    seq(|positions|, i requires 0 <= i < |positions| reads positions => positions[i].View())
  }

  /** No position object is listed twice. */
  ghost predicate Distinct(positions: seq<TradePosition>) {
    forall i, j :: 0 <= i < j < |positions| ==> positions[i] != positions[j]
  }

  /** Cash and the list of positions, opened and closed by trade signals. */
  class PortfolioManager {
    const initialCapital: real
    var cash: real
    var positions: seq<TradePosition>

    function State(): Account
      reads this, positions
    {
      Account(cash, Views(positions))
    }

    /** Each position object is listed once, and the account's value is sound. */
    ghost predicate Valid()
      reads this, positions
    {
      Distinct(positions) && Sound(initialCapital, State())
    }

    constructor (initialCapital: real)
      ensures Valid()
      ensures this.initialCapital == initialCapital
      ensures State() == Account(initialCapital, []) && positions == []
    {
      this.initialCapital := initialCapital;
      cash := initialCapital;
      positions := [];
    }

    /** The last open position for `pair`, if there is one. */
    function GetOpenPosition(pair: CurrencyPair): (r: Option<TradePosition>)
      reads this, positions
      ensures r.None? <==> OpenIndex(State().positions, pair).None?
      ensures r.Some? ==> r.value == positions[OpenIndex(State().positions, pair).value]
    {
      match OpenIndex(State().positions, pair)
      case None => None
      case Some(i) => Some(positions[i])
    }

    /** Opens a position for a Buy or Sell signal, scaling a Buy down to the
        cash; returns None when the order is refused or scales to nothing. */
    method OpenPosition(signal: TradeSignal, quantity: real) returns (r: Result<Option<TradePosition>, TradingError>)
      requires Valid()
      modifies this
      ensures Valid()
      ensures OpenOn(old(State()), signal, quantity).Failure? ==>
        r == Failure(DivideByZero) && positions == old(positions) && State() == old(State())
      ensures OpenOn(old(State()), signal, quantity) == Success(None) ==>
        r == Success(None) && positions == old(positions) && State() == old(State())
      ensures OpenOn(old(State()), signal, quantity).Success? && OpenOn(old(State()), signal, quantity).value.Some? ==>
        && r.Success? && r.value.Some? && fresh(r.value.value)
        && positions == old(positions) + [r.value.value]
        && State() == OpenOn(old(State()), signal, quantity).value.value
    {
      ghost var before := State();
      if !IsDirection(signal.action) {
        return Success(None);
      }
      if quantity <= 0.0 {
        return Success(None);
      }
      if GetOpenPosition(signal.pair).Some? {
        return Success(None);
      }
      var q := quantity;
      var cost := signal.price * q;
      if signal.action == Buy && cost > cash {
        if signal.price == 0.0 {
          return Failure(DivideByZero);
        }
        q := cash / signal.price;
        cost := signal.price * q;
      }
      assert q == TradedQuantity(before, signal, quantity);
      OpenOnAccepted(before, signal, quantity);
      if q <= 0.0 {
        return Success(None);
      }
      var position := Record(signal, q, cost);
      OpenKeepsConsistent(before, signal, quantity);
      OpenKeepsBalance(initialCapital, before, signal, quantity);
      return Success(Some(position));
    }

    /** Debits (Buy) or credits (Sell) `cost` and appends a new open position. */
    method Record(signal: TradeSignal, q: real, cost: real) returns (position: TradePosition)
      requires Distinct(positions)
      requires IsDirection(signal.action) && cost == signal.price * q
      modifies this
      ensures fresh(position) && positions == old(positions) + [position] && Distinct(positions)
      ensures State() == Opened(old(State()), signal, q)
    {
      ghost var before := State();
      if signal.action == Buy {
        cash := cash - cost;
      } else {
        cash := cash + cost;
      }
      position := new TradePosition(signal.pair, signal.action, signal.price, q, signal.timestamp);
      assert position.View() == OpenedPosition(signal, q);
      positions := positions + [position];
      assert Views(positions) == Opened(before, signal, q).positions;
    }

    /** Closes the pair's open position on a Close signal and settles the
        proceeds; returns None and changes nothing otherwise. */
    method ClosePosition(signal: TradeSignal) returns (r: Option<TradePosition>)
      requires Valid()
      modifies this, positions
      ensures Valid()
      ensures positions == old(positions)
      ensures CloseOn(old(State()), signal).None? ==> r.None? && State() == old(State())
      ensures CloseOn(old(State()), signal).Some? ==>
        && r == Some(positions[OpenIndex(old(State()).positions, signal.pair).value])
        && State() == CloseOn(old(State()), signal).value
    {
      if signal.action != Close {
        return None;
      }
      var found := GetOpenPosition(signal.pair);
      if found.None? {
        return None;
      }
      ghost var before := State();
      ghost var i := OpenIndex(before.positions, signal.pair).value;
      assert CloseOn(before, signal) == Some(Settled(before, i, signal));
      var position := found.value;
      Settle(position, i, signal);
      CloseKeepsConsistent(before, signal);
      CloseKeepsBalance(initialCapital, before, signal);
      return Some(position);
    }

    /** Closes open position `i` at the signal's price and time and settles
        the proceeds in cash. */
    method Settle(position: TradePosition, ghost i: nat, signal: TradeSignal)
      requires Distinct(positions)
      requires i < |positions| && position == positions[i] && position.View().IsOpen()
      modifies this, positions
      ensures positions == old(positions)
      ensures State() == Settled(old(State()), i, signal)
    {
      ghost var before := State();
      ghost var after := Settled(before, i, signal);
      var outcome := position.Close(signal.price, signal.timestamp);
      assert outcome == Pass;
      var proceeds := signal.price * position.quantity;
      if position.direction == Buy {
        cash := cash + proceeds;
      } else {
        cash := cash - proceeds;
      }
      forall j | 0 <= j < |positions|
        ensures positions[j].View() == after.positions[j]
      {
        if j != i {
          assert positions[j] != position;
        }
      }
      assert Views(positions) == after.positions;
    }

    /** Cash plus the signed market value of every open position whose pair
        has a price; positions without one are skipped. */
    method CalculateEquity(marketPrices: map<CurrencyPair, real>) returns (equity: real)
      ensures equity == Equity(State(), marketPrices)
    {
      ghost var views := Views(positions);
      ghost var f := p => MarketValueOf(p, marketPrices);
      equity := cash;
      var i := 0;
      while i < |positions|
        invariant 0 <= i <= |positions|
        invariant equity == cash + SumBy(views[..i], f)
      {
        var position := positions[i];
        if position.closedAt.None? && position.pair in marketPrices {
          var marketValue := marketPrices[position.pair] * position.quantity;
          equity := equity + (if position.direction == Buy then marketValue else -marketValue);
        }
        assert views[..i + 1][..i] == views[..i];
        i := i + 1;
      }
      assert views[..i] == views;
    }

    /** The sum of the realized profits of the closed positions: what the
        cash has gained over the initial capital, once the cost still tied
        up in open positions is added back. */
    function TotalRealizedProfit(): (r: real)
      reads this, positions
      ensures Valid() ==> r == cash - initialCapital + OpenCost(State().positions)
    {
      RealizedTotal(State().positions)
    }
  }
}
