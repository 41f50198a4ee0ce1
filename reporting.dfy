/** The record of one backtest run: every signal, every completed trade and
    the final equity. */
module Reporting {
  import opened Domain
  import opened Portfolio

  /** The completed list after an outcome: a closed position is added, an
      open one ignored. */
  function WithOutcome(completed: seq<Position>, position: Position): (r: seq<Position>)
    ensures position.closedAt.Some? ==> r == completed + [position]
    ensures position.closedAt.None? ==> r == completed
    ensures (forall i :: 0 <= i < |completed| ==> completed[i].closedAt.Some?) ==>
      forall i :: 0 <= i < |r| ==> r[i].closedAt.Some?
  {
    if position.closedAt.Some? then completed + [position] else completed
  }

  function RealizedOrZero(p: Position): real {
    if p.RealizedPnL().Some? then p.RealizedPnL().value else 0.0
  }

  /** The report holds value copies of the completed positions: a position
      is recorded only once closed, and a closed position never changes. */
  class TradingReport {
    const initialCapital: real
    const targetProfit: real
    const targetHorizon: Duration
    const generatedAtUtc: Timestamp
    var signals: seq<TradeSignal>
    var completedPositions: seq<Position>
    var finalEquity: real

    /** `generatedAtUtc` is the clock reading the source takes at construction. */
    constructor (initialCapital: real, targetProfit: real, horizon: Duration, generatedAtUtc: Timestamp)
      ensures this.initialCapital == initialCapital && this.targetProfit == targetProfit
      ensures targetHorizon == horizon && this.generatedAtUtc == generatedAtUtc
      ensures signals == [] && completedPositions == [] && finalEquity == 0.0
    {
      this.initialCapital := initialCapital;
      this.targetProfit := targetProfit;
      targetHorizon := horizon;
      this.generatedAtUtc := generatedAtUtc;
      signals := [];
      completedPositions := [];
      finalEquity := 0.0;
    }

    predicate ProfitTargetAchieved()
      reads this
    {
      finalEquity - initialCapital >= targetProfit
    }

    function TotalRealizedProfit(): real
      reads this
    {
      SumBy(completedPositions, RealizedOrZero)
    }

    method RecordSignal(signal: TradeSignal)
      modifies this
      ensures signals == old(signals) + [signal]
      ensures completedPositions == old(completedPositions) && finalEquity == old(finalEquity)
    {
      signals := signals + [signal];
    }

    /** Adds a copy of the position if it is closed; ignores an open one. */
    method RecordPositionOutcome(position: TradePosition)
      modifies this
      ensures completedPositions == WithOutcome(old(completedPositions), position.View())
      ensures position.closedAt.Some? ==> TotalRealizedProfit() == old(TotalRealizedProfit()) + RealizedOrZero(position.View())
      ensures position.closedAt.None? ==> TotalRealizedProfit() == old(TotalRealizedProfit())
      ensures signals == old(signals) && finalEquity == old(finalEquity)
    {
      if position.closedAt.Some? {
        SumByAppend(completedPositions, position.View(), RealizedOrZero);
        completedPositions := completedPositions + [position.View()];
      }
    }

    method Complete(finalEquity: real)
      modifies this
      ensures this.finalEquity == finalEquity
      ensures ProfitTargetAchieved() <==> finalEquity - initialCapital >= targetProfit
      ensures signals == old(signals) && completedPositions == old(completedPositions)
    {
      this.finalEquity := finalEquity;
    }
  }
}
