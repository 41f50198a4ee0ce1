/** The in-memory market data source: stored candles per pair, queried by
    time range and returned in timestamp order. */
module MarketData {
  import opened Domain

  predicate SortedByTime(candles: seq<HistoricalCandle>) {
    forall i, j :: 0 <= i < j < |candles| ==> candles[i].timestamp <= candles[j].timestamp
  }

  /** `c` placed before the first candle that is not earlier than it. */
  function Insert(c: HistoricalCandle, sorted: seq<HistoricalCandle>): (r: seq<HistoricalCandle>)
    requires SortedByTime(sorted)
    ensures SortedByTime(r)
    ensures multiset(r) == multiset(sorted) + multiset{c}
    ensures |r| == |sorted| + 1
    ensures |sorted| > 0 && c.timestamp <= sorted[0].timestamp ==> r == [c] + sorted
    ensures |r| > 0 && (r[0] == c || (|sorted| > 0 && r[0] == sorted[0]))
    decreases |sorted|
  {
    if |sorted| == 0 then [c]
    else if c.timestamp <= sorted[0].timestamp then [c] + sorted
    else
      var rest := Insert(c, sorted[1..]);
      assert sorted == [sorted[0]] + sorted[1..];
      [sorted[0]] + rest
  }

  /** A sort on timestamps, by insertion. */
  function SortByTimestamp(candles: seq<HistoricalCandle>): (r: seq<HistoricalCandle>)
    ensures SortedByTime(r)
    ensures multiset(r) == multiset(candles)
    ensures |r| == |candles|
    decreases |candles|
  {
    if |candles| == 0 then []
    else
      assert candles == [candles[0]] + candles[1..];
      Insert(candles[0], SortByTimestamp(candles[1..]))
  }

  /** Sorting what is already in order changes nothing. */
  lemma {:induction false} SortKeepsSorted(candles: seq<HistoricalCandle>)
    requires SortedByTime(candles)
    ensures SortByTimestamp(candles) == candles
    decreases |candles|
  {
    if |candles| > 0 {
      var tail := candles[1..];
      assert SortedByTime(tail);
      SortKeepsSorted(tail);
      assert SortByTimestamp(candles) == Insert(candles[0], tail);
      if |tail| > 0 {
        assert candles[0].timestamp <= tail[0].timestamp;
      }
      assert candles == [candles[0]] + tail;
    }
  }

  predicate InRange(c: HistoricalCandle, start: Timestamp, end: Timestamp) {
    start <= c.timestamp <= end
  }

  /** The candles with start <= timestamp <= end, in their stored order. */
  function Filter(candles: seq<HistoricalCandle>, start: Timestamp, end: Timestamp): (r: seq<HistoricalCandle>)
    ensures forall i :: 0 <= i < |r| ==> InRange(r[i], start, end)
    ensures forall c :: multiset(r)[c] == if InRange(c, start, end) then multiset(candles)[c] else 0
    decreases |candles|
  {
    if |candles| == 0 then []
    else
      assert candles == [candles[0]] + candles[1..];
      var rest := Filter(candles[1..], start, end);
      if InRange(candles[0], start, end) then [candles[0]] + rest else rest
  }

  /** When every stored candle is in range, filtering keeps them all. */
  lemma {:induction false} FilterKeepsAll(candles: seq<HistoricalCandle>, start: Timestamp, end: Timestamp)
    requires forall i :: 0 <= i < |candles| ==> InRange(candles[i], start, end)
    ensures Filter(candles, start, end) == candles
    decreases |candles|
  {
    if |candles| > 0 {
      FilterKeepsAll(candles[1..], start, end);
      assert candles == [candles[0]] + candles[1..];
    }
  }

  datatype InMemoryMarketDataSource = InMemoryMarketDataSource(data: map<CurrencyPair, seq<HistoricalCandle>>) {

    /** The single-pair constructor: the candles are stored sorted. */
    static function FromCandles(candles: seq<HistoricalCandle>, pair: CurrencyPair): (source: InMemoryMarketDataSource)
      ensures source.data.Keys == {pair}
      ensures SortedByTime(source.data[pair]) && multiset(source.data[pair]) == multiset(candles)
    {
      InMemoryMarketDataSource(map[pair := SortByTimestamp(candles)])
    }

    /** The stored candles of `pair` inside [start, end], in timestamp order;
        none for a pair that is not stored. */
    function GetHistoricalData(pair: CurrencyPair, start: Timestamp, end: Timestamp): (r: seq<HistoricalCandle>)
      ensures pair !in data ==> r == []
      ensures forall i :: 0 <= i < |r| ==> InRange(r[i], start, end)
      ensures SortedByTime(r)
      ensures pair in data ==>
        forall c :: multiset(r)[c] == if InRange(c, start, end) then multiset(data[pair])[c] else 0
    {
      if pair !in data then []
      else
        var kept := Filter(data[pair], start, end);
        var sorted := SortByTimestamp(kept);
        assert forall i :: 0 <= i < |sorted| ==> sorted[i] in multiset(kept);
        sorted
    }
  }

  /** Candles stored in order and queried over their own time span come
      back unchanged. */
  lemma QueryOverOwnSpan(source: InMemoryMarketDataSource, pair: CurrencyPair)
    requires pair in source.data && |source.data[pair]| > 0
    requires SortedByTime(source.data[pair])
    ensures var stored := source.data[pair];
      source.GetHistoricalData(pair, stored[0].timestamp, stored[|stored| - 1].timestamp) == stored
  {
    var stored := source.data[pair];
    var start, end := stored[0].timestamp, stored[|stored| - 1].timestamp;
    assert forall i :: 0 <= i < |stored| ==> InRange(stored[i], start, end);
    FilterKeepsAll(stored, start, end);
    SortKeepsSorted(stored);
  }
}
