/** Classification of the trailing window of closes as rising, falling or flat. */
module TrendAnalysis {
  import opened Domain

  datatype MarketTrend = Sideways | Bullish | Bearish

  /** `steps` Newton iterations towards the square root of x, from y. */
  function NewtonSqrt(x: real, y: real, steps: nat): (r: real)
    requires x > 0.0 && y > 0.0
    ensures r > 0.0
    decreases steps
  {
    if steps == 0 then y
    else
      assert x / y > 0.0 by { assert (x / y) * y == x; }
      NewtonSqrt(x, (y + x / y) / 2.0, steps - 1)
  }

  /** The square root of the variance. The source calls the floating-point
      library; here it is a fixed number of Newton steps, which keeps the two
      facts the analysis relies on: zero at zero, positive on positive input. */
  function Sqrt(x: real): (r: real)
    ensures x == 0.0 ==> r == 0.0
    ensures x > 0.0 ==> r > 0.0
  {
    if x <= 0.0 then 0.0 else NewtonSqrt(x, x + 1.0, 20)
  }

  /** What Analyze returns and writes to its two out parameters. */
  datatype TrendReading = TrendReading(trend: MarketTrend, momentum: real, volatility: real)

  function Closes(candles: seq<HistoricalCandle>): seq<real> {
    seq(|candles|, i requires 0 <= i < |candles| => candles[i].close)
  }

  function Sum(xs: seq<real>): real {
    if |xs| == 0 then 0.0 else Sum(xs[..|xs| - 1]) + xs[|xs| - 1]
  }

  function Mean(xs: seq<real>): real
    requires |xs| > 0
  {
    Sum(xs) / (|xs| as real)
  }

  function TakeLast<T>(xs: seq<T>, n: nat): seq<T>
    requires n <= |xs|
  {
    xs[|xs| - n..]
  }

  /** The closes of the last `longWindow` candles. */
  function WindowCloses(candles: seq<HistoricalCandle>, longWindow: nat): seq<real>
    requires longWindow <= |candles|
  {
    Closes(TakeLast(candles, longWindow))
  }

  /** Mean of the last `shortWindow` values minus the mean of them all. */
  function Momentum(closes: seq<real>, shortWindow: nat): real
    requires 0 < shortWindow <= |closes|
  {
    Mean(TakeLast(closes, shortWindow)) - Mean(closes)
  }

  function SquaredDeviations(xs: seq<real>, m: real): seq<real> {
    seq(|xs|, i requires 0 <= i < |xs| => (xs[i] - m) * (xs[i] - m))
  }

  /** Population variance: the mean squared deviation from the mean. */
  function Variance(xs: seq<real>): (v: real)
    requires |xs| > 0
    ensures v >= 0.0
  {
    var m := Mean(xs);
    DeviationsNonNegative(xs, m);
    Mean(SquaredDeviations(xs, m))
  }

  /** Squared deviations from any value sum to a non-negative total. */
  lemma DeviationsNonNegative(xs: seq<real>, m: real)
    ensures Sum(SquaredDeviations(xs, m)) >= 0.0
  {
    var squares := SquaredDeviations(xs, m);
    forall i | 0 <= i < |squares|
      ensures squares[i] >= 0.0
    {
      SquareNonNegative(xs[i] - m);
    }
    SumAtLeast(squares, 0.0);
  }

  lemma SquareNonNegative(d: real)
    ensures d * d >= 0.0
  {
    if d < 0.0 {
      assert d * d == (-d) * (-d);
    }
  }

  /** The band around zero inside which momentum counts as no trend. */
  function Threshold(mean: real): (t: real)
    ensures mean >= 0.0 ==> t > 0.0
    ensures mean < 0.0 ==> t < 0.0
  {
    if mean == 0.0 then 0.0001 else 0.0005 * mean
  }

  /** Bullish above the band, Bearish below its negation, Sideways between. */
  function Classify(momentum: real, threshold: real): (t: MarketTrend)
    ensures t == Bullish <==> momentum > threshold
    ensures t == Bearish <==> momentum <= threshold && momentum < -threshold
    ensures threshold >= 0.0 ==> (t == Sideways <==> -threshold <= momentum <= threshold)
  {
    if momentum > threshold then Bullish
    else if momentum < -threshold then Bearish
    else Sideways
  }

  /** The inputs for which Analyze gives up and reports no trend. */
  predicate Fallback(count: int, shortWindow: int, longWindow: int) {
    count < longWindow || shortWindow <= 0 || longWindow <= 0 || shortWindow >= longWindow
  }

  datatype TrendAnalyzer = TrendAnalyzer {

    function Analyze(candles: seq<HistoricalCandle>, shortWindow: int, longWindow: int): (r: TrendReading)
      ensures Fallback(|candles|, shortWindow, longWindow) ==> r == TrendReading(Sideways, 0.0, 0.0)
      ensures r.volatility >= 0.0
      ensures !Fallback(|candles|, shortWindow, longWindow) ==>
        var closes := WindowCloses(candles, longWindow);
        && r.momentum == Momentum(closes, shortWindow)
        && r.trend == Classify(r.momentum, Threshold(Mean(closes)))
        && (r.volatility == 0.0 <==> Variance(closes) == 0.0)
    {
      if Fallback(|candles|, shortWindow, longWindow) then TrendReading(Sideways, 0.0, 0.0)
      else
        var closes := WindowCloses(candles, longWindow);
        var momentum := Momentum(closes, shortWindow);
        var mean := Mean(closes);
        var volatility := Sqrt(Variance(closes));
        TrendReading(Classify(momentum, Threshold(mean)), momentum, volatility)
    }
  }

  // ---------------------------------------------------------------------
  // Sums and means

  lemma {:induction false} SumSplit(xs: seq<real>, i: nat)
    requires i <= |xs|
    ensures Sum(xs) == Sum(xs[..i]) + Sum(xs[i..])
    decreases |xs|
  {
    if i == |xs| {
      assert xs[..i] == xs;
      assert xs[i..] == [];
    } else {
      var n := |xs|;
      SumSplit(xs[..n - 1], i);
      assert xs[..n - 1][..i] == xs[..i];
      assert xs[..n - 1][i..] == xs[i..][..|xs[i..]| - 1];
    }
  }

  lemma {:induction false} SumAtMost(xs: seq<real>, c: real)
    ensures (forall i :: 0 <= i < |xs| ==> xs[i] <= c) ==> Sum(xs) <= |xs| as real * c
    ensures |xs| > 0 && (forall i :: 0 <= i < |xs| ==> xs[i] < c) ==> Sum(xs) < |xs| as real * c
    decreases |xs|
  {
    if |xs| > 0 {
      var init := xs[..|xs| - 1];
      SumAtMost(init, c);
      assert forall i :: 0 <= i < |init| ==> init[i] == xs[i];
    }
  }

  lemma {:induction false} SumAtLeast(xs: seq<real>, c: real)
    ensures (forall i :: 0 <= i < |xs| ==> xs[i] >= c) ==> Sum(xs) >= |xs| as real * c
    ensures |xs| > 0 && (forall i :: 0 <= i < |xs| ==> xs[i] > c) ==> Sum(xs) > |xs| as real * c
    decreases |xs|
  {
    if |xs| > 0 {
      var init := xs[..|xs| - 1];
      SumAtLeast(init, c);
      assert forall i :: 0 <= i < |init| ==> init[i] == xs[i];
    }
  }

  /** Every value equal to c makes the mean c. */
  lemma MeanOfConstant(xs: seq<real>, c: real)
    requires |xs| > 0
    requires forall i :: 0 <= i < |xs| ==> xs[i] == c
    ensures Mean(xs) == c
  {
    SumAtMost(xs, c);
    SumAtLeast(xs, c);
  }

  predicate StrictlyIncreasing(xs: seq<real>) {
    forall i, j :: 0 <= i < j < |xs| ==> xs[i] < xs[j]
  }

  predicate StrictlyDecreasing(xs: seq<real>) {
    forall i, j :: 0 <= i < j < |xs| ==> xs[i] > xs[j]
  }

  lemma PositiveFactor(x: real, y: real)
    requires y > 0.0 && x * y > 0.0
    ensures x > 0.0
  {
  }

  /** The gap between the mean of the last k of n = a + k values and the
      mean of all n, scaled by k * n, is a * sb - k * sa, where sa and sb are
      the sums of the first a and the last k values. */
  lemma MeanGap(sa: real, sb: real, a: real, k: real)
    requires a > 0.0 && k > 0.0
    ensures (sb / k - (sa + sb) / (a + k)) * (k * (a + k)) == a * sb - k * sa
  {
    var n := a + k;
    var mb := sb / k;
    var m := (sa + sb) / n;
    assert mb * k == sb;
    assert m * n == sa + sb;
    calc {
      (mb - m) * (k * n);
      (mb * k) * n - (m * n) * k;
      sb * n - (sa + sb) * k;
      a * sb - k * sa;
    }
  }

  /** If the first a values lie strictly below a pivot and the last k values
      at or above it, the mean of the last k exceeds the mean of all. */
  lemma RisingMeans(sa: real, sb: real, a: real, k: real, pivot: real)
    requires a > 0.0 && k > 0.0
    requires sa < a * pivot && sb >= k * pivot
    ensures sb / k - (sa + sb) / (a + k) > 0.0
  {
    var u, v := sb - k * pivot, a * pivot - sa;
    assert a * sb - k * sa == a * u + k * v;
    assert a * u >= 0.0;
    assert k * v > 0.0;
    MeanGap(sa, sb, a, k);
    PositiveFactor(sb / k - (sa + sb) / (a + k), k * (a + k));
  }

  /** The mirror image of RisingMeans. */
  lemma FallingMeans(sa: real, sb: real, a: real, k: real, pivot: real)
    requires a > 0.0 && k > 0.0
    requires sa > a * pivot && sb <= k * pivot
    ensures sb / k - (sa + sb) / (a + k) < 0.0
  {
    var u, v := k * pivot - sb, sa - a * pivot;
    assert k * sa - a * sb == a * u + k * v;
    assert a * u >= 0.0;
    assert k * v > 0.0;
    MeanGap(sa, sb, a, k);
    PositiveFactor((sa + sb) / (a + k) - sb / k, k * (a + k));
  }

  /** Momentum written through the sums of the first a = |xs| - k values
      and of the last k values. */
  lemma MomentumFromSums(xs: seq<real>, k: nat)
    requires 0 < k < |xs|
    ensures var a := |xs| - k;
      Momentum(xs, k) == Sum(xs[a..]) / (k as real) - (Sum(xs[..a]) + Sum(xs[a..])) / ((a as real) + (k as real))
  {
    var a := |xs| - k;
    SumSplit(xs, a);
    assert TakeLast(xs, k) == xs[a..];
    assert (a as real) + (k as real) == |xs| as real;
  }

  /** With strictly rising values, the first a = |xs| - k values sum to less
      than a copies of xs[a], and the last k to at least k copies. */
  lemma RisingSplit(xs: seq<real>, k: nat)
    requires 0 < k < |xs|
    requires StrictlyIncreasing(xs)
    ensures var a := |xs| - k;
      Sum(xs[..a]) < (a as real) * xs[a] && Sum(xs[a..]) >= (k as real) * xs[a]
  {
    var a := |xs| - k;
    var front, back := xs[..a], xs[a..];
    forall i | 0 <= i < |front|
      ensures front[i] < xs[a]
    {
      assert front[i] == xs[i];
    }
    SumAtMost(front, xs[a]);
    forall j | 0 <= j < |back|
      ensures back[j] >= xs[a]
    {
      assert back[j] == xs[a + j];
    }
    SumAtLeast(back, xs[a]);
  }

  /** The mirror image of RisingSplit. */
  lemma FallingSplit(xs: seq<real>, k: nat)
    requires 0 < k < |xs|
    requires StrictlyDecreasing(xs)
    ensures var a := |xs| - k;
      Sum(xs[..a]) > (a as real) * xs[a] && Sum(xs[a..]) <= (k as real) * xs[a]
  {
    var a := |xs| - k;
    var front, back := xs[..a], xs[a..];
    forall i | 0 <= i < |front|
      ensures front[i] > xs[a]
    {
      assert front[i] == xs[i];
    }
    SumAtLeast(front, xs[a]);
    forall j | 0 <= j < |back|
      ensures back[j] <= xs[a]
    {
      assert back[j] == xs[a + j];
    }
    SumAtMost(back, xs[a]);
  }

  /** Strictly rising values have positive momentum. */
  lemma MomentumOfRising(xs: seq<real>, k: nat)
    requires 0 < k < |xs|
    requires StrictlyIncreasing(xs)
    ensures Momentum(xs, k) > 0.0
  {
    var a := |xs| - k;
    RisingSplit(xs, k);
    RisingMeans(Sum(xs[..a]), Sum(xs[a..]), a as real, k as real, xs[a]);
    MomentumFromSums(xs, k);
  }

  /** Strictly falling values have negative momentum. */
  lemma MomentumOfFalling(xs: seq<real>, k: nat)
    requires 0 < k < |xs|
    requires StrictlyDecreasing(xs)
    ensures Momentum(xs, k) < 0.0
  {
    var a := |xs| - k;
    FallingSplit(xs, k);
    FallingMeans(Sum(xs[..a]), Sum(xs[a..]), a as real, k as real, xs[a]);
    MomentumFromSums(xs, k);
  }

  // ---------------------------------------------------------------------
  // Properties of Analyze

  /** Only the closes of the last `longWindow` candles matter. */
  lemma TrailingWindowDecides(analyzer: TrendAnalyzer, c1: seq<HistoricalCandle>, c2: seq<HistoricalCandle>,
                              shortWindow: int, longWindow: nat)
    requires longWindow <= |c1| && longWindow <= |c2|
    requires WindowCloses(c1, longWindow) == WindowCloses(c2, longWindow)
    ensures analyzer.Analyze(c1, shortWindow, longWindow) == analyzer.Analyze(c2, shortWindow, longWindow)
  {
  }

  /** A strictly rising window has positive momentum; a falling one negative. */
  lemma AnalyzeMonotoneWindow(analyzer: TrendAnalyzer, candles: seq<HistoricalCandle>, shortWindow: int, longWindow: int)
    requires !Fallback(|candles|, shortWindow, longWindow)
    ensures StrictlyIncreasing(WindowCloses(candles, longWindow)) ==>
      analyzer.Analyze(candles, shortWindow, longWindow).momentum > 0.0
    ensures StrictlyDecreasing(WindowCloses(candles, longWindow)) ==>
      analyzer.Analyze(candles, shortWindow, longWindow).momentum < 0.0
  {
    var closes := WindowCloses(candles, longWindow);
    if StrictlyIncreasing(closes) {
      MomentumOfRising(closes, shortWindow);
    }
    if StrictlyDecreasing(closes) {
      MomentumOfFalling(closes, shortWindow);
    }
  }

  /** A window of equal non-negative closes reads as no trend, no momentum, no volatility. */
  lemma AnalyzeFlatWindow(analyzer: TrendAnalyzer, candles: seq<HistoricalCandle>, shortWindow: int, longWindow: int, c: real)
    requires c >= 0.0
    requires forall i :: 0 <= i < |candles| ==> candles[i].close == c
    ensures analyzer.Analyze(candles, shortWindow, longWindow) == TrendReading(Sideways, 0.0, 0.0)
  {
    if !Fallback(|candles|, shortWindow, longWindow) {
      var closes := WindowCloses(candles, longWindow);
      assert forall i :: 0 <= i < |closes| ==> closes[i] == c;
      MeanOfConstant(closes, c);
      var tail := TakeLast(closes, shortWindow);
      assert forall i :: 0 <= i < |tail| ==> tail[i] == c;
      MeanOfConstant(tail, c);
      var squares := SquaredDeviations(closes, Mean(closes));
      assert forall i :: 0 <= i < |squares| ==> squares[i] == 0.0;
      MeanOfConstant(squares, 0.0);
    }
  }

  const TicksPerDay: int := 864_000_000_000

  /** new DateTime(2024, 1, 1) in ticks. */
  const Year2024: Timestamp := 638_396_640_000_000_000

  /** The unit tests' candles: one per day from 2024-01-01, every price the close. */
  function TestCandles(closes: seq<real>): seq<HistoricalCandle> {
    seq(|closes|, i requires 0 <= i < |closes| =>
      HistoricalCandle(Year2024 + i * TicksPerDay, closes[i], closes[i], closes[i], closes[i], 1.0))
  }

  /** The rising series 1.0 .. 1.5 with windows 3 and 5 is Bullish. */
  lemma RisingTestSeriesIsBullish(analyzer: TrendAnalyzer)
    ensures var r := analyzer.Analyze(TestCandles([1.0, 1.1, 1.2, 1.3, 1.4, 1.5]), 3, 5);
      r.trend == Bullish && r.momentum > 0.0 && r.volatility >= 0.0
  {
    var candles := TestCandles([1.0, 1.1, 1.2, 1.3, 1.4, 1.5]);
    var closes := WindowCloses(candles, 5);
    assert closes == [1.1, 1.2, 1.3, 1.4, 1.5];
    assert Sum([1.1]) == 1.1;
    assert Sum([1.1, 1.2]) == 2.3;
    assert Sum([1.1, 1.2, 1.3]) == 3.6;
    assert [1.1, 1.2, 1.3, 1.4][..3] == [1.1, 1.2, 1.3];
    assert Sum([1.1, 1.2, 1.3, 1.4]) == 5.0;
    assert closes[..4] == [1.1, 1.2, 1.3, 1.4];
    assert Sum(closes) == 6.5;
    var tail := TakeLast(closes, 3);
    assert tail == [1.3, 1.4, 1.5];
    assert Sum([1.3]) == 1.3;
    assert Sum([1.3, 1.4]) == 2.7;
    assert tail[..2] == [1.3, 1.4];
    assert Sum(tail) == 4.2;
    assert Momentum(closes, 3) == 1.4 - 1.3;
  }

  /** The falling series 1.5 .. 1.0 with windows 3 and 5 is Bearish. */
  lemma FallingTestSeriesIsBearish(analyzer: TrendAnalyzer)
    ensures var r := analyzer.Analyze(TestCandles([1.5, 1.4, 1.3, 1.2, 1.1, 1.0]), 3, 5);
      r.trend == Bearish && r.momentum < 0.0
  {
    var candles := TestCandles([1.5, 1.4, 1.3, 1.2, 1.1, 1.0]);
    var closes := WindowCloses(candles, 5);
    assert closes == [1.4, 1.3, 1.2, 1.1, 1.0];
    assert Sum([1.4]) == 1.4;
    assert Sum([1.4, 1.3]) == 2.7;
    assert Sum([1.4, 1.3, 1.2]) == 3.9;
    assert [1.4, 1.3, 1.2, 1.1][..3] == [1.4, 1.3, 1.2];
    assert Sum([1.4, 1.3, 1.2, 1.1]) == 5.0;
    assert closes[..4] == [1.4, 1.3, 1.2, 1.1];
    assert Sum(closes) == 6.0;
    var tail := TakeLast(closes, 3);
    assert tail == [1.2, 1.1, 1.0];
    assert Sum([1.2]) == 1.2;
    assert Sum([1.2, 1.1]) == 2.3;
    assert tail[..2] == [1.2, 1.1];
    assert Sum(tail) == 3.3;
    assert Momentum(closes, 3) == 1.1 - 1.2;
  }
}
