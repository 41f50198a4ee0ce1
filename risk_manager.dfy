/** Position sizing from cash and a risk fraction. */
module Risk {
  import opened Numbers

  /** Prices below this are sized as if they were this, so the division in
      CalculatePositionSize never divides by zero. */
  const MinimumPrice: real := 0.0001

  function EffectivePrice(price: real): (p: real)
    ensures p >= MinimumPrice && p >= price
    ensures price >= MinimumPrice ==> p == price
    ensures price < MinimumPrice ==> p == MinimumPrice
  {
    Max(MinimumPrice, price)
  }

  /** The quantity to trade: the capital at risk divided by the price, never
      negative, and nothing at all without capital. */
  function CalculatePositionSize(availableCapital: real, price: real, riskPerTrade: real): (q: real)
    ensures q >= 0.0
    ensures availableCapital <= 0.0 ==> q == 0.0
    ensures availableCapital > 0.0 && riskPerTrade >= 0.0 ==>
      q * EffectivePrice(price) == availableCapital * riskPerTrade
    ensures availableCapital > 0.0 && riskPerTrade <= 0.0 ==> q == 0.0
  {
    if availableCapital <= 0.0 then 0.0
    else
      var capitalAtRisk := availableCapital * riskPerTrade;
      var p := EffectivePrice(price);
      if capitalAtRisk >= 0.0 then
        assert capitalAtRisk / p >= 0.0;
        capitalAtRisk / p
      else
        assert capitalAtRisk / p < 0.0;
        Max(0.0, capitalAtRisk / p)
  }

  lemma DivisionIsMonotone(x: real, y: real, d: real)
    requires x <= y && d > 0.0
    ensures x / d <= y / d
  {
    assert y / d - x / d == (y - x) / d;
  }

  /** More capital never buys less. */
  lemma SizeGrowsWithCapital(c1: real, c2: real, price: real, riskPerTrade: real)
    requires c1 <= c2 && riskPerTrade >= 0.0
    ensures CalculatePositionSize(c1, price, riskPerTrade) <= CalculatePositionSize(c2, price, riskPerTrade)
  {
    if c1 > 0.0 {
      var p := EffectivePrice(price);
      var q1, q2 := CalculatePositionSize(c1, price, riskPerTrade), CalculatePositionSize(c2, price, riskPerTrade);
      assert q1 == (c1 * riskPerTrade) / p;
      assert q2 == (c2 * riskPerTrade) / p;
      assert c1 * riskPerTrade <= c2 * riskPerTrade;
      DivisionIsMonotone(c1 * riskPerTrade, c2 * riskPerTrade, p);
    }
  }

  /** A higher price never buys more. */
  lemma SizeShrinksWithPrice(capital: real, p1: real, p2: real, riskPerTrade: real)
    requires capital > 0.0 && riskPerTrade >= 0.0 && p1 <= p2
    ensures CalculatePositionSize(capital, p1, riskPerTrade) >= CalculatePositionSize(capital, p2, riskPerTrade)
  {
    var e1, e2 := EffectivePrice(p1), EffectivePrice(p2);
    var q1, q2 := CalculatePositionSize(capital, p1, riskPerTrade), CalculatePositionSize(capital, p2, riskPerTrade);
    assert e1 <= e2;
    assert q1 * e1 == q2 * e2;
    if q1 < q2 {
      assert q1 * e1 < q2 * e1;
      assert q2 * e1 <= q2 * e2;
    }
  }

  /** With a risk fraction of at most one and a price at or above the
      minimum, the sized order costs no more than the capital. */
  lemma SizedOrderIsAffordable(capital: real, price: real, riskPerTrade: real)
    requires capital > 0.0 && 0.0 <= riskPerTrade <= 1.0 && price >= MinimumPrice
    ensures CalculatePositionSize(capital, price, riskPerTrade) * price <= capital
  {
    assert capital * riskPerTrade <= capital * 1.0;
  }
}
