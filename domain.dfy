/**
 * The domain model: price movement, connection status and the per-symbol
 * stock aggregate with its derived change metrics.
 */
module Domain {

  /** Direction of a price change. */
  datatype PriceMovement = Up | Down | Unchanged

  /** Status of the WebSocket connection; `Error` carries a message. */
  datatype ConnectionStatus = Connected | Disconnected | Connecting | Error(message: string)

  /** A stock symbol with its latest and previous price and the stored movement. */
  datatype Stock = Stock(symbol: string, currentPrice: real, previousPrice: real, movement: PriceMovement)

  /** The derived `priceChange`: how far the price moved, signed. */
  function PriceChange(s: Stock): (r: real)
    ensures s.previousPrice + r == s.currentPrice
    ensures r > 0.0 <==> s.currentPrice > s.previousPrice
    ensures r == 0.0 <==> s.currentPrice == s.previousPrice
    ensures r < 0.0 <==> s.currentPrice < s.previousPrice
  {
    s.currentPrice - s.previousPrice
  }

  /**
   * The derived `priceChangePercent`: the change relative to the previous
   * price, times 100, and 0 when the previous price is 0 (no division then).
   */
  function PriceChangePercent(s: Stock): (r: real)
    ensures s.previousPrice == 0.0 ==> r == 0.0
  {
    if s.previousPrice != 0.0 then
      ((s.currentPrice - s.previousPrice) / s.previousPrice) * 100.0
    else
      0.0
  }

  /** With a non-zero previous price, the percentage times the previous price is a hundred times the change. */
  lemma PercentScalesChange(s: Stock)
    requires s.previousPrice != 0.0
    ensures PriceChangePercent(s) * s.previousPrice == PriceChange(s) * 100.0
  {
    var p := s.previousPrice;
    var d := s.currentPrice - s.previousPrice;
    calc {
      PriceChangePercent(s) * p;
      (d / p) * 100.0 * p;
      (d / p) * p * 100.0;
      { assert (d / p) * p == d; }
      d * 100.0;
    }
  }

  /** With a positive previous price, the percentage has the sign of the change. */
  lemma PercentHasSignOfChange(s: Stock)
    requires s.previousPrice > 0.0
    ensures PriceChangePercent(s) > 0.0 <==> PriceChange(s) > 0.0
    ensures PriceChangePercent(s) < 0.0 <==> PriceChange(s) < 0.0
    ensures PriceChangePercent(s) == 0.0 <==> PriceChange(s) == 0.0
  {
    var r := PriceChangePercent(s);
    var p := s.previousPrice;
    PercentScalesChange(s);
    if r > 0.0 {
      assert r * p > 0.0;
    } else if r < 0.0 {
      assert r * p < 0.0;
    }
  }

  /** Both derived metrics depend on the two prices only, not on the symbol or the stored movement. */
  lemma DerivedMetricsDependOnPricesOnly(a: Stock, b: Stock)
    requires a.currentPrice == b.currentPrice && a.previousPrice == b.previousPrice
    ensures PriceChange(a) == PriceChange(b)
    ensures PriceChangePercent(a) == PriceChangePercent(b)
  {
  }

  /** The values the mapper tests expect: (150, 100) and (100, 150). */
  lemma DerivedMetricsExamples()
    ensures PriceChange(Stock("AAPL", 150.0, 100.0, Up)) == 50.0
    ensures PriceChangePercent(Stock("AAPL", 150.0, 100.0, Up)) == 50.0
    ensures PriceChange(Stock("GOOG", 100.0, 150.0, Down)) == -50.0
    ensures PriceChangePercent(Stock("GOOG", 100.0, 150.0, Down)) == -100.0 / 3.0
    ensures PriceChangePercent(Stock("ZERO", 5.0, 0.0, Up)) == 0.0
  {
  }
}
