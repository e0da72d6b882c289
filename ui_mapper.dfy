/**
 * `DomainToUiMapper`: from domain stocks to the render-ready model. The
 * company name comes from a lookup that is not part of this model; it is
 * passed in as the function `companyName`.
 */
module UiMapper {
  import opened Domain
  import opened PriceFormat
  import opened Wrappers

  /** The presentation `StockUiModel` the mapper builds. */
  datatype StockUiModel = StockUiModel(
    symbol: string,
    companyName: string,
    price: string,
    priceValue: real,
    priceChange: real,
    priceChangePercent: real,
    movement: PriceMovement)

  /**
   * `toUi`: the symbol, its company name and the movement are carried over,
   * the numeric price is the current price, and the change metrics are the
   * stock's derived ones. The price text is described by `ToUiPriceText`.
   */
  function ToUi(stock: Stock, companyName: string -> string): (u: StockUiModel)
    ensures u.symbol == stock.symbol && u.companyName == companyName(stock.symbol)
    ensures u.movement == stock.movement
    ensures u.priceValue == stock.currentPrice
    ensures u.priceChange == PriceChange(stock) && u.priceChangePercent == PriceChangePercent(stock)
  {
    StockUiModel(
      stock.symbol,
      companyName(stock.symbol),
      FormatPrice(stock.currentPrice),
      stock.currentPrice,
      PriceChange(stock),
      PriceChangePercent(stock),
      stock.movement)
  }

  /**
   * The price text is "$", an optional minus sign, the whole part and exactly
   * two fraction digits, and it reads back as the current price rounded to
   * the cent.
   */
  lemma ToUiPriceText(stock: Stock, companyName: string -> string)
    ensures var text := ToUi(stock, companyName).price;
      && |text| >= 5 && text[0] == '$' && text[|text| - 3] == '.'
      && IsDigit(text[|text| - 2]) && IsDigit(text[|text| - 1])
      && ParsePrice(text) == Some(SignedCents(stock.currentPrice))
  {
    FormatThenParse(stock.currentPrice);
  }

  /** The change metrics of the mapper tests. */
  lemma ToUiExamples(companyName: string -> string)
    ensures var u := ToUi(Stock("AAPL", 150.0, 100.0, Up), companyName);
            u.priceChange == 50.0 && u.priceChangePercent == 50.0 && u.movement == Up
    ensures var u := ToUi(Stock("GOOG", 100.0, 150.0, Down), companyName);
            u.priceChange == -50.0 && u.priceChangePercent == -100.0 / 3.0 && u.movement == Down
  {
  }

  /** `toUiList`: the element-wise mapping, same length and same order. */
  function ToUiList(stocks: seq<Stock>, companyName: string -> string): (r: seq<StockUiModel>)
    ensures |r| == |stocks|
    ensures forall i :: 0 <= i < |stocks| ==> r[i] == ToUi(stocks[i], companyName)
  {
    seq(|stocks|, i requires 0 <= i < |stocks| => ToUi(stocks[i], companyName))
  }

  /** The symbols of a list of UI models, in order. */
  function UiSymbols(models: seq<StockUiModel>): (r: seq<string>)
    ensures |r| == |models|
    ensures forall i :: 0 <= i < |models| ==> r[i] == models[i].symbol
  {
    if models == [] then [] else [models[0].symbol] + UiSymbols(models[1..])
  }
}
