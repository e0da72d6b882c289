/**
 * `SortStocksByPriceUseCase`: Kotlin's `sortedByDescending { it.currentPrice }`,
 * a stable sort, modelled as an insertion sort over the list.
 */
module SortStocksUseCase {
  import opened Domain

  /** Prices never increase from left to right. */
  ghost predicate SortedDescending(s: seq<Stock>) {
    forall i, j :: 0 <= i < j < |s| ==> s[i].currentPrice >= s[j].currentPrice
  }

  /** The stocks of `s` whose price is exactly `p`, in their order in `s`. */
  function WithPrice(s: seq<Stock>, p: real): seq<Stock> {
    if s == [] then []
    else (if s[0].currentPrice == p then [s[0]] else []) + WithPrice(s[1..], p)
  }

  /**
   * Place `x` in front of the first stock whose price is not above its own,
   * so that `x` stays ahead of every stock of equal price that follows it.
   */
  function InsertByPrice(x: Stock, t: seq<Stock>): (r: seq<Stock>)
    ensures |r| == |t| + 1
  {
    if t == [] || x.currentPrice >= t[0].currentPrice then
      [x] + t
    else
      [t[0]] + InsertByPrice(x, t[1..])
  }

  /** Insertion adds `x` once and keeps every other stock. */
  lemma {:induction false} InsertIsPermutation(x: Stock, t: seq<Stock>)
    ensures multiset(InsertByPrice(x, t)) == multiset(t) + multiset{x}
  {
    if t != [] && x.currentPrice < t[0].currentPrice {
      InsertIsPermutation(x, t[1..]);
      assert t == [t[0]] + t[1..];
    }
  }

  /** The head after an insertion is the inserted stock or the old head. */
  lemma InsertHead(x: Stock, t: seq<Stock>)
    ensures InsertByPrice(x, t)[0] == x || (t != [] && InsertByPrice(x, t)[0] == t[0])
  {
  }

  /** Inserting into a descending list keeps it descending. */
  lemma {:induction false} InsertKeepsSorted(x: Stock, t: seq<Stock>)
    requires SortedDescending(t)
    ensures SortedDescending(InsertByPrice(x, t))
  {
    if t == [] || x.currentPrice >= t[0].currentPrice {
      assert forall j :: 0 <= j < |t| ==> t[0].currentPrice >= t[j].currentPrice;
    } else {
      var rest := InsertByPrice(x, t[1..]);
      InsertKeepsSorted(x, t[1..]);
      InsertHead(x, t[1..]);
      assert t[0].currentPrice >= rest[0].currentPrice;
      var r := [t[0]] + rest;
      forall i, j | 0 <= i < j < |r|
        ensures r[i].currentPrice >= r[j].currentPrice
      {
        if i == 0 {
          assert r[j] == rest[j - 1];
          assert rest[0].currentPrice >= rest[j - 1].currentPrice;
        } else {
          assert r[i] == rest[i - 1] && r[j] == rest[j - 1];
        }
      }
    }
  }

  /** `SortStocksByPriceUseCase.invoke`. */
  function SortByPriceDescending(stocks: seq<Stock>): (r: seq<Stock>)
    ensures |r| == |stocks|
  {
    if stocks == [] then []
    else InsertByPrice(stocks[0], SortByPriceDescending(stocks[1..]))
  }

  /** The sorted list is descending by price and holds the same stocks, each as often as before. */
  lemma {:induction false} SortIsOrderedPermutation(stocks: seq<Stock>)
    ensures multiset(SortByPriceDescending(stocks)) == multiset(stocks)
    ensures SortedDescending(SortByPriceDescending(stocks))
  {
    if stocks != [] {
      assert stocks == [stocks[0]] + stocks[1..];
      SortIsOrderedPermutation(stocks[1..]);
      InsertIsPermutation(stocks[0], SortByPriceDescending(stocks[1..]));
      InsertKeepsSorted(stocks[0], SortByPriceDescending(stocks[1..]));
    }
  }

  lemma {:induction false} InsertKeepsTies(x: Stock, t: seq<Stock>, p: real)
    ensures WithPrice(InsertByPrice(x, t), p) == WithPrice([x] + t, p)
  {
    if t != [] && x.currentPrice < t[0].currentPrice {
      var rest := InsertByPrice(x, t[1..]);
      var tail := WithPrice(t[1..], p);
      var tx := if t[0].currentPrice == p then [t[0]] else [];
      var xx := if x.currentPrice == p then [x] else [];
      assert InsertByPrice(x, t) == [t[0]] + rest;
      InsertKeepsTies(x, t[1..], p);
      WithPriceCons(x, t[1..], p);
      assert WithPrice(rest, p) == xx + tail;
      WithPriceCons(t[0], rest, p);
      assert WithPrice(InsertByPrice(x, t), p) == tx + (xx + tail);
      assert t == [t[0]] + t[1..];
      WithPriceCons(t[0], t[1..], p);
      WithPriceCons(x, t, p);
      assert WithPrice([x] + t, p) == xx + (tx + tail);
      assert xx == [] || tx == [];
    }
  }


  /** The stocks at price `p` of a list with a given head. */
  lemma WithPriceCons(a: Stock, s: seq<Stock>, p: real)
    ensures WithPrice([a] + s, p) == (if a.currentPrice == p then [a] else []) + WithPrice(s, p)
  {
    assert ([a] + s)[1..] == s;
  }



  /**
   * Stability: for every price, the stocks at that price appear in the
   * output in the same relative order as in the input.
   */
  lemma {:induction false} SortIsStable(stocks: seq<Stock>, p: real)
    ensures WithPrice(SortByPriceDescending(stocks), p) == WithPrice(stocks, p)
  {
    if stocks != [] {
      var sortedTail := SortByPriceDescending(stocks[1..]);
      InsertKeepsTies(stocks[0], sortedTail, p);
      SortIsStable(stocks[1..], p);
      assert ([stocks[0]] + sortedTail)[1..] == sortedTail;
    }
  }

  /** A list that is already in descending order comes back unchanged. */
  lemma {:induction false} SortedIsFixedPoint(stocks: seq<Stock>)
    requires SortedDescending(stocks)
    ensures SortByPriceDescending(stocks) == stocks
  {
    if stocks != [] {
      assert SortedDescending(stocks[1..]);
      SortedIsFixedPoint(stocks[1..]);
      assert stocks == [stocks[0]] + stocks[1..];
    }
  }

  /** Sorting twice is sorting once. */
  lemma SortIsIdempotent(stocks: seq<Stock>)
    ensures SortByPriceDescending(SortByPriceDescending(stocks)) == SortByPriceDescending(stocks)
  {
    SortIsOrderedPermutation(stocks);
    SortedIsFixedPoint(SortByPriceDescending(stocks));
  }

  /** When every price is the same, the input order is kept as it is. */
  lemma EqualPricesKeepOrder(stocks: seq<Stock>, p: real)
    requires forall i :: 0 <= i < |stocks| ==> stocks[i].currentPrice == p
    ensures SortByPriceDescending(stocks) == stocks
  {
    SortedIsFixedPoint(stocks);
  }

  /** Empty and one-element lists come back unchanged. */
  lemma ShortListsUnchanged(x: Stock)
    ensures SortByPriceDescending([]) == []
    ensures SortByPriceDescending([x]) == [x]
  {
    assert [x][1..] == [];
  }
}
