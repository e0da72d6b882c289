/**
 * `PriceTrackerViewModel`: the reducer of the price tracker screen. Each
 * coroutine callback of the Kotlin class is one atomic method here: the start
 * prologue, one status collected from `connect`, a failed start, the stop, one
 * price update, a failed price stream, one observed status, and each intent.
 * `stocksMap` is a map plus the order in which its keys were first inserted,
 * as a Kotlin `mutableMapOf` keeps it.
 */
module PriceTracker {
  import opened Wrappers
  import opened Domain
  import opened UiMapper
  import opened UiState
  import opened SortStocksUseCase

  datatype PriceTrackerIntent =
    | StartPriceFeed
    | StopPriceFeed
    | PriceUpdateReceived(symbol: string, price: real, previousPrice: real)
    | ConnectionStatusChanged(isConnected: bool)
    | ErrorOccurred(message: string)

  /** How `disconnect` ended inside the stop coroutine: normally, or with an exception. */
  datatype StopOutcome = Stopped | StopFailed(message: Option<string>)

  /**
   * The stocks map as a linked hash map: its keys in first-insertion order,
   * without repetition, each key mapping to the stock of that symbol.
   */
  ghost predicate TableInv(order: seq<string>, table: map<string, Stock>) {
    && (forall i, j :: 0 <= i < j < |order| ==> order[i] != order[j])
    && (forall i :: 0 <= i < |order| ==> order[i] in table)
    && table.Keys == KeySet(order)
    && (forall k :: k in table ==> table[k].symbol == k)
  }

  /** The keys an insertion order lists. */
  ghost function KeySet(order: seq<string>): set<string> {
    if order == [] then {} else {order[0]} + KeySet(order[1..])
  }

  /** A key is listed exactly when it occurs in the order. */
  lemma {:induction false} KeySetIsElements(order: seq<string>)
    ensures forall k :: k in KeySet(order) <==> k in order
  {
    if order != [] {
      KeySetIsElements(order[1..]);
      assert forall k :: k in order <==> k == order[0] || k in order[1..];
    }
  }

  /** Appending a key adds it to the listed keys. */
  lemma {:induction false} KeySetAppend(order: seq<string>, k: string)
    ensures KeySet(order + [k]) == KeySet(order) + {k}
  {
    if order != [] {
      KeySetAppend(order[1..], k);
      assert (order + [k])[1..] == order[1..] + [k];
    }
  }

  /** `stocksMap.values.toList()`: the values in key insertion order. */
  function Values(order: seq<string>, table: map<string, Stock>): (r: seq<Stock>)
    requires forall i :: 0 <= i < |order| ==> order[i] in table
    ensures |r| == |order|
    ensures forall i :: 0 <= i < |order| ==> r[i] == table[order[i]]
  {
    seq(|order|, i requires 0 <= i < |order| => table[order[i]])
  }

  /** The published list: the values, stably sorted by price descending, mapped to UI models. */
  function Published(order: seq<string>, table: map<string, Stock>, companyName: string -> string): seq<StockUiModel>
    requires forall i :: 0 <= i < |order| ==> order[i] in table
  {
    ToUiList(SortByPriceDescending(Values(order, table)), companyName)
  }

  /**
   * `stocksMap[stock.symbol] = stock`: the new stock replaces the old one of
   * its symbol (last write wins); a new symbol goes to the end of the
   * insertion order, a known one keeps its place; no key is removed.
   */
  function Upsert(order: seq<string>, table: map<string, Stock>, stock: Stock): (r: (seq<string>, map<string, Stock>))
    ensures r.1.Keys == table.Keys + {stock.symbol}
    ensures r.1[stock.symbol] == stock
    ensures forall k :: k in table && k != stock.symbol ==> r.1[k] == table[k]
    ensures stock.symbol in order ==> r.0 == order
    ensures stock.symbol !in order ==> r.0 == order + [stock.symbol]
  {
    var newOrder := if stock.symbol in order then order else order + [stock.symbol];
    (newOrder, table[stock.symbol := stock])
  }

  /** Merging a stock keeps the stocks map a well-formed linked hash map. */
  lemma UpsertKeepsTableInv(order: seq<string>, table: map<string, Stock>, stock: Stock)
    requires TableInv(order, table)
    ensures TableInv(Upsert(order, table, stock).0, Upsert(order, table, stock).1)
  {
    KeySetIsElements(order);
    KeySetAppend(order, stock.symbol);
  }

  /** The symbols of a list of stocks, in order. */
  function Symbols(stocks: seq<Stock>): (r: seq<string>)
    ensures |r| == |stocks|
    ensures forall i :: 0 <= i < |stocks| ==> r[i] == stocks[i].symbol
  {
    if stocks == [] then [] else [stocks[0].symbol] + Symbols(stocks[1..])
  }

  /** Inserting a stock into a sorted list adds its symbol once and keeps every other symbol. */
  lemma {:induction false} InsertKeepsSymbols(x: Stock, t: seq<Stock>)
    ensures multiset(Symbols(InsertByPrice(x, t))) == multiset(Symbols(t)) + multiset{x.symbol}
  {
    if t == [] || x.currentPrice >= t[0].currentPrice {
      assert ([x] + t)[1..] == t;
    } else {
      var rest := InsertByPrice(x, t[1..]);
      InsertKeepsSymbols(x, t[1..]);
      assert ([t[0]] + rest)[1..] == rest;
    }
  }

  /** Sorting keeps the symbols with their multiplicities. */
  lemma {:induction false} SortKeepsSymbols(stocks: seq<Stock>)
    ensures multiset(Symbols(SortByPriceDescending(stocks))) == multiset(Symbols(stocks))
  {
    if stocks != [] {
      SortKeepsSymbols(stocks[1..]);
      InsertKeepsSymbols(stocks[0], SortByPriceDescending(stocks[1..]));
    }
  }

  /** A key that occurs once in a repetition-free list has multiplicity one. */
  lemma {:induction false} DistinctOccursOnce(order: seq<string>, k: string)
    requires forall i, j :: 0 <= i < j < |order| ==> order[i] != order[j]
    requires k in order
    ensures multiset(order)[k] == 1
  {
    assert order == [order[0]] + order[1..];
    if order[0] == k {
      assert k !in order[1..];
    } else {
      DistinctOccursOnce(order[1..], k);
    }
  }

  /** The values of a well-formed map, listed in insertion order, carry the keys as symbols. */
  lemma ValuesCarryKeys(order: seq<string>, table: map<string, Stock>)
    requires TableInv(order, table)
    ensures Symbols(Values(order, table)) == order
  {
  }

  /** The UI mapping keeps the symbols in place. */
  lemma UiListKeepsSymbols(stocks: seq<Stock>, companyName: string -> string)
    ensures UiSymbols(ToUiList(stocks, companyName)) == Symbols(stocks)
  {
  }

  /** The published symbols are the keys, each with its multiplicity in the insertion order. */
  lemma PublishedSymbols(order: seq<string>, table: map<string, Stock>, companyName: string -> string)
    requires TableInv(order, table)
    ensures multiset(UiSymbols(Published(order, table, companyName))) == multiset(order)
  {
    var values := Values(order, table);
    SortKeepsSymbols(values);
    ValuesCarryKeys(order, table);
    UiListKeepsSymbols(SortByPriceDescending(values), companyName);
  }

  /**
   * After every merge the published list has exactly one entry per symbol
   * of the stocks map, and no other entry.
   */
  lemma PublishedOncePerSymbol(order: seq<string>, table: map<string, Stock>, companyName: string -> string)
    requires TableInv(order, table)
    ensures |Published(order, table, companyName)| == |table|
    ensures forall k :: k in table ==> multiset(UiSymbols(Published(order, table, companyName)))[k] == 1
    ensures forall k :: k !in table ==> multiset(UiSymbols(Published(order, table, companyName)))[k] == 0
  {
    PublishedSymbols(order, table, companyName);
    KeySetIsElements(order);
    forall k | k in table
      ensures multiset(order)[k] == 1
    {
      DistinctOccursOnce(order, k);
    }
    DistinctKeysCount(order, table);
  }

  /** A repetition-free key order of a map has as many keys as the map. */
  lemma DistinctKeysCount(order: seq<string>, table: map<string, Stock>)
    requires TableInv(order, table)
    ensures |table| == |order|
  {
    var keys := set i | 0 <= i < |order| :: order[i];
    KeySetIsElements(order);
    assert keys == table.Keys;
    DistinctSetSize(order);
  }

  /** A repetition-free list has as many elements as its set of elements. */
  lemma {:induction false} DistinctSetSize(order: seq<string>)
    requires forall i, j :: 0 <= i < j < |order| ==> order[i] != order[j]
    ensures |set i | 0 <= i < |order| :: order[i]| == |order|
  {
    if order != [] {
      var n := |order| - 1;
      DistinctSetSize(order[..n]);
      var front := set i | 0 <= i < n :: order[..n][i];
      assert (set i | 0 <= i < |order| :: order[i]) == front + {order[n]};
      assert order[n] !in front;
    }
  }

  /** The published list is ordered by price, highest first. */
  lemma PublishedIsSorted(order: seq<string>, table: map<string, Stock>, companyName: string -> string)
    requires TableInv(order, table)
    ensures var p := Published(order, table, companyName);
      forall i, j :: 0 <= i < j < |p| ==> p[i].priceValue >= p[j].priceValue
  {
    SortIsOrderedPermutation(Values(order, table));
  }

  /** Stocks of equal price are published in the order their symbols were first inserted. */
  lemma TiesFollowInsertionOrder(order: seq<string>, table: map<string, Stock>, p: real)
    requires TableInv(order, table)
    ensures WithPrice(SortByPriceDescending(Values(order, table)), p) == WithPrice(Values(order, table), p)
  {
    SortIsStable(Values(order, table), p);
  }

  /**
   * The accumulation scenario: AAPL at 150, GOOG at 200, then AAPL at 160.
   * Two entries remain, in first-insertion order, and AAPL holds its last price.
   */
  lemma AccumulationExample()
    ensures var s1 := Upsert([], map[], Stock("AAPL", 150.0, 100.0, Up));
      var s2 := Upsert(s1.0, s1.1, Stock("GOOG", 200.0, 180.0, Up));
      var s3 := Upsert(s2.0, s2.1, Stock("AAPL", 160.0, 150.0, Up));
      && s3.0 == ["AAPL", "GOOG"]
      && s3.1["AAPL"] == Stock("AAPL", 160.0, 150.0, Up)
      && Values(s3.0, s3.1) == [Stock("AAPL", 160.0, 150.0, Up), Stock("GOOG", 200.0, 180.0, Up)]
  {
    var s1 := Upsert([], map[], Stock("AAPL", 150.0, 100.0, Up));
    assert "GOOG"[0] != "AAPL"[0];
    var s2 := Upsert(s1.0, s1.1, Stock("GOOG", 200.0, 180.0, Up));
    assert s2.0 == ["AAPL", "GOOG"];
  }

  /** Continuing the scenario: the published order puts GOOG (200) before AAPL (160). */
  lemma AccumulationSortExample()
    ensures Symbols(SortByPriceDescending([Stock("AAPL", 160.0, 150.0, Up), Stock("GOOG", 200.0, 180.0, Up)])) ==
      ["GOOG", "AAPL"]
  {
    var a := Stock("AAPL", 160.0, 150.0, Up);
    var g := Stock("GOOG", 200.0, 180.0, Up);
    assert [a, g][1..] == [g];
    assert SortByPriceDescending([g]) == [g];
    assert InsertByPrice(a, [g]) == [g, a];
  }

  class PriceTrackerViewModel {
    /** `_uiState.value`. */
    var uiState: PriceTrackerUiState
    /** `stocksMap`: the values, by symbol. */
    var stocksMap: map<string, Stock>
    /** `stocksMap`'s keys in first-insertion order. */
    var insertionOrder: seq<string>
    /** Whether the price-update job (`priceUpdatesJob`) is still collecting. */
    var observing: bool
    /** `_sideEffects`: every effect sent so far, oldest first. */
    var sideEffects: seq<PriceTrackerSideEffect>
    /** The company-name lookup the UI mapper uses. */
    const companyName: string -> string

    /** The stocks map is a linked hash map, and the published list is always its sorted rendering. */
    ghost predicate Valid()
      reads this
    {
      TableInv(insertionOrder, stocksMap) && uiState.stocks == Published(insertionOrder, stocksMap, companyName)
    }

    /** A new view model: the default state, an empty map, no job, no effects. */
    constructor (companyName: string -> string)
      ensures Valid()
      ensures uiState == DefaultUiState && stocksMap == map[] && insertionOrder == []
      ensures !observing && sideEffects == [] && this.companyName == companyName
    {
      uiState := DefaultUiState;
      stocksMap := map[];
      insertionOrder := [];
      observing := false;
      sideEffects := [];
      this.companyName := companyName;
    }

    /** `startPriceFeed`, before collecting: loading on, error cleared. */
    method StartPrologue()
      requires Valid()
      modifies this
      ensures Valid()
      ensures uiState == old(uiState).(isLoading := true, error := None)
      ensures stocksMap == old(stocksMap) && insertionOrder == old(insertionOrder)
      ensures observing == old(observing) && sideEffects == old(sideEffects)
    {
      uiState := uiState.(isLoading := true, error := None);
    }

    /**
     * `startPriceFeed`, one status collected from `connect`: the status is
     * published; Connected clears loading, starts observing and announces
     * success; Error clears loading, stores and shows its message;
     * Disconnected clears loading; Connecting changes nothing else.
     */
    method OnConnectStatus(status: ConnectionStatus)
      requires Valid()
      modifies this
      ensures Valid()
      ensures uiState.connectionStatus == status && uiState.stocks == old(uiState.stocks)
      ensures stocksMap == old(stocksMap) && insertionOrder == old(insertionOrder)
      ensures status.Connected? ==>
        && !uiState.isLoading && uiState.error == old(uiState.error) && observing
        && sideEffects == old(sideEffects) + [ShowSuccess("Connected to price feed")]
      ensures status.Error? ==>
        && !uiState.isLoading && uiState.error == Some(status.message) && observing == old(observing)
        && sideEffects == old(sideEffects) + [ShowError(status.message)]
      ensures status.Disconnected? ==>
        && !uiState.isLoading && uiState.error == old(uiState.error) && observing == old(observing)
        && sideEffects == old(sideEffects)
      ensures status.Connecting? ==>
        && uiState == old(uiState).(connectionStatus := status) && observing == old(observing)
        && sideEffects == old(sideEffects)
    {
      uiState := uiState.(connectionStatus := status);
      match status {
        case Connected =>
          uiState := uiState.(isLoading := false);
          observing := true;
          sideEffects := sideEffects + [ShowSuccess("Connected to price feed")];
        case Connecting =>
        case Error(message) =>
          uiState := uiState.(isLoading := false, error := Some(message));
          sideEffects := sideEffects + [ShowError(message)];
        case Disconnected =>
          uiState := uiState.(isLoading := false);
      }
    }

    /** `startPriceFeed`, when `connect` throws: loading off, the message (or a default) stored and shown. */
    method OnStartFailed(message: Option<string>)
      requires Valid()
      modifies this
      ensures Valid()
      ensures uiState == old(uiState).(isLoading := false, error := Some(message.GetOr("Failed to start price feed")))
      ensures sideEffects == old(sideEffects) + [ShowError(message.GetOr("Failed to start price feed"))]
      ensures stocksMap == old(stocksMap) && insertionOrder == old(insertionOrder) && observing == old(observing)
    {
      var text := message.GetOr("Failed to start price feed");
      uiState := uiState.(isLoading := false, error := Some(text));
      sideEffects := sideEffects + [ShowError(text)];
    }

    /**
     * `stopPriceFeed`: the price job is cancelled first, whatever happens next.
     * A normal disconnect ends Disconnected and announces the stop; a failed
     * one stores and shows its message (or a default). The stocks stay.
     */
    method Stop(outcome: StopOutcome)
      requires Valid()
      modifies this
      ensures Valid()
      ensures !observing && !uiState.isLoading
      ensures uiState.stocks == old(uiState.stocks) && stocksMap == old(stocksMap) && insertionOrder == old(insertionOrder)
      ensures outcome.Stopped? ==>
        && uiState == old(uiState).(isLoading := false, connectionStatus := Disconnected)
        && sideEffects == old(sideEffects) + [ShowMessage("Price feed stopped")]
      ensures outcome.StopFailed? ==>
        && uiState == old(uiState).(isLoading := false, error := Some(outcome.message.GetOr("Failed to stop price feed")))
        && sideEffects == old(sideEffects) + [ShowError(outcome.message.GetOr("Failed to stop price feed"))]
    {
      uiState := uiState.(isLoading := true);
      observing := false;
      match outcome {
        case Stopped =>
          uiState := uiState.(isLoading := false, connectionStatus := Disconnected);
          sideEffects := sideEffects + [ShowMessage("Price feed stopped")];
        case StopFailed(message) =>
          var text := message.GetOr("Failed to stop price feed");
          uiState := uiState.(isLoading := false, error := Some(text));
          sideEffects := sideEffects + [ShowError(text)];
      }
    }

    /**
     * One stock collected by the price job: merged into the map (last write
     * wins) and the whole map republished, sorted. Without a running job the
     * update is not collected and nothing changes.
     */
    method OnPriceUpdate(stock: Stock)
      requires Valid()
      modifies this
      ensures Valid()
      ensures !old(observing) ==> uiState == old(uiState) && stocksMap == old(stocksMap) && insertionOrder == old(insertionOrder)
      ensures old(observing) ==>
        && (insertionOrder, stocksMap) == Upsert(old(insertionOrder), old(stocksMap), stock)
        && uiState == old(uiState).(stocks := Published(insertionOrder, stocksMap, companyName))
      ensures old(stocksMap).Keys <= stocksMap.Keys
      ensures observing == old(observing) && sideEffects == old(sideEffects)
    {
      if observing {
        var merged := Upsert(insertionOrder, stocksMap, stock);
        UpsertKeepsTableInv(insertionOrder, stocksMap, stock);
        var published := Published(merged.0, merged.1, companyName);
        insertionOrder, stocksMap, uiState := merged.0, merged.1, uiState.(stocks := published);
      }
    }

    /** The `catch` of the price stream: the message (or a default) stored and shown; the stream has ended. */
    method OnPriceStreamFailed(message: Option<string>)
      requires Valid()
      modifies this
      ensures Valid()
      ensures uiState == old(uiState).(error := Some(message.GetOr("Error receiving price updates")))
      ensures sideEffects == old(sideEffects) + [ShowError(message.GetOr("Error receiving price updates"))]
      ensures !observing && stocksMap == old(stocksMap) && insertionOrder == old(insertionOrder)
    {
      var text := message.GetOr("Error receiving price updates");
      uiState := uiState.(error := Some(text));
      sideEffects := sideEffects + [ShowError(text)];
      observing := false;
    }

    /** `observeConnectionStatus`, one status: published; Disconnected also stops the price job. */
    method OnObservedStatus(status: ConnectionStatus)
      requires Valid()
      modifies this
      ensures Valid()
      ensures uiState == old(uiState).(connectionStatus := status)
      ensures observing == (old(observing) && !status.Disconnected?)
      ensures stocksMap == old(stocksMap) && insertionOrder == old(insertionOrder) && sideEffects == old(sideEffects)
    {
      uiState := uiState.(connectionStatus := status);
      if status.Disconnected? {
        observing := false;
      }
    }

    /**
     * `handleIntent`. Start runs its prologue (the statuses of `connect` come
     * later, through `OnConnectStatus`); stop runs to completion with the
     * given outcome; a received price changes nothing; a status change
     * publishes Connected or Disconnected; an error is stored and shown.
     */
    method HandleIntent(intent: PriceTrackerIntent, stopOutcome: StopOutcome)
      requires Valid()
      modifies this
      ensures Valid()
      ensures stocksMap == old(stocksMap) && insertionOrder == old(insertionOrder)
      ensures intent.StartPriceFeed? ==>
        uiState == old(uiState).(isLoading := true, error := None) && observing == old(observing) && sideEffects == old(sideEffects)
      ensures intent.StopPriceFeed? ==> !observing
      ensures intent.StopPriceFeed? && stopOutcome.Stopped? ==>
        && uiState == old(uiState).(isLoading := false, connectionStatus := Disconnected)
        && sideEffects == old(sideEffects) + [ShowMessage("Price feed stopped")]
      ensures intent.StopPriceFeed? && stopOutcome.StopFailed? ==>
        && uiState == old(uiState).(isLoading := false, error := Some(stopOutcome.message.GetOr("Failed to stop price feed")))
        && sideEffects == old(sideEffects) + [ShowError(stopOutcome.message.GetOr("Failed to stop price feed"))]
      ensures intent.PriceUpdateReceived? ==>
        uiState == old(uiState) && observing == old(observing) && sideEffects == old(sideEffects)
      ensures intent.ConnectionStatusChanged? ==>
        && uiState == old(uiState).(connectionStatus := if intent.isConnected then Connected else Disconnected)
        && observing == old(observing) && sideEffects == old(sideEffects)
      ensures intent.ErrorOccurred? ==>
        && uiState == old(uiState).(error := Some(intent.message))
        && observing == old(observing) && sideEffects == old(sideEffects) + [ShowError(intent.message)]
      ensures sideEffects[..|old(sideEffects)|] == old(sideEffects)
    {
      match intent {
        case StartPriceFeed =>
          StartPrologue();
        case StopPriceFeed =>
          Stop(stopOutcome);
        case PriceUpdateReceived(_, _, _) =>
        case ConnectionStatusChanged(isConnected) =>
          uiState := uiState.(connectionStatus := if isConnected then Connected else Disconnected);
        case ErrorOccurred(message) =>
          uiState := uiState.(error := Some(message));
          sideEffects := sideEffects + [ShowError(message)];
      }
    }
  }

  /**
   * Once an observed Disconnected has stopped the price job, a later price
   * update leaves the published stocks and the map as they were.
   */
  method DisconnectThenUpdate(vm: PriceTrackerViewModel, stock: Stock)
    requires vm.Valid()
    modifies vm
    ensures vm.Valid()
    ensures vm.uiState.stocks == old(vm.uiState.stocks) && vm.stocksMap == old(vm.stocksMap)
    ensures vm.uiState.connectionStatus == Disconnected && !vm.observing
  {
    vm.OnObservedStatus(Disconnected);
    vm.OnPriceUpdate(stock);
  }
}
