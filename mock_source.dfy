/**
 * `MockStockPriceDataSource`: a bounded random walk over a fixed catalog of
 * 25 symbols. The random draw and the clock are inputs of the operations.
 */
module MockPriceSource {
  import opened Wrappers
  import opened Dto
  import Domain
  import DtoMapper

  /** Number of symbols in the catalog. */
  const CatalogSize: nat := 25

  /** `MIN_DELTA_PERCENT` and `MAX_DELTA_PERCENT`: a tick moves a price by at most 5% of its base. */
  const MinDeltaPercent: real := -0.05
  const MaxDeltaPercent: real := 0.05

  /** `STOCK_SYMBOLS`: the i-th catalog symbol and its base price. */
  function CatalogEntry(i: nat): (e: (string, real))
    requires i < 25
    ensures e.1 > 0.0 && CatalogRank(e.0) == i
  {
    if i == 0 then ("AAPL", 175.50)
    else if i == 1 then ("GOOG", 142.30)
    else if i == 2 then ("MSFT", 378.85)
    else if i == 3 then ("AMZN", 151.94)
    else if i == 4 then ("TSLA", 248.50)
    else if i == 5 then ("NVDA", 485.20)
    else if i == 6 then ("META", 485.58)
    else if i == 7 then ("NFLX", 485.90)
    else if i == 8 then ("AMD", 144.25)
    else if i == 9 then ("INTC", 44.12)
    else if i == 10 then ("ORCL", 125.67)
    else if i == 11 then ("CRM", 278.45)
    else if i == 12 then ("ADBE", 567.89)
    else if i == 13 then ("PYPL", 62.34)
    else if i == 14 then ("UBER", 68.45)
    else if i == 15 then ("LYFT", 12.56)
    else if i == 16 then ("SPOT", 285.67)
    else if i == 17 then ("TWTR", 53.70)
    else if i == 18 then ("SNAP", 11.23)
    else if i == 19 then ("PINS", 33.45)
    else if i == 20 then ("SQ", 78.90)
    else if i == 21 then ("SHOP", 45.67)
    else if i == 22 then ("ZM", 65.43)
    else if i == 23 then ("DOCU", 54.32)
    else ("RBLX", 42.10)
  }

  /**
   * The position of a symbol in the catalog, or -1 when it has none; the
   * symbol is compared letter by letter.
   */
  function CatalogRank(symbol: string): (r: int)
    ensures -1 <= r < 25
  {
    if |symbol| == 4 && symbol[0] == 'A' && symbol[1] == 'A' && symbol[2] == 'P' && symbol[3] == 'L' then 0
    else if |symbol| == 4 && symbol[0] == 'G' && symbol[1] == 'O' && symbol[2] == 'O' && symbol[3] == 'G' then 1
    else if |symbol| == 4 && symbol[0] == 'M' && symbol[1] == 'S' && symbol[2] == 'F' && symbol[3] == 'T' then 2
    else if |symbol| == 4 && symbol[0] == 'A' && symbol[1] == 'M' && symbol[2] == 'Z' && symbol[3] == 'N' then 3
    else if |symbol| == 4 && symbol[0] == 'T' && symbol[1] == 'S' && symbol[2] == 'L' && symbol[3] == 'A' then 4
    else if |symbol| == 4 && symbol[0] == 'N' && symbol[1] == 'V' && symbol[2] == 'D' && symbol[3] == 'A' then 5
    else if |symbol| == 4 && symbol[0] == 'M' && symbol[1] == 'E' && symbol[2] == 'T' && symbol[3] == 'A' then 6
    else if |symbol| == 4 && symbol[0] == 'N' && symbol[1] == 'F' && symbol[2] == 'L' && symbol[3] == 'X' then 7
    else if |symbol| == 3 && symbol[0] == 'A' && symbol[1] == 'M' && symbol[2] == 'D' then 8
    else if |symbol| == 4 && symbol[0] == 'I' && symbol[1] == 'N' && symbol[2] == 'T' && symbol[3] == 'C' then 9
    else if |symbol| == 4 && symbol[0] == 'O' && symbol[1] == 'R' && symbol[2] == 'C' && symbol[3] == 'L' then 10
    else if |symbol| == 3 && symbol[0] == 'C' && symbol[1] == 'R' && symbol[2] == 'M' then 11
    else if |symbol| == 4 && symbol[0] == 'A' && symbol[1] == 'D' && symbol[2] == 'B' && symbol[3] == 'E' then 12
    else if |symbol| == 4 && symbol[0] == 'P' && symbol[1] == 'Y' && symbol[2] == 'P' && symbol[3] == 'L' then 13
    else if |symbol| == 4 && symbol[0] == 'U' && symbol[1] == 'B' && symbol[2] == 'E' && symbol[3] == 'R' then 14
    else if |symbol| == 4 && symbol[0] == 'L' && symbol[1] == 'Y' && symbol[2] == 'F' && symbol[3] == 'T' then 15
    else if |symbol| == 4 && symbol[0] == 'S' && symbol[1] == 'P' && symbol[2] == 'O' && symbol[3] == 'T' then 16
    else if |symbol| == 4 && symbol[0] == 'T' && symbol[1] == 'W' && symbol[2] == 'T' && symbol[3] == 'R' then 17
    else if |symbol| == 4 && symbol[0] == 'S' && symbol[1] == 'N' && symbol[2] == 'A' && symbol[3] == 'P' then 18
    else if |symbol| == 4 && symbol[0] == 'P' && symbol[1] == 'I' && symbol[2] == 'N' && symbol[3] == 'S' then 19
    else if |symbol| == 2 && symbol[0] == 'S' && symbol[1] == 'Q' then 20
    else if |symbol| == 4 && symbol[0] == 'S' && symbol[1] == 'H' && symbol[2] == 'O' && symbol[3] == 'P' then 21
    else if |symbol| == 2 && symbol[0] == 'Z' && symbol[1] == 'M' then 22
    else if |symbol| == 4 && symbol[0] == 'D' && symbol[1] == 'O' && symbol[2] == 'C' && symbol[3] == 'U' then 23
    else if |symbol| == 4 && symbol[0] == 'R' && symbol[1] == 'B' && symbol[2] == 'L' && symbol[3] == 'X' then 24
    else -1
  }

  /** The position of a symbol in the catalog, if it has one. */
  function CatalogIndex(symbol: string): (r: Option<nat>)
    ensures r.Some? ==> r.value < CatalogSize
  {
    var rank := CatalogRank(symbol);
    if rank < 0 then None else Some(rank)
  }

  /** `CatalogIndex` finds exactly the symbol stored at the index it returns. */
  lemma CatalogIndexFindsSymbol(symbol: string)
    ensures CatalogIndex(symbol).Some? ==> Symbol(CatalogIndex(symbol).value) == symbol
  {
  }

  /** The i-th catalog symbol; no other position holds it, so the symbols are distinct. */
  function Symbol(i: nat): (s: string)
    requires i < CatalogSize
    ensures CatalogIndex(s) == Some(i)
  {
    CatalogEntry(i).0
  }

  /** The i-th base price. */
  function Base(i: nat): (b: real)
    requires i < CatalogSize
    ensures b > 0.0
  {
    CatalogEntry(i).1
  }

  /** The `basePrices` lookup: the base price of a catalog symbol, null for any other. */
  function BasePriceOf(symbol: string): (r: Option<real>)
    ensures r.Some? <==> CatalogIndex(symbol).Some?
    ensures r.Some? ==> r.value == Base(CatalogIndex(symbol).value)
  {
    match CatalogIndex(symbol)
    case Some(i) => Some(CatalogEntry(i).1)
    case None => None
  }

  /** The clamp band of a symbol: half to one and a half times its base price. */
  predicate InBand(price: real, base: real) {
    0.5 * base <= price <= 1.5 * base
  }

  /** `coerceAtLeast(base * 0.5).coerceAtMost(base * 1.5)`: pull a price back into its band. */
  function Clamp(candidate: real, base: real): (p: real)
    ensures base >= 0.0 ==> InBand(p, base)
    ensures InBand(candidate, base) ==> p == candidate
  {
    var atLeast := if candidate < base * 0.5 then base * 0.5 else candidate;
    if atLeast > base * 1.5 then base * 1.5 else atLeast
  }

  /** One symbol's step: move by `base * delta`, then clamp into the band. */
  function NextPrice(current: real, base: real, delta: real): (p: real)
    ensures base >= 0.0 ==> InBand(p, base)
  {
    Clamp(current + base * delta, base)
  }

  /** A step that stays inside the band is not clamped: the price moves by exactly `base * delta`. */
  lemma UnclampedStepIsExact(current: real, base: real, delta: real)
    requires InBand(current + base * delta, base)
    ensures NextPrice(current, base, delta) == current + base * delta
  {
  }

  /** Clamping a move from inside the band never moves the price further than the move did. */
  lemma ClampShortensMove(current: real, move: real, base: real)
    requires base > 0.0 && InBand(current, base)
    ensures move >= 0.0 ==> 0.0 <= Clamp(current + move, base) - current <= move
    ensures move < 0.0 ==> move <= Clamp(current + move, base) - current <= 0.0
  {
  }

  /**
   * From a price inside the band, a step with a delta in the allowed range
   * moves the price by at most 5% of the base.
   */
  lemma StepIsBounded(current: real, base: real, delta: real)
    requires base > 0.0 && InBand(current, base)
    requires MinDeltaPercent <= delta <= MaxDeltaPercent
    ensures -0.05 * base <= NextPrice(current, base, delta) - current <= 0.05 * base
  {
    ScaledDeltaIsBounded(base, delta);
    ClampedMoveIsBounded(current, base * delta, base);
  }

  /** A clamped move of at most 5% of the base, from inside the band, stays within 5% of the base. */
  lemma ClampedMoveIsBounded(current: real, move: real, base: real)
    requires base > 0.0 && InBand(current, base)
    requires -0.05 * base <= move <= 0.05 * base
    ensures -0.05 * base <= Clamp(current + move, base) - current <= 0.05 * base
  {
    ClampShortensMove(current, move, base);
  }

  /** The move `base * delta` is at most 5% of the base either way. */
  lemma ScaledDeltaIsBounded(base: real, delta: real)
    requires base > 0.0
    requires MinDeltaPercent <= delta <= MaxDeltaPercent
    ensures -0.05 * base <= base * delta <= 0.05 * base
  {
    assert base * (0.05 - delta) >= 0.0;
    assert base * (delta + 0.05) >= 0.0;
  }

  /**
   * `generateInitialPrices`: one update per catalog symbol, in catalog order,
   * at its base price with an equal previous price; each reads the clock.
   */
  function GenerateInitialPrices(clock: seq<int>): (r: seq<StockPriceDto>)
    requires |clock| == CatalogSize
    ensures |r| == CatalogSize
    ensures forall i :: 0 <= i < CatalogSize ==>
      r[i].symbol == Symbol(i) && r[i].timestamp == clock[i] &&
      r[i].price == r[i].previousPrice && BasePriceOf(r[i].symbol) == Some(r[i].price)
  {
    seq(CatalogSize, i requires 0 <= i < CatalogSize => StockPriceDto(Symbol(i), Base(i), Base(i), clock[i]))
  }

  /** The update a tick emits for catalog position k, given the table before the tick. */
  function TickUpdate(before: map<string, real>, deltas: seq<real>, now: int, k: nat): StockPriceDto
    requires k < CatalogSize && k < |deltas| && Symbol(k) in before
  {
    var previous := before[Symbol(k)];
    StockPriceDto(Symbol(k), NextPrice(previous, Base(k), deltas[k]), previous, now)
  }

  /** Every update of a tick from an in-band table moves its price by at most 5% of the base. */
  lemma TickIsBounded(before: map<string, real>, deltas: seq<real>, now: int)
    requires |deltas| == CatalogSize
    requires forall i :: 0 <= i < CatalogSize ==> MinDeltaPercent <= deltas[i] < MaxDeltaPercent
    requires forall k :: 0 <= k < CatalogSize ==> Symbol(k) in before && InBand(before[Symbol(k)], Base(k))
    ensures forall k :: 0 <= k < CatalogSize ==>
      var u := TickUpdate(before, deltas, now, k);
      -0.05 * Base(k) <= u.price - u.previousPrice <= 0.05 * Base(k)
  {
    forall k | 0 <= k < CatalogSize
      ensures -0.05 * Base(k) <= TickUpdate(before, deltas, now, k).price - before[Symbol(k)] <= 0.05 * Base(k)
    {
      StepIsBounded(before[Symbol(k)], Base(k), deltas[k]);
    }
  }

  class MockStockPriceDataSource {
    /** `currentPrices`: the latest price of every catalog symbol. */
    var currentPrices: map<string, real>

    /** The table holds exactly the catalog symbols, each inside its band. */
    ghost predicate Valid()
      reads this
    {
      && (forall s :: s in currentPrices ==> CatalogIndex(s).Some?)
      && (forall k :: 0 <= k < CatalogSize ==> Symbol(k) in currentPrices && InBand(currentPrices[Symbol(k)], Base(k)))
    }

    /** The table starts with every catalog symbol at its base price. */
    constructor ()
      ensures Valid()
      ensures forall k :: 0 <= k < CatalogSize ==> currentPrices[Symbol(k)] == Base(k)
    {
      var prices := map[];
      for i := 0 to CatalogSize
        invariant forall s :: s in prices ==> CatalogIndex(s).Some? && CatalogIndex(s).value < i
        invariant forall k :: 0 <= k < i ==> Symbol(k) in prices && prices[Symbol(k)] == Base(k)
      {
        var (symbol, basePrice) := CatalogEntry(i);
        prices := prices[symbol := basePrice];
      }
      currentPrices := prices;
    }

    /**
     * `generateUpdatesForAllSymbols`: one tick. Every catalog symbol, in
     * catalog order, gets a new price from its stored one; the table is
     * updated in place, and each update carries the stored price as its
     * previous price and the single timestamp `now`.
     */
    method GenerateUpdatesForAllSymbols(deltas: seq<real>, now: int) returns (updates: seq<StockPriceDto>)
      requires Valid()
      requires |deltas| == CatalogSize
      requires forall i :: 0 <= i < CatalogSize ==> MinDeltaPercent <= deltas[i] < MaxDeltaPercent
      modifies this
      ensures Valid()
      ensures |updates| == CatalogSize
      ensures forall i :: 0 <= i < CatalogSize ==>
        updates[i] == TickUpdate(old(currentPrices), deltas, now, i) && currentPrices[Symbol(i)] == updates[i].price
      ensures forall i :: 0 <= i < CatalogSize ==>
        -0.05 * Base(i) <= updates[i].price - updates[i].previousPrice <= 0.05 * Base(i)
    {
      ghost var before := currentPrices;
      updates := [];
      var i := 0;
      while i < CatalogSize
        invariant 0 <= i <= CatalogSize && |updates| == i
        invariant Valid()
        invariant forall k :: i <= k < CatalogSize ==> currentPrices[Symbol(k)] == before[Symbol(k)]
        invariant forall k :: 0 <= k < i ==>
          updates[k] == TickUpdate(before, deltas, now, k) && currentPrices[Symbol(k)] == updates[k].price
      {
        var symbol := Symbol(i);
        var currentPrice := currentPrices[symbol];
        var basePrice := BasePriceOf(symbol).GetOr(currentPrice);
        var previousPrice := currentPrice;
        var newPrice := NextPrice(currentPrice, basePrice, deltas[i]);
        currentPrices := currentPrices[symbol := newPrice];
        updates := updates + [StockPriceDto(symbol, newPrice, previousPrice, now)];
        i := i + 1;
      }
      TickIsBounded(before, deltas, now);
    }

    /** `getCurrentPrice`: the stored price of a catalog symbol, null for any other symbol. */
    function GetCurrentPrice(symbol: string): (r: Option<real>)
      requires Valid()
      reads this
      ensures r.Some? <==> CatalogIndex(symbol).Some?
      ensures r.Some? ==> symbol in currentPrices && r.value == currentPrices[symbol]
      ensures r.None? ==> symbol !in currentPrices
      ensures r.Some? ==> InBand(r.value, Base(CatalogIndex(symbol).value))
    {
      CatalogIndexFindsSymbol(symbol);
      if symbol in currentPrices then Some(currentPrices[symbol]) else None
    }

    /** `getAllCurrentPrices`: a copy of the table. */
    function GetAllCurrentPrices(): (r: map<string, real>)
      requires Valid()
      reads this
      ensures forall s :: s in r ==> CatalogIndex(s).Some?
      ensures forall k :: 0 <= k < CatalogSize ==>
        Symbol(k) in r && r[Symbol(k)] == currentPrices[Symbol(k)] && InBand(r[Symbol(k)], Base(k))
    {
      currentPrices
    }
  }

  /** Two ticks in a row chain up: the second tick's previous prices are the first tick's prices. */
  method ConsecutiveTicksChain(source: MockStockPriceDataSource, first: seq<real>, second: seq<real>, t1: int, t2: int)
    returns (u1: seq<StockPriceDto>, u2: seq<StockPriceDto>)
    requires source.Valid()
    requires |first| == CatalogSize && |second| == CatalogSize
    requires forall i :: 0 <= i < CatalogSize ==> MinDeltaPercent <= first[i] < MaxDeltaPercent
    requires forall i :: 0 <= i < CatalogSize ==> MinDeltaPercent <= second[i] < MaxDeltaPercent
    modifies source
    ensures source.Valid()
    ensures |u1| == |u2| == CatalogSize
    ensures forall i :: 0 <= i < CatalogSize ==> u2[i].previousPrice == u1[i].price && u2[i].symbol == u1[i].symbol
  {
    u1 := source.GenerateUpdatesForAllSymbols(first, t1);
    u2 := source.GenerateUpdatesForAllSymbols(second, t2);
  }

  /** The initial batch sits at the base prices, inside every band, and shows no movement. */
  lemma InitialBatchIsUnchanged(clock: seq<int>)
    requires |clock| == CatalogSize
    ensures forall i :: 0 <= i < CatalogSize ==>
      InBand(GenerateInitialPrices(clock)[i].price, Base(i)) &&
      DtoMapper.ToDomain(GenerateInitialPrices(clock)[i]).movement == Domain.Unchanged
  {
  }
}
