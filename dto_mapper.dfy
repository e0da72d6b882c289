/** `StockDtoToDomainMapper`: from transport DTOs to domain stocks. */
module DtoMapper {
  import opened Domain
  import opened Dto
  import PriceMovementUseCase

  /** The mapper's private copy of the movement rule. */
  function CalculatePriceMovement(currentPrice: real, previousPrice: real): (m: PriceMovement)
    ensures m == PriceMovementUseCase.CalculatePriceMovement(currentPrice, previousPrice)
  {
    if currentPrice > previousPrice then Up
    else if currentPrice < previousPrice then Down
    else Unchanged
  }

  /** `toDomain`: copy the symbol and both prices and derive the movement from them. */
  function ToDomain(dto: StockPriceDto): (s: Stock)
    ensures s.symbol == dto.symbol
    ensures s.currentPrice == dto.price && s.previousPrice == dto.previousPrice
    ensures s.movement == Up <==> PriceChange(s) > 0.0
    ensures s.movement == Down <==> PriceChange(s) < 0.0
    ensures s.movement == Unchanged <==> PriceChange(s) == 0.0
  {
    var movement := CalculatePriceMovement(dto.price, dto.previousPrice);
    Stock(dto.symbol, dto.price, dto.previousPrice, movement)
  }

  /** The timestamp plays no part in the mapping. */
  lemma ToDomainIgnoresTimestamp(dto: StockPriceDto, t: int)
    ensures ToDomain(dto.(timestamp := t)) == ToDomain(dto)
  {
  }

  /** `toDomainList`: the element-wise mapping of a list. */
  function ToDomainList(dtos: seq<StockPriceDto>): (r: seq<Stock>)
    ensures |r| == |dtos|
    ensures forall i :: 0 <= i < |dtos| ==> r[i] == ToDomain(dtos[i])
  {
    if dtos == [] then [] else [ToDomain(dtos[0])] + ToDomainList(dtos[1..])
  }

  /** Mapping a concatenation maps each part: the list mapping keeps order. */
  lemma {:induction false} ToDomainListAppend(a: seq<StockPriceDto>, b: seq<StockPriceDto>)
    ensures ToDomainList(a + b) == ToDomainList(a) + ToDomainList(b)
  {
    if a == [] {
      assert a + b == b;
    } else {
      assert (a + b)[1..] == a[1..] + b;
      ToDomainListAppend(a[1..], b);
    }
  }

  /** The three mapper-test DTOs: up, down and unchanged. */
  lemma ToDomainExamples()
    ensures ToDomain(StockPriceDto("AAPL", 150.0, 100.0, 0)) == Stock("AAPL", 150.0, 100.0, Up)
    ensures ToDomain(StockPriceDto("GOOG", 100.0, 150.0, 0)) == Stock("GOOG", 100.0, 150.0, Down)
    ensures ToDomain(StockPriceDto("MSFT", 150.0, 150.0, 0)) == Stock("MSFT", 150.0, 150.0, Unchanged)
    ensures ToDomainList([]) == []
  {
  }
}
