/**
 * Transport-level records: the price DTO produced by the generator and the
 * wire message that is serialised, echoed and parsed back.
 */
module Dto {

  /** `StockPriceDto`; the timestamp is milliseconds since the epoch. */
  datatype StockPriceDto = StockPriceDto(symbol: string, price: real, previousPrice: real, timestamp: int)

  /** `PriceUpdateMessageDto`, the JSON shape sent to and received from the echo server. */
  datatype PriceUpdateMessageDto = PriceUpdateMessageDto(symbol: string, price: real, previousPrice: real, timestamp: int)

  /** `PriceUpdateMessageDto.fromStockPriceDto`: a field-by-field copy. */
  function FromStockPriceDto(dto: StockPriceDto): (m: PriceUpdateMessageDto)
    ensures m.symbol == dto.symbol && m.timestamp == dto.timestamp
    ensures m.price == dto.price && m.previousPrice == dto.previousPrice
  {
    PriceUpdateMessageDto(dto.symbol, dto.price, dto.previousPrice, dto.timestamp)
  }

  /** The rebuild of a `StockPriceDto` from a parsed message in the receive loop. */
  function ToStockPriceDto(m: PriceUpdateMessageDto): (dto: StockPriceDto)
    ensures dto.symbol == m.symbol && dto.timestamp == m.timestamp
    ensures dto.price == m.price && dto.previousPrice == m.previousPrice
  {
    StockPriceDto(m.symbol, m.price, m.previousPrice, m.timestamp)
  }

  /** Sending a DTO and rebuilding it from the echoed message gives the DTO back. */
  lemma DtoRoundTrip(dto: StockPriceDto)
    ensures ToStockPriceDto(FromStockPriceDto(dto)) == dto
  {
  }

  /** The two records carry the same information: the copy is also injective the other way. */
  lemma MessageRoundTrip(m: PriceUpdateMessageDto)
    ensures FromStockPriceDto(ToStockPriceDto(m)) == m
  {
  }
}
