/**
 * `StockPriceRepositoryImpl`: the data source seen through the DTO mapper.
 * Connection handling is delegated unchanged; price updates are mapped one
 * by one to domain stocks.
 */
module Repository {
  import opened Wrappers
  import opened Domain
  import opened Dto
  import DtoMapper
  import WebSocketSource

  /**
   * `observePriceUpdates` over the updates the data source delivers: each DTO
   * becomes its domain stock, in the same order.
   */
  function ObservePriceUpdates(updates: seq<StockPriceDto>): (r: seq<Stock>)
    ensures |r| == |updates|
    ensures forall i :: 0 <= i < |updates| ==> r[i] == DtoMapper.ToDomain(updates[i])
  {
    seq(|updates|, i requires 0 <= i < |updates| => DtoMapper.ToDomain(updates[i]))
  }

  /** The streamed mapping agrees with the mapper's own list mapping, and empty gives empty. */
  lemma ObserveIsToDomainList(updates: seq<StockPriceDto>)
    ensures ObservePriceUpdates(updates) == DtoMapper.ToDomainList(updates)
    ensures updates == [] ==> ObservePriceUpdates(updates) == []
  {
  }

  /** Mapping a stream piece by piece gives the mapping of the whole stream. */
  lemma ObserveDistributes(a: seq<StockPriceDto>, b: seq<StockPriceDto>)
    ensures ObservePriceUpdates(a + b) == ObservePriceUpdates(a) + ObservePriceUpdates(b)
  {
  }

  /**
   * End to end: a batch sent through the echo socket and read back by the
   * receiving job comes out of the repository as the domain stocks of that
   * batch, provided the codec decodes what it encodes.
   */
  lemma EchoedBatchReachesDomain(batch: seq<StockPriceDto>, encode: PriceUpdateMessageDto -> string,
                                 decode: string -> Option<PriceUpdateMessageDto>)
    requires forall m :: decode(encode(m)) == Some(m)
    ensures ObservePriceUpdates(WebSocketSource.Parsed(WebSocketSource.EchoFrames(batch, encode), decode)) ==
      DtoMapper.ToDomainList(batch)
  {
    WebSocketSource.EchoRoundTrip(batch, encode, decode);
    ObserveIsToDomainList(batch);
  }

  class StockPriceRepository {
    const dataSource: WebSocketSource.WebSocketDataSource

    constructor (dataSource: WebSocketSource.WebSocketDataSource)
      ensures this.dataSource == dataSource
    {
      this.dataSource := dataSource;
    }

    /** `connect`: the data source's connect, with its emitted statuses passed through. */
    method Connect(outcome: WebSocketSource.OpenOutcome) returns (emitted: seq<ConnectionStatus>)
      requires dataSource.Valid()
      modifies dataSource
      ensures dataSource.Valid()
      ensures (dataSource.State(), emitted) == WebSocketSource.ConnectStep(old(dataSource.State()), outcome)
    {
      emitted := dataSource.Connect(outcome);
    }

    /** `disconnect`. */
    method Disconnect()
      modifies dataSource
      ensures dataSource.Valid()
      ensures dataSource.State() == WebSocketSource.DisconnectStep(old(dataSource.State()))
    {
      dataSource.Disconnect();
    }

    /** `observeConnectionStatus`: the data source's status, Error message included. */
    function ObserveConnectionStatus(): (r: ConnectionStatus)
      reads dataSource
      ensures r == dataSource.State().status
    {
      dataSource.CurrentStatus()
    }

    /** `isConnected`. */
    function IsConnected(): (r: bool)
      reads dataSource
      ensures r <==> WebSocketSource.IsConnected(dataSource.State())
    {
      dataSource.IsConnectedNow()
    }

    /** The next element of `observePriceUpdates`: the oldest queued DTO, mapped to its stock. */
    method NextPriceUpdate() returns (r: Option<Stock>)
      modifies dataSource
      ensures old(dataSource.incoming) == [] ==> r == None && dataSource.incoming == []
      ensures old(dataSource.incoming) != [] ==>
        && r == Some(DtoMapper.ToDomain(old(dataSource.incoming)[0]))
        && dataSource.incoming == old(dataSource.incoming)[1..]
      ensures dataSource.State() == old(dataSource.State()).(incoming := dataSource.incoming)
    {
      var dto := dataSource.PollIncoming();
      match dto {
        case None => r := None;
        case Some(d) => r := Some(DtoMapper.ToDomain(d));
      }
    }
  }
}
