# StockPricePulse price pipeline in Dafny

This project models the price pipeline of the StockPricePulse Android app, from the generated price updates to the sorted list the screen shows:

- **`MockStockPriceDataSource`.** A bounded random walk over a fixed catalog of 25 symbols. Each tick moves a price by its base price times a delta in [-5%, +5%), then clamps it into [0.5, 1.5] times the base.
- **`WebSocketDataSourceImpl`.** The echo-socket session:
  - connect, disconnect and `isConnected`;
  - the sending job, which writes every update of a batch as a JSON text frame;
  - the receiving job, which parses echoed text frames back into DTOs and drops malformed ones.
- **The DTOs and the mappers.** `PriceUpdateMessageDto.fromStockPriceDto`, `StockDtoToDomainMapper` and `DomainToUiMapper`. The `"$%.2f"` price text uses half-up rounding.
- **The domain.** `Stock` with its derived `priceChange` and `priceChangePercent`, `CalculatePriceMovementUseCase`, and `SortStocksByPriceUseCase`. The sort is a stable sort, descending by price.
- **`StockPriceRepositoryImpl`.** Delegation to the data source, plus DTO-to-domain mapping of the price stream.
- **`PriceTrackerUiState` and `PriceTrackerViewModel`.** The MVI reducer:
  - the stocks map, with last write winning per symbol and insertion order kept;
  - the published list, which is the map's values sorted and mapped to UI models;
  - loading, error and connection status;
  - the side effects.

Each stateful Kotlin class is a Dafny `class` whose fields stand for the Kotlin ones. They differ in these ways:

- `WebSocketDataSource` turns the `receivingJob` and `sendingJob` fields (`Job?`) into the booleans `receiving` and `sending`, and `webSocketSession` into `hasSession`. `status` stands for `connectionStatusFlow`, and `incoming` for `priceUpdatesChannel`.
- `WebSocketDataSource` adds a field `sent`, the messages written to the socket, which has no Kotlin field.
- `PriceTrackerViewModel` stores the `LinkedHashMap` as a `map` (`stocksMap`) plus its key order (`insertionOrder`).
- `PriceTrackerViewModel` has `observing` in place of `priceUpdatesJob`: whether the price-update job is still collecting. After the stream's `.catch` the Kotlin job is finished but still non-null, and `observing` is false, and no `connectionStatusJob`: its collector is the method `OnObservedStatus`.
- `PriceTrackerViewModel` queues side effects in a sequence `sideEffects`.

Their methods change those fields, and their contracts tie the new state to pure step functions, or state it outright. The pure parts are functions, and the lemmas prove the properties the code promises:

- the mock walk stays in its band and moves at most 5% of the base per tick;
- the echo round trip returns exactly the batch that was sent;
- a write failure stops the batch;
- the published list has exactly one entry per symbol, sorted by price, with ties in insertion order;
- the price text reads back as the price rounded to the cent.

Inputs from outside the modelled code are parameters:

- the random deltas and the clock;
- the outcome of opening the socket, of each write, of the receive loop and of `disconnect`;
- the JSON codec (`encode` and `decode`);
- the company-name lookup.

Prices are `real`, and timestamps are unbounded `int`.

The comment at `WebSocketDataSourceImpl.kt:164` ("Connection closed or error occurred") suggests that a closed connection ends in Error. The code sets Error only when the receive loop throws. When `session.incoming` ends normally, the loop finishes and the status is left as it was. The model follows the code: `ReceiveEnd.ChannelClosed` ends the receiving job and changes nothing else.

## Model

Source paths are relative to the repository root.

| member | source | states |
|---|---|---|
| Domain.PriceChange | app/src/main/java/com/arslan/stockpricepulse/domain/model/Stock.kt:20-21 | previous price plus the change is the current price; the change is positive, zero or negative exactly when the price rose, stayed or fell |
| Domain.PriceChangePercent | app/src/main/java/com/arslan/stockpricepulse/domain/model/Stock.kt:26-31 | a zero previous price gives 0 (no division) |
| Domain.PercentScalesChange | app/src/main/java/com/arslan/stockpricepulse/domain/model/Stock.kt:26-31 | with a non-zero previous price, percent times previous price is 100 times the change |
| Domain.PercentHasSignOfChange | app/src/main/java/com/arslan/stockpricepulse/domain/model/Stock.kt:20-31 | with a positive previous price, the percentage is positive/negative/zero exactly when the change is |
| Domain.DerivedMetricsDependOnPricesOnly | app/src/main/java/com/arslan/stockpricepulse/domain/model/Stock.kt:20-31 | both metrics depend only on the two prices |
| Domain.DerivedMetricsExamples | app/src/main/java/com/arslan/stockpricepulse/domain/model/Stock.kt:20-31 | (150,100) gives +50 and +50%; (100,150) gives -50 and -33.3…%; previous price 0 gives 0% |
| PriceMovementUseCase.CalculatePriceMovement | app/src/main/java/com/arslan/stockpricepulse/domain/usecase/CalculatePriceMovementUseCase.kt:18-27 | Up iff current > previous, Down iff current < previous, Unchanged iff equal |
| PriceMovementUseCase.SwapIsOpposite | app/src/main/java/com/arslan/stockpricepulse/domain/usecase/CalculatePriceMovementUseCase.kt:22-26 | swapping the prices swaps Up and Down |
| PriceMovementUseCase.ShiftInvariant | app/src/main/java/com/arslan/stockpricepulse/domain/usecase/CalculatePriceMovementUseCase.kt:22-26 | shifting both prices by the same amount keeps the movement |
| PriceMovementUseCase.MovementExamples | app/src/main/java/com/arslan/stockpricepulse/domain/usecase/CalculatePriceMovementUseCase.kt:22-26 | zero, negative and nearly equal prices |
| Dto.FromStockPriceDto | app/src/main/java/com/arslan/stockpricepulse/data/model/PriceUpdateMessageDto.kt:25-32 | every field copied |
| Dto.ToStockPriceDto | app/src/main/java/com/arslan/stockpricepulse/data/datasource/network/WebSocketDataSourceImpl.kt:151-156 | every field copied back |
| Dto.DtoRoundTrip | app/src/main/java/com/arslan/stockpricepulse/data/model/PriceUpdateMessageDto.kt:25-32 | DTO → message → DTO is the identity |
| Dto.MessageRoundTrip | app/src/main/java/com/arslan/stockpricepulse/data/model/PriceUpdateMessageDto.kt:25-32 | message → DTO → message is the identity |
| DtoMapper.CalculatePriceMovement | app/src/main/java/com/arslan/stockpricepulse/data/mapper/StockDtoToDomainMapper.kt:50-59 | the mapper's private rule agrees with the use case on every input |
| DtoMapper.ToDomain | app/src/main/java/com/arslan/stockpricepulse/data/mapper/StockDtoToDomainMapper.kt:19-31 | symbol and prices copied; movement Up/Down/Unchanged iff the derived change is positive/negative/zero |
| DtoMapper.ToDomainIgnoresTimestamp | app/src/main/java/com/arslan/stockpricepulse/data/mapper/StockDtoToDomainMapper.kt:19-31 | the timestamp has no effect on the stock |
| DtoMapper.ToDomainList | app/src/main/java/com/arslan/stockpricepulse/data/mapper/StockDtoToDomainMapper.kt:39-41 | same length; each element is the mapping of the DTO at the same position |
| DtoMapper.ToDomainListAppend | app/src/main/java/com/arslan/stockpricepulse/data/mapper/StockDtoToDomainMapper.kt:39-41 | mapping a concatenation is concatenating the mappings |
| DtoMapper.ToDomainExamples | app/src/main/java/com/arslan/stockpricepulse/data/mapper/StockDtoToDomainMapper.kt:19-41 | up, down and unchanged DTOs; empty list maps to empty list |
| SortStocksUseCase.SortByPriceDescending | app/src/main/java/com/arslan/stockpricepulse/domain/usecase/SortStocksByPriceUseCase.kt:18-20 | the sorted list has the input's length |
| SortStocksUseCase.SortIsOrderedPermutation | app/src/main/java/com/arslan/stockpricepulse/domain/usecase/SortStocksByPriceUseCase.kt:18-20 | the result is a permutation of the input (multiset) and non-increasing in price |
| SortStocksUseCase.InsertKeepsSorted | app/src/main/java/com/arslan/stockpricepulse/domain/usecase/SortStocksByPriceUseCase.kt:18-20 | inserting into a descending list keeps it descending |
| SortStocksUseCase.SortIsStable | app/src/main/java/com/arslan/stockpricepulse/domain/usecase/SortStocksByPriceUseCase.kt:18-20 | for every price, the stocks at that price keep their input order |
| SortStocksUseCase.SortedIsFixedPoint | app/src/main/java/com/arslan/stockpricepulse/domain/usecase/SortStocksByPriceUseCase.kt:18-20 | an already descending list is returned unchanged |
| SortStocksUseCase.SortIsIdempotent | app/src/main/java/com/arslan/stockpricepulse/domain/usecase/SortStocksByPriceUseCase.kt:18-20 | sorting twice equals sorting once |
| SortStocksUseCase.EqualPricesKeepOrder | app/src/main/java/com/arslan/stockpricepulse/domain/usecase/SortStocksByPriceUseCase.kt:18-20 | with all prices equal the input order is kept |
| SortStocksUseCase.ShortListsUnchanged | app/src/main/java/com/arslan/stockpricepulse/domain/usecase/SortStocksByPriceUseCase.kt:18-20 | empty and one-element lists come back as they are |
| PriceFormat.RoundHalfUp | app/src/main/java/com/arslan/stockpricepulse/data/mapper/DomainToUiMapper.kt:46-48 | the result is within half a unit of the input, ties going up |
| PriceFormat.SignedCents | app/src/main/java/com/arslan/stockpricepulse/data/mapper/DomainToUiMapper.kt:46-48 | the cents shown are within half a cent of the price |
| PriceFormat.FormatPrice | app/src/main/java/com/arslan/stockpricepulse/data/mapper/DomainToUiMapper.kt:46-48 | "$", then the digits, "." and exactly two fraction digits |
| PriceFormat.FormatThenParse | app/src/main/java/com/arslan/stockpricepulse/data/mapper/DomainToUiMapper.kt:46-48 | the text reads back as the signed, half-up-rounded cents |
| PriceFormat.FormatIsWithinHalfCent | app/src/main/java/com/arslan/stockpricepulse/data/mapper/DomainToUiMapper.kt:46-48 | the value the text shows is within half a cent of the price |
| PriceFormat.FormatPadsFraction | app/src/main/java/com/arslan/stockpricepulse/data/mapper/DomainToUiMapper.kt:44-48 | 174.5 shows as "$174.50" |
| PriceFormat.FormatKeepsCents | app/src/main/java/com/arslan/stockpricepulse/data/mapper/DomainToUiMapper.kt:44-48 | 174.55 shows as "$174.55" |
| PriceFormat.FormatZero | app/src/main/java/com/arslan/stockpricepulse/data/mapper/DomainToUiMapper.kt:46-48 | 0 shows as "$0.00" |
| UiMapper.ToUi | app/src/main/java/com/arslan/stockpricepulse/data/mapper/DomainToUiMapper.kt:18-28 | symbol, company name and movement carried over; price value is the current price; change metrics are the stock's |
| UiMapper.ToUiPriceText | app/src/main/java/com/arslan/stockpricepulse/data/mapper/DomainToUiMapper.kt:18-28 | the price text has the "$d.dd" shape and reads back as the current price in cents |
| UiMapper.ToUiExamples | app/src/main/java/com/arslan/stockpricepulse/data/mapper/DomainToUiMapper.kt:18-28 | (150,100) gives +50/+50% Up; (100,150) gives -50/-33.3…% Down |
| UiMapper.ToUiList | app/src/main/java/com/arslan/stockpricepulse/data/mapper/DomainToUiMapper.kt:36-38 | same length; each element is the UI model of the stock at the same position |
| UiState.PriceTrackerUiState.IsFeedActive | app/src/main/java/com/arslan/stockpricepulse/ui/screens/pricetracker/PriceTrackerUiState.kt:24-25 | active exactly when Connected and not loading |
| UiState.PriceTrackerUiState.IsStartButtonEnabled | app/src/main/java/com/arslan/stockpricepulse/ui/screens/pricetracker/PriceTrackerUiState.kt:30-31 | enabled exactly when Disconnected and not loading |
| UiState.PriceTrackerUiState.IsStopButtonEnabled | app/src/main/java/com/arslan/stockpricepulse/ui/screens/pricetracker/PriceTrackerUiState.kt:36-37 | enabled exactly when Connected and not loading |
| UiState.ButtonsExclusive | app/src/main/java/com/arslan/stockpricepulse/ui/screens/pricetracker/PriceTrackerUiState.kt:24-37 | start and stop never both enabled; feed active iff stop enabled |
| UiState.BothDisabledWhenBusy | app/src/main/java/com/arslan/stockpricepulse/ui/screens/pricetracker/PriceTrackerUiState.kt:24-37 | loading, connecting or error disables both buttons and the feed |
| UiState.DefaultStateFlags | app/src/main/java/com/arslan/stockpricepulse/ui/screens/pricetracker/PriceTrackerUiState.kt:15-37 | the default state enables start only |
| MockPriceSource.CatalogEntry | app/src/main/java/com/arslan/stockpricepulse/data/datasource/mock/MockStockPriceDataSource.kt:35-61 | every base price is positive, and the i-th symbol is found at position i |
| MockPriceSource.CatalogIndexFindsSymbol | app/src/main/java/com/arslan/stockpricepulse/data/datasource/mock/MockStockPriceDataSource.kt:35-61 | a found index holds the symbol that was looked up |
| MockPriceSource.Symbol | app/src/main/java/com/arslan/stockpricepulse/data/datasource/mock/MockStockPriceDataSource.kt:35-61 | the lookup of the i-th symbol returns i, so the 25 symbols are distinct |
| MockPriceSource.Base | app/src/main/java/com/arslan/stockpricepulse/data/datasource/mock/MockStockPriceDataSource.kt:35-61 | each base price is positive |
| MockPriceSource.BasePriceOf | app/src/main/java/com/arslan/stockpricepulse/data/datasource/mock/MockStockPriceDataSource.kt:78 | a base price exists exactly for catalog symbols, and it is that symbol's |
| MockPriceSource.Clamp | app/src/main/java/com/arslan/stockpricepulse/data/datasource/mock/MockStockPriceDataSource.kt:124-125 | the result lies in [0.5, 1.5]·base; an in-band candidate is kept |
| MockPriceSource.NextPrice | app/src/main/java/com/arslan/stockpricepulse/data/datasource/mock/MockStockPriceDataSource.kt:122-125 | the new price lies in the band |
| MockPriceSource.UnclampedStepIsExact | app/src/main/java/com/arslan/stockpricepulse/data/datasource/mock/MockStockPriceDataSource.kt:123-125 | an in-band step moves by exactly base·delta |
| MockPriceSource.ClampShortensMove | app/src/main/java/com/arslan/stockpricepulse/data/datasource/mock/MockStockPriceDataSource.kt:124-125 | from inside the band, clamping never moves further than the move, nor the other way |
| MockPriceSource.ScaledDeltaIsBounded | app/src/main/java/com/arslan/stockpricepulse/data/datasource/mock/MockStockPriceDataSource.kt:122-123 | base·delta is within ±5% of the base |
| MockPriceSource.StepIsBounded | app/src/main/java/com/arslan/stockpricepulse/data/datasource/mock/MockStockPriceDataSource.kt:122-125 | from inside the band, one step moves at most 5% of the base |
| MockPriceSource.GenerateInitialPrices | app/src/main/java/com/arslan/stockpricepulse/data/datasource/mock/MockStockPriceDataSource.kt:100-109 | one DTO per symbol in catalog order, at its base price, previous price equal, its own clock reading |
| MockPriceSource.TickIsBounded | app/src/main/java/com/arslan/stockpricepulse/data/datasource/mock/MockStockPriceDataSource.kt:114-137 | every update of a tick from an in-band table moves at most 5% of the base |
| MockPriceSource.MockStockPriceDataSource.constructor | app/src/main/java/com/arslan/stockpricepulse/data/datasource/mock/MockStockPriceDataSource.kt:68-72 | the table holds exactly the catalog symbols, each at its base price |
| MockPriceSource.MockStockPriceDataSource.GenerateUpdatesForAllSymbols | app/src/main/java/com/arslan/stockpricepulse/data/datasource/mock/MockStockPriceDataSource.kt:114-137 | one update per symbol in catalog order: new price, old price as previous, one timestamp; the table stores the new prices and stays in band |
| MockPriceSource.MockStockPriceDataSource.GetCurrentPrice | app/src/main/java/com/arslan/stockpricepulse/data/datasource/mock/MockStockPriceDataSource.kt:142-144 | the stored price of the symbol, present exactly for catalog symbols (null otherwise), inside its band |
| MockPriceSource.MockStockPriceDataSource.GetAllCurrentPrices | app/src/main/java/com/arslan/stockpricepulse/data/datasource/mock/MockStockPriceDataSource.kt:149-151 | the table's contents: catalog symbols only, all present, in band |
| MockPriceSource.ConsecutiveTicksChain | app/src/main/java/com/arslan/stockpricepulse/data/datasource/mock/MockStockPriceDataSource.kt:117-128 | the second tick's previous prices are the first tick's new prices |
| MockPriceSource.InitialBatchIsUnchanged | app/src/main/java/com/arslan/stockpricepulse/data/datasource/mock/MockStockPriceDataSource.kt:100-109 | the initial batch is in band and maps to Unchanged stocks |
| WebSocketSource.ConnectStep | app/src/main/java/com/arslan/stockpricepulse/data/datasource/network/WebSocketDataSourceImpl.kt:65-93 | already connected: emits Connected only; else Connecting then Connected (session and both jobs) or Error(message ?: "Connection failed") |
| WebSocketSource.DisconnectStep | app/src/main/java/com/arslan/stockpricepulse/data/datasource/network/WebSocketDataSourceImpl.kt:95-107 | no session, no jobs, Disconnected; channel and sent messages kept |
| WebSocketSource.SendStep | app/src/main/java/com/arslan/stockpricepulse/data/datasource/network/WebSocketDataSourceImpl.kt:109-122 | nothing when not connected; a write appends the message; a failure sets Error("Failed to send: …") |
| WebSocketSource.Messages | app/src/main/java/com/arslan/stockpricepulse/data/datasource/network/WebSocketDataSourceImpl.kt:115-117 | each wire message rebuilds the DTO at its position |
| WebSocketSource.FrameUpdates | app/src/main/java/com/arslan/stockpricepulse/data/datasource/network/WebSocketDataSourceImpl.kt:145-161 | a frame yields an update iff it is text that decodes, and that update is the decoded message rebuilt as a DTO with all four fields |
| WebSocketSource.Parsed | app/src/main/java/com/arslan/stockpricepulse/data/datasource/network/WebSocketDataSourceImpl.kt:145-162 | never more updates than frames |
| WebSocketSource.ReceiveStep | app/src/main/java/com/arslan/stockpricepulse/data/datasource/network/WebSocketDataSourceImpl.kt:140-169 | parsed frames are appended to the channel in order; while the channel is open the job keeps running; a normal close only ends the job; a failure ends disconnected |
| WebSocketSource.DisconnectIsIdempotent | app/src/main/java/com/arslan/stockpricepulse/data/datasource/network/WebSocketDataSourceImpl.kt:95-107 | disconnecting twice equals disconnecting once |
| WebSocketSource.InitiallyNotConnected | app/src/main/java/com/arslan/stockpricepulse/data/datasource/network/WebSocketDataSourceImpl.kt:58-62 | a new data source is not connected |
| WebSocketSource.SendAllKeepsChannel | app/src/main/java/com/arslan/stockpricepulse/data/datasource/network/WebSocketDataSourceImpl.kt:175-186 | sending a batch leaves the channel alone and keeps the job invariant |
| WebSocketSource.SendAllWritten | app/src/main/java/com/arslan/stockpricepulse/data/datasource/network/WebSocketDataSourceImpl.kt:175-186 | with every write succeeding, the batch's messages are appended in order |
| WebSocketSource.SendAllStopsAtFirstFailure | app/src/main/java/com/arslan/stockpricepulse/data/datasource/network/WebSocketDataSourceImpl.kt:175-186 | the first failed write sets its error, and no later update is sent |
| WebSocketSource.ParsedAppend | app/src/main/java/com/arslan/stockpricepulse/data/datasource/network/WebSocketDataSourceImpl.kt:145-162 | parsing is compositional over concatenated frame runs |
| WebSocketSource.EchoRoundTrip | app/src/main/java/com/arslan/stockpricepulse/data/datasource/network/WebSocketDataSourceImpl.kt:140-162 | if decode inverts encode, the echoed frames of a batch yield exactly the batch |
| WebSocketSource.MalformedFramesAreSkipped | app/src/main/java/com/arslan/stockpricepulse/data/datasource/network/WebSocketDataSourceImpl.kt:146-161 | bad text and non-text frames are dropped; the rest keep order |
| WebSocketSource.ReceiveFailureDisconnects | app/src/main/java/com/arslan/stockpricepulse/data/datasource/network/WebSocketDataSourceImpl.kt:163-167 | a receive exception ends Disconnected, with no session and no jobs |
| WebSocketSource.WebSocketDataSource.constructor | app/src/main/java/com/arslan/stockpricepulse/data/datasource/network/WebSocketDataSourceImpl.kt:58-62 | no session, Disconnected, empty channel, no jobs |
| WebSocketSource.WebSocketDataSource.IsConnectedNow | app/src/main/java/com/arslan/stockpricepulse/data/datasource/network/WebSocketDataSourceImpl.kt:132-134 | session present and status Connected |
| WebSocketSource.WebSocketDataSource.CurrentStatus | app/src/main/java/com/arslan/stockpricepulse/data/datasource/network/WebSocketDataSourceImpl.kt:128-130 | the status flow's value |
| WebSocketSource.WebSocketDataSource.Connect | app/src/main/java/com/arslan/stockpricepulse/data/datasource/network/WebSocketDataSourceImpl.kt:65-93 | new state and emitted statuses are those of ConnectStep |
| WebSocketSource.WebSocketDataSource.Disconnect | app/src/main/java/com/arslan/stockpricepulse/data/datasource/network/WebSocketDataSourceImpl.kt:95-107 | new state is DisconnectStep of the old |
| WebSocketSource.WebSocketDataSource.SendPriceUpdate | app/src/main/java/com/arslan/stockpricepulse/data/datasource/network/WebSocketDataSourceImpl.kt:109-122 | new state is SendStep of the old |
| WebSocketSource.WebSocketDataSource.SendBatch | app/src/main/java/com/arslan/stockpricepulse/data/datasource/network/WebSocketDataSourceImpl.kt:175-186 | new state is the batch sent in order while the job runs and the session is connected |
| WebSocketSource.WebSocketDataSource.Receive | app/src/main/java/com/arslan/stockpricepulse/data/datasource/network/WebSocketDataSourceImpl.kt:140-169 | new state is ReceiveStep of the old |
| WebSocketSource.WebSocketDataSource.PollIncoming | app/src/main/java/com/arslan/stockpricepulse/data/datasource/network/WebSocketDataSourceImpl.kt:124-126 | FIFO: the oldest update is taken, or none when empty |
| Repository.ObservePriceUpdates | app/src/main/java/com/arslan/stockpricepulse/data/repository/StockPriceRepositoryImpl.kt:28-33 | each DTO becomes its domain stock, order kept |
| Repository.ObserveIsToDomainList | app/src/main/java/com/arslan/stockpricepulse/data/repository/StockPriceRepositoryImpl.kt:28-33 | agrees with the mapper's list mapping |
| Repository.ObserveDistributes | app/src/main/java/com/arslan/stockpricepulse/data/repository/StockPriceRepositoryImpl.kt:28-33 | mapping a stream piece by piece equals mapping it whole |
| Repository.EchoedBatchReachesDomain | app/src/main/java/com/arslan/stockpricepulse/data/repository/StockPriceRepositoryImpl.kt:28-33 | an echoed batch arrives as the domain stocks of that batch |
| Repository.StockPriceRepository.constructor | app/src/main/java/com/arslan/stockpricepulse/data/repository/StockPriceRepositoryImpl.kt:15-18 | wraps the given data source |
| Repository.StockPriceRepository.Connect | app/src/main/java/com/arslan/stockpricepulse/data/repository/StockPriceRepositoryImpl.kt:20-22 | delegates: ConnectStep on the data source |
| Repository.StockPriceRepository.Disconnect | app/src/main/java/com/arslan/stockpricepulse/data/repository/StockPriceRepositoryImpl.kt:24-26 | delegates: DisconnectStep on the data source |
| Repository.StockPriceRepository.ObserveConnectionStatus | app/src/main/java/com/arslan/stockpricepulse/data/repository/StockPriceRepositoryImpl.kt:35-37 | the data source's status |
| Repository.StockPriceRepository.IsConnected | app/src/main/java/com/arslan/stockpricepulse/data/repository/StockPriceRepositoryImpl.kt:39-41 | the data source's isConnected |
| Repository.StockPriceRepository.NextPriceUpdate | app/src/main/java/com/arslan/stockpricepulse/data/repository/StockPriceRepositoryImpl.kt:28-33 | the oldest queued DTO, mapped to its stock, and dequeued |
| PriceTracker.Values | app/src/main/java/com/arslan/stockpricepulse/presentation/screens/pricetracker/PriceTrackerViewModel.kt:165 | the map's values in key insertion order |
| PriceTracker.Upsert | app/src/main/java/com/arslan/stockpricepulse/presentation/screens/pricetracker/PriceTrackerViewModel.kt:162 | last write wins; keys gain the symbol; others unchanged; a new symbol goes last, a known one keeps its place |
| PriceTracker.UpsertKeepsTableInv | app/src/main/java/com/arslan/stockpricepulse/presentation/screens/pricetracker/PriceTrackerViewModel.kt:162 | the merged map is still a well-formed linked hash map |
| PriceTracker.SortKeepsSymbols | app/src/main/java/com/arslan/stockpricepulse/presentation/screens/pricetracker/PriceTrackerViewModel.kt:166 | sorting keeps the symbols with their multiplicities |
| PriceTracker.UiListKeepsSymbols | app/src/main/java/com/arslan/stockpricepulse/data/mapper/DomainToUiMapper.kt:36-38 | the UI list has the stocks' symbols in the same order |
| PriceTracker.PublishedSymbols | app/src/main/java/com/arslan/stockpricepulse/presentation/screens/pricetracker/PriceTrackerViewModel.kt:162-169 | the published symbols are the map's keys |
| PriceTracker.PublishedOncePerSymbol | app/src/main/java/com/arslan/stockpricepulse/presentation/screens/pricetracker/PriceTrackerViewModel.kt:162-169 | one published entry per key, none for other symbols |
| PriceTracker.PublishedIsSorted | app/src/main/java/com/arslan/stockpricepulse/presentation/screens/pricetracker/PriceTrackerViewModel.kt:165-169 | the published list is non-increasing in price |
| PriceTracker.TiesFollowInsertionOrder | app/src/main/java/com/arslan/stockpricepulse/presentation/screens/pricetracker/PriceTrackerViewModel.kt:165-166 | equal prices are listed in first-insertion order |
| PriceTracker.AccumulationExample | app/src/main/java/com/arslan/stockpricepulse/presentation/screens/pricetracker/PriceTrackerViewModel.kt:162-165 | AAPL, GOOG, AAPL again: two entries, AAPL with its last price |
| PriceTracker.AccumulationSortExample | app/src/main/java/com/arslan/stockpricepulse/presentation/screens/pricetracker/PriceTrackerViewModel.kt:165-167 | GOOG at 200 is listed before AAPL at 160 |
| PriceTracker.PriceTrackerViewModel.constructor | app/src/main/java/com/arslan/stockpricepulse/presentation/screens/pricetracker/PriceTrackerViewModel.kt:32-45 | default state, empty map, no job, no effects |
| PriceTracker.PriceTrackerViewModel.StartPrologue | app/src/main/java/com/arslan/stockpricepulse/presentation/screens/pricetracker/PriceTrackerViewModel.kt:73 | loading on, error cleared, nothing else changes |
| PriceTracker.PriceTrackerViewModel.OnConnectStatus | app/src/main/java/com/arslan/stockpricepulse/presentation/screens/pricetracker/PriceTrackerViewModel.kt:76-104 | status published, stocks kept; Connected clears loading, starts observing and shows "Connected to price feed"; Error clears loading, stores and shows its message; Disconnected clears loading; Connecting changes nothing else |
| PriceTracker.PriceTrackerViewModel.OnStartFailed | app/src/main/java/com/arslan/stockpricepulse/presentation/screens/pricetracker/PriceTrackerViewModel.kt:105-113 | loading off; message or "Failed to start price feed" stored and shown |
| PriceTracker.PriceTrackerViewModel.Stop | app/src/main/java/com/arslan/stockpricepulse/presentation/screens/pricetracker/PriceTrackerViewModel.kt:120-145 | price job stopped, loading off, stocks kept; success sets Disconnected and shows "Price feed stopped"; failure stores and shows its message or "Failed to stop price feed" |
| PriceTracker.PriceTrackerViewModel.OnPriceUpdate | app/src/main/java/com/arslan/stockpricepulse/presentation/screens/pricetracker/PriceTrackerViewModel.kt:160-170 | while observing: merge, then publish the sorted rendering; otherwise nothing changes |
| PriceTracker.PriceTrackerViewModel.OnPriceStreamFailed | app/src/main/java/com/arslan/stockpricepulse/presentation/screens/pricetracker/PriceTrackerViewModel.kt:154-159 | message or "Error receiving price updates" stored and shown; the stream has ended |
| PriceTracker.PriceTrackerViewModel.OnObservedStatus | app/src/main/java/com/arslan/stockpricepulse/presentation/screens/pricetracker/PriceTrackerViewModel.kt:210-224 | status published; Disconnected stops observing |
| PriceTracker.PriceTrackerViewModel.HandleIntent | app/src/main/java/com/arslan/stockpricepulse/presentation/screens/pricetracker/PriceTrackerViewModel.kt:54-66 | start sets loading and clears the error, nothing else; stop ends observing and, by its outcome, sets Disconnected and shows "Price feed stopped", or stores and shows the message or "Failed to stop price feed"; a status change publishes Connected or Disconnected; an error is stored and shown; a price update changes nothing; the stocks map is untouched and earlier side effects are kept |
| PriceTracker.DisconnectThenUpdate | app/src/main/java/com/arslan/stockpricepulse/presentation/screens/pricetracker/PriceTrackerViewModel.kt:217-221 | after an observed Disconnected, a price update changes nothing |

## Left out

- **Compose screen and UI components.** The Compose screen, the design-system components, the DI module and the activity are left out. They only render or wire the modelled parts.
- **Coroutines and flows.** Coroutines, `StateFlow` conflation and the interleaving of the view model's jobs are not modelled. Each callback is one atomic method. A collector may miss intermediate values of a `StateFlow`; in particular, the transient Error that the receive failure sets just before `disconnect`. The receive loop's `catch` also catches the cancellation that `disconnect()` sends to the receiving job. So an ordinary disconnect can briefly publish `Error("Receive error: …")` and run `disconnect()` a second time. The model's `DisconnectStep` stops the receiving job at once, and `ReceiveStep` does nothing once that job has stopped. The final state is the same, unless a reconnect happens in between.
- **Network and JSON.** The Ktor client, the network and `kotlinx.serialization` become parameters: the open, write and receive outcomes, and the `encode`/`decode` functions. The real codec's round-trip is a precondition of `EchoRoundTrip`, not a proof.
- **Close errors.** The errors `disconnect` swallows from `close()` have no effect on state, so they are not inputs.
- **The update loop and randomness.** The mock's `while (true)` loop with `delay`, `onStart`, `System.currentTimeMillis()` and `Random.nextDouble` are left out as such. Each tick is one call, given its deltas and its timestamp.
- **Pass-through use cases.** The `ObservePriceUpdatesUseCase` and `ManageWebSocketConnectionUseCase` wrappers are not modelled separately. They pass calls through to the repository unchanged.
- **Company names.** `MockStockPriceDataSource.getCompanyName` is not part of the shown source. It is the parameter `companyName`.
- **The second `StockUiModel`.** The four-field `StockUiModel` of the `ui` package is not modelled. The state holds the mapper's seven-field model, which is the value the view model stores.
- **Reconnecting with a live session.** When `connect` runs again while a session exists but the status is not Connected, the old jobs are orphaned. The model keeps one flag per job, so it does not track orphaned jobs.
- **Floating point.** IEEE-754 doubles are modelled as exact reals: no rounding in `basePrice * deltaPercent`, no NaN and no infinities.
- **Locale.** `String.format` is modelled with the `.` decimal separator and no grouping, as in a default English locale.
- **Timestamps.** Timestamps are unbounded integers; Kotlin `Long` overflow is not modelled.
- PriceFormat.FormatPrice: its contract states the shape of the text. The exact value it denotes is stated by FormatThenParse instead, to keep each proof small.
- SortStocksUseCase.SortByPriceDescending: its contract states only the length. Sortedness and permutation are stated by SortIsOrderedPermutation, and stability by SortIsStable.
- Domain.PriceChangePercent: its contract states only the zero-previous-price case. The relation to the change is stated by PercentScalesChange and PercentHasSignOfChange.
