/**
 * `PriceTrackerUiState` and the one-shot side effects of the price tracker
 * screen. The state holds the presentation `StockUiModel` that the UI mapper
 * builds, which is what the view model publishes.
 */
module UiState {
  import opened Wrappers
  import opened Domain
  import opened UiMapper

  datatype PriceTrackerUiState = PriceTrackerUiState(
    stocks: seq<StockUiModel>,
    connectionStatus: ConnectionStatus,
    isLoading: bool,
    error: Option<string>)
  {
    /** The feed is active when connected and not loading. */
    predicate IsFeedActive(): (r: bool)
      ensures r <==> connectionStatus == Connected && !isLoading
    {
      connectionStatus.Connected? && !isLoading
    }

    /** Start is offered only when disconnected and not loading. */
    predicate IsStartButtonEnabled(): (r: bool)
      ensures r <==> connectionStatus == Disconnected && !isLoading
    {
      connectionStatus.Disconnected? && !isLoading
    }

    /** Stop is offered only when connected and not loading. */
    predicate IsStopButtonEnabled(): (r: bool)
      ensures r <==> connectionStatus == Connected && !isLoading
    {
      connectionStatus.Connected? && !isLoading
    }
  }

  /** The state's default values: no stocks, disconnected, not loading, no error. */
  const DefaultUiState := PriceTrackerUiState([], Disconnected, false, None)

  /** One-shot notifications to the screen. */
  datatype PriceTrackerSideEffect =
    | ShowError(message: string)
    | ShowSuccess(message: string)
    | ShowMessage(message: string)

  /** Start and stop are never offered together; the feed is active exactly when stop is offered. */
  lemma ButtonsExclusive(s: PriceTrackerUiState)
    ensures !(s.IsStartButtonEnabled() && s.IsStopButtonEnabled())
    ensures s.IsFeedActive() <==> s.IsStopButtonEnabled()
  {
  }

  /** While loading, or while connecting or in error, neither button is offered. */
  lemma BothDisabledWhenBusy(s: PriceTrackerUiState)
    requires s.isLoading || s.connectionStatus.Connecting? || s.connectionStatus.Error?
    ensures !s.IsStartButtonEnabled() && !s.IsStopButtonEnabled() && !s.IsFeedActive()
  {
  }

  /** The default state offers start, not stop, and the feed is inactive. */
  lemma DefaultStateFlags()
    ensures DefaultUiState.IsStartButtonEnabled()
    ensures !DefaultUiState.IsStopButtonEnabled()
    ensures !DefaultUiState.IsFeedActive()
  {
  }
}
