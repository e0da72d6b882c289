/**
 * `WebSocketDataSourceImpl`: the transport session. The Ktor client is
 * reduced to a present/absent session handle and the outcomes of opening
 * the session and writing a frame; the JSON codec is a pair of functions
 * given from outside; the price channel is an unbounded FIFO.
 */
module WebSocketSource {
  import opened Wrappers
  import opened Domain
  import opened Dto

  /** How opening the session ended: a handle, or an exception with an optional message. */
  datatype OpenOutcome = Opened | OpenFailed(message: Option<string>)

  /** How writing one text frame ended. */
  datatype WriteOutcome = Written | WriteFailed(message: Option<string>)

  /** A frame from `session.incoming`; only text frames are read. */
  datatype Frame = TextFrame(text: string) | OtherFrame

  /**
   * How the receive loop stands after the frames it has read: still waiting,
   * finished because the channel closed, or ended by an exception.
   */
  datatype ReceiveEnd = StillOpen | ChannelClosed | ChannelFailed(message: Option<string>)

  /**
   * The fields of the data source: the session handle (present or not), the
   * status flow's value, the price channel, the messages written to the socket,
   * and whether the receiving and sending jobs are running.
   */
  datatype SessionState = SessionState(
    hasSession: bool,
    status: ConnectionStatus,
    incoming: seq<StockPriceDto>,
    sent: seq<PriceUpdateMessageDto>,
    receiving: bool,
    sending: bool)

  /** No session, status Disconnected, empty channel, no jobs. */
  const InitialState := SessionState(false, Disconnected, [], [], false, false)

  /** `isConnected`: a session exists and the status is Connected. */
  predicate IsConnected(s: SessionState) {
    s.hasSession && s.status.Connected?
  }

  /** A job only runs while there is a session. */
  predicate Inv(s: SessionState) {
    (s.receiving || s.sending) ==> s.hasSession
  }

  /**
   * `connect`: when already connected, emit Connected and change nothing.
   * Otherwise emit Connecting, then open the session: on success set the
   * handle, emit Connected and start both jobs; on failure emit and store
   * `Error(message ?: "Connection failed")` and leave the handle as it was.
   */
  function ConnectStep(s: SessionState, outcome: OpenOutcome): (r: (SessionState, seq<ConnectionStatus>))
    ensures IsConnected(s) ==> r == (s, [Connected])
    ensures !IsConnected(s) ==> |r.1| == 2 && r.1[0] == Connecting && r.1[1] == r.0.status
    ensures !IsConnected(s) && outcome.Opened? ==> IsConnected(r.0) && r.0.receiving && r.0.sending
    ensures !IsConnected(s) && outcome.OpenFailed? ==>
      && r.0.status == Error(outcome.message.GetOr("Connection failed"))
      && r.0.hasSession == s.hasSession && r.0.receiving == s.receiving && r.0.sending == s.sending
    ensures r.0.incoming == s.incoming && r.0.sent == s.sent
    ensures Inv(s) ==> Inv(r.0)
  {
    if IsConnected(s) then
      (s, [Connected])
    else
      match outcome
      case Opened =>
        var session := s.(hasSession := true, status := Connected, receiving := true, sending := true);
        (session, [Connecting, Connected])
      case OpenFailed(message) =>
        var failed := Error(message.GetOr("Connection failed"));
        (s.(status := failed), [Connecting, failed])
  }

  /**
   * `disconnect`: cancel both jobs, close the session (a close error is
   * swallowed), drop the handle and set Disconnected. The channel and the
   * messages already written are kept.
   */
  function DisconnectStep(s: SessionState): (r: SessionState)
    ensures !IsConnected(r) && r.status == Disconnected && Inv(r)
    ensures !r.hasSession && !r.receiving && !r.sending
    ensures r.incoming == s.incoming && r.sent == s.sent
  {
    s.(hasSession := false, status := Disconnected, receiving := false, sending := false)
  }

  /** The status text of a failed write: the Kotlin template prints a null message as "null". */
  function SendErrorText(message: Option<string>): string {
    "Failed to send: " + TemplateText(message)
  }

  /** The status text of a failed receive loop. */
  function ReceiveErrorText(message: Option<string>): string {
    "Receive error: " + TemplateText(message)
  }

  /**
   * `sendPriceUpdate`: nothing when not connected; otherwise the DTO is turned
   * into a wire message and written; a failed write stores an Error status.
   */
  function SendStep(s: SessionState, dto: StockPriceDto, outcome: WriteOutcome): (r: SessionState)
    ensures !IsConnected(s) ==> r == s
    ensures IsConnected(s) && outcome.Written? ==> r == s.(sent := s.sent + [FromStockPriceDto(dto)])
    ensures IsConnected(s) && outcome.WriteFailed? ==>
      r == s.(status := Error(SendErrorText(outcome.message))) && !IsConnected(r)
    ensures Inv(s) ==> Inv(r)
  {
    if !IsConnected(s) then s
    else match outcome
      case Written => s.(sent := s.sent + [FromStockPriceDto(dto)])
      case WriteFailed(message) => s.(status := Error(SendErrorText(message)))
  }

  /** Sending a list of updates one after the other, each with its own write outcome. */
  function SendAll(s: SessionState, batch: seq<StockPriceDto>, outcomes: seq<WriteOutcome>): SessionState
    requires |outcomes| == |batch|
  {
    if |batch| == 0 then s
    else SendStep(SendAll(s, batch[..|batch| - 1], outcomes[..|batch| - 1]), batch[|batch| - 1], outcomes[|batch| - 1])
  }

  /**
   * One emission collected by the sending job: while the job runs and the
   * session is connected, every update of the batch is sent in order.
   */
  function SendBatchStep(s: SessionState, batch: seq<StockPriceDto>, outcomes: seq<WriteOutcome>): SessionState
    requires |outcomes| == |batch|
  {
    if s.sending && IsConnected(s) then SendAll(s, batch, outcomes) else s
  }

  /** The wire messages for a list of updates, in order. */
  function Messages(batch: seq<StockPriceDto>): (r: seq<PriceUpdateMessageDto>)
    ensures |r| == |batch|
    ensures forall i :: 0 <= i < |batch| ==> ToStockPriceDto(r[i]) == batch[i]
  {
    seq(|batch|, i requires 0 <= i < |batch| => FromStockPriceDto(batch[i]))
  }

  /** What one frame adds to the channel: the rebuilt DTO of a text frame that parses, else nothing. */
  function FrameUpdates(frame: Frame, decode: string -> Option<PriceUpdateMessageDto>): (r: seq<StockPriceDto>)
    ensures |r| <= 1
    ensures |r| == 1 <==> frame.TextFrame? && decode(frame.text).Some?
    ensures frame.TextFrame? && decode(frame.text).Some? ==> r == [ToStockPriceDto(decode(frame.text).value)]
  {
    match frame
    case TextFrame(text) =>
      (match decode(text)
       case Some(message) => [ToStockPriceDto(message)]
       case None => [])
    case OtherFrame => []
  }

  /** The updates the receive loop sends to the channel for a list of frames, in frame order. */
  function Parsed(frames: seq<Frame>, decode: string -> Option<PriceUpdateMessageDto>): (r: seq<StockPriceDto>)
    ensures |r| <= |frames|
  {
    if |frames| == 0 then []
    else Parsed(frames[..|frames| - 1], decode) + FrameUpdates(frames[|frames| - 1], decode)
  }

  /**
   * `startReceiving`, over the frames read so far: nothing while the job is
   * not running; otherwise each parsed frame goes to the channel. A closed
   * channel ends the job; an exception stores `Error("Receive error: ...")`
   * and then disconnects.
   */
  function ReceiveStep(s: SessionState, frames: seq<Frame>, end: ReceiveEnd,
                       decode: string -> Option<PriceUpdateMessageDto>): (r: SessionState)
    ensures !s.receiving ==> r == s
    ensures s.receiving ==> r.incoming == s.incoming + Parsed(frames, decode) && r.sent == s.sent
    ensures s.receiving && !end.ChannelFailed? ==>
      r.hasSession == s.hasSession && r.status == s.status && r.sending == s.sending
    ensures s.receiving && end.StillOpen? ==> r.receiving
    ensures s.receiving && end.ChannelClosed? ==> !r.receiving
    ensures s.receiving && end.ChannelFailed? ==> r == DisconnectStep(r) && !IsConnected(r)
    ensures Inv(s) ==> Inv(r)
  {
    if !s.receiving then s
    else
      var afterFrames := s.(incoming := s.incoming + Parsed(frames, decode));
      match end
      case StillOpen => afterFrames
      case ChannelClosed => afterFrames.(receiving := false)
      case ChannelFailed(message) =>
        DisconnectStep(afterFrames.(status := Error(ReceiveErrorText(message))))
  }

  /** `disconnect` twice is `disconnect` once. */
  lemma DisconnectIsIdempotent(s: SessionState)
    ensures DisconnectStep(DisconnectStep(s)) == DisconnectStep(s)
  {
  }

  /** The fresh data source is not connected. */
  lemma InitiallyNotConnected()
    ensures !IsConnected(InitialState) && Inv(InitialState)
  {
  }

  /** Sending a batch never touches the channel and keeps the invariant. */
  lemma {:induction false} SendAllKeepsChannel(s: SessionState, batch: seq<StockPriceDto>, outcomes: seq<WriteOutcome>)
    requires |outcomes| == |batch|
    ensures SendAll(s, batch, outcomes).incoming == s.incoming
    ensures Inv(s) ==> Inv(SendAll(s, batch, outcomes))
    decreases |batch|
  {
    if |batch| > 0 {
      SendAllKeepsChannel(s, batch[..|batch| - 1], outcomes[..|batch| - 1]);
    }
  }

  /** When every write succeeds, a connected session writes the whole batch, in order, and stays connected. */
  lemma {:induction false} SendAllWritten(s: SessionState, batch: seq<StockPriceDto>, outcomes: seq<WriteOutcome>)
    requires |outcomes| == |batch| && IsConnected(s)
    requires forall i :: 0 <= i < |outcomes| ==> outcomes[i].Written?
    ensures SendAll(s, batch, outcomes) == s.(sent := s.sent + Messages(batch))
    decreases |batch|
  {
    if |batch| > 0 {
      var n := |batch| - 1;
      SendAllWritten(s, batch[..n], outcomes[..n]);
      assert Messages(batch) == Messages(batch[..n]) + [FromStockPriceDto(batch[n])];
    }
  }

  /**
   * The first failed write ends the batch: the updates before it are written,
   * the status becomes its send error, and the later updates are not sent.
   */
  lemma {:induction false} SendAllStopsAtFirstFailure(s: SessionState, batch: seq<StockPriceDto>,
                                                      outcomes: seq<WriteOutcome>, j: nat)
    requires |outcomes| == |batch| && IsConnected(s)
    requires j < |batch| && outcomes[j].WriteFailed?
    requires forall i :: 0 <= i < j ==> outcomes[i].Written?
    ensures SendAll(s, batch, outcomes) ==
      s.(sent := s.sent + Messages(batch[..j]), status := Error(SendErrorText(outcomes[j].message)))
    ensures !IsConnected(SendAll(s, batch, outcomes))
    decreases |batch|
  {
    var n := |batch| - 1;
    if n == j {
      assert batch[..n][..j] == batch[..j];
      SendAllWritten(s, batch[..n], outcomes[..n]);
    } else {
      assert batch[..n][..j] == batch[..j];
      SendAllStopsAtFirstFailure(s, batch[..n], outcomes[..n], j);
    }
  }

  /** The receive loop is compositional: reading two runs of frames is reading their concatenation. */
  lemma {:induction false} ParsedAppend(f1: seq<Frame>, f2: seq<Frame>, decode: string -> Option<PriceUpdateMessageDto>)
    ensures Parsed(f1 + f2, decode) == Parsed(f1, decode) + Parsed(f2, decode)
    decreases |f2|
  {
    if |f2| > 0 {
      var n := |f2| - 1;
      assert (f1 + f2)[..|f1 + f2| - 1] == f1 + f2[..n];
      ParsedAppend(f1, f2[..n], decode);
    } else {
      assert f1 + f2 == f1;
    }
  }

  /** The frames the echo server sends back for a batch: one text frame per encoded message. */
  function EchoFrames(batch: seq<StockPriceDto>, encode: PriceUpdateMessageDto -> string): (r: seq<Frame>)
    ensures |r| == |batch|
  {
    seq(|batch|, i requires 0 <= i < |batch| => TextFrame(encode(FromStockPriceDto(batch[i]))))
  }

  /**
   * Echo round trip: when the codec decodes what it encodes, receiving the
   * echoed frames of a batch puts exactly that batch into the channel.
   */
  lemma {:induction false} EchoRoundTrip(batch: seq<StockPriceDto>, encode: PriceUpdateMessageDto -> string,
                                         decode: string -> Option<PriceUpdateMessageDto>)
    requires forall m :: decode(encode(m)) == Some(m)
    ensures Parsed(EchoFrames(batch, encode), decode) == batch
    decreases |batch|
  {
    if |batch| > 0 {
      var n := |batch| - 1;
      assert EchoFrames(batch, encode)[..n] == EchoFrames(batch[..n], encode);
      EchoRoundTrip(batch[..n], encode, decode);
      DtoRoundTrip(batch[n]);
      assert batch[..n] + [batch[n]] == batch;
    }
  }

  /** A malformed text frame and a binary frame between two good frames are skipped; the rest keep their order. */
  lemma MalformedFramesAreSkipped(a: string, bad: string, c: string, m1: PriceUpdateMessageDto, m3: PriceUpdateMessageDto,
                                  decode: string -> Option<PriceUpdateMessageDto>)
    requires decode(a) == Some(m1) && decode(bad) == None && decode(c) == Some(m3)
    ensures Parsed([TextFrame(a), TextFrame(bad), OtherFrame, TextFrame(c)], decode) ==
      [ToStockPriceDto(m1), ToStockPriceDto(m3)]
  {
    var frames := [TextFrame(a), TextFrame(bad), OtherFrame, TextFrame(c)];
    assert frames[..1][..0] == [];
    assert Parsed(frames[..1], decode) == [ToStockPriceDto(m1)];
    assert frames[..2][..1] == frames[..1];
    assert Parsed(frames[..2], decode) == [ToStockPriceDto(m1)];
    assert frames[..3][..2] == frames[..2];
    assert Parsed(frames[..3], decode) == [ToStockPriceDto(m1)];
  }

  /** A receive failure ends Disconnected with no session and no jobs, whatever came before. */
  lemma ReceiveFailureDisconnects(s: SessionState, frames: seq<Frame>, message: Option<string>,
                                  decode: string -> Option<PriceUpdateMessageDto>)
    requires s.receiving
    ensures var r := ReceiveStep(s, frames, ChannelFailed(message), decode);
      r.status == Disconnected && !r.hasSession && !r.receiving && !r.sending
  {
  }

  class WebSocketDataSource {
    var hasSession: bool
    var status: ConnectionStatus
    var incoming: seq<StockPriceDto>
    var sent: seq<PriceUpdateMessageDto>
    var receiving: bool
    var sending: bool
    /** The JSON decoder: a text frame either parses to a message or is skipped. */
    const decode: string -> Option<PriceUpdateMessageDto>

    /** The fields as one value. */
    function State(): SessionState
      reads this
    {
      SessionState(hasSession, status, incoming, sent, receiving, sending)
    }

    ghost predicate Valid()
      reads this
    {
      Inv(State())
    }

    /** A new data source: no session, Disconnected, empty channel. */
    constructor (decode: string -> Option<PriceUpdateMessageDto>)
      ensures State() == InitialState && Valid()
      ensures this.decode == decode
    {
      hasSession := false;
      status := Disconnected;
      incoming := [];
      sent := [];
      receiving := false;
      sending := false;
      this.decode := decode;
    }

    /** `isConnected`. */
    function IsConnectedNow(): (r: bool)
      reads this
      ensures r <==> IsConnected(State())
    {
      hasSession && status.Connected?
    }

    /** `observeConnectionStatus`: the current value of the status flow. */
    function CurrentStatus(): (r: ConnectionStatus)
      reads this
      ensures r == State().status
    {
      status
    }

    /** `connect`, returning the statuses the flow emits. */
    method Connect(outcome: OpenOutcome) returns (emitted: seq<ConnectionStatus>)
      requires Valid()
      modifies this
      ensures Valid()
      ensures (State(), emitted) == ConnectStep(old(State()), outcome)
    {
      if IsConnectedNow() {
        return [ConnectionStatus.Connected];
      }
      status := Connecting;
      emitted := [Connecting];
      match outcome
      case Opened =>
        hasSession := true;
        status := ConnectionStatus.Connected;
        emitted := emitted + [ConnectionStatus.Connected];
        assert emitted == [Connecting, ConnectionStatus.Connected];
        receiving := true;
        sending := true;
      case OpenFailed(message) =>
        var failed := Error(message.GetOr("Connection failed"));
        status := failed;
        emitted := emitted + [failed];
        assert emitted == [Connecting, failed];
    }

    /** `disconnect`. */
    method Disconnect()
      modifies this
      ensures State() == DisconnectStep(old(State()))
      ensures Valid()
    {
      sending := false;
      receiving := false;
      hasSession := false;
      status := Disconnected;
    }

    /** `sendPriceUpdate`, given how the write ends. */
    method SendPriceUpdate(dto: StockPriceDto, outcome: WriteOutcome)
      requires Valid()
      modifies this
      ensures Valid()
      ensures State() == SendStep(old(State()), dto, outcome)
    {
      if !IsConnectedNow() {
        return;
      }
      var message := FromStockPriceDto(dto);
      match outcome
      case Written =>
        sent := sent + [message];
      case WriteFailed(error) =>
        status := Error(SendErrorText(error));
    }

    /** The body of the sending job for one collected batch: `forEach` sends each update. */
    method SendBatch(batch: seq<StockPriceDto>, outcomes: seq<WriteOutcome>)
      requires Valid() && |outcomes| == |batch|
      modifies this
      ensures Valid()
      ensures State() == SendBatchStep(old(State()), batch, outcomes)
    {
      if !sending || !IsConnectedNow() {
        return;
      }
      var i := 0;
      while i < |batch|
        invariant 0 <= i <= |batch| && Valid()
        invariant State() == SendAll(old(State()), batch[..i], outcomes[..i])
      {
        SendPriceUpdate(batch[i], outcomes[i]);
        assert batch[..i + 1][..i] == batch[..i];
        assert outcomes[..i + 1][..i] == outcomes[..i];
        i := i + 1;
      }
      assert batch[..i] == batch && outcomes[..i] == outcomes;
    }

    /** The receiving job over the frames it reads, ending as `end` says. */
    method Receive(frames: seq<Frame>, end: ReceiveEnd)
      requires Valid()
      modifies this
      ensures Valid()
      ensures State() == ReceiveStep(old(State()), frames, end, decode)
    {
      if !receiving {
        return;
      }
      var i := 0;
      while i < |frames|
        invariant 0 <= i <= |frames|
        invariant incoming == old(incoming) + Parsed(frames[..i], decode)
        invariant State() == old(State()).(incoming := incoming)
      {
        match frames[i] {
          case TextFrame(text) =>
            match decode(text) {
              case Some(message) =>
                incoming := incoming + [ToStockPriceDto(message)];
              case None =>
            }
          case OtherFrame =>
        }
        assert frames[..i + 1][..i] == frames[..i];
        i := i + 1;
      }
      assert frames[..i] == frames;
      match end {
        case StillOpen =>
        case ChannelClosed =>
          receiving := false;
        case ChannelFailed(message) =>
          status := Error(ReceiveErrorText(message));
          Disconnect();
      }
    }

    /** Taking the oldest update from the channel (`receiveAsFlow`), if there is one. */
    method PollIncoming() returns (r: Option<StockPriceDto>)
      modifies this
      ensures old(incoming) == [] ==> r == None && incoming == []
      ensures old(incoming) != [] ==> r == Some(old(incoming)[0]) && incoming == old(incoming)[1..]
      ensures State() == old(State()).(incoming := incoming)
    {
      if incoming == [] {
        return None;
      }
      r := Some(incoming[0]);
      incoming := incoming[1..];
    }
  }
}
