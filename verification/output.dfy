/*******************************************************************************
 *  `StreamOutput`: the sink chosen at run time, one of the three backends,
 *  with every call forwarded to the wrapped backend.
 *******************************************************************************/

module Output {
  import opened Primitives
  import opened Envelope
  import opened Streams
  import Print

  datatype StreamOutput =
    | PrintOutput(printer: Print.PrintStream)
    | WebSocketOutput(ws: BroadcastServer)
    | SseOutput(sse: BroadcastServer)

  /** `print()`: the print backend; stdout starts out as whatever the
      process has printed so far. */
  function PrintSink(stdout: seq<string>): (o: StreamOutput)
    ensures o.PrintOutput? && o.printer.stdout == stdout
  {
    PrintOutput(Print.PrintStream(stdout))
  }

  /** `websocket()`: a WebSocket server with channel capacity 100. */
  function WebSocketSink(): (o: StreamOutput)
    ensures o.WebSocketOutput? && o.ws.channel.capacity == 100 && ClientCount(o.ws) == 0
  {
    WebSocketOutput(DefaultServer())
  }

  /** `websocket_with_capacity`: the capacity is passed through unchanged. */
  function WebSocketSinkWithCapacity(capacity: nat): (o: StreamOutput)
    requires ValidCapacity(capacity)
    ensures o.WebSocketOutput? && o.ws.channel.capacity == capacity && ClientCount(o.ws) == 0
  {
    WebSocketOutput(NewServer(capacity))
  }

  /** `sse()`: an SSE server with channel capacity 100. */
  function SseSink(): (o: StreamOutput)
    ensures o.SseOutput? && o.sse.channel.capacity == 100 && ClientCount(o.sse) == 0
  {
    SseOutput(DefaultServer())
  }

  /** `sse_with_capacity`: the capacity is passed through unchanged. */
  function SseSinkWithCapacity(capacity: nat): (o: StreamOutput)
    requires ValidCapacity(capacity)
    ensures o.SseOutput? && o.sse.channel.capacity == capacity && ClientCount(o.sse) == 0
  {
    SseOutput(NewServer(capacity))
  }

  /** `start`: nothing to do for printing; the servers bind their listener,
      which is the only way to fail. */
  function Start(o: StreamOutput, addr: string, bind: Result<(), string>): (r: Result<(), StreamError>)
    ensures o.PrintOutput? ==> r == Ok(())
    ensures !o.PrintOutput? ==> (r.Ok? <==> bind.Ok?)
    ensures !o.PrintOutput? && bind.Err? ==> r.error.message == "Failed to bind to address " + addr + ": " + bind.error
  {
    match o
    case PrintOutput(_) => Ok(())
    case WebSocketOutput(_) => Streams.Start(addr, bind)
    case SseOutput(_) => Streams.Start(addr, bind)
  }

  /** What a sink has delivered: the lines printed or the messages published. */
  function Delivered(o: StreamOutput): seq<string>
  {
    match o
    case PrintOutput(p) => p.stdout
    case WebSocketOutput(ws) => ws.channel.published
    case SseOutput(sse) => sse.channel.published
  }

  /** `send_envelope`, forwarded: every backend delivers the envelope's JSON
      text exactly when its payload serializes, and otherwise delivers
      nothing and reports the serializer's message. The variant never
      changes. */
  function SendEnvelope<T>(o: StreamOutput, ser: Serializer<T>, render: Render, e: StreamEnvelope<T>)
    : (res: (StreamOutput, Result<(), StreamError>))
    ensures res.1.Ok? <==> ser(e.data).Ok?
    ensures res.0.PrintOutput? == o.PrintOutput? && res.0.WebSocketOutput? == o.WebSocketOutput?
    ensures res.1.Ok? ==> Delivered(res.0) == Delivered(o) + [EnvelopeText(ser, render, e).value]
    ensures res.1.Err? ==> res.0 == o && res.1.error == SendError(SERIALIZE_FAILED + ser(e.data).error)
  {
    match o
    case PrintOutput(p) =>
      var (p', r) := Print.SendEnvelope(p, ser, render, e);
      (PrintOutput(p'), r)
    case WebSocketOutput(ws) =>
      var (ws', r) := Streams.SendEnvelope(ws, ser, render, e);
      (WebSocketOutput(ws'), r)
    case SseOutput(sse) =>
      var (sse', r) := Streams.SendEnvelope(sse, ser, render, e);
      (SseOutput(sse'), r)
  }

  /** `send`, forwarded: the same as sending the envelope `new` builds. */
  function Send<T>(o: StreamOutput, ser: Serializer<T>, render: Render, dataType: string, data: T)
    : (res: (StreamOutput, Result<(), StreamError>))
    ensures res.1.Ok? <==> ser(data).Ok?
    ensures res.0.PrintOutput? == o.PrintOutput? && res.0.WebSocketOutput? == o.WebSocketOutput?
    ensures res.1.Ok? ==> Delivered(res.0) == Delivered(o) + [render(Object([("type", String(dataType)), ("data", ser(data).value)]))]
    ensures res.1.Err? ==> res.0 == o
  {
    match o
    case PrintOutput(p) =>
      var (p', r) := Print.Send(p, ser, render, dataType, data);
      (PrintOutput(p'), r)
    case WebSocketOutput(ws) =>
      var (ws', r) := Streams.Send(ws, ser, render, dataType, data);
      (WebSocketOutput(ws'), r)
    case SseOutput(sse) =>
      var (sse', r) := Streams.Send(sse, ser, render, dataType, data);
      (SseOutput(sse'), r)
  }

  /** `send` and `send_envelope` of a fresh envelope agree on every backend. */
  lemma SendIsSendEnvelope<T>(o: StreamOutput, ser: Serializer<T>, render: Render, dataType: string, data: T)
    ensures Send(o, ser, render, dataType, data) == SendEnvelope(o, ser, render, Envelope.New(dataType, data))
  {
  }
}
