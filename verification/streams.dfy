/*******************************************************************************
 *  What the three sinks share: the error type and the serialization of an
 *  envelope to JSON text. What the WebSocket and SSE servers share: binding
 *  the listener, the broadcast channel they publish to
 *  (`tokio::sync::broadcast`, whose internals are abstracted to the list of
 *  messages offered to it), the client registry, and `send`/`send_envelope`,
 *  which the two servers implement identically.
 *******************************************************************************/

module Streams {
  import opened Primitives
  import opened Envelope
  import Registry

  /** `StreamError::SendError(message)`. */
  datatype StreamError = SendError(message: string)

  /** The prefix of the error a failed serialization produces. */
  const SERIALIZE_FAILED: string := "Failed to serialize data: "

  /** The channel capacity `with_default_capacity` uses. */
  const DEFAULT_CAPACITY: nat := 100

  /** The largest capacity `broadcast::channel` accepts: `usize::MAX / 2` on a
      64-bit target. */
  const MAX_CAPACITY: nat := 0x7FFF_FFFF_FFFF_FFFF

  /** `broadcast::channel` panics on a capacity of zero or above `usize::MAX / 2`. */
  predicate ValidCapacity(capacity: nat)
  {
    0 < capacity <= MAX_CAPACITY
  }

  /** The text of a JSON tree (`serde_json::to_string` once the tree exists). */
  type Render = Json -> string

  /** `serde_json::to_string(&envelope)` with the error mapped to a
      `SendError`: the text of the envelope's JSON, or the serializer's
      message behind `SERIALIZE_FAILED`. */
  function EnvelopeText<T>(ser: Serializer<T>, render: Render, e: StreamEnvelope<T>): (r: Result<string, StreamError>)
    ensures r.Ok? <==> ser(e.data).Ok?
    ensures r.Ok? ==> r.value == render(Object([("type", String(e.dataType)), ("data", ser(e.data).value)]))
    ensures r.Err? ==> r.error == SendError(SERIALIZE_FAILED + ser(e.data).error)
  {
    match ToJson(ser, e)
    case Err(msg) => Err(SendError(SERIALIZE_FAILED + msg))
    case Ok(j) => Ok(render(j))
  }

  /** A broadcast channel: its capacity and every message offered to it. */
  datatype Channel = Channel(capacity: nat, published: seq<string>)

  /** `broadcast::channel(capacity)`. */
  function NewChannel(capacity: nat): (c: Channel)
    requires ValidCapacity(capacity)
    ensures c.capacity == capacity && |c.published| == 0
  {
    Channel(capacity, [])
  }

  /** `broadcast_tx.send(json)`: the message is offered to the current
      receivers; with none it is dropped, which the servers do not treat as
      an error, so publishing always succeeds. */
  function Publish(c: Channel, text: string): (c': Channel)
    ensures c'.capacity == c.capacity
    ensures c'.published == c.published + [text]
  {
    c.(published := c.published + [text])
  }

  /** `start` of either server: binding the listener is the only failure;
      `bind` is what the operating system answers. The accept loop then runs
      in the background. */
  function Start(addr: string, bind: Result<(), string>): (r: Result<(), StreamError>)
    ensures r.Ok? <==> bind.Ok?
    ensures bind.Err? ==> r.error == SendError("Failed to bind to address " + addr + ": " + bind.error)
  {
    match bind
    case Ok(_) => Ok(())
    case Err(reason) => Err(SendError("Failed to bind to address " + addr + ": " + reason))
  }

  // ---------------------------------------------------------------------------
  // The state both servers share
  // ---------------------------------------------------------------------------

  /** `WebSocketServer` and `SseServer` have the same fields: the sending side
      of the broadcast channel and the client registry. */
  datatype BroadcastServer = BroadcastServer(channel: Channel, registry: Registry.Registry)

  /** `new` of either server: a channel of the given capacity, counter 0 and no clients. */
  function NewServer(capacity: nat): (s: BroadcastServer)
    requires ValidCapacity(capacity)
    ensures s.channel.capacity == capacity && |s.channel.published| == 0
    ensures s.registry.nextClientId == 0 && ClientCount(s) == 0
  {
    BroadcastServer(NewChannel(capacity), Registry.Empty())
  }

  /** `with_default_capacity`: `new` with capacity 100. */
  function DefaultServer(): (s: BroadcastServer)
    ensures s.channel.capacity == 100 && |s.channel.published| == 0
    ensures s.registry.nextClientId == 0 && ClientCount(s) == 0
  {
    NewServer(DEFAULT_CAPACITY)
  }

  /** `client_count`: the size of the registry. */
  function ClientCount(s: BroadcastServer): (n: nat)
    ensures n == 0 <==> s.registry.clients == map[]
    ensures forall id :: id in s.registry.clients ==> n > 0
  {
    Registry.ClientCount(s.registry)
  }

  /** `send_envelope`: publishes the envelope's JSON. Having no receivers is
      not an error, so the only failure is serialization, which publishes
      nothing. The registry is never touched. */
  function SendEnvelope<T>(s: BroadcastServer, ser: Serializer<T>, render: Render, e: StreamEnvelope<T>)
    : (res: (BroadcastServer, Result<(), StreamError>))
    ensures res.1.Ok? <==> ser(e.data).Ok?
    ensures res.0.registry == s.registry && res.0.channel.capacity == s.channel.capacity
    ensures res.1.Ok? ==> res.0.channel.published == s.channel.published + [EnvelopeText(ser, render, e).value]
    ensures res.1.Err? ==> res.0 == s && res.1.error == SendError(SERIALIZE_FAILED + ser(e.data).error)
  {
    match EnvelopeText(ser, render, e)
    case Err(err) => (s, Err(err))
    case Ok(json) => (s.(channel := Publish(s.channel, json)), Ok(()))
  }

  /** `send`: wraps the payload in an envelope with the label and publishes it. */
  function Send<T>(s: BroadcastServer, ser: Serializer<T>, render: Render, dataType: string, data: T)
    : (res: (BroadcastServer, Result<(), StreamError>))
    ensures res.1.Ok? <==> ser(data).Ok?
    ensures res.0.registry == s.registry
    ensures res.1.Ok? ==> res.0.channel.published
                          == s.channel.published + [render(Object([("type", String(dataType)), ("data", ser(data).value)]))]
    ensures res.1.Err? ==> res.0 == s
  {
    SendEnvelope(s, ser, render, Envelope.New(dataType, data))
  }
}
