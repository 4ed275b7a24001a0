/*******************************************************************************
 *  `SseServer` (its state and `send` are the shared `BroadcastServer` of the
 *  Streams module): a request for `/events` or `/` registers the client and
 *  answers with an event stream carrying every broadcast message as a
 *  `data:` event.
 *
 *  Modelled here:
 *    - the routing and response of `handle_request`;
 *    - the framing of broadcast messages, with a parser that recovers them;
 *    - the accept loop, the requests and the registry cleanup as one
 *      sequential event system over the shared client registry. The 100 ms
 *      sleep before the cleanup becomes an event of its own, which may come
 *      at any point after the response.
 *******************************************************************************/

module Sse {
  import opened Primitives
  import Seqs
  import Registry

  // ---------------------------------------------------------------------------
  // Routing and response
  // ---------------------------------------------------------------------------

  /** The paths the event stream is served on. */
  predicate IsStreamPath(path: string)
  {
    path == "/events" || path == "/"
  }

  /** The response: status, headers and whether its body is the client's
      subscription to the broadcast channel. */
  datatype Response = Response(status: nat, headers: seq<(string, string)>, streaming: bool)

  const NOT_FOUND: nat := 404
  const OK: nat := 200

  /** The headers of an event-stream response, in the order they are set. */
  const STREAM_HEADERS: seq<(string, string)> := [
    ("Content-Type", "text/event-stream"),
    ("Cache-Control", "no-cache"),
    ("Connection", "keep-alive"),
    ("Access-Control-Allow-Origin", "*")
  ]

  /** `handle_request` up to the response: any other path gets an empty 404
      and leaves the registry alone; a stream path registers the client's id
      with its address, subscribes, and answers 200 with the SSE headers. */
  function HandleRequest(reg: Registry.Registry, id: Registry.ClientId, addr: Registry.SocketAddr, path: string)
    : (res: (Registry.Registry, Response))
    ensures !IsStreamPath(path) ==> res.0 == reg && res.1 == Response(NOT_FOUND, [], false)
    ensures IsStreamPath(path) ==> res.1 == Response(OK, STREAM_HEADERS, true)
    ensures IsStreamPath(path) ==> res.0.clients == reg.clients[id := addr] && res.0.nextClientId == reg.nextClientId
    ensures res.1.streaming <==> res.1.status == OK
  {
    if path != "/events" && path != "/" then (reg, Response(NOT_FOUND, [], false))
    else (Registry.Insert(reg, id, addr), Response(OK, STREAM_HEADERS, true))
  }

  // ---------------------------------------------------------------------------
  // Framing
  // ---------------------------------------------------------------------------

  /** What the subscription yields: a message, or the number of messages the
      client fell behind by. */
  datatype Received = Message(text: string) | Lagged(count: U64)

  const DATA_PREFIX: string := "data: "

  /** The SSE event carrying one message. */
  function Frame(msg: string): (f: string)
    ensures |f| == |msg| + 8
    ensures f[..6] == DATA_PREFIX && f[6..|f| - 2] == msg && f[|f| - 2..] == "\n\n"
  {
    DATA_PREFIX + msg + "\n\n"
  }

  /** The `filter_map` over the subscription: a message becomes its event,
      a lag produces nothing and the stream goes on. */
  function FrameOf(item: Received): Option<string>
  {
    match item
    case Message(data) => Some(Frame(data))
    case Lagged(_) => None
  }

  /** The events of a stream, in the order the messages arrive. */
  function Events(items: seq<Received>): (r: seq<string>)
    ensures |r| <= |items|
  {
    Seqs.FilterMap(items, FrameOf)
  }

  /** The message an item carries, if any. */
  function MessageOf(item: Received): Option<string>
  {
    if item.Message? then Some(item.text) else None
  }

  /** The messages of a subscription, lags dropped. */
  function Messages(items: seq<Received>): seq<string>
  {
    Seqs.FilterMap(items, MessageOf)
  }

  /** The bytes of the response body: the events one after the other. */
  function Concat(events: seq<string>): string
  {
    if |events| == 0 then "" else events[0] + Concat(events[1..])
  }

  /** The index of the first line feed at or after `from`, or the length of
      `s` when there is none. */
  function NextLineFeed(s: string, from: nat): (j: nat)
    requires from <= |s|
    ensures from <= j <= |s|
    ensures j < |s| ==> s[j] == '\n'
    ensures forall k :: from <= k < j ==> s[k] != '\n'
    decreases |s| - from
  {
    if from == |s| || s[from] == '\n' then from else NextLineFeed(s, from + 1)
  }

  /** A client's reading of an event-stream body: each event is "data: ",
      a line, and an empty line. Fails on anything else. */
  function Unframe(body: string): (r: Option<seq<string>>)
    decreases |body|
  {
    if |body| == 0 then Some([])
    else if |body| < 6 || body[..6] != DATA_PREFIX then None
    else
      var j := NextLineFeed(body, 6);
      if j + 1 < |body| && body[j + 1] == '\n' then
        match Unframe(body[j + 2..])
        case Some(rest) => Some([body[6..j]] + rest)
        case None => None
      else None
  }

  /** A message that fits on one line. */
  predicate OneLine(msg: string)
  {
    forall k :: 0 <= k < |msg| ==> msg[k] != '\n'
  }

  /** Reading one event off the front of a body. */
  lemma UnframeFirst(msg: string, rest: string)
    requires OneLine(msg)
    ensures Unframe(Frame(msg) + rest) == match Unframe(rest) case Some(ms) => Some([msg] + ms) case None => None
  {
    var body := Frame(msg) + rest;
    assert body[..6] == DATA_PREFIX;
    var j := NextLineFeed(body, 6);
    assert body[6 + |msg|] == '\n';
    assert forall k :: 6 <= k < 6 + |msg| ==> body[k] == msg[k - 6];
    assert j == 6 + |msg|;
    assert body[j + 1] == '\n';
    assert body[6..j] == msg;
    assert body[j + 2..] == rest;
  }

  /** A client recovers every message, in order, from the body of its
      stream, as long as each message fits on one line (serialized JSON
      does); lags leave no trace in the body. */
  lemma {:induction false} UnframeEvents(items: seq<Received>)
    requires forall i :: 0 <= i < |items| && items[i].Message? ==> OneLine(items[i].text)
    ensures Unframe(Concat(Events(items))) == Some(Messages(items))
    decreases |items|
  {
    if |items| > 0 {
      UnframeEvents(items[1..]);
      var rest := Concat(Events(items[1..]));
      if items[0].Message? {
        assert Events(items) == [Frame(items[0].text)] + Events(items[1..]);
        assert Concat(Events(items)) == Frame(items[0].text) + rest;
        assert Messages(items) == [items[0].text] + Messages(items[1..]);
        UnframeFirst(items[0].text, rest);
      } else {
        assert Events(items) == Events(items[1..]);
        assert Messages(items) == Messages(items[1..]);
      }
    }
  }

  // ---------------------------------------------------------------------------
  // The accept loop, requests and cleanup over the shared registry
  // ---------------------------------------------------------------------------

  /** What the server observes: a TCP accept, a request on an accepted
      connection, the cleanup task waking, or a client dropping its stream. */
  datatype ServerEvent =
    | Accepted(addr: Registry.SocketAddr)
    | Request(id: Registry.ClientId, path: string)
    | CleanupWakes(id: Registry.ClientId)
    | StreamDropped(id: Registry.ClientId)

  /** The registry, the accepted connections with their peer addresses, the
      ids whose event stream is open, and the cleanup tasks still asleep. */
  datatype Server = Server(
    registry: Registry.Registry,
    connections: map<Registry.ClientId, Registry.SocketAddr>,
    streams: set<Registry.ClientId>,
    sleeping: set<Registry.ClientId>)

  function StartServer(): (s: Server)
    ensures s.registry.nextClientId == 0 && |s.registry.clients| == 0
    ensures s.connections == map[] && s.streams == {} && s.sleeping == {}
  {
    Server(Registry.Empty(), map[], {}, {})
  }

  /** The registry holds exactly the clients whose event stream is open. */
  predicate Tracked(s: Server)
  {
    s.registry.clients.Keys == s.streams
    && s.streams <= s.connections.Keys
    && (forall c :: c in s.connections ==> c < s.registry.nextClientId)
    && Registry.IdsIssued(s.registry)
  }

  /** Accepting takes an id for the connection and registers nothing: the
      registry is only touched once a stream path is requested. */
  function Accept(s: Server, addr: Registry.SocketAddr): (s': Server)
    ensures s'.registry.clients == s.registry.clients
    ensures s'.registry.nextClientId == (s.registry.nextClientId + 1) % Registry.ID_MODULUS
    ensures s'.connections == s.connections[s.registry.nextClientId := addr]
    ensures s'.streams == s.streams && s'.sleeping == s.sleeping
  {
    var (r1, id) := Registry.TakeId(s.registry);
    s.(registry := r1, connections := s.connections[id := addr])
  }

  /** One server event as the source handles it: every stream response
      starts a cleanup task that wakes after 100 ms and removes the id,
      whether or not the stream is still open; a dropped stream does not
      touch the registry. */
  function ServerStepAsWritten(s: Server, e: ServerEvent): (s': Server)
    ensures e.Request? && e.id in s.connections && IsStreamPath(e.path)
            ==> s'.registry.clients == s.registry.clients[e.id := s.connections[e.id]]
                && s'.streams == s.streams + {e.id} && s'.sleeping == s.sleeping + {e.id}
    ensures e.CleanupWakes? && e.id in s.sleeping
            ==> s'.registry == Registry.Remove(s.registry, e.id) && s'.streams == s.streams
                && s'.sleeping == s.sleeping - {e.id}
    ensures e.StreamDropped? ==> s'.registry == s.registry && s'.streams == s.streams - {e.id}
  {
    match e
    case Accepted(addr) => Accept(s, addr)
    case Request(id, path) =>
      if id !in s.connections then s
      else
        var (reg, resp) := HandleRequest(s.registry, id, s.connections[id], path);
        if resp.streaming then s.(registry := reg, streams := s.streams + {id}, sleeping := s.sleeping + {id})
        else s
    case CleanupWakes(id) =>
      if id in s.sleeping then s.(registry := Registry.Remove(s.registry, id), sleeping := s.sleeping - {id})
      else s
    case StreamDropped(id) => s.(streams := s.streams - {id})
  }

  /** One server event with the removal tied to the end of the stream, as the
      comment at the cleanup intends: no timer, and a dropped stream takes its
      id out of the registry. */
  function ServerStep(s: Server, e: ServerEvent): (s': Server)
    ensures e.Accepted? ==> s' == Accept(s, e.addr)
    ensures e.Request? && e.id in s.connections && IsStreamPath(e.path)
            ==> s'.registry.clients == s.registry.clients[e.id := s.connections[e.id]]
                && s'.streams == s.streams + {e.id}
    ensures e.Request? && !(e.id in s.connections && IsStreamPath(e.path)) ==> s' == s
    ensures e.StreamDropped? && e.id in s.streams
            ==> s'.registry == Registry.Remove(s.registry, e.id) && s'.streams == s.streams - {e.id}
    ensures e.CleanupWakes? || (e.StreamDropped? && e.id !in s.streams) ==> s' == s
    ensures s'.sleeping == s.sleeping
  {
    match e
    case Accepted(addr) => Accept(s, addr)
    case Request(id, path) =>
      if id !in s.connections then s
      else
        var (reg, resp) := HandleRequest(s.registry, id, s.connections[id], path);
        if resp.streaming then s.(registry := reg, streams := s.streams + {id}) else s
    case CleanupWakes(_) => s
    case StreamDropped(id) =>
      if id in s.streams then s.(registry := Registry.Remove(s.registry, id), streams := s.streams - {id})
      else s
  }

  /** Accepting keeps the registry in step with the open streams. */
  lemma AcceptKeepsTracked(s: Server, addr: Registry.SocketAddr)
    requires Tracked(s)
    requires s.registry.nextClientId + 1 < Registry.ID_MODULUS
    ensures Tracked(Accept(s, addr))
  {
  }

  /** Opening a stream keeps the registry in step with the open streams. */
  lemma RequestKeepsTracked(s: Server, id: Registry.ClientId, path: string)
    requires Tracked(s)
    ensures Tracked(ServerStep(s, Request(id, path)))
  {
    var s' := ServerStep(s, Request(id, path));
    if id in s.connections && IsStreamPath(path) {
      assert s'.registry.clients.Keys == s.registry.clients.Keys + {id};
    }
  }

  /** Closing a stream keeps the registry in step with the open streams. */
  lemma DropKeepsTracked(s: Server, id: Registry.ClientId)
    requires Tracked(s)
    ensures Tracked(ServerStep(s, StreamDropped(id)))
  {
    var s' := ServerStep(s, StreamDropped(id));
    if id in s.streams {
      Registry.RemoveCount(s.registry, id);
      assert s'.registry.clients.Keys == s.registry.clients.Keys - {id};
    }
  }

  /** With removal tied to the stream's end, `client_count` is the number of
      open streams after every event (as long as the id counter has not
      wrapped). */
  lemma ServerStepKeepsTracked(s: Server, e: ServerEvent)
    requires Tracked(s)
    requires e.Accepted? ==> s.registry.nextClientId + 1 < Registry.ID_MODULUS
    ensures Tracked(ServerStep(s, e))
    ensures Registry.ClientCount(ServerStep(s, e).registry) == |ServerStep(s, e).streams|
  {
    match e
    case Accepted(addr) => AcceptKeepsTracked(s, addr);
    case Request(id, path) => RequestKeepsTracked(s, id, path);
    case CleanupWakes(_) =>
    case StreamDropped(id) => DropKeepsTracked(s, id);
  }

  /** As written, the cleanup that wakes 100 ms after the response removes a
      client whose stream is still open: `client_count` no longer counts it. */
  lemma CleanupRemovesLiveClient(s: Server, addr: Registry.SocketAddr)
    requires Tracked(s)
    requires s.registry.nextClientId + 1 < Registry.ID_MODULUS
    ensures var id := s.registry.nextClientId;
            var s1 := ServerStepAsWritten(s, Accepted(addr));
            var s2 := ServerStepAsWritten(s1, Request(id, "/events"));
            var s3 := ServerStepAsWritten(s2, CleanupWakes(id));
            id in s3.streams && id !in s3.registry.clients && !Tracked(s3)
  {
  }
}
