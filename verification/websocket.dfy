/*******************************************************************************
 *  `WebSocketServer` (its state and `send` are the shared `BroadcastServer`
 *  of the Streams module): every accepted connection forwards what it
 *  receives from the broadcast channel to its client until one side hangs up.
 *
 *  The model has two layers:
 *    - the connection loop `handle_connection` as a step function over the
 *      events its `select!` can observe, and its run over a sequence of
 *      them. Whether a write to the socket succeeds is part of each event;
 *    - the accept loop and the connection tasks as one sequential event
 *      system over the shared client registry.
 *******************************************************************************/

module WebSocket {
  import opened Primitives
  import opened Streams
  import Seqs
  import Registry

  // ---------------------------------------------------------------------------
  // The connection loop
  // ---------------------------------------------------------------------------

  /** A message read from the client. */
  datatype ClientMessage =
    | CloseMessage
    | PingMessage(payload: Bytes)
    | TextMessage(text: string)
    | OtherMessage          // Binary, Pong or a raw frame

  /** What one iteration of the `select!` observes: a read from the client
      (`Some(Ok(..))`, `None`, `Some(Err(..))`) or a receive from the
      broadcast channel (`Ok(msg)`, `Lagged(n)`, `Closed`). */
  datatype Input =
    | Read(message: ClientMessage)
    | EndOfStream
    | ReadError(reason: string)
    | Received(text: string)
    | Lagged(count: U64)
    | ChannelClosed

  /** A frame written to the client. */
  datatype Frame = Pong(payload: Bytes) | Text(text: string)

  /** One iteration: what it observes, and whether a write it makes succeeds. */
  datatype Event = Event(input: Input, writeOk: bool)

  /** The outcome of one iteration: the frame delivered, if any, and whether
      the loop breaks. */
  datatype Reaction = Reaction(written: Option<Frame>, exit: bool)

  /** The inputs on which the loop breaks whatever else happens. */
  predicate HangsUp(input: Input)
  {
    input == Read(CloseMessage) || input == EndOfStream || input.ReadError? || input == ChannelClosed
  }

  /** The frame an input makes the loop write: a pong echoing a ping's
      payload, or a broadcast message as a text frame. */
  function Reply(input: Input): Option<Frame>
  {
    if input.Read? && input.message.PingMessage? then Some(Pong(input.message.payload))
    else if input.Received? then Some(Text(input.text))
    else None
  }

  /** One iteration of the loop in `handle_connection`, branch by branch. */
  function Step(ev: Event): (r: Reaction)
    ensures r.exit <==> HangsUp(ev.input) || (Reply(ev.input).Some? && !ev.writeOk)
    ensures r.written == if ev.writeOk then Reply(ev.input) else None
    ensures ev.input.Lagged? || ev.input == Read(OtherMessage) || (ev.input.Read? && ev.input.message.TextMessage?)
            ==> r == Reaction(None, false)
  {
    match ev.input
    case Read(CloseMessage) => Reaction(None, true)
    case EndOfStream => Reaction(None, true)
    case Read(PingMessage(data)) => if ev.writeOk then Reaction(Some(Pong(data)), false) else Reaction(None, true)
    case Read(TextMessage(_)) => Reaction(None, false)
    case Read(OtherMessage) => Reaction(None, false)
    case ReadError(_) => Reaction(None, true)
    case Received(msg) => if ev.writeOk then Reaction(Some(Text(msg)), false) else Reaction(None, true)
    case Lagged(_) => Reaction(None, false)
    case ChannelClosed => Reaction(None, true)
  }

  /** The frames delivered by a reaction. */
  function Delivered(r: Reaction): seq<Frame>
  {
    if r.written.Some? then [r.written.value] else []
  }

  /** The run of the loop over a sequence of events: the frames delivered,
      whether the loop broke, and how many events it consumed. */
  datatype Outcome = Outcome(written: seq<Frame>, exited: bool, consumed: nat)

  function Run(events: seq<Event>): (o: Outcome)
    ensures o.consumed <= |events|
    ensures o.exited ==> 0 < o.consumed
    ensures !o.exited ==> o.consumed == |events|
    ensures |o.written| <= o.consumed
    decreases |events|
  {
    if |events| == 0 then Outcome([], false, 0)
    else
      var r := Step(events[0]);
      if r.exit then Outcome(Delivered(r), true, 1)
      else
        var rest := Run(events[1..]);
        Outcome(Delivered(r) + rest.written, rest.exited, 1 + rest.consumed)
  }

  /** The loop breaks at the first event on which a step exits, and never
      before it. */
  lemma {:induction false} RunStopsAtFirstExit(events: seq<Event>)
    ensures forall i :: 0 <= i < Run(events).consumed - 1 ==> !Step(events[i]).exit
    ensures Run(events).exited ==> Step(events[Run(events).consumed - 1]).exit
    ensures !Run(events).exited ==> forall i :: 0 <= i < |events| ==> !Step(events[i]).exit
    decreases |events|
  {
    if |events| > 0 && !Step(events[0]).exit {
      RunStopsAtFirstExit(events[1..]);
      forall i | 1 <= i < |events|
        ensures events[i] == events[1..][i - 1]
      {
      }
    }
  }

  /** The frame an iteration tries to write. */
  function Attempted(ev: Event): Option<Frame>
  {
    Reply(ev.input)
  }

  /** The reply whose failed write ended the run, if any. */
  function Undelivered(events: seq<Event>, o: Outcome): seq<Frame>
    requires o.consumed <= |events|
  {
    if o.exited && 0 < o.consumed && Attempted(events[o.consumed - 1]).Some?
    then [Attempted(events[o.consumed - 1]).value] else []
  }

  /** Every reply the loop owes up to its exit is delivered, in order, except
      a last one whose write failed and ended the loop: every ping read gets
      its pong and every broadcast message reaches the client. */
  lemma {:induction false} RunDeliversEveryReply(events: seq<Event>)
    ensures Seqs.FilterMap(events[..Run(events).consumed], Attempted)
            == Run(events).written + Undelivered(events, Run(events))
    decreases |events|
  {
    if |events| == 0 {
      assert events[..0] == [];
    } else if Step(events[0]).exit {
      FirstStepExits(events);
    } else {
      RunDeliversEveryReply(events[1..]);
      FirstStepContinues(events);
    }
  }

  lemma FirstStepExits(events: seq<Event>)
    requires |events| > 0 && Step(events[0]).exit
    ensures Seqs.FilterMap(events[..Run(events).consumed], Attempted)
            == Run(events).written + Undelivered(events, Run(events))
  {
    var ev := events[0];
    assert Run(events) == Outcome(Delivered(Step(ev)), true, 1);
    assert events[..1] == [ev];
    OneStepOwes(ev);
  }

  lemma FirstStepContinues(events: seq<Event>)
    requires |events| > 0 && !Step(events[0]).exit
    requires Seqs.FilterMap(events[1..][..Run(events[1..]).consumed], Attempted)
             == Run(events[1..]).written + Undelivered(events[1..], Run(events[1..]))
    ensures Seqs.FilterMap(events[..Run(events).consumed], Attempted)
            == Run(events).written + Undelivered(events, Run(events))
  {
    var rest, o := Run(events[1..]), Run(events);
    var first := Delivered(Step(events[0]));
    RunUnfoldsFirst(events);
    OwedUnfoldsFirst(events, o.consumed);
    UndeliveredShifts(events, o, rest);
    Regroup(first, rest.written, Undelivered(events[1..], rest));
  }

  lemma RunUnfoldsFirst(events: seq<Event>)
    requires |events| > 0 && !Step(events[0]).exit
    ensures Run(events).written == Delivered(Step(events[0])) + Run(events[1..]).written
    ensures Run(events).consumed == 1 + Run(events[1..]).consumed
    ensures Run(events).exited == Run(events[1..]).exited
  {
  }

  lemma OwedUnfoldsFirst(events: seq<Event>, c: nat)
    requires 0 < c <= |events| && !Step(events[0]).exit
    ensures Seqs.FilterMap(events[..c], Attempted)
            == Delivered(Step(events[0])) + Seqs.FilterMap(events[1..][..c - 1], Attempted)
  {
    var ev, tail := events[0], events[1..][..c - 1];
    assert events[..c] == [ev] + tail;
    Seqs.FilterMapAppend([ev], tail, Attempted);
    OneStepOwes(ev);
  }

  lemma UndeliveredShifts(events: seq<Event>, o: Outcome, rest: Outcome)
    requires o.consumed == 1 + rest.consumed <= |events| && o.exited == rest.exited
    requires rest.exited ==> 0 < rest.consumed
    ensures Undelivered(events, o) == Undelivered(events[1..], rest)
  {
    assert rest.exited && 0 < rest.consumed ==> events[1..][rest.consumed - 1] == events[o.consumed - 1];
  }

  lemma Regroup<T>(a: seq<T>, b: seq<T>, c: seq<T>)
    ensures a + (b + c) == (a + b) + c
  {
  }

  /** What one iteration owes and what it delivers: everything, unless its
      write failed. */
  lemma OneStepOwes(ev: Event)
    ensures Seqs.FilterMap([ev], Attempted)
            == Delivered(Step(ev)) + (if Step(ev).exit && Attempted(ev).Some? then [Attempted(ev).value] else [])
  {
    assert [ev][1..] == [];
  }

  /** Unfolding the run of a suffix by one event. */
  lemma RunSuffix(events: seq<Event>, k: nat)
    requires k < |events|
    ensures Step(events[k]).exit ==> Run(events[k..]) == Outcome(Delivered(Step(events[k])), true, 1)
    ensures !Step(events[k]).exit
            ==> Run(events[k..]) == Outcome(Delivered(Step(events[k])) + Run(events[k + 1..]).written,
                                            Run(events[k + 1..]).exited, 1 + Run(events[k + 1..]).consumed)
  {
    assert events[k..][0] == events[k];
    assert events[k..][1..] == events[k + 1..];
  }

  /** What `Run` says of a run that has consumed `consumed` events and written
      `written` without exiting. */
  predicate RunsFrom(events: seq<Event>, written: seq<Frame>, consumed: nat)
    requires consumed <= |events|
  {
    var rest := Run(events[consumed..]);
    Run(events) == Outcome(written + rest.written, rest.exited, consumed + rest.consumed)
  }

  /** One iteration keeps the loop's account of the run. */
  lemma ServeIteration(events: seq<Event>, written: seq<Frame>, consumed: nat)
    requires consumed < |events| && RunsFrom(events, written, consumed)
    ensures var r := Step(events[consumed]);
            if r.exit then Run(events) == Outcome(written + Delivered(r), true, consumed + 1)
            else RunsFrom(events, written + Delivered(r), consumed + 1)
  {
    var r, here := Step(events[consumed]), Run(events[consumed..]);
    assert Run(events) == Outcome(written + here.written, here.exited, consumed + here.consumed);
    RunSuffix(events, consumed);
    if !r.exit {
      var rest := Run(events[consumed + 1..]);
      assert here == Outcome(Delivered(r) + rest.written, rest.exited, 1 + rest.consumed);
      assert written + (Delivered(r) + rest.written) == (written + Delivered(r)) + rest.written;
    }
  }

  /** The loop exits exactly when some event makes a step exit. */
  lemma RunExitsIffSomeStepExits(events: seq<Event>)
    ensures Run(events).exited <==> exists i :: 0 <= i < |events| && Step(events[i]).exit
  {
    RunStopsAtFirstExit(events);
    if Run(events).exited {
      var k := Run(events).consumed - 1;
      assert 0 <= k < |events| && Step(events[k]).exit;
    }
  }

  /** The loop as the source runs it, iteration after iteration. */
  method Serve(events: seq<Event>) returns (written: seq<Frame>, exited: bool, consumed: nat)
    ensures Outcome(written, exited, consumed) == Run(events)
    ensures exited <==> exists i :: 0 <= i < |events| && Step(events[i]).exit
  {
    written, exited, consumed := [], false, 0;
    assert events[0..] == events;
    while consumed < |events| && !exited
      invariant consumed <= |events|
      invariant exited ==> Outcome(written, exited, consumed) == Run(events)
      invariant !exited ==> RunsFrom(events, written, consumed)
      decreases |events| - consumed
    {
      ServeIteration(events, written, consumed);
      var r := Step(events[consumed]);
      written := written + Delivered(r);
      consumed := consumed + 1;
      exited := r.exit;
    }
    if !exited {
      assert events[consumed..] == [];
    }
    RunExitsIffSomeStepExits(events);
  }

  // ---------------------------------------------------------------------------
  // The accept loop and the connection tasks over the shared registry
  // ---------------------------------------------------------------------------

  /** What the server observes: a TCP accept, the end of a connection's
      handshake, or an iteration of a connection's loop. */
  datatype ServerEvent =
    | Accepted(addr: Registry.SocketAddr)
    | HandshakeDone(id: Registry.ClientId, handshake: Result<(), string>)
    | Iteration(id: Registry.ClientId, ev: Event)

  /** The registry and the connection tasks still running, split by whether
      their handshake has finished. */
  datatype Server = Server(registry: Registry.Registry, handshaking: set<Registry.ClientId>, open: set<Registry.ClientId>)

  function StartServer(): (s: Server)
    ensures s.registry.nextClientId == 0 && |s.registry.clients| == 0
    ensures s.handshaking == {} && s.open == {}
  {
    Server(Registry.Empty(), {}, {})
  }

  /** The registry holds exactly the connections whose task is still running. */
  predicate Tracked(s: Server)
  {
    s.registry.clients.Keys == s.handshaking + s.open
    && s.handshaking !! s.open
    && Registry.IdsIssued(s.registry)
  }

  /** One server event as the source handles it. A connection whose
      handshake fails returns before the removal at the end of
      `handle_connection`, so its registry entry stays. */
  function ServerStepAsWritten(s: Server, e: ServerEvent): (s': Server)
    ensures e.HandshakeDone? && e.id in s.handshaking && e.handshake.Err?
            ==> s'.registry == s.registry && s'.handshaking == s.handshaking - {e.id} && s'.open == s.open
    ensures !(e.HandshakeDone? && e.handshake.Err?) ==> s' == ServerStep(s, e)
  {
    match e
    case HandshakeDone(id, Err(_)) =>
      if id in s.handshaking then s.(handshaking := s.handshaking - {id}) else s
    case _ => ServerStep(s, e)
  }

  /** One server event with the registry entry removed on every exit of the
      connection task, the failed handshake included. */
  function ServerStep(s: Server, e: ServerEvent): (s': Server)
    ensures e.Accepted? ==> s'.registry.clients == s.registry.clients[s.registry.nextClientId := e.addr]
                            && s'.registry.nextClientId == (s.registry.nextClientId + 1) % Registry.ID_MODULUS
                            && s'.handshaking == s.handshaking + {s.registry.nextClientId}
                            && s'.open == s.open
    ensures e.HandshakeDone? && e.id in s.handshaking
            ==> s'.handshaking == s.handshaking - {e.id}
                && (e.handshake.Ok? ==> s'.open == s.open + {e.id} && s'.registry == s.registry)
                && (e.handshake.Err? ==> s'.open == s.open && s'.registry == Registry.Remove(s.registry, e.id))
    ensures e.Iteration? && e.id in s.open && Step(e.ev).exit
            ==> s'.open == s.open - {e.id} && s'.handshaking == s.handshaking
                && s'.registry == Registry.Remove(s.registry, e.id)
    ensures (e.HandshakeDone? && e.id !in s.handshaking)
            || (e.Iteration? && (e.id !in s.open || !Step(e.ev).exit))
            ==> s' == s
  {
    match e
    case Accepted(addr) =>
      var (r1, id) := Registry.TakeId(s.registry);
      s.(registry := Registry.Insert(r1, id, addr), handshaking := s.handshaking + {id})
    case HandshakeDone(id, handshake) =>
      if id !in s.handshaking then s
      else if handshake.Ok? then s.(handshaking := s.handshaking - {id}, open := s.open + {id})
      else s.(registry := Registry.Remove(s.registry, id), handshaking := s.handshaking - {id})
    case Iteration(id, ev) =>
      if id in s.open && Step(ev).exit
      then s.(registry := Registry.Remove(s.registry, id), open := s.open - {id})
      else s
  }

  /** Registering the next id as a handshaking connection keeps the
      registry in step with the running connections. */
  lemma AcceptKeepsTracked(s: Server, addr: Registry.SocketAddr)
    requires Tracked(s)
    requires s.registry.nextClientId + 1 < Registry.ID_MODULUS
    ensures Tracked(ServerStep(s, Accepted(addr)))
  {
    Registry.RegisterFresh(s.registry, addr);
    var s' := ServerStep(s, Accepted(addr));
    assert s'.registry.clients.Keys == s.registry.clients.Keys + {s.registry.nextClientId};
  }

  /** Dropping a running connection from the registry together with its task
      keeps the two in step. */
  lemma RemoveKeepsTracked(s: Server, id: Registry.ClientId, s': Server)
    requires Tracked(s)
    requires id in s.handshaking + s.open
    requires s'.registry == Registry.Remove(s.registry, id)
    requires s'.handshaking == s.handshaking - {id} && s'.open == s.open - {id}
    ensures Tracked(s')
  {
    Registry.RemoveCount(s.registry, id);
    assert s'.registry.clients.Keys == s.registry.clients.Keys - {id};
  }

  /** With removal on every exit, the registry keeps matching the running
      connections, so `client_count` counts live clients (as long as the id
      counter has not wrapped). */
  lemma ServerStepKeepsTracked(s: Server, e: ServerEvent)
    requires Tracked(s)
    requires e.Accepted? ==> s.registry.nextClientId + 1 < Registry.ID_MODULUS
    ensures Tracked(ServerStep(s, e))
    ensures Registry.ClientCount(ServerStep(s, e).registry) == |ServerStep(s, e).handshaking + ServerStep(s, e).open|
  {
    var s' := ServerStep(s, e);
    match e
    case Accepted(addr) =>
      AcceptKeepsTracked(s, addr);
    case HandshakeDone(id, handshake) =>
      if id in s.handshaking && handshake.Err? {
        RemoveKeepsTracked(s, id, s');
      }
    case Iteration(id, ev) =>
      if id in s.open && Step(ev).exit {
        RemoveKeepsTracked(s, id, s');
      }
  }

  /** As written, a connection whose handshake fails stays in the registry
      after its task has ended: `client_count` counts a client that is gone. */
  lemma HandshakeFailureLeavesEntry(s: Server, addr: Registry.SocketAddr, reason: string)
    requires Tracked(s)
    requires s.registry.nextClientId + 1 < Registry.ID_MODULUS
    ensures var id := s.registry.nextClientId;
            var s1 := ServerStepAsWritten(s, Accepted(addr));
            var s2 := ServerStepAsWritten(s1, HandshakeDone(id, Err(reason)));
            id in s2.registry.clients && id !in s2.handshaking + s2.open
            && !Tracked(s2)
            && Registry.ClientCount(s2.registry) == Registry.ClientCount(s.registry) + 1
            && s2.handshaking + s2.open == s.handshaking + s.open
  {
    var id := s.registry.nextClientId;
    Registry.RegisterFresh(s.registry, addr);
  }
}
