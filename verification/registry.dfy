/*******************************************************************************
 *  The client registry shared by the WebSocket and SSE servers: an id counter
 *  (`next_client_id`, an `AtomicU64` advanced with `fetch_add(1)`) and the
 *  map from client id to peer address. Lock-protected updates are modelled as
 *  sequential steps.
 *******************************************************************************/

module Registry {
  import opened Primitives

  /** `ClientId = u64`; `fetch_add` wraps around at 2^64. */
  type ClientId = U64
  const ID_MODULUS: nat := 0x1_0000_0000_0000_0000

  /** The peer address of an accepted TCP connection. */
  datatype SocketAddr = SocketAddr(host: string, port: U16)

  datatype Registry = Registry(nextClientId: ClientId, clients: map<ClientId, SocketAddr>)

  /** The state `new` creates: counter 0, no clients. */
  function Empty(): (r: Registry)
    ensures r.nextClientId == 0
    ensures |r.clients| == 0
  {
    Registry(0, map[])
  }

  /** `next_client_id.fetch_add(1)`: the id handed out and the registry with
      the counter advanced (wrapping like an `AtomicU64`). */
  function TakeId(r: Registry): (res: (Registry, ClientId))
    ensures res.1 == r.nextClientId
    ensures res.0.clients == r.clients
    ensures r.nextClientId + 1 < ID_MODULUS ==> res.0.nextClientId == r.nextClientId + 1
    ensures r.nextClientId + 1 == ID_MODULUS ==> res.0.nextClientId == 0
  {
    (r.(nextClientId := (r.nextClientId + 1) % ID_MODULUS), r.nextClientId)
  }

  /** `clients.insert(id, addr)`. */
  function Insert(r: Registry, id: ClientId, addr: SocketAddr): (r': Registry)
    ensures r'.nextClientId == r.nextClientId
    ensures id in r'.clients && r'.clients[id] == addr
    ensures forall c :: c != id ==> (c in r'.clients <==> c in r.clients)
    ensures forall c :: c != id && c in r.clients ==> r'.clients[c] == r.clients[c]
  {
    r.(clients := r.clients[id := addr])
  }

  /** `clients.remove(&id)`: that id and nothing else leaves the registry. */
  function Remove(r: Registry, id: ClientId): (r': Registry)
    ensures r'.nextClientId == r.nextClientId
    ensures id !in r'.clients
    ensures forall c :: c != id ==> (c in r'.clients <==> c in r.clients)
    ensures forall c :: c in r'.clients ==> r'.clients[c] == r.clients[c]
  {
    r.(clients := r.clients - {id})
  }

  /** `client_count`: the number of registered clients. */
  function ClientCount(r: Registry): (n: nat)
    ensures n == 0 <==> r.clients == map[]
    ensures forall id :: id in r.clients ==> n > 0
  {
    |r.clients|
  }

  /** Every registered id was handed out before the current counter value. */
  predicate IdsIssued(r: Registry)
  {
    forall c :: c in r.clients ==> c < r.nextClientId
  }

  /** Taking an id and registering it, while the counter has not wrapped,
      keeps every id issued, and the new id was not registered before: the
      count grows by one. */
  lemma RegisterFresh(r: Registry, addr: SocketAddr)
    requires IdsIssued(r)
    requires r.nextClientId + 1 < ID_MODULUS
    ensures var (r1, id) := TakeId(r);
            var r2 := Insert(r1, id, addr);
            id !in r.clients && IdsIssued(r2) && ClientCount(r2) == ClientCount(r) + 1
  {
    var (r1, id) := TakeId(r);
    var r2 := Insert(r1, id, addr);
    assert r2.clients.Keys == r.clients.Keys + {id};
  }

  /** Removing keeps every id issued, and the count drops by one exactly
      when the id was registered. */
  lemma RemoveCount(r: Registry, id: ClientId)
    requires IdsIssued(r)
    ensures IdsIssued(Remove(r, id))
    ensures ClientCount(Remove(r, id)) == if id in r.clients then ClientCount(r) - 1 else ClientCount(r)
  {
    if id in r.clients {
      assert Remove(r, id).clients.Keys == r.clients.Keys - {id};
    } else {
      assert Remove(r, id).clients == r.clients;
    }
  }

  /** The ids handed out by `n` successive accepts. */
  function TakeIds(r: Registry, n: nat): (res: (Registry, seq<ClientId>))
    ensures |res.1| == n
    ensures res.0.clients == r.clients
    decreases n
  {
    if n == 0 then (r, [])
    else
      var (r1, id) := TakeId(r);
      var (r2, ids) := TakeIds(r1, n - 1);
      (r2, [id] + ids)
  }

  /** Until the counter wraps, successive accepts get consecutive ids: each
      one larger than the last, so none is ever reused. */
  lemma {:induction false} TakeIdsIncreasing(r: Registry, n: nat)
    requires r.nextClientId + n < ID_MODULUS
    ensures forall i :: 0 <= i < n ==> TakeIds(r, n).1[i] == r.nextClientId + i
    ensures TakeIds(r, n).0.nextClientId == r.nextClientId + n
    decreases n
  {
    if n > 0 {
      var (r1, id) := TakeId(r);
      TakeIdsIncreasing(r1, n - 1);
    }
  }
}
