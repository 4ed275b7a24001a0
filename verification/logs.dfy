/*******************************************************************************
 *  Receipt logs and the decoding pattern shared by every protocol: a strict
 *  decoder checks the topic count and `topics[0]`, then hands topics and data
 *  to an opaque ABI decoder and records the emitting contract; `extract_all`
 *  is an order-preserving `filter_map` of such a decoder over a log slice.
 *******************************************************************************/

module Logs {
  import opened Primitives
  import opened Seqs
  import opened Signatures

  /** `ReceiptLog`: the emitting contract, the ABI-encoded data and the topics. */
  datatype Log = Log(address: Address, data: Bytes, topics: seq<B256>)

  /** An ABI decoder of one event (`decode_raw_log` / `decode_log_data` with
      validation on): partial, and opaque to this model; it sees only the
      topics and the data of a log. */
  type Abi<E> = (seq<B256>, Bytes) -> Option<E>

  /** A decoded event together with the contract that emitted it (the
      `pool`, `feed` or `morpho` field of the parsed structs). */
  datatype Emitted<E> = Emitted(emitter: Address, event: E)

  /** `LogData::new` accepts at most four topics. */
  const MAX_TOPICS: nat := 4

  /** `LogData`: topics and data of a log, without its address. */
  datatype LogData = LogData(topics: seq<B256>, data: Bytes)

  /** `LogData::new`: None when there are more than `MAX_TOPICS` topics. */
  function NewLogData(topics: seq<B256>, data: Bytes): (r: Option<LogData>)
    ensures r.Some? <==> |topics| <= MAX_TOPICS
    ensures r.Some? ==> r.value.topics == topics && r.value.data == data
  {
    if |topics| > MAX_TOPICS then None else Some(LogData(topics, data))
  }

  /** `try_from_log` of the Chainlink, Aave and Morpho events: the log must have
      exactly `arity` topics, `topics[0]` must be the event's signature hash,
      and then the ABI decoder decides. */
  function StrictDecode<E>(arity: nat, kind: EventKind, abi: Abi<E>, log: Log): (r: Option<Emitted<E>>)
    requires arity > 0
    ensures |log.topics| != arity ==> r == None
    ensures |log.topics| == arity && log.topics[0] != SignatureHash(kind) ==> r == None
    ensures r.Some? <==> |log.topics| == arity && log.topics[0] == SignatureHash(kind)
                         && abi(log.topics, log.data).Some?
    ensures r.Some? ==> (r.value.emitter == log.address
                         && Some(r.value.event) == abi(log.topics, log.data))
  {
    if |log.topics| != arity then None
    else if log.topics[0] != SignatureHash(kind) then None
    else match abi(log.topics, log.data)
      case None => None
      case Some(e) => Some(Emitted(log.address, e))
  }

  /** The event kind whose signature hash a log carries as `topics[0]`, if any. */
  function TopicKind(log: Log): (r: Option<EventKind>)
    ensures forall k :: 0 < |log.topics| && log.topics[0] == SignatureHash(k) ==> r == Some(k)
  {
    SignaturesIdentifyKinds();
    if |log.topics| == 0 then None else KindOfPrefix(Prefix(log.topics[0]))
  }

  lemma SignaturesIdentifyKinds()
    ensures forall k :: KindOfPrefix(Prefix(SignatureHash(k))) == Some(k)
  {
    forall k {
      PrefixIdentifiesKind(k);
    }
  }

  /** A log accepted by a strict decoder carries that decoder's kind. */
  lemma StrictDecodeKind<E>(arity: nat, kind: EventKind, abi: Abi<E>, log: Log)
    requires arity > 0
    requires StrictDecode(arity, kind, abi, log).Some?
    ensures TopicKind(log) == Some(kind)
  {
  }

  /** Strict decoders of two different event kinds never both accept a log,
      whatever the ABI decoders do: the signature hashes differ. */
  lemma StrictDecodersExclusive<E, F>(arity1: nat, kind1: EventKind, abi1: Abi<E>,
                                      arity2: nat, kind2: EventKind, abi2: Abi<F>, log: Log)
    requires arity1 > 0 && arity2 > 0 && kind1 != kind2
    ensures !(StrictDecode(arity1, kind1, abi1, log).Some? && StrictDecode(arity2, kind2, abi2, log).Some?)
  {
    SignatureHashInjective(kind1, kind2);
  }

  /** `es` holds exactly the events `decode` yields on some log of `logs`. */
  ghost predicate Collects<E(!new)>(es: seq<E>, decode: Log -> Option<E>, logs: seq<Log>)
  {
    forall e :: e in es <==> exists i :: 0 <= i < |logs| && decode(logs[i]) == Some(e)
  }

  /** `logs.iter().filter_map(decode).collect()`. */
  function ExtractAll<E(!new)>(decode: Log -> Option<E>, logs: seq<Log>): (r: seq<E>)
    ensures |r| <= |logs|
    ensures Collects(r, decode, logs)
  {
    ExtractAllMembership(decode, logs);
    FilterMap(logs, decode)
  }

  lemma ExtractAllMembership<E(!new)>(decode: Log -> Option<E>, logs: seq<Log>)
    ensures forall e :: e in FilterMap(logs, decode) <==> exists i :: 0 <= i < |logs| && decode(logs[i]) == Some(e)
  {
    forall e {
      FilterMapMembership(logs, decode, e);
    }
  }

  /** Extraction keeps log order: it distributes over concatenation, and a
      single log yields its decoded value or nothing. */
  lemma ExtractAllPreservesOrder<E(!new)>(decode: Log -> Option<E>, a: seq<Log>, b: seq<Log>)
    ensures ExtractAll(decode, a + b) == ExtractAll(decode, a) + ExtractAll(decode, b)
    ensures forall l :: ExtractAll(decode, [l]) == if decode(l).Some? then [decode(l).value] else []
  {
    FilterMapAppend(a, b, decode);
  }

  /** The number of events extracted is the number of logs that decode. */
  lemma ExtractAllCount<E(!new)>(decode: Log -> Option<E>, logs: seq<Log>)
    ensures |ExtractAll(decode, logs)| == CountSome(logs, decode)
  {
    FilterMapLength(logs, decode);
  }
}
