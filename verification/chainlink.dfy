/*******************************************************************************
 *  Chainlink aggregator events: the bloom prefilter and the strict decoders
 *  of `AnswerUpdated` and `NewRound` (two indexed parameters, so three topics).
 *******************************************************************************/

module Chainlink {
  import opened Primitives
  import opened Signatures
  import opened Logs
  import opened Bloom

  /** `ChainlinkEvents`: which aggregator events a bloom may hold. */
  datatype ChainlinkEvents = ChainlinkEvents(mayHaveAnswerUpdated: bool, mayHaveNewRound: bool)

  function Flag(e: ChainlinkEvents, kind: EventKind): bool
  {
    match kind
    case AnswerUpdated => e.mayHaveAnswerUpdated
    case NewRound => e.mayHaveNewRound
    case _ => false
  }

  /** `from_bloom`: each flag says whether the bloom holds the event's probe bits. */
  function FromBloom(bloom: Bloom, probe: EventKind -> B256): (e: ChainlinkEvents)
    ensures forall k :: ProtocolOf(k) == ChainlinkFeeds ==> (Flag(e, k) <==> ContainsHash(bloom, probe(k)))
  {
    assert forall k :: ProtocolOf(k) == ChainlinkFeeds ==> k == AnswerUpdated || k == NewRound;
    ChainlinkEvents(ContainsHash(bloom, probe(AnswerUpdated)), ContainsHash(bloom, probe(NewRound)))
  }

  /** `any`: some aggregator event may be present. */
  function Any(e: ChainlinkEvents): (r: bool)
    ensures r <==> exists k :: Flag(e, k)
  {
    assert e.mayHaveAnswerUpdated ==> Flag(e, AnswerUpdated);
    assert e.mayHaveNewRound ==> Flag(e, NewRound);
    e.mayHaveAnswerUpdated || e.mayHaveNewRound
  }

  /** `ChainlinkEvents::default()`: nothing may be present. */
  function Default(): (e: ChainlinkEvents)
    ensures !Any(e)
    ensures forall k :: !Flag(e, k)
  {
    ChainlinkEvents(false, false)
  }

  /** An empty bloom holds neither aggregator event. */
  lemma FromEmptyBloom(probe: EventKind -> B256)
    ensures !Any(FromBloom(EMPTY, probe))
  {
    EmptyContainsNothing(probe(AnswerUpdated));
    EmptyContainsNothing(probe(NewRound));
  }

  /** No false negatives for a Yellow Paper receipt bloom probed with the keccak
      of the signature hash. */
  lemma FromBloomNoFalseNegatives(keccak: Keccak, logs: seq<Log>, j: nat, kind: EventKind)
    requires ProtocolOf(kind) == ChainlinkFeeds
    requires j < |logs| && 0 < |logs[j].topics| && logs[j].topics[0] == SignatureHash(kind)
    ensures Flag(FromBloom(ReceiptBloom(keccak, logs), k => Probe(keccak, k)), kind)
  {
    ProbeFindsTopic(keccak, logs, j, 0, kind);
  }

  // ---------------------------------------------------------------------------
  // AnswerUpdated
  // ---------------------------------------------------------------------------

  /** `AnswerUpdated(int256 indexed current, uint256 indexed roundId, uint256 updatedAt)`. */
  datatype AnswerUpdatedEvent = AnswerUpdatedEvent(current: I256, roundId: U256, updatedAt: U256)

  /** `ParsedAnswerUpdated`: the new answer and the feed that reported it. */
  datatype ParsedAnswerUpdated = ParsedAnswerUpdated(feed: Address, answer: I256, roundId: U256, updatedAt: U256)

  const ANSWER_UPDATED_TOPICS: nat := 3

  /** `ParsedAnswerUpdated::try_from_log`. */
  function TryAnswerUpdated(abi: Abi<AnswerUpdatedEvent>, log: Log): (r: Option<ParsedAnswerUpdated>)
    ensures |log.topics| != 3 ==> r == None
    ensures |log.topics| == 3 && log.topics[0] != SignatureHash(AnswerUpdated) ==> r == None
    ensures r.Some? <==> |log.topics| == 3 && log.topics[0] == SignatureHash(AnswerUpdated)
                         && abi(log.topics, log.data).Some?
    ensures r.Some? ==>
              var ev := abi(log.topics, log.data).value;
              r.value == ParsedAnswerUpdated(log.address, ev.current, ev.roundId, ev.updatedAt)
  {
    match StrictDecode(ANSWER_UPDATED_TOPICS, AnswerUpdated, abi, log)
    case None => None
    case Some(d) => Some(ParsedAnswerUpdated(d.emitter, d.event.current, d.event.roundId, d.event.updatedAt))
  }

  function AnswerUpdatedDecoder(abi: Abi<AnswerUpdatedEvent>): Log -> Option<ParsedAnswerUpdated>
  {
    l => TryAnswerUpdated(abi, l)
  }

  /** `ParsedAnswerUpdated::extract_all`: the updates of a log slice, in log order. */
  function ExtractAnswerUpdates(abi: Abi<AnswerUpdatedEvent>, logs: seq<Log>): (r: seq<ParsedAnswerUpdated>)
    ensures |r| <= |logs|
    ensures forall u :: u in r <==> exists i :: 0 <= i < |logs| && TryAnswerUpdated(abi, logs[i]) == Some(u)
  {
    ExtractAll(AnswerUpdatedDecoder(abi), logs)
  }

  // ---------------------------------------------------------------------------
  // NewRound
  // ---------------------------------------------------------------------------

  /** `NewRound(uint256 indexed roundId, address indexed startedBy, uint256 startedAt)`. */
  datatype NewRoundEvent = NewRoundEvent(roundId: U256, startedBy: Address, startedAt: U256)

  /** `ParsedNewRound`: a started round and the feed that started it. */
  datatype ParsedNewRound = ParsedNewRound(feed: Address, roundId: U256, startedBy: Address, startedAt: U256)

  const NEW_ROUND_TOPICS: nat := 3

  /** `ParsedNewRound::try_from_log`. */
  function TryNewRound(abi: Abi<NewRoundEvent>, log: Log): (r: Option<ParsedNewRound>)
    ensures |log.topics| != 3 ==> r == None
    ensures |log.topics| == 3 && log.topics[0] != SignatureHash(NewRound) ==> r == None
    ensures r.Some? <==> |log.topics| == 3 && log.topics[0] == SignatureHash(NewRound)
                         && abi(log.topics, log.data).Some?
    ensures r.Some? ==>
              var ev := abi(log.topics, log.data).value;
              r.value == ParsedNewRound(log.address, ev.roundId, ev.startedBy, ev.startedAt)
  {
    match StrictDecode(NEW_ROUND_TOPICS, NewRound, abi, log)
    case None => None
    case Some(d) => Some(ParsedNewRound(d.emitter, d.event.roundId, d.event.startedBy, d.event.startedAt))
  }

  function NewRoundDecoder(abi: Abi<NewRoundEvent>): Log -> Option<ParsedNewRound>
  {
    l => TryNewRound(abi, l)
  }

  /** `ParsedNewRound::extract_all`: the new rounds of a log slice, in log order. */
  function ExtractNewRounds(abi: Abi<NewRoundEvent>, logs: seq<Log>): (r: seq<ParsedNewRound>)
    ensures |r| <= |logs|
    ensures forall u :: u in r <==> exists i :: 0 <= i < |logs| && TryNewRound(abi, logs[i]) == Some(u)
  {
    ExtractAll(NewRoundDecoder(abi), logs)
  }

  /** No log decodes both as `AnswerUpdated` and as `NewRound`, whatever the
      ABI decoders accept: the two signature hashes differ. */
  lemma NotBothKinds(abiA: Abi<AnswerUpdatedEvent>, abiN: Abi<NewRoundEvent>, log: Log)
    ensures !(TryAnswerUpdated(abiA, log).Some? && TryNewRound(abiN, log).Some?)
  {
    StrictDecodersExclusive(ANSWER_UPDATED_TOPICS, AnswerUpdated, abiA, NEW_ROUND_TOPICS, NewRound, abiN, log);
  }
}
