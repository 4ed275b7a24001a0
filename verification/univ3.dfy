/*******************************************************************************
 *  Uniswap V3 pool events: the bloom prefilter over the five pool events and
 *  the Swap decoder (`ParsedSwap::from_log` / `extract_all`).
 *******************************************************************************/

module UniV3 {
  import opened Primitives
  import opened Signatures
  import opened Logs
  import opened Bloom

  /** `UniV3Events`: which pool events a bloom may hold. */
  datatype UniV3Events = UniV3Events(
    mayHaveMint: bool,
    mayHaveCollect: bool,
    mayHaveBurn: bool,
    mayHaveSwap: bool,
    mayHaveFlash: bool)

  /** The flag of `e` that stands for `kind` (false for other protocols' kinds). */
  function Flag(e: UniV3Events, kind: EventKind): bool
  {
    match kind
    case UniV3Mint => e.mayHaveMint
    case UniV3Collect => e.mayHaveCollect
    case UniV3Burn => e.mayHaveBurn
    case UniV3Swap => e.mayHaveSwap
    case UniV3Flash => e.mayHaveFlash
    case _ => false
  }

  /** `from_bloom`: each flag says whether the bloom holds the bits of that
      event's probe hash (`ProbeAsWritten` is what the source probes). */
  function FromBloom(bloom: Bloom, probe: EventKind -> B256): (e: UniV3Events)
    ensures forall k :: ProtocolOf(k) == UniswapV3 ==> (Flag(e, k) <==> ContainsHash(bloom, probe(k)))
  {
    assert forall k :: ProtocolOf(k) == UniswapV3 ==> k == UniV3Mint || k == UniV3Collect || k == UniV3Burn || k == UniV3Swap || k == UniV3Flash;
    UniV3Events(
      ContainsHash(bloom, probe(UniV3Mint)),
      ContainsHash(bloom, probe(UniV3Collect)),
      ContainsHash(bloom, probe(UniV3Burn)),
      ContainsHash(bloom, probe(UniV3Swap)),
      ContainsHash(bloom, probe(UniV3Flash)))
  }

  /** `any`: some pool event may be present. */
  function Any(e: UniV3Events): (r: bool)
    ensures r <==> exists k :: Flag(e, k)
  {
    assert e.mayHaveMint ==> Flag(e, UniV3Mint);
    assert e.mayHaveCollect ==> Flag(e, UniV3Collect);
    assert e.mayHaveBurn ==> Flag(e, UniV3Burn);
    assert e.mayHaveSwap ==> Flag(e, UniV3Swap);
    assert e.mayHaveFlash ==> Flag(e, UniV3Flash);
    e.mayHaveMint || e.mayHaveCollect || e.mayHaveBurn || e.mayHaveSwap || e.mayHaveFlash
  }

  /** `UniV3Events::default()`: every flag false, so nothing may be present. */
  function Default(): (e: UniV3Events)
    ensures !Any(e)
    ensures forall k :: !Flag(e, k)
  {
    UniV3Events(false, false, false, false, false)
  }

  /** The prefilter is positive exactly when some event's probe bits are set. */
  lemma AnyFromBloom(bloom: Bloom, probe: EventKind -> B256)
    ensures Any(FromBloom(bloom, probe)) <==> exists k :: ProtocolOf(k) == UniswapV3 && ContainsHash(bloom, probe(k))
  {
  }

  /** An empty bloom holds none of the pool events. */
  lemma FromEmptyBloom(probe: EventKind -> B256)
    ensures !Any(FromBloom(EMPTY, probe))
  {
    forall k | ProtocolOf(k) == UniswapV3
      ensures !ContainsHash(EMPTY, probe(k))
    {
      EmptyContainsNothing(probe(k));
    }
  }

  /** No false negatives, for a Yellow Paper receipt bloom probed with the
      keccak of the signature hash: a log whose `topics[0]` is a pool event's
      signature raises that event's flag. */
  lemma FromBloomNoFalseNegatives(keccak: Keccak, logs: seq<Log>, j: nat, kind: EventKind)
    requires ProtocolOf(kind) == UniswapV3
    requires j < |logs| && 0 < |logs[j].topics| && logs[j].topics[0] == SignatureHash(kind)
    ensures Flag(FromBloom(ReceiptBloom(keccak, logs), k => Probe(keccak, k)), kind)
  {
    ProbeFindsTopic(keccak, logs, j, 0, kind);
  }

  // ---------------------------------------------------------------------------
  // Swap
  // ---------------------------------------------------------------------------

  /** The `Swap` event as the ABI decoder returns it. */
  datatype SwapEvent = SwapEvent(
    sender: Address,
    recipient: Address,
    amount0: I256,
    amount1: I256,
    sqrtPriceX96: U160,
    liquidity: U128,
    tick: I24)

  /** `ParsedSwap`: a decoded swap with the pool that emitted it. */
  datatype ParsedSwap = ParsedSwap(
    pool: Address,
    sender: Address,
    recipient: Address,
    amount0: I256,
    amount1: I256,
    sqrtPriceX96: U160,
    liquidity: U128,
    tick: I32)

  /** `ParsedSwap::from_log`: `topics[0]` must be the Swap signature hash;
      the topic count is not checked here, only through `LogData::new`
      (at most four topics) and the ABI decoder. */
  function FromLog(abi: Abi<SwapEvent>, log: Log): (r: Option<ParsedSwap>)
    ensures |log.topics| == 0 || log.topics[0] != SignatureHash(UniV3Swap) ==> r == None
    ensures r.Some? <==> 0 < |log.topics| <= MAX_TOPICS && log.topics[0] == SignatureHash(UniV3Swap)
                         && abi(log.topics, log.data).Some?
    ensures r.Some? ==>
              var ev := abi(log.topics, log.data).value;
              r.value == ParsedSwap(log.address, ev.sender, ev.recipient, ev.amount0, ev.amount1,
                                    ev.sqrtPriceX96, ev.liquidity, ev.tick)
    ensures r.Some? ==> -0x80_0000 <= r.value.tick < 0x80_0000
  {
    if |log.topics| == 0 || log.topics[0] != SignatureHash(UniV3Swap) then None
    else match NewLogData(log.topics, log.data)
      case None => None
      case Some(ld) =>
        match abi(ld.topics, ld.data)
        case None => None
        case Some(ev) =>
          Some(ParsedSwap(log.address, ev.sender, ev.recipient, ev.amount0, ev.amount1,
                          ev.sqrtPriceX96, ev.liquidity, ev.tick as I32))
  }

  /** The Swap decoder as a function value, so every use names the same one. */
  function Decoder(abi: Abi<SwapEvent>): Log -> Option<ParsedSwap>
  {
    l => FromLog(abi, l)
  }

  /** `ParsedSwap::extract_all`: the swaps of a log slice, in log order. */
  function ExtractAll(abi: Abi<SwapEvent>, logs: seq<Log>): (r: seq<ParsedSwap>)
    ensures |r| <= |logs|
    ensures forall s :: s in r <==> exists i :: 0 <= i < |logs| && FromLog(abi, logs[i]) == Some(s)
    ensures forall s :: s in r ==> -0x80_0000 <= s.tick < 0x80_0000
  {
    Logs.ExtractAll(Decoder(abi), logs)
  }

  /** A log that decodes as a swap carries the Swap signature as its kind. */
  lemma SwapKind(abi: Abi<SwapEvent>, log: Log)
    requires FromLog(abi, log).Some?
    ensures TopicKind(log) == Some(UniV3Swap)
  {
  }
}
