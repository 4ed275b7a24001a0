/*******************************************************************************
 *  Aave V3 pool events: the bloom prefilter, the five strict decoders (every
 *  event has three indexed parameters, so exactly four topics) and the
 *  `AaveUserUpdates` bundle with `is_empty` and `total_count`.
 *******************************************************************************/

module Aave {
  import opened Primitives
  import opened Seqs
  import opened Signatures
  import opened Logs
  import opened Bloom

  /** `AaveEvents`: which user-action events a bloom may hold. */
  datatype AaveEvents = AaveEvents(
    mayHaveSupply: bool,
    mayHaveWithdraw: bool,
    mayHaveBorrow: bool,
    mayHaveRepay: bool,
    mayHaveLiquidation: bool)

  function Flag(e: AaveEvents, kind: EventKind): bool
  {
    match kind
    case AaveSupply => e.mayHaveSupply
    case AaveWithdraw => e.mayHaveWithdraw
    case AaveBorrow => e.mayHaveBorrow
    case AaveRepay => e.mayHaveRepay
    case AaveLiquidationCall => e.mayHaveLiquidation
    case _ => false
  }

  /** `from_bloom`: each flag says whether the bloom holds the event's probe bits. */
  function FromBloom(bloom: Bloom, probe: EventKind -> B256): (e: AaveEvents)
    ensures forall k :: ProtocolOf(k) == AaveV3 ==> (Flag(e, k) <==> ContainsHash(bloom, probe(k)))
  {
    assert forall k :: ProtocolOf(k) == AaveV3 ==> k == AaveSupply || k == AaveWithdraw || k == AaveBorrow || k == AaveRepay || k == AaveLiquidationCall;
    AaveEvents(
      ContainsHash(bloom, probe(AaveSupply)),
      ContainsHash(bloom, probe(AaveWithdraw)),
      ContainsHash(bloom, probe(AaveBorrow)),
      ContainsHash(bloom, probe(AaveRepay)),
      ContainsHash(bloom, probe(AaveLiquidationCall)))
  }

  /** `any`: some user-action event may be present. */
  function Any(e: AaveEvents): (r: bool)
    ensures r <==> exists k :: Flag(e, k)
  {
    assert e.mayHaveSupply ==> Flag(e, AaveSupply);
    assert e.mayHaveWithdraw ==> Flag(e, AaveWithdraw);
    assert e.mayHaveBorrow ==> Flag(e, AaveBorrow);
    assert e.mayHaveRepay ==> Flag(e, AaveRepay);
    assert e.mayHaveLiquidation ==> Flag(e, AaveLiquidationCall);
    e.mayHaveSupply || e.mayHaveWithdraw || e.mayHaveBorrow || e.mayHaveRepay || e.mayHaveLiquidation
  }

  /** `AaveEvents::default()`: nothing may be present. */
  function Default(): (e: AaveEvents)
    ensures !Any(e)
    ensures forall k :: !Flag(e, k)
  {
    AaveEvents(false, false, false, false, false)
  }

  /** An empty bloom holds none of the user-action events. */
  lemma FromEmptyBloom(probe: EventKind -> B256)
    ensures !Any(FromBloom(EMPTY, probe))
  {
    forall k | ProtocolOf(k) == AaveV3
      ensures !ContainsHash(EMPTY, probe(k))
    {
      EmptyContainsNothing(probe(k));
    }
  }

  /** No false negatives for a Yellow Paper receipt bloom probed with the keccak
      of the signature hash. */
  lemma FromBloomNoFalseNegatives(keccak: Keccak, logs: seq<Log>, j: nat, kind: EventKind)
    requires ProtocolOf(kind) == AaveV3
    requires j < |logs| && 0 < |logs[j].topics| && logs[j].topics[0] == SignatureHash(kind)
    ensures Flag(FromBloom(ReceiptBloom(keccak, logs), k => Probe(keccak, k)), kind)
  {
    ProbeFindsTopic(keccak, logs, j, 0, kind);
  }

  // ---------------------------------------------------------------------------
  // The five events and their decoders
  // ---------------------------------------------------------------------------

  datatype SupplyEvent = SupplyEvent(
    reserve: Address, user: Address, onBehalfOf: Address, amount: U256, referralCode: U16)

  datatype WithdrawEvent = WithdrawEvent(
    reserve: Address, user: Address, to: Address, amount: U256)

  datatype BorrowEvent = BorrowEvent(
    reserve: Address, user: Address, onBehalfOf: Address, amount: U256,
    interestRateMode: U8, borrowRate: U256, referralCode: U16)

  datatype RepayEvent = RepayEvent(
    reserve: Address, user: Address, repayer: Address, amount: U256, useATokens: bool)

  datatype LiquidationCallEvent = LiquidationCallEvent(
    collateralAsset: Address, debtAsset: Address, user: Address, debtToCover: U256,
    liquidatedCollateralAmount: U256, liquidator: Address, receiveAToken: bool)

  /** `ParsedSupply` and friends: the decoded fields plus `pool`, the emitter. */
  type ParsedSupply = Emitted<SupplyEvent>
  type ParsedWithdraw = Emitted<WithdrawEvent>
  type ParsedBorrow = Emitted<BorrowEvent>
  type ParsedRepay = Emitted<RepayEvent>
  type ParsedLiquidation = Emitted<LiquidationCallEvent>

  /** The ABI decoders of the five events. */
  datatype AaveAbi = AaveAbi(
    supply: Abi<SupplyEvent>,
    withdraw: Abi<WithdrawEvent>,
    borrow: Abi<BorrowEvent>,
    repay: Abi<RepayEvent>,
    liquidationCall: Abi<LiquidationCallEvent>)

  /** Three indexed parameters plus the signature: four topics for every event. */
  const TOPICS: nat := 4

  /** `ParsedSupply::try_from_log`. */
  function TrySupply(abi: AaveAbi, log: Log): (r: Option<ParsedSupply>)
    ensures |log.topics| != 4 || log.topics[0] != SignatureHash(AaveSupply) ==> r == None
    ensures r.Some? <==> |log.topics| == 4 && log.topics[0] == SignatureHash(AaveSupply)
                         && abi.supply(log.topics, log.data).Some?
    ensures r.Some? ==> r.value.emitter == log.address && Some(r.value.event) == abi.supply(log.topics, log.data)
  {
    StrictDecode(TOPICS, AaveSupply, abi.supply, log)
  }

  /** `ParsedWithdraw::try_from_log`. */
  function TryWithdraw(abi: AaveAbi, log: Log): (r: Option<ParsedWithdraw>)
    ensures |log.topics| != 4 || log.topics[0] != SignatureHash(AaveWithdraw) ==> r == None
    ensures r.Some? <==> |log.topics| == 4 && log.topics[0] == SignatureHash(AaveWithdraw)
                         && abi.withdraw(log.topics, log.data).Some?
    ensures r.Some? ==> r.value.emitter == log.address && Some(r.value.event) == abi.withdraw(log.topics, log.data)
  {
    StrictDecode(TOPICS, AaveWithdraw, abi.withdraw, log)
  }

  /** `ParsedBorrow::try_from_log`. */
  function TryBorrow(abi: AaveAbi, log: Log): (r: Option<ParsedBorrow>)
    ensures |log.topics| != 4 || log.topics[0] != SignatureHash(AaveBorrow) ==> r == None
    ensures r.Some? <==> |log.topics| == 4 && log.topics[0] == SignatureHash(AaveBorrow)
                         && abi.borrow(log.topics, log.data).Some?
    ensures r.Some? ==> r.value.emitter == log.address && Some(r.value.event) == abi.borrow(log.topics, log.data)
  {
    StrictDecode(TOPICS, AaveBorrow, abi.borrow, log)
  }

  /** `ParsedRepay::try_from_log`. */
  function TryRepay(abi: AaveAbi, log: Log): (r: Option<ParsedRepay>)
    ensures |log.topics| != 4 || log.topics[0] != SignatureHash(AaveRepay) ==> r == None
    ensures r.Some? <==> |log.topics| == 4 && log.topics[0] == SignatureHash(AaveRepay)
                         && abi.repay(log.topics, log.data).Some?
    ensures r.Some? ==> r.value.emitter == log.address && Some(r.value.event) == abi.repay(log.topics, log.data)
  {
    StrictDecode(TOPICS, AaveRepay, abi.repay, log)
  }

  /** `ParsedLiquidation::try_from_log`. */
  function TryLiquidation(abi: AaveAbi, log: Log): (r: Option<ParsedLiquidation>)
    ensures |log.topics| != 4 || log.topics[0] != SignatureHash(AaveLiquidationCall) ==> r == None
    ensures r.Some? <==> |log.topics| == 4 && log.topics[0] == SignatureHash(AaveLiquidationCall)
                         && abi.liquidationCall(log.topics, log.data).Some?
    ensures r.Some? ==> r.value.emitter == log.address
                        && Some(r.value.event) == abi.liquidationCall(log.topics, log.data)
  {
    StrictDecode(TOPICS, AaveLiquidationCall, abi.liquidationCall, log)
  }

  /** Whatever the ABI decoders accept, at most one of the five decoders
      accepts a given log. */
  lemma AtMostOneKind(abi: AaveAbi, log: Log)
    ensures Hits(abi, log) <= 1
  {
    if TrySupply(abi, log).Some? { StrictDecodeKind(TOPICS, AaveSupply, abi.supply, log); }
    if TryWithdraw(abi, log).Some? { StrictDecodeKind(TOPICS, AaveWithdraw, abi.withdraw, log); }
    if TryBorrow(abi, log).Some? { StrictDecodeKind(TOPICS, AaveBorrow, abi.borrow, log); }
    if TryRepay(abi, log).Some? { StrictDecodeKind(TOPICS, AaveRepay, abi.repay, log); }
    if TryLiquidation(abi, log).Some? { StrictDecodeKind(TOPICS, AaveLiquidationCall, abi.liquidationCall, log); }
  }

  /** How many of the five decoders accept `log`. */
  function Hits(abi: AaveAbi, log: Log): nat
  {
    (if TrySupply(abi, log).Some? then 1 else 0)
    + (if TryWithdraw(abi, log).Some? then 1 else 0)
    + (if TryBorrow(abi, log).Some? then 1 else 0)
    + (if TryRepay(abi, log).Some? then 1 else 0)
    + (if TryLiquidation(abi, log).Some? then 1 else 0)
  }

  // ---------------------------------------------------------------------------
  // extract_all of each kind
  // ---------------------------------------------------------------------------

  function SupplyDecoder(abi: AaveAbi): Log -> Option<ParsedSupply> { l => TrySupply(abi, l) }
  function WithdrawDecoder(abi: AaveAbi): Log -> Option<ParsedWithdraw> { l => TryWithdraw(abi, l) }
  function BorrowDecoder(abi: AaveAbi): Log -> Option<ParsedBorrow> { l => TryBorrow(abi, l) }
  function RepayDecoder(abi: AaveAbi): Log -> Option<ParsedRepay> { l => TryRepay(abi, l) }
  function LiquidationDecoder(abi: AaveAbi): Log -> Option<ParsedLiquidation> { l => TryLiquidation(abi, l) }

  /** `ParsedSupply::extract_all`. */
  function ExtractSupplies(abi: AaveAbi, logs: seq<Log>): (r: seq<ParsedSupply>)
    ensures |r| <= |logs|
    ensures forall e :: e in r <==> exists i :: 0 <= i < |logs| && TrySupply(abi, logs[i]) == Some(e)
  {
    ExtractAll(SupplyDecoder(abi), logs)
  }

  /** `ParsedWithdraw::extract_all`. */
  function ExtractWithdraws(abi: AaveAbi, logs: seq<Log>): (r: seq<ParsedWithdraw>)
    ensures |r| <= |logs|
    ensures forall e :: e in r <==> exists i :: 0 <= i < |logs| && TryWithdraw(abi, logs[i]) == Some(e)
  {
    ExtractAll(WithdrawDecoder(abi), logs)
  }

  /** `ParsedBorrow::extract_all`. */
  function ExtractBorrows(abi: AaveAbi, logs: seq<Log>): (r: seq<ParsedBorrow>)
    ensures |r| <= |logs|
    ensures forall e :: e in r <==> exists i :: 0 <= i < |logs| && TryBorrow(abi, logs[i]) == Some(e)
  {
    ExtractAll(BorrowDecoder(abi), logs)
  }

  /** `ParsedRepay::extract_all`. */
  function ExtractRepays(abi: AaveAbi, logs: seq<Log>): (r: seq<ParsedRepay>)
    ensures |r| <= |logs|
    ensures forall e :: e in r <==> exists i :: 0 <= i < |logs| && TryRepay(abi, logs[i]) == Some(e)
  {
    ExtractAll(RepayDecoder(abi), logs)
  }

  /** `ParsedLiquidation::extract_all`. */
  function ExtractLiquidations(abi: AaveAbi, logs: seq<Log>): (r: seq<ParsedLiquidation>)
    ensures |r| <= |logs|
    ensures forall e :: e in r <==> exists i :: 0 <= i < |logs| && TryLiquidation(abi, logs[i]) == Some(e)
  {
    ExtractAll(LiquidationDecoder(abi), logs)
  }

  // ---------------------------------------------------------------------------
  // The bundle
  // ---------------------------------------------------------------------------

  /** `AaveUserUpdates`: the events of one log slice, grouped by kind. */
  datatype AaveUserUpdates = AaveUserUpdates(
    supplies: seq<ParsedSupply>,
    withdraws: seq<ParsedWithdraw>,
    borrows: seq<ParsedBorrow>,
    repays: seq<ParsedRepay>,
    liquidations: seq<ParsedLiquidation>)

  /** `total_count`: the number of events in the bundle. */
  function TotalCount(u: AaveUserUpdates): nat
  {
    |u.supplies| + |u.withdraws| + |u.borrows| + |u.repays| + |u.liquidations|
  }

  /** `is_empty`: no list holds an event, which is a total count of zero. */
  function IsEmpty(u: AaveUserUpdates): (r: bool)
    ensures r <==> TotalCount(u) == 0
  {
    |u.supplies| == 0 && |u.withdraws| == 0 && |u.borrows| == 0 && |u.repays| == 0 && |u.liquidations| == 0
  }

  /** `AaveUserUpdates::default()`. */
  function Empty(): (u: AaveUserUpdates)
    ensures IsEmpty(u) && TotalCount(u) == 0
  {
    AaveUserUpdates([], [], [], [], [])
  }

  /** `AaveUserUpdates::extract_all`: all five extractors over the same slice. Each
      list collects exactly the events its kind's decoder yields on some
      log, and since a log is at most one kind, the bundle never holds
      more events than there are logs. */
  function ExtractUpdates(abi: AaveAbi, logs: seq<Log>): (u: AaveUserUpdates)
    ensures TotalCount(u) <= |logs|
    ensures Collects(u.supplies, SupplyDecoder(abi), logs)
    ensures Collects(u.withdraws, WithdrawDecoder(abi), logs)
    ensures Collects(u.borrows, BorrowDecoder(abi), logs)
    ensures Collects(u.repays, RepayDecoder(abi), logs)
    ensures Collects(u.liquidations, LiquidationDecoder(abi), logs)
  {
    UpdatesCount(abi, logs);
    AaveUserUpdates(
      ExtractSupplies(abi, logs),
      ExtractWithdraws(abi, logs),
      ExtractBorrows(abi, logs),
      ExtractRepays(abi, logs),
      ExtractLiquidations(abi, logs))
  }

  /** The per-kind extractions together hold at most one event per log. */
  lemma UpdatesCount(abi: AaveAbi, logs: seq<Log>)
    ensures |ExtractSupplies(abi, logs)| + |ExtractWithdraws(abi, logs)| + |ExtractBorrows(abi, logs)|
          + |ExtractRepays(abi, logs)| + |ExtractLiquidations(abi, logs)| <= |logs|
  {
    ExtractAllCount(SupplyDecoder(abi), logs);
    ExtractAllCount(WithdrawDecoder(abi), logs);
    ExtractAllCount(BorrowDecoder(abi), logs);
    ExtractAllCount(RepayDecoder(abi), logs);
    ExtractAllCount(LiquidationDecoder(abi), logs);
    CountBound(abi, logs);
  }

  /** The five per-kind counts add up to at most the number of logs. */
  lemma {:induction false} CountBound(abi: AaveAbi, logs: seq<Log>)
    ensures CountSome(logs, SupplyDecoder(abi)) + CountSome(logs, WithdrawDecoder(abi))
          + CountSome(logs, BorrowDecoder(abi)) + CountSome(logs, RepayDecoder(abi))
          + CountSome(logs, LiquidationDecoder(abi)) <= |logs|
    decreases |logs|
  {
    if |logs| > 0 {
      CountBound(abi, logs[1..]);
      AtMostOneKind(abi, logs[0]);
    }
  }
}
