/*******************************************************************************
 *  Morpho Blue events: the bloom prefilter, the eight strict decoders (seven
 *  events with three indexed parameters, so four topics; `CreateMarket` with
 *  one, so two topics) and the `MorphoUpdates` bundle.
 *******************************************************************************/

module Morpho {
  import opened Primitives
  import opened Seqs
  import opened Signatures
  import opened Logs
  import opened Bloom

  /** `MorphoEvents`: which Morpho events a bloom may hold. */
  datatype MorphoEvents = MorphoEvents(
    mayHaveSupply: bool,
    mayHaveWithdraw: bool,
    mayHaveBorrow: bool,
    mayHaveRepay: bool,
    mayHaveSupplyCollateral: bool,
    mayHaveWithdrawCollateral: bool,
    mayHaveLiquidation: bool,
    mayHaveCreateMarket: bool)

  function Flag(e: MorphoEvents, kind: EventKind): bool
  {
    match kind
    case MorphoSupply => e.mayHaveSupply
    case MorphoWithdraw => e.mayHaveWithdraw
    case MorphoBorrow => e.mayHaveBorrow
    case MorphoRepay => e.mayHaveRepay
    case MorphoSupplyCollateral => e.mayHaveSupplyCollateral
    case MorphoWithdrawCollateral => e.mayHaveWithdrawCollateral
    case MorphoLiquidate => e.mayHaveLiquidation
    case MorphoCreateMarket => e.mayHaveCreateMarket
    case _ => false
  }

  /** `from_bloom`: each flag says whether the bloom holds the event's probe bits. */
  function FromBloom(bloom: Bloom, probe: EventKind -> B256): (e: MorphoEvents)
    ensures forall k :: ProtocolOf(k) == MorphoBlue ==> (Flag(e, k) <==> ContainsHash(bloom, probe(k)))
  {
    assert forall k :: ProtocolOf(k) == MorphoBlue ==> k == MorphoSupply || k == MorphoWithdraw || k == MorphoBorrow || k == MorphoRepay || k == MorphoSupplyCollateral || k == MorphoWithdrawCollateral || k == MorphoLiquidate || k == MorphoCreateMarket;
    MorphoEvents(
      ContainsHash(bloom, probe(MorphoSupply)),
      ContainsHash(bloom, probe(MorphoWithdraw)),
      ContainsHash(bloom, probe(MorphoBorrow)),
      ContainsHash(bloom, probe(MorphoRepay)),
      ContainsHash(bloom, probe(MorphoSupplyCollateral)),
      ContainsHash(bloom, probe(MorphoWithdrawCollateral)),
      ContainsHash(bloom, probe(MorphoLiquidate)),
      ContainsHash(bloom, probe(MorphoCreateMarket)))
  }

  /** `any`: some Morpho event may be present. */
  function Any(e: MorphoEvents): (r: bool)
    ensures r <==> exists k :: Flag(e, k)
  {
    assert e.mayHaveSupply ==> Flag(e, MorphoSupply);
    assert e.mayHaveWithdraw ==> Flag(e, MorphoWithdraw);
    assert e.mayHaveBorrow ==> Flag(e, MorphoBorrow);
    assert e.mayHaveRepay ==> Flag(e, MorphoRepay);
    assert e.mayHaveSupplyCollateral ==> Flag(e, MorphoSupplyCollateral);
    assert e.mayHaveWithdrawCollateral ==> Flag(e, MorphoWithdrawCollateral);
    assert e.mayHaveLiquidation ==> Flag(e, MorphoLiquidate);
    assert e.mayHaveCreateMarket ==> Flag(e, MorphoCreateMarket);
    e.mayHaveSupply || e.mayHaveWithdraw || e.mayHaveBorrow || e.mayHaveRepay
    || e.mayHaveSupplyCollateral || e.mayHaveWithdrawCollateral || e.mayHaveLiquidation
    || e.mayHaveCreateMarket
  }

  /** `MorphoEvents::default()`: nothing may be present. */
  function Default(): (e: MorphoEvents)
    ensures !Any(e)
    ensures forall k :: !Flag(e, k)
  {
    MorphoEvents(false, false, false, false, false, false, false, false)
  }

  /** An empty bloom holds none of the Morpho events. */
  lemma FromEmptyBloom(probe: EventKind -> B256)
    ensures !Any(FromBloom(EMPTY, probe))
  {
    forall k | ProtocolOf(k) == MorphoBlue
      ensures !ContainsHash(EMPTY, probe(k))
    {
      EmptyContainsNothing(probe(k));
    }
  }

  /** No false negatives for a Yellow Paper receipt bloom probed with the keccak
      of the signature hash. */
  lemma FromBloomNoFalseNegatives(keccak: Keccak, logs: seq<Log>, j: nat, kind: EventKind)
    requires ProtocolOf(kind) == MorphoBlue
    requires j < |logs| && 0 < |logs[j].topics| && logs[j].topics[0] == SignatureHash(kind)
    ensures Flag(FromBloom(ReceiptBloom(keccak, logs), k => Probe(keccak, k)), kind)
  {
    ProbeFindsTopic(keccak, logs, j, 0, kind);
  }

  // ---------------------------------------------------------------------------
  // The eight events and their decoders
  // ---------------------------------------------------------------------------

  /** Every event's `id` is the market identifier (`market_id`, a B256). */
  datatype SupplyEvent = SupplyEvent(
    marketId: B256, caller: Address, onBehalfOf: Address, assets: U256, shares: U256)

  datatype WithdrawEvent = WithdrawEvent(
    marketId: B256, caller: Address, onBehalfOf: Address, receiver: Address, assets: U256, shares: U256)

  datatype BorrowEvent = BorrowEvent(
    marketId: B256, caller: Address, onBehalfOf: Address, receiver: Address, assets: U256, shares: U256)

  datatype RepayEvent = RepayEvent(
    marketId: B256, caller: Address, onBehalfOf: Address, assets: U256, shares: U256)

  datatype SupplyCollateralEvent = SupplyCollateralEvent(
    marketId: B256, caller: Address, onBehalfOf: Address, assets: U256)

  datatype WithdrawCollateralEvent = WithdrawCollateralEvent(
    marketId: B256, caller: Address, onBehalfOf: Address, receiver: Address, assets: U256)

  datatype LiquidateEvent = LiquidateEvent(
    marketId: B256, caller: Address, borrower: Address, repaidAssets: U256, repaidShares: U256,
    seizedAssets: U256, badDebtAssets: U256, badDebtShares: U256)

  datatype CreateMarketEvent = CreateMarketEvent(
    marketId: B256, loanToken: Address, collateralToken: Address, oracle: Address, irm: Address, lltv: U256)

  /** `ParsedMorphoSupply` and friends: the decoded fields plus `morpho`, the emitter. */
  type ParsedSupply = Emitted<SupplyEvent>
  type ParsedWithdraw = Emitted<WithdrawEvent>
  type ParsedBorrow = Emitted<BorrowEvent>
  type ParsedRepay = Emitted<RepayEvent>
  type ParsedSupplyCollateral = Emitted<SupplyCollateralEvent>
  type ParsedWithdrawCollateral = Emitted<WithdrawCollateralEvent>
  type ParsedLiquidation = Emitted<LiquidateEvent>
  type ParsedCreateMarket = Emitted<CreateMarketEvent>

  /** The ABI decoders of the eight events. */
  datatype MorphoAbi = MorphoAbi(
    supply: Abi<SupplyEvent>,
    withdraw: Abi<WithdrawEvent>,
    borrow: Abi<BorrowEvent>,
    repay: Abi<RepayEvent>,
    supplyCollateral: Abi<SupplyCollateralEvent>,
    withdrawCollateral: Abi<WithdrawCollateralEvent>,
    liquidate: Abi<LiquidateEvent>,
    createMarket: Abi<CreateMarketEvent>)

  /** Three indexed parameters plus the signature. */
  const TOPICS: nat := 4
  /** `CreateMarket` indexes only the market id. */
  const CREATE_MARKET_TOPICS: nat := 2

  /** `ParsedMorphoSupply::try_from_log`. */
  function TrySupply(abi: MorphoAbi, log: Log): (r: Option<ParsedSupply>)
    ensures |log.topics| != 4 || log.topics[0] != SignatureHash(MorphoSupply) ==> r == None
    ensures r.Some? <==> |log.topics| == 4 && log.topics[0] == SignatureHash(MorphoSupply)
                         && abi.supply(log.topics, log.data).Some?
    ensures r.Some? ==> r.value.emitter == log.address && Some(r.value.event) == abi.supply(log.topics, log.data)
  {
    StrictDecode(TOPICS, MorphoSupply, abi.supply, log)
  }

  /** `ParsedMorphoWithdraw::try_from_log`. */
  function TryWithdraw(abi: MorphoAbi, log: Log): (r: Option<ParsedWithdraw>)
    ensures |log.topics| != 4 || log.topics[0] != SignatureHash(MorphoWithdraw) ==> r == None
    ensures r.Some? <==> |log.topics| == 4 && log.topics[0] == SignatureHash(MorphoWithdraw)
                         && abi.withdraw(log.topics, log.data).Some?
    ensures r.Some? ==> r.value.emitter == log.address && Some(r.value.event) == abi.withdraw(log.topics, log.data)
  {
    StrictDecode(TOPICS, MorphoWithdraw, abi.withdraw, log)
  }

  /** `ParsedMorphoBorrow::try_from_log`. */
  function TryBorrow(abi: MorphoAbi, log: Log): (r: Option<ParsedBorrow>)
    ensures |log.topics| != 4 || log.topics[0] != SignatureHash(MorphoBorrow) ==> r == None
    ensures r.Some? <==> |log.topics| == 4 && log.topics[0] == SignatureHash(MorphoBorrow)
                         && abi.borrow(log.topics, log.data).Some?
    ensures r.Some? ==> r.value.emitter == log.address && Some(r.value.event) == abi.borrow(log.topics, log.data)
  {
    StrictDecode(TOPICS, MorphoBorrow, abi.borrow, log)
  }

  /** `ParsedMorphoRepay::try_from_log`. */
  function TryRepay(abi: MorphoAbi, log: Log): (r: Option<ParsedRepay>)
    ensures |log.topics| != 4 || log.topics[0] != SignatureHash(MorphoRepay) ==> r == None
    ensures r.Some? <==> |log.topics| == 4 && log.topics[0] == SignatureHash(MorphoRepay)
                         && abi.repay(log.topics, log.data).Some?
    ensures r.Some? ==> r.value.emitter == log.address && Some(r.value.event) == abi.repay(log.topics, log.data)
  {
    StrictDecode(TOPICS, MorphoRepay, abi.repay, log)
  }

  /** `ParsedMorphoSupplyCollateral::try_from_log`. */
  function TrySupplyCollateral(abi: MorphoAbi, log: Log): (r: Option<ParsedSupplyCollateral>)
    ensures |log.topics| != 4 || log.topics[0] != SignatureHash(MorphoSupplyCollateral) ==> r == None
    ensures r.Some? <==> |log.topics| == 4 && log.topics[0] == SignatureHash(MorphoSupplyCollateral)
                         && abi.supplyCollateral(log.topics, log.data).Some?
    ensures r.Some? ==> r.value.emitter == log.address
                        && Some(r.value.event) == abi.supplyCollateral(log.topics, log.data)
  {
    StrictDecode(TOPICS, MorphoSupplyCollateral, abi.supplyCollateral, log)
  }

  /** `ParsedMorphoWithdrawCollateral::try_from_log`. */
  function TryWithdrawCollateral(abi: MorphoAbi, log: Log): (r: Option<ParsedWithdrawCollateral>)
    ensures |log.topics| != 4 || log.topics[0] != SignatureHash(MorphoWithdrawCollateral) ==> r == None
    ensures r.Some? <==> |log.topics| == 4 && log.topics[0] == SignatureHash(MorphoWithdrawCollateral)
                         && abi.withdrawCollateral(log.topics, log.data).Some?
    ensures r.Some? ==> r.value.emitter == log.address
                        && Some(r.value.event) == abi.withdrawCollateral(log.topics, log.data)
  {
    StrictDecode(TOPICS, MorphoWithdrawCollateral, abi.withdrawCollateral, log)
  }

  /** `ParsedMorphoLiquidation::try_from_log`. */
  function TryLiquidation(abi: MorphoAbi, log: Log): (r: Option<ParsedLiquidation>)
    ensures |log.topics| != 4 || log.topics[0] != SignatureHash(MorphoLiquidate) ==> r == None
    ensures r.Some? <==> |log.topics| == 4 && log.topics[0] == SignatureHash(MorphoLiquidate)
                         && abi.liquidate(log.topics, log.data).Some?
    ensures r.Some? ==> r.value.emitter == log.address && Some(r.value.event) == abi.liquidate(log.topics, log.data)
  {
    StrictDecode(TOPICS, MorphoLiquidate, abi.liquidate, log)
  }

  /** `ParsedMorphoCreateMarket::try_from_log`: two topics, not four. */
  function TryCreateMarket(abi: MorphoAbi, log: Log): (r: Option<ParsedCreateMarket>)
    ensures |log.topics| != 2 || log.topics[0] != SignatureHash(MorphoCreateMarket) ==> r == None
    ensures r.Some? <==> |log.topics| == 2 && log.topics[0] == SignatureHash(MorphoCreateMarket)
                         && abi.createMarket(log.topics, log.data).Some?
    ensures r.Some? ==> r.value.emitter == log.address
                        && Some(r.value.event) == abi.createMarket(log.topics, log.data)
  {
    StrictDecode(CREATE_MARKET_TOPICS, MorphoCreateMarket, abi.createMarket, log)
  }

  /** How many of the eight decoders accept `log`. */
  function Hits(abi: MorphoAbi, log: Log): nat
  {
    (if TrySupply(abi, log).Some? then 1 else 0)
    + (if TryWithdraw(abi, log).Some? then 1 else 0)
    + (if TryBorrow(abi, log).Some? then 1 else 0)
    + (if TryRepay(abi, log).Some? then 1 else 0)
    + (if TrySupplyCollateral(abi, log).Some? then 1 else 0)
    + (if TryWithdrawCollateral(abi, log).Some? then 1 else 0)
    + (if TryLiquidation(abi, log).Some? then 1 else 0)
    + (if TryCreateMarket(abi, log).Some? then 1 else 0)
  }

  /** Whatever the ABI decoders accept, at most one of the eight decoders
      accepts a given log. */
  lemma AtMostOneKind(abi: MorphoAbi, log: Log)
    ensures Hits(abi, log) <= 1
  {
    if TrySupply(abi, log).Some? { StrictDecodeKind(TOPICS, MorphoSupply, abi.supply, log); }
    if TryWithdraw(abi, log).Some? { StrictDecodeKind(TOPICS, MorphoWithdraw, abi.withdraw, log); }
    if TryBorrow(abi, log).Some? { StrictDecodeKind(TOPICS, MorphoBorrow, abi.borrow, log); }
    if TryRepay(abi, log).Some? { StrictDecodeKind(TOPICS, MorphoRepay, abi.repay, log); }
    if TrySupplyCollateral(abi, log).Some? {
      StrictDecodeKind(TOPICS, MorphoSupplyCollateral, abi.supplyCollateral, log);
    }
    if TryWithdrawCollateral(abi, log).Some? {
      StrictDecodeKind(TOPICS, MorphoWithdrawCollateral, abi.withdrawCollateral, log);
    }
    if TryLiquidation(abi, log).Some? { StrictDecodeKind(TOPICS, MorphoLiquidate, abi.liquidate, log); }
    if TryCreateMarket(abi, log).Some? {
      StrictDecodeKind(CREATE_MARKET_TOPICS, MorphoCreateMarket, abi.createMarket, log);
    }
  }

  // ---------------------------------------------------------------------------
  // extract_all of each kind
  // ---------------------------------------------------------------------------

  function SupplyDecoder(abi: MorphoAbi): Log -> Option<ParsedSupply> { l => TrySupply(abi, l) }
  function WithdrawDecoder(abi: MorphoAbi): Log -> Option<ParsedWithdraw> { l => TryWithdraw(abi, l) }
  function BorrowDecoder(abi: MorphoAbi): Log -> Option<ParsedBorrow> { l => TryBorrow(abi, l) }
  function RepayDecoder(abi: MorphoAbi): Log -> Option<ParsedRepay> { l => TryRepay(abi, l) }
  function SupplyCollateralDecoder(abi: MorphoAbi): Log -> Option<ParsedSupplyCollateral>
  { l => TrySupplyCollateral(abi, l) }
  function WithdrawCollateralDecoder(abi: MorphoAbi): Log -> Option<ParsedWithdrawCollateral>
  { l => TryWithdrawCollateral(abi, l) }
  function LiquidationDecoder(abi: MorphoAbi): Log -> Option<ParsedLiquidation> { l => TryLiquidation(abi, l) }
  function CreateMarketDecoder(abi: MorphoAbi): Log -> Option<ParsedCreateMarket> { l => TryCreateMarket(abi, l) }

  /** `ParsedMorphoSupply::extract_all`. */
  function ExtractSupplies(abi: MorphoAbi, logs: seq<Log>): (r: seq<ParsedSupply>)
    ensures |r| <= |logs|
    ensures forall e :: e in r <==> exists i :: 0 <= i < |logs| && TrySupply(abi, logs[i]) == Some(e)
  {
    ExtractAll(SupplyDecoder(abi), logs)
  }

  /** `ParsedMorphoWithdraw::extract_all`. */
  function ExtractWithdraws(abi: MorphoAbi, logs: seq<Log>): (r: seq<ParsedWithdraw>)
    ensures |r| <= |logs|
    ensures forall e :: e in r <==> exists i :: 0 <= i < |logs| && TryWithdraw(abi, logs[i]) == Some(e)
  {
    ExtractAll(WithdrawDecoder(abi), logs)
  }

  /** `ParsedMorphoBorrow::extract_all`. */
  function ExtractBorrows(abi: MorphoAbi, logs: seq<Log>): (r: seq<ParsedBorrow>)
    ensures |r| <= |logs|
    ensures forall e :: e in r <==> exists i :: 0 <= i < |logs| && TryBorrow(abi, logs[i]) == Some(e)
  {
    ExtractAll(BorrowDecoder(abi), logs)
  }

  /** `ParsedMorphoRepay::extract_all`. */
  function ExtractRepays(abi: MorphoAbi, logs: seq<Log>): (r: seq<ParsedRepay>)
    ensures |r| <= |logs|
    ensures forall e :: e in r <==> exists i :: 0 <= i < |logs| && TryRepay(abi, logs[i]) == Some(e)
  {
    ExtractAll(RepayDecoder(abi), logs)
  }

  /** `ParsedMorphoSupplyCollateral::extract_all`. */
  function ExtractSupplyCollaterals(abi: MorphoAbi, logs: seq<Log>): (r: seq<ParsedSupplyCollateral>)
    ensures |r| <= |logs|
    ensures forall e :: e in r <==> exists i :: 0 <= i < |logs| && TrySupplyCollateral(abi, logs[i]) == Some(e)
  {
    ExtractAll(SupplyCollateralDecoder(abi), logs)
  }

  /** `ParsedMorphoWithdrawCollateral::extract_all`. */
  function ExtractWithdrawCollaterals(abi: MorphoAbi, logs: seq<Log>): (r: seq<ParsedWithdrawCollateral>)
    ensures |r| <= |logs|
    ensures forall e :: e in r <==> exists i :: 0 <= i < |logs| && TryWithdrawCollateral(abi, logs[i]) == Some(e)
  {
    ExtractAll(WithdrawCollateralDecoder(abi), logs)
  }

  /** `ParsedMorphoLiquidation::extract_all`. */
  function ExtractLiquidations(abi: MorphoAbi, logs: seq<Log>): (r: seq<ParsedLiquidation>)
    ensures |r| <= |logs|
    ensures forall e :: e in r <==> exists i :: 0 <= i < |logs| && TryLiquidation(abi, logs[i]) == Some(e)
  {
    ExtractAll(LiquidationDecoder(abi), logs)
  }

  /** `ParsedMorphoCreateMarket::extract_all`. */
  function ExtractCreateMarkets(abi: MorphoAbi, logs: seq<Log>): (r: seq<ParsedCreateMarket>)
    ensures |r| <= |logs|
    ensures forall e :: e in r <==> exists i :: 0 <= i < |logs| && TryCreateMarket(abi, logs[i]) == Some(e)
  {
    ExtractAll(CreateMarketDecoder(abi), logs)
  }

  // ---------------------------------------------------------------------------
  // The bundle
  // ---------------------------------------------------------------------------

  /** `MorphoUpdates`: the events of one log slice, grouped by kind. */
  datatype MorphoUpdates = MorphoUpdates(
    supplies: seq<ParsedSupply>,
    withdraws: seq<ParsedWithdraw>,
    borrows: seq<ParsedBorrow>,
    repays: seq<ParsedRepay>,
    supplyCollaterals: seq<ParsedSupplyCollateral>,
    withdrawCollaterals: seq<ParsedWithdrawCollateral>,
    liquidations: seq<ParsedLiquidation>,
    createMarkets: seq<ParsedCreateMarket>)

  /** `total_count`: the number of events in the bundle. */
  function TotalCount(u: MorphoUpdates): nat
  {
    |u.supplies| + |u.withdraws| + |u.borrows| + |u.repays|
    + |u.supplyCollaterals| + |u.withdrawCollaterals| + |u.liquidations| + |u.createMarkets|
  }

  /** `is_empty`: no list holds an event, which is a total count of zero. */
  function IsEmpty(u: MorphoUpdates): (r: bool)
    ensures r <==> TotalCount(u) == 0
  {
    |u.supplies| == 0 && |u.withdraws| == 0 && |u.borrows| == 0 && |u.repays| == 0
    && |u.supplyCollaterals| == 0 && |u.withdrawCollaterals| == 0 && |u.liquidations| == 0
    && |u.createMarkets| == 0
  }

  /** `MorphoUpdates::default()`: empty, with a total count of zero. */
  function Empty(): (u: MorphoUpdates)
    ensures IsEmpty(u) && TotalCount(u) == 0
  {
    MorphoUpdates([], [], [], [], [], [], [], [])
  }

  /** `MorphoUpdates::extract_all`: all eight extractors over the same slice. Each
      list collects exactly the events its kind's decoder yields on some
      log, and since a log is at most one kind, the bundle never holds
      more events than there are logs. */
  function ExtractUpdates(abi: MorphoAbi, logs: seq<Log>): (u: MorphoUpdates)
    ensures TotalCount(u) <= |logs|
    ensures Collects(u.supplies, SupplyDecoder(abi), logs)
    ensures Collects(u.withdraws, WithdrawDecoder(abi), logs)
    ensures Collects(u.borrows, BorrowDecoder(abi), logs)
    ensures Collects(u.repays, RepayDecoder(abi), logs)
    ensures Collects(u.supplyCollaterals, SupplyCollateralDecoder(abi), logs)
    ensures Collects(u.withdrawCollaterals, WithdrawCollateralDecoder(abi), logs)
    ensures Collects(u.liquidations, LiquidationDecoder(abi), logs)
    ensures Collects(u.createMarkets, CreateMarketDecoder(abi), logs)
  {
    UpdatesCount(abi, logs);
    MorphoUpdates(
      ExtractSupplies(abi, logs),
      ExtractWithdraws(abi, logs),
      ExtractBorrows(abi, logs),
      ExtractRepays(abi, logs),
      ExtractSupplyCollaterals(abi, logs),
      ExtractWithdrawCollaterals(abi, logs),
      ExtractLiquidations(abi, logs),
      ExtractCreateMarkets(abi, logs))
  }

  /** The per-kind extractions together hold at most one event per log. */
  lemma UpdatesCount(abi: MorphoAbi, logs: seq<Log>)
    ensures |ExtractSupplies(abi, logs)| + |ExtractWithdraws(abi, logs)| + |ExtractBorrows(abi, logs)|
          + |ExtractRepays(abi, logs)| + |ExtractSupplyCollaterals(abi, logs)|
          + |ExtractWithdrawCollaterals(abi, logs)| + |ExtractLiquidations(abi, logs)|
          + |ExtractCreateMarkets(abi, logs)| <= |logs|
  {
    ExtractAllCount(SupplyDecoder(abi), logs);
    ExtractAllCount(WithdrawDecoder(abi), logs);
    ExtractAllCount(BorrowDecoder(abi), logs);
    ExtractAllCount(RepayDecoder(abi), logs);
    ExtractAllCount(SupplyCollateralDecoder(abi), logs);
    ExtractAllCount(WithdrawCollateralDecoder(abi), logs);
    ExtractAllCount(LiquidationDecoder(abi), logs);
    ExtractAllCount(CreateMarketDecoder(abi), logs);
    CountBound(abi, logs);
  }

  /** The eight per-kind counts add up to at most the number of logs. */
  lemma {:induction false} CountBound(abi: MorphoAbi, logs: seq<Log>)
    ensures CountSome(logs, SupplyDecoder(abi)) + CountSome(logs, WithdrawDecoder(abi))
          + CountSome(logs, BorrowDecoder(abi)) + CountSome(logs, RepayDecoder(abi))
          + CountSome(logs, SupplyCollateralDecoder(abi)) + CountSome(logs, WithdrawCollateralDecoder(abi))
          + CountSome(logs, LiquidationDecoder(abi)) + CountSome(logs, CreateMarketDecoder(abi)) <= |logs|
    decreases |logs|
  {
    if |logs| > 0 {
      CountBound(abi, logs[1..]);
      AtMostOneKind(abi, logs[0]);
    }
  }
}
