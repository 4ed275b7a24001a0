/*******************************************************************************
 *  The protocol handlers and the dispatcher.
 *
 *  A handler turns a flashblock into the list of sends it makes, each a label (`data_type`)
 *  and a payload, in order; sending that list to a sink goes on past failed
 *  sends. The dispatcher runs every registered handler at once, so the sink
 *  sees an interleaving of the handlers' lists, chosen by a schedule
 *  parameter.
 *
 *  A handler's logging (counts, the block number, the pool state after a
 *  swap) decides nothing about what is sent, so it is not modelled.
 *******************************************************************************/

module Handlers {
  import opened Primitives
  import opened Seqs
  import Signatures
  import opened Logs
  import opened Envelope
  import opened Streams
  import UniV3
  import Chainlink
  import Aave
  import Morpho
  import Flashblocks
  import Output

  // ---------------------------------------------------------------------------
  // Emissions
  // ---------------------------------------------------------------------------

  /** Every payload type a handler sends. */
  datatype Payload =
    | Swap(swap: UniV3.ParsedSwap)
    | AnswerUpdated(update: Chainlink.ParsedAnswerUpdated)
    | AaveSupply(aaveSupply: Aave.ParsedSupply)
    | AaveWithdraw(aaveWithdraw: Aave.ParsedWithdraw)
    | AaveBorrow(aaveBorrow: Aave.ParsedBorrow)
    | AaveRepay(aaveRepay: Aave.ParsedRepay)
    | AaveLiquidation(aaveLiquidation: Aave.ParsedLiquidation)
    | MorphoSupply(morphoSupply: Morpho.ParsedSupply)
    | MorphoWithdraw(morphoWithdraw: Morpho.ParsedWithdraw)
    | MorphoBorrow(morphoBorrow: Morpho.ParsedBorrow)
    | MorphoRepay(morphoRepay: Morpho.ParsedRepay)
    | MorphoSupplyCollateral(morphoSupplyCollateral: Morpho.ParsedSupplyCollateral)
    | MorphoWithdrawCollateral(morphoWithdrawCollateral: Morpho.ParsedWithdrawCollateral)
    | MorphoLiquidation(morphoLiquidation: Morpho.ParsedLiquidation)
    | MorphoCreateMarket(morphoCreateMarket: Morpho.ParsedCreateMarket)

  /** One `stream.send(label, payload)`. */
  datatype Emission = Emission(dataType: string, payload: Payload)

  /** A run of sends sharing a label: one `for` loop of a handler. */
  datatype Section = Section(dataType: string, payloads: seq<Payload>)

  /** The payloads of a list of events. */
  function Wrap<T>(items: seq<T>, wrap: T -> Payload): (r: seq<Payload>)
    ensures |r| == |items|
  {
    seq(|items|, i requires 0 <= i < |items| => wrap(items[i]))
  }

  /** `ps` is the list `items`, each wrapped. */
  predicate Carries<T>(ps: seq<Payload>, items: seq<T>, wrap: T -> Payload)
  {
    |ps| == |items| && forall i :: 0 <= i < |items| ==> ps[i] == wrap(items[i])
  }

  /** The sends of one loop. */
  function Tag(s: Section): (r: seq<Emission>)
    ensures |r| == |s.payloads|
  {
    seq(|s.payloads|, i requires 0 <= i < |s.payloads| => Emission(s.dataType, s.payloads[i]))
  }

  /** The loops run one after the other. */
  function Emit(sections: seq<Section>): seq<Emission>
  {
    if |sections| == 0 then [] else Tag(sections[0]) + Emit(sections[1..])
  }

  /** Running one more loop appends its sends. */
  lemma {:induction false} EmitSnoc(sections: seq<Section>, s: Section)
    ensures Emit(sections + [s]) == Emit(sections) + Tag(s)
    decreases |sections|
  {
    if |sections| == 0 {
      assert sections + [s] == [s];
      assert [s][1..] == [];
    } else {
      assert (sections + [s])[1..] == sections[1..] + [s];
      EmitSnoc(sections[1..], s);
    }
  }

  /** The sends of the first `k + 1` loops are those of the first `k`, then
      those of loop `k`. */
  lemma EmitPrefix(sections: seq<Section>, k: nat)
    requires k < |sections|
    ensures Emit(sections[..k + 1]) == Emit(sections[..k]) + Tag(sections[k])
  {
    assert sections[..k + 1] == sections[..k] + [sections[k]];
    EmitSnoc(sections[..k], sections[k]);
  }

  /** Five loops, one after the other. */
  lemma EmitFive(a: Section, b: Section, c: Section, d: Section, e: Section)
    ensures Emit([a, b, c, d, e]) == Tag(a) + Tag(b) + Tag(c) + Tag(d) + Tag(e)
  {
    assert [a][1..] == [];
    EmitSnoc([a], b);
    assert [a] + [b] == [a, b];
    EmitSnoc([a, b], c);
    assert [a, b] + [c] == [a, b, c];
    EmitSnoc([a, b, c], d);
    assert [a, b, c] + [d] == [a, b, c, d];
    EmitSnoc([a, b, c, d], e);
    assert [a, b, c, d] + [e] == [a, b, c, d, e];
  }

  /** Eight loops, one after the other. */
  lemma EmitEight(a: Section, b: Section, c: Section, d: Section, e: Section, f: Section, g: Section, h: Section)
    ensures Emit([a, b, c, d, e, f, g, h])
            == Tag(a) + Tag(b) + Tag(c) + Tag(d) + Tag(e) + Tag(f) + Tag(g) + Tag(h)
  {
    EmitFive(a, b, c, d, e);
    EmitSnoc([a, b, c, d, e], f);
    assert [a, b, c, d, e] + [f] == [a, b, c, d, e, f];
    EmitSnoc([a, b, c, d, e, f], g);
    assert [a, b, c, d, e, f] + [g] == [a, b, c, d, e, f, g];
    EmitSnoc([a, b, c, d, e, f, g], h);
    assert [a, b, c, d, e, f, g] + [h] == [a, b, c, d, e, f, g, h];
  }

  /** Whether an emission has the given label, and its payload if it has. */
  function Selector(dataType: string): Emission -> Option<Payload>
  {
    (e: Emission) => if e.dataType == dataType then Some(e.payload) else None
  }

  /** The payloads sent under a label, in send order. */
  function WithLabel(es: seq<Emission>, dataType: string): seq<Payload>
  {
    FilterMap(es, Selector(dataType))
  }

  /** The sends of one loop, seen through a label. */
  lemma {:induction false} TagWithLabel(s: Section, dataType: string)
    ensures WithLabel(Tag(s), dataType) == if s.dataType == dataType then s.payloads else []
    decreases |s.payloads|
  {
    if |s.payloads| > 0 {
      var s' := Section(s.dataType, s.payloads[1..]);
      TagWithLabel(s', dataType);
      assert Tag(s)[1..] == Tag(s');
    }
  }

  predicate DistinctLabels(sections: seq<Section>)
  {
    forall i, j :: 0 <= i < j < |sections| ==> sections[i].dataType != sections[j].dataType
  }

  /** A label no loop uses selects nothing. */
  lemma {:induction false} EmitWithOtherLabel(sections: seq<Section>, dataType: string)
    requires forall i :: 0 <= i < |sections| ==> sections[i].dataType != dataType
    ensures WithLabel(Emit(sections), dataType) == []
    decreases |sections|
  {
    if |sections| > 0 {
      FilterMapAppend(Tag(sections[0]), Emit(sections[1..]), Selector(dataType));
      TagWithLabel(sections[0], dataType);
      EmitWithOtherLabel(sections[1..], dataType);
    }
  }

  /** With distinct labels, the sends under a loop's label are exactly that
      loop's payloads, in its order. */
  lemma {:induction false} EmitWithLabel(sections: seq<Section>, k: nat)
    requires DistinctLabels(sections)
    requires k < |sections|
    ensures WithLabel(Emit(sections), sections[k].dataType) == sections[k].payloads
    decreases |sections|
  {
    var dataType := sections[k].dataType;
    FilterMapAppend(Tag(sections[0]), Emit(sections[1..]), Selector(dataType));
    TagWithLabel(sections[0], dataType);
    if k == 0 {
      EmitWithOtherLabel(sections[1..], dataType);
    } else {
      EmitWithLabel(sections[1..], k - 1);
    }
  }

  // ---------------------------------------------------------------------------
  // The four handlers
  // ---------------------------------------------------------------------------

  const UNIV3_SWAP: string := "UniV3_swap"
  const CHAINLINK_ANSWER_UPDATED: string := "Chainlink_answer_updated"

  /** `UniV3Handler::process` on the swaps of a flashblock: one send per swap,
      in extraction order; none when there are none. */
  function UniV3Emissions(swaps: seq<UniV3.ParsedSwap>): (r: seq<Emission>)
    ensures |r| == |swaps|
    ensures forall i :: 0 <= i < |swaps| ==> r[i] == Emission(UNIV3_SWAP, Swap(swaps[i]))
  {
    Tag(Section(UNIV3_SWAP, Wrap(swaps, s => Swap(s))))
  }

  /** `ChainlinkHandler::process` on the AnswerUpdated events of a flashblock:
      one send per update, in extraction order. NewRound events are never
      looked at. */
  function ChainlinkEmissions(updates: seq<Chainlink.ParsedAnswerUpdated>): (r: seq<Emission>)
    ensures |r| == |updates|
    ensures forall i :: 0 <= i < |updates| ==> r[i] == Emission(CHAINLINK_ANSWER_UPDATED, AnswerUpdated(updates[i]))
  {
    Tag(Section(CHAINLINK_ANSWER_UPDATED, Wrap(updates, u => AnswerUpdated(u))))
  }

  const AAVE_LABELS: seq<string> := ["Aave_supply", "Aave_withdraw", "Aave_borrow", "Aave_repay", "Aave_liquidation"]

  /** The five loops of `AaveHandler::process`, in order. */
  function AaveSections(u: Aave.AaveUserUpdates): (r: seq<Section>)
    ensures |r| == |AAVE_LABELS| && DistinctLabels(r)
    ensures forall k :: 0 <= k < |r| ==> r[k].dataType == AAVE_LABELS[k]
  {
    [ Section(AAVE_LABELS[0], Wrap(u.supplies, x => AaveSupply(x))),
      Section(AAVE_LABELS[1], Wrap(u.withdraws, x => AaveWithdraw(x))),
      Section(AAVE_LABELS[2], Wrap(u.borrows, x => AaveBorrow(x))),
      Section(AAVE_LABELS[3], Wrap(u.repays, x => AaveRepay(x))),
      Section(AAVE_LABELS[4], Wrap(u.liquidations, x => AaveLiquidation(x))) ]
  }

  /** `AaveHandler::process`: nothing for an empty bundle, otherwise one send
      per event, `total_count` in all. */
  function AaveEmissions(u: Aave.AaveUserUpdates): (r: seq<Emission>)
    ensures |r| == Aave.TotalCount(u)
    ensures Aave.IsEmpty(u) ==> r == []
  {
    var s := AaveSections(u);
    EmitFive(s[0], s[1], s[2], s[3], s[4]);
    if Aave.IsEmpty(u) then [] else Emit(s)
  }

  /** The sends under each Aave label are that kind's events, in their order. */
  lemma AaveEmissionsByLabel(u: Aave.AaveUserUpdates)
    ensures Carries(WithLabel(AaveEmissions(u), "Aave_supply"), u.supplies, x => AaveSupply(x))
    ensures Carries(WithLabel(AaveEmissions(u), "Aave_withdraw"), u.withdraws, x => AaveWithdraw(x))
    ensures Carries(WithLabel(AaveEmissions(u), "Aave_borrow"), u.borrows, x => AaveBorrow(x))
    ensures Carries(WithLabel(AaveEmissions(u), "Aave_repay"), u.repays, x => AaveRepay(x))
    ensures Carries(WithLabel(AaveEmissions(u), "Aave_liquidation"), u.liquidations, x => AaveLiquidation(x))
  {
    var sections := AaveSections(u);
    if !Aave.IsEmpty(u) {
      EmitWithLabel(sections, 0);
      EmitWithLabel(sections, 1);
      EmitWithLabel(sections, 2);
      EmitWithLabel(sections, 3);
      EmitWithLabel(sections, 4);
    }
  }

  /** The Aave sends go supplies first, then withdraws, borrows, repays and
      liquidations. */
  lemma AaveSendOrder(u: Aave.AaveUserUpdates)
    ensures var r := AaveEmissions(u);
            var (a, b, c, d) := (|u.supplies|, |u.withdraws|, |u.borrows|, |u.repays|);
            && (forall i :: 0 <= i < a ==> r[i] == Emission("Aave_supply", AaveSupply(u.supplies[i])))
            && (forall i :: 0 <= i < b ==> r[a + i] == Emission("Aave_withdraw", AaveWithdraw(u.withdraws[i])))
            && (forall i :: 0 <= i < c ==> r[a + b + i] == Emission("Aave_borrow", AaveBorrow(u.borrows[i])))
            && (forall i :: 0 <= i < d ==> r[a + b + c + i] == Emission("Aave_repay", AaveRepay(u.repays[i])))
            && (forall i :: 0 <= i < |u.liquidations| ==>
                  r[a + b + c + d + i] == Emission("Aave_liquidation", AaveLiquidation(u.liquidations[i])))
  {
    var s := AaveSections(u);
    EmitFive(s[0], s[1], s[2], s[3], s[4]);
  }

  const MORPHO_LABELS: seq<string> := [
    "Morpho_supply", "Morpho_withdraw", "Morpho_borrow", "Morpho_repay",
    "Morpho_supply_collateral", "Morpho_withdraw_collateral", "Morpho_liquidation", "Morpho_create_market"
  ]

  /** The eight loops of `MorphoHandler::process`, in order. */
  function MorphoSections(u: Morpho.MorphoUpdates): (r: seq<Section>)
    ensures |r| == |MORPHO_LABELS| && DistinctLabels(r)
    ensures forall k :: 0 <= k < |r| ==> r[k].dataType == MORPHO_LABELS[k]
  {
    [ Section(MORPHO_LABELS[0], Wrap(u.supplies, x => MorphoSupply(x))),
      Section(MORPHO_LABELS[1], Wrap(u.withdraws, x => MorphoWithdraw(x))),
      Section(MORPHO_LABELS[2], Wrap(u.borrows, x => MorphoBorrow(x))),
      Section(MORPHO_LABELS[3], Wrap(u.repays, x => MorphoRepay(x))),
      Section(MORPHO_LABELS[4], Wrap(u.supplyCollaterals, x => MorphoSupplyCollateral(x))),
      Section(MORPHO_LABELS[5], Wrap(u.withdrawCollaterals, x => MorphoWithdrawCollateral(x))),
      Section(MORPHO_LABELS[6], Wrap(u.liquidations, x => MorphoLiquidation(x))),
      Section(MORPHO_LABELS[7], Wrap(u.createMarkets, x => MorphoCreateMarket(x))) ]
  }

  /** `MorphoHandler::process`: nothing for an empty bundle, otherwise one
      send per event, `total_count` in all. */
  function MorphoEmissions(u: Morpho.MorphoUpdates): (r: seq<Emission>)
    ensures |r| == Morpho.TotalCount(u)
    ensures Morpho.IsEmpty(u) ==> r == []
  {
    var s := MorphoSections(u);
    EmitEight(s[0], s[1], s[2], s[3], s[4], s[5], s[6], s[7]);
    if Morpho.IsEmpty(u) then [] else Emit(s)
  }

  /** The sends under each Morpho label are that kind's events, in their order. */
  lemma MorphoEmissionsByLabel(u: Morpho.MorphoUpdates)
    ensures Carries(WithLabel(MorphoEmissions(u), "Morpho_supply"), u.supplies, x => MorphoSupply(x))
    ensures Carries(WithLabel(MorphoEmissions(u), "Morpho_withdraw"), u.withdraws, x => MorphoWithdraw(x))
    ensures Carries(WithLabel(MorphoEmissions(u), "Morpho_borrow"), u.borrows, x => MorphoBorrow(x))
    ensures Carries(WithLabel(MorphoEmissions(u), "Morpho_repay"), u.repays, x => MorphoRepay(x))
    ensures Carries(WithLabel(MorphoEmissions(u), "Morpho_supply_collateral"), u.supplyCollaterals,
                    x => MorphoSupplyCollateral(x))
    ensures Carries(WithLabel(MorphoEmissions(u), "Morpho_withdraw_collateral"), u.withdrawCollaterals,
                    x => MorphoWithdrawCollateral(x))
    ensures Carries(WithLabel(MorphoEmissions(u), "Morpho_liquidation"), u.liquidations, x => MorphoLiquidation(x))
    ensures Carries(WithLabel(MorphoEmissions(u), "Morpho_create_market"), u.createMarkets, x => MorphoCreateMarket(x))
  {
    var sections := MorphoSections(u);
    if !Morpho.IsEmpty(u) {
      EmitWithLabel(sections, 0);
      EmitWithLabel(sections, 1);
      EmitWithLabel(sections, 2);
      EmitWithLabel(sections, 3);
      EmitWithLabel(sections, 4);
      EmitWithLabel(sections, 5);
      EmitWithLabel(sections, 6);
      EmitWithLabel(sections, 7);
    }
  }

  // ---------------------------------------------------------------------------
  // Sending a handler's list
  // ---------------------------------------------------------------------------

  /** The JSON line a send delivers, or nothing when the payload does not
      serialize. */
  function Line(ser: Serializer<Payload>, render: Render): Emission -> Option<string>
  {
    (e: Emission) => if ser(e.payload).Ok? then Some(render(Object([("type", String(e.dataType)), ("data", ser(e.payload).value)])))
         else None
  }

  /** One send of a handler's loop; its result is only logged. */
  function SendOne(o: Output.StreamOutput, ser: Serializer<Payload>, render: Render, e: Emission)
    : (o': Output.StreamOutput)
    ensures Output.Delivered(o') == Output.Delivered(o) + FilterMap([e], Line(ser, render))
    ensures o'.PrintOutput? == o.PrintOutput? && o'.WebSocketOutput? == o.WebSocketOutput?
  {
    assert [e][1..] == [];
    Output.Send(o, ser, render, e.dataType, e.payload).0
  }

  /** The lines a list of sends delivers. */
  function Lines(ser: Serializer<Payload>, render: Render, es: seq<Emission>): seq<string>
  {
    FilterMap(es, Line(ser, render))
  }

  /** Extending the sends by one extends the lines by that send's line. */
  lemma LinesSnoc(ser: Serializer<Payload>, render: Render, es: seq<Emission>, i: nat)
    requires i < |es|
    ensures Lines(ser, render, es[..i + 1]) == Lines(ser, render, es[..i]) + FilterMap([es[i]], Line(ser, render))
  {
    FilterMapAppend(es[..i], [es[i]], Line(ser, render));
    assert es[..i + 1] == es[..i] + [es[i]];
  }

  /** A handler's `for` loop of `stream.send(..).unwrap_or_else(log)`: every
      send is attempted, a failed one is only logged, and the sink ends up
      with the lines of exactly the sends that serialized, in order. */
  method SendAll(o: Output.StreamOutput, ser: Serializer<Payload>, render: Render, es: seq<Emission>)
    returns (o': Output.StreamOutput)
    ensures Output.Delivered(o') == Output.Delivered(o) + Lines(ser, render, es)
    ensures o'.PrintOutput? == o.PrintOutput? && o'.WebSocketOutput? == o.WebSocketOutput?
  {
    o' := o;
    var i := 0;
    while i < |es|
      invariant i <= |es|
      invariant Output.Delivered(o') == Output.Delivered(o) + Lines(ser, render, es[..i])
      invariant o'.PrintOutput? == o.PrintOutput? && o'.WebSocketOutput? == o.WebSocketOutput?
    {
      LinesSnoc(ser, render, es, i);
      o' := SendOne(o', ser, render, es[i]);
      i := i + 1;
    }
    assert es[..i] == es;
  }

  // ---------------------------------------------------------------------------
  // The dispatcher
  // ---------------------------------------------------------------------------

  datatype Handler = UniV3Handler | ChainlinkHandler

  /** `ALL_HANDLERS`: the Uniswap V3 and Chainlink handlers, in that order.
      The Aave and Morpho handlers are not registered. */
  const ALL_HANDLERS: seq<Handler> := [UniV3Handler, ChainlinkHandler]

  /** The decoders the registered handlers use. */
  datatype Decoders = Decoders(swap: Abi<UniV3.SwapEvent>, answer: Abi<Chainlink.AnswerUpdatedEvent>)

  /** What a registered handler sends for a flashblock. */
  function Process(h: Handler, abis: Decoders, probe: Signatures.EventKind -> B256, fb: Flashblocks.Flashblock,
                   order: seq<string>): seq<Emission>
    requires fb.metadata.Some? ==> IsEnumeration(order, fb.metadata.value.receipts.Keys)
  {
    match h
    case UniV3Handler => UniV3Emissions(Flashblocks.FlashblockSwaps(abis.swap, probe, fb, order))
    case ChainlinkHandler => ChainlinkEmissions(Flashblocks.FlashblockAnswerUpdates(abis.answer, probe, fb, order))
  }

  /** Every registered handler's sends, in `ALL_HANDLERS` order. */
  function Parts(abis: Decoders, probe: Signatures.EventKind -> B256, fb: Flashblocks.Flashblock, order: seq<string>)
    : seq<seq<Emission>>
    requires fb.metadata.Some? ==> IsEnumeration(order, fb.metadata.value.receipts.Keys)
  {
    [Process(ALL_HANDLERS[0], abis, probe, fb, order), Process(ALL_HANDLERS[1], abis, probe, fb, order)]
  }

  /** The union of two producers' elements. */
  lemma SumOfTwo<T>(parts: seq<seq<T>>)
    requires |parts| == 2
    ensures SumMultisets(parts) == multiset(parts[0]) + multiset(parts[1])
  {
    assert parts[..|parts| - 1] == parts[..1];
    assert SumMultisets(parts) == SumMultisets(parts[..1]) + multiset(parts[1]);
    assert parts[..1][..0] == [] && parts[..1][0] == parts[0];
    assert SumMultisets(parts[..1]) == SumMultisets(parts[..1][..0]) + multiset(parts[0]);
  }

  /** `process_all_protocols`: every registered handler runs once on the same
      flashblock; the sink sees an interleaving, which keeps each handler's
      own order and holds exactly the union of their sends. */
  function ProcessAll(abis: Decoders, probe: Signatures.EventKind -> B256, fb: Flashblocks.Flashblock, order: seq<string>,
                      schedule: seq<nat>): (trace: seq<Tagged<Emission>>)
    requires fb.metadata.Some? ==> IsEnumeration(order, fb.metadata.value.receipts.Keys)
    requires ValidSchedule(Parts(abis, probe, fb, order), schedule)
    ensures Project(trace, 0) == Process(UniV3Handler, abis, probe, fb, order)
    ensures Project(trace, 1) == Process(ChainlinkHandler, abis, probe, fb, order)
    ensures multiset(Items(trace)) == multiset(Process(UniV3Handler, abis, probe, fb, order))
                                      + multiset(Process(ChainlinkHandler, abis, probe, fb, order))
  {
    var parts := Parts(abis, probe, fb, order);
    MergeItemsMultiset(parts, schedule);
    SumOfTwo(parts);
    Merge(parts, schedule)
  }

  /** Only the registered handlers' labels reach the sink: no Aave, Morpho or
      NewRound send ever happens. */
  lemma OnlyRegisteredLabels(abis: Decoders, probe: Signatures.EventKind -> B256, fb: Flashblocks.Flashblock,
                             order: seq<string>, schedule: seq<nat>)
    requires fb.metadata.Some? ==> IsEnumeration(order, fb.metadata.value.receipts.Keys)
    requires ValidSchedule(Parts(abis, probe, fb, order), schedule)
    ensures forall e :: e in Items(ProcessAll(abis, probe, fb, order, schedule))
                        ==> (e.dataType == UNIV3_SWAP && e.payload.Swap?)
                            || (e.dataType == CHAINLINK_ANSWER_UPDATED && e.payload.AnswerUpdated?)
  {
    var items := Items(ProcessAll(abis, probe, fb, order, schedule));
    var p0 := Process(UniV3Handler, abis, probe, fb, order);
    var p1 := Process(ChainlinkHandler, abis, probe, fb, order);
    assert multiset(items) == multiset(p0) + multiset(p1);
    forall e | e in items
      ensures (e.dataType == UNIV3_SWAP && e.payload.Swap?)
              || (e.dataType == CHAINLINK_ANSWER_UPDATED && e.payload.AnswerUpdated?)
    {
      InEither(items, p0, p1, e);
      if e in p0 {
        var i :| 0 <= i < |p0| && p0[i] == e;
      } else {
        var i :| 0 <= i < |p1| && p1[i] == e;
      }
    }
  }

  /** An element of a union came from one of its two sides. */
  lemma InEither<T>(items: seq<T>, p0: seq<T>, p1: seq<T>, e: T)
    requires multiset(items) == multiset(p0) + multiset(p1)
    requires e in items
    ensures e in p0 || e in p1
  {
    assert e in multiset(items);
  }

  /** A two-element list holding two different elements once each is one
      of their two orders. */
  lemma TwoOrders<T>(items: seq<T>, x: T, y: T)
    requires x != y
    requires multiset(items) == multiset{x, y}
    ensures items == [x, y] || items == [y, x]
  {
    assert |items| == 2 by {
      assert |items| == |multiset(items)|;
    }
    assert items[0] in multiset(items) && items[1] in multiset(items);
    assert multiset(items) == multiset{items[0], items[1]} by {
      assert items == [items[0]] + [items[1]];
    }
  }

  /** Interleaving two one-element producers gives one of the two orders. */
  lemma MergeTwoSingletons<T>(x: T, y: T, schedule: seq<nat>)
    requires x != y
    requires ValidSchedule([[x], [y]], schedule)
    ensures Items(Merge([[x], [y]], schedule)) == [x, y] || Items(Merge([[x], [y]], schedule)) == [y, x]
  {
    var parts := [[x], [y]];
    MergeItemsMultiset(parts, schedule);
    SumOfTwo(parts);
    TwoOrders(Items(Merge(parts, schedule)), x, y);
  }

  lemma SingleSends(abis: Decoders, probe: Signatures.EventKind -> B256, fb: Flashblocks.Flashblock,
                    order: seq<string>, s: UniV3.ParsedSwap, a: Chainlink.ParsedAnswerUpdated)
    requires fb.metadata.Some? ==> IsEnumeration(order, fb.metadata.value.receipts.Keys)
    requires Flashblocks.FlashblockSwaps(abis.swap, probe, fb, order) == [s]
    requires Flashblocks.FlashblockAnswerUpdates(abis.answer, probe, fb, order) == [a]
    ensures Process(UniV3Handler, abis, probe, fb, order) == [Emission(UNIV3_SWAP, Swap(s))]
    ensures Process(ChainlinkHandler, abis, probe, fb, order) == [Emission(CHAINLINK_ANSWER_UPDATED, AnswerUpdated(a))]
  {
    assert UniV3Emissions([s]) == [Emission(UNIV3_SWAP, Swap(s))];
    assert ChainlinkEmissions([a]) == [Emission(CHAINLINK_ANSWER_UPDATED, AnswerUpdated(a))];
  }

  /** One swap and one AnswerUpdated in a flashblock give exactly one
      "UniV3_swap" and one "Chainlink_answer_updated" send, in either order. */
  lemma OneSwapOneAnswer(abis: Decoders, probe: Signatures.EventKind -> B256, fb: Flashblocks.Flashblock,
                         order: seq<string>, schedule: seq<nat>, s: UniV3.ParsedSwap, a: Chainlink.ParsedAnswerUpdated)
    requires fb.metadata.Some? ==> IsEnumeration(order, fb.metadata.value.receipts.Keys)
    requires Flashblocks.FlashblockSwaps(abis.swap, probe, fb, order) == [s]
    requires Flashblocks.FlashblockAnswerUpdates(abis.answer, probe, fb, order) == [a]
    requires ValidSchedule(Parts(abis, probe, fb, order), schedule)
    ensures var items := Items(ProcessAll(abis, probe, fb, order, schedule));
            var (e1, e2) := (Emission(UNIV3_SWAP, Swap(s)), Emission(CHAINLINK_ANSWER_UPDATED, AnswerUpdated(a)));
            items == [e1, e2] || items == [e2, e1]
  {
    var e1 := Emission(UNIV3_SWAP, Swap(s));
    var e2 := Emission(CHAINLINK_ANSWER_UPDATED, AnswerUpdated(a));
    SingleSends(abis, probe, fb, order, s, a);
    var parts := Parts(abis, probe, fb, order);
    assert parts == [[e1], [e2]];
    assert ProcessAll(abis, probe, fb, order, schedule) == Merge(parts, schedule);
    MergeTwoSingletons(e1, e2, schedule);
  }

  /** `process_all_protocols` with the sends reaching the sink: the sink ends
      up with the lines of the interleaved sends, failures skipped. */
  method ProcessAllProtocols(abis: Decoders, probe: Signatures.EventKind -> B256, fb: Flashblocks.Flashblock,
                             order: seq<string>, schedule: seq<nat>,
                             o: Output.StreamOutput, ser: Serializer<Payload>, render: Render)
    returns (o': Output.StreamOutput)
    requires fb.metadata.Some? ==> IsEnumeration(order, fb.metadata.value.receipts.Keys)
    requires ValidSchedule(Parts(abis, probe, fb, order), schedule)
    ensures Output.Delivered(o') == Output.Delivered(o) + Lines(ser, render, Items(ProcessAll(abis, probe, fb, order, schedule)))
  {
    o' := SendAll(o, ser, render, Items(ProcessAll(abis, probe, fb, order, schedule)));
  }
}
