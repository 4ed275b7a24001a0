# flashblocks-digestor, modelled in Dafny

flashblocks-digestor reads the flashblocks an OP Stack sequencer streams out. Each flashblock is a partial block whose
metadata holds a map from transaction hash to receipt. From those receipts it decodes DeFi events:

- Uniswap V3 swaps;
- Chainlink `AnswerUpdated` and `NewRound`;
- the five Aave V3 user actions;
- the eight Morpho Blue events.

Protocol handlers then send these events, each wrapped in a typed JSON envelope, to one of three sinks: stdout, a
WebSocket broadcast server, or a Server-Sent Events (SSE) broadcast server.

This project models two parts of the system and proves properties about them:

- **The event-extraction engine** (`crates/flashblocks-types`):
  - the event signature hashes;
  - the 2048-bit log bloom of section 4.3.1 of the Ethereum Yellow Paper;
  - each protocol's bloom prefilter, strict log decoders, `extract_all` and update bundles;
  - the receipt wrappers with their fail-open bloom check;
  - extraction across a flashblock's receipts.
- **The emission and sink layer** (`src/protocols`, `crates/streams`):
  - the four handlers' send loops;
  - the dispatcher over the registered handlers;
  - `StreamEnvelope` and `from_type_name`;
  - the print, WebSocket and SSE sinks, and `StreamOutput`;
  - the client registry shared by the two servers;
  - the WebSocket connection loop as a step function;
  - SSE routing, framing and client cleanup.

## Modules

| module | file | what it holds |
|---|---|---|
| `Primitives` | primitives.dfy | `Option`, `Result`, bytes, 20-byte addresses, 32-byte words, fixed-width integers as subset types, the keccak parameter type |
| `Seqs` | seqs.dfy | `filter_map`, `flat_map`, key enumerations of a map, and the interleaving of several producers' sequences |
| `Signatures` | signatures.dfy | the 20 event kinds, their canonical signature strings and their keccak-256 hashes as constants; proofs that the hashes are distinct |
| `Logs` | logs.dfy | `ReceiptLog`, `LogData::new`, the strict decoder shared by every `try_from_log`, and `extract_all` |
| `Bloom` | bloom.dfy | the 2048-bit bloom as a set of bit indices, M3:2048, accrual, and the probe the source uses next to the corrected one |
| `UniV3`, `Chainlink`, `Aave`, `Morpho` | univ3.dfy, chainlink.dfy, aave.dfy, morpho.dfy | the per-protocol prefilter flags, decoders, extractors and bundles |
| `Flashblocks` | flashblocks.dfy | receipt wrappers, `may_have_*`, extraction over the receipt map, `Flashblock::extract_*`, and the counterexample of the first finding |
| `Envelope` | envelope.dfy | the JSON tree, `StreamEnvelope`, `from_type_name`, envelope serialization |
| `Streams` | streams.dfy | `StreamError`, envelope text, the broadcast channel, the state the two servers share |
| `Registry` | registry.dfy | the client id counter (a 64-bit atomic that wraps) and the id-to-address map |
| `Print`, `Output` | print.dfy, output.dfy | the stdout sink and `StreamOutput` |
| `WebSocket` | websocket.dfy | the `handle_connection` loop and the server's registry bookkeeping |
| `Sse` | sse.dfy | `handle_request`, event framing, and the server's registry bookkeeping |
| `Handlers` | handlers.dfy | the four handlers' send loops, `ALL_HANDLERS` and `process_all_protocols` |

**Parameters.** Everything the code hands to a library it cannot see is a parameter of the model:

- `keccak256`, used to build a receipt's bloom;
- the ABI decoders, which are partial and depend only on a log's topics and data;
- the serializer of a payload to a JSON tree, and the rendering of that tree to text;
- whether binding the listener succeeds;
- the order in which the receipt hash map is iterated, given as a sequence enumerating its keys;
- the schedule by which the parallel handlers' sends interleave.

**Signature strings.** An event's signature string lists every parameter type, indexed ones included, as the `sol!`
declarations and their unit tests show. For example, Aave's Supply is `Supply(address,address,address,uint256,uint16)`.

## Model

| member | source | states |
|---|---|---|
| Signatures.SignatureHashInjective | crates/flashblocks-types/src/aave.rs:384-418 | two event kinds have the same signature hash exactly when they are the same kind, across all four protocols |
| Signatures.CanonicalInjective | crates/flashblocks-types/src/morpho.rs:583-640 | the 20 canonical signature strings are pairwise distinct, Morpho's `Supply`/`Withdraw`/`Borrow`/`Repay` included against Aave's |
| Signatures.PrefixIdentifiesKind | crates/flashblocks-types/src/chainlink.rs:146-158 | the leading bytes of a signature hash already determine the event kind |
| Logs.NewLogData | crates/flashblocks-types/src/univ3.rs:124 | `LogData::new` succeeds exactly when there are at most four topics, and then keeps topics and data unchanged |
| Logs.StrictDecode | crates/flashblocks-types/src/chainlink.rs:63-84 | a strict decoder rejects a wrong topic count and a wrong `topics[0]`; it succeeds exactly when both match and the ABI decode succeeds; a success carries the log's address and the decoded event |
| Logs.StrictDecodeKind | crates/flashblocks-types/src/chainlink.rs:70-72 | a log a strict decoder accepts carries that decoder's event kind in `topics[0]` |
| Logs.StrictDecodersExclusive | crates/flashblocks-types/src/aave.rs:111-118 | two strict decoders of different kinds never both accept the same log |
| Logs.ExtractAll | crates/flashblocks-types/src/chainlink.rs:87-89 | `extract_all` yields no more events than logs, and an event is in the result exactly when some log decodes to it |
| Logs.ExtractAllPreservesOrder | crates/flashblocks-types/src/univ3.rs:142-144 | extraction over `a ++ b` is extraction over `a` followed by extraction over `b`, and one log yields its decode or nothing |
| Logs.ExtractAllCount | crates/flashblocks-types/src/aave.rs:133-135 | the number of extracted events is the number of logs that decode |
| Bloom.M3 | crates/flashblocks-types/src/flashblocks.rs:63 | a hash sets one to three of the 2048 bits |
| Bloom.AccrueHash | crates/flashblocks-types/src/flashblocks.rs:63 | accrual only adds bits, and only bits of the accrued hash; a log's bloom is built by accruing its address and then each topic |
| Bloom.AccruedHashIsContained | crates/flashblocks-types/src/flashblocks.rs:63 | once a hash is accrued, the bloom holds it whatever is accrued later (no false negatives) |
| Bloom.EmptyContainsNothing | crates/flashblocks-types/src/flashblocks.rs:63 | the empty bloom holds no hash |
| Bloom.LogBloomHasTopics | crates/flashblocks-types/src/flashblocks.rs:21-26 | the bloom of a log holds the M3 bits of the keccak of each of its topics |
| Bloom.ReceiptBloomHasLogs | crates/flashblocks-types/src/flashblocks.rs:21-26 | a receipt's bloom includes the bloom of every one of its logs |
| Bloom.ProbeFindsTopic | crates/flashblocks-types/src/flashblocks.rs:59-65 | probing with the keccak of a signature hash finds any log that has that hash as a topic |
| UniV3.FromBloom | crates/flashblocks-types/src/univ3.rs:74-82 | each of the five Uniswap V3 flags is set exactly when the bloom holds that event's probe |
| UniV3.Any | crates/flashblocks-types/src/univ3.rs:85-91 | `any()` holds exactly when some flag is set |
| UniV3.AnyFromBloom | crates/flashblocks-types/src/univ3.rs:74-91 | the prefilter built from a bloom is positive exactly when the bloom holds the probe of some Uniswap V3 event |
| UniV3.Default | crates/flashblocks-types/src/univ3.rs:62-69 | the default value sets no flag and `any()` is false |
| UniV3.FromEmptyBloom | crates/flashblocks-types/src/univ3.rs:74-91 | an empty bloom flags no Uniswap V3 event |
| UniV3.FromBloomNoFalseNegatives | crates/flashblocks-types/src/univ3.rs:74-82 | with the corrected probe, an event whose signature is `topics[0]` of some log is flagged in that receipt's bloom |
| UniV3.FromLog | crates/flashblocks-types/src/univ3.rs:117-139 | `from_log` is None for no topics or a foreign `topics[0]`; it succeeds exactly when `topics[0]` is the Swap hash, there are at most four topics and the decode succeeds; `pool` is the log address, the other fields are copied, and `-2^23 <= tick < 2^23` |
| UniV3.ExtractAll | crates/flashblocks-types/src/univ3.rs:142-144 | the swaps of a log slice are exactly the logs' decodes, at most one per log, every tick within int24 |
| UniV3.SwapKind | crates/flashblocks-types/src/univ3.rs:119-121 | a log that decodes as a swap carries the Swap signature as its kind |
| Chainlink.FromBloom | crates/flashblocks-types/src/chainlink.rs:34-40 | each of the two flags is set exactly when the bloom holds that event's probe |
| Chainlink.Any | crates/flashblocks-types/src/chainlink.rs:43-45 | `any()` holds exactly when a flag is set |
| Chainlink.Default | crates/flashblocks-types/src/chainlink.rs:140-143 | the default value sets no flag and `any()` is false |
| Chainlink.FromEmptyBloom | crates/flashblocks-types/src/chainlink.rs:34-45 | an empty bloom flags no Chainlink event |
| Chainlink.FromBloomNoFalseNegatives | crates/flashblocks-types/src/chainlink.rs:34-40 | with the corrected probe, a Chainlink event present in a receipt's logs is flagged |
| Chainlink.TryAnswerUpdated | crates/flashblocks-types/src/chainlink.rs:63-84 | None unless exactly 3 topics and the AnswerUpdated hash; success exactly when both hold and the decode succeeds; `feed` is the log address and the fields are copied |
| Chainlink.ExtractAnswerUpdates | crates/flashblocks-types/src/chainlink.rs:87-89 | the updates of a log slice are exactly the logs' decodes, at most one per log |
| Chainlink.TryNewRound | crates/flashblocks-types/src/chainlink.rs:107-127 | None unless exactly 3 topics and the NewRound hash; success exactly when both hold and the decode succeeds; `feed` is the log address |
| Chainlink.ExtractNewRounds | crates/flashblocks-types/src/chainlink.rs:130-132 | the new rounds of a log slice are exactly the logs' decodes, at most one per log |
| Chainlink.NotBothKinds | crates/flashblocks-types/src/chainlink.rs:146-158 | no log decodes both as AnswerUpdated and as NewRound |
| Aave.FromBloom | crates/flashblocks-types/src/aave.rs:71-80 | each of the five Aave flags is set exactly when the bloom holds that event's probe |
| Aave.Any | crates/flashblocks-types/src/aave.rs:83-89 | `any()` holds exactly when some flag is set |
| Aave.Default | crates/flashblocks-types/src/aave.rs:378-381 | the default value sets no flag and `any()` is false |
| Aave.FromEmptyBloom | crates/flashblocks-types/src/aave.rs:71-89 | an empty bloom flags no Aave event |
| Aave.FromBloomNoFalseNegatives | crates/flashblocks-types/src/aave.rs:71-80 | with the corrected probe, an Aave event present in a receipt's logs is flagged |
| Aave.TrySupply | crates/flashblocks-types/src/aave.rs:111-130 | None unless 4 topics and the Supply hash; success exactly when both hold and the decode succeeds; `pool` is the log address |
| Aave.TryWithdraw | crates/flashblocks-types/src/aave.rs:155-173 | the same for Withdraw |
| Aave.TryBorrow | crates/flashblocks-types/src/aave.rs:204-225 | the same for Borrow |
| Aave.TryRepay | crates/flashblocks-types/src/aave.rs:252-271 | the same for Repay |
| Aave.TryLiquidation | crates/flashblocks-types/src/aave.rs:302-324 | the same for LiquidationCall |
| Aave.AtMostOneKind | crates/flashblocks-types/src/aave.rs:384-418 | at most one of the five Aave decoders accepts any given log |
| Aave.ExtractSupplies | crates/flashblocks-types/src/aave.rs:133-135 | the supplies of a log slice are exactly the logs' decodes, at most one per log |
| Aave.ExtractWithdraws | crates/flashblocks-types/src/aave.rs:176-178 | the same for withdraws |
| Aave.ExtractBorrows | crates/flashblocks-types/src/aave.rs:228-230 | the same for borrows |
| Aave.ExtractRepays | crates/flashblocks-types/src/aave.rs:274-276 | the same for repays |
| Aave.ExtractLiquidations | crates/flashblocks-types/src/aave.rs:327-329 | the same for liquidations |
| Aave.IsEmpty | crates/flashblocks-types/src/aave.rs:355-370 | `is_empty` holds exactly when `total_count` is 0 |
| Aave.Empty | crates/flashblocks-types/src/aave.rs:333-340 | the default bundle is empty with count 0 |
| Aave.CountBound | crates/flashblocks-types/src/aave.rs:344-352 | the five per-kind counts over one log slice add up to at most its length |
| Aave.ExtractUpdates | crates/flashblocks-types/src/aave.rs:344-352 | every kind is extracted from the same slice, so `total_count` is at most the number of logs; each of the five lists (supplies, withdraws, borrows, repays, liquidations) holds exactly the events its kind's decoder yields on some log |
| Morpho.FromBloom | crates/flashblocks-types/src/morpho.rs:103-117 | each of the eight Morpho flags is set exactly when the bloom holds that event's probe |
| Morpho.Any | crates/flashblocks-types/src/morpho.rs:120-129 | `any()` holds exactly when some flag is set |
| Morpho.Default | crates/flashblocks-types/src/morpho.rs:577-580 | the default value sets no flag and `any()` is false |
| Morpho.FromEmptyBloom | crates/flashblocks-types/src/morpho.rs:103-129 | an empty bloom flags no Morpho event |
| Morpho.FromBloomNoFalseNegatives | crates/flashblocks-types/src/morpho.rs:103-117 | with the corrected probe, a Morpho event present in a receipt's logs is flagged |
| Morpho.TrySupply | crates/flashblocks-types/src/morpho.rs:151-170 | None unless 4 topics and the Supply hash; success exactly when both hold and the decode succeeds; `morpho` is the log address and the market id is the decoded `id` |
| Morpho.TryWithdraw | crates/flashblocks-types/src/morpho.rs:199-219 | the same for Withdraw |
| Morpho.TryBorrow | crates/flashblocks-types/src/morpho.rs:248-268 | the same for Borrow |
| Morpho.TryRepay | crates/flashblocks-types/src/morpho.rs:295-314 | the same for Repay |
| Morpho.TrySupplyCollateral | crates/flashblocks-types/src/morpho.rs:339-358 | the same for SupplyCollateral |
| Morpho.TryWithdrawCollateral | crates/flashblocks-types/src/morpho.rs:385-405 | the same for WithdrawCollateral |
| Morpho.TryLiquidation | crates/flashblocks-types/src/morpho.rs:438-461 | the same for Liquidate |
| Morpho.TryCreateMarket | crates/flashblocks-types/src/morpho.rs:490-511 | None unless exactly 2 topics and the CreateMarket hash; success exactly when both hold and the decode succeeds |
| Morpho.AtMostOneKind | crates/flashblocks-types/src/morpho.rs:583-640 | at most one of the eight Morpho decoders accepts any given log |
| Morpho.ExtractSupplies | crates/flashblocks-types/src/morpho.rs:173-175 | the supplies of a log slice are exactly the logs' decodes, at most one per log |
| Morpho.ExtractWithdraws | crates/flashblocks-types/src/morpho.rs:222-224 | the same for withdraws |
| Morpho.ExtractBorrows | crates/flashblocks-types/src/morpho.rs:271-273 | the same for borrows |
| Morpho.ExtractRepays | crates/flashblocks-types/src/morpho.rs:317-319 | the same for repays |
| Morpho.ExtractSupplyCollaterals | crates/flashblocks-types/src/morpho.rs:361-363 | the same for collateral supplies |
| Morpho.ExtractWithdrawCollaterals | crates/flashblocks-types/src/morpho.rs:408-410 | the same for collateral withdrawals |
| Morpho.ExtractLiquidations | crates/flashblocks-types/src/morpho.rs:464-466 | the same for liquidations |
| Morpho.ExtractCreateMarkets | crates/flashblocks-types/src/morpho.rs:514-516 | the same for market creations |
| Morpho.IsEmpty | crates/flashblocks-types/src/morpho.rs:548-569 | `is_empty` holds exactly when `total_count` is 0 |
| Morpho.Empty | crates/flashblocks-types/src/morpho.rs:643-647 | the default bundle is empty with count 0 |
| Morpho.CountBound | crates/flashblocks-types/src/morpho.rs:534-545 | the eight per-kind counts over one log slice add up to at most its length |
| Morpho.ExtractUpdates | crates/flashblocks-types/src/morpho.rs:534-545 | all eight extractors run over the same slice, so `total_count` is at most the number of logs; each of the eight lists (supplies, withdraws, borrows, repays, collateral supplies and withdrawals, liquidations, created markets) holds exactly the events its kind's decoder yields on some log |
| Flashblocks.Inner | crates/flashblocks-types/src/flashblocks.rs:42-51 | `inner()` is the receipt wrapped by whichever of the six transaction types it is |
| Flashblocks.ReceiptLogs | crates/flashblocks-types/src/flashblocks.rs:54-56 | `logs()` is exactly the log list of the wrapped receipt, whatever its transaction type |
| Flashblocks.MayHave | crates/flashblocks-types/src/flashblocks.rs:59-74 | the check passes when the receipt has no bloom (fail-open); otherwise it passes exactly when the bloom holds the probe bits |
| Flashblocks.CheckPassesTopic | crates/flashblocks-types/src/flashblocks.rs:59-65 | with a bloom accrued from its logs and the corrected probe, a receipt passes the check for every event kind one of its logs carries |
| Flashblocks.FromReceiptsMembership | crates/flashblocks-types/src/flashblocks.rs:90-96 | an event is extracted exactly when some receipt passes the check and its logs yield the event |
| Flashblocks.FromReceiptsOrderIndependent | crates/flashblocks-types/src/flashblocks.rs:90-105 | the extracted events, as a multiset, do not depend on the hash map's iteration order |
| Flashblocks.HarmlessCheck | crates/flashblocks-types/src/flashblocks.rs:90-105 | a check that only rejects receipts yielding nothing changes nothing: the result equals extraction over every receipt |
| Flashblocks.ExtractSwaps | crates/flashblocks-types/src/flashblocks.rs:90-96 | a swap is extracted exactly when some receipt passes `may_have_swap` and one of its logs decodes to it; every tick is within int24 |
| Flashblocks.ExtractAnswerUpdates | crates/flashblocks-types/src/flashblocks.rs:99-105 | an update is extracted exactly when some receipt passes `may_have_answer_updated` and one of its logs decodes to it |
| Flashblocks.ExtractSwapsOrderIndependent | crates/flashblocks-types/src/flashblocks.rs:90-96 | the extracted swaps, as a multiset, are the same for every iteration order |
| Flashblocks.ExtractAnswerUpdatesOrderIndependent | crates/flashblocks-types/src/flashblocks.rs:99-105 | the extracted updates, as a multiset, are the same for every iteration order |
| Flashblocks.SwapCheckSound | crates/flashblocks-types/src/flashblocks.rs:59-65 | with a faithful bloom and the corrected probe, a receipt that fails `may_have_swap` has no decodable swap |
| Flashblocks.AnswerCheckSound | crates/flashblocks-types/src/flashblocks.rs:68-74 | with a faithful bloom and the corrected probe, a receipt that fails `may_have_answer_updated` has no decodable update |
| Flashblocks.SwapCheckDropsNothing | crates/flashblocks-types/src/flashblocks.rs:90-96 | with faithful blooms and the corrected probe, filtered swap extraction equals extraction over every receipt |
| Flashblocks.AnswerCheckDropsNothing | crates/flashblocks-types/src/flashblocks.rs:99-105 | with faithful blooms and the corrected probe, filtered update extraction equals extraction over every receipt |
| Flashblocks.FlashblockSwaps | crates/flashblocks-types/src/flashblocks.rs:166-171 | a flashblock without metadata yields no swaps; otherwise it yields its metadata's swaps |
| Flashblocks.FlashblockAnswerUpdates | crates/flashblocks-types/src/flashblocks.rs:174-179 | a flashblock without metadata yields no updates; otherwise it yields its metadata's updates |
| Flashblocks.AsWrittenRejectsSwapReceipt | crates/flashblocks-types/src/flashblocks.rs:59-65 | the bloom of a receipt holding one Swap log lacks the bits the source probes for |
| Flashblocks.AsWrittenCheckSkipsSwap | crates/flashblocks-types/src/flashblocks.rs:59-65 | for that receipt, whose bloom is faithful and whose log decodes as a swap, the source's probe extracts nothing while the corrected probe extracts the swap |
| Seqs.Merge | src/protocols/mod.rs:38-46 | the interleaving sends exactly as many items as the schedule has steps, and each producer's items appear in that producer's own order |
| Seqs.MergeItemsMultiset | src/protocols/mod.rs:38-46 | the interleaving holds exactly the union, as a multiset, of the producers' items |
| Handlers.UniV3Emissions | src/protocols/univ3.rs:11-49 | one `"UniV3_swap"` send per swap, in extraction order, and none when there are no swaps |
| Handlers.ChainlinkEmissions | src/protocols/chainlink.rs:11-39 | one `"Chainlink_answer_updated"` send per update, in extraction order, and none when there are no updates |
| Handlers.AaveSections | src/protocols/aave.rs:30-107 | the five loops run in source order, with distinct labels `"Aave_supply"` … `"Aave_liquidation"` |
| Handlers.AaveEmissions | src/protocols/aave.rs:11-108 | the number of sends equals `total_count`, and an empty bundle sends nothing |
| Handlers.AaveEmissionsByLabel | src/protocols/aave.rs:39-103 | the sends under each Aave label are exactly that kind's events, in their order |
| Handlers.AaveSendOrder | src/protocols/aave.rs:30-107 | the sends are the supplies, then withdraws, borrows, repays and liquidations, each in its own order |
| Handlers.MorphoSections | src/protocols/morpho.rs:33-171 | the eight loops run in source order, with distinct labels `"Morpho_supply"` … `"Morpho_create_market"` |
| Handlers.MorphoEmissions | src/protocols/morpho.rs:11-171 | the number of sends equals `total_count`, and an empty bundle sends nothing |
| Handlers.MorphoEmissionsByLabel | src/protocols/morpho.rs:43-167 | the sends under each Morpho label are exactly that kind's events, in their order |
| Handlers.EmitWithLabel | src/protocols/morpho.rs:33-171 | with distinct labels, the sends under one loop's label are exactly that loop's payloads |
| Handlers.SendOne | src/protocols/univ3.rs:46-48 | a send that fails leaves the sink as it was; one that succeeds adds exactly its line; the sink variant never changes |
| Handlers.SendAll | src/protocols/univ3.rs:24-49 | the loop delivers the lines of exactly the sends that serialize, in order, so a failure does not stop later sends |
| Handlers.ProcessAll | src/protocols/mod.rs:35-46 | each registered handler runs once on the same flashblock; its sends keep their own order in the interleaving, and the interleaving holds exactly the union of the two handlers' sends |
| Handlers.OnlyRegisteredLabels | src/protocols/mod.rs:8-9 | only the `"UniV3_swap"` and `"Chainlink_answer_updated"` labels reach the sink; the Aave and Morpho handlers are not registered |
| Handlers.OneSwapOneAnswer | src/protocols/mod.rs:38-46 | one swap and one AnswerUpdated give exactly one send of each label, in either order |
| Handlers.ProcessAllProtocols | src/protocols/mod.rs:38-46 | the sink ends up with the lines of the interleaved sends, failed sends skipped |
| Envelope.New | crates/streams/src/envelope.rs:23-28 | the envelope carries the given label and data |
| Envelope.LastSegment | crates/streams/src/envelope.rs:35 | the label is the suffix of the type path after its last `"::"` (the whole path if it has none), and it contains no `"::"` |
| Envelope.LastSegmentUnique | crates/streams/src/envelope.rs:35 | any suffix that starts the path or follows a `"::"`, and is followed by no later `"::"`, is the label |
| Envelope.LastSegmentIdempotent | crates/streams/src/envelope.rs:35 | taking the last segment twice is the same as taking it once |
| Envelope.LastSegmentOfPath | crates/streams/src/envelope.rs:32-40 | `prefix::Name` gives `Name` for a name without a colon |
| Envelope.FromTypeName | crates/streams/src/envelope.rs:32-40 | `from_type_name` keeps the data and labels it with the last segment of the type path |
| Envelope.TestDataLabel | crates/streams/src/envelope.rs:62-68 | a type path ending in `::TestData` gives the label `"TestData"` |
| Envelope.ToJson | crates/streams/src/envelope.rs:12-19 | serializing an envelope fails exactly when its data does not serialize, with the same message; otherwise it is an object with exactly the keys `"type"` and `"data"`, in that order, `"type"` holding the label |
| Envelope.ToJsonRoundTrip | crates/streams/src/envelope.rs:12-19 | reading the envelope back from its JSON gives its label and its data's JSON |
| Envelope.TestEnvelopeJson | crates/streams/src/envelope.rs:52-60 | the test envelope serializes to `{"type":"TestData","data":{"value":42}}` |
| Streams.EnvelopeText | crates/streams/src/websocket.rs:125-126 | the envelope text exists exactly when the data serializes; otherwise the error is `"Failed to serialize data: "` followed by the serializer's message |
| Streams.Start | crates/streams/src/websocket.rs:52-55 | `start` fails exactly when binding fails, with `"Failed to bind to address <addr>: <reason>"` |
| Streams.NewServer | crates/streams/src/websocket.rs:35-42 | a capacity that `broadcast::channel` accepts (above zero, at most `usize::MAX / 2`) is required, since the channel panics otherwise; a new server has that capacity, nothing published, counter 0 and no clients |
| Streams.NewChannel | crates/streams/src/websocket.rs:36 | `broadcast::channel` is called only with a capacity it accepts (above zero, at most `usize::MAX / 2`); the new channel keeps that capacity and has carried no message |
| Streams.Publish | crates/streams/src/websocket.rs:133-143 | `broadcast_tx.send` never fails from the server's point of view: the message is appended to what the channel has carried, with or without receivers, and the capacity is unchanged |
| Streams.ClientCount | crates/streams/src/sse.rs:110-112 | `client_count` of either server is zero exactly when no client is registered, and positive while any is |
| Streams.DefaultServer | crates/streams/src/sse.rs:54-56 | the default server has capacity 100, counter 0 and no clients |
| Streams.SendEnvelope | crates/streams/src/sse.rs:126-143 | `send_envelope` succeeds exactly when the data serializes and then publishes exactly the envelope text; on failure nothing is published; the registry is never touched |
| Streams.Send | crates/streams/src/sse.rs:121-124 | `send` publishes the `{"type","data"}` object of the label and data, or nothing when serialization fails |
| Registry.Empty | crates/streams/src/websocket.rs:229-232 | a new registry has counter 0 and no clients |
| Registry.TakeId | crates/streams/src/websocket.rs:68 | an accept takes the current counter value as its id and increments the counter, wrapping to 0 after 2^64 - 1 |
| Registry.Insert | crates/streams/src/websocket.rs:73-76 | inserting maps the id to the address and leaves every other entry and the counter alone |
| Registry.Remove | crates/streams/src/websocket.rs:211-215 | removing drops exactly that id and leaves every other entry and the counter alone |
| Registry.ClientCount | crates/streams/src/websocket.rs:107-110 | the count is the number of registered clients: zero exactly when the map is empty, positive while any id is in it |
| Registry.RegisterFresh | crates/streams/src/websocket.rs:68-76 | before the counter wraps, a newly taken id is not yet registered, so registering it raises `client_count` by one |
| Registry.RemoveCount | crates/streams/src/websocket.rs:107-110 | removing lowers `client_count` by one exactly when the id was registered |
| Registry.TakeIdsIncreasing | crates/streams/src/sse.rs:77 | before the counter wraps, successive accepts get the ids `c, c+1, …`, so ids strictly increase and are never reused |
| Print.SendEnvelope | crates/streams/src/print.rs:13-24 | on success exactly one line, the envelope's JSON, is printed; on failure nothing is printed and the error carries the serializer's message |
| Print.Send | crates/streams/src/print.rs:8-11 | `send` prints the `{"type","data"}` object of the label and data, or nothing when serialization fails |
| Output.PrintSink | crates/streams/src/output.rs:21-23 | `print()` is the Print variant |
| Output.WebSocketSink | crates/streams/src/output.rs:26-28 | `websocket()` is a WebSocket server with capacity 100 and no clients |
| Output.WebSocketSinkWithCapacity | crates/streams/src/output.rs:31-33 | the capacity is passed through unchanged, so it carries the channel's requirement of a capacity above zero |
| Output.SseSink | crates/streams/src/output.rs:36-38 | `sse()` is an SSE server with capacity 100 and no clients |
| Output.SseSinkWithCapacity | crates/streams/src/output.rs:41-43 | the capacity is passed through unchanged, so it carries the channel's requirement of a capacity above zero |
| Output.Start | crates/streams/src/output.rs:47-53 | `start` always succeeds for Print; for the servers it fails exactly when binding fails |
| Output.SendEnvelope | crates/streams/src/output.rs:65-71 | every variant delivers the envelope's JSON exactly when the data serializes, and otherwise delivers nothing; the variant never changes |
| Output.Send | crates/streams/src/output.rs:57-63 | every variant delivers the `{"type","data"}` object of the label and data, or nothing when serialization fails |
| WebSocket.Step | crates/streams/src/websocket.rs:161-209 | the loop breaks on close, end of stream, read error, channel closed, or a failed write; a ping is answered by a pong and a broadcast message by a text frame; text, other frames and lag are absorbed |
| WebSocket.Run | crates/streams/src/websocket.rs:161-209 | the loop consumes events up to and including the first that breaks it, or all of them, and writes at most one frame per event |
| WebSocket.RunStopsAtFirstExit | crates/streams/src/websocket.rs:161-209 | no event before the last consumed one breaks the loop; the last one does if the loop exited; if it did not, no event breaks it |
| WebSocket.RunDeliversEveryReply | crates/streams/src/websocket.rs:170-196 | every pong and broadcast message owed before the exit is written, in order, except a last one whose failed write ended the loop |
| WebSocket.RunExitsIffSomeStepExits | crates/streams/src/websocket.rs:161-209 | the loop exits exactly when some event would break it |
| WebSocket.Serve | crates/streams/src/websocket.rs:161-209 | the imperative loop computes the same frames, exit and consumption as the step function |
| WebSocket.StartServer | crates/streams/src/websocket.rs:35-42 | a new server has counter 0, no clients and no running connections |
| WebSocket.ServerStepAsWritten | crates/streams/src/websocket.rs:154-157 | a failed handshake ends the connection but leaves its registry entry; every other event is handled as in the corrected step |
| WebSocket.ServerStep | crates/streams/src/websocket.rs:64-96 | an accept registers the next id before the handshake; a finished handshake opens the connection or, on failure, removes its entry; an iteration that breaks the loop removes exactly that id |
| WebSocket.AcceptKeepsTracked | crates/streams/src/websocket.rs:66-76 | registering an accepted connection keeps the registry equal to the running connections |
| WebSocket.ServerStepKeepsTracked | crates/streams/src/websocket.rs:211-215 | with removal on every exit, the registry holds exactly the running connections after every event, so `client_count` counts them |
| WebSocket.HandshakeFailureLeavesEntry | crates/streams/src/websocket.rs:155-157 | as written, a failed handshake leaves an entry for a connection that no longer runs: `client_count` is one too high |
| Sse.HandleRequest | crates/streams/src/sse.rs:154-199 | another path gets an empty 404 and leaves the registry alone; `/events` and `/` register the id with its address and get a 200 stream with the four SSE headers |
| Sse.Frame | crates/streams/src/sse.rs:176-179 | a message becomes `"data: "`, the message, then a blank line |
| Sse.Events | crates/streams/src/sse.rs:174-186 | a subscription yields at most one event per item |
| Sse.UnframeFirst | crates/streams/src/sse.rs:176-179 | reading the body back splits off a single-line message's event and continues with the rest |
| Sse.UnframeEvents | crates/streams/src/sse.rs:174-186 | the body decodes back to exactly the messages received, in order, with lags dropped and the stream continuing |
| Sse.StartServer | crates/streams/src/sse.rs:44-51 | a new server has counter 0, no clients, no connections and no cleanup tasks |
| Sse.Accept | crates/streams/src/sse.rs:75-79 | an accept takes the next id for the connection and registers nothing |
| Sse.ServerStepAsWritten | crates/streams/src/sse.rs:203-215 | a stream response starts a cleanup that later removes the id whether or not the stream is still open; a dropped stream leaves the registry alone |
| Sse.ServerStep | crates/streams/src/sse.rs:160-171 | a stream request registers the id; a dropped stream removes exactly its id; cleanup timers do nothing |
| Sse.RequestKeepsTracked | crates/streams/src/sse.rs:160-164 | opening a stream keeps the registry equal to the open streams |
| Sse.DropKeepsTracked | crates/streams/src/sse.rs:201-202 | closing a stream keeps the registry equal to the open streams |
| Sse.ServerStepKeepsTracked | crates/streams/src/sse.rs:110-112 | with removal tied to the stream's end, `client_count` is the number of open streams after every event |
| Sse.CleanupRemovesLiveClient | crates/streams/src/sse.rs:203-215 | as written, the cleanup that wakes 100 ms after the response removes a client whose stream is still open |

## Left out

- Ingestion is left out: the upstream WebSocket connection, Brotli decompression, JSON deserialization of flashblocks, CLI parsing, tracing setup and the Ctrl-C flag (`src/main.rs`, `src/bin/ws_subscriber.rs`, `src/utils.rs`, `src/args.rs`). They are I/O plumbing.
- `src/types.rs` is left out: it is not part of the module tree.
- `crates/streams/src/lib.rs` and `crates/streams/src/error.rs` declare modules and the error type only; `StreamError` is in `Streams`.
- `crates/streams/src/trait.rs` declares a `send_message` that no sink implements; the contracts come from the implementations.
- `send_auto`, which the servers' unit tests call, is defined outside the modules modelled here; those tests are modelled only through `Streams.Send`.
- Logging is left out: `block_number` and every `info!`/`debug!`/`warn!`/`error!` call affect only the logs, never what is sent.
- `pool_state()` and `price_0_in_1()` are left out. They are floating-point values used for logging only, defined outside the modules modelled here.
- Keccak-256, the ABI decoders, `serde_json` and hyper/tungstenite framing below text frames are parameters or left out. They are foreign code.
- Signatures.SignatureHash: the hash constants are the keccak-256 of the canonical strings, computed outside the model. Their distinctness is proved; that they are the keccak of those strings is not.
- The bound on `sqrt_price_x96` (below 2^160) and `liquidity` (below 2^128) holds through the field types `U160` and `U128` and needs no separate contract.
- `Flashblock::extract_aave_updates` and `extract_morpho_updates` are not defined in `crates/flashblocks-types/src/flashblocks.rs` or any other file of the crate modelled here, and `src/protocols/mod.rs:8-9` declares only `mod chainlink; mod univ3;`, so `src/protocols/aave.rs` and `src/protocols/morpho.rs` are not compiled at all. The Aave and Morpho handlers therefore take their bundle as an input (`Handlers.AaveEmissions`, `Handlers.MorphoEmissions`), and neither is registered in `ALL_HANDLERS`.
- rayon's thread scheduling is a parameter: `process_all_protocols` is an interleaving of the two handlers' sends under an arbitrary valid schedule, and the call returns after both finish.
- Tokio tasks, the `RwLock` and the `AtomicU64` are sequential events on one server state.
- The broadcast channel's ring buffer, its capacity-driven overwrites and lag counts are not modelled. Published messages are kept as a list. Lag reaches the connection loop only as an input (`Lagged(n)`), and the SSE stream only as an item that yields no event.
- The 100 ms sleep of the SSE cleanup is an event (`CleanupWakes`) that may arrive at any time after the response.
- WebSocket.ServerStepKeepsTracked: requires that the id counter does not wrap on this accept. After 2^64 accepts a wrapped id could collide with a live one; the counter itself wraps as in the source (`Registry.TakeId`).
- Sse.ServerStepKeepsTracked: the same no-wrap requirement on accepts.
- Registry.TakeIdsIncreasing: states increasing ids only up to the wrap at 2^64, which is where the source's promise also ends.
- Sse.UnframeEvents: requires every message to be on one line, as the JSON text the servers publish is. A message containing a line feed would not be a well-formed SSE data line in the first place.

## Findings

| source | as written | input that shows it | evidently intended | confidence | as-written member | corrected member |
|---|---|---|---|---|---|---|
| crates/flashblocks-types/src/flashblocks.rs:59-65 | `may_have_swap` and `may_have_answer_updated` probe the bloom with `BloomInput::Hash(SIGNATURE_HASH)`. That tests the M3 bits of the signature hash itself, but a receipt's bloom (section 4.3.1 of the Yellow Paper) holds the bits of keccak-256 of each topic. | A receipt with one Swap log emitted by address 0, with zero sender and recipient and 160 zero bytes of data, the five words the Swap decoder reads (the bloom does not depend on the data), and a bloom accrued from that log. Bit 505 of the Swap hash's M3 is not set, so the receipt is skipped and its swap is never extracted. | Probe with the keccak-256 of the signature hash (`BloomInput::Raw`), so a receipt holding the event always passes. | medium, as it rests on the bloom library's reading of `BloomInput::Hash`; not executed | Flashblocks.AsWrittenCheckSkipsSwap | Flashblocks.SwapCheckDropsNothing |
| crates/streams/src/websocket.rs:155-157 | A failed handshake returns from `handle_connection` through `?` before the removal at lines 211-215, so the id stays in the registry. | Accept a connection, then fail its handshake. The registry keeps the id while no task runs for it, and `client_count` is one too high from then on. | Remove the registry entry on every exit of the connection task, the failed handshake included. | high; not executed | WebSocket.HandshakeFailureLeavesEntry | WebSocket.ServerStepKeepsTracked |
| crates/streams/src/sse.rs:203-215 | The cleanup task sleeps 100 ms and then removes the client, whatever the state of its stream. The comment above it says removal should happen when the connection is dropped. | Accept a connection and request `/events`; 100 ms later the cleanup wakes. The stream is still open, but the id is gone from the registry, so `client_count` no longer counts a connected client. | Remove the id when the event stream is dropped. | high; not executed | Sse.CleanupRemovesLiveClient | Sse.ServerStepKeepsTracked |
