/*******************************************************************************
 *  Flashblock receipts: the six transaction-type wrappers of a receipt, the
 *  fail-open bloom check run before a receipt's logs are decoded, and the
 *  extraction of swaps and answer updates from a flashblock's receipt map.
 *
 *  The receipt map is a hash map whose iteration order is unspecified; it is
 *  modelled as a `map` plus an `order` parameter that enumerates its keys.
 *******************************************************************************/

module Flashblocks {
  import opened Primitives
  import opened Seqs
  import opened Signatures
  import opened Logs
  import opened Bloom
  import UniV3
  import Chainlink

  /** `ReceiptInner`: the logs and the optional bloom of a receipt (status
      and cumulative gas are carried but never read). */
  datatype ReceiptInner = ReceiptInner(
    logs: seq<Log>,
    logsBloom: Option<Bloom>,
    status: Option<string>,
    cumulativeGasUsed: Option<string>)

  /** `FlashblockReceipt`: a receipt wrapped by its transaction type. */
  datatype Receipt =
    | Legacy(inner: ReceiptInner)
    | Eip2930(inner: ReceiptInner)
    | Eip1559(inner: ReceiptInner)
    | Eip4844(inner: ReceiptInner)
    | Eip7702(inner: ReceiptInner)
    | Deposit(inner: ReceiptInner)

  /** `inner()`: the wrapped receipt, whatever the transaction type. */
  function Inner(rc: Receipt): (r: ReceiptInner)
    ensures rc == Legacy(r) || rc == Eip2930(r) || rc == Eip1559(r)
         || rc == Eip4844(r) || rc == Eip7702(r) || rc == Deposit(r)
  {
    match rc
    case Legacy(i) => i
    case Eip2930(i) => i
    case Eip1559(i) => i
    case Eip4844(i) => i
    case Eip7702(i) => i
    case Deposit(i) => i
  }

  /** `logs()`: the logs of the wrapped receipt. */
  function ReceiptLogs(rc: Receipt): (logs: seq<Log>)
    ensures logs == rc.inner.logs
  {
    Inner(rc).logs
  }

  // ---------------------------------------------------------------------------
  // The fail-open bloom check
  // ---------------------------------------------------------------------------

  /** `may_have_swap` / `may_have_answer_updated`, for the event `kind` and the
      bloom probe `probe`: a receipt without a bloom might hold anything;
      otherwise the bloom must hold the probe bits of the event. */
  function MayHave(probe: EventKind -> B256, kind: EventKind, rc: Receipt): (r: bool)
    ensures Inner(rc).logsBloom.None? ==> r
    ensures Inner(rc).logsBloom.Some? ==> (r <==> M3(probe(kind)) <= Inner(rc).logsBloom.value)
  {
    match Inner(rc).logsBloom
    case None => true
    case Some(bloom) => ContainsHash(bloom, probe(kind))
  }

  /** A receipt bloom is faithful when it holds (at least) the Yellow Paper
      bloom of the receipt's logs. A missing bloom is trivially faithful. */
  predicate FaithfulBloom(keccak: Keccak, rc: Receipt)
  {
    Inner(rc).logsBloom.None? || ReceiptBloom(keccak, ReceiptLogs(rc)) <= Inner(rc).logsBloom.value
  }

  /** The probe a Yellow Paper bloom answers for: keccak of the signature hash. */
  function CorrectedProbe(keccak: Keccak): EventKind -> B256
  {
    k => Probe(keccak, k)
  }

  /** With the corrected probe, a faithful bloom never rejects a receipt that
      has a log whose `topics[0]` is the signature hash of `kind`. */
  lemma CheckPassesTopic(keccak: Keccak, rc: Receipt, j: nat, kind: EventKind)
    requires FaithfulBloom(keccak, rc)
    requires j < |ReceiptLogs(rc)| && 0 < |ReceiptLogs(rc)[j].topics|
    requires ReceiptLogs(rc)[j].topics[0] == SignatureHash(kind)
    ensures MayHave(CorrectedProbe(keccak), kind, rc)
  {
    if Inner(rc).logsBloom.Some? {
      ProbeFindsTopic(keccak, ReceiptLogs(rc), j, 0, kind);
    }
  }

  // ---------------------------------------------------------------------------
  // Extraction over the receipts of a flashblock
  // ---------------------------------------------------------------------------

  /** The per-receipt step of `values().filter(pass).flat_map(extract)`. */
  function PerReceipt<T>(receipts: map<string, Receipt>, pass: Receipt -> bool,
                         extract: seq<Log> -> seq<T>): string -> seq<T>
  {
    k => if k in receipts && pass(receipts[k]) then extract(ReceiptLogs(receipts[k])) else []
  }

  /** Receipts visited in `order`; the ones that pass contribute their
      extracted events, in log order. */
  function FromReceipts<T>(receipts: map<string, Receipt>, order: seq<string>,
                           pass: Receipt -> bool, extract: seq<Log> -> seq<T>): seq<T>
  {
    FlatMap(order, PerReceipt(receipts, pass, extract))
  }

  /** An event is extracted exactly when some receipt passes the check and
      yields it. */
  lemma FromReceiptsMembership<T>(receipts: map<string, Receipt>, order: seq<string>,
                                  pass: Receipt -> bool, extract: seq<Log> -> seq<T>, t: T)
    requires IsEnumeration(order, receipts.Keys)
    ensures t in FromReceipts(receipts, order, pass, extract)
        <==> exists k :: k in receipts && pass(receipts[k]) && t in extract(ReceiptLogs(receipts[k]))
  {
    var f := PerReceipt(receipts, pass, extract);
    FlatMapMembership(order, f, t);
    if exists k :: k in receipts && pass(receipts[k]) && t in extract(ReceiptLogs(receipts[k])) {
      var k :| k in receipts && pass(receipts[k]) && t in extract(ReceiptLogs(receipts[k]));
      var j :| 0 <= j < |order| && order[j] == k;
      assert t in f(order[j]);
    }
  }

  /** `FromReceiptsMembership` for every event at once. */
  lemma AllMembers<T>(receipts: map<string, Receipt>, order: seq<string>,
                      pass: Receipt -> bool, extract: seq<Log> -> seq<T>)
    requires IsEnumeration(order, receipts.Keys)
    ensures forall t :: (t in FromReceipts(receipts, order, pass, extract)
                         <==> exists k :: k in receipts && pass(receipts[k]) && t in extract(ReceiptLogs(receipts[k])))
  {
    forall t {
      FromReceiptsMembership(receipts, order, pass, extract, t);
    }
  }

  /** The iteration order of the map only rearranges the result: any two
      enumerations of the keys give the same multiset of events. */
  lemma FromReceiptsOrderIndependent<T>(receipts: map<string, Receipt>, a: seq<string>, b: seq<string>,
                                        pass: Receipt -> bool, extract: seq<Log> -> seq<T>)
    requires IsEnumeration(a, receipts.Keys) && IsEnumeration(b, receipts.Keys)
    ensures multiset(FromReceipts(receipts, a, pass, extract)) == multiset(FromReceipts(receipts, b, pass, extract))
  {
    EnumerationsArePermutations(a, b, receipts.Keys);
    FlatMapPermutation(a, b, PerReceipt(receipts, pass, extract));
  }

  /** A check that only rejects receipts with nothing to extract changes
      nothing: the filtered result equals the unfiltered one. */
  lemma HarmlessCheck<T>(receipts: map<string, Receipt>, order: seq<string>,
                         pass: Receipt -> bool, extract: seq<Log> -> seq<T>)
    requires IsEnumeration(order, receipts.Keys)
    requires forall k :: k in receipts && !pass(receipts[k]) ==> extract(ReceiptLogs(receipts[k])) == []
    ensures FromReceipts(receipts, order, pass, extract) == FromReceipts(receipts, order, _ => true, extract)
  {
    FlatMapCongruence(order, PerReceipt(receipts, pass, extract), PerReceipt(receipts, _ => true, extract));
  }

  /** `FlashblockMetadata`: receipts keyed by transaction hash. */
  datatype Metadata = Metadata(
    receipts: map<string, Receipt>,
    newAccountBalances: map<string, string>,
    blockNumber: U64)

  /** `Flashblock`: the parts the extractors read. */
  datatype Flashblock = Flashblock(payloadId: string, index: U64, metadata: Option<Metadata>)

  function SwapCheck(probe: EventKind -> B256): Receipt -> bool
  {
    rc => MayHave(probe, UniV3Swap, rc)
  }

  function SwapExtractor(abi: Abi<UniV3.SwapEvent>): seq<Log> -> seq<UniV3.ParsedSwap>
  {
    logs => UniV3.ExtractAll(abi, logs)
  }

  function AnswerCheck(probe: EventKind -> B256): Receipt -> bool
  {
    rc => MayHave(probe, AnswerUpdated, rc)
  }

  function AnswerExtractor(abi: Abi<Chainlink.AnswerUpdatedEvent>): seq<Log> -> seq<Chainlink.ParsedAnswerUpdated>
  {
    logs => Chainlink.ExtractAnswerUpdates(abi, logs)
  }

  /** `FlashblockMetadata::extract_swaps`, probing the bloom with `probe`
      (`ProbeAsWritten` for the source as written). */
  function ExtractSwaps(abi: Abi<UniV3.SwapEvent>, probe: EventKind -> B256, m: Metadata,
                        order: seq<string>): (r: seq<UniV3.ParsedSwap>)
    requires IsEnumeration(order, m.receipts.Keys)
    ensures forall s :: s in r ==> -0x80_0000 <= s.tick < 0x80_0000
    ensures forall s :: s in r <==> exists k :: k in m.receipts && MayHave(probe, UniV3Swap, m.receipts[k])
                                                && s in UniV3.ExtractAll(abi, ReceiptLogs(m.receipts[k]))
  {
    AllMembers(m.receipts, order, SwapCheck(probe), SwapExtractor(abi));
    FromReceipts(m.receipts, order, SwapCheck(probe), SwapExtractor(abi))
  }

  /** `FlashblockMetadata::extract_answer_updates`, probing with `probe`. */
  function ExtractAnswerUpdates(abi: Abi<Chainlink.AnswerUpdatedEvent>, probe: EventKind -> B256, m: Metadata,
                                order: seq<string>): (r: seq<Chainlink.ParsedAnswerUpdated>)
    requires IsEnumeration(order, m.receipts.Keys)
    ensures forall u :: u in r <==> exists k :: k in m.receipts && MayHave(probe, AnswerUpdated, m.receipts[k])
                                                && u in Chainlink.ExtractAnswerUpdates(abi, ReceiptLogs(m.receipts[k]))
  {
    AllMembers(m.receipts, order, AnswerCheck(probe), AnswerExtractor(abi));
    FromReceipts(m.receipts, order, AnswerCheck(probe), AnswerExtractor(abi))
  }

  /** The result of `extract_swaps` does not depend on the iteration order
      of the receipt map, up to rearrangement. */
  lemma ExtractSwapsOrderIndependent(abi: Abi<UniV3.SwapEvent>, probe: EventKind -> B256, m: Metadata,
                                     a: seq<string>, b: seq<string>)
    requires IsEnumeration(a, m.receipts.Keys) && IsEnumeration(b, m.receipts.Keys)
    ensures multiset(ExtractSwaps(abi, probe, m, a)) == multiset(ExtractSwaps(abi, probe, m, b))
  {
    FromReceiptsOrderIndependent(m.receipts, a, b, SwapCheck(probe), SwapExtractor(abi));
  }

  /** The same for `extract_answer_updates`. */
  lemma ExtractAnswerUpdatesOrderIndependent(abi: Abi<Chainlink.AnswerUpdatedEvent>, probe: EventKind -> B256,
                                             m: Metadata, a: seq<string>, b: seq<string>)
    requires IsEnumeration(a, m.receipts.Keys) && IsEnumeration(b, m.receipts.Keys)
    ensures multiset(ExtractAnswerUpdates(abi, probe, m, a)) == multiset(ExtractAnswerUpdates(abi, probe, m, b))
  {
    FromReceiptsOrderIndependent(m.receipts, a, b, AnswerCheck(probe), AnswerExtractor(abi));
  }

  /** With the corrected probe, a receipt whose faithful bloom fails the swap
      check has no decodable swap. */
  lemma SwapCheckSound(keccak: Keccak, abi: Abi<UniV3.SwapEvent>, rc: Receipt)
    requires FaithfulBloom(keccak, rc)
    ensures !MayHave(CorrectedProbe(keccak), UniV3Swap, rc) ==> UniV3.ExtractAll(abi, ReceiptLogs(rc)) == []
  {
    var logs := ReceiptLogs(rc);
    if UniV3.ExtractAll(abi, logs) != [] {
      var s := UniV3.ExtractAll(abi, logs)[0];
      var i :| 0 <= i < |logs| && UniV3.FromLog(abi, logs[i]) == Some(s);
      CheckPassesTopic(keccak, rc, i, UniV3Swap);
    }
  }

  /** With the corrected probe, a receipt whose faithful bloom fails the
      answer-update check has no decodable answer update. */
  lemma AnswerCheckSound(keccak: Keccak, abi: Abi<Chainlink.AnswerUpdatedEvent>, rc: Receipt)
    requires FaithfulBloom(keccak, rc)
    ensures !MayHave(CorrectedProbe(keccak), AnswerUpdated, rc)
            ==> Chainlink.ExtractAnswerUpdates(abi, ReceiptLogs(rc)) == []
  {
    var logs := ReceiptLogs(rc);
    if Chainlink.ExtractAnswerUpdates(abi, logs) != [] {
      var u := Chainlink.ExtractAnswerUpdates(abi, logs)[0];
      var i :| 0 <= i < |logs| && Chainlink.TryAnswerUpdated(abi, logs[i]) == Some(u);
      CheckPassesTopic(keccak, rc, i, AnswerUpdated);
    }
  }

  /** With the corrected probe and faithful blooms, the bloom check never
      drops a decodable swap: filtering equals decoding every receipt. */
  lemma SwapCheckDropsNothing(keccak: Keccak, abi: Abi<UniV3.SwapEvent>, m: Metadata, order: seq<string>)
    requires IsEnumeration(order, m.receipts.Keys)
    requires forall k :: k in m.receipts ==> FaithfulBloom(keccak, m.receipts[k])
    ensures ExtractSwaps(abi, CorrectedProbe(keccak), m, order)
            == FromReceipts(m.receipts, order, _ => true, SwapExtractor(abi))
  {
    forall k | k in m.receipts && !SwapCheck(CorrectedProbe(keccak))(m.receipts[k])
      ensures SwapExtractor(abi)(ReceiptLogs(m.receipts[k])) == []
    {
      SwapCheckSound(keccak, abi, m.receipts[k]);
    }
    HarmlessCheck(m.receipts, order, SwapCheck(CorrectedProbe(keccak)), SwapExtractor(abi));
  }

  /** The same for answer updates. */
  lemma AnswerCheckDropsNothing(keccak: Keccak, abi: Abi<Chainlink.AnswerUpdatedEvent>, m: Metadata,
                                order: seq<string>)
    requires IsEnumeration(order, m.receipts.Keys)
    requires forall k :: k in m.receipts ==> FaithfulBloom(keccak, m.receipts[k])
    ensures ExtractAnswerUpdates(abi, CorrectedProbe(keccak), m, order)
            == FromReceipts(m.receipts, order, _ => true, AnswerExtractor(abi))
  {
    forall k | k in m.receipts && !AnswerCheck(CorrectedProbe(keccak))(m.receipts[k])
      ensures AnswerExtractor(abi)(ReceiptLogs(m.receipts[k])) == []
    {
      AnswerCheckSound(keccak, abi, m.receipts[k]);
    }
    HarmlessCheck(m.receipts, order, AnswerCheck(CorrectedProbe(keccak)), AnswerExtractor(abi));
  }

  /** `Flashblock::extract_swaps`: nothing without metadata. */
  function FlashblockSwaps(abi: Abi<UniV3.SwapEvent>, probe: EventKind -> B256, fb: Flashblock,
                           order: seq<string>): (r: seq<UniV3.ParsedSwap>)
    requires fb.metadata.Some? ==> IsEnumeration(order, fb.metadata.value.receipts.Keys)
    ensures fb.metadata.None? ==> r == []
    ensures fb.metadata.Some? ==> r == ExtractSwaps(abi, probe, fb.metadata.value, order)
  {
    match fb.metadata
    case None => []
    case Some(m) => ExtractSwaps(abi, probe, m, order)
  }

  /** `Flashblock::extract_answer_updates`: nothing without metadata. */
  function FlashblockAnswerUpdates(abi: Abi<Chainlink.AnswerUpdatedEvent>, probe: EventKind -> B256,
                                   fb: Flashblock, order: seq<string>): (r: seq<Chainlink.ParsedAnswerUpdated>)
    requires fb.metadata.Some? ==> IsEnumeration(order, fb.metadata.value.receipts.Keys)
    ensures fb.metadata.None? ==> r == []
    ensures fb.metadata.Some? ==> r == ExtractAnswerUpdates(abi, probe, fb.metadata.value, order)
  {
    match fb.metadata
    case None => []
    case Some(m) => ExtractAnswerUpdates(abi, probe, m, order)
  }

  // ---------------------------------------------------------------------------
  // The bloom check as written skips a receipt that holds a swap
  // ---------------------------------------------------------------------------

  const ZERO_ADDRESS: Address := [0, 0, 0, 0, 0, 0, 0, 0, 0, 0, 0, 0, 0, 0, 0, 0, 0, 0, 0, 0]
  const ZERO_WORD: B256 := [0, 0, 0, 0, 0, 0, 0, 0, 0, 0, 0, 0, 0, 0, 0, 0] + [0, 0, 0, 0, 0, 0, 0, 0, 0, 0, 0, 0, 0, 0, 0, 0]

  /** keccak-256 of the Swap signature hash, of the zero address and of the
      zero word. */
  const KECCAK_OF_SWAP_HASH: B256 :=
    [0xb5, 0xc3, 0xc6, 0x4d, 0x7c, 0x13, 0xb8, 0xb3, 0xd9, 0x3c, 0x53, 0x44, 0xf0, 0x98, 0x46, 0x1b] +
    [0x40, 0xcc, 0xf2, 0xb3, 0x3f, 0xf5, 0xba, 0x7e, 0x6d, 0xc0, 0x6f, 0x22, 0x17, 0x75, 0xd3, 0xc3]
  const KECCAK_OF_ZERO_ADDRESS: B256 :=
    [0x53, 0x80, 0xc7, 0xb7, 0xae, 0x81, 0xa5, 0x8e, 0xb9, 0x8d, 0x9c, 0x78, 0xde, 0x4a, 0x1f, 0xd7] +
    [0xfd, 0x95, 0x35, 0xfc, 0x95, 0x3e, 0xd2, 0xbe, 0x60, 0x2d, 0xaa, 0xa4, 0x17, 0x67, 0x31, 0x2a]
  const KECCAK_OF_ZERO_WORD: B256 :=
    [0x29, 0x0d, 0xec, 0xd9, 0x54, 0x8b, 0x62, 0xa8, 0xd6, 0x03, 0x45, 0xa9, 0x88, 0x38, 0x6f, 0xc8] +
    [0x4b, 0xa6, 0xbc, 0x95, 0x48, 0x40, 0x08, 0xf6, 0x36, 0x2f, 0x93, 0x16, 0x0e, 0xf3, 0xe5, 0x63]

  /** The five unindexed words of a `Swap` (amount0, amount1, sqrtPriceX96,
      liquidity, tick), all zero: the 160 bytes the decoder reads. */
  const SWAP_DATA: Bytes := ZERO_WORD + ZERO_WORD + ZERO_WORD + ZERO_WORD + ZERO_WORD

  /** A Swap logged by the pool at the zero address, with the zero address as
      sender and recipient (the indexed topics) and all-zero data; the bloom
      does not depend on the data. */
  const SWAP_LOG: Log := Log(ZERO_ADDRESS, SWAP_DATA, [SignatureHash(UniV3Swap), ZERO_WORD, ZERO_WORD])

  /** A receipt holding only `SWAP_LOG`, with its Yellow Paper bloom. */
  function SwapReceipt(keccak: Keccak): Receipt
  {
    Eip1559(ReceiptInner([SWAP_LOG], Some(ReceiptBloom(keccak, [SWAP_LOG])), Some("0x1"), None))
  }

  function SwapMetadata(keccak: Keccak): Metadata
  {
    Metadata(map["0x01" := SwapReceipt(keccak)], map[], 0)
  }

  /** Bit 505 is one of the three bits of the Swap signature hash. */
  lemma SwapHashHasBit505()
    ensures 505 in M3(SignatureHash(UniV3Swap))
  {
    assert BitOf(UNIV3_SWAP_HASH, 2) == 505;
  }

  /** Bit 505 is not among the bits of the three keccak values (which are
      {1475, 1613, 1043}, {896, 1975, 1665} and {269, 1241, 1163}). */
  lemma KeccaksLackBit505()
    ensures 505 !in M3(KECCAK_OF_SWAP_HASH)
    ensures 505 !in M3(KECCAK_OF_ZERO_ADDRESS)
    ensures 505 !in M3(KECCAK_OF_ZERO_WORD)
  {
    assert BitOf(KECCAK_OF_SWAP_HASH, 0) == 1475 && BitOf(KECCAK_OF_SWAP_HASH, 2) == 1613
        && BitOf(KECCAK_OF_SWAP_HASH, 4) == 1043;
    assert BitOf(KECCAK_OF_ZERO_ADDRESS, 0) == 896 && BitOf(KECCAK_OF_ZERO_ADDRESS, 2) == 1975
        && BitOf(KECCAK_OF_ZERO_ADDRESS, 4) == 1665;
    assert BitOf(KECCAK_OF_ZERO_WORD, 0) == 269 && BitOf(KECCAK_OF_ZERO_WORD, 2) == 1241
        && BitOf(KECCAK_OF_ZERO_WORD, 4) == 1163;
  }

  /** The Yellow Paper bloom of `SWAP_LOG`: the bits of its address and of
      its three topics. */
  lemma SwapLogBloom(keccak: Keccak)
    ensures ReceiptBloom(keccak, [SWAP_LOG])
            == M3(keccak(ZERO_ADDRESS)) + M3(keccak(SignatureHash(UniV3Swap))) + M3(keccak(ZERO_WORD)) + M3(keccak(ZERO_WORD))
  {
    var t := SWAP_LOG.topics;
    assert t[0] == SignatureHash(UniV3Swap) && t[1] == ZERO_WORD && t[2] == ZERO_WORD;
    assert t[..2][..1] == t[..1] && t[..1][..0] == [];
    assert LogBloom(keccak, ZERO_ADDRESS, t[..1]) == M3(keccak(ZERO_ADDRESS)) + M3(keccak(t[0]));
    assert LogBloom(keccak, ZERO_ADDRESS, t[..2]) == LogBloom(keccak, ZERO_ADDRESS, t[..1]) + M3(keccak(t[1]));
    assert LogBloom(keccak, ZERO_ADDRESS, t) == LogBloom(keccak, ZERO_ADDRESS, t[..2]) + M3(keccak(t[2]));
    assert [SWAP_LOG][..0] == [];
  }

  /** As written, the swap check rejects the receipt of `SWAP_LOG`: bit 505
      of the signature hash is not in its bloom. */
  lemma AsWrittenRejectsSwapReceipt(keccak: Keccak)
    requires keccak(SignatureHash(UniV3Swap)) == KECCAK_OF_SWAP_HASH
    requires keccak(ZERO_ADDRESS) == KECCAK_OF_ZERO_ADDRESS
    requires keccak(ZERO_WORD) == KECCAK_OF_ZERO_WORD
    ensures !MayHave(ProbeAsWritten, UniV3Swap, SwapReceipt(keccak))
  {
    SwapLogBloom(keccak);
    SwapHashHasBit505();
    KeccaksLackBit505();
    var bloom := ReceiptBloom(keccak, [SWAP_LOG]);
    assert 505 !in bloom;
    assert Inner(SwapReceipt(keccak)).logsBloom == Some(bloom);
    assert !ContainsHash(bloom, ProbeAsWritten(UniV3Swap));
  }

  /** Swaps of a flashblock with a single receipt. */
  lemma SingleReceiptSwaps(abi: Abi<UniV3.SwapEvent>, probe: EventKind -> B256, key: string, rc: Receipt)
    ensures var m := Metadata(map[key := rc], map[], 0);
            ExtractSwaps(abi, probe, m, [key])
            == if MayHave(probe, UniV3Swap, rc) then UniV3.ExtractAll(abi, ReceiptLogs(rc)) else []
  {
    var m := Metadata(map[key := rc], map[], 0);
    var f := PerReceipt(m.receipts, SwapCheck(probe), SwapExtractor(abi));
    assert FlatMap([key], f) == f(key) + FlatMap([], f);
  }

  /** As written, the swap check probes the bits of the signature hash itself,
      which a Yellow Paper bloom does not hold: a receipt whose only log is a
      decodable swap is skipped, and `extract_swaps` finds nothing, while the
      corrected probe finds the swap. */
  lemma AsWrittenCheckSkipsSwap(keccak: Keccak, abi: Abi<UniV3.SwapEvent>)
    requires keccak(SignatureHash(UniV3Swap)) == KECCAK_OF_SWAP_HASH
    requires keccak(ZERO_ADDRESS) == KECCAK_OF_ZERO_ADDRESS
    requires keccak(ZERO_WORD) == KECCAK_OF_ZERO_WORD
    requires abi(SWAP_LOG.topics, SWAP_LOG.data).Some?
    ensures FaithfulBloom(keccak, SwapReceipt(keccak))
    ensures UniV3.FromLog(abi, SWAP_LOG).Some?
    ensures ExtractSwaps(abi, ProbeAsWritten, SwapMetadata(keccak), ["0x01"]) == []
    ensures ExtractSwaps(abi, CorrectedProbe(keccak), SwapMetadata(keccak), ["0x01"])
            == [UniV3.FromLog(abi, SWAP_LOG).value]
  {
    var rc := SwapReceipt(keccak);
    AsWrittenRejectsSwapReceipt(keccak);
    SingleReceiptSwaps(abi, ProbeAsWritten, "0x01", rc);
    CheckPassesTopic(keccak, rc, 0, UniV3Swap);
    SingleReceiptSwaps(abi, CorrectedProbe(keccak), "0x01", rc);
    ExtractAllPreservesOrder(UniV3.Decoder(abi), [], [SWAP_LOG]);
  }
}
