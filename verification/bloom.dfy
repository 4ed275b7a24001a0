/*******************************************************************************
 *  The 2048-bit log bloom of the Ethereum Yellow Paper (section 4.3.1):
 *  M3:2048 sets three bits chosen by the low 11 bits of the first three
 *  byte pairs of a 32-byte hash; a receipt bloom is the union of M3:2048 of
 *  keccak-256 of the emitting address and of every topic of every log.
 *******************************************************************************/

module Bloom {
  import opened Primitives
  import opened Signatures
  import opened Logs

  const BLOOM_BITS: nat := 2048

  type BitIndex = i: nat | i < 2048

  /** The set of bits that are 1 in a 2048-bit bloom. */
  type Bloom = set<BitIndex>

  const EMPTY: Bloom := {}

  /** Bit selected by the byte pair at `i`, `i + 1` of `h`: its low 11 bits. */
  function BitOf(h: B256, i: nat): (b: BitIndex)
    requires i + 1 < 32
    ensures b == ((h[i] as int) * 256 + h[i + 1] as int) % BLOOM_BITS
  {
    ((h[i] as int) * 256 + h[i + 1] as int) % 2048
  }

  /** M3:2048 of an already hashed input (alloy's `BloomInput::Hash`). */
  function M3(h: B256): (bits: set<BitIndex>)
    ensures 1 <= |bits| <= 3
  {
    {BitOf(h, 0), BitOf(h, 2), BitOf(h, 4)}
  }

  /** `bloom.contains_input(BloomInput::Hash(h))`: all three bits of `h` are set. */
  predicate ContainsHash(bloom: Bloom, h: B256)
  {
    M3(h) <= bloom
  }

  /** `bloom.accrue(BloomInput::Hash(h))`: sets the three bits of `h`. */
  function AccrueHash(bloom: Bloom, h: B256): (r: Bloom)
    ensures bloom <= r
    ensures r - bloom <= M3(h)
  {
    bloom + M3(h)
  }

  /** Membership is exactly "the three selected bits are set". */
  lemma ContainsHashBits(bloom: Bloom, h: B256)
    ensures ContainsHash(bloom, h)
        <==> BitOf(h, 0) in bloom && BitOf(h, 2) in bloom && BitOf(h, 4) in bloom
  {
  }

  /** No false negatives: a hash accrued into a bloom is reported present,
      and stays present whatever else is accrued later. */
  lemma AccruedHashIsContained(bloom: Bloom, h: B256, later: Bloom)
    ensures ContainsHash(AccrueHash(bloom, h) + later, h)
  {
  }

  /** The empty bloom contains nothing. */
  lemma EmptyContainsNothing(h: B256)
    ensures !ContainsHash(EMPTY, h)
  {
    assert BitOf(h, 0) in M3(h);
  }

  // ---------------------------------------------------------------------------
  // Yellow Paper accrual of logs (keccak-256 of the raw address and topics)
  // ---------------------------------------------------------------------------

  /** M(O) of one log: the keccak of its address and of each topic, accrued
      in turn into an empty bloom (`accrue_log` with raw inputs). */
  function LogBloom(keccak: Keccak, address: Address, topics: seq<B256>): Bloom
    decreases |topics|
  {
    if |topics| == 0 then AccrueHash(EMPTY, keccak(address))
    else AccrueHash(LogBloom(keccak, address, topics[..|topics| - 1]), keccak(topics[|topics| - 1]))
  }

  /** The bloom of a receipt: the union of the blooms of its logs. */
  function ReceiptBloom(keccak: Keccak, logs: seq<Log>): Bloom
    decreases |logs|
  {
    if |logs| == 0 then EMPTY
    else ReceiptBloom(keccak, logs[..|logs| - 1]) + LogBloom(keccak, logs[|logs| - 1].address, logs[|logs| - 1].topics)
  }

  /** Every topic of a log leaves the bits of its keccak in that log's bloom. */
  lemma {:induction false} LogBloomHasTopics(keccak: Keccak, address: Address, topics: seq<B256>, i: nat)
    requires i < |topics|
    ensures M3(keccak(topics[i])) <= LogBloom(keccak, address, topics)
    decreases |topics|
  {
    if i < |topics| - 1 {
      LogBloomHasTopics(keccak, address, topics[..|topics| - 1], i);
    } else {
      AccruedHashIsContained(LogBloom(keccak, address, topics[..i]), keccak(topics[i]), EMPTY);
    }
  }

  /** Every log's bloom is part of its receipt's bloom. */
  lemma {:induction false} ReceiptBloomHasLogs(keccak: Keccak, logs: seq<Log>, j: nat)
    requires j < |logs|
    ensures LogBloom(keccak, logs[j].address, logs[j].topics) <= ReceiptBloom(keccak, logs)
    decreases |logs|
  {
    if j < |logs| - 1 {
      ReceiptBloomHasLogs(keccak, logs[..|logs| - 1], j);
    }
  }

  // ---------------------------------------------------------------------------
  // Probing a receipt bloom for an event kind
  // ---------------------------------------------------------------------------

  /** The hash the source probes for: `BloomInput::Hash(SIGNATURE_HASH)`
      takes the signature hash itself as the M3:2048 input. */
  function ProbeAsWritten(kind: EventKind): B256
  {
    SignatureHash(kind)
  }

  /** The hash a Yellow Paper bloom holds for an event kind:
      `BloomInput::Raw(SIGNATURE_HASH)`, that is keccak of the topic. */
  function Probe(keccak: Keccak, kind: EventKind): B256
  {
    keccak(SignatureHash(kind))
  }

  /** No false negatives: if any log of a receipt has the signature hash of
      `kind` as a topic, probing the receipt's bloom for `kind` succeeds. */
  lemma ProbeFindsTopic(keccak: Keccak, logs: seq<Log>, j: nat, i: nat, kind: EventKind)
    requires j < |logs| && i < |logs[j].topics|
    requires logs[j].topics[i] == SignatureHash(kind)
    ensures ContainsHash(ReceiptBloom(keccak, logs), Probe(keccak, kind))
  {
    LogBloomHasTopics(keccak, logs[j].address, logs[j].topics, i);
    ReceiptBloomHasLogs(keccak, logs, j);
  }
}
