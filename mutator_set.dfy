/**
 * The mutator-set accumulator and its records, as opaque values.  The
 * cryptography behind them (MMR peaks, the sliding-window Bloom filter) is not
 * part of this model: the operations the node calls on them are supplied as
 * functions in a `MutatorSetOps` value, so every property proved here holds
 * whatever those functions compute.
 */
module MutatorSet {
  import opened Common

  /** An addition record: the commitment that goes into the append-only list. */
  datatype AdditionRecord = AdditionRecord(canonicalCommitment: Digest)

  /** A removal record; only the absolute Bloom-filter indices are inspected. */
  datatype RemovalRecord = RemovalRecord(absoluteIndices: seq<nat>, payload: seq<Felt>)

  /**
   * A membership proof.  The node reads the leaf index of its AOCL
   * authentication path and its cached Bloom-filter indices; the rest is
   * carried as opaque payload.
   */
  datatype MsMembershipProof = MsMembershipProof(
    leafIndex: nat,
    cachedIndices: Option<seq<nat>>,
    payload: seq<Felt>)

  /** The accumulator state, never inspected by the node. */
  datatype MsAccumulator = MsAccumulator(state: seq<Felt>)

  /** The mutator-set operations the node uses, left uninterpreted. */
  datatype MutatorSetOps = MutatorSetOps(
    empty: MsAccumulator,                                      // `MutatorSetAccumulator::default()`
    commitment: MsAccumulator -> Digest,                       // `get_commitment`
    commit: (MsAccumulator, Digest, Digest) -> AdditionRecord, // `commit(item, randomness)`
    add: (MsAccumulator, AdditionRecord) -> MsAccumulator)     // `add`
}
