/**
 * Blocks: the header and body records, the `Block` and `TransferBlock`
 * conversions, the genesis block and the mock validity check
 * (src/models/blockchain/block/mod.rs).  Header and body hashing are
 * uninterpreted: they come in a `Hashing` value.
 */
module Block {
  import opened Common
  import opened MutatorSet

  /** An input of a transaction in this revision; only its UTXO is read. */
  datatype TxInput = TxInput(utxo: Utxo)

  /** A transaction of the block-body revision: outputs carry their commitment randomness. */
  datatype Transaction = Transaction(
    inputs: seq<TxInput>,
    outputs: seq<(Utxo, Digest)>,
    publicScripts: seq<seq<Felt>>,
    fee: nat,
    timestamp: Felt)

  datatype MutatorSetUpdate = MutatorSetUpdate(
    removals: seq<RemovalRecord>,
    additions: seq<AdditionRecord>)

  datatype BlockBody = BlockBody(
    transactions: seq<Transaction>,
    nextMutatorSetAccumulator: MsAccumulator,
    previousMutatorSetAccumulator: MsAccumulator,
    mutatorSetUpdate: MutatorSetUpdate,
    starkProof: seq<Felt>)

  /** Proof-of-work quantities (`U32s`) are naturals; heights and timestamps are field elements. */
  datatype BlockHeader = BlockHeader(
    version: Felt,
    height: Felt,
    mutatorSetCommitment: Digest,
    prevBlockDigest: Digest,
    timestamp: Felt,
    nonce: seq<Felt>,
    maxBlockSize: nat,
    proofOfWorkLine: nat,
    proofOfWorkFamily: nat,
    targetDifficulty: nat,
    blockBodyMerkleRoot: Digest,
    uncles: seq<Digest>)

  datatype Block = Block(hash: Digest, header: BlockHeader, body: BlockBody)

  /** A block as sent over the wire: without its hash. */
  datatype TransferBlock = TransferBlock(header: BlockHeader, body: BlockBody)

  /** The hash functions blocks are built with, left uninterpreted. */
  datatype Hashing = Hashing(
    header: BlockHeader -> Digest,   // `BlockHeader::hash`
    body: BlockBody -> Digest,       // `BlockBody::hash`
    utxo: Utxo -> Digest)            // `Utxo::hash`

  /** A block whose stored hash is the hash of its own header. */
  predicate HashConsistent(b: Block, hs: Hashing)
  {
    b.hash == hs.header(b.header)
  }

  /** `Block::new`: keeps header and body and derives the hash from the header. */
  function NewBlock(header: BlockHeader, body: BlockBody, hs: Hashing): (b: Block)
    ensures b.header == header && b.body == body
    ensures HashConsistent(b, hs)
    ensures forall c: Block :: c.header == header && c.body == body && HashConsistent(c, hs) ==> c == b
  {
    Block(hs.header(header), header, body)
  }

  /** `From<TransferBlock> for Block`. */
  function FromTransferBlock(t: TransferBlock, hs: Hashing): (b: Block)
    ensures b == NewBlock(t.header, t.body, hs)
  {
    Block(hs.header(t.header), t.header, t.body)
  }

  /** `From<Block> for TransferBlock`: drops the hash and nothing else. */
  function ToTransferBlock(b: Block): (t: TransferBlock)
    ensures t.header == b.header && t.body == b.body
  {
    TransferBlock(b.header, b.body)
  }

  /** Two blocks convert to the same transfer block exactly when they differ at most in their hash. */
  lemma TransferBlockForgetsOnlyHash(b: Block, c: Block)
    ensures ToTransferBlock(b) == ToTransferBlock(c) <==> b.header == c.header && b.body == c.body
  {
  }

  /** TransferBlock -> Block -> TransferBlock is the identity. */
  lemma TransferRoundTrip(t: TransferBlock, hs: Hashing)
    ensures ToTransferBlock(FromTransferBlock(t, hs)) == t
  {
  }

  /** Block -> TransferBlock -> Block is the identity exactly on hash-consistent blocks. */
  lemma BlockRoundTrip(b: Block, hs: Hashing)
    ensures FromTransferBlock(ToTransferBlock(b), hs) == b <==> HashConsistent(b, hs)
  {
  }

  /** The UNIX time at which the genesis block was written down. */
  const GENESIS_TIMESTAMP: nat := 1655916990

  const GENESIS_MAX_BLOCK_SIZE: nat := 10_000

  /** `Block::genesis_block`. */
  function GenesisBlock(hs: Hashing, ms: MutatorSetOps): (b: Block)
    ensures b.header.height == 0 && b.header.version == 0
    ensures b.header.prevBlockDigest == DefaultDigest()
    ensures b.header.timestamp == GENESIS_TIMESTAMP
    ensures b.header.nonce == [0, 0, 0]
    ensures b.header.proofOfWorkLine == 0 && b.header.proofOfWorkFamily == 0
    ensures b.header.targetDifficulty == 1
    ensures b.header.maxBlockSize == GENESIS_MAX_BLOCK_SIZE
    ensures b.header.uncles == []
    ensures b.header.mutatorSetCommitment == ms.commitment(ms.empty)
    ensures b.header.blockBodyMerkleRoot == hs.body(b.body)
    ensures b.body.transactions == [] && b.body.starkProof == []
    ensures b.body.previousMutatorSetAccumulator == ms.empty
    ensures b.body.nextMutatorSetAccumulator == ms.empty
    ensures b.body.mutatorSetUpdate == MutatorSetUpdate([], [])
    ensures HashConsistent(b, hs)
  {
    var body := BlockBody([], ms.empty, ms.empty, MutatorSetUpdate([], []), []);
    var header := BlockHeader(
      0, 0, ms.commitment(ms.empty), DefaultDigest(), GENESIS_TIMESTAMP, [0, 0, 0],
      GENESIS_MAX_BLOCK_SIZE, 0, 0, 1, hs.body(body), []);
    NewBlock(header, body, hs)
  }

  /** `devnet_is_valid`: every check it describes is still to be written; it accepts. */
  function DevnetIsValid(b: Block): (r: bool)
    ensures r
  {
    true
  }

  /**
   * `is_valid`: the hash, read as an ordered digest by `toOrdered`, must not
   * exceed `threshold` (`MOCK_BLOCK_THRESHOLD`); then `devnet_is_valid` decides.
   */
  function IsValid(b: Block, toOrdered: Digest -> nat, threshold: nat): (r: bool)
    ensures r <==> toOrdered(b.hash) <= threshold
  {
    if toOrdered(b.hash) > threshold then false
    else DevnetIsValid(b)
  }
}
