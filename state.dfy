/**
 * The node's shared state handle and the chain-tip update
 * (src/models/state.rs).  Each `Arc<Mutex<_>>` is a heap cell that clones
 * share; the three LevelDB tables the tip update writes are maps in one
 * `Databases` object, and whether each `put` succeeds is an input.
 */
module State {
  import opened Common
  import opened MutatorSet
  import opened Block

  /** A value behind an `Arc` lock: every clone of the `Arc` sees the same cell. */
  class Shared<T> {
    var value: T

    constructor (v: T)
      ensures value == v
    {
      value := v;
    }
  }

  datatype SocketAddr = SocketAddr(ip: seq<nat>, port: nat)

  /** Connection metadata of a peer; its contents are not inspected here. */
  datatype Peer = Peer(address: SocketAddr, instanceId: nat)

  /** The contents of the three tables that the tip update writes. */
  datatype Tables = Tables(
    blockHeightToHash: map<Felt, Digest>,
    blockHashToBlock: map<Digest, Block>,
    latestBlockHeader: Option<BlockHeader>)  // the table with the single key `DatabaseUnit`

  /** Whether each of the three `put`s of a tip update succeeds, in the order they are issued. */
  datatype PutOutcomes = PutOutcomes(heightToHash: bool, hashToBlock: bool, latestHeader: bool)

  /**
   * The tip update on table contents: the three writes in order, stopping at
   * the first that fails.  The Boolean is true when all three succeeded.
   */
  function WriteTip(t: Tables, b: Block, puts: PutOutcomes): (r: (Tables, bool))
    ensures r.1 <==> puts.heightToHash && puts.hashToBlock && puts.latestHeader
    ensures r.0.latestBlockHeader == if r.1 then Some(b.header) else t.latestBlockHeader
    ensures !puts.heightToHash ==> r.0 == t
  {
    if !puts.heightToHash then (t, false)
    else
      var t1 := t.(blockHeightToHash := t.blockHeightToHash[b.header.height := b.hash]);
      if !puts.hashToBlock then (t1, false)
      else
        var t2 := t1.(blockHashToBlock := t1.blockHashToBlock[b.hash := b]);
        if !puts.latestHeader then (t2, false)
        else (t2.(latestBlockHeader := Some(b.header)), true)
  }

  /** A successful tip update stores the block under its height and its hash and records its header. */
  lemma WriteTipStoresBlock(t: Tables, b: Block, puts: PutOutcomes)
    requires puts.heightToHash && puts.hashToBlock && puts.latestHeader
    ensures var (t', ok) := WriteTip(t, b, puts);
      && ok
      && t'.blockHeightToHash.Keys == t.blockHeightToHash.Keys + {b.header.height}
      && t'.blockHeightToHash[b.header.height] == b.hash
      && t'.blockHashToBlock.Keys == t.blockHashToBlock.Keys + {b.hash}
      && t'.blockHashToBlock[b.hash] == b
      && t'.latestBlockHeader == Some(b.header)
  {
  }

  /** The update touches no key but the new block's height and hash, whatever fails. */
  lemma WriteTipFrame(t: Tables, b: Block, puts: PutOutcomes, height: Felt, hash: Digest)
    requires height != b.header.height && hash != b.hash
    ensures var t' := WriteTip(t, b, puts).0;
      && (height in t'.blockHeightToHash <==> height in t.blockHeightToHash)
      && (height in t.blockHeightToHash ==> t'.blockHeightToHash[height] == t.blockHeightToHash[height])
      && (hash in t'.blockHashToBlock <==> hash in t.blockHashToBlock)
      && (hash in t.blockHashToBlock ==> t'.blockHashToBlock[hash] == t.blockHashToBlock[hash])
  {
  }

  /**
   * A failed write leaves the earlier ones in place and the later ones
   * unissued: nothing is rolled back.
   */
  lemma WriteTipFailure(t: Tables, b: Block, puts: PutOutcomes)
    requires !(puts.heightToHash && puts.hashToBlock && puts.latestHeader)
    ensures var (t', ok) := WriteTip(t, b, puts);
      && !ok
      && t'.latestBlockHeader == t.latestBlockHeader
      && t'.blockHeightToHash
           == (if puts.heightToHash then t.blockHeightToHash[b.header.height := b.hash] else t.blockHeightToHash)
      && t'.blockHashToBlock
           == (if puts.heightToHash && puts.hashToBlock then t.blockHashToBlock[b.hash := b] else t.blockHashToBlock)
  {
  }

  /** Of two successive tips at the same height, the later one owns the height entry. */
  lemma WriteTipSameHeightOverwrites(t: Tables, b1: Block, b2: Block, puts1: PutOutcomes, puts2: PutOutcomes)
    requires b1.header.height == b2.header.height
    requires puts2.heightToHash
    ensures WriteTip(WriteTip(t, b1, puts1).0, b2, puts2).0.blockHeightToHash[b2.header.height] == b2.hash
  {
  }

  /** The answer of `get_block` once the table has been read: the genesis block overrides the table. */
  function BlockLookup(hashToBlock: map<Digest, Block>, d: Digest, genesis: Block): (r: Option<Block>)
    ensures d == genesis.hash ==> r == Some(genesis)
    ensures d != genesis.hash ==> (r.Some? <==> d in hashToBlock)
    ensures d != genesis.hash && r.Some? ==> r.value == hashToBlock[d]
  {
    if genesis.hash == d then Some(genesis)
    else if d in hashToBlock then Some(hashToBlock[d])
    else None
  }

  /** After a successful tip update, looking up the new block's hash yields the new block (or genesis, for the genesis hash). */
  lemma LookupAfterWriteTip(t: Tables, b: Block, puts: PutOutcomes, genesis: Block)
    requires WriteTip(t, b, puts).1
    ensures BlockLookup(WriteTip(t, b, puts).0.blockHashToBlock, b.hash, genesis)
         == if b.hash == genesis.hash then Some(genesis) else Some(b)
  {
  }

  /** The database handle: the tables of the tip update. */
  class Databases {
    var blockHeightToHash: map<Felt, Digest>
    var blockHashToBlock: map<Digest, Block>
    var latestBlockHeader: Option<BlockHeader>

    constructor (t: Tables)
      ensures Contents() == t
    {
      blockHeightToHash := t.blockHeightToHash;
      blockHashToBlock := t.blockHashToBlock;
      latestBlockHeader := t.latestBlockHeader;
    }

    function Contents(): (r: Tables)
      reads this
    {
      Tables(blockHeightToHash, blockHashToBlock, latestBlockHeader)
    }
  }

  /**
   * `update_latest_block_with_block_header_mutexguard`: write height -> hash,
   * hash -> block and the latest header, returning at the first failed write,
   * and only then overwrite the in-memory tip header.
   */
  method UpdateLatestBlockWithBlockHeaderMutexguard(
    newBlock: Block, databases: Databases, blockHeader: Shared<BlockHeader>, puts: PutOutcomes)
    returns (r: Result<()>)
    modifies databases, blockHeader
    ensures databases.Contents() == WriteTip(old(databases.Contents()), newBlock, puts).0
    ensures r.Ok? <==> WriteTip(old(databases.Contents()), newBlock, puts).1
    ensures blockHeader.value == if r.Ok? then newBlock.header else old(blockHeader.value)
  {
    if !puts.heightToHash {
      return Err("block_height_to_hash put failed");
    }
    databases.blockHeightToHash := databases.blockHeightToHash[newBlock.header.height := newBlock.hash];
    if !puts.hashToBlock {
      return Err("block_hash_to_block put failed");
    }
    databases.blockHashToBlock := databases.blockHashToBlock[newBlock.hash := newBlock];
    if !puts.latestHeader {
      return Err("latest_block_header put failed");
    }
    databases.latestBlockHeader := Some(newBlock.header);
    blockHeader.value := newBlock.header;
    r := Ok(());
  }

  /**
   * `get_latest_block`: `readOk` says whether the database read succeeded
   * (a failed read is the `expect` panic) and `stored` is what it answered.
   * Without a stored block the tip is the genesis block.
   */
  function GetLatestBlock(readOk: bool, stored: Option<Block>, hs: Hashing, ms: MutatorSetOps): (r: Result<Block>)
    ensures !readOk ==> r.Err?
    ensures readOk && stored.None? ==> r == Ok(GenesisBlock(hs, ms)) && r.value.header.height == 0
    ensures readOk && stored.Some? ==> r == Ok(stored.value)
    ensures readOk && (stored.None? || HashConsistent(stored.value, hs)) ==> HashConsistent(r.value, hs)
  {
    if !readOk then Err("Failed to read from DB")
    else
      match stored
      case None => Ok(GenesisBlock(hs, ms))
      case Some(block) => Ok(block)
  }

  /**
   * The state shared across the node's tasks.  Every field is an `Arc`;
   * `syncing` is the one a clone does not share.
   */
  class State {
    const latestBlockHeader: Shared<BlockHeader>
    const peerMap: Shared<map<SocketAddr, Peer>>
    const databases: Databases
    const syncing: Shared<bool>

    constructor (latestBlockHeader: Shared<BlockHeader>, peerMap: Shared<map<SocketAddr, Peer>>,
                 databases: Databases, syncing: Shared<bool>)
      ensures this.latestBlockHeader == latestBlockHeader && this.peerMap == peerMap
      ensures this.databases == databases && this.syncing == syncing
    {
      this.latestBlockHeader := latestBlockHeader;
      this.peerMap := peerMap;
      this.databases := databases;
      this.syncing := syncing;
    }

    /** `Clone for State`: shares header, peer map and databases; `syncing` is a fresh `false`. */
    method Clone() returns (c: State)
      ensures fresh(c) && fresh(c.syncing) && !c.syncing.value
      ensures c.latestBlockHeader == latestBlockHeader && c.peerMap == peerMap && c.databases == databases
    {
      var syncing := new Shared(false);
      c := new State(latestBlockHeader, peerMap, databases, syncing);
    }

    /**
     * `get_block`: a failed table read is an error; otherwise the stored
     * block, replaced by the genesis block whenever `d` is the genesis hash.
     */
    method GetBlock(d: Digest, readOk: bool, hs: Hashing, ms: MutatorSetOps) returns (r: Result<Option<Block>>)
      ensures !readOk ==> r.Err?
      ensures readOk ==> r == Ok(BlockLookup(databases.blockHashToBlock, d, GenesisBlock(hs, ms)))
    {
      if !readOk {
        return Err("block_hash_to_block read failed");
      }
      var block: Option<Block> := if d in databases.blockHashToBlock then Some(databases.blockHashToBlock[d]) else None;
      var genesis := GenesisBlock(hs, ms);
      if genesis.hash == d {
        block := Some(genesis);
      }
      r := Ok(block);
    }

    /** `update_latest_block`: the tip update on this state's own databases and header cell. */
    method UpdateLatestBlock(newBlock: Block, puts: PutOutcomes) returns (r: Result<()>)
      modifies databases, latestBlockHeader
      ensures databases.Contents() == WriteTip(old(databases.Contents()), newBlock, puts).0
      ensures r.Ok? <==> WriteTip(old(databases.Contents()), newBlock, puts).1
      ensures latestBlockHeader.value == if r.Ok? then newBlock.header else old(latestBlockHeader.value)
    {
      r := UpdateLatestBlockWithBlockHeaderMutexguard(newBlock, databases, latestBlockHeader, puts);
    }
  }
}
