/**
 * Devnet block assembly and the proof-of-work nonce search of
 * `make_devnet_block` (src/mine_loop.rs).  The clock reading, the random
 * commitment randomness, the mining reward schedule, the digest ordering and
 * the difficulty threshold are parameters; cancellation of the receiving end
 * is the poll index `cancelAfter` at which `is_canceled` first answers true.
 */
module MineLoop {
  import opened Common
  import opened MutatorSet
  import opened Block

  const MOCK_MAX_BLOCK_SIZE: nat := 1_000_000
  const MOCK_DIFFICULTY: nat := 10_000

  /** `BFieldElement::increment`: add one in the field. */
  function FeltIncrement(x: Felt): (r: Felt)
    ensures x < MAX ==> r == x + 1
    ensures x == MAX ==> r == 0
  {
    (x + 1) % P
  }

  /** The coinbase transaction of a devnet block. */
  predicate IsCoinbase(tx: Transaction, key: PublicKey, reward: nat, randomness: Digest, timestamp: Felt)
  {
    && tx.inputs == []
    && tx.outputs == [(Utxo(reward, key), randomness)]
    && tx.publicScripts == []
    && tx.fee == 0
    && tx.timestamp == timestamp
  }

  /** How a newly assembled devnet block hangs off its parent. */
  predicate LinksTo(header: BlockHeader, body: BlockBody, previous: Block, hs: Hashing, ms: MutatorSetOps)
  {
    && header.height == FeltIncrement(previous.header.height)
    && header.prevBlockDigest == hs.header(previous.header)
    && header.proofOfWorkLine == previous.header.proofOfWorkFamily + MOCK_DIFFICULTY
    && header.proofOfWorkFamily == header.proofOfWorkLine
    && header.targetDifficulty == MOCK_DIFFICULTY
    && header.uncles == []
    && header.blockBodyMerkleRoot == hs.body(body)
    && header.mutatorSetCommitment == ms.commitment(body.nextMutatorSetAccumulator)
    && body.previousMutatorSetAccumulator == previous.body.nextMutatorSetAccumulator
    && body.mutatorSetUpdate.removals == []
    && |body.mutatorSetUpdate.additions| == 1
    && body.nextMutatorSetAccumulator
         == ms.add(body.previousMutatorSetAccumulator, body.mutatorSetUpdate.additions[0])
  }

  /**
   * The header (nonce still zero) and body that `make_devnet_block` assembles
   * before mining: a single coinbase transaction paying the reward for the
   * next height to `key`, whose addition record is the block's only
   * mutator-set change.
   */
  function DevnetBlockTemplate(previous: Block, key: PublicKey, timestamp: Felt, randomness: Digest,
                               miningReward: Felt -> nat, hs: Hashing, ms: MutatorSetOps)
    : (r: (BlockHeader, BlockBody))
    ensures LinksTo(r.0, r.1, previous, hs, ms)
    ensures previous.header.height < MAX ==> r.0.height == previous.header.height + 1
    ensures r.0.nonce == [0, 0, 0] && r.0.version == 0 && r.0.timestamp == timestamp
    ensures r.0.maxBlockSize == MOCK_MAX_BLOCK_SIZE
    ensures |r.1.transactions| == 1
    ensures IsCoinbase(r.1.transactions[0], key, miningReward(r.0.height), randomness, timestamp)
    ensures r.1.mutatorSetUpdate.additions
         == [ms.commit(previous.body.nextMutatorSetAccumulator, hs.utxo(Utxo(miningReward(r.0.height), key)), randomness)]
    ensures r.1.starkProof == []
  {
    var nextHeight := FeltIncrement(previous.header.height);
    var coinbaseUtxo := Utxo(miningReward(nextHeight), key);
    var coinbase := Transaction([], [(coinbaseUtxo, randomness)], [], 0, timestamp);
    var parentMs := previous.body.nextMutatorSetAccumulator;
    var addition := ms.commit(parentMs, hs.utxo(coinbaseUtxo), randomness);
    var newMs := ms.add(parentMs, addition);
    var body := BlockBody([coinbase], newMs, parentMs, MutatorSetUpdate([], [addition]), []);
    var powLine := previous.header.proofOfWorkFamily + MOCK_DIFFICULTY;
    var header := BlockHeader(
      0, nextHeight, ms.commitment(newMs), hs.header(previous.header), timestamp, [0, 0, 0],
      MOCK_MAX_BLOCK_SIZE, powLine, powLine, MOCK_DIFFICULTY, hs.body(body), []);
    (header, body)
  }

  // ---------------------------------------------------------------------------
  // The nonce odometer

  type Nonce = n: seq<Felt> | |n| == 3 witness [0, 0, 0]

  /**
   * One step of the search: `nonce[2]` counts, carrying into `nonce[1]` and then `nonce[0]`.
   * Each digit is incremented in the field exactly when every less significant digit was at
   * the largest element, and a digit that wraps to zero passes the carry on.
   */
  function NonceStep(n: Nonce): (r: Nonce)
    ensures r[2] == FeltIncrement(n[2])
    ensures r[1] == if n[2] == MAX then FeltIncrement(n[1]) else n[1]
    ensures r[0] == if n[2] == MAX && n[1] == MAX then FeltIncrement(n[0]) else n[0]
  {
    if n[2] == MAX then
      if n[1] == MAX then [FeltIncrement(n[0]), 0, 0] else [n[0], n[1] + 1, 0]
    else [n[0], n[1], n[2] + 1]
  }

  /** The nonce read as a three-digit number in base P = MAX + 1, `nonce[0]` most significant. */
  function NonceValue(n: Nonce): (r: nat)
  {
    n[0] * P * P + n[1] * P + n[2]
  }

  /** The number of distinct nonces. */
  const NONCE_SPACE: nat := P * P * P

  lemma NonceValueBound(n: Nonce)
    ensures NonceValue(n) < NONCE_SPACE
  {
    assert n[1] * P + n[2] < P * P;
    assert n[0] * P * P <= (P - 1) * P * P;
  }

  /** One odometer step adds exactly one to the nonce's value, wrapping from the largest nonce to zero. */
  lemma NonceStepValue(n: Nonce)
    ensures NonceValue(NonceStep(n)) == if NonceValue(n) + 1 < NONCE_SPACE then NonceValue(n) + 1 else 0
  {
    NonceValueBound(n);
    var v := NonceValue(n);
    if n[2] < MAX || n[1] < MAX {
      assert NonceValue(NonceStep(n)) == v + 1;
      NonceValueBound(NonceStep(n));
    } else if n[0] < MAX {
      assert v + 1 == (n[0] + 1) * P * P;
      assert NonceValue(NonceStep(n)) == v + 1;
      assert v + 1 < NONCE_SPACE;
    } else {
      assert v + 1 == NONCE_SPACE;
      assert NonceValue(NonceStep(n)) == 0;
    }
  }

  /** The nonce after k steps from zero. */
  function NonceAt(k: nat): (r: Nonce)
  {
    if k == 0 then [0, 0, 0] else NonceStep(NonceAt(k - 1))
  }

  /** Before the odometer wraps, the nonce after k steps reads as k: no nonce is skipped or repeated. */
  lemma {:induction false} NonceAtValue(k: nat)
    requires k < NONCE_SPACE
    ensures NonceValue(NonceAt(k)) == k
  {
    if k > 0 {
      NonceAtValue(k - 1);
      NonceStepValue(NonceAt(k - 1));
    }
  }

  /** After every nonce has been tried once, the odometer is back at zero. */
  lemma NonceAtWraps()
    ensures NonceAt(NONCE_SPACE) == [0, 0, 0]
  {
    NonceAtValue(NONCE_SPACE - 1);
    NonceStepValue(NonceAt(NONCE_SPACE - 1));
    var n := NonceAt(NONCE_SPACE);
    assert NonceValue(n) == 0;
    assert n == [n[0], n[1], n[2]];
  }

  /** The header that is hashed at search step k. */
  function Candidate(header: BlockHeader, k: nat): (r: BlockHeader)
  {
    header.(nonce := NonceAt(k))
  }

  predicate Hit(header: BlockHeader, k: nat, hs: Hashing, toOrdered: Digest -> nat, threshold: nat)
  {
    toOrdered(hs.header(Candidate(header, k))) < threshold
  }

  /** The odometer step of `make_devnet_block`, in place on the three-element nonce array. */
  method StepNonce(nonce: array<Felt>)
    requires nonce.Length == 3
    modifies nonce
    ensures nonce[..] == NonceStep(old(nonce[..]))
  {
    if nonce[2] == MAX {
      nonce[2] := 0;
      if nonce[1] == MAX {
        nonce[1] := 0;
        nonce[0] := FeltIncrement(nonce[0]);
      } else {
        nonce[1] := nonce[1] + 1;
      }
    } else {
      nonce[2] := nonce[2] + 1;
    }
  }

  datatype MiningOutcome = Sent(block: Block) | Abandoned

  /**
   * The search loop of `make_devnet_block`: step the nonce until the header
   * hash falls below `threshold`, polling for cancellation before each step;
   * `is_canceled` answers true at poll `cancelAfter`.  On success the nonce is
   * the first hit in odometer order; otherwise every nonce tried missed.
   */
  method SearchNonce(header: BlockHeader, hs: Hashing, toOrdered: Digest -> nat, threshold: nat, cancelAfter: nat)
    returns (found: bool, nonce: Nonce, ghost steps: nat)
    ensures steps <= cancelAfter
    ensures forall j :: 0 <= j < steps ==> !Hit(header, j, hs, toOrdered, threshold)
    ensures found ==> nonce == NonceAt(steps) && Hit(header, steps, hs, toOrdered, threshold)
    ensures !found ==> steps == cancelAfter && !Hit(header, steps, hs, toOrdered, threshold)
  {
    var current := new Felt[3](_ => 0);
    var polls: nat := 0;  // how often `is_canceled` has been asked
    steps := 0;
    assert current[..] == NonceAt(0);
    while toOrdered(hs.header(header.(nonce := current[..]))) >= threshold
      invariant current[..] == NonceAt(steps)
      invariant steps == polls <= cancelAfter
      invariant forall j :: 0 <= j < steps ==> !Hit(header, j, hs, toOrdered, threshold)
      decreases cancelAfter - polls
    {
      if polls == cancelAfter {
        // `sender.is_canceled()` answers true
        return false, current[..], steps;
      }
      StepNonce(current);
      polls := polls + 1;
      steps := steps + 1;
    }
    found, nonce := true, current[..];
  }

  /**
   * `make_devnet_block`: assemble the block, then search the nonces.  A block
   * is sent only with the first nonce, in odometer order, whose hash is below
   * the threshold; a cancelled search sends nothing.
   */
  method MakeDevnetBlock(previous: Block, key: PublicKey, timestamp: Felt, randomness: Digest,
                         miningReward: Felt -> nat, hs: Hashing, ms: MutatorSetOps,
                         toOrdered: Digest -> nat, threshold: nat, cancelAfter: nat)
    returns (outcome: MiningOutcome, ghost steps: nat)
    ensures var (header, body) := DevnetBlockTemplate(previous, key, timestamp, randomness, miningReward, hs, ms);
      && steps <= cancelAfter
      && (forall j :: 0 <= j < steps ==> !Hit(header, j, hs, toOrdered, threshold))
      && (outcome.Sent? ==>
            && outcome.block == NewBlock(Candidate(header, steps), body, hs)
            && Hit(header, steps, hs, toOrdered, threshold))
      && (outcome.Abandoned? ==> steps == cancelAfter && !Hit(header, steps, hs, toOrdered, threshold))
  {
    var template := DevnetBlockTemplate(previous, key, timestamp, randomness, miningReward, hs, ms);
    var header, body := template.0, template.1;
    var found, nonce;
    found, nonce, steps := SearchNonce(header, hs, toOrdered, threshold, cancelAfter);
    if found {
      outcome := Sent(NewBlock(header.(nonce := nonce), body, hs));
    } else {
      outcome := Abandoned;
    }
  }
}
