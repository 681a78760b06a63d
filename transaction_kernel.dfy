/**
 * The transaction kernel and the leaves of its Merkle (MAST) hash
 * (src/models/blockchain/transaction/transaction_kernel.rs).  Field encoding
 * (`BFieldCodec`), variable-length hashing and the Merkle root are
 * uninterpreted and passed in.
 */
module TransactionKernel {
  import opened Common
  import opened MutatorSet

  datatype TransactionKernel = TransactionKernel(
    inputs: seq<RemovalRecord>,
    outputs: seq<AdditionRecord>,
    pubscriptHashesAndInputs: seq<(Digest, seq<Felt>)>,
    fee: nat,
    coinbase: Option<nat>,
    timestamp: Felt,
    mutatorSetHash: Digest)

  /** The `BFieldCodec` encodings of the kernel's field types. */
  datatype Codec = Codec(
    inputs: seq<RemovalRecord> -> seq<Felt>,
    outputs: seq<AdditionRecord> -> seq<Felt>,
    pubscripts: seq<(Digest, seq<Felt>)> -> seq<Felt>,
    amount: nat -> seq<Felt>,
    optionalAmount: Option<nat> -> seq<Felt>,
    felt: Felt -> seq<Felt>,
    digest: Digest -> seq<Felt>)

  /** `mast_sequences`: the seven field encodings, in declaration order. */
  function MastSequences(k: TransactionKernel, c: Codec): (r: seq<seq<Felt>>)
    ensures |r| == 7
    ensures r[0] == c.inputs(k.inputs) && r[1] == c.outputs(k.outputs)
    ensures r[2] == c.pubscripts(k.pubscriptHashesAndInputs)
    ensures r[3] == c.amount(k.fee) && r[4] == c.optionalAmount(k.coinbase)
    ensures r[5] == c.felt(k.timestamp) && r[6] == c.digest(k.mutatorSetHash)
  {
    [ c.inputs(k.inputs), c.outputs(k.outputs), c.pubscripts(k.pubscriptHashesAndInputs),
      c.amount(k.fee), c.optionalAmount(k.coinbase), c.felt(k.timestamp),
      c.digest(k.mutatorSetHash) ]
  }

  // ---------------------------------------------------------------------------
  // Powers of two and the `n & (n - 1)` test

  predicate IsPowerOfTwo(n: nat)
  {
    n == 1 || (n >= 2 && n % 2 == 0 && IsPowerOfTwo(n / 2))
  }

  /** Bitwise AND of two naturals, bit by bit from the least significant end. */
  function BitAnd(a: nat, b: nat): (r: nat)
  {
    if a == 0 || b == 0 then 0
    else 2 * BitAnd(a / 2, b / 2) + (if a % 2 == 1 && b % 2 == 1 then 1 else 0)
  }

  lemma {:induction false} BitAndSelf(m: nat)
    ensures BitAnd(m, m) == m
  {
    if m > 0 {
      BitAndSelf(m / 2);
    }
  }

  /** For n >= 1, `n & (n - 1) == 0` holds exactly when n is a power of two. */
  lemma {:induction false} PowerOfTwoTest(n: nat)
    requires n >= 1
    ensures BitAnd(n, n - 1) == 0 <==> IsPowerOfTwo(n)
  {
    if n == 1 {
    } else if n % 2 == 0 {
      assert (n - 1) / 2 == n / 2 - 1;
      PowerOfTwoTest(n / 2);
    } else {
      assert (n - 1) / 2 == n / 2;
      BitAndSelf(n / 2);
    }
  }

  /** The smallest power of two that is at least n. */
  function CeilPow2(n: nat): (p: nat)
    ensures IsPowerOfTwo(p) && n <= p
  {
    if n <= 1 then 1 else 2 * CeilPow2((n + 1) / 2)
  }

  lemma {:induction false} CeilPow2Least(n: nat, p: nat)
    requires IsPowerOfTwo(p) && n <= p
    ensures CeilPow2(n) <= p
  {
    if n > 1 {
      assert p != 1;
      CeilPow2Least((n + 1) / 2, p / 2);
    }
  }

  /** `sequences` padded with `filler` up to the next power of two. */
  function Padded(sequences: seq<seq<Felt>>, filler: seq<Felt>): (r: seq<seq<Felt>>)
  {
    sequences + seq(CeilPow2(|sequences|) - |sequences|, _ => filler)
  }

  /**
   * The padding loop of `mast_hash` (there run on the seven sequences), on any non-empty list: it ends at the
   * smallest power of two not below the starting length, keeps the original
   * entries as a prefix and appends only `filler`.
   */
  method PadToPowerOfTwo(sequences: seq<seq<Felt>>, filler: seq<Felt>) returns (padded: seq<seq<Felt>>)
    requires |sequences| >= 1
    ensures IsPowerOfTwo(|padded|)
    ensures |sequences| <= |padded|
    ensures forall p: nat :: IsPowerOfTwo(p) && |sequences| <= p ==> |padded| <= p
    ensures padded[..|sequences|] == sequences
    ensures forall i :: |sequences| <= i < |padded| ==> padded[i] == filler
    ensures padded == Padded(sequences, filler)
  {
    padded := sequences;
    while BitAnd(|padded|, |padded| - 1) != 0
      invariant |sequences| <= |padded| <= CeilPow2(|sequences|)
      invariant padded == sequences + seq(|padded| - |sequences|, _ => filler)
      decreases CeilPow2(|sequences|) - |padded|
    {
      PowerOfTwoTest(|padded|);
      padded := padded + [filler];
    }
    PowerOfTwoTest(|padded|);
    CeilPow2Least(|sequences|, |padded|);
    forall p: nat | IsPowerOfTwo(p) && |sequences| <= p
      ensures |padded| <= p
    {
      CeilPow2Least(|sequences|, p);
    }
  }

  /** The Merkle leaves of the kernel: one hash per padded sequence, in order. */
  function MastLeaves(k: TransactionKernel, c: Codec, hashVarlen: seq<Felt> -> Digest): (r: seq<Digest>)
  {
    var padded := Padded(MastSequences(k, c), c.digest(DefaultDigest()));
    seq(|padded|, i requires 0 <= i < |padded| => hashVarlen(padded[i]))
  }

  /**
   * `mast_hash`: pad the seven sequences with encodings of the default digest
   * until their number is a power of two, hash each, and take the Merkle root.
   */
  method MastHash(k: TransactionKernel, c: Codec, hashVarlen: seq<Felt> -> Digest,
                  merkleRoot: seq<Digest> -> Digest) returns (d: Digest)
    ensures d == merkleRoot(MastLeaves(k, c, hashVarlen))
    ensures var leaves := MastLeaves(k, c, hashVarlen);
      && |leaves| == 8
      && (forall i :: 0 <= i < 7 ==> leaves[i] == hashVarlen(MastSequences(k, c)[i]))
      && leaves[7] == hashVarlen(c.digest(DefaultDigest()))
  {
    var sequences := MastSequences(k, c);
    sequences := PadToPowerOfTwo(sequences, c.digest(DefaultDigest()));
    assert CeilPow2(7) == 8;
    var leaves := seq(|sequences|, i requires 0 <= i < |sequences| => hashVarlen(sequences[i]));
    d := merkleRoot(leaves);
  }
}
