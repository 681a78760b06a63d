/**
 * Values shared by every part of the node model: field elements, digests,
 * public keys, UTXOs, and the Option/Result wrappers used for the source's
 * `Option` and `anyhow::Result` returns (a Rust panic is modelled as an
 * `Err` whose message names the panic).
 */
module Common {

  /** The Oxfoi prime 2^64 - 2^32 + 1, the modulus of a `BFieldElement`. */
  const P: nat := 18446744069414584321

  /** `BFieldElement::MAX`, the largest canonical field element. */
  const MAX: nat := P - 1

  /** A canonical field element. */
  type Felt = x: nat | x < P

  const U64_MODULUS: nat := 0x1_0000_0000_0000_0000

  type U64 = x: nat | x < U64_MODULUS

  /** Number of field elements in a digest. */
  const DIGEST_LENGTH: nat := 5

  datatype Digest = Digest(elements: seq<Felt>)

  /** `Digest::default()`: all elements zero. */
  function DefaultDigest(): (d: Digest)
    ensures |d.elements| == DIGEST_LENGTH
    ensures forall i :: 0 <= i < DIGEST_LENGTH ==> d.elements[i] == 0
  {
    Digest(seq(DIGEST_LENGTH, _ => 0))
  }

  datatype Option<T> = None | Some(value: T)

  datatype Result<T> = Ok(value: T) | Err(error: string)

  /** A public key (secp256k1 in the mining revision), kept as its bytes. */
  datatype PublicKey = PublicKey(bytes: seq<nat>)

  /** An unspent transaction output: an amount locked to a public key. */
  datatype Utxo = Utxo(amount: nat, publicKey: PublicKey)

  /** `Utxo::matches_pubkey`. */
  predicate MatchesPubkey(utxo: Utxo, key: PublicKey)
  {
    utxo.publicKey == key
  }
}
