/**
 * The wallet's bookkeeping (src/models/state/wallet/wallet_state.rs): the
 * output counter and the commitment randomness derived from it, the balance,
 * the wallet status with its four buckets, greedy input selection, and the
 * part of the block update that records received and spent UTXOs, balance
 * updates, fresh membership proofs and the sync label.  Hashing, the
 * mutator-set proof updates and the hash pair are parameters.
 */
module WalletState {
  import opened Common
  import opened MutatorSet
  import opened Block
  import opened WalletDatabase

  datatype WalletSecret = WalletSecret(publicKey: PublicKey, commitmentRandomnessSeed: Digest)

  /**
   * What the block update reads from a block: its hash, the digest of its
   * parent, its timestamp in milliseconds, its one transaction and the
   * mutator-set update it carries.
   */
  datatype WalletBlock = WalletBlock(
    hash: Digest,
    prevBlockDigest: Digest,
    timestamp: Felt,
    transaction: Transaction,
    additions: seq<AdditionRecord>,
    removals: seq<RemovalRecord>)

  /** A block digest together with a timestamp in milliseconds, as stored in a monitored UTXO. */
  type Stamp = (Digest, nat)

  function BlockStamp(b: WalletBlock): (r: Stamp)
  {
    (b.hash, b.timestamp)
  }

  // ===========================================================================
  // Own inputs and outputs

  /** `Transaction::get_own_input_utxos`: the input UTXOs locked to `key`, in order. */
  function OwnInputUtxos(inputs: seq<TxInput>, key: PublicKey): (r: seq<Utxo>)
    ensures |r| <= |inputs|
    ensures forall k :: 0 <= k < |r| ==> MatchesPubkey(r[k], key)
  {
    if inputs == [] then []
    else
      var last := inputs[|inputs| - 1].utxo;
      OwnInputUtxos(inputs[..|inputs| - 1], key) + (if MatchesPubkey(last, key) then [last] else [])
  }

  /** `Transaction::get_own_output_utxos_and_comrands`: the outputs locked to `key`, in order. */
  function OwnOutputs(outputs: seq<(Utxo, Digest)>, key: PublicKey): (r: seq<(Utxo, Digest)>)
    ensures |r| <= |outputs|
    ensures forall k :: 0 <= k < |r| ==> MatchesPubkey(r[k].0, key) && r[k] in outputs
  {
    if outputs == [] then []
    else
      var last := outputs[|outputs| - 1];
      OwnOutputs(outputs[..|outputs| - 1], key) + (if MatchesPubkey(last.0, key) then [last] else [])
  }

  /** The own inputs are exactly the input UTXOs that match the key. */
  lemma {:induction false} OwnInputUtxosFilter(inputs: seq<TxInput>, key: PublicKey)
    ensures forall u :: u in OwnInputUtxos(inputs, key) <==>
      MatchesPubkey(u, key) && exists i :: 0 <= i < |inputs| && inputs[i].utxo == u
  {
    if inputs != [] {
      var init := inputs[..|inputs| - 1];
      OwnInputUtxosFilter(init, key);
      forall u
        ensures u in OwnInputUtxos(inputs, key) <==>
          MatchesPubkey(u, key) && exists i :: 0 <= i < |inputs| && inputs[i].utxo == u
      {
        if exists i :: 0 <= i < |init| && init[i].utxo == u {
          var i :| 0 <= i < |init| && init[i].utxo == u;
          assert inputs[i].utxo == u;
        }
        if MatchesPubkey(u, key) && exists i :: 0 <= i < |inputs| && inputs[i].utxo == u {
          var i :| 0 <= i < |inputs| && inputs[i].utxo == u;
          if i < |init| {
            assert init[i].utxo == u;
          }
        }
      }
    }
  }

  /** The own outputs are exactly the outputs whose UTXO matches the key. */
  lemma {:induction false} OwnOutputsFilter(outputs: seq<(Utxo, Digest)>, key: PublicKey)
    ensures forall o :: o in OwnOutputs(outputs, key) <==> MatchesPubkey(o.0, key) && o in outputs
  {
    if outputs != [] {
      var init := outputs[..|outputs| - 1];
      OwnOutputsFilter(init, key);
      assert outputs == init + [outputs[|outputs| - 1]];
    }
  }

  // ===========================================================================
  // Balance updates and received UTXOs

  /** One `NonNegative` balance update per own input, as the block update records them. */
  function InputBalanceUpdates(own: seq<Utxo>, s: Stamp): (r: seq<BalanceUpdate>)
  {
    seq(|own|, k requires 0 <= k < |own| => BalanceUpdate(s.0, s.1, own[k].amount, NonNegative))
  }

  /** One `Negative` balance update per own output, as the block update records them. */
  function OutputBalanceUpdates(own: seq<(Utxo, Digest)>, s: Stamp): (r: seq<BalanceUpdate>)
  {
    seq(|own|, k requires 0 <= k < |own| => BalanceUpdate(s.0, s.1, own[k].0.amount, Negative))
  }

  function BlockBalanceUpdates(b: WalletBlock, key: PublicKey): (r: seq<BalanceUpdate>)
  {
    InputBalanceUpdates(OwnInputUtxos(b.transaction.inputs, key), BlockStamp(b))
      + OutputBalanceUpdates(OwnOutputs(b.transaction.outputs, key), BlockStamp(b))
  }

  /** The balance updates of a block record each own input and each own output once, with its amount. */
  lemma BlockBalanceUpdatesShape(b: WalletBlock, key: PublicKey)
    ensures var ins := OwnInputUtxos(b.transaction.inputs, key);
      var outs := OwnOutputs(b.transaction.outputs, key);
      var us := BlockBalanceUpdates(b, key);
      && |us| == |ins| + |outs|
      && (forall k :: 0 <= k < |us| ==> us[k].block == b.hash && us[k].timestamp == b.timestamp)
      && (forall k :: 0 <= k < |ins| ==> us[k].amount == ins[k].amount && us[k].sign == NonNegative)
      && (forall k :: 0 <= k < |outs| ==> us[|ins| + k].amount == outs[k].0.amount && us[|ins| + k].sign == Negative)
  {
  }

  /** A received UTXO: newly monitored and confirmed in the block with stamp `s`. */
  function Confirmed(utxo: Utxo, numberOfMpsPerUtxo: nat, s: Stamp): (m: MonitoredUtxo)
    ensures m.utxo == utxo && m.confirmedInBlock == Some(s) && m.spentInBlock.None?
    ensures m.blockhashToMembershipProof == []
  {
    NewMonitoredUtxo(utxo, numberOfMpsPerUtxo).(confirmedInBlock := Some(s))
  }

  function Received(own: seq<(Utxo, Digest)>, numberOfMpsPerUtxo: nat, s: Stamp): (r: seq<MonitoredUtxo>)
  {
    seq(|own|, k requires 0 <= k < |own| => Confirmed(own[k].0, numberOfMpsPerUtxo, s))
  }

  // ===========================================================================
  // Index lists

  predicate StrictlyIncreasing(s: seq<nat>)
  {
    forall a, b :: 0 <= a < b < |s| ==> s[a] < s[b]
  }

  /** The positions of the monitored UTXOs whose hash is `digest`, ascending. */
  function MatchingIndices(ms: seq<MonitoredUtxo>, digest: Digest, utxoHash: Utxo -> Digest): (r: seq<nat>)
    ensures StrictlyIncreasing(r)
    ensures forall k :: 0 <= k < |r| ==> r[k] < |ms| && utxoHash(ms[r[k]].utxo) == digest
    ensures forall j :: 0 <= j < |ms| && utxoHash(ms[j].utxo) == digest ==> j in r
  {
    if ms == [] then []
    else
      var init := MatchingIndices(ms[..|ms| - 1], digest, utxoHash);
      init + (if utxoHash(ms[|ms| - 1].utxo) == digest then [|ms| - 1] else [])
  }

  /** The positions of the monitored UTXOs holding a membership proof for block `d`, ascending. */
  function ValidProofIndices(ms: seq<MonitoredUtxo>, d: Digest): (r: seq<nat>)
    ensures StrictlyIncreasing(r)
    ensures forall k :: 0 <= k < |r| ==> r[k] < |ms| && MembershipProofForBlock(ms[r[k]], d).Some?
    ensures forall j :: 0 <= j < |ms| && MembershipProofForBlock(ms[j], d).Some? ==> j in r
  {
    if ms == [] then []
    else
      var init := ValidProofIndices(ms[..|ms| - 1], d);
      init + (if MembershipProofForBlock(ms[|ms| - 1], d).Some? then [|ms| - 1] else [])
  }

  function IndexRange(from: nat, count: nat): (r: seq<nat>)
    ensures |r| == count && StrictlyIncreasing(r)
    ensures forall k :: 0 <= k < count ==> r[k] == from + k
  {
    seq(count, k requires 0 <= k < count => from + k)
  }

  /**
   * The monitored UTXOs whose membership proofs the block update carries
   * forward: those with a proof for the parent block, then every UTXO received
   * in the block (appended after the `before` existing ones).
   */
  function TrackedIndices(before: seq<MonitoredUtxo>, prev: Digest, received: nat): (r: seq<nat>)
    ensures StrictlyIncreasing(r)
    ensures forall k :: 0 <= k < |r| ==> r[k] < |before| + received
    ensures forall j: nat :: j in r <==>
      (j < |before| && MembershipProofForBlock(before[j], prev).Some?) || (|before| <= j < |before| + received)
  {
    var valid := ValidProofIndices(before, prev);
    var appended := IndexRange(|before|, received);
    var r := valid + appended;
    forall j: nat
      ensures j in r <==>
        (j < |before| && MembershipProofForBlock(before[j], prev).Some?) || (|before| <= j < |before| + received)
    {
      if |before| <= j < |before| + received {
        assert r[|valid| + (j - |before|)] == appended[j - |before|] == j;
      }
      if j in appended {
        var k :| 0 <= k < |appended| && appended[k] == j;
      }
    }
    r
  }

  // ===========================================================================
  // Marking spent UTXOs

  function MarkSpent(m: MonitoredUtxo, s: Stamp): (r: MonitoredUtxo)
  {
    m.(spentInBlock := Some(s))
  }

  /** `after` differs from `before` at most by marking entries spent with stamp `s`. */
  predicate SpendsOnly(before: seq<MonitoredUtxo>, after: seq<MonitoredUtxo>, s: Stamp)
  {
    && |after| == |before|
    && forall j :: 0 <= j < |before| ==> after[j] == before[j] || after[j] == MarkSpent(before[j], s)
  }

  lemma SpendsOnlyTrans(a: seq<MonitoredUtxo>, b: seq<MonitoredUtxo>, c: seq<MonitoredUtxo>, s: Stamp)
    requires SpendsOnly(a, b, s) && SpendsOnly(b, c, s)
    ensures SpendsOnly(a, c, s)
  {
  }

  /** The newest membership proof of `m` exists and carries cached Bloom-filter indices. */
  predicate HasCachedIndices(m: MonitoredUtxo)
  {
    LatestMembershipProofEntry(m).Some? && LatestMembershipProofEntry(m).value.1.cachedIndices.Some?
  }

  /** The cached indices of `m`'s newest proof, sorted, equal the sorted removal-record indices. */
  predicate CachedMatch(m: MonitoredUtxo, recordIndices: seq<nat>)
  {
    HasCachedIndices(m) && multiset(LatestMembershipProofEntry(m).value.1.cachedIndices.value) == multiset(recordIndices)
  }

  /**
   * The scan over `candidates` gets past its first `k` entries: each has
   * cached indices, and none of them matches.
   */
  predicate ScanPasses(ms: seq<MonitoredUtxo>, candidates: seq<nat>, recordIndices: seq<nat>, k: int)
  {
    && 0 <= k <= |candidates|
    && forall k' :: 0 <= k' < k ==> candidates[k'] < |ms| && HasCachedIndices(ms[candidates[k']])
                                     && !CachedMatch(ms[candidates[k']], recordIndices)
  }

  /** Passing over the first candidate, the scan of `candidates` goes on as the scan of `candidates[1..]`. */
  lemma ScanAfterHead(ms: seq<MonitoredUtxo>, candidates: seq<nat>, recordIndices: seq<nat>)
    requires candidates != []
    requires forall k :: 0 <= k < |candidates| ==> candidates[k] < |ms|
    requires HasCachedIndices(ms[candidates[0]]) && !CachedMatch(ms[candidates[0]], recordIndices)
    ensures forall k :: 0 <= k < |candidates| ==>
      (ScanPasses(ms, candidates, recordIndices, k + 1) <==> ScanPasses(ms, candidates[1..], recordIndices, k))
  {
    var rest := candidates[1..];
    forall k | 0 <= k < |candidates|
      ensures ScanPasses(ms, candidates, recordIndices, k + 1) <==> ScanPasses(ms, rest, recordIndices, k)
    {
      if ScanPasses(ms, candidates, recordIndices, k + 1) {
        forall k' | 0 <= k' < k
          ensures rest[k'] < |ms| && HasCachedIndices(ms[rest[k']]) && !CachedMatch(ms[rest[k']], recordIndices)
        {
          assert rest[k'] == candidates[k' + 1];
        }
      }
      if ScanPasses(ms, rest, recordIndices, k) {
        forall k' | 0 <= k' < k + 1
          ensures candidates[k'] < |ms| && HasCachedIndices(ms[candidates[k']])
                  && !CachedMatch(ms[candidates[k']], recordIndices)
        {
          if k' > 0 {
            assert candidates[k'] == rest[k' - 1];
          }
        }
      }
    }
  }

  /**
   * Several monitored UTXOs share the input's hash: mark the first candidate
   * whose newest membership proof caches the removal record's indices (as a
   * multiset: both lists are sorted before comparing).  Reaching a candidate
   * without a proof or without cached indices is a panic; when no candidate
   * matches, nothing is marked.
   */
  function SpendAmongMatches(ms: seq<MonitoredUtxo>, candidates: seq<nat>, recordIndices: seq<nat>, s: Stamp)
    : (r: Result<seq<MonitoredUtxo>>)
    requires forall k :: 0 <= k < |candidates| ==> candidates[k] < |ms|
    ensures r.Ok? ==> SpendsOnly(ms, r.value, s)
    ensures r.Ok? ==> forall j :: 0 <= j < |ms| && j !in candidates ==> r.value[j] == ms[j]
  {
    if candidates == [] then Ok(ms)
    else
      var c := candidates[0];
      match LatestMembershipProofEntry(ms[c])
      case None =>
        Err("Unable to mark monitored UTXO as spent, as I don't know which one to mark")
      case Some(entry) =>
        match entry.1.cachedIndices
        case None =>
          Err("Unable to mark monitored UTXO as spent, as I don't know which one to mark")
        case Some(indices) =>
          if multiset(indices) == multiset(recordIndices) then
            Ok(ms[c := MarkSpent(ms[c], s)])
          else
            var rest := SpendAmongMatches(ms, candidates[1..], recordIndices, s);
            assert forall j :: 0 <= j < |ms| && j !in candidates[1..] && j != c ==> j !in candidates;
            rest
  }

  /**
   * The outcome of the scan over several candidates, case by case: it marks
   * the first candidate that matches, panics at the first candidate without
   * cached indices that it reaches, and otherwise changes nothing.
   */
  lemma {:induction false} SpendAmongMatchesOutcome(ms: seq<MonitoredUtxo>, candidates: seq<nat>,
                                                    recordIndices: seq<nat>, s: Stamp)
    requires forall k :: 0 <= k < |candidates| ==> candidates[k] < |ms|
    ensures var r := SpendAmongMatches(ms, candidates, recordIndices, s);
      // the scan passes every candidate: nothing changes
      && (ScanPasses(ms, candidates, recordIndices, |candidates|) ==> r == Ok(ms))
      // the scan stops at the first matching candidate and marks it
      && (forall k :: ScanPasses(ms, candidates, recordIndices, k) && k < |candidates|
                      && CachedMatch(ms[candidates[k]], recordIndices)
                      ==> r == Ok(ms[candidates[k] := MarkSpent(ms[candidates[k]], s)]))
      // the scan panics at a candidate without cached indices, and only there
      && (r.Err? <==> exists k :: ScanPasses(ms, candidates, recordIndices, k) && k < |candidates|
                                  && !HasCachedIndices(ms[candidates[k]]))
  {
    var r := SpendAmongMatches(ms, candidates, recordIndices, s);
    if candidates == [] {
      return;
    }
    var c := candidates[0];
    assert ScanPasses(ms, candidates, recordIndices, 0);
    if !HasCachedIndices(ms[c]) {
      assert r.Err?;
      assert !ScanPasses(ms, candidates, recordIndices, |candidates|);
    } else if CachedMatch(ms[c], recordIndices) {
      assert r == Ok(ms[c := MarkSpent(ms[c], s)]);
    } else {
      var rest := candidates[1..];
      assert r == SpendAmongMatches(ms, rest, recordIndices, s);
      SpendAmongMatchesOutcome(ms, rest, recordIndices, s);
      ScanAfterHead(ms, candidates, recordIndices);
      forall k | ScanPasses(ms, candidates, recordIndices, k) && k < |candidates|
        ensures k == 0 || (ScanPasses(ms, rest, recordIndices, k - 1) && rest[k - 1] == candidates[k])
      {
        if k > 0 {
          assert ScanPasses(ms, candidates, recordIndices, (k - 1) + 1);
        }
      }
      if r.Err? {
        var k :| ScanPasses(ms, rest, recordIndices, k) && k < |rest| && !HasCachedIndices(ms[rest[k]]);
        assert ScanPasses(ms, candidates, recordIndices, k + 1) && candidates[k + 1] == rest[k];
      }
      assert ScanPasses(ms, candidates, recordIndices, |candidates|)
         ==> ScanPasses(ms, rest, recordIndices, |rest|);
    }
  }

  /** The handling of one own input: find the monitored UTXOs with its hash and mark one spent. */
  function SpendOwnInput(ms: seq<MonitoredUtxo>, input: Utxo, record: RemovalRecord, s: Stamp,
                         utxoHash: Utxo -> Digest): (r: Result<seq<MonitoredUtxo>>)
    ensures r.Ok? ==> SpendsOnly(ms, r.value, s)
    ensures MatchingIndices(ms, utxoHash(input), utxoHash) == [] ==> r.Err?
  {
    var matching := MatchingIndices(ms, utxoHash(input), utxoHash);
    if |matching| == 0 then Err("Discovered own input UTXO in block that did not match a monitored UTXO")
    else if |matching| == 1 then Ok(ms[matching[0] := MarkSpent(ms[matching[0]], s)])
    else SpendAmongMatches(ms, matching, record.absoluteIndices, s)
  }

  /**
   * The removal loop from record `i` on: record `i` goes with transaction
   * input `i`, and only own inputs are looked up.  A record without a
   * matching input index is an out-of-bounds panic.
   */
  function SpendFrom(ms: seq<MonitoredUtxo>, b: WalletBlock, key: PublicKey, utxoHash: Utxo -> Digest, i: nat)
    : (r: Result<seq<MonitoredUtxo>>)
    ensures r.Ok? ==> SpendsOnly(ms, r.value, BlockStamp(b))
    decreases |b.removals| - i
  {
    if i >= |b.removals| then Ok(ms)
    else if i >= |b.transaction.inputs| then Err("index out of bounds: the removal record has no transaction input")
    else
      var input := b.transaction.inputs[i].utxo;
      if !MatchesPubkey(input, key) then SpendFrom(ms, b, key, utxoHash, i + 1)
      else
        match SpendOwnInput(ms, input, b.removals[i], BlockStamp(b), utxoHash)
        case Err(e) => Err(e)
        case Ok(ms') =>
          var r := SpendFrom(ms', b, key, utxoHash, i + 1);
          if r.Ok? then SpendsOnlyTrans(ms, ms', r.value, BlockStamp(b)); r else r
  }

  /** Marking UTXOs spent leaves their hashes, so which indices match an input does not change. */
  lemma SpendsOnlyKeepsMatches(ms: seq<MonitoredUtxo>, ms': seq<MonitoredUtxo>, s: Stamp,
                               digest: Digest, utxoHash: Utxo -> Digest)
    requires SpendsOnly(ms, ms', s)
    ensures MatchingIndices(ms', digest, utxoHash) == MatchingIndices(ms, digest, utxoHash)
    decreases |ms|
  {
    if ms != [] {
      SpendsOnlyKeepsMatches(ms[..|ms| - 1], ms'[..|ms'| - 1], s, digest, utxoHash);
    }
  }

  /** A block with more removal records than transaction inputs always fails. */
  lemma {:induction false} SpendFromTooFewInputs(ms: seq<MonitoredUtxo>, b: WalletBlock, key: PublicKey,
                                                 utxoHash: Utxo -> Digest, i: nat)
    requires |b.transaction.inputs| < |b.removals|
    requires i <= |b.transaction.inputs|
    ensures SpendFrom(ms, b, key, utxoHash, i).Err?
    decreases |b.removals| - i
  {
    if i < |b.removals| && i < |b.transaction.inputs| {
      var input := b.transaction.inputs[i].utxo;
      if !MatchesPubkey(input, key) {
        SpendFromTooFewInputs(ms, b, key, utxoHash, i + 1);
      } else {
        var step := SpendOwnInput(ms, input, b.removals[i], BlockStamp(b), utxoHash);
        if step.Ok? {
          SpendFromTooFewInputs(step.value, b, key, utxoHash, i + 1);
        }
      }
    }
  }

  /**
   * When every own input (from record `i` on) matches exactly one monitored
   * UTXO and there are enough inputs, the removal loop cannot fail.
   */
  lemma {:induction false} SpendFromSucceeds(ms: seq<MonitoredUtxo>, b: WalletBlock, key: PublicKey,
                                             utxoHash: Utxo -> Digest, i: nat)
    requires |b.removals| <= |b.transaction.inputs|
    requires forall k :: i <= k < |b.removals| && MatchesPubkey(b.transaction.inputs[k].utxo, key) ==>
      |MatchingIndices(ms, utxoHash(b.transaction.inputs[k].utxo), utxoHash)| == 1
    ensures SpendFrom(ms, b, key, utxoHash, i).Ok?
    decreases |b.removals| - i
  {
    if i < |b.removals| {
      var input := b.transaction.inputs[i].utxo;
      if !MatchesPubkey(input, key) {
        SpendFromSucceeds(ms, b, key, utxoHash, i + 1);
      } else {
        var ms' := SpendOwnInput(ms, input, b.removals[i], BlockStamp(b), utxoHash).value;
        forall k | i < k < |b.removals| && MatchesPubkey(b.transaction.inputs[k].utxo, key)
          ensures |MatchingIndices(ms', utxoHash(b.transaction.inputs[k].utxo), utxoHash)| == 1
        {
          SpendsOnlyKeepsMatches(ms, ms', BlockStamp(b), utxoHash(b.transaction.inputs[k].utxo), utxoHash);
        }
        SpendFromSucceeds(ms', b, key, utxoHash, i + 1);
      }
    }
  }

  /**
   * An own input at record `i` whose hash matches exactly one monitored UTXO
   * `j` leaves `j` marked spent in this block once the loop has finished.
   */
  lemma {:induction false} UniqueOwnInputIsSpent(ms: seq<MonitoredUtxo>, b: WalletBlock, key: PublicKey,
                                                 utxoHash: Utxo -> Digest, start: nat, i: nat, j: nat)
    requires start <= i < |b.removals| && i < |b.transaction.inputs|
    requires MatchesPubkey(b.transaction.inputs[i].utxo, key)
    requires MatchingIndices(ms, utxoHash(b.transaction.inputs[i].utxo), utxoHash) == [j]
    requires SpendFrom(ms, b, key, utxoHash, start).Ok?
    ensures j < |ms|
    ensures SpendFrom(ms, b, key, utxoHash, start).value[j].spentInBlock == Some(BlockStamp(b))
    decreases i - start
  {
    var input := b.transaction.inputs[start].utxo;
    if !MatchesPubkey(input, key) {
      UniqueOwnInputIsSpent(ms, b, key, utxoHash, start + 1, i, j);
    } else {
      var ms' := SpendOwnInput(ms, input, b.removals[start], BlockStamp(b), utxoHash).value;
      var final := SpendFrom(ms', b, key, utxoHash, start + 1).value;
      if start == i {
        assert ms'[j].spentInBlock == Some(BlockStamp(b));
        assert SpendsOnly(ms', final, BlockStamp(b));
      } else {
        SpendsOnlyKeepsMatches(ms, ms', BlockStamp(b), utxoHash(b.transaction.inputs[i].utxo), utxoHash);
        UniqueOwnInputIsSpent(ms', b, key, utxoHash, start + 1, i, j);
      }
    }
  }

  /** Ascending order, as `sort_unstable` leaves a list. */
  predicate SortedAscending(s: seq<nat>)
  {
    forall a, b :: 0 <= a < b < |s| ==> s[a] <= s[b]
  }

  lemma SortedHeadIsLeast(s: seq<nat>, v: nat)
    requires SortedAscending(s) && v in s
    ensures s[0] <= v
  {
    var k :| 0 <= k < |s| && s[k] == v;
    if k > 0 {
      assert s[0] <= s[k];
    }
  }

  /** Sorted lists are equal exactly when they hold the same elements with the same multiplicities. */
  lemma {:induction false} SortedEqualIffSameMultiset(x: seq<nat>, y: seq<nat>)
    requires SortedAscending(x) && SortedAscending(y)
    ensures x == y <==> multiset(x) == multiset(y)
  {
    if multiset(x) == multiset(y) && x != [] {
      assert |y| == |x|;
      assert x[0] in multiset(y) && y[0] in multiset(x);
      SortedHeadIsLeast(y, x[0]);
      SortedHeadIsLeast(x, y[0]);
      assert x[0] == y[0];
      assert x == [x[0]] + x[1..] && y == [y[0]] + y[1..];
      assert multiset(x) == multiset{x[0]} + multiset(x[1..]);
      assert multiset(y) == multiset{x[0]} + multiset(y[1..]);
      assert multiset(x[1..]) == multiset(x) - multiset{x[0]};
      assert multiset(y[1..]) == multiset(y) - multiset{y[0]};
      SortedEqualIffSameMultiset(x[1..], y[1..]);
      assert x[1..] == y[1..];
    }
  }

  // ===========================================================================
  // Membership proofs for the new tip

  /** `add_membership_proof_for_tip`: the proof for the new tip becomes the newest entry. */
  function WithTipProof(m: MonitoredUtxo, hash: Digest, mp: MsMembershipProof): (r: MonitoredUtxo)
    ensures MembershipProofForBlock(r, hash) == Some(mp)
    ensures LatestMembershipProofEntry(r) == Some((hash, mp))
  {
    m.(blockhashToMembershipProof := [(hash, mp)] + m.blockhashToMembershipProof)
  }

  function AddTipProofs(ms: seq<MonitoredUtxo>, indices: seq<nat>, hash: Digest, proofs: nat -> MsMembershipProof)
    : (r: seq<MonitoredUtxo>)
    requires forall k :: 0 <= k < |indices| ==> indices[k] < |ms|
    ensures |r| == |ms|
  {
    if indices == [] then ms
    else
      var j := indices[|indices| - 1];
      var r0 := AddTipProofs(ms, indices[..|indices| - 1], hash, proofs);
      r0[j := WithTipProof(r0[j], hash, proofs(j))]
  }

  /** With distinct indices, each listed entry gets exactly its own tip proof and the rest stay. */
  lemma {:induction false} AddTipProofsEffect(ms: seq<MonitoredUtxo>, indices: seq<nat>, hash: Digest,
                                              proofs: nat -> MsMembershipProof)
    requires forall k :: 0 <= k < |indices| ==> indices[k] < |ms|
    requires StrictlyIncreasing(indices)
    ensures forall j :: 0 <= j < |ms| ==>
      AddTipProofs(ms, indices, hash, proofs)[j] == if j in indices then WithTipProof(ms[j], hash, proofs(j)) else ms[j]
  {
    if indices != [] {
      var init := indices[..|indices| - 1];
      AddTipProofsEffect(ms, init, hash, proofs);
      var last := indices[|indices| - 1];
      assert last !in init;
      assert forall j :: j in indices <==> j in init || j == last;
    }
  }

  // ===========================================================================
  // The bookkeeping of a new block

  /**
   * The monitored UTXOs after the bookkeeping of `update_wallet_state_with_new_block`:
   * own outputs are appended as received, own inputs are marked spent, and
   * every tracked UTXO gets its updated proof (`proofs`, indexed by position)
   * for the new block.  Additions and outputs are zipped and must agree in
   * number.
   */
  function ApplyBlock(ms: seq<MonitoredUtxo>, b: WalletBlock, key: PublicKey, numberOfMpsPerUtxo: nat,
                      utxoHash: Utxo -> Digest, proofs: nat -> MsMembershipProof): (r: Result<seq<MonitoredUtxo>>)
    ensures |b.additions| != |b.transaction.outputs| ==> r.Err?
    ensures r.Ok? ==> |r.value| == |ms| + |OwnOutputs(b.transaction.outputs, key)|
  {
    if |b.additions| != |b.transaction.outputs| then Err("zip_eq: additions and outputs differ in number")
    else
      var received := Received(OwnOutputs(b.transaction.outputs, key), numberOfMpsPerUtxo, BlockStamp(b));
      match SpendFrom(ms + received, b, key, utxoHash, 0)
      case Err(e) => Err(e)
      case Ok(spent) => Ok(AddTipProofs(spent, TrackedIndices(ms, b.prevBlockDigest, |received|), b.hash, proofs))
  }

  /**
   * What a successful block update does to the monitored UTXOs: the received
   * ones are appended, nothing is removed or reordered, UTXOs and confirmations
   * are kept, the only change of `spentInBlock` is to this block, and exactly
   * the tracked UTXOs get a proof for the new block, which then is synced.
   */
  lemma ApplyBlockEffect(ms: seq<MonitoredUtxo>, b: WalletBlock, key: PublicKey, numberOfMpsPerUtxo: nat,
                         utxoHash: Utxo -> Digest, proofs: nat -> MsMembershipProof)
    requires ApplyBlock(ms, b, key, numberOfMpsPerUtxo, utxoHash, proofs).Ok?
    ensures var after := ApplyBlock(ms, b, key, numberOfMpsPerUtxo, utxoHash, proofs).value;
      var own := OwnOutputs(b.transaction.outputs, key);
      var grown := ms + Received(own, numberOfMpsPerUtxo, BlockStamp(b));
      && |after| == |ms| + |own|
      && (forall j :: 0 <= j < |after| ==>
            && after[j].utxo == grown[j].utxo
            && after[j].confirmedInBlock == grown[j].confirmedInBlock
            && (after[j].spentInBlock == grown[j].spentInBlock || after[j].spentInBlock == Some(BlockStamp(b)))
            && after[j].blockhashToMembershipProof ==
                 if j >= |ms| || MembershipProofForBlock(ms[j], b.prevBlockDigest).Some?
                 then [(b.hash, proofs(j))] + grown[j].blockhashToMembershipProof
                 else grown[j].blockhashToMembershipProof)
      && (forall k :: 0 <= k < |own| ==>
            after[|ms| + k].utxo == own[k].0 && after[|ms| + k].confirmedInBlock == Some(BlockStamp(b)))
  {
    var own := OwnOutputs(b.transaction.outputs, key);
    var received := Received(own, numberOfMpsPerUtxo, BlockStamp(b));
    var grown := ms + received;
    var stamp := BlockStamp(b);
    var spent := SpendFrom(grown, b, key, utxoHash, 0).value;
    assert SpendsOnly(grown, spent, stamp);
    var tracked := TrackedIndices(ms, b.prevBlockDigest, |received|);
    AddTipProofsEffect(spent, tracked, b.hash, proofs);
    var after := AddTipProofs(spent, tracked, b.hash, proofs);
    assert after == ApplyBlock(ms, b, key, numberOfMpsPerUtxo, utxoHash, proofs).value;
    forall j | 0 <= j < |after|
      ensures after[j].utxo == grown[j].utxo
      ensures after[j].confirmedInBlock == grown[j].confirmedInBlock
      ensures after[j].spentInBlock == grown[j].spentInBlock || after[j].spentInBlock == Some(stamp)
      ensures after[j].blockhashToMembershipProof ==
        if j >= |ms| || MembershipProofForBlock(ms[j], b.prevBlockDigest).Some?
        then [(b.hash, proofs(j))] + grown[j].blockhashToMembershipProof
        else grown[j].blockhashToMembershipProof
    {
      assert spent[j] == grown[j] || spent[j] == MarkSpent(grown[j], stamp);
      assert j in tracked <==> j >= |ms| || MembershipProofForBlock(ms[j], b.prevBlockDigest).Some?;
    }
    forall k | 0 <= k < |own|
      ensures after[|ms| + k].utxo == own[k].0 && after[|ms| + k].confirmedInBlock == Some(stamp)
    {
      assert grown[|ms| + k] == received[k];
    }
  }

  /** After a successful block update, every tracked UTXO is synced to the new block. */
  lemma ApplyBlockSyncsTracked(ms: seq<MonitoredUtxo>, b: WalletBlock, key: PublicKey, numberOfMpsPerUtxo: nat,
                               utxoHash: Utxo -> Digest, proofs: nat -> MsMembershipProof, j: nat)
    requires ApplyBlock(ms, b, key, numberOfMpsPerUtxo, utxoHash, proofs).Ok?
    requires j < |ApplyBlock(ms, b, key, numberOfMpsPerUtxo, utxoHash, proofs).value|
    requires j >= |ms| || MembershipProofForBlock(ms[j], b.prevBlockDigest).Some?
    ensures MembershipProofForBlock(ApplyBlock(ms, b, key, numberOfMpsPerUtxo, utxoHash, proofs).value[j], b.hash)
         == Some(proofs(j))
  {
    ApplyBlockEffect(ms, b, key, numberOfMpsPerUtxo, utxoHash, proofs);
  }

  // ===========================================================================
  // Balance and wallet status

  /** The sum of the amounts of the unspent monitored UTXOs. */
  function UnspentAmount(ms: seq<MonitoredUtxo>): (r: nat)
    ensures forall j :: 0 <= j < |ms| && ms[j].spentInBlock.None? ==> ms[j].utxo.amount <= r
    ensures (forall j :: 0 <= j < |ms| ==> ms[j].spentInBlock.Some?) ==> r == 0
  {
    if ms == [] then 0
    else
      var last := ms[|ms| - 1];
      UnspentAmount(ms[..|ms| - 1]) + (if last.spentInBlock.None? then last.utxo.amount else 0)
  }

  /** The sum of the amounts of a list of outputs. */
  function OutputsAmount(own: seq<(Utxo, Digest)>): (r: nat)
  {
    if own == [] then 0 else OutputsAmount(own[..|own| - 1]) + own[|own| - 1].0.amount
  }

  /** The received UTXOs are unspent, so together they are worth exactly the outputs' amounts. */
  lemma {:induction false} ReceivedAmount(own: seq<(Utxo, Digest)>, numberOfMpsPerUtxo: nat, s: Stamp)
    ensures UnspentAmount(Received(own, numberOfMpsPerUtxo, s)) == OutputsAmount(own)
  {
    if own != [] {
      var init := own[..|own| - 1];
      var rs := Received(own, numberOfMpsPerUtxo, s);
      assert rs[..|rs| - 1] == Received(init, numberOfMpsPerUtxo, s);
      ReceivedAmount(init, numberOfMpsPerUtxo, s);
    }
  }

  /** A received UTXO adds its amount to the balance. */
  lemma {:induction false} UnspentAmountReceived(ms: seq<MonitoredUtxo>, own: seq<(Utxo, Digest)>,
                                                 numberOfMpsPerUtxo: nat, s: Stamp)
    ensures UnspentAmount(ms + Received(own, numberOfMpsPerUtxo, s))
         == UnspentAmount(ms) + UnspentAmount(Received(own, numberOfMpsPerUtxo, s))
    ensures UnspentAmount(ms + Received(own, numberOfMpsPerUtxo, s)) == UnspentAmount(ms) + OutputsAmount(own)
    decreases |own|
  {
    ReceivedAmount(own, numberOfMpsPerUtxo, s);
    var rs := Received(own, numberOfMpsPerUtxo, s);
    if own != [] {
      var init := own[..|own| - 1];
      var rInit := Received(init, numberOfMpsPerUtxo, s);
      assert rs == rInit + [rs[|rs| - 1]];
      assert (ms + rs)[..|ms + rs| - 1] == ms + rInit;
      assert rs[..|rs| - 1] == rInit;
      UnspentAmountReceived(ms, init, numberOfMpsPerUtxo, s);
    } else {
      assert ms + rs == ms;
    }
  }

  datatype WalletStatusElement = WalletStatusElement(leafIndex: nat, utxo: Utxo)

  datatype WalletStatus = WalletStatus(
    syncedUnspentAmount: nat,
    syncedUnspent: seq<(WalletStatusElement, MsMembershipProof)>,
    unsyncedUnspentAmount: nat,
    unsyncedUnspent: seq<WalletStatusElement>,
    syncedSpentAmount: nat,
    syncedSpent: seq<WalletStatusElement>,
    unsyncedSpentAmount: nat,
    unsyncedSpent: seq<WalletStatusElement>)

  /** Every monitored UTXO holds at least one membership proof. */
  predicate HasProofs(ms: seq<MonitoredUtxo>)
  {
    forall i :: 0 <= i < |ms| ==> ms[i].blockhashToMembershipProof != []
  }

  datatype Bucket = SyncedUnspent | UnsyncedUnspent | SyncedSpent | UnsyncedSpent

  /** Synced means holding a proof for block `d`; spent means having a `spentInBlock`. */
  function BucketOf(m: MonitoredUtxo, d: Digest): (r: Bucket)
  {
    if MembershipProofForBlock(m, d).Some? then
      if m.spentInBlock.Some? then SyncedSpent else SyncedUnspent
    else
      if m.spentInBlock.Some? then UnsyncedSpent else UnsyncedUnspent
  }

  /** The proof a status entry reports: the one for block `d`, else the first stored one. */
  function StatusProof(m: MonitoredUtxo, d: Digest): (r: MsMembershipProof)
    requires m.blockhashToMembershipProof != []
  {
    match MembershipProofForBlock(m, d)
    case Some(mp) => mp
    case None => m.blockhashToMembershipProof[0].1
  }

  function StatusElement(m: MonitoredUtxo, d: Digest): (r: WalletStatusElement)
    requires m.blockhashToMembershipProof != []
  {
    WalletStatusElement(StatusProof(m, d).leafIndex, m.utxo)
  }

  /** The status elements of one bucket, in the order of the monitored UTXOs. */
  function ElementsIn(ms: seq<MonitoredUtxo>, d: Digest, bucket: Bucket): (r: seq<WalletStatusElement>)
    requires HasProofs(ms)
  {
    if ms == [] then []
    else
      var last := ms[|ms| - 1];
      ElementsIn(ms[..|ms| - 1], d, bucket) + (if BucketOf(last, d) == bucket then [StatusElement(last, d)] else [])
  }

  /** The synced unspent bucket, each element with its proof for block `d`. */
  function SyncedUnspentEntries(ms: seq<MonitoredUtxo>, d: Digest): (r: seq<(WalletStatusElement, MsMembershipProof)>)
    requires HasProofs(ms)
  {
    if ms == [] then []
    else
      var last := ms[|ms| - 1];
      SyncedUnspentEntries(ms[..|ms| - 1], d)
        + (if BucketOf(last, d) == SyncedUnspent then [(StatusElement(last, d), StatusProof(last, d))] else [])
  }

  function ElementsAmount(es: seq<WalletStatusElement>): (r: nat)
  {
    if es == [] then 0 else ElementsAmount(es[..|es| - 1]) + es[|es| - 1].utxo.amount
  }

  function EntriesAmount(es: seq<(WalletStatusElement, MsMembershipProof)>): (r: nat)
  {
    if es == [] then 0 else EntriesAmount(es[..|es| - 1]) + es[|es| - 1].0.utxo.amount
  }

  /**
   * The four buckets partition the monitored UTXOs, and the two unspent
   * buckets together hold exactly the balance.
   */
  lemma {:induction false} StatusPartition(ms: seq<MonitoredUtxo>, d: Digest)
    requires HasProofs(ms)
    ensures |SyncedUnspentEntries(ms, d)| + |ElementsIn(ms, d, UnsyncedUnspent)|
          + |ElementsIn(ms, d, SyncedSpent)| + |ElementsIn(ms, d, UnsyncedSpent)| == |ms|
    ensures EntriesAmount(SyncedUnspentEntries(ms, d)) + ElementsAmount(ElementsIn(ms, d, UnsyncedUnspent))
         == UnspentAmount(ms)
  {
    if ms != [] {
      var init := ms[..|ms| - 1];
      StatusPartition(init, d);
      var last := ms[|ms| - 1];
      var su := SyncedUnspentEntries(ms, d);
      var uu := ElementsIn(ms, d, UnsyncedUnspent);
      if BucketOf(last, d) == SyncedUnspent {
        assert su[..|su| - 1] == SyncedUnspentEntries(init, d);
        assert uu == ElementsIn(init, d, UnsyncedUnspent);
      } else if BucketOf(last, d) == UnsyncedUnspent {
        assert su == SyncedUnspentEntries(init, d);
        assert uu[..|uu| - 1] == ElementsIn(init, d, UnsyncedUnspent);
      } else {
        assert su == SyncedUnspentEntries(init, d);
        assert uu == ElementsIn(init, d, UnsyncedUnspent);
      }
    }
  }

  /**
   * `get_wallet_status_from_lock` on the monitored UTXOs, for the block with
   * digest `d`: every monitored UTXO lands in exactly one of the four
   * buckets, and the two unspent buckets together hold the balance.
   */
  function StatusOf(ms: seq<MonitoredUtxo>, d: Digest): (r: WalletStatus)
    requires HasProofs(ms)
    ensures |r.syncedUnspent| + |r.unsyncedUnspent| + |r.syncedSpent| + |r.unsyncedSpent| == |ms|
    ensures r.syncedUnspentAmount + r.unsyncedUnspentAmount == UnspentAmount(ms)
  {
    StatusPartition(ms, d);
    var su := SyncedUnspentEntries(ms, d);
    var uu := ElementsIn(ms, d, UnsyncedUnspent);
    var ss := ElementsIn(ms, d, SyncedSpent);
    var us := ElementsIn(ms, d, UnsyncedSpent);
    WalletStatus(EntriesAmount(su), su, ElementsAmount(uu), uu, ElementsAmount(ss), ss, ElementsAmount(us), us)
  }

  lemma EntriesAmountStep(entries: seq<(WalletStatusElement, MsMembershipProof)>, n: nat)
    requires n < |entries|
    ensures EntriesAmount(entries[..n + 1]) == EntriesAmount(entries[..n]) + entries[n].0.utxo.amount
  {
    assert entries[..n + 1][..n] == entries[..n];
  }

  /** The inputs handed out for the first `k` synced unspent entries. */
  function Allocation(entries: seq<(WalletStatusElement, MsMembershipProof)>): (r: seq<(Utxo, MsMembershipProof)>)
  {
    seq(|entries|, k requires 0 <= k < |entries| => (entries[k].0.utxo, entries[k].1))
  }

  /** The first `k` entries cover `requested`, and no shorter prefix does. */
  predicate IsShortestCover(entries: seq<(WalletStatusElement, MsMembershipProof)>, requested: nat, k: nat)
  {
    && k <= |entries|
    && EntriesAmount(entries[..k]) >= requested
    && forall j :: 0 <= j < k ==> EntriesAmount(entries[..j]) < requested
  }

  /**
   * The selection loop of `allocate_sufficient_input_funds_from_lock`: take
   * entries in order until their amounts reach `requested`.
   */
  method TakeUntilCovered(entries: seq<(WalletStatusElement, MsMembershipProof)>, requested: nat)
    returns (ret: seq<(Utxo, MsMembershipProof)>)
    requires EntriesAmount(entries) >= requested
    ensures IsShortestCover(entries, requested, |ret|)
    ensures ret == Allocation(entries[..|ret|])
  {
    ret := [];
    var allocatedAmount := 0;
    while allocatedAmount < requested
      invariant |ret| <= |entries|
      invariant allocatedAmount == EntriesAmount(entries[..|ret|])
      invariant ret == Allocation(entries[..|ret|])
      invariant forall j :: 0 <= j < |ret| ==> EntriesAmount(entries[..j]) < requested
      decreases |entries| - |ret|
    {
      assert entries[..|entries|] == entries;
      var n := |ret|;
      var next := entries[n];
      EntriesAmountStep(entries, n);
      assert Allocation(entries[..n + 1]) == Allocation(entries[..n]) + [(next.0.utxo, next.1)];
      allocatedAmount := allocatedAmount + next.0.utxo.amount;
      ret := ret + [(next.0.utxo, next.1)];
    }
  }

  // ===========================================================================
  // Counter and randomness

  /** The counter as a digest: `BFieldElement::new(counter)` first, then zeros. */
  function CounterAsDigest(counter: U64): (d: Digest)
    ensures |d.elements| == DIGEST_LENGTH
    ensures d.elements[0] == counter % P
    ensures forall i :: 1 <= i < DIGEST_LENGTH ==> d.elements[i] == 0
  {
    Digest([counter % P] + seq(DIGEST_LENGTH - 1, _ => 0))
  }

  /** Counters below P yield distinct digests, so distinct draws hash distinct pairs. */
  lemma CounterAsDigestInjective(a: U64, b: U64)
    requires a < P && b < P && a != b
    ensures CounterAsDigest(a) != CounterAsDigest(b)
  {
    assert CounterAsDigest(a).elements[0] != CounterAsDigest(b).elements[0];
  }

  // ===========================================================================
  // Helpers of the removal loop, on the database

  /** The scan for monitored UTXOs whose hash equals the input's. */
  method MatchingUtxoIndices(lock: RustyWalletDatabase, digest: Digest, utxoHash: Utxo -> Digest)
    returns (indices: seq<nat>)
    ensures indices == MatchingIndices(lock.monitoredUtxos, digest, utxoHash)
  {
    indices := [];
    var j := 0;
    while j < |lock.monitoredUtxos|
      invariant 0 <= j <= |lock.monitoredUtxos|
      invariant indices == MatchingIndices(lock.monitoredUtxos[..j], digest, utxoHash)
    {
      assert lock.monitoredUtxos[..j + 1][..j] == lock.monitoredUtxos[..j];
      if utxoHash(lock.monitoredUtxos[j].utxo) == digest {
        indices := indices + [j];
      }
      j := j + 1;
    }
    assert lock.monitoredUtxos[..j] == lock.monitoredUtxos;
  }

  /** The disambiguation loop over several candidates, stopping at the first marked one. */
  method ScanCandidates(lock: RustyWalletDatabase, matching: seq<nat>, recordIndices: seq<nat>, s: Stamp)
    returns (r: Result<()>)
    requires forall k :: 0 <= k < |matching| ==> matching[k] < |lock.monitoredUtxos|
    modifies lock
    ensures var expected := SpendAmongMatches(old(lock.monitoredUtxos), matching, recordIndices, s);
      && (r.Ok? <==> expected.Ok?)
      && (r.Ok? ==> lock.monitoredUtxos == expected.value)
    ensures lock.balanceUpdates == old(lock.balanceUpdates) && lock.syncLabel == old(lock.syncLabel)
    ensures lock.counter == old(lock.counter)
  {
    var k := 0;
    while k < |matching|
      invariant 0 <= k <= |matching|
      invariant lock.monitoredUtxos == old(lock.monitoredUtxos)
      invariant lock.balanceUpdates == old(lock.balanceUpdates) && lock.syncLabel == old(lock.syncLabel)
      invariant lock.counter == old(lock.counter)
      invariant SpendAmongMatches(lock.monitoredUtxos, matching[k..], recordIndices, s)
             == SpendAmongMatches(lock.monitoredUtxos, matching, recordIndices, s)
    {
      assert matching[k..][1..] == matching[k + 1..];
      var c := matching[k];
      var latest := LatestMembershipProofEntry(lock.monitoredUtxos[c]);
      if latest.None? {
        return Err("Unable to mark monitored UTXO as spent, as I don't know which one to mark");
      }
      var cached := latest.value.1.cachedIndices;
      if cached.None? {
        return Err("Unable to mark monitored UTXO as spent, as I don't know which one to mark");
      }
      if multiset(cached.value) == multiset(recordIndices) {
        var mutxo := lock.monitoredUtxos[c];
        lock.SetMonitoredUtxo(c, MarkSpent(mutxo, s));
        return Ok(());
      }
      k := k + 1;
    }
    r := Ok(());
  }

  /**
   * The several-matches case on the database: mark the first candidate whose
   * cached indices match, fail at a candidate without them, or change nothing.
   */
  method MarkSpentAmongMatches(lock: RustyWalletDatabase, matching: seq<nat>, recordIndices: seq<nat>, s: Stamp)
    returns (r: Result<()>)
    requires forall k :: 0 <= k < |matching| ==> matching[k] < |lock.monitoredUtxos|
    modifies lock
    ensures var expected := SpendAmongMatches(old(lock.monitoredUtxos), matching, recordIndices, s);
      && (r.Ok? <==> expected.Ok?)
      && (r.Ok? ==> lock.monitoredUtxos == expected.value)
    ensures var ms := old(lock.monitoredUtxos);
      && (ScanPasses(ms, matching, recordIndices, |matching|) ==> r.Ok? && lock.monitoredUtxos == ms)
      && (forall k :: ScanPasses(ms, matching, recordIndices, k) && k < |matching|
                      && CachedMatch(ms[matching[k]], recordIndices)
                      ==> r.Ok? && lock.monitoredUtxos == ms[matching[k] := MarkSpent(ms[matching[k]], s)])
      && (r.Err? <==> exists k :: ScanPasses(ms, matching, recordIndices, k) && k < |matching|
                                  && !HasCachedIndices(ms[matching[k]]))
    ensures lock.balanceUpdates == old(lock.balanceUpdates) && lock.syncLabel == old(lock.syncLabel)
    ensures lock.counter == old(lock.counter)
  {
    SpendAmongMatchesOutcome(lock.monitoredUtxos, matching, recordIndices, s);
    r := ScanCandidates(lock, matching, recordIndices, s);
  }

  /** The handling of one own input on the database. */
  method MarkOwnInputSpent(lock: RustyWalletDatabase, input: Utxo, record: RemovalRecord, s: Stamp,
                           utxoHash: Utxo -> Digest) returns (r: Result<()>)
    modifies lock
    ensures var expected := SpendOwnInput(old(lock.monitoredUtxos), input, record, s, utxoHash);
      && (r.Ok? <==> expected.Ok?)
      && (r.Ok? ==> lock.monitoredUtxos == expected.value)
    ensures lock.balanceUpdates == old(lock.balanceUpdates) && lock.syncLabel == old(lock.syncLabel)
    ensures lock.counter == old(lock.counter)
  {
    var matching := MatchingUtxoIndices(lock, utxoHash(input), utxoHash);
    if |matching| == 0 {
      return Err("Discovered own input UTXO in block that did not match a monitored UTXO");
    }
    if |matching| == 1 {
      var mutxo := lock.monitoredUtxos[matching[0]];
      lock.SetMonitoredUtxo(matching[0], MarkSpent(mutxo, s));
      return Ok(());
    }
    r := MarkSpentAmongMatches(lock, matching, record.absoluteIndices, s);
  }

  // ===========================================================================
  // The phases of the block update, on the database

  /** The balance updates of a block: one per own input, then one per own output. */
  method RecordBalanceUpdates(lock: RustyWalletDatabase, b: WalletBlock, key: PublicKey)
    modifies lock
    ensures lock.balanceUpdates == old(lock.balanceUpdates) + BlockBalanceUpdates(b, key)
    ensures lock.monitoredUtxos == old(lock.monitoredUtxos) && lock.syncLabel == old(lock.syncLabel)
    ensures lock.counter == old(lock.counter)
  {
    var stamp := BlockStamp(b);
    var ownInputs := OwnInputUtxos(b.transaction.inputs, key);
    var ownOutputs := OwnOutputs(b.transaction.outputs, key);
    var k := 0;
    while k < |ownInputs|
      invariant 0 <= k <= |ownInputs|
      invariant lock.balanceUpdates == old(lock.balanceUpdates) + InputBalanceUpdates(ownInputs, stamp)[..k]
      invariant lock.monitoredUtxos == old(lock.monitoredUtxos) && lock.syncLabel == old(lock.syncLabel)
      invariant lock.counter == old(lock.counter)
    {
      lock.PushBalanceUpdate(BalanceUpdate(b.hash, b.timestamp, ownInputs[k].amount, NonNegative));
      k := k + 1;
    }
    ghost var withInputs := lock.balanceUpdates;
    k := 0;
    while k < |ownOutputs|
      invariant 0 <= k <= |ownOutputs|
      invariant lock.balanceUpdates == withInputs + OutputBalanceUpdates(ownOutputs, stamp)[..k]
      invariant lock.monitoredUtxos == old(lock.monitoredUtxos) && lock.syncLabel == old(lock.syncLabel)
      invariant lock.counter == old(lock.counter)
    {
      lock.PushBalanceUpdate(BalanceUpdate(b.hash, b.timestamp, ownOutputs[k].0.amount, Negative));
      k := k + 1;
    }
  }

  /** The positions of the monitored UTXOs that hold a proof for the parent block `prev`. */
  method ProofIndicesForBlock(lock: RustyWalletDatabase, prev: Digest) returns (indices: seq<nat>)
    ensures indices == ValidProofIndices(lock.monitoredUtxos, prev)
  {
    indices := [];
    var i := 0;
    while i < |lock.monitoredUtxos|
      invariant 0 <= i <= |lock.monitoredUtxos|
      invariant indices == ValidProofIndices(lock.monitoredUtxos[..i], prev)
    {
      assert lock.monitoredUtxos[..i + 1][..i] == lock.monitoredUtxos[..i];
      if MembershipProofForBlock(lock.monitoredUtxos[i], prev).Some? {
        indices := indices + [i];
      }
      i := i + 1;
    }
    assert lock.monitoredUtxos[..i] == lock.monitoredUtxos;
  }

  /** The additions loop, its bookkeeping: every own output becomes a monitored UTXO confirmed in the block. */
  method ReceiveOwnOutputs(lock: RustyWalletDatabase, outputs: seq<(Utxo, Digest)>, key: PublicKey,
                           numberOfMpsPerUtxo: nat, s: Stamp) returns (positions: seq<nat>)
    modifies lock
    ensures lock.monitoredUtxos == old(lock.monitoredUtxos) + Received(OwnOutputs(outputs, key), numberOfMpsPerUtxo, s)
    ensures positions == IndexRange(|old(lock.monitoredUtxos)|, |OwnOutputs(outputs, key)|)
    ensures lock.balanceUpdates == old(lock.balanceUpdates) && lock.syncLabel == old(lock.syncLabel)
    ensures lock.counter == old(lock.counter)
  {
    positions := [];
    var j := 0;
    while j < |outputs|
      invariant 0 <= j <= |outputs|
      invariant lock.monitoredUtxos
             == old(lock.monitoredUtxos) + Received(OwnOutputs(outputs[..j], key), numberOfMpsPerUtxo, s)
      invariant positions == IndexRange(|old(lock.monitoredUtxos)|, |OwnOutputs(outputs[..j], key)|)
      invariant lock.balanceUpdates == old(lock.balanceUpdates) && lock.syncLabel == old(lock.syncLabel)
      invariant lock.counter == old(lock.counter)
    {
      assert outputs[..j + 1][..j] == outputs[..j];
      var utxo := outputs[j].0;
      if MatchesPubkey(utxo, key) {
        positions := positions + [|lock.monitoredUtxos|];
        lock.PushMonitoredUtxo(Confirmed(utxo, numberOfMpsPerUtxo, s));
      }
      j := j + 1;
    }
    assert outputs[..j] == outputs;
  }

  /** The removal loop, its bookkeeping: removal record i goes with transaction input i. */
  method MarkSpentInputs(lock: RustyWalletDatabase, b: WalletBlock, key: PublicKey, utxoHash: Utxo -> Digest)
    returns (r: Result<()>)
    modifies lock
    ensures var expected := SpendFrom(old(lock.monitoredUtxos), b, key, utxoHash, 0);
      && (r.Ok? <==> expected.Ok?)
      && (r.Ok? ==> lock.monitoredUtxos == expected.value)
    ensures lock.balanceUpdates == old(lock.balanceUpdates) && lock.syncLabel == old(lock.syncLabel)
    ensures lock.counter == old(lock.counter)
  {
    var i := 0;
    while i < |b.removals|
      invariant 0 <= i <= |b.removals|
      invariant SpendFrom(lock.monitoredUtxos, b, key, utxoHash, i)
             == SpendFrom(old(lock.monitoredUtxos), b, key, utxoHash, 0)
      invariant lock.balanceUpdates == old(lock.balanceUpdates) && lock.syncLabel == old(lock.syncLabel)
      invariant lock.counter == old(lock.counter)
    {
      if i >= |b.transaction.inputs| {
        return Err("index out of bounds: the removal record has no transaction input");
      }
      var input := b.transaction.inputs[i].utxo;
      if MatchesPubkey(input, key) {
        var res := MarkOwnInputSpent(lock, input, b.removals[i], BlockStamp(b), utxoHash);
        if res.Err? {
          return Err(res.error);
        }
      }
      i := i + 1;
    }
    r := Ok(());
  }

  /** The loop over the carried-forward proofs: each listed UTXO gets its proof for the new tip. */
  method AddTipProofsToDatabase(lock: RustyWalletDatabase, tracked: seq<nat>, hash: Digest,
                                proofs: nat -> MsMembershipProof)
    requires forall k :: 0 <= k < |tracked| ==> tracked[k] < |lock.monitoredUtxos|
    modifies lock
    ensures lock.monitoredUtxos == AddTipProofs(old(lock.monitoredUtxos), tracked, hash, proofs)
    ensures lock.balanceUpdates == old(lock.balanceUpdates) && lock.syncLabel == old(lock.syncLabel)
    ensures lock.counter == old(lock.counter)
  {
    var t := 0;
    while t < |tracked|
      invariant 0 <= t <= |tracked|
      invariant lock.monitoredUtxos == AddTipProofs(old(lock.monitoredUtxos), tracked[..t], hash, proofs)
      invariant lock.balanceUpdates == old(lock.balanceUpdates) && lock.syncLabel == old(lock.syncLabel)
      invariant lock.counter == old(lock.counter)
    {
      assert tracked[..t + 1][..t] == tracked[..t];
      var idx := tracked[t];
      var mutxo := lock.monitoredUtxos[idx];
      lock.SetMonitoredUtxo(idx, WithTipProof(mutxo, hash, proofs(idx)));
      t := t + 1;
    }
    assert tracked[..t] == tracked;
  }

  // ===========================================================================
  // The wallet

  class WalletState {
    const walletDb: RustyWalletDatabase
    const walletSecret: WalletSecret
    const numberOfMpsPerUtxo: nat

    constructor (walletDb: RustyWalletDatabase, walletSecret: WalletSecret, numberOfMpsPerUtxo: nat)
      ensures this.walletDb == walletDb && this.walletSecret == walletSecret
      ensures this.numberOfMpsPerUtxo == numberOfMpsPerUtxo
    {
      this.walletDb := walletDb;
      this.walletSecret := walletSecret;
      this.numberOfMpsPerUtxo := numberOfMpsPerUtxo;
    }

    /**
     * `update_wallet_state_with_new_block`, its bookkeeping: return at once
     * when the block neither spends nor pays the wallet and nothing is
     * monitored; otherwise record the balance updates, append received UTXOs,
     * mark spent ones, add the new tip's proofs and set the sync label.
     */
    method UpdateWalletStateWithNewBlock(b: WalletBlock, lock: RustyWalletDatabase,
                                         utxoHash: Utxo -> Digest, proofs: nat -> MsMembershipProof)
      returns (r: Result<()>)
      modifies lock
      ensures var key := walletSecret.publicKey;
        var quiet := OwnInputUtxos(b.transaction.inputs, key) == [] && OwnOutputs(b.transaction.outputs, key) == []
          && old(lock.monitoredUtxos) == [];
        var expected := ApplyBlock(old(lock.monitoredUtxos), b, key, numberOfMpsPerUtxo, utxoHash, proofs);
        && (quiet ==>
              && r.Ok? && lock.monitoredUtxos == old(lock.monitoredUtxos)
              && lock.balanceUpdates == old(lock.balanceUpdates) && lock.syncLabel == old(lock.syncLabel))
        && (!quiet ==> (r.Ok? <==> expected.Ok?))
        && (!quiet && r.Ok? ==>
              && lock.monitoredUtxos == expected.value
              && lock.balanceUpdates == old(lock.balanceUpdates) + BlockBalanceUpdates(b, key)
              && lock.syncLabel == b.hash)
      ensures lock.counter == old(lock.counter)
    {
      var key := walletSecret.publicKey;
      var ownInputs := OwnInputUtxos(b.transaction.inputs, key);
      var ownOutputs := OwnOutputs(b.transaction.outputs, key);
      if ownInputs == [] && ownOutputs == [] && |lock.monitoredUtxos| == 0 {
        return Ok(());
      }
      RecordBalanceUpdates(lock, b, key);
      ghost var before := lock.monitoredUtxos;
      var valid := ProofIndicesForBlock(lock, b.prevBlockDigest);
      if |b.additions| != |b.transaction.outputs| {
        return Err("zip_eq: additions and outputs differ in number");
      }
      var received := ReceiveOwnOutputs(lock, b.transaction.outputs, key, numberOfMpsPerUtxo, BlockStamp(b));
      var tracked := valid + received;
      assert tracked == TrackedIndices(before, b.prevBlockDigest, |received|);
      r := MarkSpentInputs(lock, b, key, utxoHash);
      if r.Err? {
        return;
      }
      AddTipProofsToDatabase(lock, tracked, b.hash, proofs);
      lock.SetSyncLabel(b.hash);
    }

    /** `get_balance`: the sum over the monitored UTXOs that are not spent. */
    method GetBalance() returns (balance: nat)
      ensures balance == UnspentAmount(walletDb.monitoredUtxos)
    {
      var ms := walletDb.monitoredUtxos;
      balance := 0;
      var i := 0;
      while i < |ms|
        invariant 0 <= i <= |ms|
        invariant balance == UnspentAmount(ms[..i])
      {
        assert ms[..i + 1][..i] == ms[..i];
        if ms[i].spentInBlock.None? {
          balance := balance + ms[i].utxo.amount;
        }
        i := i + 1;
      }
      assert ms[..i] == ms;
    }

    /**
     * `get_wallet_status_from_lock` for the block with digest `d`.  Printing
     * each UTXO's newest proof unwraps it, so a monitored UTXO without any
     * proof is a panic.
     */
    method GetWalletStatusFromLock(lock: RustyWalletDatabase, d: Digest) returns (r: Result<WalletStatus>)
      ensures r.Err? <==> !HasProofs(lock.monitoredUtxos)
      ensures r.Ok? ==> r.value == StatusOf(lock.monitoredUtxos, d)
    {
      var ms := lock.monitoredUtxos;
      var syncedUnspent: seq<(WalletStatusElement, MsMembershipProof)> := [];
      var unsyncedUnspent: seq<WalletStatusElement> := [];
      var syncedSpent: seq<WalletStatusElement> := [];
      var unsyncedSpent: seq<WalletStatusElement> := [];
      var i := 0;
      while i < |ms|
        invariant 0 <= i <= |ms|
        invariant HasProofs(ms[..i])
        invariant syncedUnspent == SyncedUnspentEntries(ms[..i], d)
        invariant unsyncedUnspent == ElementsIn(ms[..i], d, UnsyncedUnspent)
        invariant syncedSpent == ElementsIn(ms[..i], d, SyncedSpent)
        invariant unsyncedSpent == ElementsIn(ms[..i], d, UnsyncedSpent)
      {
        var mutxo := ms[i];
        if mutxo.blockhashToMembershipProof == [] {
          return Err("called `Option::unwrap()` on a `None` value");
        }
        assert ms[..i + 1][..i] == ms[..i];
        var utxo := mutxo.utxo;
        var spent := mutxo.spentInBlock.Some?;
        match MembershipProofForBlock(mutxo, d) {
          case Some(mp) =>
            assert StatusElement(mutxo, d) == WalletStatusElement(mp.leafIndex, utxo) && StatusProof(mutxo, d) == mp;
            if spent {
              syncedSpent := syncedSpent + [WalletStatusElement(mp.leafIndex, utxo)];
            } else {
              syncedUnspent := syncedUnspent + [(WalletStatusElement(mp.leafIndex, utxo), mp)];
            }
          case None =>
            var anyMp := mutxo.blockhashToMembershipProof[0].1;
            assert StatusElement(mutxo, d) == WalletStatusElement(anyMp.leafIndex, utxo);
            if spent {
              unsyncedSpent := unsyncedSpent + [WalletStatusElement(anyMp.leafIndex, utxo)];
            } else {
              unsyncedUnspent := unsyncedUnspent + [WalletStatusElement(anyMp.leafIndex, utxo)];
            }
        }
        i := i + 1;
      }
      assert ms[..i] == ms;
      r := Ok(WalletStatus(
        EntriesAmount(syncedUnspent), syncedUnspent,
        ElementsAmount(unsyncedUnspent), unsyncedUnspent,
        ElementsAmount(syncedSpent), syncedSpent,
        ElementsAmount(unsyncedSpent), unsyncedSpent));
    }

    /**
     * `allocate_sufficient_input_funds_from_lock`: an error when the synced
     * unspent amount falls short; otherwise the shortest prefix of the synced
     * unspent UTXOs, in order, whose amounts reach the requested amount.
     */
    method AllocateSufficientInputFundsFromLock(lock: RustyWalletDatabase, requested: nat, d: Digest)
      returns (r: Result<seq<(Utxo, MsMembershipProof)>>)
      ensures !HasProofs(lock.monitoredUtxos) ==> r.Err?
      ensures HasProofs(lock.monitoredUtxos) ==>
        var entries := SyncedUnspentEntries(lock.monitoredUtxos, d);
        && (r.Err? <==> EntriesAmount(entries) < requested)
        && (r.Ok? ==> IsShortestCover(entries, requested, |r.value|) && r.value == Allocation(entries[..|r.value|]))
    {
      var status := GetWalletStatusFromLock(lock, d);
      if status.Err? {
        return Err(status.error);
      }
      var walletStatus := status.value;
      if walletStatus.syncedUnspentAmount < requested {
        return Err("Insufficient synced amount to create transaction");
      }
      var entries := walletStatus.syncedUnspent;
      var ret := TakeUntilCovered(entries, requested);
      r := Ok(ret);
    }

    /** `next_output_counter_from_lock`: return the counter and advance it (a `u64`, wrapping). */
    method NextOutputCounterFromLock(lock: RustyWalletDatabase) returns (c: U64)
      modifies lock
      ensures c == old(lock.counter)
      ensures lock.counter == (old(lock.counter) + 1) % U64_MODULUS
      ensures lock.monitoredUtxos == old(lock.monitoredUtxos) && lock.syncLabel == old(lock.syncLabel)
      ensures lock.balanceUpdates == old(lock.balanceUpdates)
    {
      var current := lock.GetCounter();
      lock.SetCounter((current + 1) % U64_MODULUS);
      c := current;
    }

    /**
     * `next_output_randomness_from_lock`: draw a counter value and hash it,
     * as a digest, together with the wallet's commitment randomness seed.
     */
    method NextOutputRandomnessFromLock(lock: RustyWalletDatabase, hashPair: (Digest, Digest) -> Digest)
      returns (randomness: Digest)
      modifies lock
      ensures randomness == hashPair(CounterAsDigest(old(lock.counter)), walletSecret.commitmentRandomnessSeed)
      ensures lock.counter == (old(lock.counter) + 1) % U64_MODULUS
      ensures lock.monitoredUtxos == old(lock.monitoredUtxos) && lock.syncLabel == old(lock.syncLabel)
      ensures lock.balanceUpdates == old(lock.balanceUpdates)
    {
      var counter := NextOutputCounterFromLock(lock);
      var counterAsDigest := CounterAsDigest(counter);
      randomness := hashPair(counterAsDigest, walletSecret.commitmentRandomnessSeed);
    }

    /** `increase_output_counter_test`: on a fresh wallet, the i-th draw answers i. */
    method IncreaseOutputCounterTest(lock: RustyWalletDatabase) returns (draws: seq<U64>)
      requires lock.counter == 0
      modifies lock
      ensures |draws| == 12 && forall i :: 0 <= i < 12 ==> draws[i] == i
      ensures lock.counter == 12
    {
      draws := [];
      var i := 0;
      while i < 12
        invariant 0 <= i <= 12 && lock.counter == i
        invariant |draws| == i && forall k :: 0 <= k < i ==> draws[k] == k
      {
        var c := NextOutputCounterFromLock(lock);
        draws := draws + [c];
        i := i + 1;
      }
    }
  }
}
