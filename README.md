# neptune-core: wallet bookkeeping, chain tip, blocks and devnet mining in Dafny

This project models a slice of neptune-core, the Rust node of the Neptune
blockchain, and proves properties of the model. The slice has five parts:

- **The wallet's bookkeeping.** When a block arrives, the wallet:
  - records one balance update per own input and per own output;
  - appends each own output as a monitored UTXO confirmed in the block;
  - marks the monitored UTXO that an own input spends;
  - gives every UTXO that was synced to the parent block a membership proof for the new tip;
  - moves the sync label to the new block.

  The wallet also computes its balance and a status with four buckets (synced or unsynced, spent or unspent). It selects inputs greedily, and draws commitment randomness from a wrapping `u64` output counter.
- **The wallet database.** A vector of monitored UTXOs, the sync label, the counter and the balance updates, with their getters and setters.
- **The node state.** It is shared between tasks behind `Arc` locks. The tip update writes three tables in order and stops at the first failed write. The model also covers the block lookup, where the genesis block overrides the table, and the latest-block query.
- **Blocks.**
  - `Block::new`;
  - the genesis block;
  - the conversions to and from the hashless `TransferBlock`;
  - the mock validity check against a hash threshold.
- **Transactions and mining.**
  - The transaction kernel's seven field encodings, and the padding of its Merkle hash up to a power of two.
  - `make_devnet_block`: it assembles a block with a single coinbase output. It then searches three-element nonces in odometer order, and can be cancelled between steps.

Some things are uninterpreted and passed in as function-valued parameters:

- the hash functions;
- the mutator-set operations and the updated membership proofs;
- the field-element codec;
- the Merkle root;
- the ordering of digests and the mining reward.

So every property proved here holds whatever they compute. A Rust panic is modelled as an `Err` result.

Files:
- `common.dfy`: field elements, digests, UTXOs, `Option` and `Result`.
- `mutator_set.dfy`: opaque mutator-set records.
- `block.dfy`
- `transaction_kernel.dfy`
- `mine_loop.dfy`
- `state.dfy`
- `rusty_wallet_database.dfy`
- `wallet_state.dfy`

Where the state changes in place (the wallet database, the node's shared cells and tables, the nonce array), the model uses classes and arrays. Pure computations are functions, and each method is proved against one of them.

## Model

| member | source | states |
|---|---|---|
| Block.NewBlock | src/models/blockchain/block/mod.rs:85-92 | the block keeps header and body, its hash is the header's hash, and it is the only such hash-consistent block |
| Block.FromTransferBlock | src/models/blockchain/block/mod.rs:30-38 | converting a transfer block is `Block::new` on its header and body |
| Block.ToTransferBlock | src/models/blockchain/block/mod.rs:40-47 | the transfer block has the block's header and body |
| Block.TransferBlockForgetsOnlyHash | src/models/blockchain/block/mod.rs:40-47 | two blocks give the same transfer block iff their headers and bodies agree |
| Block.TransferRoundTrip | src/models/blockchain/block/mod.rs:30-47 | TransferBlock to Block to TransferBlock is the identity |
| Block.BlockRoundTrip | src/models/blockchain/block/mod.rs:30-47 | Block to TransferBlock to Block is the identity iff the block's hash is its header's hash |
| Block.GenesisBlock | src/models/blockchain/block/mod.rs:50-83 | height 0, version 0, default parent digest, the fixed timestamp, zero nonce, zero proof-of-work, difficulty 1, size limit 10000, empty body over the empty mutator set, hash consistent |
| Block.DevnetIsValid | src/models/blockchain/block/mod.rs:94-133 | every block passes (all checks are still to be written) |
| Block.IsValid | src/models/blockchain/block/mod.rs:135-158 | valid iff the hash, as an ordered digest, does not exceed the threshold |
| TransactionKernel.MastSequences | src/models/blockchain/transaction/transaction_kernel.rs:43-67 | seven sequences: the encodings of inputs, outputs, pubscripts, fee, coinbase, timestamp and mutator-set hash, in that order |
| TransactionKernel.PowerOfTwoTest | src/models/blockchain/transaction/transaction_kernel.rs:74 | for n >= 1, `n & (n - 1) == 0` iff n is a power of two |
| TransactionKernel.CeilPow2Least | src/models/blockchain/transaction/transaction_kernel.rs:74-76 | the padded length is at most every power of two not below the original length |
| TransactionKernel.PadToPowerOfTwo | src/models/blockchain/transaction/transaction_kernel.rs:73-76 | the padded list's length is the least power of two not below the original length; the original entries stay as a prefix and only the filler is appended |
| TransactionKernel.MastHash | src/models/blockchain/transaction/transaction_kernel.rs:69-86 | the digest is the Merkle root of 8 leaves: the hashes of the seven sequences in order, then the hash of the encoded default digest |
| MineLoop.NonceStep | src/mine_loop.rs:115-125 | one search step: the last digit is incremented in the field; each other digit is incremented exactly when every less significant digit was at the largest element, and otherwise stays |
| MineLoop.FeltIncrement | src/mine_loop.rs:119-125 | adds one in the field, wrapping the largest element to 0 |
| MineLoop.DevnetBlockTemplate | src/mine_loop.rs:36-97 | height is the parent's plus one; the parent digest is the parent header's hash; proof-of-work line and family are the parent's family plus `MOCK_DIFFICULTY`; one coinbase transaction pays the reward to the key with zero fee; its addition record is the only mutator-set update, applied to the parent's accumulator; the nonce is zero; the STARK proof is empty |
| MineLoop.NonceStepValue | src/mine_loop.rs:115-125 | one odometer step adds one to the nonce read as a base-P number, wrapping from the largest nonce to zero |
| MineLoop.NonceAtValue | src/mine_loop.rs:100-126 | before the wrap, step k tries the nonce whose value is k, so no nonce is skipped or tried twice |
| MineLoop.NonceAtWraps | src/mine_loop.rs:115-125 | after all P^3 nonces the odometer is back at zero |
| MineLoop.StepNonce | src/mine_loop.rs:115-125 | the in-place array update is one odometer step |
| MineLoop.SearchNonce | src/mine_loop.rs:100-126 | the search stops at the first nonce, in odometer order, whose header hash is below the threshold, or at the cancelling poll; every nonce tried before that missed |
| MineLoop.MakeDevnetBlock | src/mine_loop.rs:31-135 | a block is sent only for the first nonce, in odometer order, whose header hash is below the threshold, and it is `Block::new` on the template with that nonce; a cancelled search sends nothing and every nonce it tried missed |
| State.WriteTip | src/models/state.rs:95-111 | the three ordered writes report success iff all three puts succeed; the latest header becomes the block's only then, and a failed first put leaves the tables unchanged |
| State.WriteTipStoresBlock | src/models/state.rs:86-115 | a tip update where all writes succeed stores height to hash, hash to block and the latest header, adding only those keys |
| State.WriteTipFrame | src/models/state.rs:86-115 | the tip update touches no other height and no other hash |
| State.WriteTipFailure | src/models/state.rs:95-111 | a failed write keeps the earlier writes, skips the later ones and leaves the latest header alone |
| State.WriteTipSameHeightOverwrites | src/models/state.rs:95-99 | of two tips at the same height, the later one owns the height entry |
| State.BlockLookup | src/models/state.rs:64-82 | the genesis hash answers the genesis block; any other digest answers the stored block, or none |
| State.LookupAfterWriteTip | src/models/state.rs:64-115 | after a successful tip update, looking up its hash gives the new block, or genesis for the genesis hash |
| State.UpdateLatestBlockWithBlockHeaderMutexguard | src/models/state.rs:86-115 | the tables become the result of the ordered writes; Ok iff all three succeeded; the header cell takes the new header only then |
| State.State.constructor | src/models/state.rs:19-32 | the state holds the given shared cells |
| State.State.Clone | src/models/state.rs:34-47 | the clone shares the header, peer map and databases, and has a new `syncing` cell set to false |
| State.GetLatestBlock | src/models/state.rs:52-61 | a failed database read is an error; otherwise the stored latest block, or the genesis block at height 0 when there is none; the result is hash consistent when the stored block is |
| State.State.GetBlock | src/models/state.rs:64-82 | a failed read is an error; otherwise the lookup, with genesis overriding |
| State.State.UpdateLatestBlock | src/models/state.rs:117-130 | the tip update applied to this state's own databases and header cell |
| WalletDatabase.NewMonitoredUtxo | src/models/state/wallet/wallet_state.rs:272 | a new monitored UTXO has no proofs and is neither confirmed nor spent |
| WalletDatabase.MembershipProofForBlock | src/models/state/wallet/wallet_state.rs:180 | a proof is returned iff an entry exists for that block digest, and it is the proof of the first (newest) such entry |
| WalletDatabase.LatestMembershipProofEntry | src/models/state/wallet/wallet_state.rs:371-374 | an entry is returned iff any proof is stored, and it is the front (newest) entry |
| WalletDatabase.RustyWalletDatabase.Connect | src/models/state/wallet/rusty_wallet_database.rs:24-43 | the handle holds the stored vector, sync label, counter and balance updates |
| WalletDatabase.RustyWalletDatabase.MonitoredUtxos | src/models/state/wallet/rusty_wallet_database.rs:45-48 | answers the stored vector of monitored UTXOs, the view that the push and set methods state their effect on |
| WalletDatabase.RustyWalletDatabase.GetSyncLabel | src/models/state/wallet/rusty_wallet_database.rs:55-57 | answers the stored sync label, which `SetSyncLabel` sets |
| WalletDatabase.RustyWalletDatabase.GetCounter | src/models/state/wallet/rusty_wallet_database.rs:63-65 | answers the stored output counter, which `SetCounter` sets |
| WalletDatabase.RustyWalletDatabase.PushMonitoredUtxo | src/models/state/wallet/rusty_wallet_database.rs:51-53 | appends one UTXO and changes nothing else |
| WalletDatabase.RustyWalletDatabase.SetMonitoredUtxo | src/models/state/wallet/rusty_wallet_database.rs:51-53 | replaces entry i and changes nothing else |
| WalletDatabase.RustyWalletDatabase.PushBalanceUpdate | src/models/state/wallet/wallet_state.rs:152-168 | appends one balance update and changes nothing else |
| WalletDatabase.RustyWalletDatabase.SetSyncLabel | src/models/state/wallet/rusty_wallet_database.rs:55-61 | a following get answers the new label; nothing else changes |
| WalletDatabase.RustyWalletDatabase.SetCounter | src/models/state/wallet/rusty_wallet_database.rs:63-69 | a following get answers the new counter; nothing else changes |
| WalletState.OwnInputUtxos | src/models/state/wallet/wallet_state.rs:134 | at most as many as the inputs, and every one is locked to the wallet's key |
| WalletState.OwnOutputs | src/models/state/wallet/wallet_state.rs:136-137 | at most as many as the outputs, and every one is an output locked to the wallet's key |
| WalletState.OwnInputUtxosFilter | src/models/state/wallet/wallet_state.rs:134 | the own inputs are exactly the input UTXOs that match the wallet's key |
| WalletState.OwnOutputsFilter | src/models/state/wallet/wallet_state.rs:136-137 | the own outputs are exactly the outputs that match the wallet's key |
| WalletState.BlockBalanceUpdatesShape | src/models/state/wallet/wallet_state.rs:152-168 | one update per own input with sign `NonNegative`, then one per own output with sign `Negative`, each carrying its amount and the block's digest and timestamp |
| WalletState.Confirmed | src/models/state/wallet/wallet_state.rs:272-276 | a received UTXO is confirmed in the block, not spent and without proofs yet |
| WalletState.MatchingIndices | src/models/state/wallet/wallet_state.rs:334-341 | ascending positions, exactly those whose UTXO hash equals the digest |
| WalletState.ValidProofIndices | src/models/state/wallet/wallet_state.rs:170-196 | ascending positions, exactly those holding a proof for the parent block |
| WalletState.TrackedIndices | src/models/state/wallet/wallet_state.rs:170-278 | a position gets a new tip proof iff it was synced to the parent or was received in this block |
| WalletState.SpendsOnlyTrans | src/models/state/wallet/wallet_state.rs:306-406 | marking spent with one block's stamp composes |
| WalletState.SpendAmongMatches | src/models/state/wallet/wallet_state.rs:358-400 | with several matches, only candidates are marked spent and only with this block's stamp; positions that are not candidates stay unchanged |
| WalletState.ScanAfterHead | src/models/state/wallet/wallet_state.rs:370-398 | once the first candidate is passed over (it has cached indices that do not match), the scan goes on as the scan of the remaining candidates |
| WalletState.SpendAmongMatchesOutcome | src/models/state/wallet/wallet_state.rs:366-398 | the scan marks exactly the first candidate whose newest proof's sorted cached indices equal the sorted removal-record indices, and stops there; it is an error iff it reaches a candidate without a proof or without cached indices before any match; when no candidate matches, nothing changes |
| WalletState.SpendOwnInput | src/models/state/wallet/wallet_state.rs:331-401 | an own input with no matching monitored UTXO is an error; otherwise only spent marks change |
| WalletState.SpendFrom | src/models/state/wallet/wallet_state.rs:306-406 | the removal loop changes the monitored UTXOs only by marking them spent in this block |
| WalletState.SpendsOnlyKeepsMatches | src/models/state/wallet/wallet_state.rs:334-341 | marking spent does not change which positions match an input |
| WalletState.SpendFromTooFewInputs | src/models/state/wallet/wallet_state.rs:328 | a block with more removal records than inputs always fails |
| WalletState.SpendFromSucceeds | src/models/state/wallet/wallet_state.rs:343-357 | if every own input matches exactly one monitored UTXO, the removal loop succeeds |
| WalletState.UniqueOwnInputIsSpent | src/models/state/wallet/wallet_state.rs:348-357 | an own input with exactly one matching UTXO gets it marked spent in this block |
| WalletState.SortedEqualIffSameMultiset | src/models/state/wallet/wallet_state.rs:367-381 | two sorted index lists are equal iff they hold the same multiset |
| WalletState.WithTipProof | src/models/state/wallet/wallet_state.rs:442 | after adding, the proof for the new tip is found, and it is the latest entry |
| WalletState.AddTipProofsEffect | src/models/state/wallet/wallet_state.rs:433-458 | with distinct positions, each listed UTXO gets exactly its own tip proof prepended and all others stay unchanged |
| WalletState.ApplyBlock | src/models/state/wallet/wallet_state.rs:123-464 | an `additions`/`outputs` length mismatch is an error; a successful update leaves one monitored UTXO more per own output |
| WalletState.ApplyBlockEffect | src/models/state/wallet/wallet_state.rs:123-464 | after a successful update: the received UTXOs are appended confirmed in the block; nothing is removed or reordered; UTXOs and confirmations are kept; spent marks change only to this block; exactly the tracked UTXOs get a tip proof |
| WalletState.ApplyBlockSyncsTracked | src/models/state/wallet/wallet_state.rs:433-458 | every tracked UTXO is synced to the new block afterwards |
| WalletState.UnspentAmount | src/models/state/wallet/wallet_state.rs:477-484 | every unspent monitored UTXO's amount is at most the balance, and the balance is 0 when every UTXO is spent |
| WalletState.ReceivedAmount | src/models/state/wallet/wallet_state.rs:272-277 | the received UTXOs are unspent, so they are worth exactly the sum of the own outputs' amounts |
| WalletState.UnspentAmountReceived | src/models/state/wallet/wallet_state.rs:466-495 | receiving UTXOs raises the balance by exactly the sum of their amounts |
| WalletState.StatusPartition | src/models/state/wallet/wallet_state.rs:497-551 | the four bucket lists together have one entry per monitored UTXO, and the two unspent lists' amounts sum to the balance |
| WalletState.StatusOf | src/models/state/wallet/wallet_state.rs:497-551 | the status's four buckets together have one entry per monitored UTXO, and its synced and unsynced unspent amounts sum to the balance |
| WalletState.TakeUntilCovered | src/models/state/wallet/wallet_state.rs:598-605 | takes the shortest prefix of synced unspent entries whose amounts reach the request |
| WalletState.CounterAsDigest | src/models/state/wallet/wallet_state.rs:569-572 | five elements: the counter reduced into the field, then zeros |
| WalletState.CounterAsDigestInjective | src/models/state/wallet/wallet_state.rs:562-576 | distinct counters below P give distinct digests |
| WalletState.MatchingUtxoIndices | src/models/state/wallet/wallet_state.rs:333-341 | the scan yields exactly the matching positions |
| WalletState.ScanCandidates | src/models/state/wallet/wallet_state.rs:369-398 | the loop over the candidates on the database yields exactly `SpendAmongMatches`'s outcome |
| WalletState.MarkSpentAmongMatches | src/models/state/wallet/wallet_state.rs:358-400 | the database loop does what `SpendAmongMatches` specifies: it marks the first candidate whose cached indices match and stops; it is an error iff it reaches a candidate without a proof or cached indices first; otherwise the database is unchanged |
| WalletState.MarkOwnInputSpent | src/models/state/wallet/wallet_state.rs:331-401 | the database handling of one own input does what `SpendOwnInput` specifies |
| WalletState.RecordBalanceUpdates | src/models/state/wallet/wallet_state.rs:152-168 | appends exactly the block's balance updates |
| WalletState.ProofIndicesForBlock | src/models/state/wallet/wallet_state.rs:176-196 | yields exactly the positions synced to the parent |
| WalletState.ReceiveOwnOutputs | src/models/state/wallet/wallet_state.rs:248-278 | appends each own output, confirmed in the block, and returns their new positions |
| WalletState.MarkSpentInputs | src/models/state/wallet/wallet_state.rs:306-406 | the removal loop on the database does what `SpendFrom` specifies |
| WalletState.AddTipProofsToDatabase | src/models/state/wallet/wallet_state.rs:433-458 | each tracked UTXO gets its tip proof in the database |
| WalletState.WalletState.constructor | src/models/state/wallet/wallet_state.rs:40-49 | holds the database, secret and proof retention count |
| WalletState.WalletState.UpdateWalletStateWithNewBlock | src/models/state/wallet/wallet_state.rs:123-464 | returns Ok and changes nothing when the block neither spends nor pays the wallet and nothing is monitored; otherwise Ok iff `ApplyBlock` succeeds, and then the monitored UTXOs equal `ApplyBlock`'s, the block's balance updates are appended and the sync label is the block's hash; the counter is never touched |
| WalletState.WalletState.GetBalance | src/models/state/wallet/wallet_state.rs:466-495 | the sum of the amounts of unspent monitored UTXOs |
| WalletState.WalletState.GetWalletStatusFromLock | src/models/state/wallet/wallet_state.rs:497-551 | an error iff some monitored UTXO has no proof; otherwise the four buckets with their amounts |
| WalletState.WalletState.AllocateSufficientInputFundsFromLock | src/models/state/wallet/wallet_state.rs:578-607 | an error iff the synced unspent amount is below the request; otherwise the shortest prefix of synced unspent entries covering it, as (UTXO, proof) pairs |
| WalletState.WalletState.NextOutputCounterFromLock | src/models/state/wallet/wallet_state.rs:554-559 | returns the counter and advances it by one modulo 2^64; nothing else changes |
| WalletState.WalletState.NextOutputRandomnessFromLock | src/models/state/wallet/wallet_state.rs:562-576 | the randomness is the hash of the counter's digest and the wallet's seed; the counter advances by one |
| WalletState.WalletState.IncreaseOutputCounterTest | src/models/state/wallet/wallet_state.rs:626-636 | on a fresh database the twelve draws answer 0, 1, ..., 11 in turn, and the counter is then 12 |

## Left out

- I/O, logging, async locking and persisting to LevelDB are not modelled. `persist` and `restore_or_new` become the constructor's stored values, and a table read or write that can fail becomes a Boolean input.
- `new_from_wallet_secret` is not modelled: it opens a database and syncs to genesis, which is I/O.
- `Databases::get_latest_block` is not part of this model. `State.GetLatestBlock` takes its answer, and whether the read succeeded, as parameters. It is a module-level function because it reads no field of the state besides the database.
- The mutator-set proof updates and their `bail!` errors (wallet_state.rs lines 227-236 and 310-318) are not modelled. The cryptography is out of scope. The updated proofs come in as `proofs`, indexed by position.
- The batch updates of removal records are not modelled. The model takes the absolute indices as the block carries them.
- The sanity `assert!`s are not modelled:
  - Line 187 asserts that strong keys (UTXO hash, AOCL leaf index) are unique among UTXOs synced to the parent. The model keeps positions instead of strong keys (see the next line), so a duplicate key does not fail in the model.
  - Lines 294-298 compare a count over `is_synced_to`, which monitored_utxo.rs defines; that file is not part of this model.
  - Lines 409-413 and 445-448 check the mutator-set accumulator and proof validity, which needs the mutator-set cryptography.
- `StrongUtxoKey` is not modelled. The map from strong keys is replaced by the list of positions in insertion order. The keys are distinct, so the set of updates is the same.
- WalletState.WithTipProof: prepends the new proof. It does not apply the `numberOfMpsPerUtxo` bound on retained proofs, because monitored_utxo.rs is not part of this model.
- WalletDatabase.MembershipProofForBlock: returns the first entry for the digest. How monitored_utxo.rs breaks ties is not part of this model.
- WalletState.OwnInputUtxos: assumed to keep the inputs whose UTXO matches the key, in order. transaction.rs is not part of this model. The same holds for `OwnOutputs`.
- WalletState.SpendAmongMatches: compares sorted index lists as multisets, which `SortedEqualIffSameMultiset` justifies. A panic in the source is an `Err`.
- WalletState.WalletState.GetWalletStatusFromLock: the `unwrap` that panics on a UTXO without proofs is an `Err`.
- WalletState.WalletState.UpdateWalletStateWithNewBlock: an `additions`/`outputs` length mismatch, which makes `zip_eq` panic, is an `Err` raised before the additions loop. Balance updates recorded earlier stay recorded. In the source, `zip_eq` panics only when the shorter list runs out, so the own outputs among the pairs processed before that are already appended to the monitored UTXOs; the model stops before appending any, and its contract says nothing about the monitored UTXOs on that `Err`.
- WalletState.UnspentAmount: amounts are unbounded naturals, so `Amount` overflow is not modelled.
- WalletState.WalletState.NextOutputCounterFromLock: follows release-build semantics, where `current_counter + 1` on a `u64` wraps to 0. A debug build panics on that overflow instead; the model does not capture the panic.
- The balance-update signs are modelled as written: own inputs get `NonNegative` and own outputs get `Negative`.
- `mock_regtest_mine` is not modelled: it is an endless loop of `make_devnet_block` calls over channels.
- MineLoop.MakeDevnetBlock: the clock, the random commitment randomness, the reward schedule and the digest ordering are parameters. The channel send is the returned outcome. Cancellation is the poll count at which `is_canceled` answers true. A search that is never cancelled is not modelled.
- The field-element codec, variable-length hashing and the Merkle root are uninterpreted parameters, so decode/encode round trips are not modelled.
