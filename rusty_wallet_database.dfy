/**
 * The wallet's persistent store (src/models/state/wallet/rusty_wallet_database.rs):
 * a vector of monitored UTXOs and two singletons, the sync label and the
 * output counter.  The revision of the wallet code in wallet_state.rs also
 * keeps a vector of balance updates in the same store, so the class carries
 * it too; the accessors of rusty_wallet_database.rs leave it alone.
 * Persisting to LevelDB is not modelled: the fields are the stored values.
 */
module WalletDatabase {
  import opened Common
  import opened MutatorSet

  /**
   * A UTXO the wallet watches.  Membership proofs are kept per block digest,
   * newest first, at most `numberOfMpsPerUtxo` of them; `confirmedInBlock` and
   * `spentInBlock` record a block digest and a timestamp in milliseconds.
   */
  datatype MonitoredUtxo = MonitoredUtxo(
    utxo: Utxo,
    blockhashToMembershipProof: seq<(Digest, MsMembershipProof)>,
    numberOfMpsPerUtxo: nat,
    confirmedInBlock: Option<(Digest, nat)>,
    spentInBlock: Option<(Digest, nat)>)

  /** `MonitoredUtxo::new`: no proofs yet, neither confirmed nor spent. */
  function NewMonitoredUtxo(utxo: Utxo, numberOfMpsPerUtxo: nat): (m: MonitoredUtxo)
    ensures m.utxo == utxo && m.blockhashToMembershipProof == []
    ensures m.confirmedInBlock.None? && m.spentInBlock.None?
  {
    MonitoredUtxo(utxo, [], numberOfMpsPerUtxo, None, None)
  }

  /** `get_membership_proof_for_block`: the proof stored for digest `d`, if any (the first such entry). */
  function MembershipProofForBlock(m: MonitoredUtxo, d: Digest): (r: Option<MsMembershipProof>)
    ensures r.Some? <==> exists k :: 0 <= k < |m.blockhashToMembershipProof| && m.blockhashToMembershipProof[k].0 == d
    ensures r.Some? ==> exists k :: FirstEntryFor(m.blockhashToMembershipProof, d, k)
                                    && m.blockhashToMembershipProof[k].1 == r.value
  {
    ProofIn(m.blockhashToMembershipProof, d)
  }

  /** Entry `k` is the first (newest) one stored for digest `d`. */
  predicate FirstEntryFor(entries: seq<(Digest, MsMembershipProof)>, d: Digest, k: int)
  {
    && 0 <= k < |entries|
    && entries[k].0 == d
    && forall k' :: 0 <= k' < k ==> entries[k'].0 != d
  }

  function ProofIn(entries: seq<(Digest, MsMembershipProof)>, d: Digest): (r: Option<MsMembershipProof>)
    ensures r.Some? <==> exists k :: 0 <= k < |entries| && entries[k].0 == d
    ensures r.Some? ==> exists k :: FirstEntryFor(entries, d, k) && entries[k].1 == r.value
  {
    if entries == [] then None
    else if entries[0].0 == d then
      assert FirstEntryFor(entries, d, 0);
      Some(entries[0].1)
    else
      var rest := ProofIn(entries[1..], d);
      assert forall k :: 1 <= k < |entries| ==> entries[k] == entries[1..][k - 1];
      assert rest.Some? ==> exists k :: FirstEntryFor(entries, d, k) && entries[k].1 == rest.value by {
        if rest.Some? {
          var k :| FirstEntryFor(entries[1..], d, k) && entries[1..][k].1 == rest.value;
          assert FirstEntryFor(entries, d, k + 1);
        }
      }
      rest
  }

  /** `get_latest_membership_proof_entry`: the newest entry, if any. */
  function LatestMembershipProofEntry(m: MonitoredUtxo): (r: Option<(Digest, MsMembershipProof)>)
    ensures r.Some? <==> |m.blockhashToMembershipProof| > 0
    ensures r.Some? ==> r.value == m.blockhashToMembershipProof[0]
  {
    if m.blockhashToMembershipProof == [] then None else Some(m.blockhashToMembershipProof[0])
  }

  datatype Sign = NonNegative | Negative

  /** One change of the balance, recorded per block. */
  datatype BalanceUpdate = BalanceUpdate(block: Digest, timestamp: nat, amount: nat, sign: Sign)

  class RustyWalletDatabase {
    var monitoredUtxos: seq<MonitoredUtxo>
    // records which block the database is synced to
    var syncLabel: Digest
    // counts the number of output UTXOs generated by this wallet
    var counter: U64
    var balanceUpdates: seq<BalanceUpdate>

    /** `connect` followed by `restore_or_new`: the given stored values (or defaults). */
    constructor Connect(monitoredUtxos: seq<MonitoredUtxo>, syncLabel: Digest, counter: U64,
                        balanceUpdates: seq<BalanceUpdate>)
      ensures this.monitoredUtxos == monitoredUtxos && this.syncLabel == syncLabel
      ensures this.counter == counter && this.balanceUpdates == balanceUpdates
    {
      this.monitoredUtxos := monitoredUtxos;
      this.syncLabel := syncLabel;
      this.counter := counter;
      this.balanceUpdates := balanceUpdates;
    }

    /** `monitored_utxos`: the read view of the vector that the mutating accessors below change. */
    function MonitoredUtxos(): (r: seq<MonitoredUtxo>)
      reads this
      ensures r == monitoredUtxos
    {
      monitoredUtxos
    }

    /** `monitored_utxos_mut().push`. */
    method PushMonitoredUtxo(m: MonitoredUtxo)
      modifies this
      ensures MonitoredUtxos() == old(MonitoredUtxos()) + [m]
      ensures syncLabel == old(syncLabel) && counter == old(counter) && balanceUpdates == old(balanceUpdates)
    {
      monitoredUtxos := monitoredUtxos + [m];
    }

    /** `monitored_utxos_mut().set(i, m)`. */
    method SetMonitoredUtxo(i: nat, m: MonitoredUtxo)
      requires i < |monitoredUtxos|
      modifies this
      ensures MonitoredUtxos() == old(MonitoredUtxos())[i := m]
      ensures syncLabel == old(syncLabel) && counter == old(counter) && balanceUpdates == old(balanceUpdates)
    {
      monitoredUtxos := monitoredUtxos[i := m];
    }

    /** `balance_updates.push` of the wallet_state.rs revision. */
    method PushBalanceUpdate(u: BalanceUpdate)
      modifies this
      ensures balanceUpdates == old(balanceUpdates) + [u]
      ensures monitoredUtxos == old(monitoredUtxos) && syncLabel == old(syncLabel) && counter == old(counter)
    {
      balanceUpdates := balanceUpdates + [u];
    }

    /** `get_sync_label`: the digest of the block the wallet was last synced to. */
    function GetSyncLabel(): (r: Digest)
      reads this
      ensures r == syncLabel
    {
      syncLabel
    }

    /** `set_sync_label`: a following `get_sync_label` answers `d`; nothing else changes. */
    method SetSyncLabel(d: Digest)
      modifies this
      ensures GetSyncLabel() == d
      ensures MonitoredUtxos() == old(MonitoredUtxos()) && GetCounter() == old(GetCounter())
      ensures balanceUpdates == old(balanceUpdates)
    {
      syncLabel := d;
    }

    /** `get_counter`: the stored output counter. */
    function GetCounter(): (r: U64)
      reads this
      ensures r == counter
    {
      counter
    }

    /** `set_counter`: a following `get_counter` answers `c`; nothing else changes. */
    method SetCounter(c: U64)
      modifies this
      ensures GetCounter() == c
      ensures MonitoredUtxos() == old(MonitoredUtxos()) && GetSyncLabel() == old(GetSyncLabel())
      ensures balanceUpdates == old(balanceUpdates)
    {
      counter := c;
    }
  }
}
