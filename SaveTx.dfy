/**
 * The streaming pipeline's only write path: save a transaction at most
 * once, keyed by its hash, stamping the testnet flag from the chain
 * registry. The store is a table from hash to record.
 */
module SaveTx {
  import opened Wrappers
  import opened ChainRegistry

  /** A save request. The testnet flag and user of a request are carried but never stored. */
  datatype TxData = TxData(
    txHash: string,
    chain: string,
    contract: string,
    blockNumber: nat,
    timestamp: int,
    project: Option<string>,
    isTestnet: Option<bool>,
    userId: Option<string>)

  /** A stored transaction record. */
  datatype TxRecord = TxRecord(
    txHash: string,
    chain: string,
    contract: string,
    blockNumber: nat,
    timestamp: int,
    project: string,
    isTestnet: bool)

  type Records = map<string, TxRecord>

  const DefaultProject := "Unknown"

  /** Every record sits under its own hash: at most one record per hash. */
  ghost predicate Keyed(records: Records) {
    forall h :: h in records ==> records[h].txHash == h
  }

  /** The store's schema rejects an empty string in a required text field. */
  predicate PassesSchema(data: TxData) {
    data.txHash != "" && data.chain != "" && data.contract != ""
  }

  function NewRecord(data: TxData, config: ChainConfig): TxRecord {
    TxRecord(data.txHash, data.chain, data.contract, data.blockNumber, data.timestamp,
             data.project.GetOr(DefaultProject), config.isTestnet)
  }

  /** The store after one save: unknown chain, known hash or rejected record leave it as it was. */
  function Saved(records: Records, data: TxData, chains: Chains): Records {
    if data.chain !in chains then records
    else if data.txHash in records then records
    else if !PassesSchema(data) then records
    else records[data.txHash := NewRecord(data, chains[data.chain])]
  }

  /** The store after a sequence of saves, in delivery order. */
  function SaveAll(records: Records, ds: seq<TxData>, chains: Chains): Records
    decreases |ds|
  {
    if ds == [] then records else Saved(SaveAll(records, ds[..|ds| - 1], chains), ds[|ds| - 1], chains)
  }

  class TransactionStore {
    var records: Records

    ghost predicate Valid()
      reads this
    {
      Keyed(records)
    }

    constructor ()
      ensures Valid() && records == map[]
    {
      records := map[];
    }

    /** Looks the hash up, and inserts only when nothing is stored under it. Never fails to its caller. */
    method Save(data: TxData, chains: Chains)
      requires Valid()
      modifies this
      ensures Valid()
      ensures records == Saved(old(records), data, chains)
    {
      if data.chain !in chains {
        return;
      }
      var config := chains[data.chain];
      if data.txHash in records {
        return;
      }
      var tx := NewRecord(data, config);
      if !PassesSchema(data) {
        // the schema's validation error is caught: nothing is written
        return;
      }
      records := records[data.txHash := tx];
    }
  }

  // ---------------------------------------------------------------------
  // Lemmas

  /** A save keeps one record per hash, keeps every existing record and adds at most the requested one. */
  lemma SavedFrame(records: Records, data: TxData, chains: Chains)
    requires Keyed(records)
    ensures Keyed(Saved(records, data, chains))
    ensures forall h :: h in records ==> h in Saved(records, data, chains) && Saved(records, data, chains)[h] == records[h]
    ensures Saved(records, data, chains).Keys == records.Keys || Saved(records, data, chains).Keys == records.Keys + {data.txHash}
  {
  }

  /** A new record is added exactly when the chain is known, the hash unseen and the record well formed. */
  lemma SavedInserts(records: Records, data: TxData, chains: Chains)
    ensures data.txHash !in records && data.txHash in Saved(records, data, chains) <==>
      data.chain in chains && data.txHash !in records && PassesSchema(data)
    ensures data.txHash !in records && data.txHash in Saved(records, data, chains) ==>
      var r := Saved(records, data, chains)[data.txHash];
      && r.txHash == data.txHash && r.chain == data.chain && r.contract == data.contract
      && r.blockNumber == data.blockNumber && r.timestamp == data.timestamp
      && r.project == (if data.project.Some? then data.project.value else "Unknown")
      && r.isTestnet == chains[data.chain].isTestnet
  {
  }

  /** Saving the same request twice leaves the store as saving it once. */
  lemma SavedIdempotent(records: Records, data: TxData, chains: Chains)
    ensures Saved(Saved(records, data, chains), data, chains) == Saved(records, data, chains)
  {
  }

  /** Saves of different hashes commute: delivery order does not matter. */
  lemma SavedCommute(records: Records, d1: TxData, d2: TxData, chains: Chains)
    requires d1.txHash != d2.txHash
    ensures Saved(Saved(records, d1, chains), d2, chains) == Saved(Saved(records, d2, chains), d1, chains)
  {
  }

  /** Any number of deliveries of one request collapse to a single save. */
  lemma {:induction false} RedeliveryCollapses(records: Records, ds: seq<TxData>, data: TxData, chains: Chains)
    requires ds != [] && forall i :: 0 <= i < |ds| ==> ds[i] == data
    ensures SaveAll(records, ds, chains) == Saved(records, data, chains)
    decreases |ds|
  {
    if |ds| > 1 {
      var prefix := ds[..|ds| - 1];
      assert forall i :: 0 <= i < |prefix| ==> prefix[i] == data;
      RedeliveryCollapses(records, prefix, data, chains);
      SavedIdempotent(records, data, chains);
    } else {
      assert ds[..0] == [];
    }
  }

  /** A sequence of saves keeps one record per hash and never changes a stored record. */
  lemma {:induction false} SaveAllFrame(records: Records, ds: seq<TxData>, chains: Chains)
    requires Keyed(records)
    ensures Keyed(SaveAll(records, ds, chains))
    ensures forall h :: h in records ==> h in SaveAll(records, ds, chains) && SaveAll(records, ds, chains)[h] == records[h]
    ensures forall h :: h in SaveAll(records, ds, chains) && h !in records ==>
      exists i :: 0 <= i < |ds| && ds[i].txHash == h
    decreases |ds|
  {
    if ds != [] {
      var prefix := ds[..|ds| - 1];
      SaveAllFrame(records, prefix, chains);
      SavedFrame(SaveAll(records, prefix, chains), ds[|ds| - 1], chains);
      forall h | h in SaveAll(records, ds, chains) && h !in records
        ensures exists i :: 0 <= i < |ds| && ds[i].txHash == h
      {
        if h in SaveAll(records, prefix, chains) {
          var i :| 0 <= i < |prefix| && prefix[i].txHash == h;
          assert ds[i] == prefix[i];
        } else {
          assert ds[|ds| - 1].txHash == h;
        }
      }
    }
  }
}
