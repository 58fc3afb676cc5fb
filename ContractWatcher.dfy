/**
 * The watcher reconciler: a table of live log subscriptions keyed by
 * `chain:address`, brought in line with the set of active contracts on
 * every pass, and the per-log callback each subscription runs.
 *
 * A subscription is an opaque handle; opening one hands out the next
 * unused handle. The ghost set `cancelled` records the subscriptions whose
 * `unwatch` has been called; `Unwatch` may be called only on one not yet
 * cancelled, so a subscription is cancelled at most once.
 */
module ContractWatcher {
  import opened Wrappers
  import opened ChainRegistry
  import opened SaveTx

  /** A registered contract as the store holds it. */
  datatype WatchedContract = WatchedContract(
    id: string,
    userId: string,
    address: string,
    chain: string)

  /** A running watcher: its subscription handle and when it was last active. */
  datatype Watcher = Watcher(handle: nat, lastActive: int)

  /** A subscription, as opened for a key. */
  datatype Subscription = Subscription(key: string, handle: nat)

  /** A log as a subscription delivers it. */
  datatype WatchedLog = WatchedLog(transactionHash: Option<string>, blockNumber: Option<nat>)

  /** Whether a log carries a transaction hash; an empty hash counts as none, as a falsy string does. */
  predicate HasHash(log: WatchedLog) {
    log.transactionHash.Some? && log.transactionHash.value != ""
  }

  function LowerChar(c: char): char {
    if 'A' <= c <= 'Z' then (c as int + 32) as char else c
  }

  /** ASCII lower-casing, character by character. */
  function ToLower(s: string): (r: string)
    ensures |r| == |s|
    ensures forall i :: 0 <= i < |s| ==> r[i] == LowerChar(s[i])
  {
    if s == [] then [] else [LowerChar(s[0])] + ToLower(s[1..])
  }

  /** The table key of a contract. */
  function Key(c: WatchedContract): string {
    c.chain + ":" + ToLower(c.address)
  }

  /** The keys of all active contracts: the desired watch set. */
  function DesiredKeys(active: seq<WatchedContract>): set<string>
    decreases |active|
  {
    if active == [] then {} else DesiredKeys(active[..|active| - 1]) + {Key(active[|active| - 1])}
  }

  /** The desired keys whose contract is on a supported chain. */
  function SupportedKeys(active: seq<WatchedContract>, chains: Chains): set<string>
    decreases |active|
  {
    if active == [] then {}
    else
      var last := active[|active| - 1];
      SupportedKeys(active[..|active| - 1], chains) + (if last.chain in chains then {Key(last)} else {})
  }

  /** Where the opening loop stands: the keys watched so far, and whether it is still running. */
  datatype Opening = Opening(keys: set<string>, running: bool)

  /**
   * One contract of the opening loop: a contract whose key is watched or
   * whose chain is unknown is skipped; otherwise a client is built, and when
   * that fails the error leaves the loop and ends the pass.
   */
  function OpenStep(o: Opening, c: WatchedContract, chains: Chains): Opening {
    if !o.running || Key(c) in o.keys || c.chain !in chains then o
    else if GetClient(chains, c.chain).Failure? then Opening(o.keys, false)
    else Opening(o.keys + {Key(c)}, true)
  }

  /** The opening loop over the active contracts, from a table with `keys`. */
  function OpenPass(keys: set<string>, active: seq<WatchedContract>, chains: Chains): Opening
    decreases |active|
  {
    if active == [] then Opening(keys, true)
    else OpenStep(OpenPass(keys, active[..|active| - 1], chains), active[|active| - 1], chains)
  }

  /**
   * A table in step with the active contracts: every key is desired, and
   * every desired key on a supported chain has a watcher. A pass leaves the
   * table so, and a pass over a table so changes nothing.
   */
  predicate Reconciled(keys: set<string>, active: seq<WatchedContract>, chains: Chains) {
    keys <= DesiredKeys(active) && SupportedKeys(active, chains) <= keys
  }

  /**
   * The table after a callback for `key`: when at least one log was saved,
   * the watcher under `key` (if it is still there) is active as of `now`.
   */
  function Refreshed(table: map<string, Watcher>, key: string, now: int, saved: bool): (r: map<string, Watcher>)
    ensures r.Keys == table.Keys
    ensures forall k :: k in r && k != key ==> r[k] == table[k]
    ensures key in r ==> r[key].handle == table[key].handle && r[key].lastActive == (if saved then now else table[key].lastActive)
  {
    if saved && key in table then table[key := table[key].(lastActive := now)] else table
  }

  /** The subscriptions of the watchers that are no longer desired. */
  ghost function StaleSubscriptions(table: map<string, Watcher>, desired: set<string>): set<Subscription> {
    set k | k in table && k !in desired :: Subscription(k, table[k].handle)
  }

  /** The save request a delivered log becomes; a log without a transaction hash is skipped. */
  function ShapeLog(contract: WatchedContract, config: ChainConfig, log: WatchedLog, now: int): Option<TxData> {
    if !HasHash(log) then None
    else
      Some(TxData(log.transactionHash.value, contract.chain, contract.address, log.blockNumber.GetOr(0), now,
                  None, Some(config.isTestnet), Some(contract.userId)))
  }

  /** How many of a batch of delivered logs carry a transaction hash. */
  function HashCount(logs: seq<WatchedLog>): nat
    decreases |logs|
  {
    if logs == [] then 0
    else HashCount(logs[..|logs| - 1]) + (if HasHash(logs[|logs| - 1]) then 1 else 0)
  }

  /** The save requests of a batch of delivered logs, in delivery order. */
  function ShapeLogs(contract: WatchedContract, config: ChainConfig, logs: seq<WatchedLog>, now: int): seq<TxData>
    decreases |logs|
  {
    if logs == [] then []
    else
      var last := ShapeLog(contract, config, logs[|logs| - 1], now);
      ShapeLogs(contract, config, logs[..|logs| - 1], now) + (if last.Some? then [last.value] else [])
  }

  class ContractWatchers {
    var table: map<string, Watcher>
    var nextHandle: nat
    ghost var cancelled: set<Subscription>

    /**
     * Handles are issued below `nextHandle`, a running watcher's
     * subscription has not been cancelled, and every issued handle is held
     * by a watcher or cancelled: no subscription is leaked.
     */
    ghost predicate Valid()
      reads this
    {
      && (forall k :: k in table ==> table[k].handle < nextHandle && Subscription(k, table[k].handle) !in cancelled)
      && (forall s :: s in cancelled ==> s.handle < nextHandle)
      && (forall h :: 0 <= h < nextHandle ==> Accounted(table, cancelled, h))
    }

    constructor ()
      ensures Valid() && table == map[] && cancelled == {}
    {
      table := map[];
      nextHandle := 0;
      cancelled := {};
    }

    /** Calling a subscription's `unwatch`: allowed once per subscription. */
    ghost method Unwatch(sub: Subscription)
      requires sub !in cancelled
      modifies this`cancelled
      ensures cancelled == old(cancelled) + {sub}
    {
      cancelled := cancelled + {sub};
    }

    /**
     * One reconciliation pass over the active contracts: cancel and drop
     * every watcher no longer desired, then open one watcher per desired key
     * that has none, skipping unknown chains. A chain whose client cannot be
     * built ends the pass there; `completed` tells whether it got through.
     */
    method Reconcile(active: seq<WatchedContract>, chains: Chains, now: int) returns (completed: bool)
      requires Valid()
      modifies this
      ensures Valid()
      ensures Opening(table.Keys, completed) == OpenPass(old(table).Keys * DesiredKeys(active), active, chains)
      ensures table.Keys <= DesiredKeys(active)
      ensures completed ==> table.Keys == SupportedKeys(active, chains) + (old(table).Keys * DesiredKeys(active))
      ensures completed ==> Reconciled(table.Keys, active, chains)
      ensures Served(active, chains) ==> completed
      ensures OpenPass(table.Keys, active, chains) == Opening(table.Keys, completed)
      ensures Extends(table, nextHandle, old(table) - (old(table).Keys - DesiredKeys(active)), old(nextHandle), now)
      ensures cancelled == old(cancelled) + StaleSubscriptions(old(table), DesiredKeys(active))
      ensures old(cancelled) !! StaleSubscriptions(old(table), DesiredKeys(active))
      ensures Reconciled(old(table).Keys, active, chains) ==>
        completed && table == old(table) && nextHandle == old(nextHandle) && cancelled == old(cancelled)
      ensures old(table).Keys <= DesiredKeys(active) && OpenPass(old(table).Keys, active, chains).keys == old(table).Keys ==>
        table == old(table) && nextHandle == old(nextHandle) && cancelled == old(cancelled)
    {
      var desired := DesiredKeys(active);
      DropStale(desired);
      ghost var kept := table;
      assert kept.Keys == old(table).Keys * desired;
      completed := OpenMissing(active, chains, now);
      OpenPassBounds(kept.Keys, active, chains);
      OpenPassCompletes(kept.Keys, active, chains);
      OpenPassServed(kept.Keys, active, chains);
      OpenPassAgain(kept.Keys, active, chains);
      SupportedAreDesired(active, chains);
      if Reconciled(old(table).Keys, active, chains) {
        NothingStale(old(table), desired);
        OpenPassNothingMissing(kept.Keys, active, chains);
        ExtendsBySameKeys(table, nextHandle, kept, old(nextHandle), now);
      }
      if old(table).Keys <= desired && OpenPass(old(table).Keys, active, chains).keys == old(table).Keys {
        NothingStale(old(table), desired);
        ExtendsBySameKeys(table, nextHandle, kept, old(nextHandle), now);
      }
    }

    /** The first loop of a pass: cancel and remove every watcher whose key is not desired. */
    method DropStale(desired: set<string>)
      requires Valid()
      modifies this
      ensures Valid()
      ensures table == old(table) - (old(table).Keys - desired)
      ensures nextHandle == old(nextHandle)
      ensures cancelled == old(cancelled) + StaleSubscriptions(old(table), desired)
      ensures old(cancelled) !! StaleSubscriptions(old(table), desired)
    {
      ghost var before := table;
      var pending := table.Keys;
      ghost var done: set<string> := {};
      while pending != {}
        invariant pending !! done && pending + done == before.Keys
        invariant table == before - (done - desired)
        invariant cancelled == old(cancelled) + StaleSubscriptions(before - pending, desired)
        invariant nextHandle == old(nextHandle)
        decreases pending
      {
        var key :| key in pending;
        StaleStep(before, pending, key, desired);
        if key !in desired {
          Unwatch(Subscription(key, table[key].handle));
          table := table - {key};
        }
        pending := pending - {key};
        done := done + {key};
      }
      assert before - pending == before;
      forall h | 0 <= h < nextHandle
        ensures Accounted(table, cancelled, h)
      {
        assert Accounted(before, old(cancelled), h);
        if exists k :: k in before && before[k].handle == h {
          var k :| k in before && before[k].handle == h;
          if k in desired {
            assert table[k] == before[k];
          } else {
            assert Subscription(k, h) in StaleSubscriptions(before, desired);
          }
        }
      }
    }

    /**
     * The second loop of a pass: open a watcher for every desired key on a
     * known chain that has none, until a client cannot be built.
     */
    method OpenMissing(active: seq<WatchedContract>, chains: Chains, now: int) returns (completed: bool)
      requires Valid()
      modifies this
      ensures Valid()
      ensures Opening(table.Keys, completed) == OpenPass(old(table).Keys, active, chains)
      ensures Extends(table, nextHandle, old(table), old(nextHandle), now)
      ensures cancelled == old(cancelled)
    {
      var watchers, handle;
      watchers, handle, completed := OpenWatchers(table, nextHandle, active, chains, now);
      ghost var before := table;
      table, nextHandle := watchers, handle;
      forall h | 0 <= h < nextHandle
        ensures Accounted(table, cancelled, h)
      {
        if h < old(nextHandle) {
          assert Accounted(old(table), old(cancelled), h);
          if exists k :: k in before && before[k].handle == h {
            var k :| k in before && before[k].handle == h;
            assert table[k] == before[k];
          }
        } else {
          assert HandleUsed(table, before, h);
        }
      }
    }

    /**
     * The callback of the watcher of `contract`: save each delivered log that
     * has a transaction hash, then refresh the watcher's activity time if it
     * is still in the table.
     */
    method OnLogs(contract: WatchedContract, chains: Chains, logs: seq<WatchedLog>, store: TransactionStore, now: int)
      requires Valid() && store.Valid()
      requires contract.chain in chains
      modifies this, store
      ensures Valid() && store.Valid()
      ensures store.records == SaveAll(old(store.records), ShapeLogs(contract, chains[contract.chain], logs, now), chains)
      ensures table == Refreshed(old(table), Key(contract), now, ShapeLogs(contract, chains[contract.chain], logs, now) != [])
      ensures nextHandle == old(nextHandle) && cancelled == old(cancelled)
    {
      var config := chains[contract.chain];
      var key := Key(contract);
      for i := 0 to |logs|
        invariant Valid() && store.Valid()
        invariant store.records == SaveAll(old(store.records), ShapeLogs(contract, config, logs[..i], now), chains)
        invariant table == Refreshed(old(table), key, now, ShapeLogs(contract, config, logs[..i], now) != [])
        invariant nextHandle == old(nextHandle) && cancelled == old(cancelled)
      {
        var log := logs[i];
        ShapeLogsStep(contract, config, logs, i, now, old(store.records), chains);
        if HasHash(log) {
          var data := TxData(log.transactionHash.value, contract.chain, contract.address, log.blockNumber.GetOr(0), now,
                             None, Some(config.isTestnet), Some(contract.userId));
          store.Save(data, chains);
          Refresh(key, now);
          RefreshedAgain(old(table), key, now, ShapeLogs(contract, config, logs[..i], now) != []);
        }
      }
      assert logs[..|logs|] == logs;
    }

    /** Set the activity time of the watcher under `key`, when there is one. */
    method Refresh(key: string, now: int)
      requires Valid()
      modifies this
      ensures Valid()
      ensures table == Refreshed(old(table), key, now, true)
      ensures nextHandle == old(nextHandle) && cancelled == old(cancelled)
    {
      if key in table {
        ghost var before := table;
        table := table[key := table[key].(lastActive := now)];
        forall h | 0 <= h < nextHandle
          ensures Accounted(table, cancelled, h)
        {
          assert Accounted(before, cancelled, h);
          if exists k :: k in before && before[k].handle == h {
            var k :| k in before && before[k].handle == h;
            assert table[k].handle == h;
          }
        }
      }
    }
  }

  // ---------------------------------------------------------------------
  // Lemmas

  /** Refreshing a refreshed table again at the same time changes nothing more. */
  lemma RefreshedAgain(table: map<string, Watcher>, key: string, now: int, saved: bool)
    ensures Refreshed(Refreshed(table, key, now, saved), key, now, true) == Refreshed(table, key, now, true)
  {
  }

  /** A table whose keys are all desired has nothing stale, and dropping the stale keys keeps it whole. */
  lemma NothingStale(table: map<string, Watcher>, desired: set<string>)
    requires table.Keys <= desired
    ensures StaleSubscriptions(table, desired) == {}
    ensures table - (table.Keys - desired) == table
  {
    assert table.Keys - desired == {};
  }

  /** An extension with no new key is the table it extends, and used no handle. */
  lemma ExtendsBySameKeys(watchers: map<string, Watcher>, handle: nat, base: map<string, Watcher>, nextHandle: nat, now: int)
    requires Extends(watchers, handle, base, nextHandle, now)
    requires watchers.Keys == base.Keys
    ensures watchers == base && handle == nextHandle
  {
  }

  /** How one more delivered log changes the save requests of a batch and the store they lead to. */
  lemma ShapeLogsStep(contract: WatchedContract, config: ChainConfig, logs: seq<WatchedLog>, i: nat, now: int,
                      records: Records, chains: Chains)
    requires i < |logs|
    ensures ShapeLogs(contract, config, logs[..i + 1], now) != [] <==>
      ShapeLogs(contract, config, logs[..i], now) != [] || HasHash(logs[i])
    ensures !HasHash(logs[i]) ==>
      SaveAll(records, ShapeLogs(contract, config, logs[..i + 1], now), chains) ==
      SaveAll(records, ShapeLogs(contract, config, logs[..i], now), chains)
    ensures HasHash(logs[i]) ==>
      SaveAll(records, ShapeLogs(contract, config, logs[..i + 1], now), chains) ==
      Saved(SaveAll(records, ShapeLogs(contract, config, logs[..i], now), chains),
            ShapeLog(contract, config, logs[i], now).value, chains)
  {
    assert logs[..i + 1][..i] == logs[..i];
    var shaped := ShapeLogs(contract, config, logs[..i], now);
    var step := ShapeLog(contract, config, logs[i], now);
    if step.Some? {
      assert (shaped + [step.value])[..|shaped|] == shaped;
    } else {
      assert shaped + [] == shaped;
    }
  }

  /** Every contract on a known chain has a chain that lists an endpoint. */
  predicate Served(active: seq<WatchedContract>, chains: Chains) {
    forall i :: 0 <= i < |active| && active[i].chain in chains ==> chains[active[i].chain].rpcUrls != []
  }

  /** The opening loop keeps every key it starts with and adds only keys to open. */
  lemma {:induction false} OpenPassBounds(keys: set<string>, active: seq<WatchedContract>, chains: Chains)
    ensures keys <= OpenPass(keys, active, chains).keys <= keys + SupportedKeys(active, chains)
    decreases |active|
  {
    if active != [] {
      OpenPassBounds(keys, active[..|active| - 1], chains);
    }
  }

  /** A loop that got through every contract has opened every key to open. */
  lemma {:induction false} OpenPassCompletes(keys: set<string>, active: seq<WatchedContract>, chains: Chains)
    ensures OpenPass(keys, active, chains).running ==> OpenPass(keys, active, chains).keys == keys + SupportedKeys(active, chains)
    decreases |active|
  {
    if active != [] {
      var prefix := active[..|active| - 1];
      OpenPassCompletes(keys, prefix, chains);
    }
  }

  /** When every known chain lists an endpoint, the loop gets through every contract. */
  lemma {:induction false} OpenPassServed(keys: set<string>, active: seq<WatchedContract>, chains: Chains)
    ensures Served(active, chains) ==> OpenPass(keys, active, chains).running
    decreases |active|
  {
    if active != [] {
      var prefix := active[..|active| - 1];
      assert Served(active, chains) ==> Served(prefix, chains) by {
        assert forall i :: 0 <= i < |prefix| ==> prefix[i] == active[i];
      }
      OpenPassServed(keys, prefix, chains);
    }
  }

  /** With nothing missing, the loop builds no client and changes nothing. */
  lemma {:induction false} OpenPassNothingMissing(keys: set<string>, active: seq<WatchedContract>, chains: Chains)
    requires SupportedKeys(active, chains) <= keys
    ensures OpenPass(keys, active, chains) == Opening(keys, true)
    decreases |active|
  {
    if active != [] {
      OpenPassNothingMissing(keys, active[..|active| - 1], chains);
    }
  }

  /** Once the loop has stopped, the remaining contracts change nothing. */
  lemma {:induction false} OpenPassStopped(keys: set<string>, active: seq<WatchedContract>, i: nat, chains: Chains)
    requires i <= |active| && !OpenPass(keys, active[..i], chains).running
    ensures OpenPass(keys, active, chains) == OpenPass(keys, active[..i], chains)
    decreases |active| - i
  {
    if i < |active| {
      assert active[..i + 1][..i] == active[..i];
      OpenPassStopped(keys, active, i + 1, chains);
    } else {
      assert active[..i] == active;
    }
  }

  /** A loop that stopped did so at a contract: it was running before it and not after. */
  lemma {:induction false} OpenPassStopIndex(keys: set<string>, active: seq<WatchedContract>, chains: Chains) returns (i: nat)
    requires !OpenPass(keys, active, chains).running
    ensures i < |active|
    ensures OpenPass(keys, active[..i], chains).running && !OpenPass(keys, active[..i + 1], chains).running
    decreases |active|
  {
    var prefix := active[..|active| - 1];
    if OpenPass(keys, prefix, chains).running {
      i := |active| - 1;
      assert active[..i + 1] == active;
    } else {
      i := OpenPassStopIndex(keys, prefix, chains);
      assert prefix[..i] == active[..i] && prefix[..i + 1] == active[..i + 1];
    }
  }

  /**
   * Running the opening loop again from where it left off ends in the same
   * place: after a completed loop nothing is missing, and after a stopped
   * one the same client fails again before anything new is opened.
   */
  lemma {:induction false} OpenPassAgain(keys: set<string>, active: seq<WatchedContract>, chains: Chains)
    ensures OpenPass(OpenPass(keys, active, chains).keys, active, chains) == OpenPass(keys, active, chains)
  {
    var r := OpenPass(keys, active, chains);
    if r.running {
      OpenPassCompletes(keys, active, chains);
      OpenPassNothingMissing(r.keys, active, chains);
    } else {
      var i := OpenPassStopIndex(keys, active, chains);
      var before := OpenPass(keys, active[..i], chains);
      assert active[..i + 1][..i] == active[..i];
      OpenPassCompletes(keys, active[..i], chains);
      OpenPassStopped(keys, active, i + 1, chains);
      assert r == OpenStep(before, active[i], chains) == Opening(before.keys, false);
      OpenPassNothingMissing(r.keys, active[..i], chains);
      assert OpenPass(r.keys, active[..i + 1], chains) == OpenStep(before, active[i], chains);
      OpenPassStopped(r.keys, active, i + 1, chains);
    }
  }

  /** Only desired keys are ever on a supported chain's list. */
  lemma {:induction false} SupportedAreDesired(active: seq<WatchedContract>, chains: Chains)
    ensures SupportedKeys(active, chains) <= DesiredKeys(active)
    decreases |active|
  {
    if active != [] {
      SupportedAreDesired(active[..|active| - 1], chains);
    }
  }

  /** Lower-casing is idempotent, so a stored (already lower-case) address keys the same. */
  lemma ToLowerIdempotent(s: string)
    ensures ToLower(ToLower(s)) == ToLower(s)
  {
  }

  /** Addresses that differ only in letter case share one key, hence one watcher. */
  lemma KeyIgnoresCase(c: WatchedContract, d: WatchedContract)
    requires c.chain == d.chain && ToLower(c.address) == ToLower(d.address)
    ensures Key(c) == Key(d)
    ensures Key(c.(address := ToLower(c.address))) == Key(c)
  {
    ToLowerIdempotent(c.address);
  }

  /** Every save request from a callback is for that contract, with the hash of a delivered log. */
  lemma {:induction false} ShapedRequests(contract: WatchedContract, config: ChainConfig, logs: seq<WatchedLog>, now: int)
    ensures |ShapeLogs(contract, config, logs, now)| == HashCount(logs) <= |logs|
    ensures forall d :: d in ShapeLogs(contract, config, logs, now) ==>
      && d.chain == contract.chain && d.contract == contract.address && d.timestamp == now
      && d.project.None? && d.isTestnet == Some(config.isTestnet) && d.userId == Some(contract.userId)
      && exists j :: 0 <= j < |logs| && logs[j].transactionHash == Some(d.txHash)
                     && d.blockNumber == logs[j].blockNumber.GetOr(0)
    ensures forall j :: 0 <= j < |logs| && HasHash(logs[j]) ==>
      ShapeLog(contract, config, logs[j], now).value in ShapeLogs(contract, config, logs, now)
    ensures ShapeLogs(contract, config, logs, now) == [] <==>
      forall j :: 0 <= j < |logs| ==> !HasHash(logs[j])
    decreases |logs|
  {
    if logs != [] {
      var prefix := logs[..|logs| - 1];
      ShapedRequests(contract, config, prefix, now);
      forall d | d in ShapeLogs(contract, config, logs, now)
        ensures exists j :: 0 <= j < |logs| && logs[j].transactionHash == Some(d.txHash)
                            && d.blockNumber == logs[j].blockNumber.GetOr(0)
      {
        if d in ShapeLogs(contract, config, prefix, now) {
          var j :| 0 <= j < |prefix| && prefix[j].transactionHash == Some(d.txHash)
                   && d.blockNumber == prefix[j].blockNumber.GetOr(0);
          assert logs[j] == prefix[j];
        } else {
          assert logs[|logs| - 1].transactionHash == Some(d.txHash);
        }
      }
      assert forall j :: 0 <= j < |prefix| ==> prefix[j] == logs[j];
    }
  }

  /** Taking one more key off the pending list adds its subscription to the stale ones exactly when it is not desired. */
  lemma StaleStep(table: map<string, Watcher>, pending: set<string>, key: string, desired: set<string>)
    requires key in pending && pending <= table.Keys
    ensures StaleSubscriptions(table - (pending - {key}), desired) ==
      StaleSubscriptions(table - pending, desired) + (if key in desired then {} else {Subscription(key, table[key].handle)})
    ensures key !in desired ==> Subscription(key, table[key].handle) !in StaleSubscriptions(table - pending, desired)
  {
    var small, big := table - pending, table - (pending - {key});
    assert big == small[key := table[key]];
  }

  /** The desired set holds exactly the keys of the active contracts. */
  lemma {:induction false} DesiredKeysMeaning(active: seq<WatchedContract>, k: string)
    ensures k in DesiredKeys(active) <==> exists c :: c in active && Key(c) == k
    decreases |active|
  {
    if active != [] {
      var prefix := active[..|active| - 1];
      DesiredKeysMeaning(prefix, k);
      assert forall c :: c in active <==> c in prefix || c == active[|active| - 1];
    }
  }

  /** The supported keys are exactly the keys of the active contracts on a chain of the registry. */
  lemma {:induction false} SupportedKeysMeaning(active: seq<WatchedContract>, chains: Chains, k: string)
    ensures k in SupportedKeys(active, chains) <==> exists c :: c in active && c.chain in chains && Key(c) == k
    decreases |active|
  {
    if active != [] {
      var prefix := active[..|active| - 1];
      SupportedKeysMeaning(prefix, chains, k);
      assert forall c :: c in active <==> c in prefix || c == active[|active| - 1];
    }
  }

  /** Handle `h` belongs to an entry of `watchers` that `base` does not have. */
  ghost predicate HandleUsed(watchers: map<string, Watcher>, base: map<string, Watcher>, h: nat) {
    exists k :: k in watchers && k !in base && watchers[k].handle == h
  }

  /**
   * `watchers` extends `base`: the entries of `base` are kept, every other
   * entry was opened at `now` with a handle of its own in
   * `[nextHandle, handle)`, and every handle in that range belongs to one of
   * them, so no subscription was opened without an entry to hold it.
   */
  ghost predicate Extends(watchers: map<string, Watcher>, handle: nat, base: map<string, Watcher>, nextHandle: nat, now: int) {
    && (forall k :: k in base ==> k in watchers && watchers[k] == base[k])
    && (forall k :: k in watchers && k !in base ==> watchers[k].lastActive == now && nextHandle <= watchers[k].handle < handle)
    && nextHandle <= handle
    && (watchers.Keys == base.Keys ==> handle == nextHandle)
    && (forall k, k' :: k in watchers && k' in watchers && k !in base && k' !in base && k != k' ==> watchers[k].handle != watchers[k'].handle)
    && (forall h :: nextHandle <= h < handle ==> HandleUsed(watchers, base, h))
  }

  /** Handle `h` is held by a watcher of `table` or has been cancelled. */
  ghost predicate Accounted(table: map<string, Watcher>, cancelled: set<Subscription>, h: nat) {
    || (exists k :: k in table && table[k].handle == h)
    || (exists s :: s in cancelled && s.handle == h)
  }

  /**
   * The loop of the reconciliation that opens a watcher, with a fresh
   * handle, for each active contract on a known chain whose key is not yet
   * in `table`, and stops at the first contract whose client cannot be built.
   */
  method OpenWatchers(table: map<string, Watcher>, nextHandle: nat, active: seq<WatchedContract>, chains: Chains, now: int)
    returns (watchers: map<string, Watcher>, handle: nat, completed: bool)
    ensures Opening(watchers.Keys, completed) == OpenPass(table.Keys, active, chains)
    ensures Extends(watchers, handle, table, nextHandle, now)
  {
    watchers, handle, completed := table, nextHandle, true;
    assert watchers.Keys - table.Keys == {};
    for i := 0 to |active|
      invariant completed && Opening(watchers.Keys, true) == OpenPass(table.Keys, active[..i], chains)
      invariant Extends(watchers, handle, table, nextHandle, now)
    {
      assert active[..i + 1][..i] == active[..i];
      watchers, handle, completed := OpenWatcher(watchers, handle, table, nextHandle, active[i], chains, now);
      if !completed {
        OpenPassStopped(table.Keys, active, i + 1, chains);
        return;
      }
    }
    assert active[..|active|] == active;
  }

  /**
   * One step of the loop: open a watcher for `contract` unless it is watched
   * or its chain is unknown; `ok` is false when its client cannot be built.
   */
  method OpenWatcher(watchers: map<string, Watcher>, handle: nat, base: map<string, Watcher>, nextHandle: nat,
                     contract: WatchedContract, chains: Chains, now: int)
    returns (watchers': map<string, Watcher>, handle': nat, ok: bool)
    requires Extends(watchers, handle, base, nextHandle, now)
    ensures Extends(watchers', handle', base, nextHandle, now)
    ensures Opening(watchers'.Keys, ok) == OpenStep(Opening(watchers.Keys, true), contract, chains)
    ensures watchers'.Keys == watchers.Keys ==> watchers' == watchers && handle' == handle
    ensures watchers'.Keys != watchers.Keys ==> watchers' == watchers[Key(contract) := Watcher(handle, now)] && handle' == handle + 1
  {
    var key := Key(contract);
    watchers', handle', ok := watchers, handle, true;
    if key in watchers || contract.chain !in chains {
      return;
    }
    var client := GetClient(chains, contract.chain);
    if client.Failure? {
      ok := false;
      return;
    }
    watchers', handle' := watchers[key := Watcher(handle, now)], handle + 1;
    forall h | nextHandle <= h < handle'
      ensures HandleUsed(watchers', base, h)
    {
      if h < handle {
        assert HandleUsed(watchers, base, h);
        var k :| k in watchers && k !in base && watchers[k].handle == h;
        assert watchers'[k] == watchers[k];
      } else {
        assert watchers'[key].handle == h;
      }
    }
  }
}
