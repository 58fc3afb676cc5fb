# On-chain monitoring core in Dafny

This project models the sequential core of a multi-chain transaction monitor. It has four parts:

- **Transaction classifier.** Given a transaction and its receipt logs, it reports:
  - a base type (TRANSFER, NFT, DEFI, GOVERNANCE, SYSTEM, UNKNOWN);
  - an optional subtype;
  - the token transfers the logs carry;
  - the decoded events.

  A transaction without a recipient is a deployment. Empty call data with a positive value is a native transfer. Otherwise every log is tried against the ERC-20, ERC-721 and ERC-1155 transfer events, in that order. If nothing classified the transaction, a table of 4-byte method selectors is consulted. `Classifier.ClassifyTransaction` builds the result step by step, as the source does, and is proved equal to the reference function `Classifier.Classify`.
- **Watcher reconciler.** A table of live log subscriptions, keyed by `chain:lowercase(address)`, is brought in line with the set of active contracts. The class `ContractWatcher.ContractWatchers` holds the table and a handle counter. A ghost set records the subscriptions whose `unwatch` was called.
  - A pass cancels and drops every watcher no longer desired.
  - It then opens a watcher for each desired key on a supported chain that has none. A client that cannot be built throws out of this loop, and the pass ends there (src/utils/contractWatcher.ts:43, 78).
  - The per-subscription callback shapes each delivered log into a save request, saves it, and refreshes the watcher's activity time.
- **Idempotent save.** `SaveTx.TransactionStore` is a table from transaction hash to stored record. A save inserts only when the chain is known, the hash is new and the record passes the schema. The testnet flag comes from the chain registry, and the project defaults to "Unknown".
- **Enrichment.** A transaction hash is normalised to carry `0x`. The transaction, its receipt and its block are read from a node. The classifier's verdict is folded in, falling back to `contract_interaction` when classification fails, and the remaining fields take their defaults.

The chain registry and the client factory (`ChainRegistry`) are modelled as a partial map from chain key to configuration. Decimal rendering of amounts is in `Decimal`. The decoded shapes of the three token standards' events are in `StandardEvents`.

Foreign calls become inputs:
- Event decoding: each log carries one optional decode result per standard.
- Node reads: `Enrich.Node` is a record of functions.
- The classifier's outcome inside enrichment is an `Option`.
- Ether formatting is a function parameter.
- The wall clock is a `now` parameter.
- The database is the store's map.

The client factory builds a fresh client on the first configured endpoint only (src/utils/getClient.ts:23). There is no endpoint rotation, failover or caching. A chain that lists no endpoint leaves the HTTP transport without a URL, which throws; the model makes that a failure of `ChainRegistry.GetClient`.

After a pass that completes, the table's keys are the supported desired keys plus the previously watched keys that are still desired. They equal the supported desired keys exactly only when every kept key is on a supported chain: a key already in the table is never re-checked against the registry (src/utils/contractWatcher.ts:35).

## Model

| member | source | states |
|---|---|---|
| Decimal.FromNat | src/utils/classifyTx.ts:142 | the decimal text of an amount is a non-empty digit string without a leading zero, one digit exactly for values below ten |
| Decimal.ToNatFromNat | src/utils/classifyTx.ts:142 | reading back the decimal text of a value gives the value |
| Decimal.FromNatInjective | src/utils/classifyTx.ts:192 | two amounts have the same decimal text iff they are equal |
| ChainRegistry.GetClient | src/utils/getClient.ts:5-24 | fails iff the key is not in the registry (the unsupported-chain error naming the key) or the chain lists no endpoint (the no-endpoint error); otherwise the client carries the chain's id, its native currency or the Ether default, and talks to the first configured endpoint |
| Classifier.ClassifyTransaction | src/utils/classifyTx.ts:97-245 | the step-by-step procedure (early exits, three attempts per log, event push, selector table) yields exactly the reference classification |
| Classifier.TryErc20 | src/utils/classifyTx.ts:128-148 | the ERC-20 attempt reports its decode and adds the log's fungible transfer and class, if any |
| Classifier.TryErc721 | src/utils/classifyTx.ts:150-174 | the ERC-721 attempt reports its decode and adds the unit transfer and the mint/transfer class, if any |
| Classifier.TryErc1155 | src/utils/classifyTx.ts:176-209 | the ERC-1155 attempt expands a batch entry by entry, stopping where the values run out, and sets NFT/NFT_TRANSFER |
| Classifier.SelectorFallback | src/utils/classifyTx.ts:221-242 | never touches the lists; changes nothing unless the result is UNKNOWN and the call data holds a full selector from the table, in which case it is DEFI with that selector's subtype |
| Classifier.TransfersOfAppend | src/utils/classifyTx.ts:123-219 | the transfers of two runs of logs are the first run's followed by the second's |
| Classifier.EventsOfAppend | src/utils/classifyTx.ts:123-219 | the events of two runs of logs are the first run's followed by the second's |
| Classifier.LastClassAppend | src/utils/classifyTx.ts:123-219 | the class after two runs is the second run's, or the first's when the second sets none |
| Classifier.ThreeAttempts | src/utils/classifyTx.ts:128-209 | the three attempts in a row append transfers in ERC-20, ERC-721, ERC-1155 order and leave the last matching standard's class |
| Classifier.LogsOutcomeSnoc | src/utils/classifyTx.ts:123-219 | one more log appends its transfers and event and lets its class overwrite the earlier one |
| Classifier.DeploymentIgnoresLogs | src/utils/classifyTx.ts:108-113 | no recipient gives SYSTEM/CONTRACT_DEPLOYMENT with empty lists, whatever the logs |
| Classifier.NativeTransferIgnoresLogs | src/utils/classifyTx.ts:115-120 | a recipient, call data "0x" and positive value give TRANSFER/NATIVE_TRANSFER with empty lists, whatever the logs |
| Classifier.ZeroValueReadsLogs | src/utils/classifyTx.ts:116-123 | call data "0x" with zero value falls through to the logs |
| Classifier.ListsComeFromLogs | src/utils/classifyTx.ts:123-219 | past the early exits, transfers and events are exactly those of the logs in order |
| Classifier.EventEntriesOfLog | src/utils/classifyTx.ts:211-218 | a log leaves one event iff some decoder accepted it, carrying the log's address and the arguments and name of the last decode in the order ERC-20, ERC-721, ERC-1155 |
| Classifier.EventsOfCount | src/utils/classifyTx.ts:123-218 | at most one event per log; no events iff no log decodes; one per log iff every log decodes |
| Classifier.Erc20TransferEntry | src/utils/classifyTx.ts:137-146 | an ERC-20 Transfer adds one entry whose amount reads back as the value, and sets TRANSFER/ERC20_TRANSFER |
| Classifier.Erc721TransferEntry | src/utils/classifyTx.ts:159-172 | an ERC-721 Transfer adds one entry of amount "1" and is NFT_MINT iff it comes from the zero address, NFT_TRANSFER otherwise |
| Classifier.BatchEntries | src/utils/classifyTx.ts:197-206 | a batch adds one entry per id (as many as there are values when they run short), each with the value at its position and the batch's from and to |
| Classifier.SingleEntry | src/utils/classifyTx.ts:189-196 | a single multi-token transfer adds exactly one entry with the log's address as token, the event's from and to, and an amount that reads back as the value; it sets NFT/NFT_TRANSFER |
| Classifier.LogTransfersClassify | src/utils/classifyTx.ts:137-208 | a log adds transfers only when it sets a class; the class is TRANSFER or NFT; it sets none iff none of its decodes is a transfer |
| Classifier.LastClassNone | src/utils/classifyTx.ts:129-209 | the receipt sets no class iff no log does |
| Classifier.LastClassAt | src/utils/classifyTx.ts:129-209 | the class of the receipt is that of the last log that sets one |
| Classifier.TransfersOfClassify | src/utils/classifyTx.ts:123-219 | transfers anywhere in the receipt mean a class was set, and logs only ever set TRANSFER or NFT |
| Classifier.TransfersImplyClassified | src/utils/classifyTx.ts:137-219 | a classification with token transfers is never UNKNOWN |
| Classifier.DeFiOnlyFromSelector | src/utils/classifyTx.ts:222-241 | DEFI iff past the early exits, no log set a class, and the call data's selector is in the table |
| Classifier.TransferFreeLogOnlyAddsEvent | src/utils/classifyTx.ts:137-218 | a log without transfer events (an approval) adds its event and changes neither the class nor the transfers |
| Classifier.Erc20Scenario | src/utils/classifyTx.ts:137-146 | one ERC-20 Transfer of 500 gives TRANSFER/ERC20_TRANSFER with one entry of amount "500" |
| Classifier.BatchScenario | src/utils/classifyTx.ts:197-206 | a batch with ids [1, 2] and values [10, 20] gives two entries "10" and "20" with the batch's from and to |
| Classifier.UnknownScenario | src/utils/classifyTx.ts:221-244 | call data matching no selector and no decodable log leave the result UNKNOWN with empty lists |
| SaveTx.TransactionStore.Save | src/utils/saveTxDecentralized.ts:14-45 | the store after a save is the reference save of the old store, and still holds one record per hash |
| SaveTx.SavedFrame | src/utils/saveTxDecentralized.ts:23-37 | a save keeps one record per hash, never changes a stored record and adds at most the requested hash |
| SaveTx.SavedInserts | src/utils/saveTxDecentralized.ts:16-35 | a record is added iff the chain is known, the hash is new and the record passes the schema; it copies the request's fields, defaults the project to "Unknown" and takes the testnet flag from the registry |
| SaveTx.SavedIdempotent | src/utils/saveTxDecentralized.ts:24-37 | saving the same request twice equals saving it once |
| SaveTx.SavedCommute | src/utils/saveTxDecentralized.ts:24-37 | saves of different hashes commute |
| SaveTx.RedeliveryCollapses | src/utils/saveTxDecentralized.ts:24-37 | any number of deliveries of one request equal a single save |
| SaveTx.SaveAllFrame | src/utils/saveTxDecentralized.ts:23-37 | a run of saves keeps one record per hash, never changes a stored record, and every new hash is one of the requests' |
| ContractWatcher.ToLower | src/utils/contractWatcher.ts:20 | lower-casing keeps the length and maps each character to its ASCII lower case |
| ContractWatcher.ToLowerIdempotent | src/utils/contractWatcher.ts:20 | lower-casing twice equals lower-casing once |
| ContractWatcher.KeyIgnoresCase | src/utils/contractWatcher.ts:19-21 | contracts on one chain whose addresses differ only in case share a key, hence a watcher |
| ContractWatcher.DesiredKeysMeaning | src/utils/contractWatcher.ts:19-21 | a key is desired iff some active contract has it |
| ContractWatcher.SupportedKeysMeaning | src/utils/contractWatcher.ts:33-41 | a key is to be opened iff some active contract on a chain of the registry has it |
| ContractWatcher.SupportedAreDesired | src/utils/contractWatcher.ts:19-41 | every key on a supported chain is a desired key |
| ContractWatcher.Refreshed | src/utils/contractWatcher.ts:64-68 | a callback keeps the table's keys and handles and every other entry, and sets the watcher's activity time to now iff a log was saved |
| ContractWatcher.RefreshedAgain | src/utils/contractWatcher.ts:66-67 | refreshing a refreshed entry at the same time changes nothing more |
| ContractWatcher.StaleStep | src/utils/contractWatcher.ts:24-29 | visiting one more key adds its subscription to the stale ones exactly when the key is not desired, and not twice |
| ContractWatcher.NothingStale | src/utils/contractWatcher.ts:24-30 | a table whose keys are all desired has nothing to cancel or drop |
| ContractWatcher.ExtendsBySameKeys | src/utils/contractWatcher.ts:33-35 | a pass that opens no key leaves the table and the handle counter as they were |
| ContractWatcher.ContractWatchers.Unwatch | src/utils/contractWatcher.ts:27 | a subscription is cancelled at most once |
| ContractWatcher.ContractWatchers.Reconcile | src/utils/contractWatcher.ts:14-81 | the table after a pass is the opening loop run over the kept desired keys; keys are always desired; a pass that completes has the supported desired keys plus the kept ones, and completes whenever every supported chain lists an endpoint; kept entries are untouched; new ones are active as of now with fresh, distinct handles, and every handle used belongs to a new watcher; every handle ever issued is held by a watcher or cancelled; exactly the stale subscriptions are cancelled, once each; the next pass over the same contracts would reach the same keys and outcome, and a pass over a table left so (completed or stopped) changes nothing; a pass over a reconciled table completes |
| ContractWatcher.OpenPassBounds | src/utils/contractWatcher.ts:33-77 | the opening loop keeps the keys it started with and adds only keys of active contracts on supported chains |
| ContractWatcher.OpenPassCompletes | src/utils/contractWatcher.ts:33-77 | an opening loop that got through every contract has added every supported desired key |
| ContractWatcher.OpenPassServed | src/utils/contractWatcher.ts:37-43 | when every supported chain lists an endpoint, the opening loop gets through every contract |
| ContractWatcher.OpenPassNothingMissing | src/utils/contractWatcher.ts:33-35 | when every supported desired key is already watched, the opening loop builds no client and changes nothing |
| ContractWatcher.OpenPassStopped | src/utils/contractWatcher.ts:43-78 | once a client fails, the remaining contracts change nothing |
| ContractWatcher.OpenPassStopIndex | src/utils/contractWatcher.ts:43-78 | a loop that stopped was running up to one contract and stopped at it |
| ContractWatcher.OpenPassAgain | src/utils/contractWatcher.ts:33-78 | running the opening loop again from the keys it left ends in the same place: nothing missing after a completed loop, and the same failing client before anything new after a stopped one |
| ContractWatcher.ContractWatchers.DropStale | src/utils/contractWatcher.ts:23-30 | the table loses exactly the keys not desired, each with its subscription cancelled once |
| ContractWatcher.ContractWatchers.OpenMissing | src/utils/contractWatcher.ts:32-77 | the table's keys and the completion flag are those of the opening loop from the current keys; existing entries are untouched; new ones are active as of now with fresh, distinct handles, and the counter advances by exactly one handle per new watcher, so no subscription is opened without an entry |
| ContractWatcher.OpenWatchers | src/utils/contractWatcher.ts:33-78 | the loop's resulting keys and completion flag are the reference opening loop's, stopping at the first client that cannot be built; new entries have fresh, distinct handles and activity time now, and each handle the counter passed belongs to one of them; every entry it found is kept |
| ContractWatcher.OpenWatcher | src/utils/contractWatcher.ts:34-76 | one contract adds its key when it has no watcher yet, its chain is supported and its client is built; reports failure when the client cannot be built; adding the key puts a watcher active as of now under the current handle and moves the counter by one; otherwise the table and the counter are unchanged |
| ContractWatcher.ShapedRequests | src/utils/contractWatcher.ts:51-62 | one save request per delivered log with a non-empty hash, and no other: each is for the watched contract and chain, stamped now, with the chain's testnet flag, the contract's user and no project, and carries a log's hash and that log's block number or 0; no requests iff no log has a non-empty hash |
| ContractWatcher.ShapeLogsStep | src/utils/contractWatcher.ts:51-65 | a log without a hash, or with an empty one, changes nothing; a log with one adds one save of its request |
| ContractWatcher.ContractWatchers.OnLogs | src/utils/contractWatcher.ts:50-73 | the store becomes the run of saves of the delivered logs' requests; the table keeps its keys and handles, and the watcher's activity time becomes now iff some log had a non-empty hash |
| ContractWatcher.ContractWatchers.Refresh | src/utils/contractWatcher.ts:66-68 | the watcher under the key, if still present, becomes active as of now, and nothing else changes |
| Enrich.NormalizeHash | src/utils/enrich.ts:17 | the result starts with "0x", ends with the input, and equals it iff the input already had the prefix (two characters longer otherwise) |
| Enrich.NormalizeHashIdempotent | src/utils/enrich.ts:17 | normalising twice equals normalising once |
| Enrich.NormalizeHashDropsPrefix | src/utils/enrich.ts:17 | a hash without the prefix and the same hash with "0x" prepended normalise alike |
| Enrich.Assemble | src/utils/enrich.ts:22-56 | the record carries the caller's hash and the chain's display name; the activity is the fallback iff classification failed, and the classifier's base type and transfers otherwise; gas reads back as the receipt's; the block number (0 when absent), the sender, and the block time in milliseconds come from the fetched values; defaults for recipient, value, symbol and the unset price fields |
| Enrich.EnrichTx | src/utils/enrich.ts:11-57 | an unknown chain fails with the unsupported-chain error and a chain without endpoint with the no-endpoint error; success iff the client is built and the node has the transaction, its receipt and its block, read under the normalised hash; then the record is the assembled one |
| Enrich.ClassNamesAreNotFallback | src/utils/enrich.ts:29-35 | no base-type name equals the fallback activity, so the fallback always tells failure apart |
| Enrich.EnrichIgnoresHashPrefix | src/utils/enrich.ts:17-42 | enriching a hash with or without "0x" gives the same record except for the reported hash |

## Left out

- Event decoding: ABI decoding of topics and data is a foreign call. Each log carries three optional decode results, one per standard.
- Call-data decoding: only the first ten characters of the input are read, so the selector is a string prefix. Checksum addressing is left out; the zero address is compared as a string.
- Number conversions: `Number(...)` on block numbers and gas loses precision above 2^53 and prints in exponent form above 10^21. The model uses unbounded naturals and plain decimal text.
- Ether formatting and the ISO rendering of the block time: ether formatting is a parameter, and the time is kept as milliseconds.
- The floating-point gas fee in the native unit is computed by the source but never returned, so it is left out.
- `usdValue` of token transfers: it is always unset, so the field is left out.
- `protocol` of the classification: it is never set, so the field is left out.
- The wall clock: each callback takes one `now`, which serves as both the saved timestamp and the refreshed activity time. The source reads the clock separately for each.
- Concurrency: callbacks are asynchronous, reconciliation is periodic, and two concurrent saves can both pass the hash check. The model runs one sequential step at a time.
- Store and database failures: a failed lookup or write is caught by the save, and a failed contract query is caught by the pass. Neither is modelled, except that a record failing schema validation is not written.
- The subscription itself is an opaque handle; the node-side log stream is not modelled. `ContractWatcher.ContractWatchers.OnLogs` takes the delivered batch, and the active contracts are a parameter of `ContractWatcher.ContractWatchers.Reconcile`.
- Lower-casing is ASCII only. JavaScript lower-casing also maps non-ASCII letters, which addresses do not contain.
- Enrich.EnrichTx: the classifier's outcome is an input, not a call of the classifier on the node's data. It is `None` when classification throws.
- The `isTestnet` and `userId` that the callback passes with a request are carried in `SaveTx.TxData` but never stored, because the save does not read them.
- Classifier.ClassifyTransaction: the classifier's own client and its transaction and receipt fetches (src/utils/classifyTx.ts:98-100) are inputs, so its throws for an unknown chain or a missing transaction are not modelled.
- ContractWatcher.ContractWatchers.Reconcile: the registry is a map, so inherited object member names such as `constructor`, `toString` or `__proto__` are not keys. In the source such a chain name passes the registry check, and the client factory then throws a type error that ends the pass.
- Enrich.EnrichTx: for the same reason, a chain named like an inherited object member is an unsupported chain here, where the source throws a type error instead of the unsupported-chain error.
- The active contracts come from a query on the contract status (src/utils/contractWatcher.ts:17); the status is not part of the model, and the query's result is the `active` parameter.
- The HTTP controllers, routes, authentication, models other than the transaction schema, and the application bootstrap are outside the modelled core.
