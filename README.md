# valis indexer core in Dafny

valis indexes Cosmos chains into Postgres. The `start` command checks its flags, finds the chain in the config, settles the height range and resolves the configured block actions. It then calls `ForEachBlock`. That call fetches every height with a bounded retry, runs every action on each fetched block and collects the heights it could not fetch. The one registered action, `ics20_transfers`, handles each tx that decodes, that `QueryTx` finds and whose hash, time and raw log pgtype's `Set` accepts. For such a tx it inserts:

- one `Tx` row, which the database may refuse;
- whether or not that row was stored, one row per ICS-20 transfer, packet receipt, timeout or acknowledgement message, keyed by (tx hash, message index).

The `chains add` command extends the chain table from a JSON file or from the cosmos chain registry.

The model has one module per source file:

| module (file) | models |
|---|---|
| `Indexer` (indexer.dfy) | `indexer/indexer.go`: one pass of `ForEachBlock` as a sequential loop. `RetryDo`, `Task` and `RunPass` specify it. The class `Indexer` holds the imperative methods, proved against those functions. `PassState` holds `failedBlocks`, the semaphore as a slot counter and the mutex. |
| `IbcTypes`, `IbcModels` (ibc_types.dfy, ibc_models.dfy) | Decoded txs, messages, fee selection and the raw log. The gorm row types, keyed as in `ibc_models.go`. The database is a `Store` whose `rows` only grow and whose primary keys stay unique. |
| `Ibc` (ibc.dfy) | `indexer/actions/ibc/ibc.go`. `IndexIBCTransfers` and `HandleIBCMsg` are methods on the action value, proved against `IndexedFrom` and `HandledMsg`. |
| `Ics20` (ics_20.dfy) | `indexer/actions/ibc/ics_20.go`, the older twin. A `Sink` records the calls made to the `Insert*Row` helpers, which are not part of this model. |
| `Actions` (actions.dfy) | `cmd/actions.go`: the name-to-action switch. |
| `Configuration` (config.dfy) | `cmd/config.go`: the chain table with `AddChainConfig` and `GetChainConfig`, the default database settings and the connection string. |
| `Chains` (chains.dfy) | `cmd/chains.go`: the registry add loop, with its sticky `found` flag, and the file/registry switch. |
| `Start` (start.dfy) | `cmd/start.go`: the `RunE` of `startCmd`. |
| `Format`, `Wrappers`, `ChainTypes` | `%d` rendering, `Option`/`Result`, and heights, times, raw txs and blocks. |

The collaborators are parameters:

- **Chain RPC.** `rpc(height, attempt)` answers each attempt of a block query. `client.decode`, `client.queryTx` and `latest` stand for the decoder, `QueryTx` and `QueryLatestHeight`.
- **Chain registry.** `ListChains` is a `Result`. `lookup(name, j)` is the combined `GetChain`/`GetChainConfig` answer at registry entry `j`.
- **Database.** `fault(row)` says whether the database refuses a row for a reason other than a duplicate key.
- **pgtype.** `pg.set*` says whether pgtype's `Set` accepts a value.
- **Context.** `ctx(i)` is `ctx.Err()` as seen before tx `i`.
- **Actions.** `execute(action, block)` is an action's `Execute`.
- **Setup.** `setupErr` covers creating the client, connecting to the database and opening the debug listener. `overwrite` is what `OverwriteConfig` returns.

## Model

| member | source | states |
|---|---|---|
| Indexer.Executions | indexer/indexer.go:100-110 | The action loop, as a specification. `ExecutionsRunEveryActionOnce` states its properties. |
| Indexer.Task | indexer/indexer.go:72-114 | One goroutine's task, as a specification. `TaskBehaviour` states its properties. |
| Indexer.RunPass | indexer/indexer.go:68-118 | One pass over the heights, as a specification. `PassErrorIffFailure`, `PassFailedAreFailedFetches`, `PassIgnoresActionErrors` and `PassWithoutFailuresRunsEverything` state its properties. |
| Indexer.RetryDo | indexer/indexer.go:76-87 | It makes between 1 and RtyAttNum = 5 attempts and returns the reply of the last one. A failure means all 5 attempts failed. Every attempt before the last one failed. |
| Indexer.TaskBehaviour | indexer/indexer.go:72-114 | A task queries its height 1 to 5 times. A failed fetch runs no action, puts the height in `failedBlocks` and returns the last fetch error. A fetched block gets every action exactly once, in slice order, and the task returns nil. |
| Indexer.ExecutionsRunEveryActionOnce | indexer/indexer.go:100-110 | On a fetched block, `Execute` is called exactly once per action, in slice order, whatever the actions return. |
| Indexer.PassErrorIffFailure | indexer/indexer.go:116-123 | A pass returns an error exactly when `failedBlocks` is non-empty, and that happens exactly when some fetch failed. The error is the last fetch error of the first failing height. So the recursive call at line 122 cannot be reached. |
| Indexer.PassFailedAreFailedFetches | indexer/indexer.go:87-93 | A height is in `failedBlocks` exactly when it is in the input and its fetch failed. The list is no longer than the input. |
| Indexer.PassIgnoresActionErrors | indexer/indexer.go:101-113 | What actions return changes neither the pass's error, nor `failedBlocks`, nor which actions run on which blocks. |
| Indexer.PassWithoutFailuresRunsEverything | indexer/indexer.go:68-124 | When every fetch succeeds, the result is nil with no failures. Every entry of `blocks`, duplicates included, gets the whole action list once, in input order. |
| Indexer.AppendFailedAsWrittenBlocks | indexer/indexer.go:89-93 | As written (`defer mutex.Lock()`), appending a failed height never completes. |
| Indexer.AppendFailed | indexer/indexer.go:89-93 | The intended Lock/append/Unlock leaves the mutex free and appends exactly the height. |
| Indexer.PassState.constructor | indexer/indexer.go:56-61 | A pass starts with no failed heights, no slot held and the mutex free. |
| Indexer.PassState.Acquire | indexer/indexer.go:70 | Taking a slot needs a free one and raises the held count by one, so the count never exceeds `concurrentBlocks`. |
| Indexer.PassState.Release | indexer/indexer.go:112 | Giving a slot back lowers the held count by one. |
| Indexer.PassState.AppendFailedBlock | indexer/indexer.go:89-93 | `failedBlocks` grows by exactly the height and the mutex is free again. |
| Indexer.Indexer.QueryBlock | indexer/indexer.go:76-87 | The retry loop returns the reply `RetryDo` describes and records exactly its attempts. |
| Indexer.Indexer.RunTask | indexer/indexer.go:72-114 | The task body does what `Task` describes, including the heights it adds to `failedBlocks`. It releases its slot exactly once on each path. |
| Indexer.Indexer.RunActions | indexer/indexer.go:100-110 | The action loop calls `Execute` exactly as `Executions` describes: once per action, in order, with a failure only logged. |
| Indexer.Indexer.ForEachBlock | indexer/indexer.go:55-125 | The result and the recorded queries and action calls are those of `RunPass`. The recursion branch is proved dead. |
| IbcTypes.SelectFee | indexer/actions/ibc/ibc.go:104-113 | The fee amount and denom: those of the first coin, or "0" and "" when there is none. `TxCallsShape` states this. |
| IbcTypes.RawLog | indexer/actions/ibc/ibc.go:151-155 | The raw log. `RawLogRoundTrip` states its properties. |
| IbcTypes.RawLogRoundTrip | indexer/actions/ibc/ibc.go:151-155 | The raw log is the log itself when the code is 0. Otherwise it is the log wrapped in `{"error":"…"}`, 12 characters longer. The log text can be read back out of it. |
| IbcModels.InsertKeepsKeysUnique | indexer/actions/ibc/ibc_models.go:10-67 | An insert appends the row or nothing. It stores the row exactly when the key is free and the database accepts it. Primary keys stay unique. |
| IbcModels.Store.Create | indexer/actions/ibc/ibc.go:170 | `Create` stores the row exactly when it returns no error. |
| Ibc.NewIBCTransfer | indexer/actions/ibc/ibc.go:30-40 | The new action's `Name()` is `"ics20_transfers"`. |
| Ibc.IBCTransferAction.Name | indexer/actions/ibc/ibc.go:38-40 | The action's name. `NewIBCTransfer` states that it is `"ics20_transfers"`. |
| Ibc.MsgRow | indexer/actions/ibc/ibc.go:208-330 | The row a message maps to. `MsgRowKey` states its properties. |
| Ibc.HandledMsg | indexer/actions/ibc/ibc.go:206-334 | One message's effect on the rows. `HandledMsgOnCleanStore` states its properties. |
| Ibc.HandledMsgs | indexer/actions/ibc/ibc.go:174-176 | The message loop. `HandledMsgsKeepRows` and `HandledMsgsOnCleanStore` state its properties. |
| Ibc.IndexedTx | indexer/actions/ibc/ibc.go:71-176 | One tx's effect on the rows. `IndexedTxKeepsRows`, `IndexedTxSkipped` and `IndexedTxAccepted` state its properties. |
| Ibc.IndexedFrom | indexer/actions/ibc/ibc.go:60-179 | The tx loop. `IndexErrorIffCancelled`, `IndexStopsAtCancel`, `IndexIgnoresInsertFailures` and `IndexKeepsRows` state its properties. |
| Ibc.IndexStopsAtCancel | indexer/actions/ibc/ibc.go:62-69 | Once the context is found done before tx `i`, the action returns that `ctx.Err()` and processes no further tx. Its rows are exactly those of the txs before `i`. |
| Ibc.IBCTransferAction.Execute | indexer/actions/ibc/ibc.go:54-56 | `Execute` has the outcome of `IndexIBCTransfers`. |
| Ibc.IBCTransferAction.IndexIBCTransfers | indexer/actions/ibc/ibc.go:60-179 | The tx loop returns the error `IndexedFrom` gives and leaves the rows it describes. A failed decode, `QueryTx` or `Set` skips the tx. The fee is the first coin or "0"/"". A failed Tx insert does not stop the message rows. |
| Ibc.IBCTransferAction.HandleIBCMsg | indexer/actions/ibc/ibc.go:206-334 | The message's row, if it has one, goes through one insert. A failed `TxHash.Set` only leaves the hash undefined. |
| Ibc.IndexErrorIffCancelled | indexer/actions/ibc/ibc.go:60-69 | The action returns an error exactly when the context is found done before some tx. The error is `ctx.Err()` from the first such check. Otherwise it returns nil. |
| Ibc.IndexIgnoresInsertFailures | indexer/actions/ibc/ibc.go:170-176 | The database's acceptance or refusal of rows never changes what the action returns. |
| Ibc.HandledMsgsKeepRows | indexer/actions/ibc/ibc.go:174-176 | Message handling only appends and keeps keys unique. Each added row is the row of the message whose position is its `msgIndex`. |
| Ibc.IndexedTxKeepsRows | indexer/actions/ibc/ibc.go:71-176 | One tx only appends and keeps keys unique. Every added message row belongs to the message at its index in the decoded tx. |
| Ibc.IndexKeepsRows | indexer/actions/ibc/ibc.go:60-179 | Over a block, the table only grows and its primary keys stay unique. |
| Ibc.MsgRowKey | indexer/actions/ibc/ibc.go:206-334 | Only transfer and the three packet messages map to a row. The row's key is the tx hash it carries and the message index. |
| Ibc.HandledMsgOnCleanStore | indexer/actions/ibc/ibc.go:174-176 | On a database that refuses no message row, one message adds its row, keeping the keys of later messages free. |
| Ibc.HandledMsgsOnCleanStore | indexer/actions/ibc/ibc.go:174-176 | On a database that refuses no message row, with no message row of that tx hash yet, every IBC message is stored in message order. |
| Ibc.IndexedTxSkipped | indexer/actions/ibc/ibc.go:71-168 | A tx that fails to decode, is not found by `QueryTx`, or has its hash, time or raw log refused by `Set` adds no row at all. |
| Ibc.IndexedTxAccepted | indexer/actions/ibc/ibc.go:115-176 | Take an accepted tx on a database that refuses no message row. It gets one `Tx` row insert, and then the rows of all its IBC messages go in, in order. When the database refuses the `Tx` row, only the message rows are added. Under the real schema, a message row whose `Tx` row is absent would itself be refused by the foreign key. The model counts that refusal under `fault`, which this lemma's precondition excludes. |
| Ics20.NewIBCTransfer | indexer/actions/ibc/ics_20.go:29-39 | The new action's `Name()` is `"ics20_transfers"`. |
| Ics20.IBCTransfer.Name | indexer/actions/ibc/ics_20.go:37-39 | The action's name. `Ics20.NewIBCTransfer` states that it is `"ics20_transfers"`. |
| Ics20.MsgCallOf | indexer/actions/ibc/ics_20.go:134-183 | One message's insert call. `MsgCallsMatchIbcRows` states its properties. |
| Ics20.MsgCalls | indexer/actions/ibc/ics_20.go:105-107 | The message loop's calls. `MsgCallsByPosition` states its properties. |
| Ics20.TxCalls | indexer/actions/ibc/ics_20.go:50-107 | One tx's calls. `TxCallsShape` and `TxCallsMatchIbcRows` state its properties. |
| Ics20.BlockCalls | indexer/actions/ibc/ics_20.go:48-110 | The calls for a block: those of its txs, in tx order. `AfterBlockAppends` and the method `IndexIBCTransfers` state this. |
| Ics20.IBCTransfer.Execute | indexer/actions/ibc/ics_20.go:42-44 | `Execute` returns nil and makes the calls of `IndexIBCTransfers`. |
| Ics20.IBCTransfer.IndexIBCTransfers | indexer/actions/ibc/ics_20.go:48-110 | It always returns nil. Each tx makes exactly the calls `TxCalls` lists, in tx order. |
| Ics20.IBCTransfer.HandleIBCMsg | indexer/actions/ibc/ics_20.go:134-183 | A message makes its one insert call, or none for other types. Insert errors are dropped. |
| Ics20.MsgCallsByPosition | indexer/actions/ibc/ics_20.go:105-107 | There is one call per IBC message and none for others. Every call carries the tx hash. Calls follow message order with `msgIndex` equal to the position. |
| Ics20.TxCallsShape | indexer/actions/ibc/ics_20.go:50-103 | A tx that fails to decode or to be queried makes no call. Otherwise `InsertTxRow` comes first, with the raw log wrapped exactly when the code is non-zero and the fee chosen as the first coin or "0"/"". One call per IBC message follows. |
| Ics20.MsgCallsMatchIbcRows | indexer/actions/ibc/ics_20.go:134-183 | Each message call carries exactly the data of the row the gorm-based action builds. For `MsgTransfer`, both signer and sender are `m.Sender`. |
| Ics20.TxCallsMatchIbcRows | indexer/actions/ibc/ics_20.go:48-110 | Take a database that refuses nothing, a pgtype that accepts everything, and no earlier row of the tx hash. Then the gorm-based action stores exactly the rows of this version's calls, in order. |
| Ics20.AfterBlockAppends | indexer/actions/ibc/ics_20.go:49-108 | Recording the calls of a block appends the calls of its txs in tx order. |
| Actions.GetBlockActionByName | cmd/actions.go:16-23 | The lookup succeeds exactly for `"ics20_transfers"`, with a fresh action whose `Name()` is that name. Any other name, `"daodao"` included, gets the "no block action configured" error. |
| Actions.ActionNameRoundTrip | cmd/actions.go:17-19 | A resolved action's name resolves again to the same action. |
| Configuration.FindChainConfig | cmd/config.go:235-242 | The lookup returns the first entry with the ID. It fails, with "chain with ID … is not configured", exactly when no entry has the ID. |
| Configuration.AddChain | cmd/config.go:222-232 | An add succeeds exactly when the ID is non-empty and not yet present. It then appends exactly that entry. The empty-ID and duplicate-ID errors carry their messages. |
| Configuration.Config.Default | cmd/config.go:245-256 | The defaults are localhost:5432, user anon, password123, database atlas, sslmode disable and driver postgres, with no chains and no actions. |
| Configuration.Config.GetChainConfig | cmd/config.go:235-242 | The search loop returns what `FindChainConfig` describes. |
| Configuration.Config.AddChainConfig | cmd/config.go:222-232 | On error the table is unchanged. Otherwise it is the old table plus the entry. |
| Configuration.AddThenGet | cmd/config.go:222-242 | After a successful add, looking up its ID returns the added entry. |
| Configuration.AddKeepsChainsValid | cmd/config.go:222-232 | Non-empty, distinct IDs stay non-empty and distinct after an add. |
| Configuration.AddLeavesOtherLookups | cmd/config.go:222-242 | An add changes no lookup of another ID. |
| Configuration.DatabaseConfig.ConnectionString | cmd/config.go:260-263 | The config's connection string, built from its database settings, which are all the Go method reads. `ConnectionStringLayout` states its layout and `ConnectionStringIgnoresDriver` that the driver takes no part. |
| Configuration.ConnectionStringIgnoresDriver | cmd/config.go:260-263 | The driver takes no part in the connection string. |
| Configuration.ConnectionStringLayout | cmd/config.go:260-263 | The connection string is the settings host, port (in decimal), user, password, dbname and sslmode, in that order. Each setting is written `key=value`, and the settings are separated by single spaces. |
| Format.NatToDecimal | cmd/config.go:261 | `%d` of a non-negative number prints at least one digit, all decimal, with no leading zero. |
| Format.IntToDecimal | cmd/config.go:261 | `%d` of the port, a signed int, starts with `-` exactly when the number is negative. The rest is decimal digits that read back to its magnitude. |
| Format.DecimalRoundTrip | cmd/config.go:261 | Reading the printed digits back gives the number. |
| Chains.ScanRegistry | cmd/chains.go:159-205 | The inner loop for one name. `AbsentNameAddsNothing`, `FoundRetriesLaterEntries`, `ScanAddsAtMostOne` and `ScanKeepsChainsValid` state its properties. |
| Chains.AddFromRegistry | cmd/chains.go:157-208 | The outer loop over the names. `RegistryKeepsEarlierChains`, `RegistryErrorIgnoresLaterNames` and `RegistryKeepsChainsValid` state its properties. |
| Chains.RegistryErrorIgnoresLaterNames | cmd/chains.go:193-201 | An `AddChainConfig` error ends the whole run with that error. Requested names after it are never looked up and change neither the error nor the table. |
| Chains.RegistryAdd | cmd/chains.go:150-209 | addChainConfigsFromRegistry: a `ListChains` error comes first. The method `AddChainConfigsFromRegistry` is proved against it. |
| Chains.FileAdd | cmd/chains.go:126-146 | addChainConfigFromFile. The method `AddChainConfigFromFile` is proved against it. |
| Chains.ChainsAdd | cmd/chains.go:46-65 | The file/registry switch followed by the write. `ChainsAddBranches` and the method `RunChainsAdd` state its properties. |
| Chains.AddChainConfigsFromRegistry | cmd/chains.go:150-209 | The nested loop has the outcome `RegistryAdd` describes. A `ListChains` error is returned before anything is added. An add error ends the call with that error. |
| Chains.AddChainConfigFromFile | cmd/chains.go:126-146 | A read or decode error is returned. Otherwise the decoded config goes through `AddChainConfig`. |
| Chains.RunChainsAdd | cmd/chains.go:46-65 | A non-empty `--file` takes the file branch, otherwise the registry branch with the arguments. The config is written only when that branch succeeded. |
| Chains.AbsentNameAddsNothing | cmd/chains.go:158-171 | A name missing from the registry list adds nothing and is no error. |
| Chains.FoundRetriesLaterEntries | cmd/chains.go:158-191 | `found` is never reset. Once the name is seen, the first later entry whose lookup succeeds decides the outcome, whatever name that entry holds. |
| Chains.ScanAddsAtMostOne | cmd/chains.go:157-205 | A requested name adds at most one config, the one a lookup produced. A scan that ends in error adds nothing. |
| Chains.RegistryKeepsEarlierChains | cmd/chains.go:157-208 | Names go in order. The table only grows, by at most one entry per name. Configs added before an error stay. |
| Chains.RegistryKeepsChainsValid | cmd/chains.go:157-208 | Chain IDs stay non-empty and distinct through a registry add. |
| Chains.ScanKeepsChainsValid | cmd/chains.go:159-205 | One name's scan keeps chain IDs non-empty and distinct. |
| Chains.ChainsAddBranches | cmd/chains.go:53-62 | The file branch ignores the registry and the arguments. The registry branch ignores the file. |
| Start.HeightsBetween | cmd/start.go:109-112 | The heights are begin, begin+1, …, end-1, max(0, end-begin) of them. |
| Start.HeightRange | cmd/start.go:109-112 | The height loop builds exactly `HeightsBetween`. |
| Start.Resolved | cmd/start.go:114-122 | The resolved actions. `ResolvedKeepsRegisteredNames`, `NoActionsIffNoneRegistered` and `ResolvedAppend` state its properties. |
| Start.ResolveActions | cmd/start.go:114-122 | The action loop builds exactly `Resolved`: config order kept, unknown names skipped. |
| Start.Plan | cmd/start.go:33-126 | The checks in their order, each with its own error. A concurrency below 1 is rejected before anything else. Then an unknown chain gives `GetChainConfig`'s error, a setup failure gives its error, a failed `QueryLatestHeight` (only asked when `endBlock` is 0) gives its error, and no registered action gives the "no block actions configured" error. A successful plan keeps the concurrency and the chain found, has at least one action and covers the heights from begin up to end. An `endBlock` of 0 is replaced by the latest height. |
| Start.RunE | cmd/start.go:29-134 | When the plan fails, the error is returned and `ForEachBlock` is never called. Otherwise `ForEachBlock`'s result is returned unchanged. |
| Start.ResolvedKeepsRegisteredNames | cmd/start.go:114-122 | There is one resolved action per registered name in the config, each the IBC transfer action, named as configured. |
| Start.NoActionsIffNoneRegistered | cmd/start.go:114-126 | No action resolves exactly when no configured name is registered. |
| Start.ResolvedAppend | cmd/start.go:114-122 | Resolving a concatenated name list concatenates the results, so config order is kept. |
| Start.PlanNeedsEveryCheck | cmd/start.go:33-126 | The run goes ahead exactly when all of these hold: the concurrency is at least 1, the chain is configured, setup succeeded, the latest height is known when needed, and some configured name is registered. |

## Left out

- Goroutines, `errgroup` and the `sem` channel. A pass runs its tasks one after another in input order. `eg.Wait`'s first error is the first in input order rather than in time. The cancellation of sibling tasks through `egCtx` is not modelled.
- The retry timing: the 400 ms base delay, `BackOffDelay` and the `OnRetry` log. An early stop on a cancelled context is not modelled either.
- Block RPC: the answer is keyed by (height, attempt within one `retry.Do`). A height listed twice therefore gets the same answers both times.
- `Indexer.Indexer.ForEachBlock`: requires `concurrentBlocks >= 1`. With 0 the `sem` channel is unbuffered and the first send blocks forever. `start` rejects 0 before calling it.
- The recursion of `ForEachBlock` on `failedBlocks`: proved unreachable, so it is not modelled further.
- `NewIndexer`, `ConnectToDatabase` and the logger: plumbing, covered by `setupErr`. The call at cmd/start.go:61 passes arguments that do not match indexer/indexer.go:129.
- Schema migration: `start` never calls `MigrateSchema` (so never `AutoMigrate`), and the tables are assumed to exist. A missing table shows up as a `fault` on every `Create`.
- Foreign keys: the database model checks primary keys only. The foreign keys from message rows to `Tx` rows fall under the `fault` oracle.
- The unchecked `sdkTx.(sdk.FeeTx)` assertion, which panics on a tx without fees. Decoded txs always carry a fee list here.
- The `select` in ibc.go waits 100 ms before each tx. Only its `ctx.Done()` branch is modelled.
- ics_20.go and ibc.go both declare `NewIBCTransfer` in one package, so they cannot build together. Both are modelled as separate modules. The registry returns the ibc.go action.
- The `Insert*Row` helpers called by ics_20.go are not part of this model. Only their calls and arguments are recorded.
- `RawLog` is built by plain string formatting, so quotes in the log are not escaped. `setJsonb` stands for any failure of the raw log's `Set`. pgtype's `JSONB.Set` copies a string without parsing it. Invalid JSON is therefore refused by Postgres at `Create`, which the model counts as a `fault` on the `Tx` row. The message rows are still attempted after that refusal.
- `ChainClientConfig` keeps only its ID, RPC address, account prefix and gas prices.
- The config holds pointers to chain configs. The model holds values, so aliasing and the `Modules` assignment at cmd/start.go:48 are not captured.
- Cobra/viper wiring, cmd/flags.go, YAML/JSON marshalling, `configInitCmd`, `configShowCmd`, `createConfig`, `initConfig`, `chainsRegistryList` and the debug server.
- `defaultConfig` returns YAML bytes. Only the `Config` value it marshals is modelled.
- indexer/actions/daodao/daodao.go is not part of this model. The action only logs and is not registered.
- Heights, times and gas values are unbounded integers. int64 overflow is not modelled.
- `Actions.GetBlockActionByName`: the `Config` receiver is not a parameter, because the source never reads it. The logger it passes to the action (cmd/actions.go:19) is not a parameter either, because logging is not modelled.

## Findings

| source | as written | input that shows it | evidently intended | confidence | as-written member | corrected member |
|---|---|---|---|---|---|---|
| indexer/indexer.go:89-93 | `mutex.Lock()` followed by `defer mutex.Lock()` | any height whose block query fails all 5 attempts: the second `Lock` waits forever on the mutex the goroutine itself holds, so `eg.Wait` never returns | `defer mutex.Unlock()` | high; not executed | Indexer.AppendFailedAsWrittenBlocks | Indexer.AppendFailed |
