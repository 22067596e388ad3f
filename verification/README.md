# hxscanner: a verified model of the ingestion engine and of its JSON-RPC codecs

hxscanner walks a blockchain block by block and fills a PostgreSQL database with about ten kinds
of rows. It uses find-then-save everywhere: no SQL transaction spans two writes, and apart from
two primary keys no constraint backs the logical keys. It checkpoints every hundred blocks or at
the head of the chain, and after any crash it starts again one block after the checkpoint, over
its own half-written rows. This project models that engine and proves what the database holds
after arbitrary crashes, replays, node progress and logged errors. A second, independent part
models the pair of JSON-RPC codecs the scanner talks to its node with.

## How the model is built

**The engine as a state machine** (`Script`, `Plans`, `Machine`). For every block the nested loops
issue a list of instructions: find-or-save of one row, a hash back-fill, a refresh of a number
mirrored from the node, the end of the block, or `Halt` for a deterministic fatal error or panic. An
instruction can wait for a guard: a registered token contract, or the presence or absence of an
operation's transfer history row. `Script` computes that list from an arbitrary, possibly malformed
block, branch by branch. A run is any sequence of actions: the node's head advances, the process
crashes and restarts from the checkpoint, it polls for a block, writes its checkpoint between
blocks, executes one database write (a query and the write that follows are separate steps, a
receipt and each of its event rows too), or skips part of a block because an error was only logged.
The disk survives a crash; cursor, schema cache and everything in progress do not. A high-water mark
counts the instructions whose deterministic effect has ever been executed. Columns have limits
(`HistoryFits`, `TokenFits`, `AccountFits`, `NumberFits`): a transfer of 10^18 or more has no
history row and its event is left half done, a balance of 10^18 or more stops the scan for as long
as the node answers it. `Plan` keeps of a world only what a run depends on; `PlanOf(w)` is the plan
of a chain.

**What the chain says** (`Readings`, `Places`, `OpContents`). `Readings` reads blocks, transactions,
operations and receipts with no reference to the scripts: which operations the scanner gets to, what JSON
they are stored with, which balances they move, what they register, deposit and tell. `OpContents` and
`OpOrder` prove that an operation's script contains exactly what these readings call for, in the source's
order; `Places` says where each operation's part stands in the whole script. On top of that the `Chain*`
modules, `Ingestion` and `Stops` say what the tables hold after any run in terms of the chain alone:
rows of blocks, transactions and receipts (`ChainBlocks`), operation tables and rows (`ChainRows`), accounts
and tokens (`ChainNames`), transfer history (`ChainHistory`), balances (`ChainBalances`), missed numbers
(`ChainMisses`), and the assumption on the order of events (`ChainOrder`).

**The process as imperative code** (`RowTables`, `Databases`, `Indexers`, `Plugins`, `Scanner`).
The database is a class whose tables are lists of rows with serial ids and no key constraint; the
scanner's loops, the five plugins and the data access operations are methods over it, in the form
the source has. Before every call to the node or the database an oracle decides whether the call
works, reports an error or is the moment the process dies, and how far the node's head moves. Each
method is given the rest of the block's script and proved to do exactly its own part: the object
carries, as ghost state, the machine run it is going through, and its invariant says that the rows
are what that run's disk says. So what is proved of runs is true of the process; `Guarantees` says how.

**Two fault models.** Crashes only, fatal errors among them (`FailStop`, for the process: `calm`):
confluence, convergence, completeness and the results that follow from them. Crashes and errors that
are only logged, so that the loops go on without the rest of an event, a transaction or a block: keyed
uniqueness, referential integrity, schema-cache coherence, the checkpoint's lag, and events at most
once hold of every run.

**Where the code falls short.** That every mirrored number catches up with the node is false: a
number is *missed* if a block names it, but the history rows of all the events that do are refused,
and no later block asks for it. `Misses` proves that being missed is exactly what keeps a number
from converging, `ChainMisses` says in terms of the chain's events alone which numbers are missed,
`Oversized` gives a chain on which it happens, and `Amounts` proves that nothing is missed on a
chain whose transfers fit their columns. That a scan with crashes only gets to the head is false as
well: `Progress` computes how far it can get, and proves that it gets exactly that far; `Stops` says
exactly which operations stop it for good, with chains of one operation, and `Oversized` a refused transfer
that does so because no event follows it.

**The codecs** (`JsonRpc`, `RpcNetwork`, `RpcConnection`). Client and server codec are classes with
their `pending` maps; a network of two FIFO wires carries requests and responses, the server answers
in any order. `RpcConnection` puts the classes at the two ends and proves that whatever is called
in whatever order is a run of that network.

## Assumptions

- The chain has no forks: it is a fixed sequence, only the node's head moves along it. It has fewer
  than 2^31 blocks, and an asset appears once in the node's list (`WorldOk`).
- Transaction ids are unique (`UniqueTxids`); the node's second reply has one id per transaction.
- A transaction's receipts are a fixed answer of the node, are not null, and carry its id
  (`ReceiptsCarryTxid`).
- For transfer history, convergence and progress: no event of a token contract comes before the
  contract's registration (`EventsFollowRegistration`; `RegisteredFirst` on the chain). The other tables
  do not need it.
- For convergence: a block changes a mirrored number only if an operation of it moves the balance, an
  event of it is about the number, or it registers the contract (`LedgerFollows` on the chain, equivalent
  to `LedgerLocal` on the script by `ChainBalances.LedgerExactly`).
- What a column of the remaining tables is given fits it; so do timestamps in every table, asset ids
  and symbols, and the names and symbols of tokens.
- Restarts go by the checkpoint. The node stays connected. A failed call has had no effect.
- Decimal division rounds to 16 fractional digits, halves away from zero.
- A connection carries fewer than 2^64 requests, under numbers not used before.

## Model

| member | source | states |
|---|---|---|
| Confluence.ReplayConfluence | src/scanner/scanner.go:50-315 | after any run with crashes and restarts at any write boundary, the deterministic tables equal a single undisturbed pass over the chain up to the high-water mark |
| Confluence.ReplayConfluenceButHistory | src/scanner/scanner.go:50-315 | for all tables but transfer history this holds even if events come before their contract's registration |
| Confluence.RunsAgree | src/scanner/scanner.go:84-302 | two crash histories that got equally far leave identical deterministic tables |
| Confluence.ReplayIsSilent | src/scanner/scanner.go:82-302 | a step below the high-water mark changes no deterministic table |
| Confluence.SchemaCacheCoherence | src/scanner/scanner.go:18-31 | in every run, logged errors included, a cached schema is the live schema of an existing table |
| Replay.Absorbed | src/scanner/scanner.go:84-302 | executing again anything already in the executed prefix leaves the tables of the prefix as they are, transfer history excepted if events may precede registrations |
| Replay.PlanOrdersBackFills | src/scanner/scanner.go:84-111 | in every plan a back-fill comes after the row it fills, and one block has one predecessor hash |
| Convergence.StaleImpliesPending | src/plugins/asset_balance_update_util.go:51-91 | a stored number that differs from the node's current one, or a balance (of an address or of a token) never stored that has changed since genesis, has a refresh at or after the cursor, or was missed |
| Convergence.ConvergedAtHead | src/plugins/asset_balance_update_util.go:68-89 | once nothing is left to scan the database is up to date for every number that was not missed |
| Convergence.AddressNeverMissed | src/plugins/transfer_plugin.go:45-52 | address balances are never missed, so they always converge |
| Convergence.StaleTokenBalance | src/plugins/token_contract_invoke_plugin.go:143-191 | a stale token balance has a Transfer event naming its owner ahead, whether or not its history row was a duplicate, or was missed |
| Convergence.StaleSupply | src/plugins/token_contract_invoke_plugin.go:192-209 | a stale total supply has an Inited event or a Transfer with an empty side ahead, or was missed |
| Misses.MissedExactly | src/plugins/token_contract_invoke_plugin.go:122-142 | if the scanner can keep level with the node up to block h, whatever ledger changes only this number (`Followable`), then some ledger and some run leave the number out of date with nothing left to scan if and only if it is missed: from some block that names it on, no event gets past its refused history insert to ask for it |
| ChainMisses.MissedOnChain | src/plugins/token_contract_invoke_plugin.go:96-210 | read off the chain: a token balance or a supply is missed if and only if its contract is registered somewhere and, from some block that has an event about it on, every such event is a Transfer that does not fit and has no fitting Transfer of a token contract before it in its operation (a supply also has to be registered before that block) |
| ChainMisses.StaleWasLost | src/plugins/token_contract_invoke_plugin.go:96-210 | whatever is out of date with nothing left to scan is a number of that kind, whatever the ledger |
| ChainMisses.LostExactly | src/plugins/token_contract_invoke_plugin.go:96-210 | and on a chain that the scanner can keep level with, any number of that kind goes out of date for some ledger and some run |
| ChainNames.TokensOnChain | src/plugins/token_contract_create_plugin.go:31-110 | read off the chain: a token contract's row is that of the first reached, successful, decodable registration with the token interface, field by field, and it is there once that operation's block is scanned |
| ChainNames.AccountsOnChain | src/plugins/account_register_plugin.go:15-41 | a payer's account is the name given by the first reached account_create_operation with that payer, and it is there once that block is scanned |
| ChainRows.TablesOnChain | src/scanner/scanner.go:179-212 | operations of a type have the table tbl_ and the type's name, whose columns are the properties of the chain's first reached operation of that type and the five added ones; it is there once that block is scanned |
| ChainRows.RowsOnChain | src/db/daos.go:582-622 | each well-formed reached operation has its row in its own type's table, under its transaction id and index: its JSON with the added properties, restricted to the table's columns, each value bound as its kind asks |
| ChainRows.OnlyRows | src/scanner/scanner.go:213-230 | no row is in an operation table but those of such operations of its type |
| ChainRows.BaseRowsOnChain | src/scanner/scanner.go:231-275 | and each has its row among all operations: transaction, block, place, type, JSON and the address its properties list first |
| ChainBlocks.BlocksOnChain | src/scanner/scanner.go:84-111 | a block's row holds its previous hash and number of transactions, and as its hash the next block's previous one exactly from that one's back-fill on |
| ChainBlocks.TxsOnChain | src/scanner/scanner.go:113-139 | a transaction that can be saved, and all before it in its block, has the row with its block, place, number of operations and first type |
| ChainBlocks.ReceiptsOnChain | src/scanner/scanner.go:286-301 | of a reached contract transaction every receipt of the node's answer has its key stored, with the first receipt of the answer under it, and its event rows are that receipt's events in order, all of them unless the save was torn |
| ChainBlocks.OnlyReceipts | src/scanner/scanner.go:286-301 | no other receipt is ever stored |
| ChainHistory.HistoryOnChain | src/plugins/token_contract_invoke_plugin.go:96-142 | an operation's history row is that of its first decodable, fitting Transfer of a contract that is ever a token, side by side, and it is there once the block is scanned |
| ChainOrder.FollowsOnChain | src/plugins/token_contract_invoke_plugin.go:61-75 | if on the chain every Inited and Transfer of a contract that is ever a token is in or after an operation that registers it, no instruction waits for a later registration |
| ChainBalances.AskedExactlyMoved | src/plugins/token_contract_invoke_plugin.go:219-254 | a block's script asks for the balance of an address in an asset if and only if a reached operation transfers it on either side, has both among its guessed properties, or has a heard receipt that deposits it |
| ChainBalances.SenderFirst | src/plugins/transfer_plugin.go:45-52 | of a transfer, the sender's balance is asked for right before the receiver's, both unconditionally |
| ChainBalances.LedgerExactly | src/plugins/asset_balance_update_util.go:51-91 | the ledger changes numbers only for reasons on the chain if and only if it does so only where the script says |
| ChainBalances.BalancesOnChain | src/plugins/asset_balance_update_util.go:68-89 | with nothing left to scan every balance of an address that some block moves is stored and is the node's balance at the head, scaled by the listed precision; one that is not stored has not changed |
| ChainBalances.NumbersOnChain | src/plugins/token_contract_invoke_plugin.go:143-210 | the same for token balances and supplies that are not lost |
| ChainBalances.SuppliesStored | src/plugins/token_contract_create_plugin.go:189-228 | if the node answers, every token contract has its supply stored from its registration on, whatever crashes there are |
| OpContents.TransferExactly | src/plugins/transfer_plugin.go:16-54 | the transfer plugin's part of the script for a readable transfer is the refresh of the sender's balance, then of the receiver's |
| OpContents.RegisterExactly | src/plugins/token_contract_create_plugin.go:31-110 | a token row is saved if and only if the receipt succeeded and the JSON registers it: interface lists, texts, gas price and limit as uint64, each from its own property |
| OpContents.AssetExactly | src/plugins/asset_maybe_change_plugin.go:22-63 | a balance is asked for if and only if the address and the asset are the first texts among the candidate properties, the amount's asset standing in for a missing or empty one |
| OpContents.DepositsExactly | src/plugins/token_contract_invoke_plugin.go:232-250 | a deposit refreshes (address, asset) if and only if some entry is a list of at least two items whose first is a list starting with these two texts |
| OpOrder.StepsInOrder | src/scanner/scanner.go:39-48 | an operation's table and rows come before its plugins, these in registration order, and events before deposits |
| OpOrder.TransferInOrder | src/plugins/token_contract_invoke_plugin.go:109-209 | of a Transfer first the history row, then the sender's and the receiver's balance, each once and the empty one never, then the supply if a side is empty |
| OpOrder.EventsInOrder | src/plugins/token_contract_invoke_plugin.go:47-60 | events are gone through in order, none left out |
| OpOrder.DepositsInOrder | src/plugins/token_contract_invoke_plugin.go:219-254 | so are deposits |
| Oversized.FollowedTransferMissed | src/plugins/token_contract_invoke_plugin.go:109-142 | a chain on which it happens: a Transfer of 10^18 followed by another event of its operation; both balances are missed |
| Oversized.FollowedTransferGoesStale | sqls/init.sql:160-174 | for that chain there are a ledger and a run that leave either balance out of date with nothing left to scan |
| Oversized.FollowedTransferLost | src/plugins/token_contract_invoke_plugin.go:109-142 | there the same is seen on the chain's events |
| Oversized.LastTransferStops | src/plugins/token_contract_invoke_plugin.go:137-255 | if nothing follows the transfer, its error is returned and fatal: no run with crashes only ever finishes the block |
| Amounts.NothingMissed | src/plugins/token_contract_invoke_plugin.go:122-142 | on a chain whose transfers are below 10^18 and whose names fit nothing is ever missed |
| Amounts.AmountsLikeBalances | sqls/init.sql:160-197 | an amount fits the history's column if and only if it would fit the column of balances |
| Amounts.CaughtUpAtHead | src/plugins/token_contract_invoke_plugin.go:47-218 | so there the database is up to date for every number once nothing is left to scan |
| Progress.ReachableExactly | src/scanner/scanner.go:50-315 | a run with crashes only can execute the first n instructions if and only if each can be executed in turn while the node moves on: halts shut, assets listed, rows accepted, numbers fitting at the block they are asked at |
| Progress.StuckForGood | src/scanner/scanner.go:278-284 | an instruction that cannot be executed, other than for a number that does not fit, is never passed, however often the process is restarted |
| Stops.StopsExactly | src/scanner/scanner.go:141-284 | an operation stops the scan whatever the tables hold if and only if its pair starts with null, its type's name needs quotes, or a plugin cannot read it: a transfer without its texts or amount, a successful registration that does not decode, a successful receipt in a block whose timestamp does not parse |
| Stops.ErrorsExactly | src/plugins/token_contract_invoke_plugin.go:211-256 | and it stops it depending on the tables if and only if its last event is a Transfer that is undecodable or does not fit and no deposit follows |
| Stops.BlockNeverFinished | src/scanner/scanner.go:177-284 | the block of an operation of the first kind is never finished, however often the process is restarted |
| Stops.PanicNeverFinished | src/db/daos.go:503-537 | nor is one that gets to a transaction whose first operation is an empty list |
| Stops.QuotedNameStops | src/nodeservice/operations.go:103-128 | a chain for it: one transaction with one operation of such a type is never finished |
| Stops.NullPairStops | src/scanner/scanner.go:141-160 | another: one with a pair that starts with null |
| Stops.NamesInTable | src/nodeservice/operations.go:103-128 | three names of the operation table need quotes |
| Ingestion.PrefixIngestion | src/scanner/scanner.go:113-176 | of a fully scanned block, malformed or not, exactly the longest prefix of savable transactions is stored, and of each exactly the longest prefix of well-formed operations of known type |
| Ingestion.NothingElse | src/scanner/scanner.go:126-275 | every stored transaction and operation comes from such a prefix of the chain |
| Ingestion.StoredTxLeads | src/db/daos.go:503-537 | a transaction found in the database, after any run, is one whose row can be made, and so are all before it in its block |
| Checkpoints.CheckpointLag | src/scanner/scanner.go:303-311 | in every run the cursor is at most 100 past the checkpoint, no multiple of 100 lies between, and no instruction past the hundredth block after it was ever executed |
| Checkpoints.CheckpointMonotone | src/scanner/scanner.go:72-80 | the checkpoint never moves back, restarts and logged errors included |
| Checkpoints.CheckpointSafety | hxscanner.go:59-70 | every instruction of every block up to the checkpoint is settled in the tables, and executing it again would change nothing |
| BackFills.HashBackFill | src/scanner/scanner.go:96-111 | a stored block's hash is the successor's Previous field once its back-fill was ever executed and empty before, and it is set for every block whose successor is below the cursor, whatever crash fell between |
| BackFills.HashStable | src/db/daos.go:267-295 | a hash once filled in never changes |
| ReceiptEvents.EventsAtMostOnce | src/db/daos.go:428-487 | in every run a receipt's event rows are a prefix of its events, and all of them unless its save is in progress or a crash fell inside it |
| ReceiptEvents.FirstReceiptStays | src/scanner/scanner.go:286-300 | a receipt row once stored stays the same |
| FirstWriters.HistoryFirstWriter | src/plugins/token_contract_invoke_plugin.go:96-142 | the history row of a (transaction, operation) is its first decodable Transfer of a contract that is ever a token whose amount and names fit the columns, replays notwithstanding |
| FirstWriters.AccountFirstWriter | src/plugins/account_register_plugin.go:15-41 | a payer's account row is the first account_create with string name and payer in scan order |
| FirstWriters.TokenFirstWriter | src/plugins/token_contract_create_plugin.go:153-228 | the token set is exactly the token contracts registered so far, each with the row of its first registration |
| FirstWriters.SchemaFirstWriter | src/scanner/scanner.go:181-212 | an operation table's columns are the keys of the first operation of its type and include the two the existence check uses |
| Integrity.ReferentialIntegrity | src/scanner/scanner.go:84-302 | in every run, logged errors included, operations have their tbl_* rows, these and receipts their transaction, transactions their block |
| Integrity.PlanTidy | src/scanner/scanner.go:113-302 | every block's script saves the rows an instruction relies on before that instruction |
| Guarantees.KeyedUniqueness | sqls/init.sql:33-180 | at every call, death and restart of the process, logged errors included, each table holds at most one row per logical key, and two rows of an operation table differ in trxid or index_in_tx |
| Guarantees.RowIntegrity | src/scanner/scanner.go:84-302 | the same for the links between rows |
| Guarantees.CalmConfluence | src/scanner/scanner.go:50-315 | as long as no error was merely logged, the rows are exactly those of one undisturbed pass, whatever deaths and fatal errors there were |
| Guarantees.CalmRun | src/scanner/scanner.go:50-315 | a process that no error has made skip anything is going through a run with crashes only, fatal errors among them, and its database is that run's disk |
| Guarantees.StuckProcess | src/scanner/scanner.go:278-284 | such a process before a dead end has come as far as it ever will |
| Guarantees.Deploy | hxscanner.go:53-70 | from the empty schema on, for every chain, every behaviour of node and database and every sequence of restarts, all of this holds |
| Scanner.ScanOp | src/scanner/scanner.go:177-284 | one operation: its script, that is table, row, base row and plugins, is done in order, or a logged error leaves exactly the undone rest; what the script holds, on the chain, is said by ChainRows and OpContents |
| Scanner.ScanOps | src/scanner/scanner.go:141-285 | the operation loop does the operation part of the transaction's script; it ends early only as that script does or after a logged error, and the process dies only after a failed call or at an instruction that cannot be executed as the tables and the node's answer stand |
| Scanner.ScanUnquoted | src/scanner/scanner.go:177-217 | of an operation whose name needs quotes the table is made, and then the process dies, unless an error before that was logged |
| Scanner.StoreOperation | src/scanner/scanner.go:213-230 | the operation's row is inserted unless its table already has one with its transaction id and index |
| Scanner.EnsureTable | src/scanner/scanner.go:181-212 | the operation's table exists afterwards, with the columns it was first given |
| Scanner.StoreTx | src/scanner/scanner.go:117-139 | a transaction's row exists afterwards, or the loop ends because of a logged error or because the leading operation's type is no integer |
| Scanner.StoreReceipts | src/scanner/scanner.go:286-301 | the whole list of receipts is gone through, each saved with its events unless it exists; ChainBlocks.ReceiptsOnChain says what is stored then |
| Scanner.ScanBlock | src/scanner/scanner.go:82-311 | a block's whole script is executed and the cursor moves on by one |
| Scanner.FillPreviousHash | src/scanner/scanner.go:96-111 | the hash of the block before is filled in where it is blank, and nowhere else |
| Scanner.ScanNext | src/scanner/scanner.go:53-81 | a round scans the block at the cursor if the node has it, and otherwise leaves the cursor and writes it less one as checkpoint |
| Scanner.ScanBlocksFrom | src/scanner/scanner.go:50-315 | after a number of rounds the cursor has moved on by the rounds that found a block; a scan ends otherwise only for a reason |
| Scanner.Start | hxscanner.go:59-70 | a start resumes at the checkpoint plus one with nothing in memory |
| Plugins.UpdateAddressBalance | src/plugins/asset_balance_update_util.go:51-91 | the pair's row holds afterwards the node's answer scaled by the asset's precision; an asset the node does not list and an amount that does not fit are fatal |
| Plugins.StoreListed | src/plugins/asset_balance_update_util.go:24-47 | the list loop stores every listed asset that is missing and finds the precision the node lists for the one looked for |
| Plugins.FindAsset | src/plugins/asset_balance_update_util.go:14-49 | an asset's precision is the one the node lists, from the table or from the list |
| Plugins.ApplyTransfer | src/plugins/transfer_plugin.go:16-54 | the transfer part of the script is done, or the process dies: missing fields are fatal, a missing asset is not; by OpContents.TransferExactly both sides are refreshed, sender first |
| Plugins.ApplyAccountRegister | src/plugins/account_register_plugin.go:15-41 | a payer gets an account row unless it has one |
| Plugins.TryProps | src/plugins/asset_maybe_change_plugin.go:28-43 | the first candidate property that is present as a string, if any |
| Plugins.ApplyAssetMaybeChange | src/plugins/asset_maybe_change_plugin.go:22-63 | the address and asset an operation may touch are refreshed, or nothing is |
| Plugins.ApplyTokenContractCreate | src/plugins/token_contract_create_plugin.go:153-241 | a successful registration of a token contract leaves a row for it, with the total supply the node answered or none |
| Plugins.ApplyInited | src/plugins/token_contract_invoke_plugin.go:61-95 | the total supply is asked for and stored, or after a logged error neither |
| Plugins.StoreHistory | src/plugins/token_contract_invoke_plugin.go:109-142 | the operation has a history row afterwards, unless a call failed or it had none and the row does not fit |
| Plugins.ApplyTransferEvent | src/plugins/token_contract_invoke_plugin.go:96-210 | history row, balances of the distinct non-empty sides, and total supply if a side is empty; nothing but an error left in the plugin's variable if the history row is refused |
| Plugins.ApplyEvents | src/plugins/token_contract_invoke_plugin.go:47-218 | the event loop leaves an error behind, failed calls aside, exactly if the last event is a Transfer of a token contract that is undecodable, or that was refused its history row |
| Plugins.ApplyTokenContractInvoke | src/plugins/token_contract_invoke_plugin.go:24-256 | events, then deposits, as in the script, which OpContents.DepositsExactly and ChainMisses.MissedOnChain pin to the receipt; a left-over error no deposit overwrites is fatal |
| Plugins.ApplyPlugins | src/scanner/scanner.go:39-48 | the plugins run in registration order and the first error is fatal |
| Databases.Database.UpdateBlockHash | src/db/daos.go:283-295 | exactly the block's hash changes |
| Databases.Database.CheckOperationExist | src/db/daos.go:200-217 | the search by trxid and index_in_tx finds exactly the operations already inserted |
| Databases.Database.InsertDynamicOperation | src/db/daos.go:582-622 | one row is added, holding the operation's JSON restricted to the columns it was given |
| Databases.Database.SaveHistory | src/db/token_daos.go:30-51 | one row is added if it fits its columns, and nothing changes otherwise |
| Databases.Database.UpdateTokenContract | src/db/daos.go:374-398 | an update by row id changes exactly that contract's total supply |
| Databases.Database.UpdateAddressBalance | src/db/asset_daos.go:71-84 | an update by row id changes exactly that pair's amount, or nothing if the amount does not fit |
| Databases.Database.UpdateLastScannedBlockNumber | src/db/daos.go:38-52 | whichever of insert, update and skip is taken, reading back gives the number written, for every number a uint32 holds |
| Databases.Database.GetLastScannedBlockNumber | src/db/daos.go:26-36 | the checkpoint read is the one last written, 0 if none was |
| RowTables.UpdateById | src/db/token_daos.go:53-66 | with unique keys and serial ids an update by id changes one key's value and keeps both |
| RowTables.SaveNew | src/db/daos.go:297-316 | appending a row for a new key keeps keys and ids unique and adds only that key |
| DynamicInsert.BuildInsert | src/db/daos.go:582-607 | whatever the iteration order, the parallel lists denote exactly the JSON restricted to the table's columns, each value encoded, no column twice, placeholder k bound to value k |
| DynamicInsert.HasColumn | src/db/models.go:85-92 | membership in the column list |
| FixedPoint.ScaleError | src/plugins/asset_balance_update_util.go:68-69 | the stored amount gives the balance back exactly if and only if the precision is at most 16 or the digits below are zero, and is never off by more than half its last digit |
| FixedPoint.ScaleFits | sqls/init.sql:189-197 | every int64 balance fits decimal(36,18) if and only if the precision is positive or the balance is below 10^18 |
| Numerals.OperationIdRoundTrip | src/db/daos.go:171-173 | an operation id parses back to its three parts even if the transaction id contains the separator |
| Numerals.OperationIdInjective | src/db/daos.go:171-173 | different operations have different ids |
| Numerals.CheckpointRoundTrip | src/db/daos.go:26-52 | a checkpoint reads back as written if and only if it fits a uint32, and is reduced modulo 2^32 otherwise |
| Numerals.AtoiExactly | src/scanner/scanner.go:154-158 | a text is read as a number if and only if it is an optional sign and digits that spell it, within int64 |
| Numerals.AtoiItoa | src/scanner/scanner.go:154-158 | printed integers parse back on exactly the int64 range |
| NodeService.MergeIds | src/nodeservice/node.go:103-124 | every transaction gets its place, the id at its position if there is one, and keeps everything else |
| NodeService.CheckTransactionHasContractOp | src/nodeservice/node.go:128-146 | some operation's type is an integer from 76 to 81 |
| JsonRpc.ClientCodec.WriteRequest | wsjsonrpc/jsonrpc/client.go:52-66 | the method is remembered under the request's number, and the message carries number, method and parameters, which are the parameter itself if it is a list and the list of it otherwise |
| JsonRpc.ClientCodec.ReadResponseHeader | wsjsonrpc/jsonrpc/client.go:80-106 | the header names the method remembered for the id, which is forgotten, and the error the response stands for: its text, what it prints as, or that of a nil value if there is no result either; a null id counts as 0 |
| JsonRpc.ServerCodec.ReadRequestHeader | wsjsonrpc/jsonrpc/server.go:64-82 | the id, any JSON value or none, is put aside under the next sequence number |
| JsonRpc.ServerCodec.WriteResponse | wsjsonrpc/jsonrpc/server.go:102-123 | the answer goes out under the id put aside (null for none), once; an unknown sequence number is an error that changes nothing |
| JsonRpc.MessagesDiffer | wsjsonrpc/jsonrpc/client.go:52-66 | two calls under one number make the same message if and only if they are the same but for a list around a single parameter; different lists never do |
| JsonRpc.ParamRoundTrip | wsjsonrpc/jsonrpc/server.go:84-98 | a parameter reaches the service unchanged if and only if it is no list; of a list only the first element does |
| JsonRpc.ReplyRoundTrip | src/nodeservice/node.go:85-92 | the client sees success exactly for an answer with a result and no error; a null result becomes the error text the scanner takes for the head of the chain |
| RpcNetwork.RpcCorrelation | wsjsonrpc/jsonrpc/all_test.go:169-190 | in any interleaving with answers in any order, what the client is handed for a number is the service's answer to exactly the method sent under it and what the server's codec makes of the parameter, under that method's name, and no number is answered twice |
| RpcNetwork.HeardExactly | wsjsonrpc/jsonrpc/server.go:84-98 | the service hears the parameter as it was sent if and only if that is no list |
| RpcNetwork.MessagesOnWire | wsjsonrpc/jsonrpc/client.go:52-66 | in every run a request on the wire carries the method and the whole parameter sent under its number |
| RpcNetwork.RpcConservation | wsjsonrpc/jsonrpc/client.go:53-55 | the client's pending numbers are the disjoint union of those on the request wire, those the server holds, and those on the response wire |
| RpcNetwork.SequenceNumbersFresh | wsjsonrpc/jsonrpc/server.go:74-79 | a sequence number never overwrites a pending request, and a second answer to one is refused |
| RpcNetwork.DrainedClient | wsjsonrpc/jsonrpc/client.go:86-89 | when both wires are empty and the server owes nothing, the client waits for nothing |
| RpcConnection.Connection.HeadersCorrelate | wsjsonrpc/jsonrpc/client.go:80-106 | of the codec objects themselves: a header handed out matches what was sent under its number |

## Left out

- SQL text, connections, row scanning, timestamps and indexes: each data access operation is a find,
  a save or an update on a table. A crash between CREATE TABLE and CREATE INDEX loses only the index.
- Names of operation types: the table of src/nodeservice/operations.go is the parameter `World.names`;
  that PostgreSQL cuts names at 63 bytes is not modelled.
- The JSON text stored with an operation: the row holds the decoded JSON.
- Contents of live token columns other than the total supply: they depend on when the node was asked.
- The asset list growing while the scanner runs, and more than a hundred assets: the list is fixed.
- Asset precisions from 19 up, where the power of ten no longer fits an int64.
- The two in-memory caches that are read but never filled.
- Which operation a receipt belongs to in a transaction that mixes contract and other operations: the
  receipt at the operation's index is taken, as the code does. Event rows are counted to the receipt
  whose save wrote them.
- Scanner.ScanBlocksFrom: a number of rounds stands for the endless loop and its cancellation.
- Machine runs may write the checkpoint between any two blocks, the code only at the head of the
  chain: the results hold for more runs than the code has.
- The `-scan_from` flag, signals, logging, sleeps, the websocket and its pings.
- The transaction state query and the SQL views, which take no part in ingestion.
- The JSON encoder and decoder and Go's `net/rpc` on top of the codecs: encoding is faithful, request
  numbers are fresh.
- Databases.Database.CreateTable: column types are not modelled.
