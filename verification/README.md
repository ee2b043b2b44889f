# Verification of a token indexer

A Dafny 4.11 model of an indexer for inscription-borne fungible tokens (WJK-20 and its relatives), and
proofs about it. The indexer follows a node, reads each block's transactions, moves inscriptions first
in, first out from inputs to outputs, lets what no output takes travel with the fees into the coinbase,
collects token actions (deploy, mint, transfer, spent transfer), applies them to a ledger held in
key-value tables, files a history, and rolls the tables back when the chain reorganises.

`dafny verify dfyconfig.toml` checks the whole project.

## What is modelled

- **Token ledger.** `Ledger` gives one action's effect on the cache's maps, the holder index and the
  returned log; every `expect`, `unwrap`, `panic!` and unsigned subtraction of the source that can fail
  is an explicit `Panic`. The classes `TokenCache` and `Holders` update their fields as the source does
  and are proved equal to that step function.
- **Ordinal routing.** `Searcher`, `Leaked`, `BlockParser` and the class `Parser`: the fee-peeling loop,
  the output walk, the fee offsets, the block loop over transactions, inputs and inscriptions.
- **Inscription parsers.** `ScriptSig` (push decoding, multi-part inscriptions as an automaton) and the
  stored forms in `PartialsCodec` and `AddressLocationCodec`.
- **Block handling.** `Prevouts` (batched unspent outputs), `HistoryIds`, and `Handler` (the order of
  steps of one block, with its shortcuts for blocks below the start height and of a coinbase alone).
- **Undo log and event loop.** `UndoLog` and `UndoExact` on values, the classes `Database` and `ReorgCache`,
  and the class `Indexer` of module `IndexerLoop`: roll back, check the height, handle, write.
- **Chain following.** `CheckPoints` (persistent list), `Follower` (one pass of the loop against
  arbitrary node answers), `BlockIndex` (ancestor selection).

Tables are maps, outpoints and hashes are opaque values, amounts are naturals in units of 10^-18 that
carry the number of digits `scale()` reports. A tick carries its own case fold. The iteration order of
hash sets, the protocol decoder and the node's answers are parameters: every result holds for every
choice of them.

## Main results

1. **No panic, conserved supply, exact accounting, agreeing holder index.** `LedgerSafety.RunSafe`: any
   batch over a good ledger runs to the end; per tick, supply is balances plus transferable balances plus
   what went to the burn script; every account's transferable balance and transfer count are the sum and
   number of its outstanding transfers; the sorted holder sets and counts are those of the balances.
2. **The cache refines the ledger.** `CacheRefinement.BlockRefines`: draining a block on the loaded rows
   only and writing back is draining it on the whole ledger, panics, log and holder index included.
3. **The history is a complete log.** `LogReplay.RunReplays` and `TransactionsLogged`.
4. **Routing is injective and complete.** `Routing.PlaceExists`, `PlaceInjective`, `OutputsCovered`,
   `FeesCovered`; over a block, `Positions.ExactImage` and `NoCollision.TraceInjective`.
5. **Whole runs.** `Pipeline.BlockKeeps`: one block keeps the ledger's promises, the placement of every
   outstanding transfer and the bounds of every offset, whatever a rollback left in the table of outputs and
   in the holder index; `RunsStayOk` iterates it. `HandledRuns.HandledKeeps` shows that what
   `Handler.HandleBlock` returns on any of its paths, once written, is such a step.
6. **Whole runs with rollbacks.** `HandledReorgs.RunStands` and `RunKeepsPromises`: over every valid stream of
   blocks with reorgs, from the empty database or from where the indexer was stopped, after each event the
   tables are those of the blocks that survive, each handled on what the ones below it left. They keep every
   promise of result 5 together with gap-free history ids, and every unspent output is stored with its value.
   What is assumed of a stream is consensus alone (`BlockStreams.ValidStream`) and that no two transfers a block
   queues on one location differ. The method `IndexerLoop.Indexer.Index` does such a run from any such state: no
   output is ever missing, an event is refused exactly when it is out of order, and the loop dies exactly when a
   block's drain panics, on a holder index that agrees with the balances only after a rollback. However it ends,
   a new indexer may start on the tables it leaves (`IndexerLoop.Indexer.Run`, `StartAgain`, `Restarts`).
   `RunsExist.ForwardRuns`, `QuietBlocks.RunExists` and `RemineExample.RemineRuns` give runs.
7. **A transfer ends once.** `Spending.SpentSendsOnce` and `NeverBack`.
8. **Undo.** `UndoWindow.WindowExactly`: table by table, every height of the window is restored exactly if
   and only if every block of the window wrote only fresh keys. `HandledChain.ChainRestores` and `ChainCovers`:
   handled blocks do, so every height is restored for histories, metas, balances, transfers, unfinished
   inscriptions and offsets, and the outputs are covered. `EventReorgs.EventsRestoredExactly`: the event index
   is, over any window, if and only if no block of it logged a deploy on an output already indexed.
   `EventRuns.RunEventIndex`: after every event of every run the event index is that of the surviving blocks
   without exactly the outputs some rollback cost, and `RunKeepsEventsExactly` says when that is none.
9. **The reorg protocol.** `Follower.Pass` and `Follow`; `Protocol.FollowsExactly`: fed with the follower's
   events, the indexer stands on exactly the follower's chain if and only if no rollback was lost, and
   `LostRollbackRefused`: the next block is refused exactly when one was.
10. **Parsers.** `MultiPart.RoundTrip`, `ScriptSig.ParseScripts`, `PartialsCodec.StoreLoadAppend`,
    `AddressLocationCodec.RangeExactly`, `BlockIndex.GetBlockIndex`.

## Where the code does not keep a promise

Each of these is stated with its exact condition, or with the input that shows it.

- **Two transfers on one location.** The record of a transfer is keyed by location and overwritten
  (src/tokens/parser.rs:225), while the balance change uses the action's own amount (line 435). Every queued
  transfer finds its own record exactly when no two queued on one location differ in amount or tick
  (`OwnRecords.OwnRecordsExactly`). `CollisionExample` gives a valid block where they do: one transaction whose
  first input is worth nothing completes a transfer in each of two inputs (`PairOverwrites`). The accounting
  then survives exactly when the record carries the action's amount (`LedgerSafety.AccountingExactly`), and
  spending panics exactly when it carries more than the sender has locked (`OverwrittenRecordPanics`). A record
  of another tick does no harm to the ledger (`UnloadedRows.RecordTickIrrelevant`), but rows are loaded by the
  tick on record: spent in the same block, the transfer pays into a row that may not be loaded, and what was
  stored there is lost unless it was blank (`UnloadedExactly`, with a batch in `ClashLoses`).
- **The holder index is not restored.** Nothing rolls the holder maps back. The ledger and the log of a batch
  do not depend on them (`StaleHolders.RunAlike`, `RunSound`), but a batch panics exactly when it comes to a
  spend of a whole holding while the tick's count stands at zero (`RunPanicsExactly`): a block that burns a
  tick's last holding, rolled back and mined again, gets there. `StaleExample` gives the valid stream: a block
  deploys, mints and locks all of a token, the next burns it, and mined again in its place that one kills the
  indexer in every run (`RemineDies`, and the method `Remine`). The panic is the checked subtraction of
  src/tokens/holders.rs:81; built without overflow checks the count wraps instead.
- **The event index is not restored.** Undo removes every outpoint a block filed an event for, also those
  that already had one (`UndoWindow.EventLost`). A block is undone exactly in the event index if and only if it
  logged no deploy on an indexed output (`EventReorgs.EventsUndoneExactly`). Over a run, a rollback costs those
  of the outputs still indexed below it that an undone block logged a deploy on, until a block files under them
  again (`EventRuns.RunEventIndex`); blocks that are never undone cost nothing. `LateDeployExample` gives valid
  blocks that log such a deploy: a transaction completes one and begins another, which is completed later and
  logged on the same genesis (`LateDeployCollides`).
- **Unspent outputs stay behind.** A restore only adds spent outputs back; equality holds exactly when the
  undone blocks made no new output (`UndoExact.PrevoutsExactly`).
- **A rollback can be lost.** A pass that rolls back and then finds no block to emit forgets how far it
  went, since the counter lives inside the pass (packages/new-blk-parser/src/lib.rs:140): its events
  describe the chain exactly when it emitted a block or rolled none back (`Follower.PassExactly`, and over
  any number of passes `Follow`). As long as anything is cached the indexer refuses the next block exactly
  when a rollback was lost (`Protocol.LostRollbackRefused`).
- **A restore can fall short.** The consumer drops the number of blocks asked for exactly when that many
  are cached; otherwise it drops what it has and says nothing (`ReorgRuns.RollbackExactly`), and with an
  empty cache the height check passes anything (`RefusesExactly`).
- **A creation at the very end of the inputs.** An inscription created where no value is left is filed at
  the fee offset after its transaction's last fee unit: it takes the place of the next transaction's first
  fee unit (`Routing.EndTakesNextFee`), or is dropped when no later one pays a fee (`EndDropped`).
- **The top record is not selected.** The walk over the block index emits parents only, so the highest
  single record itself is never part of the result (`BlockIndex.GetBlockIndex`).

## Assumptions

- Consensus: one coinbase, first; transaction ids new to the chain the block extends, fixing their outputs;
  inputs are unspent outputs of that chain or spendable ones of the block, each spent once; no transaction
  spends more than it has; the coinbase claims at least the fees; heights rise (`Routing.Balanced`,
  `Positions.SpendsEarlier`, `HandledReorgs.Extends`). They discharge the source's unchecked subtractions.
  Outputs of undone blocks may come again.
- The decoder yields positive amounts with at most 18 decimals and at most u64::MAX tokens
  (`TokenCacheStore.Accepted`).
- Counters and sums of satoshis are unbounded naturals: they stay below 2^64 (the per-token transaction
  counter, below 2^32). Amounts are shown to stay within u64::MAX tokens (`LedgerSafety.AmountsBounded`).
- The chain tip is at least 30, as `tip - 30` is unchecked (src/inscriptions/mod.rs:70), and the node
  returns the block asked for by hash.

## Model

| member | source | states |
|---|---|---|
| Ledger.RunAppend | src/tokens/parser.rs:328-499 | draining a batch in two pieces is draining it whole, state, holder index, log and panics |
| LedgerInvariants.LockAccountedExactly | src/tokens/parser.rs:435-447 | locking an amount keeps every account's transferable sum and count exact if and only if the recorded amount is the locked one |
| LedgerInvariants.CreditKeeps | src/tokens/parser.rs:376-384 | crediting keeps tokens, accounts and transfers consistent and moves supply minus holdings by minted minus credited |
| LedgerInvariants.UnlockKeeps | src/tokens/parser.rs:457-476 | taking a spent transfer off its sender keeps the accounting of all others and lowers holdings by exactly its amount |
| LedgerInvariants.BurnedAppend | src/tokens/parser.rs:478-493 | the amount burned by a log is additive |
| LedgerSafety.StepSafe | src/tokens/parser.rs:331-495 | one action of any kind never panics on a good ledger, keeps it good, and loses supply only to the burn script |
| LedgerSafety.RunSafe | src/tokens/parser.rs:328-499 | the same for every batch: no panic, supply equals holdings plus burned, exact transferable accounting, holder index agrees |
| LedgerSafety.TransferredPayable | src/tokens/parser.rs:457-476 | a spent outstanding transfer finds its tick, its sender's account and enough transferable balance, so the expect, the unwrap and the panic are unreachable |
| LedgerSafety.AmountsBounded | src/tokens/proto.rs:22-29 | every account's total is within its token's supply, which is within max, which is within u64::MAX tokens |
| LedgerSafety.AccountingExactly | src/tokens/parser.rs:225 | a transfer keeps the accounting if and only if it does not take effect or its record carries its own amount |
| LedgerSafety.OverwrittenRecordPanics | src/tokens/parser.rs:394-476 | spending an overwritten transfer panics if and only if the recorded amount exceeds everything its sender has locked |
| StaleHolders.RunAlike | src/tokens/parser.rs:328-499 | ledger and log of a batch are the same under any two holder indexes, if neither run panics |
| StaleHolders.RunSound | src/tokens/parser.rs:328-499 | under any holder index, a batch that runs to the end keeps the accounting exact and supply explained |
| StaleHolders.PanicsExactly | src/tokens/holders.rs:59-85 | on a good ledger an action panics if and only if it takes a whole holding while the tick's count is zero |
| StaleHolders.RunPanicsExactly | src/tokens/parser.rs:328-499 | a batch on a good ledger panics if and only if it comes to such an action |
| StaleHolders.RemineStuck | src/tokens/holders.rs:59-85 | burning a tick's last holding, and once more from the same ledger under the index the first left, gets there |
| StaleBlocks.RemineStreamValid | src/inscriptions/mod.rs:68-99 | a stream that deploys, mints and locks all of a token, burns it, rolls the burn back and mines it again is valid |
| StaleExample.RemineDies | src/reorg.rs:25-63 | in every run over it from the empty database the burn mined again panics, for the rollback restores the ledger and not the holder maps |
| StaleExample.Remine | src/inscriptions/mod.rs:47-112 | the event loop on it indexes three events and dies of the fourth |
| HolderIndex.IncreaseAgrees | src/tokens/holders.rs:59-85 | an increase keeps every tick's sorted set and count equal to those of the credited balances |
| HolderIndex.DecreaseAgrees | src/tokens/holders.rs:59-85 | a decrease never underflows on an agreeing index and keeps it equal to that of the debited balances |
| HolderIndex.LockAgrees | src/tokens/parser.rs:435-437 | moving balance to transferable balance leaves the holder index right as it is |
| HoldersStore.Holders.constructor | src/tokens/holders.rs:17-35 | building the index from the written balances gives exactly the nonempty accounts per tick and their number |
| HoldersStore.Holders.IncreaseHolder | src/tokens/holders.rs:47-85 | the maps after an increase are those of the step function |
| HoldersStore.Holders.DecreaseHolder | src/tokens/holders.rs:42-85 | the maps after a decrease are those of the step function; failure exactly where the source's subtraction would underflow |
| HoldersStore.Holders.HoldersByTick | src/tokens/holders.rs:51-53 | a reported number is the number of nonempty accounts of the tick; none is reported for ticks never counted, which have no holder, while a tick emptied since may be reported with 0 |
| TokenCacheStore.ActionForOk | src/tokens/parser.rs:145-170 | a pushed deploy, mint or transfer is within the protocol's ranges, belongs to the inscription's owner and never to the burn script, and names the output the inscription sits on |
| TokenCacheStore.TokenCache.Load | src/tokens/parser.rs:99-115 | the cache starts with the outstanding transfers found under script hash and outpoint of the spent outputs |
| TokenCacheStore.TokenCache.ParseTokenAction | src/tokens/parser.rs:174-231 | at most one action is pushed, a transfer is recorded at its location, leaked and burned inscriptions push nothing |
| TokenCacheStore.TokenCache.PushTransferred | src/tokens/parser.rs:233-240 | the move of a transfer is queued with its recipient |
| TokenCacheStore.TokenCache.PushBurnedTransfer | src/tokens/parser.rs:242-249 | a burned transfer is queued for the burn script |
| TokenCacheStore.TokenCache.FillTickersAndUsers | src/tokens/parser.rs:276-326 | exactly the ticks and users the queued actions mention, through the record and the sender of spent transfers |
| TokenCacheStore.TokenCache.LoadTokensData | src/tokens/parser.rs:251-274 | exactly the stored rows of those ticks and of those users under the tick as deployed |
| TokenCacheStore.TokenCache.ProcessMint | src/tokens/parser.rs:349-393 | a mint is the ledger's step: capped at the remaining supply, skipped on scale, limit or exhausted supply |
| TokenCacheStore.TokenCache.ProcessTransfer | src/tokens/parser.rs:394-450 | a transfer is the ledger's step, record consumed first |
| TokenCacheStore.TokenCache.ProcessTransferred | src/tokens/parser.rs:451-494 | a spent transfer is the ledger's step, panics included |
| TokenCacheStore.TokenCache.ProcessTokenActions | src/tokens/parser.rs:328-499 | draining the queue is the ledger's run on cache and holder index, panics included, and returns its log |
| LogReplay.RunReplays | src/tokens/parser.rs:328-499 | folding the returned entries over the starting ledger gives the final supplies, balances, transfer counts and counters |
| LogReplay.TransactionsCountEntries | src/tokens/parser.rs:376-493 | replaying a log adds to a token's transaction counter exactly its number of entries |
| LogReplay.TransactionsLogged | src/tokens/parser.rs:376-493 | after any batch the transaction counter has grown by the number of log entries of the token |
| CacheRefinement.StepRefines | src/tokens/parser.rs:331-495 | one action on a cache that covers it, laid over the rest of the ledger, is that action on the whole ledger |
| CacheRefinement.RunRefines | src/tokens/parser.rs:328-499 | the same for a batch: the cache keeps covering what is still pending |
| CacheRefinement.LoadedFits | src/tokens/parser.rs:251-326 | the rows loaded for a block cover every existing row its actions could read or overwrite by default |
| CacheRefinement.WriteBackWhole | src/inscriptions/process_data.rs:173-177 | removing the loaded transfers and writing the cache gives the ledger the cache stands for |
| CacheRefinement.BlockRefines | src/inscriptions/indexer.rs:98-200 | load, drain and write back on the loaded rows equals draining on the whole ledger: same tables, holder index, log and panics |
| AddressLocationCodec.RoundTrip | src/db/structs.rs:147-167 | a transfer key is recovered from its 76 bytes |
| AddressLocationCodec.RangeExactly | src/db/structs.rs:85-96 | the byte range between offset 0 and the largest offset holds exactly the keys of that script hash and output |
| Searcher.LocateIs | src/inscriptions/searcher.rs:35-53 | output and offset of a position are unique and exist exactly below the output total |
| Searcher.PeelFee | src/inscriptions/searcher.rs:16-23 | the peeling loop keeps exactly the inputs that start below the output total |
| Searcher.CalcOffsets | src/inscriptions/searcher.rs:11-33 | input i has an entry if and only if the inputs before it sum to less than the output total, and the entry is that sum |
| Searcher.GetOutputIndexByInput | src/inscriptions/searcher.rs:35-53 | the unique output and offset of the position, or an error exactly at or past the output total |
| Searcher.RoutingRule | src/inscriptions/parser.rs:72-73 | peeling and walking together route offset x of input i to where the inputs before it plus x fall |
| Leaked.LeakedInscriptions.FindFee | src/inscriptions/leaked.rs:90-115 | fee and fee offset of a unit that no output takes, without underflow |
| Leaked.LeakedInscriptions.Add | src/inscriptions/leaked.rs:33-44 | a leaked inscription is filed at its offset among all fees of the block so far |
| Leaked.LeakedInscriptions.AddTxFee | src/inscriptions/leaked.rs:46-54 | the total grows by inputs minus outputs |
| Leaked.LeakedInscriptions.FindInscriptionVout | src/inscriptions/leaked.rs:78-88 | the coinbase output and offset of a fee offset after the reward |
| Leaked.LeakedInscriptions.GetLeakedInscriptions | src/inscriptions/leaked.rs:60-76 | exactly the coinbase locations of the filed offsets |
| Leaked.LeakedFound | src/inscriptions/leaked.rs:78-88 | a filed offset finds a coinbase output if and only if it lies strictly inside the fees |
| Routing.PlaceExists | src/inscriptions/leaked.rs:33-88 | every unit of input value has a place strictly inside an output of its transaction or of the coinbase |
| Routing.PlaceInjective | src/inscriptions/leaked.rs:33-88 | no two units of the block's input value share a place |
| Routing.OutputsCovered | src/inscriptions/searcher.rs:35-53 | every unit of a transaction's outputs is the place of one of its input units |
| Routing.FeesCovered | src/inscriptions/leaked.rs:33-76 | every fee unit the coinbase claims is the place of an input unit with that fee offset |
| Routing.EndTakesNextFee | src/inscriptions/leaked.rs:33-44 | what is created at the very end of a transaction's inputs takes the place of the first fee unit of the next transaction that pays a fee |
| Routing.EndDropped | src/inscriptions/leaked.rs:56-88 | without such a transaction it has no place |
| ParseBlockLoop.Parser.MoveInscription | src/inscriptions/parser.rs:64-100 | one inscription move is the specification's step: new position, or fee, and at most one queued token move |
| ParseBlockLoop.Parser.CreateInscription | src/inscriptions/parser.rs:104-186 | one input's creation is the specification's step: partial stored or completed, occupied offsets, token action |
| ParseBlockLoop.Parser.ParseTx | src/inscriptions/parser.rs:54-187 | a transaction's loop over its inputs is the specification's fold |
| ParseBlockLoop.Parser.ParseBlock | src/inscriptions/parser.rs:29-203 | positions, partials, queued actions and records after the block are the specification's, leaked ones in the coinbase |
| BlockParser.TxsInBounds | src/inscriptions/parser.rs:61-101 | every offset on a spent output stays below the output's value, so the fee arithmetic never underflows |
| Positions.MoveInputAt | src/inscriptions/parser.rs:63-101 | spending an output moves exactly its recorded positions, each to the place of its unit |
| Positions.ExactImage | src/inscriptions/parser.rs:44-192 | the block's inscribed positions are exactly the routed old ones plus the created ones, none dropped |
| NoCollision.TraceExists | src/inscriptions/parser.rs:61-101 | every position recorded before the block has a position after it |
| NoCollision.TraceInjective | src/inscriptions/parser.rs:61-101 | no two positions recorded before the block end on the same one |
| Lifecycle.RunLive | src/tokens/parser.rs:328-499 | after a batch only transfers its actions left live are outstanding |
| Lifecycle.MadeApart | src/inscriptions/parser.rs:104-186 | where no creation starts where an earlier input of its transaction does, no two creations of a block land on one location |
| Lifecycle.TxsAlive | src/inscriptions/parser.rs:61-187 | throughout the block every live transfer has a record and a recorded position, and every queued action finds its own record |
| OwnRecords.OwnRecordsExactly | src/tokens/parser.rs:212-231 | every queued transfer finds its own record if and only if no two queued on one location differ in amount or tick |
| UnloadedRows.RecordTickIrrelevant | src/tokens/parser.rs:401-419 | the tick on a transfer's record changes nothing of what the transfer does on the whole ledger |
| UnloadedRows.UnloadedExactly | src/tokens/parser.rs:478-484 | a spend into an account not loaded leaves the balances of the whole ledger if and only if no row or a blank one is stored for it; else that row is lost |
| UnloadedRows.ClashLoses | src/tokens/parser.rs:276-326 | two transfers on one location of two ticks, the first spent in the same block: the recipient keeps only what it is sent |
| OwnRecords.StartsSuffice | src/inscriptions/parser.rs:104-186 | it is enough that no creation starts where an earlier input of its transaction does |
| SharedStarts.PairCollides | src/inscriptions/parser.rs:104-186 | two inputs of one transaction that complete transfers on one location, different in amount or tick, are both queued, under the second's record |
| CollisionExample.PairValid | src/inscriptions/parser.rs:104-186 | a block with two such inputs, the first worth nothing, is valid on a chain of one coinbase |
| CollisionExample.PairOverwrites | src/tokens/parser.rs:212-231 | its parse leaves the first transfer with the second's amount and tick on record |
| Pipeline.BlockBatch | src/inscriptions/indexer.rs:98-115 | what the parser queues is covered by the cache and safe for the ledger, if no two queued transfers on one location differ |
| Pipeline.BlockRuns | src/inscriptions/indexer.rs:98-119 | draining a block panics exactly where the holder count would go below zero, never under an agreeing holder index; written back it is the whole ledger's run and keeps its promises |
| Pipeline.TransfersKeep | src/inscriptions/indexer.rs:191-200 | after the block every outstanding transfer sits at a recorded offset and belongs to the script of its unspent output |
| Pipeline.TransferOwner | src/tokens/parser.rs:99-115 | while its output is stored, an outstanding transfer sits at a recorded inscription and is keyed by the script hash under which a spend of that output looks for it |
| Pipeline.OffsetsKeep | src/inscriptions/parser.rs:190-202 | after the block every recorded offset is below the value of its output |
| Pipeline.BlockKeeps | src/inscriptions/indexer.rs:47-211 | one block takes good tables to good tables, whatever a rollback left in the outputs and the holder index, and keeps an agreeing holder index agreeing |
| Pipeline.RunsStayOk | src/inscriptions/indexer.rs:22-45 | every state of every run from the empty database is good, holder index included |
| Spending.SpentMovesOnce | src/inscriptions/parser.rs:61-101 | the block that spends a transfer's output queues exactly one move of it |
| Spending.SpentSendsOnce | src/tokens/parser.rs:451-494 | if the block is drained, as it is under an agreeing holder index, that move logs one send of the transfer's amount from its sender, and the transfer is gone |
| Spending.NeverBack | src/tokens/parser.rs:447-460 | in no later state of any run is a spent transfer outstanding again |
| ScriptSig.DecodePushDatas | src/inscriptions/structs.rs:196-272 | the decoder terminates on every script with all slices in range and computes the recursive decoding |
| ScriptSig.PushDataToNumber | src/inscriptions/structs.rs:274-292 | little-endian value of at most eight bytes, within u64 |
| ScriptSig.ParseScripts | src/inscriptions/structs.rs:81-194 | the nested loops compute the verdict of a left-to-right automaton over the parts |
| ScriptSig.ReadsFinal | src/inscriptions/structs.rs:124-193 | once nothing or a whole inscription is read, further parts change nothing |
| ScriptSig.AppendPart | src/inscriptions/parser.rs:105-146 | appending a part is one automaton step, and only an unfinished inscription can move on |
| MultiPart.DecodeEncode | src/inscriptions/structs.rs:196-272 | pushes laid out directly, by OP_PUSHDATA1 or by number opcodes decode to themselves |
| MultiPart.RoundTrip | src/inscriptions/structs.rs:81-194 | content type and body cut into n chunks over any scriptSigs parse back to that content type and the joined body |
| PartialsCodec.GetBytes | src/db/structs.rs:213-227 | the written bytes of an unfinished inscription |
| PartialsCodec.FromBytes | src/db/structs.rs:229-256 | the reading loop computes the decoding, failing where the source slices out of range |
| PartialsCodec.RoundTripExactly | src/db/structs.rs:213-256 | decoding gives the record back if and only if every script is shorter than 2^32 bytes |
| PartialsCodec.StoreLoadAppend | src/inscriptions/parser.rs:105-146 | store, load and append in a later block reads as all parts at once |
| Prevouts.ProcessPrevouts | src/inscriptions/utils.rs:6-64 | inputs are looked up stored first and own second, once each, and the block is refused exactly when one is missing |
| Prevouts.BatchIsSequential | src/inscriptions/process_data.rs:53-69 | the batch gives the lookups, the refusal and the table of processing the transactions one by one |
| Prevouts.LeftoverHarmless | src/reorg.rs:84-86 | outputs left behind by a rollback change no lookup of a block that resolves without them, and do not multiply |
| HistoryIds.AssignIds | src/inscriptions/indexer.rs:119-168 | the history pass hands out the specified ids and entries |
| HistoryIds.IdsAreGapFree | src/inscriptions/indexer.rs:123-166 | a block's ids are exactly those after the stored last one, each once |
| HistoryIds.BothSidesFiled | src/inscriptions/indexer.rs:135-163 | a two-party send files the recipient under the first id and the sender under the second, anything else one entry |
| HistoryIds.SortedStrictly | src/inscriptions/process_data.rs:79-83 | a block's stored list holds exactly its history keys in strictly increasing id order |
| Handler.DoWork | src/inscriptions/indexer.rs:98-119 | cache loaded, block parsed, tokens loaded, queue drained: the results are the specification's, with its panics |
| Handler.HandleBlock | src/inscriptions/indexer.rs:47-211 | the error about a missing output, a panic, or the data to write, in order, for blocks below the start height, of a coinbase alone, and full ones |
| Handler.PanicsOnlyStale | src/tokens/holders.rs:59-85 | handling a full block panics exactly where the holder count would go below zero, which only an index that disagrees with the balances allows |
| HandledKeys.TxsKeys | src/inscriptions/parser.rs:194-202 | the offset and partial rows a block leaves are loaded ones or outputs of the block, none empty |
| BlockOutputs.WrittenIs | src/inscriptions/utils.rs:6-27 | the batch writes exactly the block's spendable outputs, with their script and value |
| HandledBlocks.HandledWritable | src/inscriptions/process_data.rs:54-159 | on every path, each lookup made while taking the inverse entries succeeds |
| HandledBlocks.HandledFresh | src/inscriptions/process_data.rs:73-195 | on every path a handled block writes only fresh keys to history, metas, balances, transfers, partials and offsets |
| HandledBlocks.HandledUndone | src/reorg.rs:25-153 | undoing a handled block restores those tables exactly, and all unspent outputs with only the block's own on top |
| HandledExists.BlockPossible | src/inscriptions/indexer.rs:47-211 | on good tables every valid block whose inputs are found can be handled unless it panics |
| HandledExists.BlockHandled | src/inscriptions/indexer.rs:47-211 | under an agreeing holder index and without transfers at odds it does not |
| HandledExists.ShortcutIsFull | src/inscriptions/indexer.rs:84-96 | skipping a block of a coinbase alone leaves exactly what parsing and draining it would |
| HandledExists.FirstBlockOk | src/inscriptions/indexer.rs:47-96 | the empty database is good and accepts a first block |
| HandledRuns.HandledKeeps | src/inscriptions/indexer.rs:22-45 | writing what the handler returns, on any path, is a block step of the whole-run theorem and leaves what the next block relies on |
| HandledChain.ChainKeeps | src/inscriptions/indexer.rs:22-45 | a chain of handled blocks keeps every promise: good tables, outputs exactly the unspent ones, history gap-free and in order |
| HandledChain.ChainRestores | src/reorg.rs:137-153 | restored to any of its heights, a chain of handled blocks gives histories, metas, balances, transfers, partials and offsets exactly as the blocks below left them |
| HandledChain.ChainCovers | src/reorg.rs:84-86 | and every unspent output with its value, with only outputs of undone blocks on top |
| HandledReorgs.InputsFound | src/inscriptions/utils.rs:29-56 | every input of a valid block is found, by its true value, on any table that holds the unspent outputs |
| HandledReorgs.WorkIsIdeal | src/inscriptions/mod.rs:70-99 | after a rollback a valid block is handled as on the tables of the blocks left standing |
| HandledReorgs.EventStands | src/inscriptions/mod.rs:70-99 | every accepted event of a valid stream leaves the indexer on the surviving blocks and the new one, its top undoable |
| HandledReorgs.RunStands | src/inscriptions/mod.rs:47-112 | the same after every event of every run, rollbacks included |
| HandledReorgs.RunKeepsPromises | src/inscriptions/mod.rs:47-112 | so its tables are those of the surviving blocks, hold every unspent output, and keep accounting, supply, history, placement, ownership and bounds |
| Restarts.RestartStands | src/reorg.rs:155-162 | stopped after any event, everything cached undone, the indexer starts again on the chain below the cache, whatever holder index it builds |
| Restarts.RefusedStands | src/inscriptions/mod.rs:38-45 | stopped by an event out of order, its rollback done first, it starts again on the same chain |
| Restarts.DiedStands | src/inscriptions/mod.rs:83-97 | killed by a panic while handling a block, it starts again on the chain the event left standing |
| HandledReorgs.HoldersFollow | src/tokens/holders.rs:59-85 | an event that finds the holder index agreeing leaves it agreeing |
| BlockStreams.RefusedExactly | src/inscriptions/mod.rs:91-95 | an event is refused exactly when it is out of order for the surviving blocks |
| BlockStreams.DistinctApart | src/inscriptions/parser.rs:104-186 | distinct starts keep an event's transfers apart |
| IndexerLoop.Indexer.constructor | src/inscriptions/mod.rs:31-36 | a server starts with nothing cached and a holder index that agrees with the stored balances |
| IndexerLoop.Indexer.Write | src/inscriptions/indexer.rs:22-32 | all data written in order, the block's whole log in the cache |
| IndexerLoop.Indexer.Roll | src/inscriptions/mod.rs:76-95 | cache cleared or kept, rollback done, height checked |
| IndexerLoop.Indexer.Handle | src/inscriptions/indexer.rs:22-45 | the block handled and its data written, or a panic exactly where its specification has one |
| IndexerLoop.Indexer.OnEvent | src/inscriptions/mod.rs:68-99 | one event: refused exactly when it does not follow, dead exactly when the drain panics, no missing output, else the next state; ended early, only the rollback is done |
| IndexerLoop.Indexer.Index | src/inscriptions/mod.rs:47-112 | from any state that stands on its chain, the loop over a valid continuation does a run as far as it comes, stops exactly on an event out of order or a drain that panics, and leaves that event's rollback done |
| IndexerLoop.Indexer.Run | src/inscriptions/mod.rs:38-45 | with everything cached undone at the end, whatever the ending, a new indexer may start on the tables left |
| IndexerLoop.StartAgain | src/inscriptions/mod.rs:31-45 | a new one may run on any valid continuation of that chain |
| RunsExist.ForwardRuns | src/inscriptions/mod.rs:47-112 | every valid stream in order, without rollbacks and transfers at odds, has a run, and the holder index agrees with the balances at its end |
| QuietBlocks.RunExists | src/inscriptions/mod.rs:47-112 | every valid stream in order without token messages, rollbacks included, has a run |
| RemineExample.RemineValid | src/inscriptions/mod.rs:83-89 | a stream that mines a spend, rolls it back and mines it again is valid |
| RemineExample.RemineRuns | src/inscriptions/mod.rs:83-89 | and has a run, both blocks taking the full path |
| EventIndex.TxsOrigins | src/inscriptions/parser.rs:105-160 | what a block queues and keeps unfinished names transactions of the chain or its own |
| EventIndex.AssignedUnder | src/inscriptions/process_data.rs:79-117 | a block's entries are filed under exactly the outputs its log names |
| EventReorgs.EventsUndoneExactly | src/reorg.rs:56 | undoing a handled block restores the event index if and only if it logged no deploy on an indexed output |
| EventReorgs.EventsRestoredExactly | src/reorg.rs:137-153 | every height of a window of any length gets its event index back if and only if no block of the window did |
| ReorgEvents.EventEvents | src/inscriptions/mod.rs:70-99 | an accepted event loses the entries its dropped blocks filed, stored before or not, and gives back those its block files |
| EventRuns.ChainHits | src/inscriptions/process_data.rs:79-117 | of the outputs indexed below a height, the blocks above file under exactly those they log a deploy on |
| EventRuns.RunEventIndex | src/inscriptions/mod.rs:47-112 | after every event of every run the event index is that of the surviving blocks without exactly the outputs rollbacks cost and no block filed again |
| EventRuns.RunKeepsEventsExactly | src/inscriptions/mod.rs:47-112 | it is whole after every event if and only if each new block files again every output left indexed that an undone block logged a deploy on |
| EventRuns.RestartMisses | src/reorg.rs:155-162 | a restart costs what a rollback of everything cached does |
| LateDeployExample.LateDeployCollides | src/inscriptions/parser.rs:130-151 | a deploy completed in a later block is logged on the output of its transaction's first one |
| LateDeployExample.StartValid | src/inscriptions/parser.rs:130-151 | the block that begins both inscriptions is valid |
| LateDeployExample.EndValid | src/inscriptions/parser.rs:104-146 | so is the block that completes the second |
| UndoExact.SwappedExactly | src/inscriptions/process_data.rs:178-195 | remove, write, undo gives a table back if and only if the removed rows were stored and each written key was new or removed |
| UndoExact.PrevoutsExactly | src/inscriptions/process_data.rs:53-69 | undo adds all written outputs; the old ones are intact if and only if none was overwritten differently, and equality needs no new output |
| UndoExact.UndoTokenEntries | src/reorg.rs:25-63 | the pushed token entries, undone last first, have the effect intended |
| UndoExact.WriteExactly | src/inscriptions/process_data.rs:40-196 | one write undone restores each table if and only if it was fresh for it |
| UndoExact.BlockExactly | src/reorg.rs:137-153 | a block undone restores each table if and only if all its writes were fresh for it |
| UndoWindow.WindowExactly | src/reorg.rs:137-153 | every height of the window is restored, table by table, if and only if every block of it was fresh |
| UndoWindow.LedgerAlwaysRestored | src/reorg.rs:29-40 | token metas and balances are restored at every height, unconditionally |
| UndoWindow.WindowCovers | src/reorg.rs:84-86 | unspent outputs are restored to a superset whose extra keys are outputs of the undone blocks |
| UndoWindow.WindowCoversExactly | src/reorg.rs:84-86 | every height of the window gets all its unspent outputs back if and only if no block of it wrote over a stored output with another value |
| UndoWindow.InfoRestored | src/reorg.rs:141-142 | block infos come back and the last block is the one below the lowest undone block |
| UndoWindow.EventLost | src/reorg.rs:56 | an event filed under an output that already had one: undoing it leaves the output without any |
| ReorgStore.Database.ProceedToken | src/reorg.rs:25-63 | a token entry's effect on the tables |
| ReorgStore.Database.Undo | src/reorg.rs:138-150 | one popped block: last block, block info, then both logs from the back |
| ReorgStore.Database.Store | src/inscriptions/process_data.rs:40-196 | the table writes of each kind of data |
| ReorgStore.ReorgCache.NewBlock | src/reorg.rs:122-127 | an empty log on top, the lowest one given up first when thirty are held |
| ReorgStore.ReorgCache.Write | src/inscriptions/process_data.rs:40-196 | tables written and exactly the inverse entries appended to the highest block's log |
| ReorgStore.ReorgCache.Restore | src/reorg.rs:137-153 | every block above the height popped and undone, highest first |
| ReorgStore.ReorgCache.RestoreAll | src/reorg.rs:155-162 | everything cached popped and undone |
| ReorgRuns.RollbackExactly | src/inscriptions/mod.rs:83-89 | an event drops what was asked for if and only if nothing was asked for or that much is cached |
| ReorgRuns.RefusesExactly | src/inscriptions/mod.rs:91-95 | an event is refused if and only if blocks stay cached and the new one does not follow them |
| ReorgRuns.EventTracks | src/inscriptions/mod.rs:70-99 | an accepted event leaves each table it writes freshly as the surviving blocks and the new one make it, its top undoable |
| ReorgOutputs.EventOutputs | src/inscriptions/mod.rs:70-99 | an accepted event of true outputs leaves every output the surviving blocks left unspent stored with its value |
| ReorgRuns.RestoreAllTracks | src/inscriptions/mod.rs:38-45 | stopping leaves the chain below the cache |
| HistoryRuns.FilingKeeps | src/inscriptions/process_data.rs:73-117 | filing a block's history keeps ids gap-free, lists increasing and tiled, and is fresh for undo |
| CheckPoints.Push | packages/new-blk-parser/src/blockchain/checkpoint.rs:91-100 | a block goes on top exactly when it is higher, and the chain stays ascending |
| CheckPoints.Extend | packages/new-blk-parser/src/blockchain/checkpoint.rs:106-112 | all blocks on top exactly when they continue the ascent, else the chain as it was |
| CheckPoints.FromBlockIds | packages/new-blk-parser/src/blockchain/checkpoint.rs:76-85 | the chain of the ids exactly when they ascend; the error is the longest good prefix, none only for no ids |
| CheckPoints.InsertedKeeps | packages/new-blk-parser/src/blockchain/checkpoint.rs:137-150 | inserting keeps the ascent, puts the block on the chain and leaves everything below alone |
| CheckPoints.Insert | packages/new-blk-parser/src/blockchain/checkpoint.rs:151-176 | the walk down and back computes the insertion, panicking exactly below the chain or on a conflict at its bottom |
| Follower.RollBack | packages/new-blk-parser/src/lib.rs:144-163 | steps down keep last hash and checkpoint together and never exceed the allowed length |
| Follower.Advance | packages/new-blk-parser/src/lib.rs:165-198 | emitted blocks sit on each other at consecutive heights, only the first carries the rollback, and the order panic is unreachable |
| Follower.PassExactly | packages/new-blk-parser/src/lib.rs:139-206 | a pass's events turn the old chain into the new one if and only if it emitted a block or rolled none back |
| Follower.Pass | packages/new-blk-parser/src/lib.rs:139-206 | for arbitrary node answers: no disorder, last hash kept, every rollback within the limit, the events record the change |
| Follower.Follow | packages/new-blk-parser/src/lib.rs:139-206 | over any passes a receiver holds the follower's chain if and only if no rollback went unreported |
| Protocol.SameChain | src/inscriptions/mod.rs:68-99 | while rollbacks stay within the cache the surviving blocks are, block for block, those the follower's events describe |
| Protocol.FollowsExactly | packages/new-blk-parser/src/lib.rs:139-206 | fed with the follower's events the surviving blocks are exactly the follower's chain if and only if no rollback was lost |
| Protocol.IndexedIsFollowed | src/inscriptions/mod.rs:47-112 | then the indexer's chain of handled blocks is the follower's |
| Protocol.LostRollbackRefused | src/inscriptions/mod.rs:91-95 | as long as anything is cached, the first block after silent passes is refused if and only if they lost a rollback |
| BlockIndex.GroupsHold | packages/new-blk-parser/src/blockchain/parser/index.rs:171-195 | each height's group holds exactly the valid, unfailed records in range |
| BlockIndex.Walk | packages/new-blk-parser/src/blockchain/parser/index.rs:199-222 | the walk emits the ancestor path below the highest single record, and panics exactly when there is none |
| BlockIndex.GetBlockIndex | packages/new-blk-parser/src/blockchain/parser/index.rs:163-223 | one valid record per height, from the parent of the highest single record to the lowest height, each the parent of the one before |

## Left out

- REST handlers, event streaming, logging, progress, configuration: input, output and presentation.
- RocksDB, the RPC client, block files, threads, locks and channels: tables are maps, the node is an oracle, a channel is a sequence of events and may close.
- JSON decoding of token messages and tick padding: a message is any already validated one.
- Hashing, addresses, script classification, proof-of-history bytes: parameters, or carried as opaque values.
- Tapscript envelopes and the pointer field, which only they set: the target chain predates them, so every part is read as a scriptSig.
- Byte codecs of `TokenId`, `AddressTokenIdDB`, `TxPrevout`, `BlockInfo`: those tables are keyed by values.
- OP_PUSHDATA2 and OP_PUSHDATA4 read the opcode as the low length byte (src/inscriptions/structs.rs:245, 259): modelled as written, with bounds and termination only.
- The bulk phase of `parse_blocks` before the follow loop (packages/new-blk-parser/src/lib.rs:85-137): a pass starts from a checkpoint whose hash is the last one sent.
- The index table's varints and record decoding (packages/new-blk-parser/src/blockchain/parser/index.rs:112-147, 230-250): selection starts from decoded records.
- ParseBlockLoop.Parser.CreateInscription: tapscript parts and the pointer they may carry are not modelled, nor several inscriptions in one part, which only tapscript yields.
- Pipeline.RunsStayOk: without rollbacks; `HandledReorgs.RunKeepsPromises` has them.
- The holder maps after a restore: what they hold is not described, only that the ledger does not depend on them and when they panic.
- `fullhash_to_address` and `proof_of_history`: written but never restored, and nothing here reads them back.
