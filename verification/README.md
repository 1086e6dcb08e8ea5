# FreshLens: verified models of stock, sessions and alerts

FreshLens is an inventory system for produce vendors: a phone app posts sales, a worker turns scans into
stock batches and warns before they age, and administrators onboard tenants. This project models the parts
of it whose correctness depends on concurrency, retries or crashes, and proves what they guarantee.

`dafny verify dfyconfig.toml` checks everything.

**Sales.** `SaleLines` is the deduction loop; `SaleTables` the tables, the statements of a sale and the
sequential service; `SalesService` the service as a class over its tables, with the commit/rollback boundary.
`SaleEffects`, `SaleHistory`, `SaleAnswers` and `SaleLog` say what one sale does and answers, and what a whole
sequential history does.
`SalesMachine` runs any number of transactions one SQL statement at a time (advisory lock, look-up, row locks
in ascending order, plan, insert, one statement per write, commit or rollback) over shared committed tables,
with worker intake in between; the lock hash is an arbitrary function. `SalesRefinement` proves its
invariant, `SalesCommits`, `SalesTheorems` and `SalesProgress` the results. `SaleExamples` is a concrete shop.

**Voice drafts.** `VoiceSale` is the phone's validation and merge of voice lines, connected to the server's
decision.

**Session store.** `Utf8Chunks` is the greedy splitter, `StoreKeys` the key and version encodings,
`ChunkedStorage` the three operations as a class. `StorageMachine`, `StorageSafety`, `StorageTheorems` and
`StorageReaders` run any number of operations one store access at a time, chunk accesses in any order, each operation free to stop
anywhere; `StorageAlone` runs one by itself.

**Scans, freshness and lifecycle warnings.** `ScanWorker` completes scans and runs redelivered tasks, and
`ScanFacts` says what completing writes;
`Freshness` is the deadline schedule and the estimate shown to vendors; `Lifecycle` is the periodic
evaluation as a class; `LifecycleMachine`, `LifecycleSafety` and `LifecycleTheorems` run evaluations
statement by statement beside sales, intake, vendors and the clock; `LifecycleStale` says exactly when an
evaluation leaves a stale warning, and `LifecycleLimits` holds two runs that show where the guarantees stop.

**Rate limiter and onboarding.** `RateLimiter` is the expiring counter; `Onboarding` the review and
invitation procedures, and `OnboardingMachine` and `OnboardingTheorems` their races and failures.

Three results that a maintainer should know of:

- An identical retry of a sale is meant to return the original sale. The read-back orders items by
  `created_at` (apps/api/app/services/sales.py:166), which defaults to the transaction's time
  (infra/db/migrations/0002_business_tables.sql:118), so all items of a sale tie and may come back in any
  order, and the comparison with the request is order-sensitive. `SaleLog.RetryReplaysIff` proves that the
  retry is sure to replay exactly when all its lines are alike; `SaleLog.TwoLinesMayConflict` is the
  failing family. No retry ever deducts twice, whatever the order.
- The lifecycle selection joins on `products.tenant_id` (packages/ml/worker/lifecycle.py:135), a column
  that infra/db/migrations/0010_global_product_catalog.sql:59 drops. On the migrated schema the statement
  is refused and every evaluation rolls back, so no warning is ever raised
  (`LifecycleTheorems.MigratedSchemaNeverWarns`). On the schema before it, a foreign key makes the join find
  every batch's product; the deadline guarantees (`LifecycleTheorems.WarnedByDeadline`) are about that schema,
  as `LifecycleTheorems.MigratedSchemaIsNeverPunctual` makes explicit.
- A sale that empties a batch between selection and commit of an evaluation, and nothing else, makes the
  evaluation leave an open warning on no stock (`LifecycleStale.StaleIffSoldOutMeanwhile`); the next one that
  starts after it and commits resolves it (`LifecycleTheorems.NextEvaluationResolves`).

Assumptions that theorems state as preconditions: sale ids are used once (`SalesMachine.Admissible`); the
manifest text decodes to what was encoded (`ChunkedStorage.Faithful`); versions are never reused when several
operations share a store (`StorageMachine.Admissible`), which `StoreKeys.VersionsNeverRepeat` gives within a
process; a rate-limited call executes in order and within 60.001 seconds of reading the clock
(`RateLimiter.Timely`), a bound that `RateLimiter.SlowerCallsAreForgotten` shows to be exact; evaluations start
at most a gap apart and take at most a duration, together no more than the warning lead
(`LifecycleTheorems.Punctual`), which `LifecycleLimits.LateWhenSlowerThanTheLead` shows to be exact.

## Model

| member | source | states |
|---|---|---|
| SaleLines.Deduct | apps/api/app/services/sales.py:51-64 | the loop over the mutable `remaining` dictionary ends exactly as the left-to-right plan does, refusal reason and every line's remaining stock included |
| SaleLines.AcceptedIff | apps/api/app/services/sales.py:55-62 | a request is accepted if and only if every line names its batch's product and every batch's locked stock covers the request's total for it |
| SaleLines.RefusedAtFirstBadLine | apps/api/app/services/sales.py:57-62 | a refusal is that of the first line that cannot be served, a product mismatch before missing stock, and missing stock means the running total exceeds the locked stock |
| SaleLines.PlannedAt | apps/api/app/services/sales.py:63-64 | line i of an accepted plan is request line i with its locked row and the stock left after lines 0 to i |
| SaleLines.LastLeftIsStockMinusTotal | apps/api/app/services/sales.py:100-108 | the last overwrite of a batch is its locked stock minus the request's total; batches asked for nothing are not written |
| SaleLines.OrderDoesNotMatter | apps/api/app/services/sales.py:55-64 | permuting the lines changes neither acceptance nor the stock any batch ends with |
| SaleTables.RowsForMeans | apps/api/app/services/sales.py:177-203 | locking succeeds exactly when every requested batch is visible, and then yields exactly those rows, all of the tenant's own batches |
| SaleEffects.PlanWrites | apps/api/app/services/sales.py:84-133 | the uncommitted effects of a plan's statements are one item per line in order, the last stock per batch, one low-stock alert for the first crossing line of each batch without one, and resolved warnings of emptied batches |
| SaleHistory.SaleEffect | apps/api/app/services/sales.py:28-142 | an accepted sale reduces each batch by its total, appends its items in order and one sale row, raises at most one low-stock alert per batch, resolves exactly the warnings of batches sold out, and changes nothing else |
| SaleHistory.FirstCrossingSetsSeverity | apps/api/app/services/sales.py:229-304 | a new low-stock alert has the severity of the first line that reached the threshold, not of the final stock |
| SaleAnswers.AnswerIs | apps/api/app/services/sales.py:44-82 | every answer and exactly when it is given: a used key replays or conflicts, then a batch that is not the tenant's own is refused, then the first line that does not fit (mismatch before stock), then an unknown user, and otherwise the sale is accepted |
| SaleAnswers.AcceptedTellsWhatIsLeft | apps/api/app/services/sales.py:128-142 | an accepted answer carries its own id and source and, per requested line in order, the batch's stock minus what the request asked of it up to that line |
| SaleAnswers.LastLineTellsFinalStock | apps/api/app/services/sales.py:100-142 | what the answer says of the last line of each batch is the stock the tables hold afterwards |
| SaleAnswers.ReplayTellsCurrentStock | apps/api/app/services/sales.py:144-175 | a replayed answer carries a stored sale's id and source and the requested lines with their batches' stock now |
| SaleAnswers.AcceptedSaleRow | apps/api/app/services/sales.py:205-227 | the one sale row added carries the request's tenant, user, source and key and the attempt's id |
| SaleAnswers.OnlyOwnBatchesAreSold | infra/db/migrations/0002_business_tables.sql:202-213 | an accepted request names only batches of its own tenant; one that names another tenant's is never accepted |
| SaleAnswers.OtherTenantsUntouched | infra/db/migrations/0002_business_tables.sql:202-213 | a request leaves every batch and alert of other tenants as it was, and adds items and sales of its own tenant only |
| SaleAnswers.ResolutionIsWriteOnce | apps/api/app/services/sales.py:115-127 | of an existing alert a sale changes only a null resolution time, exactly of a freshness warning whose batch it sold out |
| SaleAnswers.OnlyOwnSalesDeduct | apps/api/app/services/sales.py:100-108 | over any history a batch stays its tenant's and loses exactly what that tenant's own accepted requests asked of it |
| SalesService.Service.LoadByIdempotencyKey | apps/api/app/services/sales.py:144-175 | returns the tenant's sale for the key with the read-back lines joined to current stock, or nothing |
| SalesService.Service.LockBatches | apps/api/app/services/sales.py:177-203 | picking the least unlocked batch id each time reads the product, stock and threshold of exactly the requested batches, and succeeds if and only if each belongs to the tenant and joins to a product |
| SalesService.Service.InsertSale | apps/api/app/services/sales.py:205-227 | a duplicate key or an unknown user is reported and inserts nothing; otherwise exactly the sale row is added |
| SalesService.Service.InsertAlertOnce | apps/api/app/services/sales.py:255-304 | an alert is added only when the batch has none, and an existing one keeps its severity |
| SalesService.Service.EvaluateAlerts | apps/api/app/services/sales.py:229-253 | the low-stock alert after a line: raised at or below the threshold unless present |
| SalesService.Service.WriteLine | apps/api/app/services/sales.py:84-127 | one line's item, stock overwrite, alert and resolution, in place |
| SalesService.Service.WriteLines | apps/api/app/services/sales.py:83-133 | writing the lines one by one in place equals committing the whole plan's effects at once |
| SalesService.Service.Create | apps/api/app/services/sales.py:28-142 | the procedure returns the sequential decision and leaves the sequential tables; an accepted answer lists each requested line with the stock it left; its unique-violation branch is dead |
| SalesService.Service.TenantTransaction | apps/api/app/core/database.py:183-208 | commits exactly the sequential effect when the body returns, and leaves the tables untouched when access was revoked, the body raised or it was interrupted |
| SaleLog.HistoryKeepsSound | apps/api/app/services/sales.py:44-133 | every sequential history keeps one sale per (tenant, key), intact references and well-formed alerts |
| SaleLog.HistoryKeepsBalance | apps/api/app/services/sales.py:84-108 | over any history what a batch's received stock exceeds remaining plus sold by never changes, and is zero for a batch received in it |
| SaleLog.HistoryConserves | scripts/run-system-evidence.py:43-49 | batch by batch: one received in the history has received = remaining + sold within bounds at every later time, and one there before has so exactly when it had at the start, whatever other batches did |
| SaleLog.DeductsOnce | apps/api/app/services/sales.py:44-48 | after an accepted attempt every later attempt with its key replays that sale or conflicts, replays exactly when source and read-back match, and changes no table |
| SaleLog.NoDeductionLost | apps/api/app/services/sales.py:100-108 | over any history a batch's stock is its initial stock minus what the accepted requests asked of it, and nothing else of it changes |
| SaleLog.StoredLines | apps/api/app/services/sales.py:84-99 | at any later time the stored rows of an accepted sale are its request's lines in order |
| SaleLog.RetryReplaysIff | apps/api/app/services/sales.py:155-167 | an identical retry replays under every order the read-back may have if and only if the request's lines are all alike |
| SaleLog.TwoLinesMayConflict | apps/api/app/services/sales.py:306-317 | two different lines read back in the other order make an identical retry conflict |
| SaleExamples.RetryConflicts | apps/api/app/services/sales.py:306-317 | a concrete shop and an accepted two-line sale whose identical retry, read back in the other order, conflicts |
| SalesRefinement.CommitIsCreate | apps/api/app/services/sales.py:28-142 | at its commit an interleaved transaction has decided and written exactly what the sequential service would on the tables committed now |
| SalesRefinement.InsertMeetsNoIndex | apps/api/app/services/sales.py:268-304 | when a low-stock insert runs, no alert for that batch is committed or pending anywhere |
| SalesRefinement.StepKeepsInv | apps/api/app/services/sales.py:40-142 | every statement, rollback and intake step keeps the protocol's invariant |
| SalesTheorems.InterleavingRefinesSequential | apps/api/app/services/sales.py:36-142 | the tables of any interleaving with rollbacks and retries are those of a sequential history; every logged outcome is the sequential one; an accepted entry is of a transaction that committed and ended with it, any other changed nothing and its transaction ended with it, is about to, or was rolled back after answering; and every transaction's outcome is logged, once |
| SalesCommits.LogIsInCommitOrder | apps/api/app/core/database.py:191-208 | the history only grows, and its order is the order of the steps that made its entries: the commit of an accepted sale, the answer of any other, the intake of a batch |
| SalesCommits.RunBacked | apps/api/app/core/database.py:204-208 | in every reachable state a transaction stands behind each logged outcome: committed with it if it was accepted |
| SalesTheorems.StockIsConserved | scripts/run-system-evidence.py:43-49 | in every reachable committed state, with intake interleaved, each batch received in the run has received = remaining + sold within bounds, each earlier one has so exactly when it had at the start, and each has lost exactly what accepted requests asked of it |
| SalesTheorems.StockIsTheTenantsOwn | infra/db/migrations/0002_business_tables.sql:202-213 | in every reachable committed state an initial batch has lost exactly what its own tenant's accepted requests asked of it |
| SalesTheorems.AnswersTellWhatIsLeft | apps/api/app/services/sales.py:128-142 | in any run, what a transaction that ended accepted has answered is true of the tables at its commit, line by line, and of its own tenant's batches |
| SalesTheorems.EndedIsAnswered | apps/api/app/core/database.py:204-208 | a transaction that has ended without a rollback has an answer |
| SalesTheorems.OneAcceptedAttemptPerKey | apps/api/app/services/sales.py:40-48 | for any lock hash, of several attempts with one key at most one is accepted, and a replay returns the accepted one's sale |
| SalesTheorems.FallbackUnreachable | apps/api/app/services/sales.py:66-77 | no reachable state takes the unique-violation branch; at the insert no sale with the key is committed or pending |
| SalesTheorems.LockedRowsAreCurrent | apps/api/app/services/sales.py:181-202 | while a sale is pending, the rows it read under lock are the committed ones |
| SalesProgress.SomeTransactionAdvances | apps/api/app/services/sales.py:181-202 | no deadlock: while a sale transaction is unfinished, some sale transaction can run its next statement |
| SalesProgress.StepShrinksWork | apps/api/app/services/sales.py:40-142 | every own step of a transaction decreases a measure, and intake leaves it alone |
| SalesProgress.RunsAreBounded | apps/api/app/services/sales.py:40-142 | the number of transaction steps of any run is bounded by the initial measure |
| SalesProgress.CanFinish | apps/api/app/services/sales.py:40-142 | from every reachable state all transactions can be run to their end without an abort |
| VoiceSale.ValidateLines | apps/mobile/src/lib/voice-sale.ts:75-97 | null if and only if the draft is non-empty, every line resolved and no batch over-asked; otherwise the problem of the first faulty line |
| VoiceSale.FaultNamesWhatIsMissing | apps/mobile/src/lib/voice-sale.ts:81-95 | each problem names the first thing missing in its line, in the order product, batch, quantity, match, stock, and there is none exactly when the draft up to the line can be submitted |
| VoiceSale.BuildSaleItems | apps/mobile/src/lib/voice-sale.ts:100-116 | the merged items have distinct batches, come from the lines, cover every chosen line, and ask of each batch the sum of its lines |
| VoiceSale.DraftNeedsConfirmation | apps/mobile/src/lib/voice-sale.ts:49-65 | a draft as parsed keeps each matched product, rounds each quantity down to a whole number of at least one, and can never be submitted before batches are chosen |
| VoiceSale.MergedItems | apps/mobile/src/lib/voice-sale.ts:100-116 | a validated draft merges into a non-empty list of distinct batches with positive quantities that asks of each batch exactly what the lines did, within the seen stock |
| VoiceSale.ServerAcceptsMerged | apps/api/app/services/sales.py:55-64 | the server's loop accepts the merged items on any stock at least as large as the client saw, and leaves each batch as the unmerged lines one by one would |
| VoiceSale.ValidatedDraftIsAccepted | apps/mobile/src/lib/voice-sale.ts:75-116 | a validated draft is accepted by the whole service when the seen batches are still there with no less stock, the user exists and the key is unused |
| VoiceSale.DefaultIsOldestInStock | apps/mobile/src/lib/voice-sale.ts:68-72 | the default batch is the first of the oldest batches with stock, and none exactly when no batch has stock |
| Utf8Chunks.Split | apps/mobile/src/lib/auth/chunked-storage.ts:37-64 | the chunks join to the input, each fits the budget, none is empty and none had room for the next one's first symbol; a budget below four bytes is refused and an empty value is one empty chunk |
| Utf8Chunks.WidthIsEncodedLength | apps/mobile/src/lib/auth/chunked-storage.ts:52 | a symbol's width is the length of its UTF-8 encoding (section 3 of RFC 3629), from which the symbol can be read back, an unpaired surrogate as U+FFFD |
| Utf8Chunks.GreedyIsShortest | apps/mobile/src/lib/auth/chunked-storage.ts:51-60 | no cut at symbol boundaries within the budget has fewer pieces |
| Utf8Chunks.AllButLastAreFull | apps/mobile/src/lib/auth/chunked-storage.ts:51-60 | every chunk but the last holds at least max - 3 bytes |
| Utf8Chunks.SmallTextsFit | apps/mobile/src/lib/auth/chunked-storage.ts:121-124 | a text of at most limit * (max - 3) bytes needs at most limit chunks |
| StoreKeys.ChunkKeyInjective | apps/mobile/src/lib/auth/chunked-storage.ts:33-35 | equal chunk keys have equal session key, version and index, even for session keys with dots |
| StoreKeys.ManifestKeyInjective | apps/mobile/src/lib/auth/chunked-storage.ts:29-31 | equal manifest keys have equal session keys |
| StoreKeys.ManifestIsNoChunk | apps/mobile/src/lib/auth/chunked-storage.ts:29-35 | a manifest key is never a chunk key of any session key |
| StoreKeys.VersionSource.Next | apps/mobile/src/lib/auth/chunked-storage.ts:4-11 | the version differs from all given out before, whatever the clock and the random digits, and for JavaScript integers passes the store's pattern |
| StoreKeys.VersionsNeverRepeat | apps/mobile/src/lib/auth/chunked-storage.ts:6-11 | equal versions have equal counts, whatever the clock and the random digits, so a process never repeats one |
| StoreKeys.GeneratedVersionIsValid | apps/mobile/src/lib/auth/chunked-storage.ts:3-11 | every generated version passes the store's own pattern |
| ChunkedStorage.ReadsWhatIsHeld | apps/mobile/src/lib/auth/chunked-storage.ts:73-110 | a key reads as a value if and only if the store holds a manifest with an admissible version and a count of 1 to 512 whose chunks are all there and join to it |
| ChunkedStorage.UnnamedChunksUnseen | apps/mobile/src/lib/auth/chunked-storage.ts:99-110 | chunks of a version no manifest names can come and go without changing any read |
| ChunkedStorage.ManifestPublishes | apps/mobile/src/lib/auth/chunked-storage.ts:131-134 | the manifest write makes a fully staged value readable and changes no other key's value |
| ChunkedStorage.Storage.GetItem | apps/mobile/src/lib/auth/chunked-storage.ts:99-110 | returns the joined chunks of a readable manifest, or null when it or any chunk is missing |
| ChunkedStorage.Storage.RemoveChunks | apps/mobile/src/lib/auth/chunked-storage.ts:89-96 | exactly the manifest's chunk keys are deleted |
| ChunkedStorage.Storage.SetItem | apps/mobile/src/lib/auth/chunked-storage.ts:112-136 | afterwards the value reads back and no other key changed; refused as too large only if no cut into 512 pieces within the budget exists; each other refusal has its exact condition, and a refusal changes nothing |
| ChunkedStorage.Storage.RemoveItem | apps/mobile/src/lib/auth/chunked-storage.ts:138-142 | afterwards the key reads null, its manifest and active chunks are gone, and no other key changed |
| ChunkedStorage.DefaultCapacity | apps/mobile/src/lib/auth/chunked-storage.ts:1-2 | at the defaults no value of up to 512 * 1021 bytes is too large |
| StorageSafety.StepKeepsInv | apps/mobile/src/lib/auth/chunked-storage.ts:98-143 | every single store access of any operation keeps the store's invariant |
| StorageTheorems.EveryPointReadsLastSwitch | apps/mobile/src/lib/auth/chunked-storage.ts:112-142 | at every point of every run, with operations abandoned anywhere, a read returns the value of the key's last manifest switch |
| StorageTheorems.KeysDoNotInterfere | apps/mobile/src/lib/auth/chunked-storage.ts:29-35 | operations on other session keys never change what a key reads |
| StorageTheorems.CrashLeavesOldOrNew | apps/mobile/src/lib/auth/chunked-storage.ts:112-142 | from any store, orphans included, an operation stopped anywhere leaves the old result before its manifest access and the new value (or null) from then on |
| StorageReaders.ReadsAreAtomic | apps/mobile/src/lib/auth/chunked-storage.ts:99-110 | a read interleaved with any writers answers exactly the value committed when it read the manifest, unless a chunk of that version was deleted between that read and its answer; only then may it answer null instead, and never a splice |
| StorageAlone.LoneReaderAnswers | apps/mobile/src/lib/auth/chunked-storage.ts:99-110 | a read that nothing interleaves with, of any store and in any order of chunk reads, answers exactly what the procedure returns |
| StorageAlone.AloneIsGetItem | apps/mobile/src/lib/auth/chunked-storage.ts:99-110 | such a run exists from every store, ends, and answers what the procedure returns |
| StorageAlone.AloneIsSetItem | apps/mobile/src/lib/auth/chunked-storage.ts:112-136 | a write that nothing interleaves with is refused with nothing changed in exactly the procedure's cases, and otherwise ends with exactly the store the procedure leaves |
| StorageAlone.AloneIsRemoveItem | apps/mobile/src/lib/auth/chunked-storage.ts:138-142 | a removal that nothing interleaves with ends with exactly the store the procedure leaves |
| Freshness.IntakeEstimateIsTheLabel | packages/ml/worker/db.py:112-125 | at intake the estimate equals the classifier's label, and a rule of at least a day per stage gives two ordered deadlines, in the future exactly for the stages still ahead |
| Freshness.FreshnessOnlyDeclines | apps/api/app/services/catalog.py:33-35 | the estimate never improves with time, and each stage lasts exactly as the rule says |
| Freshness.UnlabelledStaysUnknown | packages/ml/worker/db.py:108-125 | a batch without a label has no deadlines and its estimate stays unknown |
| Freshness.ZeroDayRuleBreaksIntake | apps/api/app/schemas/admin.py:137-139 | a rule of zero fresh days, which the schema refuses, would show a fresh batch as medium at intake |
| ScanWorker.FirstMatchByName | packages/ml/worker/db.py:78-90 | the product of a label is the first in catalogue order whose normalised name equals the label's, and none exactly when no name matches |
| ScanWorker.ProductForChooses | packages/ml/worker/db.py:70-93 | a product is chosen exactly as supplied, or else from a non-empty label of confidence at least 0.75 as the first catalogue product of that normalised name |
| ScanWorker.NewBatchIsDated | packages/ml/worker/db.py:95-125 | a new batch's deadlines are its intake plus the days for its label of the rule of its product's normalised name, and null without such a product, rule, stage or label |
| ScanWorker.BatchInsertedIff | packages/ml/worker/db.py:60-149 | a batch is inserted if and only if the scan has none and a product is chosen, and then it is whole, unsold, of the scan's tenant and that product, and dated by its rule |
| ScanWorker.Worker.SetStatus | packages/ml/worker/db.py:30-40 | only a scan of the caller's tenant changes, and of it only the status, which may move back from completed |
| ScanWorker.Worker.EnsureInventoryBatch | packages/ml/worker/db.py:43-149 | returns the existing link, or inserts one batch of the scan's quantity for a supplied or confidently matched product, dated by the rule of that product's normalised name, or nothing |
| ScanWorker.Worker.CompleteScan | packages/ml/worker/db.py:152-217 | completes the scan keeping any earlier product and batch, and returns an alert id exactly when a spoilage alert was newly raised |
| ScanWorker.Worker.ClassifyScan | packages/ml/worker/tasks.py:31-43 | a task that commits leaves the completed scan; one that raises anywhere leaves only the failed status |
| ScanWorker.OneBatchPerScan | packages/ml/worker/db.py:43-149 | however often tasks are delivered and however runs interleave and fail, the batches table is the initial one plus one batch for each of some scans that had none, no two for one scan, each with its scan's quantity and named by it |
| ScanWorker.LinksAreWriteOnce | packages/ml/worker/db.py:160-185 | between any two moments of a run a scan's product and batch are written at most once, and existing batches keep their deadlines whatever the rules become |
| ScanFacts.InsertedAsIntakeSays | packages/ml/worker/db.py:95-149 | every batch inserted in a run is, and stays, as intake says: its product, quantity, label and deadlines are those of the scan, the classification and the catalogue of the commit that inserted it |
| ScanFacts.SpoilageRaisedIff | packages/ml/worker/db.py:187-217 | completing marks the scan with its label, and raises a spoilage alert exactly for a spoiled label on a scan that ends up with a product and a batch without such an alert |
| ScanFacts.OtherScansUntouched | infra/db/migrations/0002_business_tables.sql:215-226 | completing changes no scan but the caller's own, does nothing for another tenant's scan, and inserts only for the caller's tenant |
| ScanWorker.AloneIsTheTask | packages/ml/worker/tasks.py:31-43 | an uninterrupted successful run of the step machine reaches exactly what the task procedure leaves |
| ScanWorker.FailingAloneIsTheTask | packages/ml/worker/tasks.py:38-42 | an uninterrupted run of the step machine that fails before it locks the scan reaches exactly what the raising task procedure leaves |
| ScanWorker.FailingLockedIsTheTask | packages/ml/worker/tasks.py:38-42 | so does one that fails inside the completing transaction, after it has locked the scan |
| Lifecycle.SettingsAreClamped | packages/ml/worker/lifecycle.py:93-95 | whatever the environment says the lead is at least an hour and the ratio between 0 and 1, and values already in range are kept |
| Lifecycle.BranchesPartitionTheSelection | packages/ml/worker/lifecycle.py:136-184 | under SQL's three-valued logic a stocked row is selected if and only if it takes one of the two loop branches, and it never takes both |
| Lifecycle.LifecycleTables.InsertAlert | packages/ml/worker/lifecycle.py:69-89 | inserts the warning unless the batch already has one for the event, and says which |
| Lifecycle.LifecycleTables.ResolveOutdated | packages/ml/worker/lifecycle.py:102-119 | resolves exactly the open warnings of empty batches and the freshness warnings past their deadline |
| Lifecycle.LifecycleTables.WarnAbout | packages/ml/worker/lifecycle.py:153-184 | a selected row makes exactly one insert attempt, for the event it is due |
| Lifecycle.LifecycleTables.WarnAll | packages/ml/worker/lifecycle.py:153-184 | the loop adds exactly the missing warnings of its rows and counts them |
| Lifecycle.LifecycleTables.Evaluate | packages/ml/worker/lifecycle.py:92-185 | the evaluation resolves what is outdated and returns how many alerts are new; these are exactly the warnings earned (enough stock left, deadline within the lead) and not there yet; where the column the selection joins on is gone it raises and changes nothing |
| Lifecycle.EvaluationRaisesWhatIsDue | packages/ml/worker/lifecycle.py:102-184 | afterwards every due event has its alert, nothing else is new, old alerts change only by being resolved when outdated, and a batch is due something exactly when selected |
| Lifecycle.RaisedIffEarned | packages/ml/worker/lifecycle.py:136-184 | an evaluation raises exactly the warnings not there yet of batches with something left, at least the ratio of what was received: the spoil warning once that deadline is within the lead, before that the other for fresh batches |
| Lifecycle.RepeatInsertsNothing | packages/ml/worker/lifecycle.py:69-89 | evaluating again at the same time inserts nothing and changes an alert exactly when the first evaluation raised it past its own freshness deadline |
| Lifecycle.SecondRepeatChangesNothing | packages/ml/worker/lifecycle.py:92-185 | from the second evaluation at a time on nothing changes |
| Lifecycle.ReplyExists | packages/ml/worker/lifecycle.py:120-151 | the selection always has an answer in the order the query asks for |
| Lifecycle.ReplyIsOrdered | packages/ml/worker/lifecycle.py:147 | rows with spoil deadlines come first, the earliest first, ties by identifier |
| Lifecycle.LifecycleTables.MarkRead | apps/api/app/services/catalog.py:90-123 | of all alerts only this one may change, and of it only a read_at that was null; reports whether it exists |
| Lifecycle.LifecycleTables.Dismiss | apps/api/app/services/catalog.py:125-159 | of all alerts only this one may change, and of it only a read_at or resolved_at that was null; reports whether it exists |
| Lifecycle.LifecycleTables.MarkNotificationSent | packages/ml/worker/db.py:249-259 | of all alerts only this one may change, and of it only a notification_sent_at that was null |
| Lifecycle.MarksAreWriteOnce | apps/api/app/services/catalog.py:95-131 | marking an alert only adds to it, and repeating the mark at any later time changes nothing |
| Lifecycle.LifecycleTables.DeliverPending | packages/ml/worker/tasks.py:77-91 | of a page of pending alerts of any event exactly those whose push was accepted are marked, leave the pending set and are counted; a page that is not full and wholly accepted leaves nothing pending |
| Lifecycle.PageIsOfOpenAlerts | packages/ml/worker/lifecycle.py:193-202 | a page holds at most a hundred alerts, all open and not pushed yet, and unless it is full it holds every such alert |
| LifecycleSafety.StepKeepsInv | packages/ml/worker/lifecycle.py:100-184 | every step of any evaluation, sale, intake, dismissal or clock tick keeps the invariant and only adds facts |
| LifecycleTheorems.OneAlertPerEvent | packages/ml/worker/lifecycle.py:74-78 | over any run, overlapping evaluations included, a warning was inserted exactly once if it is new in the alerts table since the start and never otherwise |
| LifecycleTheorems.ResolvedForGood | packages/ml/worker/lifecycle.py:104-118 | between any two moments an alert persists with its facts, each timestamp is written at most once, so a resolved alert is never re-raised |
| LifecycleTheorems.AloneIsTheEvaluation | packages/ml/worker/lifecycle.py:92-185 | an evaluation nothing interleaves with reaches exactly what the procedure leaves |
| LifecycleTheorems.AloneIsTheRefusal | packages/ml/worker/lifecycle.py:120-151 | where the selection is refused an evaluation nothing interleaves with leaves nothing, as the procedure does |
| LifecycleTheorems.NextEvaluationResolves | packages/ml/worker/lifecycle.py:102-119 | a warning open on a sold-out batch, or past its freshness deadline, when an evaluation sweeps is resolved once that evaluation commits |
| LifecycleTheorems.EvaluationWarns | packages/ml/worker/lifecycle.py:96-184 | an evaluation that reads the clock inside a batch's window and commits leaves the due warning recorded, if the batch stays stocked meanwhile |
| LifecycleTheorems.WarnedByDeadline | packages/ml/worker/lifecycle.py:136-184 | if gap plus duration of evaluations fit in the lead, a batch present before its window that keeps at least the ratio of its received stock has a spoil warning by its spoil deadline, and a lifecycle warning by the end of its freshness if initially fresh |
| LifecycleTheorems.HourlyBeatSuffices | packages/ml/worker/app.py:12-17 | with a task every hour the deadline guarantee holds for every configured lead, as long as queueing and running a task together take no longer than the hours of lead beyond the first |
| LifecycleTheorems.BeatIsPunctual | packages/ml/worker/app.py:12-17 | tasks sent every hour, started within a delay and committed within a duration, mean an evaluation starts within an hour and the delay of any moment |
| LifecycleTheorems.MigratedSchemaNeverWarns | infra/db/migrations/0010_global_product_catalog.sql:55-59 | once the column that the selection joins on is gone no evaluation commits and no warning is ever raised |
| LifecycleTheorems.MigratedSchemaIsNeverPunctual | infra/db/migrations/0010_global_product_catalog.sql:55-59 | so no run on the migrated schema that outlasts a gap and a duration meets the premise of the deadline guarantee |
| LifecycleStale.StaleIffSoldOutMeanwhile | packages/ml/worker/lifecycle.py:120-184 | in any run, a warning that an evaluation inserted stands open just after its commit, and its batch is empty then if and only if a sale between that evaluation's selection and commit emptied it |
| LifecycleStale.OnlyEarnedIsInserted | packages/ml/worker/lifecycle.py:136-147 | in any run every warning an evaluation inserted was earned when it selected; a batch below the ratio then gets none |
| LifecycleLimits.StaleWarningHappens | packages/ml/worker/lifecycle.py:120-184 | a concrete run, with a batch as the worker creates it, in which a sale between selection and insert leaves an open warning on an empty batch |
| LifecycleLimits.LateWhenSlowerThanTheLead | packages/ml/worker/lifecycle.py:93-97 | for every configuration and every rule longer than the lead: whenever gap plus duration exceed the lead, a punctual run exists in which a batch as the worker creates it, never sold, is not warned of by its deadline |
| RateLimiter.TenantRateLimiter.Allow | apps/api/app/core/rate_limit.py:17-29 | a call the store answers is allowed if and only if fewer than limit calls were executed before it in its window; a call the store fails is allowed, and counts exactly if it was executed |
| RateLimiter.RunAgrees | apps/api/app/core/rate_limit.py:20-22 | with calls executed within the slack, the expiring store holds exactly the plain per-window counts, long enough alive |
| RateLimiter.CountsEveryCall | apps/api/app/core/rate_limit.py:21-29 | the count a call receives is one more than the earlier calls of its window |
| RateLimiter.WindowAdmitsUpToLimit | apps/api/app/core/rate_limit.py:29 | of the n calls of a window exactly min(n, limit) are admitted |
| RateLimiter.AnyMinuteAdmitsTwiceTheLimit | apps/api/app/core/rate_limit.py:18 | any minute of clock readings admits at most twice the limit |
| RateLimiter.SlowerCallsAreForgotten | apps/api/app/core/rate_limit.py:22 | for any longer delay two calls of one window can both count as its first |
| Onboarding.OnboardingServices.CreateTenant | apps/api/app/services/tenants.py:35-67 | on success both rows and the invited user exist; on failure the invited user remains exactly when the compensating delete failed |
| Onboarding.OnboardingServices.Approve | apps/api/app/services/applications.py:62-102 | a pending application is approved with its new tenant and user, an approved one answers its record without inviting, every failure leaves the tables as they were except for a user that could not be deleted |
| Onboarding.OnboardingServices.Reject | apps/api/app/services/applications.py:104-124 | only a pending application is rejected; otherwise missing and decided ones are told apart and nothing changes |
| Onboarding.OnboardingServices.CreateUser | apps/api/app/services/tenants.py:69-106 | provisions one user of an existing tenant, or leaves the tables as they were except for a user that could not be deleted |
| Onboarding.RepliesAre | apps/api/app/services/applications.py:62-124 | which answer each call gives: not found exactly for an unknown subject, wrong state exactly for one decided otherwise, done exactly when no step fails, and anything else leaves the tables but the Auth users as they were |
| OnboardingTheorems.StepKeepsInv | apps/api/app/services/applications.py:62-124 | every step, failure and crash of racing calls keeps the invariant |
| OnboardingTheorems.LeavesPendingOnce | apps/api/app/services/applications.py:66-76 | however approvals and rejections race, the decisions made are exactly the applications that left pending, each made once, and every other record is unchanged |
| OnboardingTheorems.DecisionIsFinal | apps/api/app/services/applications.py:73-74 | once decided, an application's record never changes and no later step of any run sends an invitation for it |
| OnboardingTheorems.InvitesAreCounted | apps/api/app/services/applications.py:78-85 | the recorded number of invitations of an application is the number of invitation steps of the run |
| OnboardingTheorems.AnswersAgree | apps/api/app/services/applications.py:73-102 | all answered reviews of one application give the same answer, and an approval names a provisioned user of an existing tenant |
| OnboardingTheorems.AuthUsersAccountedFor | apps/api/app/services/tenants.py:38-64 | at every quiescent point the Auth users are the provisioned ones and those left behind, and nobody is both |
| OnboardingTheorems.OrphansIffStranded | apps/api/app/services/tenants.py:57-62 | users are left behind if and only if an invitation's reply was lost, a compensating delete or a commit failed, or a call died holding an invitation |
| OnboardingTheorems.AuthMatchesUsers | apps/api/app/services/applications.py:86-101 | at a quiescent point invited Auth users are exactly the provisioned user rows if and only if no step left a user behind |
| OnboardingTheorems.AloneIsApprove | apps/api/app/services/applications.py:62-102 | fault by fault, an uninterleaved run of the step machine ends exactly as the approval procedure does |
| OnboardingTheorems.AloneIsReject | apps/api/app/services/applications.py:104-124 | an uninterleaved run of the step machine ends exactly as the rejection procedure does |
| OnboardingTheorems.AloneIsCreateUser | apps/api/app/services/tenants.py:69-106 | fault by fault, an uninterleaved run of the step machine ends exactly as the user creation does |

## Left out

- HTTP routing, request parsing, JWT and webhook checks and row-level security policies; a tenant is a field of a row or a map key.
- Deadlocks between sale transactions and the lifecycle worker or alert updates: alert rows are not locked in an order, so `SalesProgress.SomeTransactionAdvances` is about sale transactions and intake alone.
- SalesMachine keeps products' thresholds and the provisioned users fixed during a run, and the lifecycle evaluator does not run inside it; `LifecycleMachine` has sales as single committed steps that resolve whichever of the batch's warnings their own statement saw.
- The generated ids of sale items, and the names and messages of alerts.
- Low-stock severity upgrades: an alert keeps its first severity, as `SaleHistory.FirstCrossingSetsSeverity` states.
- ChunkedStorage.Storage.SetItem: the JSON text of a manifest is a codec with an inverse; JSON itself is not part of this model.
- ChunkedStorage.Storage.SetItem: chunk writes are sequential in the class; `StorageMachine` has them in any order.
- StorageReaders.ReadsAreAtomic: store accesses that fail, and a reader's own exceptions, are the operation being abandoned.
- VoiceSale.ValidateLines: JavaScript numbers are reals, without rounding, infinities and NaN; an empty identifier counts as none; the problem carries the line's index instead of its wording.
- VoiceSale.DefaultIsOldestInStock: intake dates are instants, not locale-compared strings.
- Utf8Chunks.Split: a value is the sequence of symbols that iterating a JavaScript string yields, not UTF-16 code units; a budget that is not an integer is not expressible.
- Lifecycle.LifecycleTables.Evaluate: the stock ratio is a real quotient, without numeric rounding, and the guard on received quantity is taken to be evaluated before the division.
- Lifecycle.LifecycleTables.DeliverPending: the order of the pending page by creation time is not stated, and two concurrent deliveries of one alert's push are not modelled.
- LifecycleTheorems.WarnedByDeadline: the worker's clock and PostgreSQL's are one clock, and the settings do not change during a run.
- ScanWorker.Worker.ClassifyScan: classification, image reading and pushes are outcomes; that the failed status itself could not be written is not modelled.
- Scan submission: the job is published before its transaction commits, so nothing is claimed about every accepted scan finishing; scan status is not monotone under redelivery, and only write-once facts are stated.
- RateLimiter.TenantRateLimiter.Allow: keys are (tenant, route, window) triples, not text; the text form is unambiguous because neither a UUID nor a window number contains a colon.
- Onboarding.OnboardingServices.Approve: review notes, reviewers, e-mail addresses and the local Auth shadow rows are not modelled.
- `voice_draft.build_draft`, dataset splitting, evaluation metrics, tenant listings, web pages and screens would only add easy members.
