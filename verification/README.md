# Reading pipeline: a Dafny model

Reading Lite takes in URLs and markdown, runs a pipeline on each of them in the
background, and keeps rows, blobs and vectors in step while runs fail, retry, are
replaced by force, or die with the process. This project models the code that
carries those promises and proves them. `dafny verify dfyconfig.toml` checks all of it.

## What is modelled

**The dispatcher as a protocol, joined to its clients.** `Claims` is the token map as
a value. `Protocol` is a step relation: one step is one critical section, one channel
operation or one observation, with any number of concurrent submits, forced submits,
sweeps, workers and delayed continuations, and a crash at any point.
`ProtocolInvariant` proves one inductive invariant of it and draws the ownership
claims from it; `ProtocolRuns` follows one token through whole runs, and `CleanForce`
treats the runs whose forced waits end cleanly.
`System` joins the protocol to the pipeline inside each handler, the commands of the
reading service, the startup sweep, the rows, the blobs and the vector index. Any
store, blob or index call may fail at any step, and a replaced handler may ignore its
cancelled context in its later guarded writes. `Projection` shows that a run of the
joined system, seen from the dispatcher, is a run of the protocol. `Ground` is the part
of the joint invariant that stands on tokens alone and holds in every configuration.
`SystemInvariant` is the whole of it, with the leases; `QuietSteps`, `DispatchSteps`,
`BootSteps`, `PipelineSteps`, `CommandSteps`, `RowSteps` and `ForceSteps` prove it kept,
step by step; `SystemTheorems` and `JoinedProperties` say what follows. The lease part
needs *leases kept apart* (`System.Separates`): forced submits wait until the old handler
has left or the clock has moved on, or nothing is ever reported stale. `DelaySeam` builds
runs of every other configuration in which it fails. So the condition is exact for six
properties: replaced runs never land (`SeparationExact`), ready readings are whole
(`ReadyIsWholeExact`), no key dangles (`NoDanglingExact`), a reading has one writer
(`OneWriterExact`), leases are unique (`LeaseExact`) and replaced runs' vectors lose
(`StaleVectorExact`).

**The same code as classes.** `Dispatcher`, `MemoryStore`, `ReadingOps`, `Pipeline` and
`VectorIndex` are classes whose fields the methods update in place, with the
source's loops and error returns. Each method is proved against a function of its old
state: of `Claims`, `ReadingTable`, `Batches`, `Listings` or `Vectors`. The classes and
the step relation use the same functions for what a write does to a row, what a
critical section does to the token map and when a vector outranks another.

**The manual-batch store.** `Batches` gives its five mutating operations as functions
of a value, `BatchInvariant` the invariant they keep, `BatchRuns` what holds of whole
runs of calls, and `BatchMeaning` what each operation leaves in every record.

**Keyset pagination.** `Lexical` and `Sorting` supply the orders, `Keyset` the
comparator, the cursor test and the page, `Listings` the one sorted list that a search
pages through. `PageOrder` says of the readings on a page, without the comparator, which
they are and how they are ordered. `Walks` is the theory of following cursors in the abstract,
`Pagination` applies it to the store, and `Scan` is the client that relies on it.

**The vector index, batch results, retries and keys.** `Vectors` and `VectorIndex` cover
the generation fence, cosine similarity over the reals and the exact top-k query;
`BatchResults` the JSONL results parser; `Retry` the error classifier, the int64
backoff and the retry budget; `BlobKeys` the key strings.

Times are nanoseconds. Text functions (lower-casing, tokenising, counting a term),
`URLKey`, source classification, JSON validity and decoding, the square root and the
answers of adapters are parameters of the model.

## What came out

- Replaced runs are shut out of their row exactly when leases are kept apart
  (`JoinedProperties.SeparationExact`): the `Delay` seam is set and its timer never ends a
  forced wait while the clock stands still, or both TTLs are off so that nothing is ever
  stale. The comments at `internal/dispatch/dispatcher.go:52-60` and `227-233` say that
  the store fence alone makes any late stale write a no-op. Otherwise it does not: a
  reading may be found stale, be started before the forced claim, and be reset and
  started again at the same clock reading, so that two runs hold equal leases.
  Then a ready reading may mix two runs, a row may name a blob that is gone, and an old
  vector may replace a new one.
- `Delay` and `Clock` are separate ports, so the condition is an assumption about both.
  `waitAdvance` is the least that the clock moves on during a wait which the timer ends.
  With timers and a clock of one machine that is the wait budget
  (`JoinedProperties.TrueTimersSeparate`); the API process is wired that way
  (`internal/readerapi/runtime.go:160`, `internal/dispatch/delayer.go:21`). A delayer
  that fires at will, as in `internal/readingops/reprocess_integration_test.go:84-100`,
  makes it 0.
- With no `Delay` the first retry or requeue panics under the dispatcher's lock, right
  after its pending write (`internal/dispatch/dispatcher.go:500-507`). On a worker's
  goroutine that ends the process, and so it does in the model.
- Who writes a status, that ready rows are frozen and that attempts never fall needs none
  of this: the token decides (`Ground`).
- Writing a batch item result again, at any later time, changes nothing, and it succeeds
  exactly while the item is in the reported state and the result decodes
  (`BatchRuns.WriteRepeatsExact`). `json.Valid` accepts documents that `json.Unmarshal`
  refuses, and such a result is stored by the first call and refused by every later one.
- Repeating a submit succeeds exactly while the batch has the URL and counts submitted,
  which a later state update may replace (`BatchRuns.SubmitRepeatsExact`).
- The inactive branch of `ForceSubmitAfter`, the clock fallback of
  `replacementRawKey` and the item guard of `SubmitBatch` are never taken.

## Model

| member | source | states |
|---|---|---|
| Retry.Classify | internal/dispatch/dispatch.go:89-104 | a rate limit anywhere in the chain means requeue after the outermost one's delay, else a permanent mark means fail, and only nil means done |
| Retry.BackoffExact | internal/dispatch/dispatch.go:111-122 | for every attempt, shifts that wrap or clear int64 included, the delay is min(2^n, 30) seconds |
| Retry.TotalBackoffExact | internal/dispatch/dispatch.go:106-122 | n retries from attempt 0 schedule 2^n - 1 seconds up to n = 5 and 31 + 30(n - 5) beyond |
| Retry.RetryBudgetExact | internal/dispatch/dispatch.go:124-142 | with transient outcomes a claim started at s fails at exactly its max(1, Max - s)-th retry, however many requeues are interleaved |
| Retry.ScheduledExact | internal/dispatch/dispatch.go:124-142 | while the budget lasts a claim waits exactly what its requeues asked for and the backoff of the attempts it went through |
| Retry.AttemptNeverFalls | internal/dispatch/dispatch.go:124-142 | along one claim the attempt never falls, rises once per retry, and the claim never outlives its budget |
| ProtocolInvariant.StepKeeps | internal/dispatch/dispatcher.go:90-512 | every step of every thread keeps the ownership invariant |
| ProtocolInvariant.ExactlyOneCarrier | internal/dispatch/dispatcher.go:83-142 | in every run an owned id has exactly one live carrier of its current token |
| ProtocolInvariant.ResumeNeverInactive | internal/dispatch/dispatcher.go:189-219 | after its wait a forced submit still owns the id, so its inactive branch is unreachable |
| ProtocolInvariant.OneHandlerHolds | internal/dispatch/dispatcher.go:128-142 | at most one handler of an id holds the current token, in any run |
| ProtocolInvariant.RunningWriteByHolder | internal/dispatch/dispatcher.go:385-407 | the running write only lands for the holder of the current token |
| ProtocolRuns.StaleForever | internal/dispatch/dispatcher.go:251-269 | from any reachable state on, a token that was replaced or released is never current again in any run in which the process lives |
| ProtocolRuns.TokenLife | internal/dispatch/dispatcher.go:414-512 | along every run from the claim that made it, a token is carried at its first attempt plus one for each retry it was handed on with, and those are fewer than max(1, Max - first) |
| Projection.RunShadows | internal/dispatch/dispatcher.go:90-512 | a run of the joined system, with rows, blobs and commands forgotten, is a run of the dispatcher |
| Ground.GroundKeeps | internal/dispatch/dispatcher.go:385-512 | every step keeps, with or without a delay seam, who owns a reading and at which attempt, where each command may be, and that a holder's row carries its lease |
| CleanForce.OneHandlerRuns | internal/dispatch/dispatcher.go:227-269 | when every forced wait ends because the old handler exits, at most one handler of an id runs at all |
| SystemTheorems.StepKeeps | internal/pipeline/pipeline.go:117-248 | with leases kept apart, every step of dispatcher, pipeline, commands, sweep and crash keeps the joint invariant |
| SystemTheorems.RowsKept | internal/store/memory.go:93-294 | only a reset, a status write of the dispatcher or a guarded write of the reading's own run changes a row |
| SystemTheorems.StatusWrite | internal/dispatch/dispatcher.go:385-512 | a status write that changes a row is made by the current holder, on a row that is not finished, and never lowers its attempt, in every configuration |
| SystemTheorems.ContentWrite | internal/store/memory.go:155-157 | under the lease part of the invariant, a guarded write that lands comes from the one live run of the reading, holding its lease |
| JoinedProperties.ReadyIsWholeExact | internal/pipeline/pipeline.go:173-247 | every reachable ready reading has its content blob, and content, tags and vector of the one run marked ready, which began after the last reset, if and only if leases are kept apart |
| JoinedProperties.ReadyIsFrozen | internal/dispatch/dispatcher.go:414-460 | in every configuration a ready reading stays as it is until a reset or an import |
| JoinedProperties.NoDanglingExact | internal/readingops/service.go:129-250 | in every reachable state each key in a row names an existing blob, if and only if leases are kept apart |
| JoinedProperties.StatusByHolder | internal/dispatch/dispatcher.go:438-512 | in every configuration whoever changes status, start or attempts outside a reset holds the current token at that moment |
| JoinedProperties.AttemptNeverFalls | internal/dispatch/dispatcher.go:491-533 | in every configuration the stored attempt only falls by a reset, across retries, lost writes, crashes and sweeps |
| JoinedProperties.StaleItemIsMute | internal/dispatch/dispatcher.go:438-512 | in every configuration, while the process lives, no status write under a lost token changes a row |
| JoinedProperties.ForceMutes | internal/dispatch/dispatcher.go:251-269 | so from a forced claim on, the item it replaced changes no status, start or attempt |
| JoinedProperties.OneWriterExact | internal/store/memory.go:155-157 | at most one run of a reading passes the lease fence, if and only if leases are kept apart |
| JoinedProperties.LeaseExact | internal/reading/reading.go:73-95 | a new run starts strictly after every run of the reading still in progress, if and only if leases are kept apart |
| JoinedProperties.ReplacedRunNeverLands | internal/readingops/service.go:188-210 | with leases kept apart, once a reset is done no earlier run ever lands a content or tag write again |
| JoinedProperties.StaleVectorExact | internal/pipeline/pipeline.go:142-156 | a run from before the last reset never replaces the vector of a later one, if and only if leases are kept apart |
| DelaySeam.StaleWriteLands | internal/dispatch/dispatcher.go:227-249 | in every configuration that does not keep leases apart there is a run in which a replaced run's checkpoint passes the fence |
| DelaySeam.EqualStart | internal/dispatch/dispatcher.go:385-407 | and one in which the new run starts at the start of the run it replaced |
| DelaySeam.TwoWriters | internal/store/memory.go:155-157 | and one in which both runs pass the fence |
| DelaySeam.StaleVectorWins | internal/vector/vector.go:80-100 | and one in which the replaced run's vector replaces the new one, at an equal generation |
| DelaySeam.MixedReady | internal/pipeline/pipeline.go:193-248 | and one in which a reading becomes ready with the content of the run that was replaced |
| DelaySeam.KeyDangles | internal/readingops/service.go:212-235 | and one in which the replaced run names a blob that an import has dropped |
| JoinedProperties.SeparationExact | internal/dispatch/dispatcher.go:227-249 | for every configuration, replaced runs are shut out if and only if the seam is set and its timer needs the clock to move, or neither TTL is positive |
| JoinedProperties.TrueTimersSeparate | internal/dispatch/dispatcher.go:234-248 | a set seam whose timer fires no earlier than the wait budget shuts them out |
| BlobKeys.OwnerUnique | internal/pipeline/pipeline.go:575-588 | a key under one reading's prefix belongs to no other reading |
| BlobKeys.RunsWriteApart | internal/pipeline/pipeline.go:575-588 | runs with different leases never write the same blob |
| BlobKeys.ReplacementKeyIsNew | internal/readingops/service.go:237-250 | of three candidates one is always neither of the two old keys |
| BlobKeys.ReplacementRawKey | internal/readingops/service.go:237-250 | the loop answers the first free candidate and never falls back to the clock |
| Dispatcher.LostForever | internal/dispatch/dispatcher.go:90-142 | an item that lost its id never holds it again through any sequence of claims, forced claims, runs begun and releases, and its own release changes nothing |
| Dispatcher.Dispatcher.Claim | internal/dispatch/dispatcher.go:90-104 | claims a free id under a fresh token, or refuses |
| Dispatcher.Dispatcher.Release | internal/dispatch/dispatcher.go:106-118 | only the holder gives the id up, cancelling its run |
| Dispatcher.Dispatcher.BeginRun | internal/dispatch/dispatcher.go:128-142 | only the holder begins a run, which enters the claim |
| Dispatcher.Dispatcher.ForceClaim | internal/dispatch/dispatcher.go:251-269 | replaces the claim, cancels its run and keeps the done channel to wait for |
| Dispatcher.Dispatcher.QueueClaimed | internal/dispatch/dispatcher.go:271-294 | a current item is run at once inline, else queued, else gives its id up when the channel is full; a stale one changes nothing |
| Dispatcher.Dispatcher.Submit | internal/dispatch/dispatcher.go:154-165 | a duplicate changes nothing, inline the new holder is run at once, a full channel leaves the id free, otherwise the new holder is queued last |
| Dispatcher.Dispatcher.EnqueueRecovered | internal/dispatch/dispatcher.go:296-325 | a done context and an owned id change nothing; otherwise the id is claimed at its stored attempt and the send never drops: it runs or queues the item or, aborted, gives the id up |
| Dispatcher.Dispatcher.Start | internal/dispatch/dispatcher.go:385-407 | only the holder marks the row running and enters its run; a write that fails gives the id up |
| Dispatcher.Dispatcher.FinishReady | internal/dispatch/dispatcher.go:438-460 | row and ownership change together and only for the holder, the row as in the joined system |
| Dispatcher.Dispatcher.FinishFailed | internal/dispatch/dispatcher.go:438-473 | the same for a failure, with its message and attempt |
| Dispatcher.Dispatcher.Redispatch | internal/dispatch/dispatcher.go:491-512 | only the holder schedules a continuation, which keeps the token |
| Dispatcher.Dispatcher.Settle | internal/dispatch/dispatcher.go:414-436 | for the holder a success ends ready, a permanent error or a spent budget ends failed, a rate limit waits as asked with the attempt unchanged, any other error waits its backoff with the next; a replaced run changes nothing |
| ReadingTable.RunKeeps | internal/store/memory.go:39-397 | every run of operations keeps byURLKey the exact inverse index of byID |
| ReadingTable.RunKeepsIdentity | internal/store/memory.go:93-397 | a reading that is not deleted stays, with its identity, through any run |
| MemoryStore.Memory.SaveReading | internal/store/memory.go:39-59 | inserts, or conflicts on id or URL key and changes nothing |
| MemoryStore.Memory.GetByURLKey | internal/store/memory.go:77-91 | finds the reading of a key exactly when there is one |
| MemoryStore.Memory.UpdateStatus | internal/store/memory.go:93-139 | sets exactly the status columns: a clear outranks a given time, which outranks the clock |
| MemoryStore.Memory.UpdateContent | internal/store/memory.go:141-180 | sets exactly the content columns, if the row runs with the very lease given |
| MemoryStore.Memory.UpdateImport | internal/store/memory.go:182-225 | leaves a pending row with the import's columns and nothing derived |
| MemoryStore.Memory.Reprocess | internal/store/memory.go:227-268 | leaves a pending row as if just created, with the given body and title |
| MemoryStore.Memory.ReplaceTags | internal/store/memory.go:270-294 | sets exactly the tags, if the row runs with the very lease given |
| MemoryStore.Memory.Delete | internal/store/memory.go:381-397 | removes the row and its index entry |
| MemoryStore.Memory.ListNonTerminal | internal/store/memory.go:358-379 | lists every recoverable reading once, with its stored attempts, and no other |
| MemoryStore.Memory.HasTags | internal/store/memory.go:854-868 | answers whether every wanted tag is there |
| MemoryStore.Memory.Search | internal/store/memory.go:296-356 | whatever the map's iteration order, returns the rows that pass status, tags and terms, after the cursor, up to the limit: newest first by default, oldest first or by lower-cased title on request, by falling score first when there are terms |
| MemoryStore.Memory.CreatePlannedBatch | internal/store/memory.go:399-463 | succeeds exactly for a new batch of distinct, valid, unknown requests on readings that nothing planned, submitted or succeeded holds, and adds one planned item for each |
| MemoryStore.Memory.CheckRequests | internal/store/memory.go:411-433 | passes exactly the distinct, valid, unknown requests whose readings are free |
| MemoryStore.Memory.SubmitBatch | internal/store/memory.go:465-525 | a first submit succeeds exactly for a planned batch with counts that fit and a free remote id, and stamps the batch and all its items |
| MemoryStore.Memory.UpdateBatchState | internal/store/memory.go:527-600 | succeeds exactly for a move of the state machine, to applied only when no item is busy, and takes the busy items along when the batch is canceled or fails |
| MemoryStore.Memory.ListBatchItems | internal/store/memory.go:644-662 | lists exactly the batch's items in the order they were planned in |
| MemoryStore.Memory.WriteBatchItemResult | internal/store/memory.go:689-734 | a first result is accepted exactly when its state is a reported one, the item is submitted and the result valid, and then state, result and error of that item are those reported; no other item changes |
| MemoryStore.Memory.MarkBatchItemApplied | internal/store/memory.go:736-765 | succeeds exactly on a succeeded or applied item, and applies the former |
| BatchMeaning.CreateMeans | internal/store/memory.go:411-463 | when a batch can be planned, and what each batch and item is afterwards |
| BatchMeaning.SubmitMeans | internal/store/memory.go:484-525 | when a first submit succeeds, and what each batch and item is afterwards |
| BatchMeaning.MoveMeans | internal/store/memory.go:536-600 | when a state update succeeds, and what each batch and item is afterwards |
| BatchMeaning.ApplyAfterWrite | internal/store/memory.go:722-757 | an item whose first result was just accepted can be marked applied exactly when that result is a success |
| BatchInvariant.CallKeeps | internal/store/memory.go:400-765 | each call keeps index agreement, one active item per reading, unique remote ids, and states and timestamps coupled |
| BatchInvariant.RunKeeps | internal/store/memory.go:400-765 | so does every sequence of calls |
| BatchInvariant.SubmitExact | internal/store/memory.go:484-503 | a first submit succeeds exactly when the batch is planned, counts fit and the remote id is free |
| BatchRuns.FailuresLeaveNoTrace | internal/store/memory.go:400-765 | a run of calls ends in the same store as its successful calls alone |
| BatchRuns.SubmitRepeatsExact | internal/store/memory.go:478-483 | repeating a successful submit after any further calls changes nothing and succeeds exactly while URL and counts are those submitted |
| BatchRuns.WriteRepeatsExact | internal/store/memory.go:705-720 | writing a recorded result again after any further calls changes nothing and succeeds exactly when the item is still in the reported state and the result decodes |
| BatchRuns.WriteRepeatFails | internal/store/postgres.go:876-891 | a valid document that does not decode is stored once and then refused for ever |
| BatchRuns.ApplyRepeatsAlways | internal/store/memory.go:749-754 | repeating an apply mark after any further calls succeeds and changes nothing |
| BatchRuns.CallClimbs | internal/store/memory.go:938-978 | identities and recorded results are fixed, ranks only rise, inactive items are frozen, lists stay |
| BatchRuns.ItemRun | internal/store/memory.go:962-978 | over any run an item's state changes at most three times, and never once inactive |
| BatchRuns.BatchRun | internal/store/memory.go:938-949 | so a batch's, which never leaves applied, canceled or failed, nor changes its list |
| BatchRuns.EndedStaysEnded | internal/store/memory.go:583-598 | a batch that ended never again has an active item |
| BatchRuns.CreatePlans | internal/store/memory.go:435-462 | a new batch holds exactly the requested items in the requested order |
| BatchRuns.EndingFreesReadings | internal/store/memory.go:951-969 | canceling or failing a batch frees the readings it held |
| BatchRuns.ApplyBatchExact | internal/store/memory.go:545-553 | a batch becomes applied exactly when its results are ready and all its items rest |
| Lexical.CompareChains | internal/store/memory.go:831-852 | the string order is transitive |
| Lexical.CompareBelow | internal/store/memory.go:831-852 | it is the order of a dictionary: decided where two strings first differ, or one ends |
| PageOrder.SearchMeans | internal/store/memory.go:296-356 | the page of the listing shows exactly the rows due, in the order asked for, and its cursor names its last reading |
| PageOrder.ScoreAdds | internal/store/memory.go:302-326 | a score counts each term once and adds up |
| Keyset.CursorAgrees | internal/store/memory.go:804-829 | the cursor test on a row agrees with the sort comparator, in all modes, ranked or not |
| Keyset.OrderChains | internal/store/memory.go:772-789 | the comparator is transitive in all modes |
| Keyset.OrderFlips | internal/store/memory.go:831-852 | it flips with its arguments, and ties only rows of one id |
| Listings.SortLists | internal/store/memory.go:302-326 | sorting the gathered matches lists every matching row once, in order |
| Listings.ListingUnique | internal/store/memory.go:772-789 | there is only one such list |
| Walks.FixedWalk | internal/store/memory.go:791-802 | pages cut from one sorted list by agreeing cursors give the list back |
| Walks.StableReturned | internal/store/memory.go:791-802 | pages cut from changing lists give every entry whose key is in each of them |
| Pagination.FixedStore | internal/store/memory.go:325-355 | on a fixed store a completed walk returns exactly the listing, in ceil(total/limit) pages, one if empty |
| Pagination.FixedUnfinished | internal/store/memory.go:325-355 | on a fixed store n pages of which the last has a cursor leave more than n times the limit in the listing |
| Pagination.KeysAdvance | internal/store/memory.go:772-852 | returned keys strictly advance, whatever happens to the store between pages |
| Pagination.StableOnce | internal/store/memory.go:296-356 | a completed walk over a changing store returns each stable reading exactly once |
| Scan.ScanReadings | internal/readerctl/readerctl.go:548-568 | follows the cursor to the last page and answers exactly the first occurrence of every id, in order, or fails with its search |
| Scan.ScanIsWalk | internal/readerctl/readerctl.go:548-568 | answered from the store as it is by then, its pages are a walk |
| Scan.ScanComplete | internal/readerctl/readerctl.go:548-568 | it holds every reading that was there throughout exactly once, whatever else was written |
| Scan.FixedScan | internal/readerctl/readerctl.go:548-568 | on a store that stands still, with a call for each hundred readings and at least one, it ends and returns exactly the sorted list |
| Scan.ListingIsNewestFirst | internal/readerctl/readerctl.go:548-568 | that list is every reading, newest first |
| Vectors.LatestGenerationWins | internal/vector/vector.go:80-100 | the stored vector is the last upsert of the highest generation, however stale ones interleave, and its generation never falls |
| Vectors.UnfencedRestarts | internal/vector/vector.go:46-53 | an upsert without a generation lands on whatever is stored, and what later upserts leave does not depend on anything before it |
| Vectors.CauchySchwarz | internal/vector/vector.go:164-171 | the accumulated dot product squared is at most the product of the norms |
| Vectors.CosineBounded | internal/vector/vector.go:162-176 | every score lies in [-1, 1], and a zero vector scores 0 |
| Vectors.CosineSelf | internal/vector/vector.go:162-176 | a vector with a direction scores 1 with itself |
| Vectors.DotRaises | internal/vector/vector.go:164-171 | raising one coordinate by t raises the product by t times the other vector there, for every coordinate |
| Vectors.DotSymmetric | internal/vector/vector.go:164-171 | the product is symmetric |
| Vectors.CosineScores | internal/vector/vector.go:162-176 | the score times the two lengths is the product, and 0 where a vector is zero |
| Vectors.CosineOpposite | internal/vector/vector.go:162-176 | opposite vectors score -1 |
| Vectors.CosineApart | internal/vector/vector.go:162-176 | vectors that share no coordinate score 0 |
| VectorIndex.SortRanks | internal/vector/vector.go:137-142 | sorted candidates are ranked by score, then id |
| VectorIndex.Index.Upsert | internal/vector/vector.go:80-100 | refines the fenced write, with its dimension check |
| VectorIndex.Index.Similarity | internal/vector/vector.go:162-176 | the accumulation loop computes the cosine: times the two lengths it is the inner product |
| VectorIndex.Index.Query | internal/vector/vector.go:112-147 | reports exactly the best min(topK, candidates) without the excluded id, each with its cosine, no left-out one ranking before a reported one |
| BatchResults.ParseBatchResults | internal/summarize/anthropic_batch.go:201-276 | succeeds exactly when the lines carry each expected id once and no other, results in expected order, each with the summary or the error of its line; an error names something that is wrong |
| BatchResults.CheckExpected | internal/summarize/anthropic_batch.go:204-215 | refuses exactly empty and duplicate expected ids |
| BatchResults.ReadLines | internal/summarize/anthropic_batch.go:217-262 | refuses exactly undecodable, unknown, duplicate and payload-less lines |
| BatchResults.OrderIrrelevant | internal/summarize/anthropic_batch.go:217-275 | the results do not depend on the order of the lines |
| BatchResults.NothingLost | internal/summarize/anthropic_batch.go:217-275 | there are as many results as result lines |
| Readings.StaleMeans | internal/reading/reading.go:71-95 | a pending row is stale exactly when creation and last change both lie more than a positive TTL back, a running one when its start does |
| ReadingOps.ResetIsShared | internal/readingops/service.go:252-268 | the reset of the commands is that of the joined system, column by column |
| ReadingOps.RestartedIsFresh | internal/readingops/service.go:180-202 | a reading just started over is not started over again within the pending TTL |
| ReadingOps.PutKeeps | internal/readingops/service.go:143-145 | storing a body under a fresh key of one reading leaves every referenced body |
| ReadingOps.DeleteKeeps | internal/readingops/service.go:227-232 | dropping an unreferenced key of one reading leaves every referenced body |
| ReadingOps.Service.MarkPending | internal/readingops/service.go:252-268 | resets the row, keeping a markdown body and title, or changes nothing |
| ReadingOps.Service.ForceReset | internal/readingops/service.go:194-202 | cancels the run it replaces, resets, and queues the new holder or leaves the id free |
| ReadingOps.Service.Reprocess | internal/readingops/service.go:180-210 | restarts and queues exactly readings that are finished, or pending or running for longer than their TTL; any other it answers as it is, and no row, claim or queue changes |
| ReadingOps.Service.IngestURL | internal/readingops/service.go:57-102 | answers, resets and queues, or creates and queues the one reading of the key, column by column; a refusal changes nothing |
| ReadingOps.Service.ImportNew | internal/readingops/service.go:122-159 | without a created row every row and every other blob stays |
| ReadingOps.Service.ReplaceFailed | internal/readingops/service.go:212-235 | a failure before the row is rewritten loses no referenced body; otherwise the row has the new body and is queued, and the old blobs go afterwards |
| ReadingOps.Service.ImportMarkdown | internal/readingops/service.go:104-159 | the whole command, with every call failing at will, keeps every key in a row naming a blob |
| Pipeline.ErrorDecides | internal/pipeline/pipeline.go:559-572 | a fetch that answers 429 is requeued after 30 s, any other 4xx fails, any other status but 2xx is retried; a run is done exactly when every call answers well |
| BlobKeys.RawIsNotContent | internal/pipeline/pipeline.go:575-588 | no run's content blob is a raw blob |
| Pipeline.Pipeline.Acquire | internal/pipeline/pipeline.go:274-370 | title, extracted columns and markdown are the source's, whose body is stored before the run goes on, under the run's own key or the stored one; the first error met is reported |
| Pipeline.Pipeline.IndexContent | internal/pipeline/pipeline.go:372-398 | the content blob is stored before any row names it |
| Pipeline.Pipeline.UpsertVector | internal/pipeline/pipeline.go:400-410 | the vector goes in at the generation of the run's lease |
| Pipeline.Pipeline.SummarizeAndFinish | internal/pipeline/pipeline.go:193-248 | done exactly when summary and both guarded writes succeed, and then content and tags of the row are this run's |
| Pipeline.Pipeline.Run | internal/pipeline/pipeline.go:117-191 | the result is that of the first error; a run without its lease changes no row and is not done; no run touches lifecycle columns or other rows |
| Pipeline.Pipeline.Process | internal/pipeline/pipeline.go:114-191 | answers the first error of the run as its kind asks for, changes nothing when a page is refused, and when it is done row, content blob and vector are those of source and summary; every key in a row names a blob |

## Left out

- The HTTP server, Postgres, R2, OpenAI, Anthropic and Resend adapters, readability, configuration, the React app: I/O or libraries; their answers are parameters.
- `internal/store/postgres.go`: its guarantees rest on SQL and migrations; only its JSON comparison helper is modelled, which the in-memory store shares.
- `URLKey`: it rests on `net/url`; a parameter here.
- Commands on one reading running at the same time: a command waits for the one before it on the same reading. Commands on other readings and all handlers interleave freely.
- A sweep while commands are being served: the API process ends its startup sweep before it serves (`internal/readerapi/runtime.go:191`), and the joined system starts that way.
- Deleting a reading in the joined system, and `dropOne`; the class `Memory` has `Delete`.
- ProtocolInvariant.RunningWriteByHolder: takes the context check of a store call and its write as one step. `Memory.UpdateStatus` reads `ctx.Err()` before it takes its lock (`internal/store/memory.go:95-100`), so a forced claim may fall between the two and the running write of the item it replaced may still land.
- JoinedProperties.StatusByHolder: rests on the same atomic step (`Protocol.CanStartOk`).
- JoinedProperties.ForceMutes: rests on the same atomic step, as do `StaleItemIsMute` and the lease part.
- Protocol: an inline dispatcher without `Delay` whose caller recovers the panic of a retry, as an HTTP server does, lives on with the id owned and nobody to carry it; the model ends the process instead.
- Two processes on one store: ownership is per process (`internal/dispatch/dispatcher.go:88-89`), and so is this model's.
- The number of workers: any number of threads may receive; the bound on them only removes runs.
- The exact moment the force mutex is freed: the model frees it when the callback is over, before the final queueing, which allows more runs than the code.
- The wrap-around of the uint64 token counter.
- The wall clock used when a time is zero: times are given.
- Diagnostics, timings and notifications, except that a notification may be followed by one more guarded write.
- How similar readings are hydrated into the snapshot: one answer of the run's world.
- Floating-point rounding: scores are reals, ranks are exact.
- The text of error messages, and `failureMessage`.
- Which of several errors `ParseBatchResults` reports when more than one thing is wrong: the contract says that there is an error and that it is true of the input.
- `ListBatches`, `GetBatch`, `GetBatchItemByCustomID`, `ImportBookmarks`, `SubmitBatch` through the remote client: a filter, two look-ups, a loop over `IngestURL`, I/O.
- Defensive clones: values are immutable here, so aliasing does not arise.
- ReadingOps.Service.ForceReset: takes the wait for the replaced run as over and lets nobody else write meanwhile; what that run and all others do during the wait is in the step relation (`System.DoForce` to `System.DoForceReset`).
- ReadingOps.Service: where the dispatcher runs items inline, the contracts of the commands describe the state before the run of the new item, which follows in the same call; its sections are `Start`, the pipeline and `Settle`.
- Scan.ScanReadings: a scan of a store that keeps growing behind the cursor need not end, so the method is given a number of calls.
- Sorting: `slices.SortFunc` is an insertion sort here; the sorted order is unique, so the choice does not show.
