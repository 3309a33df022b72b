# Vera Gateway: verified cores

Dafny models of the parts of Vera's Gateway and daemon that carry real guarantees, and proofs of those guarantees.
`dafny verify dfyconfig.toml` checks everything.

- **Memory writes.** `MemoryWriteQueue` is the per-Agent FIFO with its exclusive sections, as a step relation over
  promise reactions; `MemoryWriteQueueObject` is the object with its mutable bookkeeping, tied to those steps.
  `MemoryRecords` and `MemoryBatch` are conditional operations on the vault and the multi-Agent batch with
  before-images, durable markers and reverse rollback, every I/O call free to fail, before or after its effect.
  `DreamPlan` and `DreamOperations` validate Dream proposals and turn them into operations, `DreamOutcome` says what
  becomes of the memories; `MemoryDream` and `MemoryDreamJob` carry such a plan through crashes, restarts and retries
  with receipts; `MemoryCrashes` takes an attempt apart into single I/O calls.
- **Recall.** `RecallGraph` expands the link graph under a cap, `RecallOrder` clusters, `RecallRank` re-ranks,
  `RecallPage` packs under a token budget, `RecallInjection` packs and writes the block that goes into a prompt,
  `RecallSessions` keeps the generation-scoped sessions and their cursors. Scores and similarities are given reals.
- **Memory documents.** `Lines`, `MemoryText`, `MemoryJson`, `MemoryFormat` and `MemoryDocument` are the printer and the
  parser, JSON values on one line included (`MemoryFlow`). `MemoryAccepts` and `MemoryGrammar` define apart from them
  what a document may look like and hold, and prove that exactly that is accepted; `MemoryJsonText` and
  `MemoryJsonGrammar` do so for JSON (RFC 8259).
  `MemoryLines`, `MemoryRoundTrip`, `MemoryFront`, `MemorySplit`, `MemoryPrinted`, `MemoryUnprintable` and
  `MemoryCanonical` prove when a printed memory reads back as itself, for every valid memory, and `MemoryReadBack` what
  that means for a Dream job that comes back to its own writes.
- **Events.** `EventHub` is the ring buffer with replay, reset and the restart jump; `EventStream` a daemon that
  reconnects to its channel with its last event id (section 9.2 of the HTML Living Standard); `EventFraming` the text
  frames and the incremental decoder.
- **Digests and updates.** `DigestRange` cuts messages into chunks. `DigestJobs` are the jobs over the log as a step
  relation, `DigestRules` what callers have to keep to and what can still come of the jobs under way, `DigestOnce`,
  `DigestTimely` and `DigestTiling` when messages are digested twice or not at all, `DigestService` the object that keeps
  the jobs. `GatewayUpdate` swaps releases and rolls them and the data back.

Where the code does less than its documentation suggests, the model follows the code, the exact condition is proved, and
a lemma shows the failure:

- A batch rollback misses an operation whose change reached the directory before its call failed (`RollbackExact`,
  `RollbackCanLeak`; in a run of single calls `RolledBackExact`, `LateWriteLeaks`).
- A Dream job that succeeds has everything reflected exactly when the receipts it started from were true; an interrupted
  rollback makes one untrue (`DreamJob.Run`, `InterruptedRollbackLosesWork`; in a run `InterruptedRollbackSucceeds`).
- A Dream merge with an archived member called `merge` gives two operations one id (`AcceptedIsPlan`,
  `NamedMergeReceipt`); space ids with colons make source keys collide (`DedupLossless`, `ColonKeysClash`).
- A printed memory reads back as itself exactly when its type is no number and not `null`, its source ids are plain
  atoms, and its body has no CRLF and does not end in CR (`RoundTrip`, `TrailingReturnIsLost`).
- A restart resets every old client exactly when the watermark is positive and lags by less than the buffer
  (`WatermarkLag`, `LaggingWatermarkLosesEvents`); a CRLF cut in two hides an event (`ReceivedExact`,
  `CrlfCutHidesEvent`).
- An injected block can exceed its token budget, since the line breaks between memories are not priced: exactly when
  they do not fit into the bytes left over (`BlockWithinLimit`, `OverBudget`).
- A digest can take messages twice, exactly when a retry, a range of the caller's, a completion or a restart lets two
  jobs that are digested or still can be take the same one (`OnceMeans`; a run that does, `OldRetryOverlaps`). Proposals
  that are stored with a job stay with it, so its later attempts take what the first one read, and no more.
- Messages can be skipped, exactly when a completion, a retry or a range of the caller's is not timely (`TimelyMeans`,
  `LateIsSkipped`): a message that completes in the range of a retried job with stored proposals is above the watermark
  and is skipped all the same (`StoredProposalsSkip`). It stays so until a job takes it after all (`LostExact`).
- A Dream write is found again by a later attempt exactly when its type and its content survive the document
  (`WrittenReadBack`).
- Cutting messages wastes a chunk exactly when a chunk of empty messages follows one that is exactly full
  (`GreedyOptimal`, `EmptyMessageCostsChunk`).

## Model

| member | source | states |
|---|---|---|
| MemoryWriteQueue.InvKept | src/memory/memory-write-queue.js:11-68 | every reaction, request and task end keeps all bookkeeping invariants: sections in order, gates in order, pending sets exact, tails exact, Agent order |
| MemoryWriteQueue.RunInv | src/memory/memory-write-queue.js:4-68 | the invariants hold at every point of every schedule from the empty queue |
| MemoryWriteQueue.MutualExclusion | src/memory/memory-write-queue.js:47-68 | in every reachable state, while an exclusive section runs no task runs and every other section is finished or still queued |
| MemoryWriteQueue.ExclusiveView | src/memory/memory-write-queue.js:47-62 | an exclusive section finds each task of the epochs closed so far settled and every later task still gated |
| MemoryWriteQueue.AgentFifo | src/memory/memory-write-queue.js:25-40 | one Agent's tasks run one at a time, in the order they were enqueued, whatever failed and whatever sections ran in between |
| MemoryWriteQueue.PendingMeansLive | src/memory/memory-write-queue.js:11-23 | an epoch is on record exactly while it has unsettled tasks, and its pending set is exactly those |
| MemoryWriteQueue.PendingKept | src/memory/memory-write-queue.js:11-23 | each step keeps the pending sets exact, so the cleanup of one epoch never drops a task of another |
| MemoryWriteQueue.LinkedKept | src/memory/memory-write-queue.js:28-32 | each step keeps a task past its gate chained, through its predecessor, behind every unfinished earlier task of its Agent |
| MemoryWriteQueue.TailsKept | src/memory/memory-write-queue.js:29-35 | each step keeps an Agent's tail its last task past the gate; without a tail all its tasks past the gate are finished |
| MemoryWriteQueue.Progress | src/memory/memory-write-queue.js:25-62 | with no caller's task running and work left, some promise reaction can be taken |
| MemoryWriteQueue.WorkDecreases | src/memory/memory-write-queue.js:11-68 | every action other than a new request uses up work, so reactions cannot go on for ever |
| MemoryWriteQueueObject.WriteQueue.EnqueueTask | src/memory/memory-write-queue.js:25-40 | captures the gate and the epoch and tracks the new task: exactly the enqueue step of the relation |
| MemoryWriteQueueObject.WriteQueue.GateOpened | src/memory/memory-write-queue.js:28-32 | the gate's reaction chains the task behind the Agent's tail and makes it the tail |
| MemoryWriteQueueObject.WriteQueue.Cleanup | src/memory/memory-write-queue.js:18-22 | a settled task leaves its pending set, and an empty set leaves the record |
| MemoryWriteQueueObject.WriteQueue.TailSettled | src/memory/memory-write-queue.js:33-35 | only the Agent's current tail is forgotten |
| MemoryWriteQueueObject.WriteQueue.RequestExclusive | src/memory/memory-write-queue.js:64-68 | a section queues behind the ones requested before it |
| MemoryWriteQueueObject.WriteQueue.BeginExclusive | src/memory/memory-write-queue.js:47-52 | closes the current epoch and puts up a block for later tasks |
| MemoryWriteQueueObject.WriteQueue.Release | src/memory/memory-write-queue.js:57-62 | releases the block whether the section's task failed or not |
| MemoryRecords.NextTimestamp | src/memory/memory-operations.js:22-26 | an update's time is after the previous one and not before now, and no later than either demands |
| MemoryRecords.EffectIsOutcome | src/memory/memory-operations.js:71-140 | an operation goes through exactly when its slug is free or its version is met; then a created record is the draft's, active, both times now, and a revised one has every named field as named and every other as it was |
| MemoryRecords.OwnFields | src/memory/memory-operations.js:115-140 | asking for a record's own fields changes only the time of the update |
| MemoryRecords.EffectIsLocal | src/memory/memory-operations.js:71-140 | an operation that takes effect changes its own record, and only that |
| MemoryRecords.AppliesOnce | src/memory/memory-operations.js:71-80 | an operation conditioned on a version is refused once it, or another with the same condition, has gone through |
| MemoryBatch.UndoOneInverts | src/memory/memory-operations.js:196-202 | undoing an operation right after it gives back exactly the records it found |
| MemoryBatch.UndoAllInverts | src/memory/memory-operations.js:194-203 | rolling back in reverse restores the records, whatever the operations did to each other's slugs |
| MemoryBatch.UndoAllStray | src/memory/memory-operations.js:194-203 | a stray change to one record survives the rollback exactly when no undone operation was on that record |
| MemoryBatch.RollbackExact | src/memory/memory-operations.js:191-214 | after a complete rollback the vault is as before if and only if no late failure was left outside the applied operations |
| MemoryBatch.RollbackCanLeak | src/memory/memory-operations.js:81-86 | the other case does happen: a delete whose directory sync fails after the unlink |
| MemoryBatch.Vault.ApplyValidatedOperation | src/memory/memory-operations.js:71-140 | success, which takes an accepted operation and no failing call, creates, revises or deletes the record as the operation says and touches no other; it is refused, with the error that says why, when its demand is not met; a failure leaves the records as they were or, when late, with the effect |
| MemoryBatch.Vault.WriteMarker | src/memory/memory-index.js:23-33 | success means the Agent is marked; a failure may have marked it all the same |
| MemoryBatch.Vault.RemoveMarker | src/memory/memory-index.js:35-38 | success means the Agent is no longer marked; a failure may have removed the marker all the same |
| MemoryBatch.Vault.Prepare | src/memory/memory-operations.js:155-169 | every non-create operation gets a before-image, read from the vault and at the version it is conditioned on; without a failing call it stops exactly at a memory that is gone or has another version |
| MemoryBatch.Vault.ApplyAll | src/memory/memory-operations.js:178-186 | what went through, in order, replays from the records before to the records now, up to a late failure; without a failing call it stops only where the next operation is refused |
| MemoryBatch.Vault.Rollback | src/memory/memory-operations.js:195-209 | markers go only after every undo has gone through; it succeeds exactly when none of its calls fails, and then both are complete |
| MemoryBatch.Vault.FinalizeBatch | src/memory/memory-operations.js:234-243 | clears a marker left behind, tells whether there was one, and touches no record |
| MemoryBatch.Vault.ApplyBatchesHeld | src/memory/memory-operations.js:151-216 | success is all operations in sequence, each creating, revising or deleting its record as it says, with no Agent left marked, and without a failing call only a stale or refused operation prevents it; nothing is written before every Agent is marked; after a rollback, complete exactly when none of its calls fails, every record is as before up to a leaking late failure; if the rollback fails every marked Agent is restored or still marked |
| DreamPlan.IdentityCounted | src/memory/memory-dream-proposals.js:151-155 | counting distinct facts and distinct contents decides whether all members are one fact or say the same |
| DreamPlan.TakeMembers | src/memory/memory-dream-proposals.js:136-146 | accepts exactly members that are frozen, active, at the named version and not claimed before, and claims them |
| DreamPlan.CheckContents | src/memory/memory-dream-proposals.js:132-160 | accepts exactly members of one identity whose outgoing links and content the merged text keeps |
| DreamPlan.CheckMerge | src/memory/memory-dream-proposals.js:128-161 | accepts exactly the good merges that write nothing claimed before, and claims all they write |
| DreamPlan.Check | src/memory/memory-dream-proposals.js:88-162 | one proposal against the claimed set: accepted exactly when it is good and writes nothing claimed before |
| DreamPlan.Validate | src/memory/memory-dream-proposals.js:78-164 | accepts exactly at most 64 proposals that are each good and no two of which write the same memory |
| DreamOperations.MergeSourceRefs | src/memory/memory-proposals.js:261-269 | keeps the first source of every key, in order |
| DreamOperations.DedupUnion | src/memory/memory-proposals.js:261-269 | the merged sources have every key of the given ones once, and no other source |
| DreamOperations.DedupLossless | src/memory/memory-proposals.js:261-269 | no source is lost if and only if no two different ones share a key |
| DreamOperations.KeysExact | src/memory/memory-format.js:148-152 | without colons in space ids and actors two sources of any kind share a key exactly when they are the same, the time of a deletion aside |
| DreamOperations.DeletionsMerge | src/memory/memory-format.js:150 | two records of one deletion that differ in its time merge into the first |
| DreamOperations.ColonKeysClash | src/memory/memory-format.js:148-152 | with colons two different messages share a key and the merge keeps one of them |
| DreamOperations.PlanDreamOperations | src/memory/memory-dream-proposals.js:166-193 | each proposal's operations in order: a rewrite or archive, or a merge with the union of sources and one archive per other member in slug order |
| DreamOperations.OpsArePlan | src/memory/memory-dream-proposals.js:169-190 | one good proposal's operations are conditioned on frozen versions, on distinct slugs with distinct ids, unless it is a merge with a member named `merge` |
| DreamOperations.AcceptedIsPlan | src/memory/memory-dream-proposals.js:78-193 | accepted proposals become a plan that writes each frozen memory at most once, on its frozen version, by an operation with its own id, if and only if no merge archives a member named `merge` |
| DreamOperations.NamedMergeReceipt | src/memory/memory-dream-proposals.js:186-188 | in that case the merge's receipt passes for that of the archive |
| DreamOperations.MergeOutcome | src/memory/memory-dream-proposals.js:183-186 | a merge leaves its target active with the merged type, description and content, every source key of its members and every link that left the group |
| DreamOutcome.OperationWanted | src/memory/memory-dream-proposals.js:166-193 | each operation of an accepted proposal, carried out, gives its memory the fields the proposal gives, archives it, or merges it, and leaves all else as frozen |
| DreamOutcome.AcceptedOutcome | src/memory/memory-dream-proposals.js:166-193 | after a job that has done everything, every memory an accepted proposal writes is as the proposal wants it |
| DreamOutcome.NothingInvented | src/memory/memory-dream-proposals.js:110-160 | a rewritten memory says what it said; a merged one says what a member said, the members being duplicates, and keeps every link that leaves the group; a retired one leaves an active duplicate |
| DreamOutcome.OperationIds | src/memory/memory-dream-proposals.js:175-188 | operations are named after their proposal and what they do, and know whether it is a merge |
| MemoryDream.HalfReflected | src/memory/memory-dream-service.js:59-70 | a planned record that is no longer as frozen has its operation reflected |
| MemoryDream.ApplyHalf | src/memory/memory-dream-service.js:281-288 | on a record as frozen and not yet reached, the operation goes through and is then reflected |
| MemoryDream.ReflectedIsUninterrupted | src/memory/memory-dream-service.js:264-320 | with everything reflected, the vault is that of one uninterrupted run: each needed operation applied once, the others not at all |
| MemoryDream.UninterruptedAgree | src/memory/memory-dream-service.js:264-320 | two such vaults agree on every planned record up to the update time |
| MemoryDreamJob.DreamJob.Settle | src/memory/memory-dream-service.js:269-287 | whatever happened to the memory meanwhile: an item is receipted, on disk, when reached, needed when its version and status are as demanded, and otherwise refused |
| MemoryDreamJob.DreamJob.Plan | src/memory/memory-dream-service.js:264-287 | every item has a receipt, is reflected, or is picked, and what is picked is as frozen and has no receipt |
| MemoryDreamJob.DreamJob.ApplyEach | src/memory/memory-operations.js:178-186 | applies picked items in order with a receipt after each; receipts stay true and other records untouched |
| MemoryDreamJob.DreamJob.Rollback | src/memory/memory-dream-service.js:301-308 | gives the applied items their frozen records back; once the withdrawal is on disk every remaining receipt is true |
| MemoryDreamJob.DreamJob.ApplyBatch | src/memory/memory-dream-service.js:288-309 | success reflects all picked items; a failure whose rollback was not cut short leaves all but at most one late write as frozen, and makes no receipt untrue |
| MemoryDreamJob.DreamJob.Run | src/memory/memory-dream-service.js:212-332 | an attempt succeeds exactly when no call fails and nobody aborts it, and then every operation is reflected if and only if the receipts it trusted were true; otherwise it ends cancelled when aborted, failed when not, and under way only after a crash; true receipts stay true unless a rollback is interrupted, which takes a second failing call; only queued jobs run |
| MemoryDreamJob.DreamJob.Restart | src/memory/memory-dream-service.js:354-358 | after a crash the stored job is queued again if it was under way |
| MemoryDreamJob.DreamJob.Retry | src/memory/memory-dream-service.js:344-352 | only failed or cancelled jobs go back to the queue, with their receipts |
| MemoryDreamJob.DreamJob.Maintain | src/memory/memory-dream-service.js:212-358 | over any number of attempts, crashes, restarts and retries without an interrupted rollback, a succeeded job leaves the vault of one uninterrupted run |
| MemoryDreamJob.InterruptedRollbackLosesWork | src/memory/memory-operations.js:195-208 | undone but with its receipt still stored, an operation looks done to the next attempt |
| MemoryCrashes.RolledBackExact | src/memory/memory-operations.js:191-214 | in every run of single I/O calls, crashes included, a rollback carried through gives back the records the attempt began with, if and only if no late write leaks |
| MemoryCrashes.RunTidy | src/memory/memory-operations.js:174-209 | in every such run the marker stands while operations are written; a rollback carried through leaves no receipt of what it took back and no marker, and success no marker |
| MemoryCrashes.SucceedsReceipted | src/memory/memory-dream-service.js:264-310 | in every such run nothing is written that was already there when the attempt began or on a record the operation does not demand, and a job that has succeeded has a receipt for every operation |
| MemoryCrashes.LateWriteLeaks | src/memory/memory-operations.js:178-209 | from the start of an attempt, a run in which the rollback goes through and a record stays changed |
| MemoryCrashes.InterruptedRollbackSucceeds | src/memory/memory-dream-service.js:264-309 | from the first attempt, a run over a crash after which the job succeeds with its operation undone |
| RecallGraph.BuildAdjacency | src/memory/memory-retrieval-ranking.js:70-78 | two known memories are joined exactly when one links the other, each way with the strongest weight that calls for; no loops |
| RecallGraph.FollowEdge | src/memory/memory-retrieval-ranking.js:98-109 | a neighbour is recorded with the better path and queued, already on the path, or refused by the cap |
| RecallGraph.SearchSeed | src/memory/memory-retrieval-ranking.js:89-110 | the queue loop ends, and the seed's evidence is exact for the admitted set: simple paths within the hop limit, the best of all of them |
| RecallGraph.ExactKept | src/memory/memory-retrieval-ranking.js:83-103 | admitting more for later seeds keeps earlier directions exact, since a memory refused once is refused for ever |
| RecallGraph.ExpandGraph | src/memory/memory-retrieval-ranking.js:80-111 | at most maxCandidates are admitted, and every processed seed's direction is exact inside the final admitted set; below the cap every seed is processed and every path from it admitted |
| RecallGraph.ExactUnique | src/memory/memory-retrieval-ranking.js:89-110 | exact directions agree on whom they reach, how strongly and in how many hops |
| RecallGraph.ExactReach | src/memory/memory-retrieval-ranking.js:89-110 | a memory is in a direction exactly when a path inside the admitted set leads there |
| RecallOrder.OrderByScore | src/memory/memory-retrieval-ranking.js:132 | a permutation, strictly ordered by score and then slug |
| RecallOrder.FitOrder | src/memory/memory-retrieval-ranking.js:138-139 | a representative is the one that fits best, then scores best, then costs least, then comes first by slug |
| RecallOrder.FormClusters | src/memory/memory-retrieval-ranking.js:131-136 | every candidate is in one cluster, resembles its leader, and resembles no leader before it; leaders and members stand in score order |
| RecallOrder.ClusteringUnique | src/memory/memory-retrieval-ranking.js:130-136 | leaders and members in score order, each leader the best of its cluster: that determines the clustering |
| RecallOrder.MergeEvidence | src/memory/memory-retrieval-ranking.js:140-144 | the union of the members' directions, each with the best of their entries |
| RecallOrder.ChooseRepresentative | src/memory/memory-retrieval-ranking.js:138-139 | a member no other is preferred to by type fit, score, cost and slug |
| RecallOrder.Deduplicate | src/memory/memory-retrieval-ranking.js:130-150 | the merged slugs of the results partition the candidates' slugs, leaders stand apart, each result sums up its whole cluster |
| RecallOrder.ClustersApart | src/memory/memory-retrieval-ranking.js:133-136 | no slug is in two clusters |
| RecallRank.PickWinner | src/memory/memory-retrieval-ranking.js:169-178 | the next place goes to the candidate preferred to all that remain, penalties taken from running token counts |
| RecallRank.Rerank | src/memory/memory-retrieval-ranking.js:159-185 | a permutation in which every place is the greedy maximum after its prefix, counting tokens from scratch |
| RecallRank.GreedyUnique | src/memory/memory-retrieval-ranking.js:165-183 | the greedy order is unique |
| RecallRank.ChoiceOrder | src/memory/memory-retrieval-ranking.js:165-167 | the next place goes by marginal score, then base score, relevance, proximity, least cost, slug |
| RecallRank.MarginalBetween | src/memory/memory-retrieval-ranking.js:152-157 | the marginal score lies between the base score and the base score less both caps; it is the base score for what resembles nothing ordered and keeps its group within its target, and a duplicate loses the whole cap |
| RecallRank.MarginalAntitone | src/memory/memory-retrieval-ranking.js:171-175 | of two alike, the one closer to what is ordered, or in a group that has used more or is allowed less, scores no better |
| RecallRank.CloserLater | src/memory/memory-retrieval-ranking.js:168-183 | and is never placed first unless the scores are the same and its slug is first |
| RecallRank.TargetShares | src/memory/memory-retrieval-ranking.js:161-162 | the targets are shares of one, three to one for a group of its own |
| RecallRank.NearDuplicateFalls | src/memory/memory-retrieval-ranking.js:12-20 | with the shipped settings a memory with similarity 0.9 to the best one falls from 0.70 to 0.544291, behind a lesser one |
| RecallRank.FullGroupYields | src/memory/memory-retrieval-ranking.js:12-20 | with the shipped settings a second memory of a full group falls by the cap, behind a lesser one |
| RecallPage.EstimateConcat | src/memory/memory-retrieval-text.js:142-144 | the token estimate is subadditive and monotone |
| RecallPage.CompactCheaper | src/memory/memory-retrieval-text.js:115-119 | a compact line never costs more than the standard one |
| RecallPage.SampleLines | src/memory/memory-retrieval-text.js:115-119 | what a line shows at either level, with a body, without one, and with one that repeats the description |
| RecallPage.PackPage | src/memory/memory-retrieval-ranking.js:187-199 | page plus remainder is the whole ranking, each entry at the fullest level that fits, and the first left out fits at neither |
| RecallPage.PageUnique | src/memory/memory-retrieval-ranking.js:187-199 | that determines the page |
| RecallPage.PricedWithinUsed | src/memory/memory-retrieval-ranking.js:245-246 | the strings the packing prices, header, lines and hint, together estimate to no more than the tokens reported |
| RecallPage.RankedPage | src/memory/memory-retrieval-ranking.js:245-246 | what is reported is within the budget, header, lines and, only when something is left out, the hint; the priced strings are within the report |
| RecallInjection.Inject | src/memory/memory-retrieval.js:159-182 | packs what the fixed lines leave and writes the block; its estimate, reported as used, is within the limit exactly under the byte condition |
| RecallInjection.BlockWithinLimit | src/memory/memory-retrieval.js:171-178 | the block keeps the limit if and only if the unpriced line breaks fit into the bytes the estimates round up and the tokens left over |
| RecallInjection.OverBudget | src/memory/memory-retrieval.js:90-102 | whatever the fixed lines are, three memories that fill the budget to the byte with a fourth left out exceed it |
| RecallInjection.JoinBytes | src/memory/memory-retrieval.js:178 | joined lines have their own bytes and one more between any two |
| RecallSessions.OneActive | src/memory/memory-retrieval-state.js:57-95 | per Agent session at most one record is active and it has the highest generation; each generation has at most one record |
| RecallSessions.RecallState.FindSession | src/memory/memory-retrieval-state.js:49-56 | succeeds exactly for an active record of that generation |
| RecallSessions.RecallState.EnsureSession | src/memory/memory-retrieval-state.js:62-85 | returns the active record or opens one and freezes its siblings; refuses frozen and stale generations without change |
| RecallSessions.RecallState.ResetSession | src/memory/memory-retrieval-state.js:86-95 | freezes exactly the record of this generation |
| RecallSessions.RecallState.SaveCursor | src/memory/memory-retrieval-state.js:96-108 | stores exactly the retained cursors, the saved one last |
| RecallSessions.SaveRetains | src/memory/memory-retrieval-state.js:103-105 | cursors span at most 16 retrievals; saving drops nothing while there is room, and otherwise only the retrieval that started first |
| RecallSessions.RecallState.AddDelivered | src/memory/memory-retrieval-state.js:136-140 | what is delivered becomes what the caller knew of and what it adds, each once; what it did not know of is gone |
| RecallSessions.RecallState.Serve | src/memory/memory-retrieval-state.js:57-140 | over any requests records keep their identity and a frozen generation is never active again |
| MemoryText.TrimTrimmed | src/memory/memory-format.js:20 | trimming is idempotent and leaves trimmed text alone |
| MemoryText.UnescapeEscape | src/memory/memory-format.js:103-106 | every string comes back from its JSON form |
| Lines.SplitJoin | src/memory/memory-format.js:207-212 | splitting undoes joining of single lines |
| Lines.SeenOf | src/memory/memory-format.js:212 | of a printed value the parser sees all or strictly less, and all exactly when it is one line not ending in CR |
| MemoryFormat.AtomExact | src/memory/memory-format.js:19-35 | a bare single-line value parses to itself if and only if it is an atom |
| MemoryFormat.ScalarShrinks | src/memory/memory-format.js:19-35 | a scalar never parses to a longer text, and a quoted one to a shorter |
| MemoryJson.JsonRoundTrip | src/memory/memory-format.js:31-33 | a printed JSON value, nested to any depth, reads back as what it means |
| MemoryJsonText.NumberReads | src/memory/memory-format.js:31-33 | every number of section 6 of RFC 8259 is taken as one, up to its end |
| MemoryJsonText.NumberFound | src/memory/memory-format.js:31-33 | and whatever is taken as one is one |
| MemoryJsonGrammar.JsonMeans | src/memory/memory-format.js:31-33 | a text parses as a JSON value if and only if the grammar of RFC 8259 has it as a text of that value, white space anywhere it may be |
| MemoryJsonGrammar.UnescapeMeans | src/memory/memory-format.js:26-28 | a double quoted scalar holds a text if and only if its characters or escapes stand for that text |
| MemoryFormat.ListItems | src/memory/memory-format.js:66-86 | the list loop computes the list items the line-by-line definition gives, errors included |
| MemoryFormat.MapEntries | src/memory/memory-format.js:87-98 | the map loop computes the entries the definition gives, refusing duplicates |
| MemoryFormat.GatherChildren | src/memory/memory-format.js:59-64 | the indented non-blank lines under a key, and where they end |
| MemoryFormat.ParseFrontmatterLines | src/memory/memory-format.js:43-101 | the index walk computes the fields the recursive definition gives |
| MemoryLines.ChildParses | src/memory/memory-format.js:88-96 | an indented `key: value` line gives that key with the value's scalar, whatever the value |
| MemoryLines.ScalarLine | src/memory/memory-format.js:49-58 | a top-level `key: value` line adds that field and goes on |
| MemoryLines.ClosedBlock | src/memory/memory-format.js:59-98 | a key alone on its line takes exactly the indented lines below it |
| MemoryRoundTrip.SourcesParse | src/memory/memory-format.js:185-198 | printed sources with atom ids read back as the same list items, whatever follows |
| MemoryRoundTrip.SourcesRead | src/memory/memory-format.js:117-146 | those items validate to the same sources |
| MemoryRoundTrip.StainsParse | src/memory/memory-format.js:200-205 | printed stains read back as the same entries |
| MemoryFlow.FlowSources | src/memory/memory-format.js:31-33 | sources written as one-line JSON read back whatever their ids are |
| MemoryFlow.FlowStains | src/memory/memory-format.js:31-33 | stains written as one-line JSON, in any order, read back |
| MemoryFlow.FlowScope | src/memory/memory-format.js:31-33 | and so does the scope |
| MemoryDocument.SerializeFrontmatter | src/memory/memory-format.js:183-208 | the pushed lines are the front matter, stains in order |
| MemoryDocument.SerializeMemoryDocument | src/memory/memory-format.js:249-251 | the document of the memory |
| MemoryDocument.ParseMemoryDocument | src/memory/memory-format.js:219-247 | split, parse, legacy or current shape, and validation, refusals included |
| MemoryAccepts.TokenIsChain | src/memory/memory-format.js:12 | a type is a chain of lower-case words joined by single hyphens or underscores |
| MemoryAccepts.ValidMeans | src/memory/memory-format.js:109-173 | what a memory must meet, each part spelled out anew: the type, one line of description, owners and colours, instants in order, and for every source what its kind demands |
| MemoryAccepts.Accepted | src/memory/memory-format.js:219-247 | parsed fields and a body are accepted as a memory if and only if they are the fields of that memory, all of them and no others, in the current or the legacy shape, and it is valid |
| MemoryAccepts.IntegerReads | src/memory/memory-format.js:24 | every integer in decimal reads as that integer |
| MemoryAccepts.SingleQuotedReads | src/memory/memory-format.js:25-29 | any text in single quotes, its quotes doubled, reads as that text |
| MemoryGrammar.MapMeans | src/memory/memory-format.js:87-98 | nested lines make a map if and only if each is a pair cut at its first colon and no key comes twice |
| MemoryGrammar.NestedMeans | src/memory/memory-format.js:59-98 | what is nested under a key: nothing, a map, or items that each open with a dash and go on as maps do |
| MemoryGrammar.FrontMeans | src/memory/memory-format.js:43-101 | lines parse to fields if and only if, blank lines aside, they are sections with a key at the margin, all keys different, that give those fields |
| MemoryGrammar.SplitMeans | src/memory/memory-format.js:210-217 | the front matter lies between the first two lines of dashes, and the body is the rest less one line break at either end |
| MemoryGrammar.DocumentMeans | src/memory/memory-format.js:210-247 | a document is accepted as a memory if and only if the grammar makes it say that memory and the memory is valid |
| Texts.EnumerationUnique | src/memory/memory-format.js:200 | the sorted order of the stains is determined by their owners |
| MemoryFront.TypeReads | src/memory/memory-format.js:19-35 | a valid type reads back as text exactly when it is no number and not `null` |
| MemoryFront.StainsParses | src/memory/memory-format.js:200-205 | the stains field reads back, empty or not |
| MemorySplit.SplitPrinted | src/memory/memory-format.js:210-217 | a printed document falls apart where it was put together, whatever the body holds |
| MemorySplit.BodyExact | src/memory/memory-format.js:216 | the body comes back exactly when it and its junction with the final line break have no CRLF |
| MemoryPrinted.FrontParses | src/memory/memory-format.js:43-101 | the printed front matter reads back as the fields that were printed, the type as its scalar |
| MemoryPrinted.ParsePrinted | src/memory/memory-format.js:219-251 | what parsing a printed memory with atom ids gives: the memory with the body as seen, or a refusal when the type is a number or `null` |
| MemoryUnprintable.BadFields | src/memory/memory-format.js:66-86 | if the front matter parses at all, the item of a source with a bad id holds what is left of that line |
| MemoryUnprintable.UnplainLost | src/memory/memory-format.js:185-198 | a memory with an id that is no atom, line breaks included, never reads back as itself |
| MemoryCanonical.RoundTrip | src/memory/memory-format.js:183-251 | a valid memory survives printing and parsing if and only if it is representable |
| MemoryCanonical.DocumentIdentifies | src/memory/memory-format.js:175-181 | representable memories have the same document exactly when they are the same, so the hash of the document identifies the memory |
| MemoryCanonical.ReadBack | src/memory/memory-format.js:219-247 | whatever is parsed, legacy documents included, is valid, and survives being written anew exactly if representable |
| MemoryCanonical.Rewrite | src/memory/memory-format.js:219-251 | a representable memory is written, read back and written again as the same text |
| MemoryCanonical.TrailingReturnIsLost | src/memory/memory-format.js:212-216 | a body that is a lone CR has no CRLF and is lost all the same |
| MemoryReadBack.WrittenReadBack | src/memory/memory-dream-service.js:59-70 | an operation's own write, read back from its document, is found reached exactly when its type and its content survive |
| EventHub.GapExact | src/api/sse.js:37-46 | there is no gap exactly when the hub is not behind the client and still buffers every event after `since` |
| EventHub.Hub.Publish | src/api/sse.js:18-27 | the next number, the buffer the newest events, the frame written once to every subscriber |
| EventHub.Hub.DetectGap | src/api/sse.js:40-46 | computes the gap from the number and the oldest buffered event |
| EventHub.Hub.ReplaySince | src/api/sse.js:48-50 | without a gap, every event after `since`, in order |
| EventHub.Hub.Subscribe | src/api/sse.js:54-65 | first a reset or the complete replay, then live |
| EventHub.Hub.Unsubscribe | src/api/sse.js:64 | drops exactly that subscriber, so later events do not reach it |
| EventHub.RestartResets | src/api/sse.js:40-46 | every number of the old life is answered by a reset, ever after, if and only if the new life starts above them all |
| EventHub.WatermarkLag | src/server.js:90-98 | in terms of the watermark: exactly when it is positive and lags by less than the buffer |
| EventHub.LaggingWatermarkLosesEvents | src/server.js:90-98 | otherwise a client of the old life can be handed nothing although the new life has published |
| EventStream.InvKept | src/agents/daemon-runtime.js:98-120 | publishing, delivering, losing and connecting keep: handed over in order, resumable, and on the wire exactly what is missed or a reset |
| EventStream.ExactlyOnce | src/agents/daemon-client.js:288-313 | in every run what the client was handed since its last reset is the history from there on, each event once, in order |
| EventStream.FromTheFirstEvent | src/agents/daemon-runtime.js:115-119 | until its first reset the client is handed the history from its first event on, whatever was lost on the way |
| EventStream.OnlyResetsSkip | src/agents/daemon-client.js:244-257 | every event a client ever gets is the one published right after the frame before it, and every reset jumps ahead |
| EventStream.CaughtUp | src/agents/daemon-client.js:304-307 | nothing is missing once a connected client's wire is empty: without a reset it has the whole history |
| EventStream.ReconnectCatchesUp | src/agents/daemon-runtime.js:115-119 | connecting without a gap, the first time included, puts exactly the missed events on the wire |
| EventStream.ResetExactly | src/api/sse.js:54-62 | a connecting client gets a reset exactly when an event it misses has rolled out of the buffer |
| EventFraming.Decoder.Feed | src/agents/daemon-client.js:113-128 | one chunk yields exactly the frames it completes and keeps the rest |
| EventFraming.DataLine | src/agents/daemon-client.js:119-122 | the data lines of a frame, with one leading space gone and nothing else |
| EventFraming.Receive | src/agents/daemon-client.js:109-129 | a whole stream of frames and pings, cut anywhere, yields its envelopes in order |
| EventFraming.DecodeOn | src/agents/daemon-client.js:114-118 | decoding can stop anywhere and go on with what was left over |
| EventFraming.StreamDecodes | src/api/sse.js:14-16 | frames and ping comments decode to exactly the published events |
| EventFraming.ReceivedExact | src/agents/daemon-client.js:114 | the decoder sees the normalized body if and only if no chunk boundary cuts a CRLF |
| EventFraming.AnyChunking | src/agents/daemon-client.js:109-129 | however the stream is cut, exactly the published events come out, in order, with nothing left over |
| EventFraming.CutOff | src/agents/daemon-client.js:109-129 | a stream cut off anywhere yields a prefix of the published events |
| EventFraming.CrlfCutHidesEvent | src/agents/daemon-client.js:114-116 | a cut inside the last CRLF keeps an event from coming out |
| DigestRange.ChunkDigestMessages | src/memory/memory-digest-range.js:102-129 | the chunks join to the messages, each within the limit or a single message, none with room for the next and none taking anything once full; refused exactly for a limit below 1 |
| DigestRange.CutUnique | src/memory/memory-digest-range.js:120-128 | that determines the cut |
| DigestRange.GreedyAhead | src/memory/memory-digest-range.js:120-126 | unless the cut is wasteful, no partition has come further after any number of chunks, but for empty messages an exactly full chunk had room for |
| DigestRange.GreedyOptimal | src/memory/memory-digest-range.js:120-126 | no partition under the same rule has fewer chunks if and only if no chunk of empty messages follows an exactly full one |
| DigestRange.PositiveOptimal | src/memory/memory-digest-range.js:120-126 | so messages of positive size are cut into as few chunks as possible |
| DigestRange.EmptyMessageCostsChunk | src/memory/memory-digest-range.js:125 | an empty message after an exactly full chunk can cost one more |
| DigestTiling.OneUnderWay | src/memory/memory-digest-service.js:164-173 | in every run, retries and restarts included, at most one job of the scope is running or applying |
| DigestOnce.ApartExact | src/memory/memory-digest-service.js:108-143 | ranges of jobs that are digested or still can be stay apart after a step if and only if a retry, or an incremental range of the caller's, fits between them |
| DigestOnce.FreeMeans | src/memory/memory-digest-service.js:509-517 | that condition is exact: with it no outcome of the jobs under way makes two digested ranges meet, without it some outcome does; likewise for their order |
| DigestOnce.TakesExact | src/memory/memory-digest-service.js:383-449 | what these jobs take, stored proposals kept and everything else read anew, stays apart after any step if and only if the step lets no message be taken by two |
| DigestOnce.OnceMeans | src/memory/memory-digest-service.js:383-449 | and that is exact for messages: if and only if no outcome digests a message twice |
| DigestRules.Settle | src/memory/memory-digest-service.js:164-173 | whichever active jobs are to succeed, what is scheduled can run out that way, each with what it takes |
| DigestTimely.TimelyMeans | src/memory/memory-digest-service.js:423-449 | completions, retries and ranges are timely if and only if no outcome of the jobs under way leaves a completed message below the watermark undigested |
| DigestTiling.Tiling | src/memory/memory-digest-range.js:75-100 | in every run digested ranges are disjoint while retries fit and in order while they keep it, no message is digested twice while every step sees to it, and nothing below the watermark is missed while everything is timely |
| DigestTimely.LateIsSkipped | src/memory/memory-digest-range.js:82-90 | a message that completes is skipped at once if and only if it is below the watermark |
| DigestTimely.LostExact | src/memory/memory-digest-range.js:88-90 | a skipped message no active job takes stays so through every step but a retry or a restart after which a job does take it, or a range of the caller's that spans it |
| DigestTiling.OldRetryOverlaps | src/memory/memory-digest-service.js:509-517 | from the empty log a run that keeps all rules leads to a retry that digests a message a second time |
| DigestTiling.StoredProposalsSkip | src/memory/memory-digest-service.js:423-449 | from the empty log a run leads to a queued job whose stored proposals make it skip a message that completes in its range |
| DigestService.Watermark | src/memory/memory-digest-range.js:82-88 | the highest end of a succeeded incremental range |
| DigestService.Service.ResolveIncremental | src/memory/memory-digest-range.js:75-100 | from the first to the last completed message above the watermark and not beyond the requested end; nothing if and only if there is none |
| DigestService.Service.ResolveRange | src/memory/memory-digest-range.js:35-62 | a range of the caller's is accepted exactly when both ends are given, completed and in order; unknown ends are told apart |
| DigestService.Service.EnqueueIncremental | src/memory/memory-digest-service.js:108-162 | an incremental job over exactly that range, new and queued or found; nothing if and only if the range is empty; a conflict only while a job is active |
| DigestService.Service.EnqueueRange | src/memory/memory-digest-service.js:108-162 | one new queued job over the caller's range, incremental or not, or a refusal or a duplicate without change |
| DigestService.Service.BeginRun | src/memory/memory-digest-service.js:369-377 | a scheduled run gives up unless its job is queued; stored proposals stay with it |
| DigestService.Service.ReadRange | src/memory/memory-digest-service.js:384-435 | the range as it is now, given to the executor if and only if no proposals are stored |
| DigestService.Service.BeginWrites | src/memory/memory-digest-service.js:444-451 | proposals are stored, once, before the job is applying |
| DigestService.Service.EndRun | src/memory/memory-digest-service.js:483-506 | closing a run is the Finish step: the head of the queue takes its outcome and leaves |
| DigestService.Service.RetryJob | src/memory/memory-digest-service.js:509-517 | only failed and cancelled jobs go back to the queue, with the proposals they have |
| GatewayUpdate.Host.BackupData | scripts/gateway-update-runtime.js:244-260 | a cold copy of the stopped data under a new name; earlier backups stay |
| GatewayUpdate.Host.MoveDataToFailedPath | scripts/gateway-update-runtime.js:311-321 | data is set aside, never over data set aside before |
| GatewayUpdate.Host.Restore | scripts/gateway-update-runtime.js:323-335 | `rolled_back` is told only after the old release was switched to, the data displaced, the backup copied, the service started on both and answered; otherwise there is word of the failure |
| GatewayUpdate.Host.GoLive | scripts/gateway-update-runtime.js:427-438 | switch, start on the target, answer, note, news, in this order and each only after the one before; success means all of them |
| GatewayUpdate.Host.Update | scripts/gateway-update-runtime.js:401-457 | over all failures: after the cold backup every step forward in order, and at the first that fails, health included, the way back and never `succeeded`; `succeeded` means on the target with the data never swapped, `rolled_back` on the old release and the backed up data; backups and displaced data are never destroyed |
| GatewayUpdate.Host.RollBackCandidate | scripts/gateway-update-runtime.js:337-377 | a candidate is taken back to the release and the backup its note names, started and answering before it is told, or refused without change |
| GatewayUpdate.Host.TryCandidate | scripts/gateway-update-runtime.js:431-432 | a candidate tried and taken back leaves the old release running on the data it was stopped with |

## Left out

- Providers, routers, static serving, the frontend, setup, credentials and request security: plumbing, or branches checked one by one.
- File system, git, npm, systemctl and HTTP calls: one abstract step each, which goes through or fails; a process that dies in the middle of an update is not modelled.
- BM25, TF-IDF, tokenizing, link extraction, Unicode normalization and confidence values: scores, similarities and links are inputs, the rounding of a path's strength a parameter; the shipped settings are `RecallGraph.DefaultConfig`.
- Direction and fact ids: hashes are taken as injective, and evidence is kept by direction and then memory instead of the other way round.
- MemoryBatch.Vault.ApplyBatchesHeld: the batches are one list of operations, per-operation results are not returned, and an Agent whose marker was already removed when a commit and then its rollback fail is told apart by the log, not by a marker.
- MemoryBatch.UndoOneInverts: the before-image is restored as a record; that a file in another spelling comes back byte for byte is not claimed.
- MemoryDreamJob.DreamJob.Run: the plan is the one stored with the job; no outside edits, the executor and the notifications are steps that may fail, and a cancel accepted while running is only one more failure.
- MemoryFormat.ParseFrontmatterLines: lone surrogates are not scalar values, and `__proto__` keys behave like any other.
- MemoryJson.JsonRoundTrip: numbers are parsed but not printed; no document holds one inside a JSON value.
- MemoryDocument.ParseMemoryDocument: what `Date.parse` makes of a well-formed instant is a parameter, and refusals carry no message.
- EventHub.Hub.DetectGap: `since` is an integer.
- EventFraming.Decoder.Feed: chunks are decoded text, and the JSON of an envelope is any text without line breaks.
- DigestService.Service.EnqueueIncremental: one Agent, account and session; messages do not become visible or invisible later, a manual trigger without new messages gives nothing instead of an error, jobs of an older format without an account are left out, and so are what proposals say, their receipts and their writes.
- RecallInjection.Inject: texts are taken as normalized already, and usage and delivery records are left out.
- EventStream.ExactlyOnce: one authenticated session, which is one life of its channel's hub; a new login starts over.
- GatewayUpdate.Host.Update: release preparation and repository checks are steps that may fail, and a stop during a rollback is taken to work.
- RecallSessions.RecallState.Serve: usage signals and pins are plain upserts and left out.
- MemoryDocument.SerializeFrontmatter: names are sorted by code unit, where the code compares them by locale; the same goes for the members of a merge in DreamOperations.PlanDreamOperations. No result depends on it.
- An archive's replacement staying active, and distinct fact ids across ranked results: the code does not promise them.
