# Verification model of SuperCoder

A Dafny model of the parts of the repository whose correctness rests on interleavings, crashes and
searches, with proofs over every run, every input or every reachable state.

- **Streaming sync** (`SyncState`, `SyncMachine`): sessions, batch rows, outbox rows, batch content,
  the queue with redelivery and stale dispatchers, versioned trees and any number of deliveries, as
  a transition system of atomic actions. Rows, content and tasks go by the text of a batch's
  identifier, which different batches may share. Storage operations may fail before or after they
  took effect, and the stored tree may be deleted or replaced by the parts of the service that know
  no sessions. The invariants are built up in `BatchRows`, `MerkleCommits`, `Manifests`,
  `Finalization` and `WakeUp`; the theorems over runs are in `SyncTheorems`, `SyncRuns`,
  `Deliveries`, `Meanings`, `BatchIds`, `Convergence` and `WakeUpExact`; failing runs are in `LostWakeUp`,
  `CollidingIds`, `RepeatedDeletes` and `LostReplies`. `Backend`, `Consumers`, `Requests` and
  `Dispatcher` write the handlers, requests and repository operations imperatively over one store
  and prove that each is a sequence of allowed steps, whatever the rest of the service does between
  any two of them. `Digests`, `MerkleTree` and `HashSize` hold the tree and its root hash, `Ingest`
  the admission test.
- **Checkpoints** (`Rewind`, `Checkpoint`, `ParallelEdits`, `CallSteps`, `OverlappingBackups`,
  `FirstOverlap`, `LateCalls`, `Paths`, `LineDiff`): the undo log of file backups, with every file
  operation able to stop half way, the timelines it can rewind, and the calls of one response that
  back up and change files at once, and may do so after a rewind.
- **Upload client** (`Chunking`, `BatchText`, `Entries`, `Wire`, `UploadPool`): packing, batch
  identifiers, the wire format end to end, and the bounded pool of uploads with retries against the
  modelled service.
- **Text** (`Utf8`, `Frontmatter`): the UTF-8 cut and the frontmatter splitter.

`dafny verify dfyconfig.toml` checks everything.

## Properties the code does not have

Each is stated with a concrete failing input or run and with the condition under which the property
holds.

- Tool calls of one response run at once (`crates/agent/src/agent/loop_.rs:467-504`), and
  `backup_file` reads and replaces the manifest without a lock. Two writes can leave one file's
  content recorded for the other, or a manifest that cannot be read (`OverlapMisleads`,
  `OverlapTears`). Wherever the backups of two existing files that differ first overlap, some
  continuation misleads a rewind (`FirstOverlapMisleads`). While no two calls are between the read of
  the manifest and its replacement, and none backs up after its turn, both the crash invariant and
  the rewind hold (`ManifestsWhole`, `ParallelRewind`). `BackupFile`, `WriteManifestAtomic` and
  `EditFile` describe such a call.
- A rewind does not wait for the calls in flight: it cancels the run and sleeps 100 ms
  (`apps/desktop/src-tauri/src/agent_bridge/commands.rs:3010-3018`), or does neither
  (`commands.rs:3065-3068`), and the run looks at the token between responses only
  (`crates/agent/src/agent/loop_.rs:464`, `:643`). A single call can write its file after the restore,
  when its backup is gone, or make a pruned turn anew with a manifest that no restore can read
  (`LateWrite`, `LateBackup`). The restored files stand exactly when every call in flight is harmless
  to them, so when there is none (`RewindStands`); what late calls change counts as lost
  (`ShowsTimeline`), and `WaitingInTime` says when none is late.
- A directory's hash covers its children's hashes but not their names
  (`services/context-engine/services/impl/merkle_service_impl.go:181-197`), so the finalizer's
  equal-hash shortcut can mark a session done without committing a delta. It was unnecessary exactly
  when the delta adds and removes no path (`RenameIsSkipped`, `EqualHashFastPathExact`,
  `DoneIsCommittedExactly`). Files and directories share one digest, so even a directory replaced by
  a file can be lost (`FileForDirectory`); only renames are when no content spells digests
  (`LostDeltaRenames`).
- A batch identifier is the digest of lines that a path with a line break can imitate
  (`NewlineCollides`, `SameId`), and so can the hash that a delete claims and nobody checks, by a line
  break or a bar (`ClaimCollides`, `BarCollides`). Content stored under a shared identifier overwrites
  that of an admitted batch, and the finalizer then commits files the indexer never saw
  (`CollisionCommitsUnindexed`, `ClaimCommitsUnindexed`). While posted entries hold no line break in a
  path or claimed hash and no bar in a claimed hash, as when deletes claim none, identifiers are exact,
  and every committed file was indexed (`StatedExact`, `CleanCommitSafety`).
- Deleting an index and indexing without a session delete or save the tree of the same key with no
  version (`services/context-engine/services/impl/index_retrieval_service_impl.go:529-534`,
  `services/context-engine/services/impl/pipeline.go:257`, `:331`). A done session's commit is lost by
  it (`ReplaceLosesCommits`, `DeletedIndexAsksAgain`). The next diff is right about a path exactly when
  it treats it as in the diffed tree with the delta applied (`DoneConvergesExactly`), so where nobody
  else changed it (`DoneConvergesAt`).
- The comment above `TryEnqueue` says a failed trigger is retried by the next worker
  (`services/context-engine/consumers/finalizer_trigger.go:56-61`). When it was the last worker,
  nothing retries (`DroppedTriggerSticks`). A waiting session can still be finalized exactly when
  some work of it is left (`WakesExactly`); runs that drop nothing are safe (`NoLostWakeUp`).
- The explicit deletes of an incremental diff are stored with their repeats, and the closing count
  comparison then never agrees (`AllReceivedNotClosed`, `RepeatedDeleteNeverCloses`; exact condition
  in `ClosesExact`).
- A post of an admitted batch is not always answered as a duplicate: once the batch has closed the
  session, the retry after a lost reply is told that the session is gone, and the upload fails
  (`RetryAnswer`); a simultaneous second post of a batch with deletes is refused. The exact conditions
  are in `IngestBatch` and `RepeatedPost`.
- Upload totals count no file of a batch when the reply to its admission was lost: the retry finds a
  duplicate, or fails (`LostReply`, `Uncounted`; exact account in `TotalsAccount`).
- Backups are keyed by the spelling of a path and replayed forward, so a file edited under two names
  in one turn is not restored (`TwoNames`; exact condition in `RewindCorrect`). An ignored pruning
  error can do the same (`PartialPruneUndoes`, `PartialPruneExact`), and so can a failed listing of
  the turns, after which their numbers start again at 1 (`RestartLoses`, `RestartExact`). When a
  restore fails half way and its error is ignored, pruning destroys the only backup of a file that
  was not given back (`StoppedSticks`, `StoppedExact`).
- A frontmatter file with carriage returns is cut at a plain `---` line of its body if there is one,
  because the plain pattern is tried first on the whole text (`PlainRuleInCrlfFile`; exact condition
  in `PrintThenSplitCrlf`).

## Model

| member | source | states |
|---|---|---|
| `MerkleTree.RootHashExact` | services/context-engine/services/impl/merkle_service_impl.go:181-197 | Two trees with one root hash are equal exactly when they hold the same paths; a directory hash covers no names |
| `MerkleTree.RenameKeepsRootHash` | services/context-engine/services/impl/merkle_service_impl.go:181-197 | Counterexample: renaming the only file of a repository keeps the root hash |
| `MerkleTree.RenameIsSkipped` | services/context-engine/consumers/finalize_sync_consumer.go:184-201 | Counterexample: the rename of an only file is taken for no change |
| `MerkleTree.EqualHashFastPathExact` | services/context-engine/consumers/finalize_sync_consumer.go:186-201 | The write skipped on an equal root hash was unnecessary exactly when the delta adds and removes no path |
| `HashSize.LostDeltaRenames` | services/context-engine/consumers/finalize_sync_consumer.go:186-201 | When no file content is itself a row of printed digests, a delta wrongly skipped adds as many paths as it removes: only renames can be lost |
| `HashSize.FileForDirectory` | services/context-engine/services/impl/merkle_service_impl.go:181-197 | Counterexample: a file whose content is the printed digests of the two files of a directory replaces the directory without a change of the root hash |
| `HashSize.RootHashCounts` | services/context-engine/services/impl/merkle_service_impl.go:181-197 | With such plain contents the root hash covers exactly one digest for every file of a non-empty tree |
| `HashSize.EmptyRootHash` | services/context-engine/services/impl/merkle_service_impl.go:181-197 | Only the tree without files has its root hash |
| `MerkleTree.ShapeHolds` | services/context-engine/services/impl/merkle_service_impl.go:291-364 | Every leaf is a file of the directory tree rebuilt from the leaves |
| `MerkleTree.ApplyChangesIdempotent` | services/context-engine/services/merkle_service.go:47-72 | Applying one delta twice is applying it once |
| `MerkleTree.CommitShrinksDiff` | services/context-engine/services/impl/sync_session_diff_helpers.go:42-64 | Committing part of what a full diff asked for leaves exactly the rest to be asked for |
| `MerkleTree.DiffReaches` | services/context-engine/services/impl/sync_session_diff_helpers.go:42-80 | A full diff asks for nothing iff the tree is the client's; applying all it asks for makes it the client's |
| `MerkleCommits.CasPreserved` | services/context-engine/consumers/finalize_sync_consumer.go:157-225 | Every step of every party keeps the invariant of the compare-and-swap loops: a version token names one tree, an attempt follows a foreign change |
| `MerkleCommits.ReplaceExtends` | services/context-engine/services/impl/pipeline.go:329-333 | A tree put there without version or session, or none, is one more change of the history, and every token still names one tree |
| `MerkleCommits.SaveCommits` | services/context-engine/services/impl/merkle_service_impl.go:554-569 | A save that finds its version appends exactly its delta, applied to the current tree, to the history |
| `MerkleCommits.OtherPreserved` | services/context-engine/consumers/finalize_sync_consumer.go:203-209 | The commit of one delivery leaves what every other one in its loop relies on true |
| `SyncTheorems.CommitsLinearise` | services/context-engine/consumers/finalize_sync_consumer.go:165-225 | In every run the stored tree is the committed deltas applied in commit order, with the index deletions and the trees saved without a session where they fell |
| `SyncTheorems.ExhaustedByOthers` | services/context-engine/consumers/finalize_sync_consumer.go:227-237 | merkle_cas_exhausted is reached only after five mismatches, each a change of the tree since the loop began that is not its own (a commit of another delivery, a deletion of the index, a tree saved without a session) or a save the storage refused for a concurrent request |
| `Deliveries.FinalizerReturns` | services/context-engine/consumers/finalize_sync_consumer.go:64-250 | In every run, whatever the others do: a finalize delivery returns an error exactly when the last reply it heard is a storage failure, within thirteen operations and five misses. With no failure or permanent error, it has committed its delta or found the root hash unchanged and made the session done if it missed less than five times, and else failed it |
| `Deliveries.FinalizerRetries` | services/context-engine/consumers/finalize_sync_consumer.go:203-223 | With one to four misses and no failure the delivery commits and returns no error |
| `Deliveries.BatchReturns` | services/context-engine/consumers/stream_batch_consumer.go:92-305 | A batch delivery returns an error exactly on a failed read, or, unless it is the last delivery of its task, on a retryable error of the pipeline or a failed mark |
| `Deliveries.BatchOutcome` | services/context-engine/consumers/mark_batch_helpers.go:23-77 | A failed row carries, for every path, the reason some delivery found, true when it found it; a succeeded row has exactly the failures the pipeline told a delivery that found the session updatable |
| `Deliveries.LastDelivery` | services/context-engine/consumers/stream_batch_consumer.go:220-240 | A delivery of a task is its last one iff three have returned an error since the task came to the queue |
| `Deliveries.ErrorRequeues` | services/context-engine/services/impl/outbox_dispatcher_impl.go:268-279 | An error leaves the task in the queue unless the delivery was the last one; then it is archived |
| `SyncTheorems.CommitSafety` | services/context-engine/consumers/stream_batch_consumer.go:49-63 | When every identifier stands for one batch: in every run, whatever fails or is redelivered, each path of each commit was processed by the indexer with the committed hash in a batch marked succeeded |
| `BatchIds.UnsharedCommitSafety` | services/context-engine/services/impl/sync_session_service_ingest.go:145-153 | The same for every run in which no two different batches are stored or admitted under one key |
| `Ingest.CleanCommitSafety` | services/context-engine/services/impl/sync_session_service_ingest.go:103-153 | The same for every run whose posted entries hold no line break in a path or claimed hash and no bar in a claimed hash |
| `Ingest.StatedExact` | services/context-engine/services/impl/batch_id.go:29-37 | Checked entries as clean as that have one identifier iff they are the same up to order, and then they are one batch |
| `BatchIds.IdExact` | services/context-engine/services/impl/batch_id.go:29-37 | Batches without a line break in a path have one identifier iff they are equal |
| `BatchIds.ListedId` | services/context-engine/services/impl/batch_id.go:29-37 | The text computed of entries that list a batch is its identifier, whatever their order |
| `CollidingIds.SameId` | services/context-engine/services/impl/batch_id.go:29-37 | Counterexample: two batches of one session have one identifier, because a path spells out a line break and another entry |
| `CollidingIds.OverwrittenContentCommits` | services/context-engine/services/impl/sync_session_service_ingest.go:145-153 | Whenever another batch of the same identifier is stored after a batch was admitted, a run commits a file of the first that the indexer never saw |
| `CollidingIds.CollisionCommitsUnindexed` | services/context-engine/consumers/stream_batch_consumer.go:125-150 | Counterexample: such a run of three posts, from the empty service on, with a line break in a path and every hash as printed |
| `CollidingIds.ClaimCommitsUnindexed` | services/context-engine/controllers/index_stream_controller.go:166-186 | Counterexample: such a run without a line break in any path, in which a delete claims a hash with one |
| `BatchText.ClaimCollides` | services/context-engine/services/impl/batch_id.go:29-37 | Counterexample: a delete that claims a hash with a line break can pass for a delete and a file |
| `BatchText.BarCollides` | services/context-engine/services/impl/batch_id.go:29-37 | Counterexample: deletes of two paths have one identifier when the claimed hash of one holds a bar |
| `SyncTheorems.CommitFrame` | services/context-engine/consumers/finalize_sync_consumer.go:105-149 | While its session exists, a commit is the whole processed delta of it and leaves every path the session was not created for as it was |
| `SyncTheorems.DeltaExpected` | services/context-engine/consumers/finalize_sync_consumer.go:110-132 | A derived delta repeats the hashes the session was promised and deletes only promised paths |
| `SyncTheorems.DeltaUnique` | services/context-engine/consumers/finalize_sync_consumer.go:110-132 | The derived delta does not depend on the order the rows are read in |
| `SyncTheorems.CompleteDelta` | services/context-engine/repositories/impl/sync_batch_repository_impl.go:201-249 | When a session is finalizing or done, all rows are terminal and every promised path is either processed or failed in one |
| `SyncTheorems.DoneIsCommittedExactly` | services/context-engine/consumers/finalize_sync_consumer.go:239-249 | For a done session with work, the tree its outcome names holds the processed delta exactly when it was saved or changes no path set |
| `SyncTheorems.InvHolds` | services/context-engine/consumers/finalize_sync_consumer.go:64-250 | The joint invariant of sessions, rows, outbox, queue, trees and deliveries holds in every reachable state |
| `Finalization.FrozenPreserved` | services/context-engine/repositories/impl/sync_session_repository_impl.go:165-215 | Finalizing or done sessions have only terminal rows, and a finalizing one has its outbox row |
| `Finalization.LogPreserved` | services/context-engine/consumers/finalize_sync_consumer.go:203-223 | Every commit keeps being the delta of its closed session and came after that session's diff |
| `Finalization.OutcomesPreserved` | services/context-engine/consumers/finalize_sync_consumer.go:239-249 | What made a session done stays true of the tree's history |
| `Manifests.ClosesExact` | services/context-engine/services/impl/sync_session_service_ingest.go:232-250 | The comparison of counts that closes a session is exact iff no delete was promised twice |
| `Manifests.ManifestsPreserved` | services/context-engine/services/impl/sync_session_service_ingest.go:155-262 | Every step keeps what a session received within what it was promised, and closed sessions complete |
| `Manifests.CoverPreserved` | services/context-engine/services/impl/sync_session_service_ingest.go:186-230 | What a session received is exactly what its rows accepted |
| `BatchRows.KeysPreserved` | services/context-engine/repositories/impl/sync_session_repository_impl.go:217-238 | Rows, outbox rows, queued tasks and deliveries always belong to a known session, and identifiers are not reused |
| `BatchRows.BatchesPreserved` | services/context-engine/repositories/impl/sync_batch_repository_impl.go:78-199 | Every row, whatever content its key has, keeps its failures within what it accepted, and what a stamped row says stays |
| `Meanings.MeaningPreserved` | services/context-engine/consumers/stream_batch_consumer.go:125-150 | While identifiers stand for one batch, every step keeps content, rows and deliveries of a key in agreement, and a succeeded row leaves out of its failures only what the indexer processed |
| `SyncRuns.OutcomeFixed` | services/context-engine/repositories/impl/sync_batch_repository_impl.go:78-199 | Once a batch has left pending, its outcome and failed sets never change, however often it is delivered |
| `SyncRuns.MarkedOnce` | services/context-engine/consumers/mark_batch_helpers.go:23-77 | A batch leaves pending at most once |
| `SyncRuns.AdmittedOnce` | services/context-engine/repositories/impl/sync_batch_repository_impl.go:29-46 | A batch is admitted at most once, however often it is posted |
| `SyncRuns.ErrorKeepsContent` | services/context-engine/consumers/stream_batch_consumer.go:54-57 | A delivery deletes the content and triggers the finalizer exactly when it returns no error |
| `SyncRuns.StatusForward` | services/context-engine/repositories/impl/sync_session_repository_impl.go:91-179 | A session's status never moves back and a terminal session never changes |
| `SyncRuns.OneActiveSession` | services/context-engine/repositories/impl/sync_session_repository_impl.go:35-68 | At most one session of an identity is active |
| `SyncRuns.RepeatedDeleteNeverCloses` | services/context-engine/services/impl/sync_session_service_impl.go:124-129 | A session promised one delete twice never leaves receiving but by failing or expiring |
| `RepeatedDeletes.AllReceivedNotClosed` | services/context-engine/services/impl/sync_session_service_ingest.go:243-250 | Counterexample: a run in which such a session has received all it was promised and is still receiving |
| `WakeUp.LosslessPreserved` | services/context-engine/consumers/finalizer_trigger.go:62-106 | A step that drops none of a session's work keeps its batches queued, its trigger ahead, its finalizer outstanding |
| `WakeUp.DispatchPreserved` | services/context-engine/services/impl/outbox_dispatcher_impl.go:180-228 | What is queued was enqueued from its row, and nothing of a finalizer exists before its session is finalizing |
| `SyncRuns.NoLostWakeUp` | services/context-engine/consumers/finalizer_trigger.go:62-106 | In every run that drops none of the session's work, a processing session with all batches terminal has a TryEnqueue ahead, pending batches and the finalizer are outstanding |
| `WakeUpExact.WakesExactly` | services/context-engine/consumers/finalizer_trigger.go:62-111 | A processing session with all batches terminal can still be finalized iff a task of it is queued, or is claimed or not yet enqueued and not given up, or a delivery of it has its TryEnqueue ahead |
| `WakeUpExact.DeadAfterwards` | services/context-engine/consumers/finalizer_trigger.go:107-111 | Once none of these holds, the session never becomes finalizing or done, whatever happens later |
| `LostWakeUp.DroppedTriggerSticks` | services/context-engine/consumers/finalizer_trigger.go:56-61 | Counterexample: one failed trigger transaction leaves a session with all batches succeeded that no continuation finalizes; the comment above the function promises a retry |
| `Convergence.DoneConvergesAt` | services/context-engine/services/sync_session_service.go:18-30 | After a done full sync, whatever others did to the tree since its diff: at every path that no foreign commit, index deletion or tree saved without a session changed, the next diff asks for exactly what was not processed iff the delta leaves the path alone or was committed |
| `Convergence.DoneCommitted` | services/context-engine/consumers/finalize_sync_consumer.go:184-223 | A done session has committed since its diff, or its last finalizer found the root hash unchanged |
| `Convergence.ForeignCommitIsLate` | services/context-engine/services/impl/sync_session_service_impl.go:95-100 | While a session is active, its repository is changed for another session only by a late finalizer of one that is no longer active |
| `Convergence.DoneConverges` | services/context-engine/services/sync_session_service.go:18-30 | After a done full sync since whose diff nobody else changed the tree, all of the next diff is right iff the delta changes the root hash |
| `Convergence.DoneConvergesExactly` | services/context-engine/services/sync_session_service.go:18-30 | Whoever changed the tree, the next diff is right about a path iff it treats it as in the tree that was diffed with the delta applied |
| `Convergence.ReplaceLosesCommits` | services/context-engine/services/impl/index_retrieval_service_impl.go:529-534 | Counterexample, after every run with a done full sync: deleting the index, or saving the tree of a scan as old as the diff, makes the next diff ask again for every committed file |
| `Convergence.DeletedIndexAsksAgain` | services/context-engine/services/impl/index_retrieval_service_impl.go:513-535 | When the index is deleted between a diff and the commit, the next diff asks again for every file that the diff found unchanged |
| `Convergence.AskedAgainIsFailed` | services/context-engine/consumers/finalize_sync_consumer.go:97-104 | What a done session leaves to be asked for again is exactly what failed in every row that accepted it |
| `Convergence.ConvergedShrinks` | services/context-engine/services/sync_session_service.go:18-30 | A converged sync strictly shrinks what is out of sync |
| `Consumers.StreamBatchConsumer.Handle` | services/context-engine/consumers/stream_batch_consumer.go:92-305 | The handler performs only steps allowed to its delivery, in order, with anything happening in between, and returns an error exactly on the replies that `BatchReturns` names |
| `Consumers.StreamBatchConsumer.Index` | services/context-engine/consumers/stream_batch_consumer.go:194-304 | The pipeline's result is classified as terminal, retryable or processed, and marked accordingly |
| `Consumers.StreamBatchConsumer.FinishBatch` | services/context-engine/consumers/stream_batch_consumer.go:105-114 | The content is deleted, then the finalizer triggered |
| `Consumers.FinalizeSyncConsumer.Handle` | services/context-engine/consumers/finalize_sync_consumer.go:64-95 | The finalize handler refines its delivery's steps, status guards included, and ends as `FinalizerReturns` says: an error only for a failure, no giving up before five misses |
| `Consumers.FinalizeSyncConsumer.Processed` | services/context-engine/consumers/finalize_sync_consumer.go:110-132 | The loops over the rows compute exactly the session's delta |
| `Consumers.FinalizeSyncConsumer.Commit` | services/context-engine/consumers/finalize_sync_consumer.go:164-249 | The five-attempt loop refines the compare-and-swap steps: without a failure it ends with the delta in the tree and the session done, unless it missed five times |
| `Consumers.FinalizeSyncConsumer.Attempt` | services/context-engine/consumers/finalize_sync_consumer.go:165-225 | One attempt: load, apply, skip on an equal hash, conditional save. A conflict is one more miss and no failure, and the loop goes on; an error is a failure just heard |
| `Backend.TerminalRowsDelta` | services/context-engine/consumers/finalize_sync_consumer.go:97-104 | Accepted less failed, united over the non-pending rows in any order, is a delta of the session |
| `Backend.Store.MarkBatchFailed` | services/context-engine/repositories/impl/sync_batch_repository_impl.go:148-199 | Guarded by pending: every accepted file and delete is marked failed, or nothing changes |
| `Backend.Store.MarkBatchSucceeded` | services/context-engine/repositories/impl/sync_batch_repository_impl.go:78-146 | Guarded by pending: the row is succeeded with exactly the given failures, or nothing changes |
| `Backend.Store.FlipIfReady` | services/context-engine/consumers/finalizer_trigger.go:63-106 | The session flips and its outbox row appears together, exactly when it is processing and all its batches are terminal |
| `Backend.Store.TryEnqueue` | services/context-engine/consumers/finalizer_trigger.go:62-121 | The trigger transaction takes effect or not; its error is swallowed |
| `Backend.Store.TerminalResults` | services/context-engine/repositories/impl/sync_batch_repository_impl.go:201-249 | Exactly the non-pending rows of the session, in some order |
| `Backend.Store.LoadTreeWithVersion` | services/context-engine/services/impl/merkle_service_impl.go:540-552 | The stored tree with its token, or a transient or permanent error |
| `Backend.Store.SaveTreeIfUnchanged` | services/context-engine/services/impl/merkle_service_impl.go:554-569 | The tree is replaced exactly when the stored version is the expected one; a refused request counts as a mismatch |
| `Backend.Store.MarkDone` | services/context-engine/repositories/impl/sync_session_repository_impl.go:102-125 | A finalizing session becomes done and nothing else changes, or, on an error, nothing need change |
| `Backend.Store.MarkFailed` | services/context-engine/repositories/impl/sync_session_repository_impl.go:127-144 | An active session becomes failed with the reason and nothing else changes, or, on an error, nothing need change |
| `Requests.SyncSessionService.Diff` | services/context-engine/services/impl/sync_session_service_impl.go:95-225 | /diff creates at most one active session, tells the client exactly the paths the tree lacked or held otherwise and the deletes, and stays true of the tree it read even if commits land before the insert; an error means storage failed |
| `Requests.SyncSessionService.ComputeNeed` | services/context-engine/services/impl/sync_session_diff_helpers.go:66-80 | The client's paths whose hash is missing from the tree or differs |
| `Requests.SyncSessionService.ComputeDeletes` | services/context-engine/services/impl/sync_session_diff_helpers.go:42-64 | The tree's paths the client lacks, once each |
| `Requests.SyncSessionService.CreateExclusive` | services/context-engine/repositories/impl/sync_session_repository_impl.go:35-68 | A session is inserted only when the identity has no active one, and refused only when it has one; storage may fail before or after the insert |
| `Requests.SyncSessionService.IngestBatch` | services/context-engine/services/impl/sync_session_service_ingest.go:55-279 | /stream queues a batch only by an admission the protocol allows, under the identifier recomputed of its entries, although it validated against an older copy of the session; nothing else is stored or admitted; every refusal is true. Without a fault the state at entry decides in the source's order: no session, not receiving, already there, bad entries, another identifier; a post that gets past this is answered by the transaction |
| `Requests.SyncSessionService.AdmitBatch` | services/context-engine/services/impl/sync_session_service_ingest.go:158-262 | The transaction: each refusal exactly in its case, otherwise the row, the merge, the outbox row and the conditional flip together, unless storage fails |
| `Requests.RepeatedPost` | services/context-engine/services/impl/sync_session_service_ingest.go:158-196 | Another post of an admitted batch that gets past the first look-up is answered as a duplicate iff the session still receives and the batch has no deletes |
| `Ingest.ValidateBatchEntries` | services/context-engine/services/impl/sync_session_service_ingest.go:335-381 | Entries pass exactly when they spell out, once each and with true hashes, a batch valid for the session; otherwise the reason given is true |
| `Ingest.ExpectedExact` | services/context-engine/services/impl/sync_session_service_ingest.go:335-381 | For well-formed entries, being expected one by one is the batch being valid |
| `Ingest.EntriesId` | services/context-engine/services/impl/sync_session_service_ingest.go:103-110 | The identifier computed of checked entries whose deletes claim no hash is that of the accepted batch |
| `Ingest.BuildManifests` | services/context-engine/services/impl/sync_session_service_ingest.go:112-126 | The loop builds exactly the accepted batch |
| `Dispatcher.OutboxDispatcher.DrainRound` | services/context-engine/services/impl/outbox_dispatcher_impl.go:180-228 | A round with any failing operation, and reapers and other dispatchers in between: the claimed rows fall into those that went through, whose tasks the queue has held, and the others. If nothing else failed, the former are marked afterwards and the latter pending, but for rows that others moved; every row that says enqueued says so rightly |
| `Dispatcher.OutboxDispatcher.Finish` | services/context-engine/services/impl/outbox_dispatcher_impl.go:209-226 | The third phase marks what went through and resets the rest, as far as nobody else has moved the rows; a failed update leaves its rows |
| `Dispatcher.EnqueuedExact` | services/context-engine/services/impl/outbox_dispatcher_impl.go:201-219 | In every run, a row marked enqueued belongs to a task that is or was in the queue, or archived |
| `Dispatcher.OutboxDispatcher.MarkEnqueued` | services/context-engine/repositories/impl/sync_outbox_repository_impl.go:94-109 | Of the given rows exactly those still enqueuing become enqueued, or, on an error, perhaps none |
| `Dispatcher.OutboxDispatcher.ResetToPending` | services/context-engine/repositories/impl/sync_outbox_repository_impl.go:111-126 | Of the given rows exactly those still enqueuing become pending, or, on an error, perhaps none |
| `Dispatcher.OutboxDispatcher.ClaimPending` | services/context-engine/repositories/impl/sync_outbox_repository_impl.go:61-84 | Pending rows move to enqueuing, up to the limit and all of them below it but those another claim has locked, or an error |
| `Dispatcher.OutboxDispatcher.EnqueueOne` | services/context-engine/services/impl/outbox_dispatcher_impl.go:235-283 | On success it is in the queue or already archived; an identifier in use counts as success; a failed call may have enqueued it all the same |
| `Dispatcher.SentStays` | services/context-engine/services/impl/outbox_dispatcher_impl.go:201-212 | A task once enqueued stays marked as sent, and no row for it appears anew |
| `Rewind.RewindCorrect` | crates/git-ops/src/checkpoint.rs:177-242 | After any run of turns, backups, changes at any time, and rewinds, complete or stopped half way, restoring an earlier turn of the timeline gives a file that was not lost since back as it stood at its end iff the backups above it are consistent for the file |
| `Rewind.RewindAll` | crates/git-ops/src/checkpoint.rs:177-182 | When nothing was lost since, the whole project is given back iff all backups above the turn are consistent |
| `ParallelEdits.ShowsTimeline` | crates/agent/src/agent/loop_.rs:467-504 | Any number of calls at once, each cut off, failing, aborted or overtaken by a rewind or a new turn at any operation: while no two are between the read of the manifest and its replacement, and no call backs up when its turn is over, the run is one of timelines |
| `ParallelEdits.ManifestsWhole` | crates/git-ops/src/checkpoint.rs:99-175 | At every moment of such a run every manifest is whole and each entry has its own blob |
| `ParallelEdits.ParallelRewind` | crates/git-ops/src/checkpoint.rs:177-242 | After such a run a rewind gives back every file not lost since, as it stood at the end of the turn, iff the backups above it are consistent for the file; what a late call changes is lost |
| `ParallelEdits.WaitingInTime` | apps/desktop/src-tauri/src/agent_bridge/commands.rs:3010-3018 | No call backs up late when a rewind and a new turn begin with no call in flight; the commands do not ensure it |
| `LateCalls.RewindStands` | apps/desktop/src-tauri/src/agent_bridge/commands.rs:3010-3039 | What a rewind gave back stays, however the calls in flight at that moment go on, iff each of them removes a file that is not there, or empties an empty one, or was aborted before its change |
| `LateCalls.LateWriteExact` | crates/agent/src/tool/write.rs:61-67 | A change made after the rewind that overtook it leaves the file with its content, which no restore of that turn undoes; it is as it was iff that content is |
| `LateCalls.LateWrite` | apps/desktop/src-tauri/src/agent_bridge/commands.rs:3065-3116 | Counterexample: such a run with a single call, whose backup was complete and is pruned |
| `LateCalls.LateManifest` | crates/git-ops/src/checkpoint.rs:99-107 | A call overtaken before it wrote the temporary manifest makes the pruned directory anew, with a manifest whose blobs are gone |
| `LateCalls.LateBackup` | crates/git-ops/src/checkpoint.rs:196-226 | Counterexample: a run with a single call after which no restore of an earlier turn succeeds |
| `FirstOverlap.FirstOverlapMisleads` | crates/agent/src/agent/loop_.rs:467-504 | In every run, where two backups first overlap, of existing project files of different content, some continuation misleads the next rewind about one of them |
| `ParallelEdits.StepOk` | crates/git-ops/src/checkpoint.rs:121-175 | Each operation of a call keeps this and is a backup or a change of the timeline, or changes nothing of it |
| `ParallelEdits.NothingLost` | crates/agent/src/tool/write.rs:61-67 | When every change is backed up and made in its turn, and every rewind is complete and over consistent backups, no file is lost |
| `OverlappingBackups.OverlapMisleads` | crates/agent/src/agent/loop_.rs:467-504 | Counterexample, for any two existing files of the project: two writes of one response whose backups overlap succeed, and a rewind gives the first file the content of the second and leaves the second changed, though nothing counts as lost and the backups are consistent |
| `OverlappingBackups.MisledExact` | crates/git-ops/src/checkpoint.rs:177-242 | Such a rewind is right iff the two files held the same and the second was not changed |
| `OverlappingBackups.OverlapTears` | crates/git-ops/src/checkpoint.rs:99-107 | Counterexample, for any two such files: the manifest that one call puts in place while the other writes it cannot be read any more |
| `OverlappingBackups.TwoFiles` | crates/agent/src/agent/loop_.rs:467-504 | There are such files |
| `Rewind.OneNameConsistent` | crates/git-ops/src/checkpoint.rs:145-148 | Backups are consistent when no turn names a file in two ways |
| `Rewind.TwoNames` | crates/git-ops/src/checkpoint.rs:135-148 | Counterexample: a file edited under two names in one turn comes back with the content between the two edits |
| `Rewind.TwoNamesOfOneFile` | crates/git-ops/src/checkpoint.rs:247-262 | Two names of one project file exist: a doubled separator |
| `Rewind.RestoreAgain` | crates/git-ops/src/checkpoint.rs:181-182 | A restore that stopped anywhere, or was repeated, is completed by restoring again |
| `Rewind.RestoreInSteps` | crates/git-ops/src/checkpoint.rs:177-182 | Restoring to a and then to an earlier b is restoring to b |
| `Rewind.RestoredUnique` | crates/git-ops/src/checkpoint.rs:194-241 | The backups determine the restored files |
| `Rewind.PlaysOk` | crates/git-ops/src/checkpoint.rs:121-175 | In every run, first backups keep recording what each file not lost since held at the end of each earlier turn |
| `Rewind.EditOk` | crates/git-ops/src/checkpoint.rs:145-173 | An edit of a project file after its backup keeps that and loses nothing |
| `Rewind.RewindOk` | crates/git-ops/src/checkpoint.rs:339-358 | A rewind keeps that, whether it is complete and whether the undone turns are pruned or left; what it gives back wrongly counts as lost |
| `Rewind.RestartExact` | apps/desktop/src-tauri/src/agent_bridge/commands.rs:2141-2145 | When a new turn takes a number that has backups, restoring the turn before gives a file back as it is now iff its oldest such backup holds what it has now |
| `Rewind.RestartLoses` | apps/desktop/src-tauri/src/agent_bridge/commands.rs:2141-2145 | Counterexample: a failed listing starts the turn numbers again, and a rewind of the new turn undoes the old ones |
| `Rewind.PartialPruneExact` | apps/desktop/src-tauri/src/agent_bridge/commands.rs:3039-3039 | After a pruning that stopped half way, restoring again is harmless iff the oldest turn left for each file recorded what it has now |
| `Rewind.PartialPruneUndoes` | apps/desktop/src-tauri/src/agent_bridge/commands.rs:3039-3039 | Counterexample: the ignored error of a partial pruning lets the next restore bring back undone content |
| `Rewind.StoppedExact` | apps/desktop/src-tauri/src/agent_bridge/commands.rs:3109-3116 | After a restore that stopped half way and was pruned all the same, a rewind to an earlier turn gives a file back iff the backups left do, or, with none left, iff the file was given back; files without a backup above the turn are as they were |
| `Rewind.StoppedSticks` | apps/desktop/src-tauri/src/agent_bridge/commands.rs:3109-3116 | Counterexample: the ignored error of a restore that could not write a file destroys its only backup |
| `Checkpoint.Session.RewindToMessage` | apps/desktop/src-tauri/src/agent_bridge/commands.rs:3106-3116 | Restores the turn before and prunes, each with its error ignored: the turns are pruned whatever the restore did |
| `Checkpoint.Session.BackupFile` | crates/git-ops/src/checkpoint.rs:121-175 | One call that no other call of the turn overlaps: wherever it stops, the manifest is whole, its paths are distinct, every existing file has its own blob, and the turn records what it did or also this file |
| `Checkpoint.Session.WriteManifestAtomic` | crates/git-ops/src/checkpoint.rs:99-107 | With one writer of the temporary file, the manifest is the old one or the new one, never a torn one |
| `Checkpoint.NextBlobFree` | crates/git-ops/src/checkpoint.rs:161-162 | A blob write under the next name of the current manifest, whole or torn, first or retried, touches no blob the manifest refers to |
| `Checkpoint.BlobExact` | crates/git-ops/src/checkpoint.rs:157-166 | A blob write under any name keeps what the turn records iff no entry uses the name for a file with other content |
| `Checkpoint.BlobsNotShared` | crates/git-ops/src/checkpoint.rs:161-163 | No two entries share a blob |
| `Checkpoint.Session.RestoreTo` | crates/git-ops/src/checkpoint.rs:183-242 | The loops give every in-project file what its oldest undone turn recorded, leave all others, count the rewrites, and fail exactly on unreadable manifests or blobs or a failing operation |
| `Checkpoint.UndoOlder` | crates/git-ops/src/checkpoint.rs:194-206 | Undoing the next older turn overrides everything newer |
| `Checkpoint.Session.DeleteFrom` | crates/git-ops/src/checkpoint.rs:339-358 | Exactly the turns from the given one on are removed, or only some of them on an error |
| `Checkpoint.Session.EditFile` | crates/agent/src/tool/mod.rs:158-172 | On its own, a failed backup does not stop the edit; a backed-up edit adds to the log what one of the timeline does (`EditedBacksUp`) |
| `Checkpoint.Session.RestoreCheckpoint` | apps/desktop/src-tauri/src/agent_bridge/commands.rs:3004-3051 | The command restores, then prunes, with no call in flight; a failed restore leaves every backup for another try |
| `Checkpoint.Session.DiffTurn` | crates/git-ops/src/checkpoint.rs:266-313 | The report describes exactly the entries whose file differs from its backup, in order, and each description can be read back as the change of that file |
| `Checkpoint.DiffAfterRestore` | crates/git-ops/src/checkpoint.rs:285-303 | After a restore the oldest undone turn reports no change |
| `Checkpoint.ShowsCounts` | crates/git-ops/src/checkpoint.rs:280-305 | The report counts the changed files |
| `LineDiff.Trim` | crates/git-ops/src/checkpoint.rs:392-404 | Maximal common prefix, then maximal common suffix, without overlap or underflow |
| `LineDiff.TrimmedLeast` | crates/git-ops/src/checkpoint.rs:392-404 | No other replacement of one run of lines removes or adds fewer lines |
| `LineDiff.TrimmedReplaces` | crates/git-ops/src/checkpoint.rs:407-418 | Replacing the removed lines by the added ones turns the prior lines into the current ones |
| `LineDiff.UnifiedFileDiff` | crates/git-ops/src/checkpoint.rs:379-425 | The block and the counts appended for a file, text or binary |
| `LineDiff.DescribesReads` | crates/git-ops/src/checkpoint.rs:407-424 | Reading the lines of a block by their marks gives a run of the prior lines to take out and one to put in its place that yields the current lines; the counts are theirs, removed lines come first |
| `LineDiff.LinesEnded` | crates/git-ops/src/checkpoint.rs:389-390 | The lines of a text, each with its ending, are the text; no line holds a break, and a carriage return before a break belongs to the ending |
| `LineDiff.LinesOnly` | crates/git-ops/src/checkpoint.rs:389-390 | They are the only such lines |
| `LineDiff.DescribesCounts` | crates/git-ops/src/checkpoint.rs:407-418 | Insertions less deletions is the change of the line count; both are 0 iff the lines are equal |
| `Paths.IsWithinRoot` | crates/git-ops/src/checkpoint.rs:247-262 | The loop decides whether lexical resolution stays below the root |
| `Paths.WithinRootExact` | crates/git-ops/src/checkpoint.rs:244-262 | A name let through leads to a file below the project root |
| `Paths.WithinRootPlain` | crates/git-ops/src/checkpoint.rs:244-262 | For a name without .. the test is exact |
| `Paths.SanitizeSessionId` | crates/git-ops/src/checkpoint.rs:57-68 | The loop computes the percent encoding |
| `Paths.SanitizedRoundTrip` | crates/git-ops/src/checkpoint.rs:54-68 | The encoding is reversible |
| `Paths.SanitizedInjective` | crates/git-ops/src/checkpoint.rs:54-68 | Two sessions never share a directory |
| `Paths.SanitizedIsSegment` | crates/git-ops/src/checkpoint.rs:54-68 | The encoded name holds no separator |
| `Paths.TurnNameRoundTrip` | crates/git-ops/src/checkpoint.rs:74-81 | A turn's directory name is read back as that turn |
| `Paths.PaddedWidth` | crates/git-ops/src/checkpoint.rs:75-75 | Four digits, more only from ten thousand on |
| `Paths.BlobNamesDistinct` | crates/git-ops/src/checkpoint.rs:161-161 | Blob names of different entries differ |
| `Chunking.ChunkIntoBatches` | crates/context-sync/src/streamer.rs:891-929 | The batches hold the files in order, within the caps, the deletes once; no other split within the caps has fewer parts |
| `Chunking.GreedyOptimal` | crates/context-sync/src/streamer.rs:889-914 | A greedy split is shortest among all order-preserving splits within the caps |
| `Chunking.GreedyAhead` | crates/context-sync/src/streamer.rs:899-914 | The greedy parts stay ahead of any other split |
| `BatchText.IdTextExact` | services/context-engine/services/impl/batch_id.go:29-37 | Entries without a line break in a path or hash, and without a bar in a hash, have one text iff they are the same up to order |
| `BatchText.IdTextPermuted` | crates/context-sync/src/streamer.rs:933-943 | The text does not depend on the order of files and deletes |
| `BatchText.NewlineCollides` | crates/context-sync/src/streamer.rs:933-943 | Counterexample: a path with a newline can pass for two deletes |
| `Wire.DeterministicBatchId` | crates/context-sync/src/streamer.rs:933-943 | The client's text of its batch |
| `Wire.ComputeBatchId` | services/context-engine/services/impl/batch_id.go:29-37 | The server's text of the entries it received |
| `Wire.BuildBatchNdjson` | crates/context-sync/src/streamer.rs:945-967 | One line an entry, files before deletes |
| `Wire.ParseNdjsonBatch` | services/context-engine/controllers/index_stream_controller.go:159-189 | The entries of the lines in order; blank lines are skipped, a line that is too long or malformed refuses the body |
| `Wire.RefusesExactly` | services/context-engine/controllers/index_stream_controller.go:159-189 | A body is refused iff one of its lines is too long, or neither blank nor an entry |
| `Wire.WireRoundTrip` | services/context-engine/controllers/index_stream_controller.go:150-189 | Given an inverse line codec, the server reads exactly what the client wrote |
| `Wire.ServerRecomputesId` | services/context-engine/services/impl/sync_session_service_ingest.go:103-110 | The server recomputes the client's identifier, and it names this batch up to order only |
| `Wire.SerializeBatchForRedis` | services/context-engine/services/impl/sync_session_service_ingest.go:388-418 | The entries are packed in order, then compressed |
| `Wire.DecodeBatchContent` | services/context-engine/consumers/stream_batch_decode.go:27-62 | The stored rows are unpacked one by one and sorted into files and deletes; a malformed row or an unknown op is an error |
| `Wire.WorkerGetsBatch` | services/context-engine/consumers/stream_batch_decode.go:27-62 | Given inverse codecs: the server reads the client's lines, packs them for Redis, and the worker gets the client's batch back, in order |
| `UploadPool.Pool.StreamBatches` | crates/context-sync/src/streamer.rs:429-488 | None is left running on any return, success means each batch was answered exactly once, and an error is the cancellation or that of an upload that ended so rightly by the replies it heard |
| `UploadPool.Pool.Spawn` | crates/context-sync/src/streamer.rs:454-463 | An upload starts only with a permit; with it the pool still has at most ten in flight |
| `UploadPool.Pool.Acquire` | crates/context-sync/src/streamer.rs:454-454 | Waits until fewer than ten are in flight |
| `UploadPool.Pool.Attempt` | crates/context-sync/src/streamer.rs:502-591 | One turn of the retry loop: a cancelled upload ends without a post; otherwise there is one post more, after which it goes on iff the reply was transient and the post not the fourth, and else ends as that reply says |
| `UploadPool.BlamedPosts` | crates/context-sync/src/streamer.rs:570-588 | The error for a busy service is that of a batch posted four times, each time answered as transient; one for a timeout of the fourth post |
| `UploadPool.Pool.AbortAndDrain` | crates/context-sync/src/streamer.rs:680-687 | Everything in flight is aborted where it is, then joined, until nothing is left |
| `UploadPool.Pool.JoinNext` | crates/context-sync/src/streamer.rs:466-485 | Some upload that ended, or none when none is left |
| `UploadPool.TotalsAny` | crates/context-sync/src/streamer.rs:466-475 | The totals do not depend on completion order |
| `UploadPool.TotalsAccount` | crates/context-sync/src/streamer.rs:534-541 | The totals and the files of the batches answered as duplicates add up to all files |
| `LostReplies.LostReply` | crates/context-sync/src/streamer.rs:578-586 | Counterexample, by a run: the service admits a batch, the reply is lost, and the next post of it sees a duplicate, or, when the batch closed the session, an expired session |
| `LostReplies.Uncounted` | crates/context-sync/src/streamer.rs:534-541 | Counterexample, by the same run: the upload ends as a duplicate or fails, and either way counts no file of the admitted batch |
| `LostReplies.PostAgain` | services/context-engine/services/impl/sync_session_service_ingest.go:62-84 | So the service answers such a post, unless an operation fails |
| `LostReplies.RetryAnswer` | services/context-engine/services/impl/sync_session_service_ingest.go:62-84 | Counterexample, by a run: what the service looks up first settles it that the retry of an admitted batch is told that it is there while the session expects more, but that the session is gone when the batch has closed it |
| `UploadPool.StreamNeeded` | crates/context-sync/src/streamer.rs:429-488 | After a success every batch of the packed files was admitted by one step of the service's run, and no other |
| `UploadPool.CountsExact` | services/context-engine/services/impl/sync_session_service_ingest.go:252-256 | Of checked entries the server counts what the client sent |
| `UploadPool.Server.Post` | services/context-engine/services/impl/sync_session_service_ingest.go:55-84 | A post that reaches the service is an IngestBatch: accepted means admitted just now, duplicate that it is there; a lost reply may hide the admission |
| `Utf8.FloorCharBoundary` | crates/agent/src/util.rs:103-112 | The greatest character boundary not above the target, at most three bytes back; both parts are valid and decode to the whole |
| `Utf8.TruncateStr` | crates/agent/src/util.rs:116-118 | The longest valid prefix of whole characters within the limit |
| `Utf8.BoundaryExact` | crates/agent/src/util.rs:108-110 | The byte test finds exactly the places where both parts are valid UTF-8 |
| `Utf8.DecodeEncode` | crates/agent/src/util.rs:102-112 | Encoding and decoding by section 3 of RFC 3629 round-trip |
| `Utf8.EncodeDecode` | crates/agent/src/util.rs:102-112 | A text has one encoding |
| `Frontmatter.PrintThenSplit` | crates/agent/src/frontmatter.rs:19-47 | A printed file splits back iff yaml neither contains a closing line nor ends with the start of one |
| `Frontmatter.PrintThenSplitCrlf` | crates/agent/src/frontmatter.rs:33-38 | With carriage returns: iff in addition no plain closing line occurs anywhere, the body included |
| `Frontmatter.PrintThenSplitEof` | crates/agent/src/frontmatter.rs:40-46 | A file that ends at its closing line splits back iff no line closes before, and yaml printed with plain line breaks does not end in a carriage return |
| `Frontmatter.PlainRuleInCrlfFile` | crates/agent/src/frontmatter.rs:33-38 | Counterexample: a file with carriage returns whose body holds a rule between plain line breaks |
| `Frontmatter.SplitLossless` | crates/agent/src/frontmatter.rs:19-47 | A successful split keeps everything but leading byte order marks and line breaks |
| `Frontmatter.SplitFinds` | crates/agent/src/frontmatter.rs:19-47 | A file with an opening and a closing line always splits |
| `Frontmatter.MixedCloseKeepsReturn` | crates/agent/src/frontmatter.rs:34-34 | The fourth pattern is never reached: the first has matched inside it |

## Left out

- HTTP, gzip, base64, JSON, Redis, Postgres, Asynq and S3 internals: atomic actions that may fail, and
  codecs given as parameters.
- SHA-256 is taken as collision free: a digest is its preimage, and a batch identifier is the text it
  is the digest of. The hashes a client claims in /diff, and the identifier in a header, are digests.
- The order of a file and a directory of one name among the children of a directory: the file first.
- Request and payload decoding errors, logging, NOTIFY and timings; a time limit may strike at any
  moment.
- The indexing pipeline: it returns an error or any partition of its input.
- A session's tree key and shard assignment; a repository goes by its identity. With trees in local
  files, a tree saved without a session between the check and the replacement of a conditional save.
- The restored list of messages. A new turn is above every turn that has backups, but in
  `RestartLoses` and `RestartExact`.
- Directories, symbolic links and non-UTF-8 names as backed-up paths, and edits made by the shell.
- Session identifiers whose encoding is empty, `.` or `..`.
- Widths of counters and turn numbers (u32, usize): unbounded here, except that a turn's name is read
  back for turns below 2 to the 32.
- Errors of the file system other than an operation that stops: which error is reported is not part
  of the contracts of `RestoreTo` and `DiffTurn`.
- `truncate_output`, `walk_and_hash`, `entries_filtered_by_need`, `/sync-complete` polling and status
  reads: easy folds and filters.
- Fairness and liveness: `NoLostWakeUp` and `WakesExactly` say that the next step is outstanding or
  possible, not that it is taken.
- Checkpoint.Session.BackupFile: describes a call that no other call of its turn overlaps, and so do
  `WriteManifestAtomic` and `EditFile`; calls in flight together, and during a rewind, are modelled in
  `ParallelEdits`. There a rewind is one step among the operations of the calls: what a call does while
  the restore or the pruning is under way counts as done before or after it.
- Checkpoint.Session.RestoreCheckpoint: leaves out the cancellation and the 100 ms of waiting before the
  restore, and the calls in flight then; `RewindStands` says when they matter.
- Checkpoint.NextBlobFree: is about the manifest as it is when the blob is written; a call that read an
  older one may reuse a name, as in `OverlappingBackups`.
- UploadPool.Pool.StreamBatches: an upload cut off by an abort may have been admitted; which ones is
  not tracked.
