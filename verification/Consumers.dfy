/** The two task handlers. Each performs only steps the transition system allows its delivery, in
    the order the system gives, whatever the rest of the service does in between. */
module Consumers {
  import opened MerkleTree
  import opened SyncState
  import opened SyncMachine
  import opened Backend
  import opened Deliveries

  class StreamBatchConsumer {
    const store: Store

    constructor (store: Store)
      ensures this.store == store
    {
      this.store := store;
    }

    method FinishBatch(w: WorkerId, key: Key, ghost final: bool)
      requires store.Valid() && store.Serving(w, key, final, AtDel)
      modifies store
      ensures store.Valid() && old(store.trace) <= store.trace && store.Serving(w, key, final, BatchReturned(false))
    {
      var _ := store.RedisDel(w, key, final);
      store.Others(w);
      var _ := store.TryEnqueue(w, key, final);
    }

    /** A failed mark is logged and the batch is finished all the same. */
    method FailBatch(w: WorkerId, key: Key, ghost final: bool, reason: string)
      requires store.Valid() && store.Serving(w, key, final, AtMarkFailed(reason))
      modifies store
      ensures store.Valid() && old(store.trace) <= store.trace && store.Serving(w, key, final, BatchReturned(false))
    {
      store.Others(w);
      var _, _ := store.MarkBatchFailed(w, key, final, reason);
      store.Others(w);
      FinishBatch(w, key, final);
    }

    /** One delivery of a batch task. It returns an error exactly when the replies it heard are to end in
        one. */
    method Handle(w: WorkerId, key: Key, final: bool) returns (err: bool)
      requires store.Valid() && store.Serving(w, key, final, AtGet)
      modifies store
      ensures store.Valid() && old(store.trace) <= store.trace && store.Serving(w, key, final, BatchReturned(err))
      ensures err <==> EndsInError(Heard(store.trace, w), final)
    {
      err := Serve(w, key, final);
      store.ValidLegal();
      BatchReturns(store.trace, w);
    }

    method Serve(w: WorkerId, key: Key, final: bool) returns (err: bool)
      requires store.Valid() && store.Serving(w, key, final, AtGet)
      modifies store
      ensures store.Valid() && old(store.trace) <= store.trace && store.Serving(w, key, final, BatchReturned(err))
    {
      var content, getErr := store.RedisGet(w, key, final);
      if !getErr && content.None? {
        FailBatch(w, key, final, "content_missing");
        return false;
      }
      if getErr {
        return true;
      }
      if content.value.Garbled? {
        FailBatch(w, key, final, "decode_error");
        return false;
      }
      var files, deletes := content.value.files, content.value.deletes;
      store.Others(w);

      var session, loadErr := store.LoadSession(w, key, final, files, deletes);
      store.Others(w);
      if loadErr {
        return true;
      }
      if session.None? {
        FinishBatch(w, key, final);
        return false;
      }
      var status := session.value.status;
      if !status.Receiving? && !status.Processing? {
        FailBatch(w, key, final, "session_no_longer_updatable");
        return false;
      }
      err := Index(w, key, final, files, deletes);
    }

    /** The pipeline and the classification of its result. */
    method Index(w: WorkerId, key: Key, final: bool, files: Leaves, deletes: set<Path>) returns (err: bool)
      requires store.Valid() && store.Serving(w, key, final, AtIndex(files, deletes))
      modifies store
      ensures store.Valid() && old(store.trace) <= store.trace && store.Serving(w, key, final, BatchReturned(err))
    {
      var indexing := store.IndexChangedFiles(w, key, final, files, deletes);
      store.Others(w);
      match indexing
      case TerminalError(code) =>
        var reason := if code == "" then "pipeline_terminal" else code;
        FailBatch(w, key, final, reason);
        return false;
      case RetryableError(reason) =>
        if final {
          FailBatch(w, key, final, reason);
          return false;
        }
        return true;
      case Indexed(failedFiles, failedDeletes) =>
        err := SucceedBatch(w, key, final, failedFiles, failedDeletes);
    }

    method SucceedBatch(w: WorkerId, key: Key, final: bool, failedFiles: map<Path, string>, failedDeletes: set<Path>)
      returns (err: bool)
      requires store.Valid() && store.Serving(w, key, final, AtMarkSucceeded(failedFiles, failedDeletes))
      modifies store
      ensures store.Valid() && old(store.trace) <= store.trace && store.Serving(w, key, final, BatchReturned(err))
    {
      var _, markErr := store.MarkBatchSucceeded(w, key, final, failedFiles, failedDeletes);
      store.Others(w);
      if markErr {
        if final {
          FailBatch(w, key, final, "db_merge_exhausted");
          return false;
        }
        return true;
      }
      FinishBatch(w, key, final);
      return false;
    }
  }

  datatype CasResult = Conflict | Committed | Returned(err: bool)

  class FinalizeSyncConsumer {
    const store: Store

    constructor (store: Store)
      ensures this.store == store
    {
      this.store := store;
    }

    /** One delivery of a finalize task. It ends as the replies it heard are to: with an error only for a
        failure, and otherwise, unless its session or its rows left nothing to do, with its delta in the
        tree and the session done, or after five misses. */
    method Handle(w: WorkerId, s: SyncId, final: bool) returns (err: bool)
      requires store.Valid() && store.Closing(w, s, final, AtLoadFinalizing)
      modifies store
      ensures store.Valid() && old(store.trace) <= store.trace && store.Closing(w, s, final, FinalReturned(err))
      ensures FinalEnd(store.trace, w, s, Heard(store.trace, w), Misses(store.trace, w), err)
    {
      err := Serve(w, s, final);
      store.ValidLegal();
      FinalizerReturns(store.trace, w);
    }

    method Serve(w: WorkerId, s: SyncId, final: bool) returns (err: bool)
      requires store.Valid() && store.Closing(w, s, final, AtLoadFinalizing)
      modifies store
      ensures store.Valid() && old(store.trace) <= store.trace && store.Closing(w, s, final, FinalReturned(err))
    {
      var session, loadErr := store.LoadFinalizing(w, s, final);
      store.Others(w);
      if loadErr {
        return true;
      }
      if session.None? {
        return false;
      }
      if session.value.status.Done? {
        return false;
      }
      if !session.value.status.Finalizing? {
        return false;
      }
      err := Finalize(w, s, final, session.value.repo);
    }

    method Finalize(w: WorkerId, s: SyncId, final: bool, r: RepoId) returns (err: bool)
      requires store.Valid() && store.Closing(w, s, final, AtLoadRows(r))
      modifies store
      ensures store.Valid() && old(store.trace) <= store.trace && store.Closing(w, s, final, FinalReturned(err))
    {
      var rows, rowsErr, base := store.LoadTerminalResults(w, s, final, r);
      store.Others(w);
      if rowsErr {
        return true;
      }
      err := FinalizeRows(w, s, final, r, rows, base);
    }

    method FinalizeRows(w: WorkerId, s: SyncId, final: bool, r: RepoId, rows: seq<Row>, ghost base: nat)
      returns (err: bool)
      requires store.Valid()
      requires var delta := Delta(FilesOf(rows), DeletesOf(rows));
        store.Closing(w, s, final,
          if delta == Delta(map[], {}) then AtFail("all_operations_failed", r, base, 0)
            else AtLoadTree(r, delta, 0, base, 0))
      modifies store
      ensures store.Valid() && old(store.trace) <= store.trace && store.Closing(w, s, final, FinalReturned(err))
    {
      var processedFiles, processedDeletes := Processed(rows);
      if |processedFiles| == 0 && |processedDeletes| == 0 {
        err := store.MarkFailed(w, s, final, "all_operations_failed", r, base, 0);
        return;
      }
      err := Commit(w, s, final, r, processedFiles, processedDeletes, base);
    }

    /** The accepted paths of the rows without the failed ones. */
    method Processed(rows: seq<Row>) returns (processedFiles: Leaves, processedDeletes: seq<Path>)
      ensures processedFiles == FilesOf(rows)
      ensures (set p | p in processedDeletes) == DeletesOf(rows)
      ensures |processedFiles| == 0 && |processedDeletes| == 0 <==>
        Delta(FilesOf(rows), DeletesOf(rows)) == Delta(map[], {})
    {
      processedFiles, processedDeletes := map[], [];
      for i := 0 to |rows|
        invariant processedFiles == FilesOf(rows[..i])
        invariant forall p :: p in processedDeletes <==> p in DeletesOf(rows[..i])
      {
        var row := rows[i];
        processedFiles := AddFiles(row, processedFiles);
        if row.deletes != {} {
          processedDeletes := AddDeletes(row, processedDeletes);
        }
        assert rows[..i + 1][..i] == rows[..i] && rows[..i + 1][i] == row;
      }
      assert rows[..|rows|] == rows;
      if |processedDeletes| > 0 {
        assert processedDeletes[0] in DeletesOf(rows);
      }
    }

    method AddFiles(row: Row, files: Leaves) returns (processedFiles: Leaves)
      ensures processedFiles == files + ProcessedFiles(row)
    {
      processedFiles := files;
      var todo := row.files.Keys;
      while todo != {}
        invariant todo <= row.files.Keys
        invariant processedFiles == files + map p | p in row.files && p !in row.failedFiles && p !in todo ::
          row.files[p]
      {
        var path :| path in todo;
        todo := todo - {path};
        if path in row.failedFiles {
          continue;
        }
        processedFiles := processedFiles[path := row.files[path]];
      }
    }

    method AddDeletes(row: Row, deletes: seq<Path>) returns (processedDeletes: seq<Path>)
      ensures forall p :: p in processedDeletes <==> p in deletes || p in row.deletes - row.failedDeletes
    {
      processedDeletes := deletes;
      var todo := row.deletes;
      while todo != {}
        invariant todo <= row.deletes
        invariant forall p :: p in processedDeletes <==> p in deletes || p in row.deletes - row.failedDeletes - todo
      {
        var p :| p in todo;
        todo := todo - {p};
        if p in row.failedDeletes {
          continue;
        }
        processedDeletes := processedDeletes + [p];
      }
    }

    /** The compare-and-swap loop. */
    method Commit(
      w: WorkerId, s: SyncId, final: bool, r: RepoId, files: Leaves, deletes: seq<Path>, ghost base: nat)
      returns (err: bool)
      requires store.Valid()
      requires store.Closing(w, s, final, AtLoadTree(r, Delta(files, set p | p in deletes), 0, base, 0))
      modifies store
      ensures store.Valid() && old(store.trace) <= store.trace && store.Closing(w, s, final, FinalReturned(err))
      ensures FinalEnd(store.trace, w, s, Heard(store.trace, w), Misses(store.trace, w), err)
    {
      err := Loop(w, s, final, r, files, deletes, base);
      store.ValidLegal();
      FinalizerReturns(store.trace, w);
    }

    method Loop(w: WorkerId, s: SyncId, final: bool, r: RepoId, files: Leaves, deletes: seq<Path>, ghost base: nat)
      returns (err: bool)
      requires store.Valid()
      requires store.Closing(w, s, final, AtLoadTree(r, Delta(files, set p | p in deletes), 0, base, 0))
      modifies store
      ensures store.Valid() && old(store.trace) <= store.trace && store.Closing(w, s, final, FinalReturned(err))
    {
      var delta := Delta(files, set p | p in deletes);
      var attempt := 0;
      ghost var refused: nat := 0;
      while attempt < MAX_MERKLE_CAS_ATTEMPTS
        invariant 0 <= attempt <= MAX_MERKLE_CAS_ATTEMPTS
        invariant store.Valid() && old(store.trace) <= store.trace
        invariant store.Closing(w, s, final,
          if attempt < MAX_MERKLE_CAS_ATTEMPTS then AtLoadTree(r, delta, attempt, base, refused)
          else AtFail("merkle_cas_exhausted", r, base, refused))
      {
        var result, outcome, refusals := Attempt(w, s, final, r, delta, attempt, base, refused);
        match result
        case Conflict =>
          attempt, refused := attempt + 1, refusals;
        case Returned(failed) =>
          return failed;
        case Committed =>
          store.Others(w);
          err := store.MarkDone(w, s, final, outcome);
          return;
      }
      store.Others(w);
      err := store.MarkFailed(w, s, final, "merkle_cas_exhausted", r, base, refused);
    }

    /** Where a turn of the loop leaves the delivery. */
    ghost function AfterTurn(
      result: CasResult, outcome: Outcome, r: RepoId, delta: Delta, attempt: nat, base: nat, refused: nat): FinalPc
    {
      match result
      case Committed => AtMarkDone(outcome)
      case Returned(err) => FinalReturned(err)
      case Conflict =>
        if attempt + 1 < MAX_MERKLE_CAS_ATTEMPTS then AtLoadTree(r, delta, attempt + 1, base, refused)
        else AtFail("merkle_cas_exhausted", r, base, refused)
    }

    /** What a turn of the loop leaves in the trace: a conflict is one more miss, without a failure, and
        the loop goes on; an error is a failure just heard. */
    ghost predicate TurnTold(w: WorkerId, result: CasResult, attempt: nat)
      reads store
    {
      var heard, misses := Heard(store.trace, w), Misses(store.trace, w);
      match result
      case Conflict => Smooth(heard) && misses == attempt + 1
      case Committed => Smooth(heard) && misses < 5
      case Returned(err) => heard != [] && (err <==> Faulted(heard[|heard| - 1]))
    }

    lemma TurnHeard(
      w: WorkerId, s: SyncId, final: bool, result: CasResult, outcome: Outcome, r: RepoId, delta: Delta, attempt: nat,
      base: nat, refused: nat)
      requires store.Valid() && attempt < MAX_MERKLE_CAS_ATTEMPTS
      requires store.Closing(w, s, final, AfterTurn(result, outcome, r, delta, attempt, base, refused))
      ensures TurnTold(w, result, attempt)
    {
      store.ValidLegal();
      AllTold(store.trace, w);
    }

    /** One turn of the loop: load, apply, skip the write if the root hash stays, save. */
    method Attempt(
      w: WorkerId, s: SyncId, final: bool, r: RepoId, delta: Delta,
      ghost attempt: nat, ghost base: nat, ghost refused: nat)
      returns (result: CasResult, ghost outcome: Outcome, ghost refusals: nat)
      requires store.Valid() && attempt < MAX_MERKLE_CAS_ATTEMPTS
      requires store.Closing(w, s, final, AtLoadTree(r, delta, attempt, base, refused))
      modifies store
      ensures store.Valid() && old(store.trace) <= store.trace && refused <= refusals <= refused + 1
      ensures store.Closing(w, s, final, AfterTurn(result, outcome, r, delta, attempt, base, refusals))
      ensures TurnTold(w, result, attempt)
    {
      result, outcome, refusals := Turn(w, s, final, r, delta, attempt, base, refused);
      TurnHeard(w, s, final, result, outcome, r, delta, attempt, base, refusals);
    }

    method Turn(
      w: WorkerId, s: SyncId, final: bool, r: RepoId, delta: Delta,
      ghost attempt: nat, ghost base: nat, ghost refused: nat)
      returns (result: CasResult, ghost outcome: Outcome, ghost refusals: nat)
      requires store.Valid() && attempt < MAX_MERKLE_CAS_ATTEMPTS
      requires store.Closing(w, s, final, AtLoadTree(r, delta, attempt, base, refused))
      modifies store
      ensures store.Valid() && old(store.trace) <= store.trace && refused <= refusals <= refused + 1
      ensures store.Closing(w, s, final, AfterTurn(result, outcome, r, delta, attempt, base, refusals))
    {
      outcome, refusals := Outcome(r, delta, 0, false), refused;
      store.Others(w);
      var loaded := store.LoadTreeWithVersion(w, s, final, r, delta, attempt, base, refused);
      store.Others(w);
      if loaded.LoadPermanent? {
        var err := store.MarkFailed(w, s, final, "merkle_storage_permanent", r, base, refused);
        return Returned(err), outcome, refused;
      }
      if loaded.LoadFailed? {
        return Returned(true), outcome, refused;
      }
      var tree, version := loaded.repo.tree, loaded.repo.version;
      var updated := ApplyChanges(tree, delta);
      if version != 0 && RootHash(updated) == RootHash(tree) {
        return Committed, Outcome(r, delta, |loaded.repo.log|, false), refused;
      }
      result, outcome, refusals :=
        Save(w, s, final, r, delta, attempt, base, refused, tree, updated, version, |loaded.repo.log|);
    }

    method Save(
      w: WorkerId, s: SyncId, final: bool, r: RepoId, delta: Delta,
      ghost attempt: nat, ghost base: nat, ghost refused: nat,
      tree: Leaves, updated: Leaves, version: Version, ghost at: nat)
      returns (result: CasResult, ghost outcome: Outcome, ghost refusals: nat)
      requires store.Valid() && attempt < MAX_MERKLE_CAS_ATTEMPTS && updated == ApplyChanges(tree, delta)
      requires store.Closing(w, s, final, AtSaveTree(r, delta, attempt, base, refused, tree, version, at))
      modifies store
      ensures store.Valid() && old(store.trace) <= store.trace && refused <= refusals <= refused + 1
      ensures store.Closing(w, s, final, AfterTurn(result, outcome, r, delta, attempt, base, refusals))
    {
      outcome := Outcome(r, delta, |RepoOf(store.db.repos, r).log| + 1, true);
      var saved, refusal :=
        store.SaveTreeIfUnchanged(w, s, final, r, delta, attempt, base, refused, tree, updated, version, at);
      refusals := refused + if refusal then 1 else 0;
      store.Others(w);
      match saved
      case Mismatch => result := Conflict;
      case SavePermanent =>
        var err := store.MarkFailed(w, s, final, "merkle_storage_permanent", r, base, refused);
        result := Returned(err);
      case SaveFailed => result := Returned(true);
      case Saved => result := Committed;
    }
  }
}
