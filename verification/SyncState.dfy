/** The durable state of the streaming sync service: the Postgres tables, the Redis content, the
    Asynq queue and the versioned trees, with the running deliveries and the history of a run. */
module SyncState {
  import opened Digests
  import opened MerkleTree

  type SyncId = nat
  type Identity = string

  /** Each identity has one repository. */
  type RepoId = Identity

  type WorkerId = nat

  /** The version token of a stored tree. The empty token, meaning no tree, is 0. */
  type Version = nat

  const MAX_RETRY: nat := 3

  /** The canonical text of a batch, standing for its digest. Different batches may have one text. */
  type BatchId = string

  /** What a batch uploads and deletes. */
  datatype Batch = Batch(files: Leaves, deletes: set<Path>)

  datatype Key = Key(sync: SyncId, batch: BatchId)

  datatype Status = Receiving | Processing | Finalizing | Done | Failed | Expired

  predicate IsActive(status: Status) {
    status.Receiving? || status.Processing? || status.Finalizing?
  }

  /** A sync_sessions row. `client`, `incremental` and `diffedAt` record the /diff request and the
      number of changes the tree it read had seen. */
  datatype Session = Session(
    identity: Identity, repo: RepoId,
    client: Leaves, incremental: bool, diffedAt: nat,
    expectedFiles: Leaves, expectedDeletes: seq<Path>,
    receivedFiles: Leaves, receivedDeletes: seq<Path>,
    status: Status, failedReason: string)

  datatype RowState = Pending | Succeeded | RowFailed

  /** A sync_batches row. */
  datatype Row = Row(
    files: Leaves, deletes: set<Path>, state: RowState,
    failedFiles: map<Path, string>, failedDeletes: set<Path>)

  /** What a worker finds under a batch's Redis key. */
  datatype Content = Intact(files: Leaves, deletes: set<Path>) | Garbled

  datatype Task = StreamTask(key: Key) | FinalizeTask(sync: SyncId)

  function SyncOf(t: Task): SyncId {
    match t case StreamTask(k) => k.sync case FinalizeTask(s) => s
  }

  datatype OutboxStatus = OutboxPending | Enqueuing | Enqueued

  /** A sync_outbox row. `sent` records that some dispatcher has enqueued its task. */
  datatype OutboxRow = OutboxRow(status: OutboxStatus, sent: bool)

  /** A change of a stored tree: the commit of a delivery, or a tree that somebody outside the protocol
      put there whatever there was: deleting an index leaves no tree, indexing without a session saves
      the tree of its own scan. */
  datatype Commit =
    | Commit(sync: SyncId, worker: WorkerId, delta: Delta)
    | Overwrite(tree: Leaves)

  predicate IsFor(c: Commit, s: SyncId) {
    c.Commit? && c.sync == s
  }

  predicate IsBy(c: Commit, w: WorkerId) {
    c.Commit? && c.worker == w
  }

  function Changed(tree: Leaves, c: Commit): Leaves {
    match c case Commit(_, _, d) => ApplyChanges(tree, d) case Overwrite(t) => t
  }

  /** A repository's stored tree. `log`, `past` and `issued` are history: the changes, the tree
      after each number of changes, and the tree every token was issued for. */
  datatype Repo = Repo(tree: Leaves, version: Version, issued: map<Version, Leaves>, log: seq<Commit>,
    past: seq<Leaves>)

  const NoRepo := Repo(map[], 0, map[0 := map[]], [], [map[]])

  /** How a finalizer found its delta in the tree after `at` changes: it had just saved it, or the
      root hash would not change. */
  datatype Outcome = Outcome(repo: RepoId, delta: Delta, at: nat, saved: bool)

  /** The next operation of a batch delivery, with the local variables it needs. */
  datatype BatchPc =
    | AtGet
    | AtLoadSession(files: Leaves, deletes: set<Path>)
    | AtIndex(files: Leaves, deletes: set<Path>)
    | AtMarkFailed(reason: string)
    | AtMarkSucceeded(failedFiles: map<Path, string>, failedDeletes: set<Path>)
    | AtDel
    | AtTrigger
    | BatchReturned(err: bool)

  /** The next operation of a finalize delivery. `base` and `at` are the numbers of changes when the
      loop began and when the tree was loaded; `refused` counts the saves the storage refused for a
      concurrent request, though the version was the expected one. */
  datatype FinalPc =
    | AtLoadFinalizing
    | AtLoadRows(repo: RepoId)
    | AtLoadTree(repo: RepoId, delta: Delta, attempt: nat, base: nat, refused: nat)
    | AtSaveTree(
        repo: RepoId, delta: Delta, attempt: nat, base: nat, refused: nat, tree: Leaves, version: Version, at: nat)
    | AtMarkDone(outcome: Outcome)
    | AtFail(reason: string, repo: RepoId, base: nat, refused: nat)
    | FinalReturned(err: bool)

  /** One delivery of a task. `final` is the handler's test that no retry is left; `deleted` and
      `triggered` record what the delivery has done. */
  datatype Proc =
    | Stream(key: Key, final: bool, pc: BatchPc, deleted: bool, triggered: bool)
    | Final(sync: SyncId, final: bool, fpc: FinalPc)

  function TaskOf(p: Proc): Task {
    match p case Stream(k, _, _, _, _) => StreamTask(k) case Final(s, _, _) => FinalizeTask(s)
  }

  /** What happened, kept for the statements about whole runs. */
  datatype History = History(
    seen: set<SyncId>,
    indexedFiles: set<(Key, Path, Hash)>, indexedDeletes: set<(Key, Path)>,
    stamped: map<Key, Row>,
    outcomes: map<SyncId, Outcome>)

  datatype State = State(
    sessions: map<SyncId, Session>,
    rows: map<Key, Row>,
    redis: map<Key, Content>,
    outbox: map<Task, OutboxRow>,
    queue: map<Task, nat>,
    archived: set<Task>,
    claims: multiset<Task>,
    repos: map<RepoId, Repo>,
    procs: map<WorkerId, Proc>,
    hist: History)

  const Initial :=
    State(map[], map[], map[], map[], map[], {}, multiset{}, map[], map[], History({}, {}, {}, map[], map[]))

  function RepoOf(repos: map<RepoId, Repo>, r: RepoId): Repo {
    if r in repos then repos[r] else NoRepo
  }

  // ---------------------------------------------------------------------------
  // Row contents
  // ---------------------------------------------------------------------------

  function SucceededRow(row: Row, failedFiles: map<Path, string>, failedDeletes: set<Path>): Row {
    row.(state := Succeeded, failedFiles := failedFiles, failedDeletes := failedDeletes)
  }

  function FailedRow(row: Row, reason: string): Row {
    row.(state := RowFailed, failedFiles := AllFailed(row, reason), failedDeletes := row.deletes)
  }

  function AllFailed(row: Row, reason: string): map<Path, string> {
    map p | p in row.files :: reason
  }

  function Committed(repo: Repo, c: Commit, updated: Leaves, token: Version): Repo {
    Repo(updated, token, repo.issued[token := updated], repo.log + [c], repo.past + [updated])
  }

  /** CheckAllBatchesTerminal: at least one row and none pending. */
  predicate AllTerminal(rows: map<Key, Row>, s: SyncId) {
    forall k | k in rows && k.sync == s :: !rows[k].state.Pending?
  }

  predicate Ready(rows: map<Key, Row>, s: SyncId) {
    (exists k | k in rows :: k.sync == s) && AllTerminal(rows, s)
  }

  // ---------------------------------------------------------------------------
  // The delta of a session's terminal rows
  // ---------------------------------------------------------------------------

  predicate RowProcessesFile(row: Row, p: Path) {
    !row.state.Pending? && p in row.files && p !in row.failedFiles
  }

  predicate RowProcessesDelete(row: Row, p: Path) {
    !row.state.Pending? && p in row.deletes && p !in row.failedDeletes
  }

  predicate ProcessesFile(rows: map<Key, Row>, s: SyncId, p: Path) {
    exists k | k in rows :: k.sync == s && RowProcessesFile(rows[k], p)
  }

  predicate ProcessesDelete(rows: map<Key, Row>, s: SyncId, p: Path) {
    exists k | k in rows :: k.sync == s && RowProcessesDelete(rows[k], p)
  }

  /** d is what reading the session's non-pending rows in some order yields. */
  ghost predicate IsDelta(rows: map<Key, Row>, s: SyncId, d: Delta) {
    && (forall p :: p in d.files <==> ProcessesFile(rows, s, p))
    && (forall p :: p in d.deletes <==> ProcessesDelete(rows, s, p))
    && (forall p | p in d.files ::
          exists k | k in rows :: k.sync == s && RowProcessesFile(rows[k], p) && rows[k].files[p] == d.files[p])
  }

  /** The same read off the rows one by one. */
  predicate ReadsFiles(rows: map<Key, Row>, s: SyncId, d: Delta) {
    && (forall k, p | k in rows && p in rows[k].files :: k.sync == s && RowProcessesFile(rows[k], p) ==> p in d.files)
    && (forall p | p in d.files ::
          exists k | k in rows :: k.sync == s && RowProcessesFile(rows[k], p) && rows[k].files[p] == d.files[p])
  }

  predicate ReadsDeletes(rows: map<Key, Row>, s: SyncId, d: Delta) {
    && (forall k, p | k in rows && p in rows[k].deletes :: k.sync == s && RowProcessesDelete(rows[k], p) ==>
         p in d.deletes)
    && (forall p | p in d.deletes :: ProcessesDelete(rows, s, p))
  }

  lemma ReadsExact(rows: map<Key, Row>, s: SyncId, d: Delta)
    ensures ReadsFiles(rows, s, d) && ReadsDeletes(rows, s, d) <==> IsDelta(rows, s, d)
  {
    if ReadsFiles(rows, s, d) && ReadsDeletes(rows, s, d) {
      forall p ensures p in d.files <==> ProcessesFile(rows, s, p) { }
      forall p ensures p in d.deletes <==> ProcessesDelete(rows, s, p) { }
    }
    if IsDelta(rows, s, d) {
      forall k, p | k in rows && p in rows[k].files && k.sync == s && RowProcessesFile(rows[k], p)
        ensures p in d.files {
        assert ProcessesFile(rows, s, p);
      }
      forall k, p | k in rows && p in rows[k].deletes && k.sync == s && RowProcessesDelete(rows[k], p)
        ensures p in d.deletes {
        assert ProcessesDelete(rows, s, p);
      }
    }
  }

  predicate ReadsAs(rows: map<Key, Row>, s: SyncId, d: Delta)
    ensures ReadsAs(rows, s, d) <==> IsDelta(rows, s, d)
  {
    ReadsExact(rows, s, d);
    ReadsFiles(rows, s, d) && ReadsDeletes(rows, s, d)
  }
}
