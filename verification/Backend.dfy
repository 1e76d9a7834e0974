/** The storage the handlers work on, updated in place: the tables, the content store and the
    versioned trees. Every operation is atomic, may fail, and is recorded in the trace of the run;
    between two operations of one delivery any other part of the service may act. */
module Backend {
  import opened Wrappers

  import opened MerkleTree
  import opened SyncState
  import opened SyncMachine

  datatype LoadResult = Loaded(repo: Repo) | LoadFailed | LoadPermanent

  datatype SaveResult = Saved | Mismatch | SaveFailed | SavePermanent

  // ---------------------------------------------------------------------------
  // The delta read off a list of rows
  // ---------------------------------------------------------------------------

  function ProcessedFiles(row: Row): Leaves {
    map p | p in row.files && p !in row.failedFiles :: row.files[p]
  }

  function FilesOf(list: seq<Row>): Leaves {
    if list == [] then map[] else FilesOf(list[..|list| - 1]) + ProcessedFiles(list[|list| - 1])
  }

  function DeletesOf(list: seq<Row>): set<Path> {
    if list == [] then {}
    else DeletesOf(list[..|list| - 1]) + (list[|list| - 1].deletes - list[|list| - 1].failedDeletes)
  }

  /** The list holds the non-pending rows of the session, in some order. */
  ghost predicate TerminalRows(rows: map<Key, Row>, s: SyncId, list: seq<Row>) {
    && (forall row | row in list :: exists k | k in rows :: k.sync == s && rows[k] == row && !row.state.Pending?)
    && (forall k | k in rows && k.sync == s && !rows[k].state.Pending? :: rows[k] in list)
  }

  lemma {:induction false} FilesOfExact(list: seq<Row>, p: Path)
    ensures p in FilesOf(list) <==> exists row | row in list :: p in row.files && p !in row.failedFiles
    ensures p in FilesOf(list) ==>
      exists row | row in list :: p in row.files && p !in row.failedFiles && row.files[p] == FilesOf(list)[p]
  {
    if list != [] {
      var front, last := list[..|list| - 1], list[|list| - 1];
      FilesOfExact(front, p);
      assert list == front + [last];
    }
  }

  lemma {:induction false} DeletesOfExact(list: seq<Row>, p: Path)
    ensures p in DeletesOf(list) <==> exists row | row in list :: p in row.deletes && p !in row.failedDeletes
  {
    if list != [] {
      var front, last := list[..|list| - 1], list[|list| - 1];
      DeletesOfExact(front, p);
      assert list == front + [last];
    }
  }

  /** Any order of the rows yields a delta of the session. */
  lemma TerminalRowsDelta(rows: map<Key, Row>, s: SyncId, list: seq<Row>)
    requires TerminalRows(rows, s, list)
    ensures IsDelta(rows, s, Delta(FilesOf(list), DeletesOf(list)))
  {
    forall p ensures p in FilesOf(list) <==> ProcessesFile(rows, s, p) {
      FilesOfExact(list, p);
    }
    forall p ensures p in DeletesOf(list) <==> ProcessesDelete(rows, s, p) {
      DeletesOfExact(list, p);
    }
    forall p | p in FilesOf(list)
      ensures exists k | k in rows ::
        k.sync == s && RowProcessesFile(rows[k], p) && rows[k].files[p] == FilesOf(list)[p]
    {
      FilesOfExact(list, p);
      var row :| row in list && p in row.files && p !in row.failedFiles && row.files[p] == FilesOf(list)[p];
      var k :| k in rows && k.sync == s && rows[k] == row && !row.state.Pending?;
      assert RowProcessesFile(rows[k], p);
    }
  }

  // ---------------------------------------------------------------------------
  // The tables one operation writes
  // ---------------------------------------------------------------------------

  /** The tables of `st` but for the record of the deliveries. */
  function Tables(st: State, before: State): State {
    st.(procs := before.procs, hist := before.hist)
  }

  lemma ReadTables(st: State, w: WorkerId, reply: Reply)
    requires w in st.procs
    requires (st.procs[w].Stream? ==> st.procs[w].pc.AtGet? || st.procs[w].pc.AtLoadSession? || st.procs[w].pc.AtIndex?)
    requires st.procs[w].Final? ==>
      st.procs[w].fpc.AtLoadFinalizing? || st.procs[w].fpc.AtLoadRows? || st.procs[w].fpc.AtLoadTree?
    ensures Tables(Next(st, Step(w, reply)), st) == st
    ensures Next(st, Step(w, reply)).procs == st.procs[w := NextProc(st, st.procs[w], reply)]
  {
  }

  lemma MarkTables(st: State, w: WorkerId, reply: Reply)
    requires w in st.procs && st.procs[w].Stream? && (st.procs[w].pc.AtMarkFailed? || st.procs[w].pc.AtMarkSucceeded?)
    ensures var p := st.procs[w];
      Tables(Next(st, Step(w, reply)), st) ==
        if MarksRow(st, p, reply) then st.(rows := st.rows[p.key := MarkedRow(st.rows[p.key], p.pc)]) else st
    ensures Next(st, Step(w, reply)).procs == st.procs[w := NextProc(st, st.procs[w], reply)]
  {
  }

  lemma MarkedTables(
    st: State, after: State, w: WorkerId, key: Key, final: bool, pc: BatchPc, row: Row, reply: Reply, applied: bool)
    requires w in st.procs && st.procs[w] == Stream(key, final, pc, false, false)
    requires (pc.AtMarkFailed? || pc.AtMarkSucceeded?)
    requires applied ==> key in st.rows && st.rows[key].state.Pending? && row == MarkedRow(st.rows[key], pc)
    requires after == if applied then st.(rows := st.rows[key := row]) else st
    requires reply == Fault(applied) || (reply == Fine && (applied || key !in st.rows || !st.rows[key].state.Pending?))
    ensures after == Tables(Next(st, Step(w, reply)), st) && CanStep(st, w, reply)
    ensures Next(st, Step(w, reply)).procs == st.procs[w := NextProc(st, st.procs[w], reply)]
  {
    MarkTables(st, w, reply);
  }

  lemma DelTables(st: State, w: WorkerId, reply: Reply)
    requires w in st.procs && st.procs[w].Stream? && st.procs[w].pc.AtDel?
    ensures Tables(Next(st, Step(w, reply)), st) == if reply != Fault(false)
      then st.(redis := st.redis - {st.procs[w].key}) else st
    ensures Next(st, Step(w, reply)).procs == st.procs[w := NextProc(st, st.procs[w], reply)]
  {
  }

  lemma TriggerTables(st: State, w: WorkerId, reply: Reply)
    requires w in st.procs && st.procs[w].Stream? && st.procs[w].pc.AtTrigger?
    ensures var s := st.procs[w].key.sync;
      Tables(Next(st, Step(w, reply)), st) ==
        if Flips(st, st.procs[w], reply)
        then st.(sessions := st.sessions[s := st.sessions[s].(status := Finalizing)],
                 outbox := if FinalizeTask(s) in st.outbox then st.outbox
                   else st.outbox[FinalizeTask(s) := OutboxRow(OutboxPending, false)])
        else st
    ensures Next(st, Step(w, reply)).procs == st.procs[w := NextProc(st, st.procs[w], reply)]
  {
  }

  lemma SaveTables(st: State, w: WorkerId, reply: Reply)
    requires w in st.procs && st.procs[w].Final? && st.procs[w].fpc.AtSaveTree?
    ensures var pc := st.procs[w].fpc;
      Tables(Next(st, Step(w, reply)), st) ==
        if Saves(st, st.procs[w], reply)
        then st.(repos :=
          st.repos[pc.repo := Committed(RepoOf(st.repos, pc.repo), Commit(st.procs[w].sync, w, pc.delta),
                                                        ApplyChanges(pc.tree, pc.delta), reply.version)])
        else st
    ensures Next(st, Step(w, reply)).procs == st.procs[w := NextProc(st, st.procs[w], reply)]
  {
  }

  lemma SavedTables(st: State, w: WorkerId, s: SyncId, final: bool, pc: FinalPc, reply: Reply)
    requires w in st.procs && st.procs[w] == Final(s, final, pc) && pc.AtSaveTree?
    requires reply == Fault(false) || reply.Permanent? || reply.Refused? ||
      ((reply.Token? || reply.TokenFault?) &&
        FreshToken(RepoOf(st.repos, pc.repo), reply.version, ApplyChanges(pc.tree, pc.delta)))
    ensures CanStep(st, w, reply)
    ensures Tables(Next(st, Step(w, reply)), st) ==
      if (reply.Token? || reply.TokenFault?) && RepoOf(st.repos, pc.repo).version == pc.version
      then st.(repos := st.repos[pc.repo := Committed(RepoOf(st.repos, pc.repo), Commit(s, w, pc.delta),
                                                      ApplyChanges(pc.tree, pc.delta), reply.version)])
      else st
    ensures Next(st, Step(w, reply)).procs == st.procs[w := Final(s, final,
      AfterSave(RepoOf(st.repos, pc.repo), pc.repo, pc.delta, pc.attempt, pc.base, pc.refused, pc.version, reply))]
  {
    SaveTables(st, w, reply);
  }

  /** Where the handler goes on a save's result, when `landed` commits had landed before it and
      `refused` saves were refused up to and including it. */
  function AfterSaved(
    result: SaveResult, landed: nat, r: RepoId, d: Delta, attempt: nat, base: nat, refused: nat): FinalPc
  {
    match result
    case SaveFailed => FinalReturned(true)
    case SavePermanent => AtFail("merkle_storage_permanent", r, base, refused)
    case Saved => AtMarkDone(Outcome(r, d, landed + 1, true))
    case Mismatch =>
      if attempt + 1 < MAX_MERKLE_CAS_ATTEMPTS then AtLoadTree(r, d, attempt + 1, base, refused)
      else AtFail("merkle_cas_exhausted", r, base, refused)
  }

  lemma AfterResult(
    repo: Repo, r: RepoId, d: Delta, attempt: nat, base: nat, refused: nat, version: Version, reply: Reply,
    result: SaveResult)
    requires reply == Fault(false) || reply.Permanent? || reply.Refused? || reply.Token? || reply.TokenFault?
    requires result == match reply
      case Permanent => SavePermanent
      case Refused => Mismatch
      case Token(_) => (if repo.version == version then Saved else Mismatch)
      case _ => SaveFailed
    ensures AfterSave(repo, r, d, attempt, base, refused, version, reply) ==
      AfterSaved(result, |repo.log|, r, d, attempt, base, refused + if reply.Refused? then 1 else 0)
  {
  }

  lemma CloseTables(st: State, w: WorkerId, reply: Reply)
    requires w in st.procs && st.procs[w].Final? && (st.procs[w].fpc.AtMarkDone? || st.procs[w].fpc.AtFail?)
    ensures var s := st.procs[w].sync;
      Tables(Next(st, Step(w, reply)), st) ==
        if Finishes(st, st.procs[w], reply) then st.(sessions := st.sessions[s := st.sessions[s].(status := Done)])
        else if Fails(st, st.procs[w], reply)
        then st.(sessions :=
          st.sessions[s := st.sessions[s].(status := Failed, failedReason := st.procs[w].fpc.reason)])
        else st
    ensures Next(st, Step(w, reply)).procs == st.procs[w := NextProc(st, st.procs[w], reply)]
  {
  }

  // ---------------------------------------------------------------------------
  // The store
  // ---------------------------------------------------------------------------

  /** A label of the delivery itself. */
  predicate By(l: Label, w: WorkerId) {
    match l
    case Step(v, _) => v == w
    case Finish(v) => v == w
    case Crash(v) => v == w
    case _ => false
  }

  class Store {
    var db: State
    ghost var trace: seq<Label>
    ghost var states: seq<State>

    constructor ()
      ensures Valid() && trace == [] && db == Initial
    {
      db, trace, states := Initial, [], [Initial];
    }

    /** The store is where a legal run has left it. */
    ghost predicate Valid()
      reads this
    {
      Passes(trace, states) && states[|trace|] == db
    }

    lemma ValidLegal()
      requires Valid()
      ensures Legal(trace) && After(trace) == db
    {
      PassesLegally(trace, states);
    }

    method Apply(l: Label)
      requires Valid() && Enabled(db, l)
      modifies this
      ensures Valid() && trace == old(trace) + [l] && db == Next(old(db), l)
    {
      PassesOn(trace, states, l);
      db := Next(db, l);
      trace, states := trace + [l], states + [db];
    }

    /** Whatever the rest of the service does between two operations of a delivery. */
    method Others(w: WorkerId)
      requires Valid() && w in db.procs
      modifies this
      ensures Valid() && old(trace) <= trace && w in db.procs && db.procs[w] == old(db).procs[w]
    {
      var steps: nat := *;
      while steps > 0
        invariant Valid() && old(trace) <= trace && w in db.procs && db.procs[w] == old(db).procs[w]
      {
        var l: Label := *;
        if Enabled(db, l) && !By(l, w) {
          Apply(l);
        }
        steps := steps - 1;
      }
    }

    /** The same between two operations of a request. */
    method Meanwhile()
      requires Valid()
      modifies this
      ensures Valid() && old(trace) <= trace
    {
      var steps: nat := *;
      while steps > 0
        invariant Valid() && old(trace) <= trace
      {
        var l: Label := *;
        if Enabled(db, l) {
          Apply(l);
        }
        steps := steps - 1;
      }
    }

    /** Completes a request's operation that has written its tables since `before`. */
    method RecordRequest(ghost before: State, ghost l: Label)
      requires Passes(trace, states) && states[|trace|] == before && Enabled(before, l)
      requires db == Next(before, l)
      modifies this`trace, this`states
      ensures Valid() && trace == old(trace) + [l]
    {
      PassesOn(trace, states, l);
      trace, states := trace + [l], states + [db];
    }

    /** Completes an operation that has written its tables since `before`. */
    method Record(before: State, w: WorkerId, reply: Reply)
      requires Passes(trace, states) && states[|trace|] == before && CanStep(before, w, reply)
      requires db == Tables(Next(before, Step(w, reply)), before)
      modifies this
      ensures Valid() && trace == old(trace) + [Step(w, reply)] && db == Next(before, Step(w, reply))
    {
      PassesOn(trace, states, Step(w, reply));
      db := Next(before, Step(w, reply));
      trace, states := trace + [Step(w, reply)], states + [db];
    }

    // -------------------------------------------------------------------------
    // Operations of a batch delivery
    // -------------------------------------------------------------------------

    ghost predicate Serving(w: WorkerId, key: Key, final: bool, pc: BatchPc)
      reads this
    {
      w in db.procs &&
        db.procs[w] == Stream(key, final, pc, pc.AtTrigger? || pc == BatchReturned(false), pc == BatchReturned(false))
    }

    /** One more step of the delivery was recorded. */
    ghost predicate Took(before: seq<Label>, w: WorkerId)
      reads this
    {
      |trace| == |before| + 1 && trace[..|before|] == before && trace[|before|].Step? && trace[|before|].w == w
    }

    method RedisGet(w: WorkerId, key: Key, ghost final: bool) returns (content: Option<Content>, err: bool)
      requires Valid() && Serving(w, key, final, AtGet)
      modifies this
      ensures Valid() && trace == old(trace) + [Step(w, if err then Fault(false) else Fine)]
      ensures !err ==> content == if key in old(db).redis then Some(old(db).redis[key]) else None
      ensures Serving(w, key, final,
        if err then BatchReturned(true)
        else match content
          case None => AtMarkFailed("content_missing")
          case Some(Garbled) => AtMarkFailed("decode_error")
          case Some(Intact(files, deletes)) => AtLoadSession(files, deletes))
    {
      err := *;
      content := if key in db.redis then Some(db.redis[key]) else None;
      ReadTables(db, w, if err then Fault(false) else Fine);
      Record(db, w, if err then Fault(false) else Fine);
    }

    method LoadSession(w: WorkerId, key: Key, ghost final: bool, files: Leaves, deletes: set<Path>)
      returns (session: Option<Session>, err: bool)
      requires Valid() && Serving(w, key, final, AtLoadSession(files, deletes))
      modifies this
      ensures Valid() && trace == old(trace) + [Step(w, if err then Fault(false) else Fine)]
      ensures !err ==> session == if key.sync in old(db).sessions then Some(old(db).sessions[key.sync]) else None
      ensures Serving(w, key, final,
        if err then BatchReturned(true)
        else if session.None? then AtDel
        else if session.value.status.Receiving? || session.value.status.Processing? then AtIndex(files, deletes)
        else AtMarkFailed("session_no_longer_updatable"))
    {
      err := *;
      session := if key.sync in db.sessions then Some(db.sessions[key.sync]) else None;
      ReadTables(db, w, if err then Fault(false) else Fine);
      Record(db, w, if err then Fault(false) else Fine);
    }

    /** The pipeline: an error, or a partition of its input into processed and failed. */
    method IndexChangedFiles(w: WorkerId, key: Key, final: bool, files: Leaves, deletes: set<Path>)
      returns (indexing: Indexing)
      requires Valid() && Serving(w, key, final, AtIndex(files, deletes))
      modifies this
      ensures Valid() && trace == old(trace) + [Step(w, Stats(indexing))]
      ensures indexing.Indexed? ==> indexing.failedFiles.Keys <= files.Keys && indexing.failedDeletes <= deletes
      ensures Serving(w, key, final,
        match indexing
        case Indexed(ff, fd) => AtMarkSucceeded(ff, fd)
        case TerminalError(reason) => AtMarkFailed(if reason == "" then "pipeline_terminal" else reason)
        case RetryableError(reason) => if final then AtMarkFailed(reason) else BatchReturned(true))
    {
      indexing := *;
      if indexing.Indexed? && !(indexing.failedFiles.Keys <= files.Keys && indexing.failedDeletes <= deletes) {
        indexing :=
          Indexed(map p | p in indexing.failedFiles && p in files ::
            indexing.failedFiles[p], indexing.failedDeletes * deletes);
      }
      ReadTables(db, w, Stats(indexing));
      Record(db, w, Stats(indexing));
    }

    /** The update of a batch row that is guarded by state = 'pending'. */
    method UpdatePending(key: Key, state: RowState, failedFiles: map<Path, string>, failedDeletes: set<Path>)
      returns (applied: bool)
      modifies this`db
      ensures applied <==> key in old(db).rows && old(db).rows[key].state.Pending?
      ensures db == if applied
        then old(db).(rows :=
          old(db).rows[key :=
            old(db).rows[key].(state := state, failedFiles := failedFiles, failedDeletes := failedDeletes)])
        else old(db)
    {
      applied := key in db.rows && db.rows[key].state.Pending?;
      if applied {
        db := db.(rows :=
          db.rows[key := db.rows[key].(state := state, failedFiles := failedFiles, failedDeletes := failedDeletes)]);
      }
    }

    method MarkBatchFailed(w: WorkerId, key: Key, ghost final: bool, reason: string)
      returns (applied: bool, err: bool)
      requires Valid() && Serving(w, key, final, AtMarkFailed(reason))
      modifies this
      ensures Valid() && Took(old(trace), w) && Serving(w, key, final, AtDel)
      ensures applied ==>
        key in old(db).rows && old(db).rows[key].state.Pending? &&
          db.rows == old(db).rows[key := FailedRow(old(db).rows[key], reason)]
      ensures !applied ==> db.rows == old(db).rows
      ensures !applied && !err ==> key !in db.rows || !db.rows[key].state.Pending?
    {
      var before := db;
      err := *;
      applied := *;
      if !err || applied {
        applied := key in db.rows;
        if applied {
          applied := UpdatePending(key, RowFailed, AllFailed(db.rows[key], reason), db.rows[key].deletes);
        }
      }
      var reply := if err then Fault(applied) else Fine;
      MarkedTables(before, db, w, key, before.procs[w].final, before.procs[w].pc,
        if applied then db.rows[key] else NewRow(Batch(map[], {})), reply, applied);
      Record(before, w, reply);
    }

    method MarkBatchSucceeded(
      w: WorkerId, key: Key, final: bool, failedFiles: map<Path, string>, failedDeletes: set<Path>)
      returns (applied: bool, err: bool)
      requires Valid() && Serving(w, key, final, AtMarkSucceeded(failedFiles, failedDeletes))
      modifies this
      ensures Valid() && Took(old(trace), w)
      ensures Serving(w, key, final,
        if !err then AtDel else if final then AtMarkFailed("db_merge_exhausted") else BatchReturned(true))
      ensures applied ==>
        key in old(db).rows && old(db).rows[key].state.Pending? &&
          db.rows == old(db).rows[key := SucceededRow(old(db).rows[key], failedFiles, failedDeletes)]
      ensures !applied ==> db.rows == old(db).rows
      ensures !applied && !err ==> key !in db.rows || !db.rows[key].state.Pending?
    {
      var before := db;
      err := *;
      applied := *;
      if !err || applied {
        applied := UpdatePending(key, Succeeded, failedFiles, failedDeletes);
      }
      var reply := if err then Fault(applied) else Fine;
      MarkedTables(before, db, w, key, before.procs[w].final, before.procs[w].pc,
        if applied then db.rows[key] else NewRow(Batch(map[], {})), reply, applied);
      Record(before, w, reply);
    }

    method RedisDel(w: WorkerId, key: Key, ghost final: bool) returns (err: bool)
      requires Valid() && Serving(w, key, final, AtDel)
      modifies this
      ensures Valid() && Took(old(trace), w) && Serving(w, key, final, AtTrigger)
      ensures db.redis == old(db).redis - {key} || (err && db.redis == old(db).redis)
    {
      var before := db;
      err := *;
      var deleted: bool := *;
      var reply := if err then Fault(deleted) else Fine;
      DelTables(before, w, reply);
      if !err || deleted {
        db := db.(redis := db.redis - {key});
      }
      Record(before, w, reply);
    }

    /** The transaction of TryEnqueue: lock the session, check that every batch is terminal, flip
        it to finalizing and insert the finalizer's outbox row. */
    method FlipIfReady(s: SyncId)
      modifies this`db
      ensures db == Flipped(old(db), s)
    {
      if s !in db.sessions {
        return;
      }
      if !db.sessions[s].status.Processing? {
        return;
      }
      if !Ready(db.rows, s) {
        return;
      }
      db := db.(sessions := db.sessions[s := db.sessions[s].(status := Finalizing)]);
      if FinalizeTask(s) !in db.outbox {
        db := db.(outbox := db.outbox[FinalizeTask(s) := OutboxRow(OutboxPending, false)]);
      }
    }

    /** The session with its finalizer's outbox row, when all its batches are terminal. */
    function Flipped(st: State, s: SyncId): State {
      if s in st.sessions && st.sessions[s].status.Processing? && Ready(st.rows, s)
      then st.(sessions := st.sessions[s := st.sessions[s].(status := Finalizing)],
               outbox := if FinalizeTask(s) in st.outbox then st.outbox
                 else st.outbox[FinalizeTask(s) := OutboxRow(OutboxPending, false)])
      else st
    }

    /** The transaction may fail, before or after it took effect; the error is only logged. */
    method TryEnqueue(w: WorkerId, key: Key, ghost final: bool) returns (err: bool)
      requires Valid() && Serving(w, key, final, AtTrigger)
      modifies this
      ensures Valid() && Took(old(trace), w) && Serving(w, key, final, BatchReturned(false))
      ensures var now := Tables(db, old(db)); now == Flipped(old(db), key.sync) || (err && now == old(db))
    {
      var before := db;
      err := *;
      var committed: bool := *;
      var reply := if err then Fault(committed) else Fine;
      TriggerTables(before, w, reply);
      if !err || committed {
        FlipIfReady(key.sync);
      }
      Record(before, w, reply);
    }

    // -------------------------------------------------------------------------
    // Operations of a finalize delivery
    // -------------------------------------------------------------------------

    ghost predicate Closing(w: WorkerId, s: SyncId, final: bool, pc: FinalPc)
      reads this
    {
      w in db.procs && db.procs[w] == Final(s, final, pc)
    }

    method LoadFinalizing(w: WorkerId, s: SyncId, ghost final: bool) returns (session: Option<Session>, err: bool)
      requires Valid() && Closing(w, s, final, AtLoadFinalizing)
      modifies this
      ensures Valid() && Took(old(trace), w)
      ensures !err ==> session == if s in old(db).sessions then Some(old(db).sessions[s]) else None
      ensures Closing(w, s, final,
        if err then FinalReturned(true)
        else if session.None? || !session.value.status.Finalizing? then FinalReturned(false)
        else AtLoadRows(session.value.repo))
    {
      err := *;
      session := if s in db.sessions then Some(db.sessions[s]) else None;
      ReadTables(db, w, if err then Fault(false) else Fine);
      Record(db, w, if err then Fault(false) else Fine);
    }

    /** The non-pending rows of the session, in any order. */
    method TerminalResults(s: SyncId) returns (list: seq<Row>)
      ensures TerminalRows(db.rows, s, list)
    {
      var todo := set k | k in db.rows && k.sync == s && !db.rows[k].state.Pending?;
      list := [];
      while todo != {}
        invariant forall k | k in todo :: k in db.rows && k.sync == s && !db.rows[k].state.Pending?
        invariant forall row | row in list :: exists k | k in db.rows ::
          k.sync == s && db.rows[k] == row && !row.state.Pending?
        invariant forall k | k in db.rows && k.sync == s && !db.rows[k].state.Pending? ::
          k in todo || db.rows[k] in list
      {
        var k :| k in todo;
        list, todo := list + [db.rows[k]], todo - {k};
      }
    }

    method LoadTerminalResults(w: WorkerId, s: SyncId, ghost final: bool, ghost r: RepoId)
      returns (list: seq<Row>, err: bool, ghost base: nat)
      requires Valid() && Closing(w, s, final, AtLoadRows(r))
      modifies this
      ensures Valid() && Took(old(trace), w)
      ensures !err ==> TerminalRows(old(db).rows, s, list)
      ensures var delta := Delta(FilesOf(list), DeletesOf(list));
        Closing(w, s, final,
          if err then FinalReturned(true)
          else if delta == Delta(map[], {}) then AtFail("all_operations_failed", r, base, 0)
          else AtLoadTree(r, delta, 0, base, 0))
    {
      err := *;
      list := TerminalResults(s);
      base := if Delta(FilesOf(list), DeletesOf(list)) == Delta(map[], {}) then 0 else |RepoOf(db.repos, r).log|;
      TerminalRowsDelta(db.rows, s, list);
      var reply := if err then Fault(false) else Results(Delta(FilesOf(list), DeletesOf(list)));
      ReadTables(db, w, reply);
      Record(db, w, reply);
    }

    method LoadTreeWithVersion(
      w: WorkerId, s: SyncId, ghost final: bool, r: RepoId,
      ghost delta: Delta, ghost attempt: nat, ghost base: nat, ghost refused: nat)
      returns (result: LoadResult)
      requires Valid() && Closing(w, s, final, AtLoadTree(r, delta, attempt, base, refused))
      modifies this
      ensures Valid() && Took(old(trace), w)
      ensures result.Loaded? ==> result.repo == RepoOf(old(db).repos, r)
      ensures Closing(w, s, final,
        match result
        case LoadFailed => FinalReturned(true)
        case LoadPermanent => AtFail("merkle_storage_permanent", r, base, refused)
        case Loaded(repo) => AfterLoad(repo, r, delta, attempt, base, refused, Fine))
    {
      result := *;
      if result.Loaded? {
        result := Loaded(RepoOf(db.repos, r));
      }
      var reply := match result case Loaded(_) => Fine case LoadFailed => Fault(false) case LoadPermanent => Permanent;
      ReadTables(db, w, reply);
      Record(db, w, reply);
    }

    /** A token no tree but this one has. */
    method NewToken(repo: Repo, tree: Leaves) returns (token: Version)
      ensures FreshToken(repo, token, tree)
    {
      var first: Version := *;
      token := FirstFree((set v | v in repo.issued && repo.issued[v] != tree) + {0}, first);
    }

    /** The conditional put: it takes effect when the stored version is the expected one. */
    method PutIfMatch(r: RepoId, version: Version, updated: Leaves, token: Version, c: Commit)
      modifies this`db
      ensures db == if RepoOf(old(db).repos, r).version == version
        then old(db).(repos := old(db).repos[r := Committed(RepoOf(old(db).repos, r), c, updated, token)]) else old(db)
    {
      var repo := RepoOf(db.repos, r);
      if repo.version == version {
        db := db.(repos :=
          db.repos[r := Repo(updated, token, repo.issued[token := updated], repo.log + [c], repo.past + [updated])]);
      }
    }

    method SaveReply(repo: Repo, updated: Leaves) returns (reply: Reply)
      ensures reply == Fault(false) || reply.Permanent? || reply.Refused? ||
        ((reply.Token? || reply.TokenFault?) && FreshToken(repo, reply.version, updated))
    {
      var token := NewToken(repo, updated);
      reply := *;
      if !(reply == Fault(false) || reply.Permanent? || reply.Refused?) {
        reply := if reply.TokenFault? then TokenFault(token) else Token(token);
      }
    }

    /** A version other than the expected one is a mismatch, and so is the storage's refusal of a
        request that meets another one. */
    method SaveTreeIfUnchanged(
      w: WorkerId, s: SyncId, ghost final: bool, r: RepoId, delta: Delta,
      ghost attempt: nat, ghost base: nat, ghost refused: nat,
      tree: Leaves, updated: Leaves, version: Version, ghost at: nat)
      returns (result: SaveResult, ghost refusal: bool)
      requires Valid() && Closing(w, s, final, AtSaveTree(r, delta, attempt, base, refused, tree, version, at))
      requires updated == ApplyChanges(tree, delta)
      modifies this
      ensures Valid() && Took(old(trace), w)
      ensures Closing(w, s, final,
        AfterSaved(result, |RepoOf(old(db).repos, r).log|, r, delta, attempt, base, refused + if refusal then 1 else 0))
      ensures result.Saved? ==> RepoOf(db.repos, r).tree == updated && RepoOf(old(db).repos, r).version == version
      ensures result.Mismatch? ==> db.repos == old(db).repos && (refusal || RepoOf(db.repos, r).version != version)
      ensures refusal ==> result.Mismatch?
    {
      var before := db;
      var repo := RepoOf(db.repos, r);
      var reply := SaveReply(repo, updated);
      SavedTables(before, w, s, final, db.procs[w].fpc, reply);
      if reply.Token? || reply.TokenFault? {
        PutIfMatch(r, version, updated, reply.version, Commit(s, w, delta));
      }
      result := match reply
        case Permanent => SavePermanent
        case Refused => Mismatch
        case Token(_) => if repo.version == version then Saved else Mismatch
        case _ => SaveFailed;
      refusal := reply.Refused?;
      AfterResult(repo, r, delta, attempt, base, refused, version, reply, result);
      Record(before, w, reply);
    }

    /** The session, done when it was finalizing. */
    function WithDone(st: State, s: SyncId): State {
      if s in st.sessions && st.sessions[s].status.Finalizing?
      then st.(sessions := st.sessions[s := st.sessions[s].(status := Done)]) else st
    }

    /** The session, failed when it was active. */
    function WithFailed(st: State, s: SyncId, reason: string): State {
      if s in st.sessions && IsActive(st.sessions[s].status)
      then st.(sessions := st.sessions[s := st.sessions[s].(status := Failed, failedReason := reason)]) else st
    }

    method UpdateDone(s: SyncId)
      modifies this`db
      ensures db == WithDone(old(db), s)
    {
      if s in db.sessions && db.sessions[s].status.Finalizing? {
        db := db.(sessions := db.sessions[s := db.sessions[s].(status := Done)]);
      }
    }

    method UpdateFailed(s: SyncId, reason: string)
      modifies this`db
      ensures db == WithFailed(old(db), s, reason)
    {
      if s in db.sessions && IsActive(db.sessions[s].status) {
        db := db.(sessions := db.sessions[s := db.sessions[s].(status := Failed, failedReason := reason)]);
      }
    }

    /** The update may fail, before or after it took effect; the error is returned. */
    method MarkDone(w: WorkerId, s: SyncId, ghost final: bool, ghost outcome: Outcome) returns (err: bool)
      requires Valid() && Closing(w, s, final, AtMarkDone(outcome))
      modifies this
      ensures Valid() && Took(old(trace), w) && Closing(w, s, final, FinalReturned(err))
      ensures var now := Tables(db, old(db)); now == WithDone(old(db), s) || (err && now == old(db))
    {
      var before := db;
      err := *;
      var written: bool := *;
      var reply := if err then Fault(written) else Fine;
      CloseTables(before, w, reply);
      if !err || written {
        UpdateDone(s);
      }
      Record(before, w, reply);
    }

    method MarkFailed(
      w: WorkerId, s: SyncId, ghost final: bool, reason: string, ghost r: RepoId, ghost base: nat, ghost refused: nat)
      returns (err: bool)
      requires Valid() && Closing(w, s, final, AtFail(reason, r, base, refused))
      modifies this
      ensures Valid() && Took(old(trace), w) && Closing(w, s, final, FinalReturned(err))
      ensures var now := Tables(db, old(db)); now == WithFailed(old(db), s, reason) || (err && now == old(db))
    {
      var before := db;
      err := *;
      var written: bool := *;
      var reply := if err then Fault(written) else Fine;
      CloseTables(before, w, reply);
      if !err || written {
        UpdateFailed(s, reason);
      }
      Record(before, w, reply);
    }
  }
}
