/** The streaming sync service as a transition system. Every label is one atomic action of the
    API, the dispatcher, the janitor, the queue or one delivery of a task to a worker; deliveries
    of any number of tasks interleave, fail, crash and are repeated. The effect of a label is given
    table by table: each function lists the only labels that write its table. */
module SyncMachine {
  import opened MerkleTree
  import opened SyncState

  const MAX_MERKLE_CAS_ATTEMPTS: nat := 5

  // ---------------------------------------------------------------------------
  // Labels
  // ---------------------------------------------------------------------------

  /** IndexChangedFiles returns a partition of its input or an error. */
  datatype Indexing =
    | Indexed(failedFiles: map<Path, string>, failedDeletes: set<Path>)
    | TerminalError(reason: string)
    | RetryableError(reason: string)

  /** The reply to an operation. A transient fault may come after the write took effect. A save
      that finds its version carries the token it would leave; one that meets a concurrent request
      may be refused whatever its version. */
  datatype Reply =
    | Fine
    | Fault(applied: bool)
    | Permanent
    | Stats(indexing: Indexing)
    | Results(delta: Delta)
    | Token(version: Version)
    | TokenFault(version: Version)
    | Refused

  datatype Label =
    | CreateSession(s: SyncId, session: Session)
    | SetContent(key: Key, batch: Batch)
    | Admit(key: Key, batch: Batch, order: seq<Path>)
    | Claim(task: Task)
    | Enqueue(task: Task)
    | MarkEnqueued(task: Task)
    | ResetToPending(task: Task)
    | DropClaim(task: Task)
    | Expire(s: SyncId)
    | Collect(s: SyncId)
    | LoseContent(key: Key)
    | CorruptContent(key: Key)
    | Replace(repo: RepoId, tree: Leaves, token: Version)
    | Archive(task: Task)
    | Start(w: WorkerId, task: Task)
    | Step(w: WorkerId, reply: Reply)
    | Finish(w: WorkerId)
    | Crash(w: WorkerId)

  // ---------------------------------------------------------------------------
  // The API: /diff and /stream
  // ---------------------------------------------------------------------------

  predicate NoDuplicates<T(==)>(xs: seq<T>) {
    forall i, j | 0 <= i < j < |xs| :: xs[i] != xs[j]
  }

  predicate Lists(xs: seq<Path>, s: set<Path>) {
    NoDuplicates(xs) && (set p | p in xs) == s
  }

  /** The session /diff writes. The tree was loaded earlier: `diffedAt` changes had landed then.
      The explicit deletes of an incremental diff are taken as they come, repeats included. A
      session with nothing to do is born done. */
  predicate FreshSession(repos: map<RepoId, Repo>, x: Session) {
    var repo := RepoOf(repos, x.repo);
    && x.repo == x.identity
    && x.diffedAt < |repo.past|
    && x.expectedFiles == Need(repo.past[x.diffedAt], x.client)
    && (!x.incremental ==> Lists(x.expectedDeletes, Stale(repo.past[x.diffedAt], x.client)))
    && x.receivedFiles == map[] && x.receivedDeletes == []
    && x.status == (if x.expectedFiles == map[] && x.expectedDeletes == [] then Done else Receiving)
    && x.failedReason == ""
  }

  predicate NoActive(sessions: map<SyncId, Session>, identity: Identity) {
    forall s | s in sessions :: !(sessions[s].identity == identity && IsActive(sessions[s].status))
  }

  /** The row counts /stream compares to decide that this batch closes the session. */
  predicate Closes(x: Session) {
    |x.receivedFiles| == |x.expectedFiles| && |x.receivedDeletes| == |x.expectedDeletes|
  }

  /** validateBatchEntries and checkCrossBatchDeleteDedup. */
  predicate Valid(x: Session, b: Batch) {
    && (b.files != map[] || b.deletes != {})
    && (forall p | p in b.files :: p in x.expectedFiles && x.expectedFiles[p] == b.files[p])
    && (forall p | p in b.deletes :: p in x.expectedDeletes && p !in x.receivedDeletes)
    && b.files.Keys !! b.deletes
  }

  function Merge(x: Session, b: Batch, order: seq<Path>): Session {
    var y := x.(receivedFiles := x.receivedFiles + b.files, receivedDeletes := x.receivedDeletes + order);
    if Closes(y) then y.(status := Processing) else y
  }

  function NewRow(b: Batch): Row {
    Row(b.files, b.deletes, Pending, map[], {})
  }

  // ---------------------------------------------------------------------------
  // Deliveries
  // ---------------------------------------------------------------------------

  /** A token names one tree: it is new, or was issued before for this very tree. */
  predicate FreshToken(repo: Repo, token: Version, tree: Leaves) {
    token != 0 && (token in repo.issued ==> repo.issued[token] == tree)
  }

  /** The replies a batch delivery can get. */
  predicate BatchReply(pc: BatchPc, reply: Reply) {
    match pc
    case AtGet => reply.Fine? || reply == Fault(false)
    case AtLoadSession(_, _) => reply.Fine? || reply == Fault(false)
    case AtIndex(files, deletes) =>
      reply.Stats? && (reply.indexing.Indexed? ==>
        reply.indexing.failedFiles.Keys <= files.Keys && reply.indexing.failedDeletes <= deletes)
    case BatchReturned(_) => false
    case _ => reply.Fine? || reply.Fault?
  }

  predicate FinalReply(st: State, pc: FinalPc, reply: Reply) {
    match pc
    case AtLoadFinalizing => reply.Fine? || reply == Fault(false)
    case AtLoadRows(_) => reply == Fault(false) || reply.Results?
    case AtLoadTree(_, _, _, _, _) => reply.Fine? || reply == Fault(false) || reply.Permanent?
    case AtSaveTree(r, d, _, _, _, tree, _, _) =>
      || reply == Fault(false) || reply.Permanent? || reply.Refused?
      || ((reply.Token? || reply.TokenFault?) && FreshToken(RepoOf(st.repos, r), reply.version, ApplyChanges(tree, d)))
    case FinalReturned(_) => false
    case _ => reply.Fine? || reply.Fault?
  }

  function NextBatchPc(st: State, p: Proc, reply: Reply): BatchPc
    requires p.Stream?
  {
    var k := p.key;
    match p.pc
    case AtGet =>
      if reply.Fault? then BatchReturned(true)
      else if k !in st.redis then AtMarkFailed("content_missing")
      else if st.redis[k].Garbled? then AtMarkFailed("decode_error")
      else AtLoadSession(st.redis[k].files, st.redis[k].deletes)
    case AtLoadSession(files, deletes) =>
      if reply.Fault? then BatchReturned(true)
      else if k.sync !in st.sessions then AtDel
      else if st.sessions[k.sync].status.Receiving? || st.sessions[k.sync].status.Processing?
        then AtIndex(files, deletes)
      else AtMarkFailed("session_no_longer_updatable")
    case AtIndex(_, _) =>
      if !reply.Stats? then p.pc else
      (match reply.indexing
       case Indexed(ff, fd) => AtMarkSucceeded(ff, fd)
       case TerminalError(reason) => AtMarkFailed(if reason == "" then "pipeline_terminal" else reason)
       case RetryableError(reason) => if p.final then AtMarkFailed(reason) else BatchReturned(true))
    case AtMarkFailed(_) => AtDel
    case AtMarkSucceeded(_, _) =>
      if reply.Fine? then AtDel else if p.final then AtMarkFailed("db_merge_exhausted") else BatchReturned(true)
    case AtDel => AtTrigger
    case AtTrigger => BatchReturned(false)
    case BatchReturned(_) => p.pc
  }

  function NextFinalPc(st: State, p: Proc, reply: Reply): FinalPc
    requires p.Final?
  {
    var s := p.sync;
    match p.fpc
    case AtLoadFinalizing =>
      if reply.Fault? then FinalReturned(true)
      else if s !in st.sessions || !st.sessions[s].status.Finalizing? then FinalReturned(false)
      else AtLoadRows(st.sessions[s].repo)
    case AtLoadRows(r) =>
      if !reply.Results? then FinalReturned(true)
      else if reply.delta == Delta(map[], {}) then AtFail("all_operations_failed", r, 0, 0)
      else AtLoadTree(r, reply.delta, 0, |RepoOf(st.repos, r).log|, 0)
    case AtLoadTree(r, d, attempt, base, refused) =>
      AfterLoad(RepoOf(st.repos, r), r, d, attempt, base, refused, reply)
    case AtSaveTree(r, d, attempt, base, refused, _, version, _) =>
      AfterSave(RepoOf(st.repos, r), r, d, attempt, base, refused, version, reply)
    case AtMarkDone(_) => FinalReturned(!reply.Fine?)
    case AtFail(_, _, _, _) => FinalReturned(!reply.Fine?)
    case FinalReturned(_) => p.fpc
  }

  /** The equal-hash test of the loaded tree. A repository without a tree has the empty hash. */
  predicate HashUnchanged(repo: Repo, d: Delta) {
    repo.version != 0 && RootHash(ApplyChanges(repo.tree, d)) == RootHash(repo.tree)
  }

  function AfterLoad(repo: Repo, r: RepoId, d: Delta, attempt: nat, base: nat, refused: nat, reply: Reply): FinalPc {
    if reply.Fault? then FinalReturned(true)
    else if reply.Permanent? then AtFail("merkle_storage_permanent", r, base, refused)
    else if HashUnchanged(repo, d) then AtMarkDone(Outcome(r, d, |repo.log|, false))
    else AtSaveTree(r, d, attempt, base, refused, repo.tree, repo.version, |repo.log|)
  }

  function AfterSave(
    repo: Repo, r: RepoId, d: Delta, attempt: nat, base: nat, refused: nat, version: Version, reply: Reply): FinalPc
  {
    if reply.Fault? || reply.TokenFault? then FinalReturned(true)
    else if reply.Permanent? then AtFail("merkle_storage_permanent", r, base, refused)
    else if reply.Refused? then AfterMiss(r, d, attempt, base, refused + 1)
    else if repo.version == version then AtMarkDone(Outcome(r, d, |repo.log| + 1, true))
    else AfterMiss(r, d, attempt, base, refused)
  }

  /** ErrVersionMismatch: the next attempt, or none. */
  function AfterMiss(r: RepoId, d: Delta, attempt: nat, base: nat, refused: nat): FinalPc {
    if attempt + 1 < MAX_MERKLE_CAS_ATTEMPTS then AtLoadTree(r, d, attempt + 1, base, refused)
    else AtFail("merkle_cas_exhausted", r, base, refused)
  }

  function NextProc(st: State, p: Proc, reply: Reply): Proc {
    match p
    case Stream(_, _, pc, deleted, triggered) =>
      p.(pc := NextBatchPc(st, p, reply), deleted := deleted || pc.AtDel?, triggered := triggered || pc.AtTrigger?)
    case Final(_, _, _) => p.(fpc := NextFinalPc(st, p, reply))
  }

  // ---------------------------------------------------------------------------
  // Which table each delivery step writes
  // ---------------------------------------------------------------------------

  predicate MarksRow(st: State, p: Proc, reply: Reply) {
    && p.Stream? && (p.pc.AtMarkFailed? || p.pc.AtMarkSucceeded?) && reply != Fault(false)
    && p.key in st.rows && st.rows[p.key].state.Pending?
  }

  function MarkedRow(row: Row, pc: BatchPc): Row
    requires pc.AtMarkFailed? || pc.AtMarkSucceeded?
  {
    match pc
    case AtMarkFailed(reason) => FailedRow(row, reason)
    case AtMarkSucceeded(ff, fd) => SucceededRow(row, ff, fd)
  }

  /** TryEnqueue finds the session processing and every batch terminal. */
  predicate Flips(st: State, p: Proc, reply: Reply) {
    && p.Stream? && p.pc.AtTrigger? && reply != Fault(false)
    && p.key.sync in st.sessions && st.sessions[p.key.sync].status.Processing? && Ready(st.rows, p.key.sync)
  }

  predicate Saves(st: State, p: Proc, reply: Reply) {
    && p.Final? && p.fpc.AtSaveTree? && (reply.Token? || reply.TokenFault?)
    && RepoOf(st.repos, p.fpc.repo).version == p.fpc.version
  }

  predicate Finishes(st: State, p: Proc, reply: Reply) {
    && p.Final? && p.fpc.AtMarkDone? && reply != Fault(false)
    && p.sync in st.sessions && st.sessions[p.sync].status.Finalizing?
  }

  predicate Fails(st: State, p: Proc, reply: Reply) {
    && p.Final? && p.fpc.AtFail? && reply != Fault(false)
    && p.sync in st.sessions && IsActive(st.sessions[p.sync].status)
  }

  // ---------------------------------------------------------------------------
  // The next value of every table
  // ---------------------------------------------------------------------------

  function NextSessions(st: State, l: Label): map<SyncId, Session> {
    match l
    case CreateSession(s, x) => st.sessions[s := x]
    case Admit(k, b, order) =>
      if k.sync in st.sessions then st.sessions[k.sync := Merge(st.sessions[k.sync], b, order)] else st.sessions
    case Expire(s) =>
      if s in st.sessions && IsActive(st.sessions[s].status)
      then st.sessions[s := st.sessions[s].(status := Expired, failedReason := "ttl_expired")] else st.sessions
    case Collect(s) => st.sessions - {s}
    case Step(w, reply) =>
      if w !in st.procs then st.sessions else
      var p := st.procs[w];
      if Flips(st, p, reply) then st.sessions[p.key.sync := st.sessions[p.key.sync].(status := Finalizing)]
      else if Finishes(st, p, reply) then st.sessions[p.sync := st.sessions[p.sync].(status := Done)]
      else if Fails(st, p, reply)
      then st.sessions[p.sync := st.sessions[p.sync].(status := Failed, failedReason := p.fpc.reason)]
      else st.sessions
    case _ => st.sessions
  }

  function NextRows(st: State, l: Label): map<Key, Row> {
    match l
    case Admit(k, b, _) => st.rows[k := NewRow(b)]
    case Collect(s) => map k | k in st.rows && k.sync != s :: st.rows[k]
    case Step(w, reply) =>
      if w in st.procs && MarksRow(st, st.procs[w], reply)
      then st.rows[st.procs[w].key := MarkedRow(st.rows[st.procs[w].key], st.procs[w].pc)] else st.rows
    case _ => st.rows
  }

  function NextRedis(st: State, l: Label): map<Key, Content> {
    match l
    case SetContent(k, b) => st.redis[k := Intact(b.files, b.deletes)]
    case LoseContent(k) => st.redis - {k}
    case CorruptContent(k) => st.redis[k := Garbled]
    case Step(w, reply) =>
      if w in st.procs && st.procs[w].Stream? && st.procs[w].pc.AtDel? && reply != Fault(false)
      then st.redis - {st.procs[w].key} else st.redis
    case _ => st.redis
  }

  function NextOutbox(st: State, l: Label): map<Task, OutboxRow> {
    match l
    case Admit(k, _, _) => st.outbox[StreamTask(k) := OutboxRow(OutboxPending, false)]
    case Claim(t) => if t in st.outbox then st.outbox[t := st.outbox[t].(status := Enqueuing)] else st.outbox
    case Enqueue(t) => if t in st.outbox then st.outbox[t := st.outbox[t].(sent := true)] else st.outbox
    case MarkEnqueued(t) => if t in st.outbox then st.outbox[t := st.outbox[t].(status := Enqueued)] else st.outbox
    case ResetToPending(t) => if t in st.outbox then st.outbox[t := st.outbox[t].(status := OutboxPending)]
      else st.outbox
    case Collect(s) => map t | t in st.outbox && SyncOf(t) != s :: st.outbox[t]
    case Step(w, reply) =>
      if w in st.procs && Flips(st, st.procs[w], reply) && FinalizeTask(st.procs[w].key.sync) !in st.outbox
      then st.outbox[FinalizeTask(st.procs[w].key.sync) := OutboxRow(OutboxPending, false)] else st.outbox
    case _ => st.outbox
  }

  /** The queue holds a task until a handler returns no error or the retries are used up. A task
      identifier in use is not enqueued again. */
  function NextQueue(st: State, l: Label): map<Task, nat> {
    match l
    case Enqueue(t) => if t in st.queue || t in st.archived then st.queue else st.queue[t := 0]
    case Archive(t) => st.queue - {t}
    case Finish(w) =>
      if w !in st.procs then st.queue else
      var p := st.procs[w];
      if ReturnedOk(p) || p.final then st.queue - {TaskOf(p)}
      else if TaskOf(p) in st.queue then st.queue[TaskOf(p) := st.queue[TaskOf(p)] + 1] else st.queue
    case _ => st.queue
  }

  predicate Returned(p: Proc) {
    if p.Stream? then p.pc.BatchReturned? else p.fpc.FinalReturned?
  }

  predicate ReturnedOk(p: Proc) {
    if p.Stream? then p.pc == BatchReturned(false) else p.fpc == FinalReturned(false)
  }

  function NextArchived(st: State, l: Label): set<Task> {
    match l
    case Archive(t) => st.archived + {t}
    case Finish(w) =>
      if w in st.procs && !ReturnedOk(st.procs[w]) && st.procs[w].final && TaskOf(st.procs[w]) in st.queue
      then st.archived + {TaskOf(st.procs[w])} else st.archived
    case _ => st.archived
  }

  /** The rows the dispatchers have claimed and not yet tried to enqueue. A stale claim outlives the
      row's reset, and even the row. */
  function NextClaims(st: State, l: Label): multiset<Task> {
    match l
    case Claim(t) => st.claims + multiset{t}
    case Enqueue(t) => st.claims - multiset{t}
    case DropClaim(t) => st.claims - multiset{t}
    case _ => st.claims
  }

  function NextRepos(st: State, l: Label): map<RepoId, Repo> {
    match l
    case Replace(r, tree, token) => st.repos[r := Committed(RepoOf(st.repos, r), Overwrite(tree), tree, token)]
    case Step(w, reply) =>
      if w in st.procs && Saves(st, st.procs[w], reply)
      then
        var p := st.procs[w];
        var repo := RepoOf(st.repos, p.fpc.repo);
        st.repos[p.fpc.repo :=
          Committed(repo, Commit(p.sync, w, p.fpc.delta), ApplyChanges(p.fpc.tree, p.fpc.delta), reply.version)]
      else st.repos
    case _ => st.repos
  }

  function NextProcs(st: State, l: Label): map<WorkerId, Proc> {
    match l
    case Start(w, t) => st.procs[w := NewProc(t, t in st.queue && st.queue[t] >= MAX_RETRY)]
    case Step(w, reply) => if w in st.procs then st.procs[w := NextProc(st, st.procs[w], reply)] else st.procs
    case Finish(w) => st.procs - {w}
    case Crash(w) => st.procs - {w}
    case _ => st.procs
  }

  function NewProc(t: Task, final: bool): Proc {
    match t
    case StreamTask(k) => Stream(k, final, AtGet, false, false)
    case FinalizeTask(s) => Final(s, final, AtLoadFinalizing)
  }

  function NextHist(st: State, l: Label): History {
    match l
    case CreateSession(s, _) => st.hist.(seen := st.hist.seen + {s})
    case Step(w, reply) =>
      if w !in st.procs then st.hist else
      var p := st.procs[w];
      if p.Stream? && p.pc.AtIndex? && reply.Stats? && reply.indexing.Indexed? then
        st.hist.(
          indexedFiles := st.hist.indexedFiles +
            (set q | q in p.pc.files && q !in reply.indexing.failedFiles :: (p.key, q, p.pc.files[q])),
          indexedDeletes := st.hist.indexedDeletes +
            (set q | q in p.pc.deletes && q !in reply.indexing.failedDeletes :: (p.key, q)))
      else if MarksRow(st, p, reply) then
        st.hist.(stamped := st.hist.stamped[p.key := MarkedRow(st.rows[p.key], p.pc)])
      else if Finishes(st, p, reply) then
        st.hist.(outcomes := st.hist.outcomes[p.sync := p.fpc.outcome])
      else st.hist
    case _ => st.hist
  }

  function Next(st: State, l: Label): State {
    State(NextSessions(st, l), NextRows(st, l), NextRedis(st, l), NextOutbox(st, l), NextQueue(st, l),
          NextArchived(st, l), NextClaims(st, l), NextRepos(st, l), NextProcs(st, l), NextHist(st, l))
  }

  // ---------------------------------------------------------------------------
  // Runs
  // ---------------------------------------------------------------------------

  predicate CanCreate(st: State, s: SyncId, x: Session) {
    s !in st.hist.seen && FreshSession(st.repos, x) && NoActive(st.sessions, x.identity)
  }

  predicate CanAdmit(st: State, k: Key, b: Batch, order: seq<Path>) {
    && k.sync in st.sessions && k !in st.rows && StreamTask(k) !in st.outbox
    && st.sessions[k.sync].status.Receiving? && Valid(st.sessions[k.sync], b)
    && Lists(order, b.deletes)
  }

  predicate CanStep(st: State, w: WorkerId, reply: Reply) {
    && w in st.procs
    && (match st.procs[w]
        case Stream(_, _, pc, _, _) => BatchReply(pc, reply)
        case Final(_, _, pc) => FinalReply(st, pc, reply))
    && (ReadsRows(st.procs[w]) && reply.Results? ==> ReadsAs(st.rows, st.procs[w].sync, reply.delta))
  }

  predicate ReadsRows(p: Proc) {
    p.Final? && p.fpc.AtLoadRows?
  }

  predicate Enabled(st: State, l: Label) {
    match l
    case CreateSession(s, x) => CanCreate(st, s, x)
    case SetContent(k, _) => k.sync in st.hist.seen
    case Admit(k, b, order) => CanAdmit(st, k, b, order)
    case Claim(t) => t in st.outbox && st.outbox[t].status.OutboxPending?
    case Enqueue(t) => t in st.claims
    case MarkEnqueued(t) => t in st.outbox && st.outbox[t].status.Enqueuing? && st.outbox[t].sent
    case ResetToPending(t) => t in st.outbox && st.outbox[t].status.Enqueuing?
    case DropClaim(t) => t in st.claims
    case Expire(s) => s in st.sessions
    case Collect(s) => s in st.sessions && !IsActive(st.sessions[s].status)
    case LoseContent(k) => k in st.redis
    case CorruptContent(k) => k in st.redis
    case Replace(r, tree, token) => if token == 0 then tree == map[] else FreshToken(RepoOf(st.repos, r), token, tree)
    case Archive(t) => t in st.queue && st.queue[t] >= MAX_RETRY
    case Start(w, t) => w !in st.procs && t in st.queue
    case Step(w, reply) => CanStep(st, w, reply)
    case Finish(w) => w in st.procs && Returned(st.procs[w])
    case Crash(w) => w in st.procs
  }

  ghost predicate LeadsTo(st: State, l: Label, next: State) {
    Enabled(st, l) && next == Next(st, l)
  }

  /** The states a run goes through, from the empty service on. */
  ghost predicate Passes(run: seq<Label>, states: seq<State>) {
    && |states| == |run| + 1
    && states[0] == Initial
    && forall i {:trigger LeadsTo(states[i], run[i], states[i + 1])} | 0 <= i < |run| ::
         LeadsTo(states[i], run[i], states[i + 1])
  }

  /** A run is legal when every label was enabled in its turn. */
  ghost predicate Legal(run: seq<Label>) {
    exists states :: Passes(run, states)
  }

  /** The state after a legal run. */
  ghost function After(run: seq<Label>): State {
    if Legal(run) then
      var states :| Passes(run, states);
      states[|run|]
    else Initial
  }

  lemma {:induction false} PassesUnique(run: seq<Label>, a: seq<State>, b: seq<State>)
    requires Passes(run, a) && Passes(run, b)
    ensures a == b
  {
    if run != [] {
      var n := |run| - 1;
      PassesFront(run, a);
      PassesFront(run, b);
      PassesUnique(run[..n], a[..n + 1], b[..n + 1]);
      assert a[n] == a[..n + 1][n] == b[..n + 1][n] == b[n];
      assert LeadsTo(a[n], run[n], a[n + 1]) && LeadsTo(b[n], run[n], b[n + 1]);
      assert a == a[..n + 1] + [a[n + 1]] && b == b[..n + 1] + [b[n + 1]];
    } else {
      assert a == [a[0]] && b == [b[0]];
    }
  }

  lemma PassesFront(run: seq<Label>, states: seq<State>)
    requires Passes(run, states) && run != []
    ensures Passes(run[..|run| - 1], states[..|run|])
  {
    var front, before := run[..|run| - 1], states[..|run|];
    forall i | 0 <= i < |front| ensures LeadsTo(before[i], front[i], before[i + 1]) {
      assert LeadsTo(states[i], run[i], states[i + 1]);
    }
  }

  lemma PassesLegally(run: seq<Label>, states: seq<State>)
    requires Passes(run, states)
    ensures Legal(run) && After(run) == states[|run|]
  {
    var others :| Passes(run, others) && After(run) == others[|run|];
    PassesUnique(run, states, others);
  }

  lemma PassesOn(run: seq<Label>, states: seq<State>, l: Label)
    requires Passes(run, states) && Enabled(states[|run|], l)
    ensures Passes(run + [l], states + [Next(states[|run|], l)])
  {
    var more, on := run + [l], states + [Next(states[|run|], l)];
    forall i | 0 <= i < |more| ensures LeadsTo(on[i], more[i], on[i + 1]) {
      if i < |run| {
        assert LeadsTo(states[i], run[i], states[i + 1]);
      }
    }
  }

  /** The empty run is legal, and nothing has happened. */
  lemma NoSteps()
    ensures Legal([]) && After([]) == Initial
  {
    assert Passes([], [Initial]);
    PassesLegally([], [Initial]);
  }

  /** A legal run may be extended by what is enabled after it. */
  lemma Extend(run: seq<Label>, l: Label)
    requires Legal(run) && Enabled(After(run), l)
    ensures Legal(run + [l]) && After(run + [l]) == Next(After(run), l)
  {
    var states :| Passes(run, states);
    PassesLegally(run, states);
    PassesOn(run, states, l);
    PassesLegally(run + [l], states + [Next(states[|run|], l)]);
  }

  /** Every legal run is the empty one or extends a legal run by a label enabled after it. */
  lemma LastStep(run: seq<Label>)
    requires Legal(run) && run != []
    ensures var front, last := run[..|run| - 1], run[|run| - 1];
      Legal(front) && Enabled(After(front), last) && After(run) == Next(After(front), last)
  {
    var n := |run| - 1;
    var states :| Passes(run, states);
    PassesLegally(run, states);
    PassesFront(run, states);
    PassesLegally(run[..n], states[..n + 1]);
    assert LeadsTo(states[n], run[n], states[n + 1]);
  }
}
