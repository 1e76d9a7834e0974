/** No lost wake-up: as long as nothing of a session's work is dropped, a session past receiving
    always has an outstanding task that will move it on. */
module WakeUp {
  import opened MerkleTree
  import opened SyncState
  import opened SyncMachine
  import opened BatchRows
  import opened Manifests
  import opened Finalization

  // ---------------------------------------------------------------------------
  // The outbox and the queue
  // ---------------------------------------------------------------------------

  /** A task in the queue was enqueued from its outbox row. */
  ghost predicate SentOk(st: State) {
    && (forall t | t in st.outbox && st.outbox[t].status.Enqueued? :: st.outbox[t].sent)
    && (forall t | t in st.outbox && (t in st.queue || t in st.archived) :: st.outbox[t].sent)
    && (forall w | w in st.procs && TaskOf(st.procs[w]) in st.outbox :: st.outbox[TaskOf(st.procs[w])].sent)
  }

  /** Nothing about finalizing exists before the session is finalizing. */
  ghost predicate NoEarlyFinalize(st: State) {
    forall s | s in st.sessions && (st.sessions[s].status.Receiving? || st.sessions[s].status.Processing?) ::
      && FinalizeTask(s) !in st.outbox && FinalizeTask(s) !in st.queue && FinalizeTask(s) !in st.archived &&
           FinalizeTask(s) !in st.claims
      && (forall w | w in st.procs :: TaskOf(st.procs[w]) != FinalizeTask(s))
  }

  ghost predicate HasRows(st: State) {
    forall s | s in st.sessions && st.sessions[s].status.Processing? :: exists k | k in st.rows :: k.sync == s
  }

  ghost predicate DispatchOk(st: State) {
    SentOk(st) && NoEarlyFinalize(st) && HasRows(st)
  }

  /** t is a task of the session nobody knew about before this step. */
  ghost predicate NewTask(st: State, l: Label, t: Task) {
    || (l.Admit? && t == StreamTask(l.key))
    || (l.Step? && l.w in st.procs && Flips(st, st.procs[l.w], l.reply) &&
         t == FinalizeTask(st.procs[l.w].key.sync) && t !in st.outbox)
  }

  lemma OutboxStep(st: State, l: Label, t: Task)
    requires t in NextOutbox(st, l)
    ensures NewTask(st, l, t) ==> NextOutbox(st, l)[t] == OutboxRow(OutboxPending, false)
    ensures !NewTask(st, l, t) ==> t in st.outbox && NextOutbox(st, l)[t].sent == (st.outbox[t].sent || l == Enqueue(t))
    ensures !NewTask(st, l, t) && NextOutbox(st, l)[t].status.Enqueued? ==>
      st.outbox[t].status.Enqueued? || l == MarkEnqueued(t)
  {
  }

  lemma TasksStep(st: State, l: Label, t: Task)
    requires l.Archive? ==> l.task in st.queue
    ensures t in NextQueue(st, l) || t in NextArchived(st, l) ==> t in st.queue || t in st.archived || l == Enqueue(t)
    ensures forall w | w in NextProcs(st, l) && TaskOf(NextProcs(st, l)[w]) == t ::
      (w in st.procs && TaskOf(st.procs[w]) == t) || l == Start(w, t)
  {
  }

  ghost predicate InUse(queue: map<Task, nat>, archived: set<Task>, procs: map<WorkerId, Proc>, t: Task) {
    t in queue || t in archived || exists w | w in procs :: TaskOf(procs[w]) == t
  }

  lemma NewTaskUnused(st: State, l: Label, t: Task)
    requires KeysOk(st) && NoEarlyFinalize(st) && NewTask(st, l, t)
    requires l.Admit? ==> CanAdmit(st, l.key, l.batch, l.order)
    ensures !InUse(st.queue, st.archived, st.procs, t)
  {
    assert InUse(st.queue, st.archived, st.procs, t) ==> Known(st.hist.seen, st.sessions, st.rows, t);
  }

  lemma SentPreserved(st: State, l: Label, t: Task)
    requires SentOk(st) && t in NextOutbox(st, l) && InUse(NextQueue(st, l), NextArchived(st, l), NextProcs(st, l), t)
    requires NewTask(st, l, t) ==> !InUse(st.queue, st.archived, st.procs, t)
    requires l.Start? || l.Archive? ==> l.task in st.queue
    requires NewTask(st, l, t) ==> l != Enqueue(t)
    ensures NextOutbox(st, l)[t].sent
  {
    OutboxStep(st, l, t);
    TasksStep(st, l, t);
  }

  lemma EnqueuedSent(st: State, l: Label, t: Task)
    requires SentOk(st) && t in NextOutbox(st, l) && (l == MarkEnqueued(t) ==> t in st.outbox && st.outbox[t].sent)
    ensures NextOutbox(st, l)[t].status.Enqueued? ==> NextOutbox(st, l)[t].sent
  {
    OutboxStep(st, l, t);
  }

  lemma UsedSent(st: State, l: Label, t: Task)
    requires SentOk(st) && KeysOk(st) && NoEarlyFinalize(st) && Enabled(st, l) && t in NextOutbox(st, l)
    ensures InUse(NextQueue(st, l), NextArchived(st, l), NextProcs(st, l), t) ==> NextOutbox(st, l)[t].sent
  {
    if NewTask(st, l, t) {
      NewTaskUnused(st, l, t);
    }
    if InUse(NextQueue(st, l), NextArchived(st, l), NextProcs(st, l), t) {
      SentPreserved(st, l, t);
    }
  }

  lemma SentOkPreserved(st: State, l: Label)
    requires SentOk(st) && KeysOk(st) && NoEarlyFinalize(st) && Enabled(st, l)
    ensures SentOk(Next(st, l))
  {
    forall t | t in NextOutbox(st, l)
      ensures NextOutbox(st, l)[t].status.Enqueued? ==> NextOutbox(st, l)[t].sent
      ensures InUse(NextQueue(st, l), NextArchived(st, l), NextProcs(st, l), t) ==> NextOutbox(st, l)[t].sent
    {
      EnqueuedSent(st, l, t);
      UsedSent(st, l, t);
    }
  }

  lemma UnusedPreserved(st: State, l: Label, s: SyncId)
    requires !InUse(st.queue, st.archived, st.procs, FinalizeTask(s)) && FinalizeTask(s) !in st.outbox
    requires FinalizeTask(s) !in st.claims
    requires l.Start? || l.Archive? ==> l.task in st.queue
    requires l.Enqueue? ==> l.task in st.claims
    requires l.Claim? ==> l.task in st.outbox
    requires s in NextSessions(st, l) && !NextSessions(st, l)[s].status.Finalizing?
    ensures FinalizeTask(s) !in NextOutbox(st, l) && FinalizeTask(s) !in NextClaims(st, l)
    ensures !InUse(NextQueue(st, l), NextArchived(st, l), NextProcs(st, l), FinalizeTask(s))
  {
    TasksStep(st, l, FinalizeTask(s));
  }

  lemma EarlyPreserved(st: State, l: Label, s: SyncId)
    requires NoEarlyFinalize(st) && KeysOk(st) && Enabled(st, l)
    requires s in NextSessions(st, l)
    requires (NextSessions(st, l)[s].status.Receiving? || NextSessions(st, l)[s].status.Processing?)
    ensures FinalizeTask(s) !in NextOutbox(st, l) && FinalizeTask(s) !in NextClaims(st, l)
    ensures !InUse(NextQueue(st, l), NextArchived(st, l), NextProcs(st, l), FinalizeTask(s))
  {
    SessionStep(st, l, s);
    if s !in st.sessions {
      assert CanCreate(st, s, NextSessions(st, l)[s]);
      UnseenUnused(st, s);
    }
    UnusedPreserved(st, l, s);
  }

  lemma UnseenUnused(st: State, s: SyncId)
    requires KeysOk(st) && s !in st.hist.seen
    ensures FinalizeTask(s) !in st.outbox && FinalizeTask(s) !in st.claims
    ensures !InUse(st.queue, st.archived, st.procs, FinalizeTask(s))
  {
    assert InUse(st.queue, st.archived, st.procs, FinalizeTask(s)) || FinalizeTask(s) in st.claims ==>
      Known(st.hist.seen, st.sessions, st.rows, FinalizeTask(s));
  }

  lemma NoEarlyPreserved(st: State, l: Label)
    requires NoEarlyFinalize(st) && KeysOk(st) && Enabled(st, l)
    ensures NoEarlyFinalize(Next(st, l))
  {
    forall s | s in NextSessions(st, l) &&
      (NextSessions(st, l)[s].status.Receiving? || NextSessions(st, l)[s].status.Processing?)
      ensures FinalizeTask(s) !in NextOutbox(st, l) && FinalizeTask(s) !in NextClaims(st, l)
      ensures !InUse(NextQueue(st, l), NextArchived(st, l), NextProcs(st, l), FinalizeTask(s))
    { EarlyPreserved(st, l, s); }
  }

  lemma HasRowsPreserved(st: State, l: Label)
    requires HasRows(st) && (l.Admit? ==> l.key.sync in st.sessions)
    requires (l.CreateSession? ==> !l.session.status.Processing?)
    ensures HasRows(Next(st, l))
  {
    forall s | s in NextSessions(st, l) && NextSessions(st, l)[s].status.Processing?
      ensures exists k | k in NextRows(st, l) :: k.sync == s
    {
      SessionStep(st, l, s);
      if l.Admit? && l.key.sync == s {
        assert l.key in NextRows(st, l);
      } else {
        var k :| k in st.rows && k.sync == s;
        RowKeys(st, l, k);
      }
    }
  }

  lemma DispatchPreserved(st: State, l: Label)
    requires DispatchOk(st) && KeysOk(st) && Enabled(st, l)
    ensures DispatchOk(Next(st, l))
  {
    assert l.CreateSession? ==> CanCreate(st, l.s, l.session);
    SentOkPreserved(st, l);
    NoEarlyPreserved(st, l);
    HasRowsPreserved(st, l);
  }

  // ---------------------------------------------------------------------------
  // Losing work
  // ---------------------------------------------------------------------------

  /** The steps that silently drop a session's work: a trigger transaction or a failed-batch mark
      that did not take effect and whose error is only logged, and a task given up by the queue. */
  ghost predicate Loses(st: State, l: Label, s: SyncId) {
    match l
    case Step(w, reply) =>
      && w in st.procs && st.procs[w].Stream? && st.procs[w].key.sync == s && reply == Fault(false)
      && (st.procs[w].pc.AtTrigger? || st.procs[w].pc.AtMarkFailed?)
    case Finish(w) => w in st.procs && SyncOf(TaskOf(st.procs[w])) == s && !ReturnedOk(st.procs[w]) && st.procs[w].final
    case Archive(t) => SyncOf(t) == s
    case _ => false
  }

  ghost predicate NotArchived(st: State, s: SyncId) {
    forall t | t in st.archived :: SyncOf(t) != s
  }

  predicate PastMark(pc: BatchPc) {
    pc.AtDel? || pc.AtTrigger? || pc == BatchReturned(false)
  }

  /** A delivery that has passed its mark left its row terminal. */
  ghost predicate MarksFirst(st: State, s: SyncId) {
    forall w | w in st.procs && st.procs[w].Stream? && st.procs[w].key.sync == s && PastMark(st.procs[w].pc) ::
      st.procs[w].key in st.rows ==> !st.rows[st.procs[w].key].state.Pending?
  }

  /** A pending batch that was enqueued is still in the queue. */
  ghost predicate PendingQueued(st: State, s: SyncId) {
    forall k | k in st.rows && k.sync == s && st.rows[k].state.Pending? && StreamTask(k) in st.outbox &&
      st.outbox[StreamTask(k)].sent ::
      StreamTask(k) in st.queue
  }

  /** The batch's task is not acknowledged, and no delivery of it is about to acknowledge it: its
      TryEnqueue is still ahead. */
  ghost predicate TriggerAhead(queue: map<Task, nat>, procs: map<WorkerId, Proc>, k: Key) {
    && StreamTask(k) in queue
    && (forall w | w in procs && procs[w].Stream? && procs[w].key == k :: procs[w].pc != BatchReturned(false))
  }

  ghost predicate Awake(st: State, s: SyncId) {
    s in st.sessions && st.sessions[s].status.Processing? && Ready(st.rows, s) ==>
      exists k | k in st.rows :: k.sync == s && TriggerAhead(st.queue, st.procs, k)
  }

  ghost predicate FinalizeAhead(st: State, s: SyncId) {
    && (forall w | w in st.procs && st.procs[w] == Final(s, st.procs[w].final, FinalReturned(false)) ::
          s in st.sessions ==> !IsActive(st.sessions[s].status))
    && (s in st.sessions && st.sessions[s].status.Finalizing? && FinalizeTask(s) in st.outbox &&
         st.outbox[FinalizeTask(s)].sent ==>
          FinalizeTask(s) in st.queue)
  }

  ghost predicate Lossless(st: State, s: SyncId) {
    NotArchived(st, s) && MarksFirst(st, s) && PendingQueued(st, s) && Awake(st, s) && FinalizeAhead(st, s)
  }

  lemma NotArchivedPreserved(st: State, l: Label, s: SyncId)
    requires NotArchived(st, s) && !Loses(st, l, s)
    ensures NotArchived(Next(st, l), s)
  {
  }

  /** A row leaves pending for good. */
  lemma TerminalStays(st: State, l: Label, k: Key)
    requires k in st.rows && k in NextRows(st, l) && !st.rows[k].state.Pending? && (l.Admit? ==> l.key !in st.rows)
    ensures NextRows(st, l)[k] == st.rows[k]
  {
  }

  lemma MarkTerminates(st: State, w: WorkerId, reply: Reply)
    requires w in st.procs && st.procs[w].Stream? && BatchReply(st.procs[w].pc, reply)
    requires !Loses(st, Step(w, reply), st.procs[w].key.sync)
    requires RowsOwned(st)
    requires PastMark(NextBatchPc(st, st.procs[w], reply)) && !PastMark(st.procs[w].pc)
    ensures st.procs[w].key in NextRows(st, Step(w, reply)) ==>
      !NextRows(st, Step(w, reply))[st.procs[w].key].state.Pending?
  {
  }

  lemma MarksFirstPreserved(st: State, l: Label, s: SyncId)
    requires MarksFirst(st, s) && KeysOk(st) && Enabled(st, l) && !Loses(st, l, s)
    ensures MarksFirst(Next(st, l), s)
  {
    var procs, rows := NextProcs(st, l), NextRows(st, l);
    forall w | w in procs && procs[w].Stream? && procs[w].key.sync == s && PastMark(procs[w].pc)
      ensures procs[w].key in rows ==> !rows[procs[w].key].state.Pending?
    {
      var k := procs[w].key;
      BatchProcStep(st, l, w);
      if w in st.procs && st.procs[w].Stream? && st.procs[w].key == k {
        assert Known(st.hist.seen, st.sessions, st.rows, TaskOf(st.procs[w]));
        if PastMark(st.procs[w].pc) {
          if k in st.rows && k in rows { TerminalStays(st, l, k); }
        } else {
          MarkTerminates(st, w, l.reply);
        }
      }
      if k in rows { RowKeys(st, l, k); }
    }
  }

  lemma BatchProcStep(st: State, l: Label, w: WorkerId)
    requires w in NextProcs(st, l) && NextProcs(st, l)[w].Stream?
    ensures
      || NextProcs(st, l)[w].pc == AtGet
      || (w in st.procs && st.procs[w].Stream? && st.procs[w].key == NextProcs(st, l)[w].key
          && NextProcs(st, l)[w].pc ==
               (if l.Step? && l.w == w then NextBatchPc(st, st.procs[w], l.reply) else st.procs[w].pc))
  {
  }

  /** A task leaves the queue when a delivery acknowledges it or when work is lost. */
  lemma QueueStep(st: State, l: Label, t: Task, s: SyncId)
    requires t in st.queue && SyncOf(t) == s && !Loses(st, l, s)
    ensures t in NextQueue(st, l) ||
      (l.Finish? && l.w in st.procs && ReturnedOk(st.procs[l.w]) && TaskOf(st.procs[l.w]) == t)
  {
  }

  lemma PendingStep(st: State, l: Label, k: Key)
    requires k in NextRows(st, l) && NextRows(st, l)[k].state.Pending?
    ensures (k in st.rows && st.rows[k] == NextRows(st, l)[k]) || (l.Admit? && l.key == k)
  {
  }

  lemma PendingQueuedPreserved(st: State, l: Label, s: SyncId)
    requires PendingQueued(st, s) && MarksFirst(st, s) && NotArchived(st, s) && !Loses(st, l, s)
    ensures PendingQueued(Next(st, l), s)
  {
    var rows, outbox, queue := NextRows(st, l), NextOutbox(st, l), NextQueue(st, l);
    forall k | k in rows && k.sync == s && rows[k].state.Pending? && StreamTask(k) in outbox &&
      outbox[StreamTask(k)].sent
      ensures StreamTask(k) in queue
    {
      PendingStep(st, l, k);
      OutboxStep(st, l, StreamTask(k));
      if l != Enqueue(StreamTask(k)) {
        QueueStep(st, l, StreamTask(k), s);
      }
    }
  }

  /** The deliveries of a batch whose row is pending have not passed their mark. */
  lemma PendingAhead(st: State, k: Key)
    requires MarksFirst(st, k.sync) && PendingQueued(st, k.sync)
    requires k in st.rows && st.rows[k].state.Pending? && StreamTask(k) in st.outbox && st.outbox[StreamTask(k)].sent
    ensures TriggerAhead(st.queue, st.procs, k)
  {
  }

  /** The trigger stays ahead unless this very step takes it. */
  lemma AheadPreserved(st: State, l: Label, k: Key)
    requires TriggerAhead(st.queue, st.procs, k) && !Loses(st, l, k.sync)
    requires l.Step? && l.w in st.procs && st.procs[l.w].Stream? && st.procs[l.w].key == k ==>
      !st.procs[l.w].pc.AtTrigger?
    requires l.Step? ==> l.w in st.procs && (st.procs[l.w].Stream? ==> BatchReply(st.procs[l.w].pc, l.reply))
    ensures TriggerAhead(NextQueue(st, l), NextProcs(st, l), k)
  {
    QueueStep(st, l, StreamTask(k), k.sync);
    forall w | w in NextProcs(st, l) && NextProcs(st, l)[w].Stream? && NextProcs(st, l)[w].key == k
      ensures NextProcs(st, l)[w].pc != BatchReturned(false)
    {
      BatchProcStep(st, l, w);
    }
  }

  lemma AdmitNotReady(st: State, k: Key, b: Batch, order: seq<Path>)
    ensures !Ready(NextRows(st, Admit(k, b, order)), k.sync)
  {
    assert k in NextRows(st, Admit(k, b, order)) && NextRows(st, Admit(k, b, order))[k].state.Pending?;
  }

  lemma ReadyStep(st: State, l: Label, s: SyncId)
    requires s in NextSessions(st, l) && NextSessions(st, l)[s].status.Processing? && Ready(NextRows(st, l), s)
    requires l.CreateSession? ==> !l.session.status.Processing?
    ensures s in st.sessions && st.sessions[s].status.Processing?
    ensures Ready(st.rows, s) ||
      (l.Step? && l.w in st.procs && MarksRow(st, st.procs[l.w], l.reply) && st.procs[l.w].key.sync == s)
  {
    SessionStep(st, l, s);
    if l.Admit? {
      AdmitNotReady(st, l.key, l.batch, l.order);
    }
    var k :| k in NextRows(st, l) && k.sync == s;
    RowKeys(st, l, k);
    if !(l.Step? && l.w in st.procs && MarksRow(st, st.procs[l.w], l.reply)) {
      forall j | j in st.rows && j.sync == s ensures !st.rows[j].state.Pending? {
        RowKeys(st, l, j);
        assert j in NextRows(st, l);
      }
    }
  }

  lemma AwakeWitness(st: State, l: Label, s: SyncId, k: Key)
    requires k in st.rows && k.sync == s && TriggerAhead(st.queue, st.procs, k)
    requires l.Step? && l.w in st.procs && st.procs[l.w].Stream? && st.procs[l.w].key == k ==>
      !st.procs[l.w].pc.AtTrigger?
    requires s in NextSessions(st, l) && !Loses(st, l, s)
    requires l.Step? ==> l.w in st.procs && (st.procs[l.w].Stream? ==> BatchReply(st.procs[l.w].pc, l.reply))
    ensures exists k | k in NextRows(st, l) :: k.sync == s && TriggerAhead(NextQueue(st, l), NextProcs(st, l), k)
  {
    AheadPreserved(st, l, k);
    RowKeys(st, l, k);
  }

  lemma AwakeReady(st: State, l: Label, s: SyncId)
    requires Lossless(st, s) && SentOk(st) && RowsOwned(st) && !Loses(st, l, s)
    requires l.Step? ==> l.w in st.procs && (st.procs[l.w].Stream? ==> BatchReply(st.procs[l.w].pc, l.reply))
    requires l.CreateSession? ==> !l.session.status.Processing?
    requires s in NextSessions(st, l) && NextSessions(st, l)[s].status.Processing? && Ready(NextRows(st, l), s)
    ensures exists k | k in NextRows(st, l) :: k.sync == s && TriggerAhead(NextQueue(st, l), NextProcs(st, l), k)
  {
    ReadyStep(st, l, s);
    if Ready(st.rows, s) {
      var k :| k in st.rows && k.sync == s && TriggerAhead(st.queue, st.procs, k);
      ReadyTrigger(st, l, k);
      AwakeWitness(st, l, s, k);
    } else {
      MarkedAhead(st, l.w, st.procs[l.w].key);
      AwakeWitness(st, l, s, st.procs[l.w].key);
    }
  }

  lemma AwakePreserved(st: State, l: Label, s: SyncId)
    requires Lossless(st, s) && SentOk(st) && RowsOwned(st) && Enabled(st, l) && !Loses(st, l, s)
    ensures Awake(Next(st, l), s)
  {
    assert l.CreateSession? ==> CanCreate(st, l.s, l.session);
    assert l.Step? ==> CanStep(st, l.w, l.reply);
    if s in NextSessions(st, l) && NextSessions(st, l)[s].status.Processing? && Ready(NextRows(st, l), s) {
      AwakeReady(st, l, s);
    }
  }

  /** Had this step been the trigger, the session would have flipped. */
  lemma ReadyTrigger(st: State, l: Label, k: Key)
    requires k.sync in NextSessions(st, l) && NextSessions(st, l)[k.sync].status.Processing?
    requires k.sync in st.sessions && st.sessions[k.sync].status.Processing? && Ready(st.rows, k.sync)
    requires !Loses(st, l, k.sync)
    ensures l.Step? && l.w in st.procs && st.procs[l.w].Stream? && st.procs[l.w].key == k ==>
      !st.procs[l.w].pc.AtTrigger?
  {
  }

  lemma MarkedAhead(st: State, w: WorkerId, k: Key)
    requires MarksFirst(st, k.sync) && PendingQueued(st, k.sync) && SentOk(st) && RowsOwned(st)
    requires w in st.procs && st.procs[w].Stream? && st.procs[w].key == k && k in st.rows && st.rows[k].state.Pending?
    ensures TriggerAhead(st.queue, st.procs, k)
  {
    assert StreamTask(k) in st.outbox && TaskOf(st.procs[w]) == StreamTask(k);
    PendingAhead(st, k);
  }

  // ---------------------------------------------------------------------------
  // The finalize task
  // ---------------------------------------------------------------------------

  /** A finalize delivery returns no error only when its session needs no finalizer any more. */
  lemma ReturnedInactive(st: State, w: WorkerId, reply: Reply, s: SyncId)
    requires NoEarlyFinalize(st) && CanStep(st, w, reply)
    requires st.procs[w].Final? && st.procs[w].sync == s && NextFinalPc(st, st.procs[w], reply) == FinalReturned(false)
    requires s in st.sessions && s in NextSessions(st, Step(w, reply))
    ensures !IsActive(NextSessions(st, Step(w, reply))[s].status)
  {
    assert TaskOf(st.procs[w]) == FinalizeTask(s);
  }

  lemma InactiveStays(st: State, l: Label, s: SyncId)
    requires s in NextSessions(st, l) && s in st.sessions && !IsActive(st.sessions[s].status)
    requires l.CreateSession? ==> l.s != s
    requires l.Admit? ==> CanAdmit(st, l.key, l.batch, l.order)
    ensures !IsActive(NextSessions(st, l)[s].status)
  {
    SessionStep(st, l, s);
  }

  lemma FinalReturnedPreserved(st: State, l: Label, s: SyncId, w: WorkerId)
    requires FinalizeAhead(st, s) && NoEarlyFinalize(st) && KeysOk(st) && Enabled(st, l)
    requires w in NextProcs(st, l) && NextProcs(st, l)[w] == Final(s, NextProcs(st, l)[w].final, FinalReturned(false))
    ensures s in NextSessions(st, l) ==> !IsActive(NextSessions(st, l)[s].status)
  {
    FinalProcStep(st, l, w);
    assert Known(st.hist.seen, st.sessions, st.rows, TaskOf(st.procs[w]));
    if s in NextSessions(st, l) {
      SessionStep(st, l, s);
      assert l.CreateSession? ==> CanCreate(st, l.s, l.session);
      if l.Step? && l.w == w && st.procs[w].fpc != FinalReturned(false) {
        ReturnedInactive(st, w, l.reply, s);
      } else {
        InactiveStays(st, l, s);
      }
    }
  }

  lemma FinalizeQueuedPreserved(st: State, l: Label, s: SyncId)
    requires FinalizeAhead(st, s) && NotArchived(st, s) && !Loses(st, l, s)
    requires s in NextSessions(st, l) && NextSessions(st, l)[s].status.Finalizing?
    requires (l.CreateSession? ==> !l.session.status.Finalizing?)
    requires FinalizeTask(s) in NextOutbox(st, l) && NextOutbox(st, l)[FinalizeTask(s)].sent
    requires NoEarlyFinalize(st)
    ensures FinalizeTask(s) in NextQueue(st, l)
  {
    OutboxStep(st, l, FinalizeTask(s));
    SessionStep(st, l, s);
    if l != Enqueue(FinalizeTask(s)) {
      QueueStep(st, l, FinalizeTask(s), s);
    }
  }

  lemma FinalizeAheadPreserved(st: State, l: Label, s: SyncId)
    requires FinalizeAhead(st, s) && NotArchived(st, s) && NoEarlyFinalize(st) && KeysOk(st) && Enabled(st, l)
    requires !Loses(st, l, s)
    ensures FinalizeAhead(Next(st, l), s)
  {
    forall w | w in NextProcs(st, l) && NextProcs(st, l)[w] == Final(s, NextProcs(st, l)[w].final, FinalReturned(false))
      ensures s in NextSessions(st, l) ==> !IsActive(NextSessions(st, l)[s].status)
    { FinalReturnedPreserved(st, l, s, w); }
    assert l.CreateSession? ==> CanCreate(st, l.s, l.session);
    if s in NextSessions(st, l) && NextSessions(st, l)[s].status.Finalizing? &&
      FinalizeTask(s) in NextOutbox(st, l) && NextOutbox(st, l)[FinalizeTask(s)].sent {
      FinalizeQueuedPreserved(st, l, s);
    }
  }

  lemma LosslessPreserved(st: State, l: Label, s: SyncId)
    requires Lossless(st, s) && DispatchOk(st) && KeysOk(st) && Enabled(st, l) && !Loses(st, l, s)
    ensures Lossless(Next(st, l), s)
  {
    NotArchivedPreserved(st, l, s);
    MarksFirstPreserved(st, l, s);
    PendingQueuedPreserved(st, l, s);
    AwakePreserved(st, l, s);
    FinalizeAheadPreserved(st, l, s);
  }
}
