/** When a processing session whose batches are all terminal can still be finalized: exactly as long
    as some of its batch work is left that has a TryEnqueue ahead. */
module WakeUpExact {
  import opened Wrappers

  import opened MerkleTree
  import opened SyncState
  import opened SyncMachine
  import opened SyncTheorems

  // ---------------------------------------------------------------------------
  // Continuations
  // ---------------------------------------------------------------------------

  /** The labels can be taken one after another from st and lead to end. */
  ghost predicate Leads(st: State, ls: seq<Label>, end: State)
    decreases |ls|
  {
    if ls == [] then st == end else Enabled(st, ls[0]) && Leads(Next(st, ls[0]), ls[1..], end)
  }

  lemma {:induction false} ExtendAll(run: seq<Label>, ls: seq<Label>, end: State)
    requires Legal(run) && Leads(After(run), ls, end)
    ensures Legal(run + ls) && After(run + ls) == end
    decreases |ls|
  {
    if ls == [] {
      assert run + ls == run;
    } else {
      Extend(run, ls[0]);
      ExtendAll(run + [ls[0]], ls[1..], end);
      assert run + [ls[0]] + ls[1..] == run + ls;
    }
  }

  /** A continuation of a legal run leads on from its last state. */
  lemma {:induction false} Continues(run: seq<Label>, ls: seq<Label>)
    requires Legal(run + ls)
    ensures Legal(run) && Leads(After(run), ls, After(run + ls))
    decreases |ls|
  {
    if ls == [] {
      assert run + ls == run;
    } else {
      assert run + [ls[0]] + ls[1..] == run + ls;
      Continues(run + [ls[0]], ls[1..]);
      LastStep(run + [ls[0]]);
      assert (run + [ls[0]])[..|run|] == run;
    }
  }

  predicate IsFinalizing(st: State, s: SyncId) {
    s in st.sessions && st.sessions[s].status.Finalizing?
  }

  ghost predicate CanFinalize(st: State, s: SyncId) {
    exists ls, end :: Leads(st, ls, end) && IsFinalizing(end, s)
  }

  lemma FinalizesNow(st: State, s: SyncId)
    requires IsFinalizing(st, s)
    ensures CanFinalize(st, s)
  {
    assert Leads(st, [], st);
  }

  lemma FinalizesAfter(st: State, l: Label, s: SyncId)
    requires Enabled(st, l) && CanFinalize(Next(st, l), s)
    ensures CanFinalize(st, s)
  {
    var ls, end :| Leads(Next(st, l), ls, end) && IsFinalizing(end, s);
    LeadsFrom(st, l, ls, end);
  }

  lemma LeadsFrom(st: State, l: Label, ls: seq<Label>, end: State)
    requires Enabled(st, l) && Leads(Next(st, l), ls, end)
    ensures Leads(st, [l] + ls, end)
  {
    assert ([l] + ls)[0] == l && ([l] + ls)[1..] == ls;
  }

  // ---------------------------------------------------------------------------
  // Work that is left
  // ---------------------------------------------------------------------------

  /** The batch's task is queued, or a dispatcher can still bring it into the queue. */
  predicate TaskLeft(st: State, k: Key) {
    var t := StreamTask(k);
    || t in st.queue
    || (t !in st.archived && (t in st.claims || (t in st.outbox && !st.outbox[t].status.Enqueued?)))
  }

  /** A delivery of a batch of the session has its TryEnqueue ahead. */
  predicate Working(p: Proc, s: SyncId) {
    p.Stream? && p.key.sync == s && !p.pc.BatchReturned?
  }

  ghost predicate CanWake(st: State, s: SyncId) {
    || (exists k: Key :: k.sync == s && TaskLeft(st, k))
    || (exists w | w in st.procs :: Working(st.procs[w], s))
  }

  /** Processing, with every batch terminal. */
  predicate Waiting(st: State, s: SyncId) {
    s in st.sessions && st.sessions[s].status.Processing? && Ready(st.rows, s)
  }

  // ---------------------------------------------------------------------------
  // What is left is enough
  // ---------------------------------------------------------------------------

  function StepsAhead(pc: BatchPc): nat {
    match pc
    case AtGet => 6
    case AtLoadSession(_, _) => 5
    case AtIndex(_, _) => 4
    case AtMarkSucceeded(_, _) => 3
    case AtMarkFailed(_) => 3
    case AtDel => 2
    case AtTrigger => 1
    case BatchReturned(_) => 0
  }

  function GoodReply(pc: BatchPc): Reply {
    if pc.AtIndex? then Stats(Indexed(map[], {})) else Fine
  }

  lemma TriggerFlips(st: State, s: SyncId, w: WorkerId)
    requires Waiting(st, s) && w in st.procs && Working(st.procs[w], s) && st.procs[w].pc.AtTrigger?
    ensures Enabled(st, Step(w, Fine)) && IsFinalizing(Next(st, Step(w, Fine)), s)
  {
  }

  lemma GoodStep(st: State, s: SyncId, w: WorkerId)
    requires Waiting(st, s) && w in st.procs && Working(st.procs[w], s) && !st.procs[w].pc.AtTrigger?
    ensures var l := Step(w, GoodReply(st.procs[w].pc));
      && Enabled(st, l) && NextSessions(st, l) == st.sessions && NextRows(st, l) == st.rows
      && w in NextProcs(st, l) && Working(NextProcs(st, l)[w], s)
      && StepsAhead(NextProcs(st, l)[w].pc) < StepsAhead(st.procs[w].pc)
  {
  }

  lemma {:induction false} WorkFinalizes(st: State, s: SyncId, w: WorkerId)
    requires Waiting(st, s) && w in st.procs && Working(st.procs[w], s)
    ensures CanFinalize(st, s)
    decreases StepsAhead(st.procs[w].pc)
  {
    if st.procs[w].pc.AtTrigger? {
      TriggerFlips(st, s, w);
      FinalizesNow(Next(st, Step(w, Fine)), s);
      FinalizesAfter(st, Step(w, Fine), s);
    } else {
      var l := Step(w, GoodReply(st.procs[w].pc));
      GoodStep(st, s, w);
      WorkFinalizes(Next(st, l), s, w);
      FinalizesAfter(st, l, s);
    }
  }

  lemma StartStep(st: State, k: Key, w: WorkerId)
    requires StreamTask(k) in st.queue && w !in st.procs
    ensures var l := Start(w, StreamTask(k));
      && Enabled(st, l) && NextSessions(st, l) == st.sessions && NextRows(st, l) == st.rows
      && w in NextProcs(st, l) && Working(NextProcs(st, l)[w], k.sync)
  {
  }

  lemma QueueFinalizes(st: State, k: Key)
    requires Waiting(st, k.sync) && StreamTask(k) in st.queue
    ensures CanFinalize(st, k.sync)
  {
    var w := FirstFree(st.procs.Keys, 0);
    var l := Start(w, StreamTask(k));
    StartStep(st, k, w);
    WorkFinalizes(Next(st, l), k.sync, w);
    FinalizesAfter(st, l, k.sync);
  }

  lemma EnqueueStep(st: State, k: Key)
    requires StreamTask(k) in st.claims && StreamTask(k) !in st.archived
    ensures var l := Enqueue(StreamTask(k));
      && Enabled(st, l) && NextSessions(st, l) == st.sessions && NextRows(st, l) == st.rows
      && StreamTask(k) in NextQueue(st, l)
  {
  }

  lemma ClaimFinalizes(st: State, k: Key)
    requires Waiting(st, k.sync) && StreamTask(k) in st.claims && StreamTask(k) !in st.archived
    ensures CanFinalize(st, k.sync)
  {
    EnqueueStep(st, k);
    QueueFinalizes(Next(st, Enqueue(StreamTask(k))), k);
    FinalizesAfter(st, Enqueue(StreamTask(k)), k.sync);
  }

  lemma ClaimStep(st: State, k: Key)
    requires StreamTask(k) in st.outbox && st.outbox[StreamTask(k)].status.OutboxPending?
    ensures var l := Claim(StreamTask(k));
      && Enabled(st, l) && NextSessions(st, l) == st.sessions && NextRows(st, l) == st.rows
      && NextArchived(st, l) == st.archived && StreamTask(k) in NextClaims(st, l)
  {
  }

  lemma ResetStep(st: State, k: Key)
    requires StreamTask(k) in st.outbox && st.outbox[StreamTask(k)].status.Enqueuing?
    ensures var l := ResetToPending(StreamTask(k));
      && Enabled(st, l) && NextSessions(st, l) == st.sessions && NextRows(st, l) == st.rows
      && NextArchived(st, l) == st.archived
      && StreamTask(k) in NextOutbox(st, l) && NextOutbox(st, l)[StreamTask(k)].status.OutboxPending?
  {
  }

  lemma {:induction false} RowFinalizes(st: State, k: Key)
    requires Waiting(st, k.sync) && StreamTask(k) !in st.archived
    requires StreamTask(k) in st.outbox && !st.outbox[StreamTask(k)].status.Enqueued?
    ensures CanFinalize(st, k.sync)
    decreases if st.outbox[StreamTask(k)].status.Enqueuing? then 1 else 0
  {
    if st.outbox[StreamTask(k)].status.Enqueuing? {
      ResetStep(st, k);
      RowFinalizes(Next(st, ResetToPending(StreamTask(k))), k);
      FinalizesAfter(st, ResetToPending(StreamTask(k)), k.sync);
    } else {
      ClaimStep(st, k);
      ClaimFinalizes(Next(st, Claim(StreamTask(k))), k);
      FinalizesAfter(st, Claim(StreamTask(k)), k.sync);
    }
  }

  lemma WakeFinalizes(st: State, s: SyncId)
    requires Waiting(st, s) && CanWake(st, s)
    ensures CanFinalize(st, s)
  {
    if w :| w in st.procs && Working(st.procs[w], s) {
      WorkFinalizes(st, s, w);
    } else {
      var k: Key :| k.sync == s && TaskLeft(st, k);
      if StreamTask(k) in st.queue {
        QueueFinalizes(st, k);
      } else if StreamTask(k) in st.claims {
        ClaimFinalizes(st, k);
      } else {
        RowFinalizes(st, k);
      }
    }
  }

  // ---------------------------------------------------------------------------
  // And nothing else is
  // ---------------------------------------------------------------------------

  /** No batch work of the session is left, and it is neither finalized nor able to take batches. */
  ghost predicate Dead(st: State, s: SyncId) {
    && s in st.hist.seen && !CanWake(st, s)
    && (s in st.sessions ==>
         st.sessions[s].status.Processing? || st.sessions[s].status.Failed? || st.sessions[s].status.Expired?)
  }

  lemma DeadSession(st: State, l: Label, s: SyncId)
    requires Dead(st, s) && s in NextSessions(st, l)
    requires l.CreateSession? ==> l.s !in st.hist.seen
    requires l.Admit? ==> l.key.sync in st.sessions && st.sessions[l.key.sync].status.Receiving?
    ensures var status := NextSessions(st, l)[s].status; status.Processing? || status.Failed? || status.Expired?
  {
    assert forall w | w in st.procs :: !Working(st.procs[w], s);
  }

  lemma DeadTask(st: State, l: Label, k: Key)
    requires Dead(st, k.sync) && !TaskLeft(st, k)
    requires l.Admit? ==> l.key.sync in st.sessions && st.sessions[l.key.sync].status.Receiving?
    requires l.Claim? ==> l.task in st.outbox && st.outbox[l.task].status.OutboxPending?
    requires l.ResetToPending? ==> l.task in st.outbox && st.outbox[l.task].status.Enqueuing?
    requires l.Enqueue? ==> l.task in st.claims
    ensures !TaskLeft(Next(st, l), k)
  {
  }

  lemma DeadProcs(st: State, l: Label, s: SyncId)
    requires Dead(st, s) && (l.Start? ==> l.task in st.queue)
    requires l.Step? ==> l.w in st.procs && (st.procs[l.w].Stream? ==> BatchReply(st.procs[l.w].pc, l.reply))
    ensures forall w | w in NextProcs(st, l) :: !Working(NextProcs(st, l)[w], s)
  {
    assert l.Start? && l.task.StreamTask? ==> TaskLeft(st, l.task.key);
    forall w | w in NextProcs(st, l) ensures !Working(NextProcs(st, l)[w], s) {
      assert w in st.procs ==> !Working(st.procs[w], s);
    }
  }

  lemma DeadStays(st: State, l: Label, s: SyncId)
    requires Dead(st, s) && Enabled(st, l)
    ensures Dead(Next(st, l), s)
  {
    assert l.CreateSession? ==> CanCreate(st, l.s, l.session);
    assert l.Admit? ==> CanAdmit(st, l.key, l.batch, l.order);
    assert l.Step? ==> CanStep(st, l.w, l.reply);
    DeadNext(st, l, s);
  }

  lemma DeadNext(st: State, l: Label, s: SyncId)
    requires Dead(st, s)
    requires l.CreateSession? ==> l.s !in st.hist.seen
    requires l.Admit? ==> l.key.sync in st.sessions && st.sessions[l.key.sync].status.Receiving?
    requires l.Claim? ==> l.task in st.outbox && st.outbox[l.task].status.OutboxPending?
    requires l.ResetToPending? ==> l.task in st.outbox && st.outbox[l.task].status.Enqueuing?
    requires l.Enqueue? ==> l.task in st.claims
    requires l.Start? ==> l.task in st.queue
    requires l.Step? ==> l.w in st.procs && (st.procs[l.w].Stream? ==> BatchReply(st.procs[l.w].pc, l.reply))
    ensures Dead(Next(st, l), s)
  {
    if s in NextSessions(st, l) {
      DeadSession(st, l, s);
    }
    forall k: Key | k.sync == s ensures !TaskLeft(Next(st, l), k) {
      DeadTask(st, l, k);
    }
    DeadProcs(st, l, s);
    SeenStays(st, l, s);
  }

  lemma SeenStays(st: State, l: Label, s: SyncId)
    requires s in st.hist.seen
    ensures s in NextHist(st, l).seen
  {
  }

  lemma {:induction false} DeadForever(st: State, ls: seq<Label>, end: State, s: SyncId)
    requires Dead(st, s) && Leads(st, ls, end)
    ensures Dead(end, s)
    decreases |ls|
  {
    if ls != [] {
      DeadStays(st, ls[0], s);
      DeadForever(Next(st, ls[0]), ls[1..], end, s);
    }
  }

  // ---------------------------------------------------------------------------
  // Exactly
  // ---------------------------------------------------------------------------

  /** Some continuation of the run finalizes the session. */
  ghost predicate SomeRunFinalizes(run: seq<Label>, s: SyncId) {
    exists more :: Legal(run + more) && IsFinalizing(After(run + more), s)
  }

  lemma SeenWhenThere(run: seq<Label>, s: SyncId)
    requires Legal(run) && s in After(run).sessions
    ensures s in After(run).hist.seen
  {
    InvHolds(run);
  }

  /** A processing session with all its batches terminal can still be finalized exactly when a task of
      one of its batches is queued, or is claimed or not yet enqueued and was not given up, or a
      delivery of one has its TryEnqueue ahead. */
  lemma WakesExactly(run: seq<Label>, s: SyncId)
    requires Legal(run) && Waiting(After(run), s)
    ensures SomeRunFinalizes(run, s) <==> CanWake(After(run), s)
  {
    if CanWake(After(run), s) {
      WakeFinalizes(After(run), s);
      var ls, end :| Leads(After(run), ls, end) && IsFinalizing(end, s);
      ExtendAll(run, ls, end);
    } else {
      SeenWhenThere(run, s);
      forall more | Legal(run + more) ensures !IsFinalizing(After(run + more), s) {
        Continues(run, more);
        DeadForever(After(run), more, After(run + more), s);
      }
    }
  }

  /** Once no work is left, the session is never finalized or done, whatever happens after. */
  lemma DeadAfterwards(run: seq<Label>, more: seq<Label>, s: SyncId)
    requires Legal(run) && Waiting(After(run), s) && !CanWake(After(run), s) && Legal(run + more)
    ensures var st := After(run + more);
      s in st.sessions ==>
        st.sessions[s].status.Processing? || st.sessions[s].status.Failed? || st.sessions[s].status.Expired?
  {
    SeenWhenThere(run, s);
    Continues(run, more);
    DeadForever(After(run), more, After(run + more), s);
  }
}
