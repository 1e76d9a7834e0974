/** The outbox dispatcher and its reaper, working on the outbox and the queue in place. Rows it has
    claimed may be reset and claimed by another dispatcher while it is still enqueuing them. */
module Dispatcher {
  import opened Wrappers

  import opened SyncState
  import opened SyncMachine
  import opened BatchRows
  import opened Manifests
  import opened WakeUp
  import opened SyncTheorems
  import opened Backend

  const CLAIM_BATCH_SIZE: nat := 100

  lemma ClaimTables(st: State, t: Task)
    requires t in st.outbox
    ensures Next(st, Claim(t)) ==
      st.(outbox := st.outbox[t := st.outbox[t].(status := Enqueuing)], claims := st.claims + multiset{t})
  {
  }

  lemma EnqueueTables(st: State, t: Task)
    ensures Next(st, Enqueue(t)) == st.(
      outbox := if t in st.outbox then st.outbox[t := st.outbox[t].(sent := true)] else st.outbox,
      queue := if t in st.queue || t in st.archived then st.queue else st.queue[t := 0],
      claims := st.claims - multiset{t})
  {
  }

  lemma StatusTables(st: State, t: Task)
    requires t in st.outbox
    ensures Next(st, MarkEnqueued(t)) == st.(outbox := st.outbox[t := st.outbox[t].(status := Enqueued)])
    ensures Next(st, ResetToPending(t)) == st.(outbox := st.outbox[t := st.outbox[t].(status := OutboxPending)])
  {
  }

  /** Of these rows, those being enqueued with another status. */
  function WithStatus(st: State, ts: set<Task>, status: OutboxStatus): State {
    st.(outbox := map t | t in st.outbox ::
      if t in ts && st.outbox[t].status.Enqueuing? then st.outbox[t].(status := status) else st.outbox[t])
  }

  /** These rows claimed. */
  function Claimed(st: State, rows: seq<Task>): State {
    st.(outbox := map t | t in st.outbox :: if t in rows then st.outbox[t].(status := Enqueuing) else st.outbox[t],
        claims := st.claims + multiset(rows))
  }

  /** The rows a claim can take. */
  function Claimable(st: State, locked: set<Task>): set<Task> {
    set t | t in st.outbox && st.outbox[t].status.OutboxPending? && t !in locked
  }

  lemma Cancel(a: multiset<Task>, b: multiset<Task>, rows: multiset<Task>)
    requires a + rows == b + rows
    ensures a == b
  {
    forall t ensures a[t] == b[t] {
      assert (a + rows)[t] == (b + rows)[t];
    }
  }

  lemma ClaimedMore(st: State, rows: seq<Task>, t: Task)
    ensures Claimed(Claimed(st, rows), [t]) == Claimed(st, rows + [t])
  {
    assert multiset(rows + [t]) == multiset(rows) + multiset([t]);
  }

  lemma Split(rows: seq<Task>, i: nat)
    requires i < |rows|
    ensures rows[i] in multiset(rows[i..]) && multiset(rows[i + 1..]) == multiset(rows[i..]) - multiset{rows[i]}
    ensures multiset(rows[..i + 1]) == multiset(rows[..i]) + multiset{rows[i]}
  {
    assert rows[i..] == [rows[i]] + rows[i + 1..] && rows[..i + 1] == rows[..i] + [rows[i]];
  }

  predicate Parted(rows: seq<Task>, ok: seq<Task>, fail: seq<Task>) {
    multiset(rows) == multiset(ok) + multiset(fail)
  }

  lemma PartedMore(rows: seq<Task>, i: nat, ok: seq<Task>, fail: seq<Task>)
    requires i < |rows| && Parted(rows[..i], ok, fail)
    ensures Parted(rows[..i + 1], ok + [rows[i]], fail) && Parted(rows[..i + 1], ok, fail + [rows[i]])
  {
    assert rows[..i + 1] == rows[..i] + [rows[i]];
  }

  lemma AddOnce(rows: seq<Task>, t: Task)
    requires NoDuplicates(rows) && t !in rows
    ensures NoDuplicates(rows + [t]) && Elements(rows + [t]) == Elements(rows) + {t}
  {
  }

  lemma StatusMore(st: State, rows: seq<Task>, t: Task, status: OutboxStatus)
    requires !status.Enqueuing?
    ensures WithStatus(WithStatus(st, Elements(rows), status), {t}, status) ==
      WithStatus(st, Elements(rows + [t]), status)
  {
    assert Elements(rows + [t]) == Elements(rows) + {t};
  }

  lemma DropTables(st: State, t: Task)
    ensures Next(st, DropClaim(t)) == st.(claims := st.claims - multiset{t})
  {
  }

  // ---------------------------------------------------------------------------
  // A task once enqueued stays marked as sent
  // ---------------------------------------------------------------------------

  /** t was enqueued: its row says so while it exists, and no row for it can appear anew. */
  ghost predicate WasSent(st: State, t: Task) {
    && Known(st.hist.seen, st.sessions, st.rows, t)
    && (t in st.outbox ==> st.outbox[t].sent)
    && (t.FinalizeTask? && t.sync in st.sessions ==>
         !st.sessions[t.sync].status.Receiving? && !st.sessions[t.sync].status.Processing?)
  }

  lemma SentStep(st: State, l: Label, t: Task)
    requires KeysOk(st) && Enabled(st, l) && WasSent(st, t)
    ensures WasSent(Next(st, l), t)
  {
    assert l.CreateSession? ==> CanCreate(st, l.s, l.session);
    assert l.Admit? ==> CanAdmit(st, l.key, l.batch, l.order);
    SentNext(st, l, t);
  }

  lemma SentNext(st: State, l: Label, t: Task)
    requires RowsOwned(st) && WasSent(st, t)
    requires l.CreateSession? ==> l.s !in st.hist.seen
    requires l.Admit? ==> CanAdmit(st, l.key, l.batch, l.order)
    ensures WasSent(Next(st, l), t)
  {
    KnownPreserved(st, l, t);
    SentRow(st, l, t);
    if t.FinalizeTask? && t.sync in NextSessions(st, l) {
      SessionStep(st, l, t.sync);
    }
  }

  lemma SentRow(st: State, l: Label, t: Task)
    requires WasSent(st, t) && (l.Admit? ==> CanAdmit(st, l.key, l.batch, l.order))
    ensures t in NextOutbox(st, l) ==> NextOutbox(st, l)[t].sent
  {
    if t in NextOutbox(st, l) {
      OutboxStep(st, l, t);
    }
  }

  lemma {:induction false} SentStays(run: seq<Label>, n: nat, t: Task)
    requires Legal(run) && n <= |run| && WasSent(After(run[..n]), t)
    ensures WasSent(After(run), t)
  {
    if n == |run| {
      assert run[..n] == run;
    } else {
      var front := run[..|run| - 1];
      assert front[..n] == run[..n];
      LastStep(run);
      SentStays(front, n, t);
      InvHolds(front);
      SentStep(After(front), run[|run| - 1], t);
    }
  }

  lemma EnqueuedWasSent(run: seq<Label>, t: Task)
    requires Legal(run) && (t in After(run).queue || t in After(run).archived)
    ensures WasSent(After(run), t)
  {
    InvHolds(run);
  }

  /** At some moment of the run the queue held t, or had given it up. */
  ghost predicate WasQueued(run: seq<Label>, t: Task) {
    exists n | 0 <= n <= |run| :: Queued(After(run[..n]), t)
  }

  predicate Queued(st: State, t: Task) {
    t in st.queue || t in st.archived
  }

  lemma QueuedNow(run: seq<Label>, t: Task)
    requires Queued(After(run), t)
    ensures WasQueued(run, t)
  {
    assert run[..|run|] == run;
    assert Queued(After(run[..|run|]), t);
  }

  lemma QueuedBefore(run: seq<Label>, longer: seq<Label>, t: Task)
    requires run <= longer && WasQueued(run, t)
    ensures WasQueued(longer, t)
  {
    var n :| 0 <= n <= |run| && Queued(After(run[..n]), t);
    assert longer[..n] == run[..n];
  }

  /** A row marked as sent belongs to a task the queue has held. */
  lemma {:induction false} SentWasQueued(run: seq<Label>, t: Task)
    requires Legal(run) && t in After(run).outbox && After(run).outbox[t].sent
    ensures WasQueued(run, t)
  {
    if run == [] {
      NoSteps();
    } else {
      var front, l := run[..|run| - 1], run[|run| - 1];
      LastStep(run);
      OutboxStep(After(front), l, t);
      if t in After(front).outbox && After(front).outbox[t].sent {
        SentWasQueued(front, t);
        QueuedBefore(front, run, t);
      } else {
        EnqueuedNow(After(front), l, t);
        QueuedNow(run, t);
      }
    }
  }

  lemma EnqueuedNow(st: State, l: Label, t: Task)
    requires t in NextOutbox(st, l) && NextOutbox(st, l)[t].sent && !(t in st.outbox && st.outbox[t].sent)
    ensures Queued(Next(st, l), t)
  {
  }

  /** A row that says enqueued does so rightly. */
  lemma EnqueuedExact(run: seq<Label>, t: Task)
    requires Legal(run) && t in After(run).outbox && After(run).outbox[t].status.Enqueued?
    ensures WasQueued(run, t)
  {
    InvHolds(run);
    SentWasQueued(run, t);
  }

  /** What has gone through to the queue stays so. */
  ghost predicate AllSent(run: seq<Label>, rows: seq<Task>) {
    forall t | t in rows :: WasSent(After(run), t) && WasQueued(run, t)
  }

  lemma KeepSent(run: seq<Label>, longer: seq<Label>, rows: seq<Task>)
    requires Legal(longer) && run <= longer && AllSent(run, rows)
    ensures AllSent(longer, rows)
  {
    assert longer[..|run|] == run;
    forall t | t in rows ensures WasSent(After(longer), t) && WasQueued(longer, t) {
      SentStays(longer, |run|, t);
      QueuedBefore(run, longer, t);
    }
  }

  // ---------------------------------------------------------------------------
  // What becomes of a claimed row
  // ---------------------------------------------------------------------------

  /** A claimed row is being enqueued, unless others have moved it on or collected its session. */
  predicate RowTraced(st: State, others: set<Label>, t: Task) {
    Collect(SyncOf(t)) in others ||
      (t in st.outbox &&
        match st.outbox[t].status
        case Enqueuing => true
        case Enqueued => Label.MarkEnqueued(t) in others
        case OutboxPending => Label.ResetToPending(t) in others)
  }

  /** It is marked as enqueued, unless others have reset it or collected its session. */
  predicate RowMarked(st: State, others: set<Label>, t: Task) {
    || Collect(SyncOf(t)) in others || Label.ResetToPending(t) in others
    || (t in st.outbox && st.outbox[t].status.Enqueued?)
  }

  /** It is pending again, unless others have marked it or collected its session. */
  predicate RowGivenBack(st: State, others: set<Label>, t: Task) {
    || Collect(SyncOf(t)) in others
    || (t in st.outbox && (st.outbox[t].status.OutboxPending? || Label.MarkEnqueued(t) in others))
  }

  predicate AllTraced(st: State, others: set<Label>, rows: seq<Task>) {
    forall t | t in rows :: RowTraced(st, others, t)
  }

  predicate AllMarked(st: State, others: set<Label>, rows: seq<Task>) {
    forall t | t in rows :: RowMarked(st, others, t)
  }

  predicate AllGivenBack(st: State, others: set<Label>, rows: seq<Task>) {
    forall t | t in rows :: RowGivenBack(st, others, t)
  }

  /** A step of somebody else. */
  lemma TracedStep(st: State, l: Label, others: set<Label>, t: Task)
    requires Enabled(st, l) && RowTraced(st, others, t)
    ensures RowTraced(Next(st, l), others + {l}, t)
  {
  }

  lemma MarkedStep(st: State, l: Label, others: set<Label>, t: Task)
    requires Enabled(st, l) && RowMarked(st, others, t)
    ensures RowMarked(Next(st, l), others + {l}, t)
  {
  }

  lemma TracedSteps(st: State, l: Label, others: set<Label>, rows: seq<Task>, ok: seq<Task>)
    requires Enabled(st, l) && AllTraced(st, others, rows) && AllMarked(st, others, ok)
    ensures AllTraced(Next(st, l), others + {l}, rows) && AllMarked(Next(st, l), others + {l}, ok)
  {
    forall t | t in rows ensures RowTraced(Next(st, l), others + {l}, t) { TracedStep(st, l, others, t); }
    forall t | t in ok ensures RowMarked(Next(st, l), others + {l}, t) { MarkedStep(st, l, others, t); }
  }

  predicate Apart(ok: seq<Task>, fail: seq<Task>) {
    forall t | t in ok :: t !in fail
  }

  lemma PartsTraced(st: State, others: set<Label>, rows: seq<Task>, ok: seq<Task>, fail: seq<Task>)
    requires AllTraced(st, others, rows) && Parted(rows, ok, fail) && NoDuplicates(rows)
    ensures AllTraced(st, others, ok) && AllTraced(st, others, fail) && Apart(ok, fail)
  {
    forall t | t in ok || t in fail ensures t in rows {
      assert t in multiset(ok) || t in multiset(fail);
      assert t in multiset(rows);
    }
    forall t | t in ok ensures t !in fail {
      assert t in multiset(ok);
      OnceOnly(rows, t);
      assert t in fail ==> t in multiset(fail);
    }
  }

  lemma {:induction false} OnceOnly(rows: seq<Task>, t: Task)
    requires NoDuplicates(rows)
    ensures multiset(rows)[t] <= 1
  {
    if rows != [] {
      var front, last := rows[..|rows| - 1], rows[|rows| - 1];
      OnceOnly(front, t);
      assert rows == front + [last];
      assert last !in front;
    }
  }

  lemma MarkedNow(st: State, after: State, others: set<Label>, ok: seq<Task>, fail: seq<Task>, err: bool)
    requires AllTraced(st, others, ok + fail)
    requires after == WithStatus(st, Elements(ok), Enqueued) || (err && after == st)
    ensures !err ==> AllMarked(after, others, ok)
    ensures Apart(ok, fail) ==> AllTraced(after, others, fail)
  {
    forall t | t in ok || t in fail ensures RowTraced(st, others, t) {
      assert t in ok + fail;
    }
  }

  lemma GivenBackNow(
    st: State, after: State, others: set<Label>, fail: seq<Task>, traced: seq<Task>, marked: seq<Task>, err: bool)
    requires AllTraced(st, others, traced) && AllMarked(st, others, marked)
    requires after == WithStatus(st, Elements(fail), OutboxPending) || (err && after == st)
    ensures AllMarked(after, others, marked)
    ensures !err && traced == fail ==> AllGivenBack(after, others, fail)
  {
  }

  /** The dispatcher's own enqueueing moves no row. */
  lemma SameStatus(st: State, after: State, others: set<Label>, rows: seq<Task>)
    requires AllTraced(st, others, rows) && after.outbox.Keys == st.outbox.Keys
    requires forall t | t in st.outbox :: after.outbox[t].status == st.outbox[t].status
    ensures AllTraced(after, others, rows)
  {
  }

  // ---------------------------------------------------------------------------
  // The dispatcher
  // ---------------------------------------------------------------------------

  class OutboxDispatcher {
    const store: Store

    /** How often an operation has failed. */
    ghost var faults: nat

    /** What the rest of the service has done since the round began. */
    ghost var others: set<Label>

    constructor (store: Store)
      ensures this.store == store
    {
      this.store := store;
      faults, others := 0, {};
    }

    /** Whatever the rest of the service does, other dispatchers included; only their own claims are
        theirs to use. */
    method Meanwhile(mine: multiset<Task>, ghost rows: seq<Task>, ghost ok: seq<Task>)
      requires store.Valid() && mine <= store.db.claims
      requires AllTraced(store.db, others, rows) && AllMarked(store.db, others, ok)
      modifies store, this`others
      ensures store.Valid() && old(store.trace) <= store.trace && mine <= store.db.claims
      ensures AllTraced(store.db, others, rows) && AllMarked(store.db, others, ok)
    {
      var steps: nat := *;
      while steps > 0
        invariant store.Valid() && old(store.trace) <= store.trace && mine <= store.db.claims
        invariant AllTraced(store.db, others, rows) && AllMarked(store.db, others, ok)
      {
        var l: Label := *;
        if Enabled(store.db, l) && mine <= NextClaims(store.db, l) {
          TracedSteps(store.db, l, others, rows, ok);
          store.Apply(l);
          others := others + {l};
        }
        steps := steps - 1;
      }
    }

    method ClaimRow(t: Task)
      requires store.Valid() && t in store.db.outbox && store.db.outbox[t].status.OutboxPending?
      modifies store
      ensures store.Valid() && old(store.trace) <= store.trace
      ensures store.db == Claimed(old(store.db), [t])
    {
      ghost var before := store.db;
      ClaimTables(before, t);
      store.db := store.db.(outbox := store.db.outbox[t := store.db.outbox[t].(status := Enqueuing)],
                            claims := store.db.claims + multiset{t});
      store.RecordRequest(before, Claim(t));
    }

    /** Moves pending rows to enqueuing, up to the limit and but for those another claim has locked.
        The statement may fail, before or after it took effect; the rows of a failed one stay as they
        are until the reaper resets them. */
    method ClaimPending(limit: nat, locked: set<Task>) returns (rows: seq<Task>, err: bool)
      requires store.Valid()
      modifies store, this`faults
      ensures store.Valid() && old(store.trace) <= store.trace
      ensures |rows| <= limit && NoDuplicates(rows)
      ensures forall t | t in rows :: t in old(store.db).outbox && old(store.db).outbox[t].status.OutboxPending?
      ensures !err ==> store.db == Claimed(old(store.db), rows)
      ensures !err && |rows| < limit ==> Claimable(old(store.db), locked) <= Elements(rows)
      ensures err ==> rows == [] && store.db.claims == old(store.db).claims
      ensures faults == old(faults) + if err then 1 else 0
    {
      rows := [];
      err := *;
      var applied: bool := *;
      if !err || applied {
        rows := ClaimRows(limit, locked);
      }
      if err {
        assert store.db.claims == old(store.db.claims) + multiset(rows);
        DropAll(rows);
        Cancel(store.db.claims, old(store.db.claims), multiset(rows));
        faults, rows := faults + 1, [];
      }
    }

    method ClaimRows(limit: nat, locked: set<Task>) returns (rows: seq<Task>)
      requires store.Valid()
      modifies store
      ensures store.Valid() && old(store.trace) <= store.trace
      ensures |rows| <= limit && NoDuplicates(rows)
      ensures forall t | t in rows :: t in old(store.db).outbox && old(store.db).outbox[t].status.OutboxPending?
      ensures store.db == Claimed(old(store.db), rows)
      ensures |rows| < limit ==> Claimable(old(store.db), locked) <= Elements(rows)
    {
      ghost var before := store.db;
      rows := [];
      var todo := Claimable(store.db, locked);
      ghost var all := todo;
      assert Claimed(before, []) == before;
      while todo != {} && |rows| < limit
        invariant store.Valid() && old(store.trace) <= store.trace
        invariant |rows| <= limit && NoDuplicates(rows) && todo <= all && Elements(rows) == all - todo
        invariant store.db == Claimed(before, rows)
      {
        var t :| t in todo;
        assert t !in Elements(rows);
        ClaimRow(t);
        ClaimedMore(before, rows, t);
        AddOnce(rows, t);
        rows, todo := rows + [t], todo - {t};
      }
      assert forall t | t in rows :: t in Elements(rows);
    }

    /** Enqueues t under its identifier; one that is already there counts as success. A failed call
        may have enqueued it all the same. */
    method EnqueueOne(t: Task) returns (ok: bool)
      requires store.Valid() && t in store.db.claims
      modifies store, this`faults
      ensures store.Valid() && old(store.trace) <= store.trace
      ensures store.db.claims == old(store.db).claims - multiset{t}
      ensures ok ==> Queued(store.db, t) && WasSent(store.db, t)
      ensures store.db == Next(old(store.db), Enqueue(t)) || (!ok && store.db == Next(old(store.db), DropClaim(t)))
      ensures faults == old(faults) + if ok then 0 else 1
    {
      ok := *;
      var queued: bool := *;
      if ok || queued {
        Put(t);
      } else {
        Drop(t);
      }
      if !ok {
        faults := faults + 1;
      }
    }

    method Put(t: Task)
      requires store.Valid() && t in store.db.claims
      modifies store
      ensures store.Valid() && old(store.trace) <= store.trace
      ensures store.db.claims == old(store.db).claims - multiset{t}
      ensures Queued(store.db, t) && WasSent(store.db, t)
      ensures store.db == Next(old(store.db), Enqueue(t))
    {
      ghost var before := store.db;
      EnqueueTables(before, t);
      PutTask(t);
      store.RecordRequest(before, Enqueue(t));
      store.ValidLegal();
      EnqueuedWasSent(store.trace, t);
    }

    method PutTask(t: Task)
      modifies store`db
      ensures var st := old(store.db);
        store.db == st.(outbox := if t in st.outbox then st.outbox[t := st.outbox[t].(sent := true)] else st.outbox,
                        queue := if t in st.queue || t in st.archived then st.queue else st.queue[t := 0],
                        claims := st.claims - multiset{t})
    {
      if t in store.db.outbox {
        store.db := store.db.(outbox := store.db.outbox[t := store.db.outbox[t].(sent := true)]);
      }
      if t !in store.db.queue && t !in store.db.archived {
        store.db := store.db.(queue := store.db.queue[t := 0]);
      }
      store.db := store.db.(claims := store.db.claims - multiset{t});
    }

    method Drop(t: Task)
      requires store.Valid() && t in store.db.claims
      modifies store
      ensures store.Valid() && old(store.trace) <= store.trace
      ensures store.db == old(store.db).(claims := old(store.db).claims - multiset{t}) ==
        Next(old(store.db), DropClaim(t))
    {
      ghost var before := store.db;
      DropTables(before, t);
      store.db := store.db.(claims := store.db.claims - multiset{t});
      store.RecordRequest(before, DropClaim(t));
    }

    method DropOne(t: Task)
      requires store.Valid() && t in store.db.claims
      modifies store
      ensures store.Valid() && old(store.trace) <= store.trace
      ensures store.db.claims + multiset{t} == old(store.db).claims
    {
      Drop(t);
    }

    method DropAll(rows: seq<Task>)
      requires store.Valid() && multiset(rows) <= store.db.claims
      modifies store
      ensures store.Valid() && old(store.trace) <= store.trace
      ensures store.db.claims + multiset(rows) == old(store.db).claims
    {
      ghost var claims := store.db.claims;
      for i := 0 to |rows|
        invariant store.Valid() && old(store.trace) <= store.trace
        invariant multiset(rows[i..]) <= store.db.claims && store.db.claims + multiset(rows[..i]) == claims
      {
        Split(rows, i);
        DropOne(rows[i]);
      }
      assert rows[..|rows|] == rows;
    }

    /** Guarded by status = 'enqueuing': a row that moved on is left alone. The rows' tasks were
        enqueued, by this dispatcher before. */
    method MarkEnqueued(rows: seq<Task>) returns (err: bool)
      requires store.Valid() && forall t | t in rows && t in store.db.outbox :: store.db.outbox[t].sent
      modifies store, this`faults
      ensures store.Valid() && old(store.trace) <= store.trace && store.db.claims == old(store.db).claims
      ensures store.db == WithStatus(old(store.db), Elements(rows), Enqueued) || (err && store.db == old(store.db))
      ensures faults == old(faults) + if err then 1 else 0
    {
      err := *;
      var applied: bool := *;
      if !err || applied {
        UpdateStatus(rows, Enqueued);
      }
      if err {
        faults := faults + 1;
      }
    }

    /** Guarded in the same way; used after a failed enqueue and by the reaper. */
    method ResetToPending(rows: seq<Task>) returns (err: bool)
      requires store.Valid()
      modifies store, this`faults
      ensures store.Valid() && old(store.trace) <= store.trace && store.db.claims == old(store.db).claims
      ensures store.db == WithStatus(old(store.db), Elements(rows), OutboxPending) || (err && store.db == old(store.db))
      ensures faults == old(faults) + if err then 1 else 0
    {
      err := *;
      var applied: bool := *;
      if !err || applied {
        UpdateStatus(rows, OutboxPending);
      }
      if err {
        faults := faults + 1;
      }
    }

    method UpdateStatus(rows: seq<Task>, status: OutboxStatus)
      requires store.Valid() && !status.Enqueuing?
      requires status.Enqueued? ==> forall t | t in rows && t in store.db.outbox :: store.db.outbox[t].sent
      modifies store
      ensures store.Valid() && old(store.trace) <= store.trace
      ensures store.db == WithStatus(old(store.db), Elements(rows), status)
    {
      ghost var before := store.db;
      assert WithStatus(before, {}, status) == before;
      for i := 0 to |rows|
        invariant store.Valid() && old(store.trace) <= store.trace
        invariant store.db == WithStatus(before, Elements(rows[..i]), status)
      {
        assert rows[..i + 1] == rows[..i] + [rows[i]];
        UpdateRow(rows[i], status);
        StatusMore(before, rows[..i], rows[i], status);
      }
      assert rows[..|rows|] == rows;
    }

    method UpdateRow(t: Task, status: OutboxStatus)
      requires store.Valid() && !status.Enqueuing?
      requires status.Enqueued? && t in store.db.outbox ==> store.db.outbox[t].sent
      modifies store
      ensures store.Valid() && old(store.trace) <= store.trace
      ensures store.db == WithStatus(old(store.db), {t}, status)
    {
      ghost var before := store.db;
      if t in store.db.outbox && store.db.outbox[t].status.Enqueuing? {
        StatusTables(before, t);
        store.db := store.db.(outbox := store.db.outbox[t := store.db.outbox[t].(status := status)]);
        store.RecordRequest(before, if status.Enqueued? then Label.MarkEnqueued(t) else Label.ResetToPending(t));
      } else {
        assert WithStatus(before, {t}, status) == before;
      }
    }

    /** Meanwhile, tasks that have gone through stay so. */
    method Pause(mine: multiset<Task>, ghost ok: seq<Task>, ghost rows: seq<Task>, ghost marked: seq<Task>)
      requires store.Valid() && mine <= store.db.claims && AllSent(store.trace, ok)
      requires AllTraced(store.db, others, rows) && AllMarked(store.db, others, marked)
      modifies store, this`others
      ensures store.Valid() && old(store.trace) <= store.trace && mine <= store.db.claims && AllSent(store.trace, ok)
      ensures AllTraced(store.db, others, rows) && AllMarked(store.db, others, marked)
    {
      ghost var run := store.trace;
      Meanwhile(mine, rows, marked);
      store.ValidLegal();
      KeepSent(run, store.trace, ok);
    }

    /** The second phase, without any lock held. */
    method EnqueueAll(rows: seq<Task>) returns (ok: seq<Task>, fail: seq<Task>)
      requires store.Valid() && multiset(rows) <= store.db.claims && AllTraced(store.db, others, rows)
      modifies store, this`faults, this`others
      ensures store.Valid() && old(store.trace) <= store.trace && AllTraced(store.db, others, rows)
      ensures multiset(rows) == multiset(ok) + multiset(fail) && AllSent(store.trace, ok)
      ensures faults == old(faults) + |fail|
    {
      ok, fail := [], [];
      assert rows[0..] == rows && rows[..0] == [];
      for i := 0 to |rows|
        invariant store.Valid() && old(store.trace) <= store.trace && multiset(rows[i..]) <= store.db.claims
        invariant Parted(rows[..i], ok, fail) && AllSent(store.trace, ok) && AllTraced(store.db, others, rows)
        invariant faults == old(faults) + |fail|
      {
        var through := EnqueueTurn(rows, i, ok);
        PartedMore(rows, i, ok, fail);
        if through {
          ok := ok + [rows[i]];
        } else {
          fail := fail + [rows[i]];
        }
      }
      assert rows[..|rows|] == rows;
    }

    method EnqueueTurn(rows: seq<Task>, i: nat, ghost ok: seq<Task>) returns (through: bool)
      requires store.Valid() && i < |rows| && multiset(rows[i..]) <= store.db.claims && AllSent(store.trace, ok)
      requires AllTraced(store.db, others, rows)
      modifies store, this`faults, this`others
      ensures store.Valid() && old(store.trace) <= store.trace && multiset(rows[i + 1..]) <= store.db.claims
      ensures AllSent(store.trace, if through then ok + [rows[i]] else ok) && AllTraced(store.db, others, rows)
      ensures faults == old(faults) + if through then 0 else 1
    {
      Pause(multiset(rows[i..]), ok, rows, []);
      Split(rows, i);
      through := EnqueueNext(rows[i], ok, rows);
    }

    method EnqueueNext(t: Task, ghost ok: seq<Task>, ghost rows: seq<Task>) returns (through: bool)
      requires store.Valid() && t in store.db.claims && AllSent(store.trace, ok) && AllTraced(store.db, others, rows)
      modifies store, this`faults
      ensures store.Valid() && old(store.trace) <= store.trace && AllTraced(store.db, others, rows)
      ensures store.db.claims == old(store.db).claims - multiset{t}
      ensures AllSent(store.trace, if through then ok + [t] else ok)
      ensures faults == old(faults) + if through then 0 else 1
    {
      ghost var run, before := store.trace, store.db;
      through := EnqueueOne(t);
      SameStatus(before, store.db, others, rows);
      store.ValidLegal();
      KeepSent(run, store.trace, ok);
      if through {
        QueuedNow(store.trace, t);
      }
    }

    /** One round: claim, enqueue each claimed row, mark those that went through and reset the others.
        Between any two operations the rest of the service goes on, and any operation may fail. A row
        the round marks as enqueued is one whose task the queue has held. When nothing failed but the
        enqueueing of `fail`, the rows of the others are marked afterwards and those of `fail` are
        pending, unless somebody else has moved them. */
    method DrainRound(limit: nat, locked: set<Task>) returns (rows: seq<Task>, ok: seq<Task>, fail: seq<Task>)
      requires store.Valid()
      modifies store, this`faults, this`others
      ensures store.Valid() && old(store.trace) <= store.trace && faults >= old(faults) + |fail|
      ensures forall t | t in rows :: t in old(store.db).outbox && old(store.db).outbox[t].status.OutboxPending?
      ensures multiset(rows) == multiset(ok) + multiset(fail)
      ensures rows == [] && limit > 0 && faults == old(faults) ==>
        Claimable(store.db, locked) == {}
      ensures forall t | t in ok :: WasQueued(store.trace, t)
      ensures faults == old(faults) + |fail| ==>
        AllMarked(store.db, others, ok) && AllGivenBack(store.db, others, fail)
      ensures EnqueuedRightly()
    {
      var err;
      ok, fail, others := [], [], {};
      rows, err := ClaimPending(limit, locked);
      store.ValidLegal();
      if !err && |rows| > 0 {
        ok, fail := EnqueueAll(rows);
        PartsTraced(store.db, others, rows, ok, fail);
        var _, _ := Finish(ok, fail);
      } else if !err {
        assert Claimed(old(store.db), []) == old(store.db);
      }
      MarkedRightly();
    }

    /** The third phase. A failed update leaves its rows enqueuing, for the reaper. */
    method Finish(ok: seq<Task>, fail: seq<Task>) returns (markErr: bool, resetErr: bool)
      requires store.Valid() && AllSent(store.trace, ok)
      requires AllTraced(store.db, others, ok) && AllTraced(store.db, others, fail)
      modifies store, this`faults, this`others
      ensures store.Valid() && old(store.trace) <= store.trace && AllSent(store.trace, ok)
      ensures faults == old(faults) + (if markErr then 1 else 0) + (if resetErr then 1 else 0)
      ensures !markErr && !resetErr && Apart(ok, fail) ==>
        AllMarked(store.db, others, ok) && AllGivenBack(store.db, others, fail)
    {
      markErr := MarkOk(ok, fail);
      resetErr := ResetFail(ok, fail, if markErr then [] else ok);
    }

    method MarkOk(ok: seq<Task>, ghost fail: seq<Task>) returns (err: bool)
      requires store.Valid() && AllSent(store.trace, ok)
      requires AllTraced(store.db, others, ok) && AllTraced(store.db, others, fail)
      modifies store, this`faults, this`others
      ensures store.Valid() && old(store.trace) <= store.trace && AllSent(store.trace, ok)
      ensures faults == old(faults) + if err then 1 else 0
      ensures !err ==> AllMarked(store.db, others, ok)
      ensures Apart(ok, fail) ==> AllTraced(store.db, others, fail)
    {
      err := false;
      if |ok| > 0 {
        Pause(multiset{}, ok, ok + fail, []);
        ghost var run, before := store.trace, store.db;
        store.ValidLegal();
        err := MarkEnqueued(ok);
        MarkedNow(before, store.db, others, ok, fail, err);
        store.ValidLegal();
        KeepSent(run, store.trace, ok);
      }
    }

    method ResetFail(ghost ok: seq<Task>, fail: seq<Task>, ghost marked: seq<Task>) returns (err: bool)
      requires store.Valid() && AllSent(store.trace, ok) && AllMarked(store.db, others, marked)
      modifies store, this`faults, this`others
      ensures store.Valid() && old(store.trace) <= store.trace && AllSent(store.trace, ok)
      ensures faults == old(faults) + if err then 1 else 0
      ensures AllMarked(store.db, others, marked)
      ensures !err && old(AllTraced(store.db, others, fail)) ==> AllGivenBack(store.db, others, fail)
    {
      err := false;
      if |fail| > 0 {
        ghost var traced := if AllTraced(store.db, others, fail) then fail else [];
        Pause(multiset{}, ok, traced, marked);
        ghost var run, before := store.trace, store.db;
        err := ResetToPending(fail);
        GivenBackNow(before, store.db, others, fail, traced, marked, err);
        store.ValidLegal();
        KeepSent(run, store.trace, ok);
      }
    }

    ghost predicate EnqueuedRightly()
      reads store
    {
      forall t | t in store.db.outbox && store.db.outbox[t].status.Enqueued? :: WasQueued(store.trace, t)
    }

    lemma MarkedRightly()
      requires store.Valid()
      ensures EnqueuedRightly()
    {
      store.ValidLegal();
      forall t | t in store.db.outbox && store.db.outbox[t].status.Enqueued? ensures WasQueued(store.trace, t) {
        EnqueuedExact(store.trace, t);
      }
    }

    /** Rounds until nothing is claimed, a claim fails, or the dispatcher is told to stop. */
    method DrainPending(locked: set<Task>)
      requires store.Valid()
      modifies store, this`faults, this`others
      ensures store.Valid() && old(store.trace) <= store.trace && EnqueuedRightly()
    {
      var patience: nat := *;
      var more := true;
      while patience > 0 && more
        invariant store.Valid() && old(store.trace) <= store.trace
        decreases patience
      {
        var rows, _, _ := DrainRound(CLAIM_BATCH_SIZE, locked);
        more := |rows| > 0;
        patience := patience - 1;
      }
      MarkedRightly();
    }
  }
}
