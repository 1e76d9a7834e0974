/** Statements about stretches of a run: what never changes back, and when a wake-up is lost. */
module SyncRuns {
  import opened MerkleTree
  import opened SyncState
  import opened SyncMachine
  import opened MerkleCommits
  import opened BatchRows
  import opened Manifests
  import opened Finalization
  import opened WakeUp
  import opened SyncTheorems

  // ---------------------------------------------------------------------------
  // Batches
  // ---------------------------------------------------------------------------

  lemma {:induction false} HistoryKept(run: seq<Label>, n: nat)
    requires Legal(run) && n <= |run|
    ensures HistoryGrows(After(run[..n]).hist, After(run).hist)
  {
    if n == |run| {
      assert run[..n] == run;
    } else {
      var m := |run| - 1;
      LastStep(run);
      HistoryKept(run[..m], n);
      assert run[..m][..n] == run[..n];
      InvHolds(run[..m]);
      HistoryPreserved(After(run[..m]), run[m]);
    }
  }

  /** However often its task is delivered, a batch that has left pending keeps its outcome and its
      failed sets. */
  lemma OutcomeFixed(run: seq<Label>, n: nat, k: Key)
    requires Legal(run) && n <= |run|
    requires k in After(run[..n]).rows && !After(run[..n]).rows[k].state.Pending?
    ensures k in After(run).rows ==> After(run).rows[k] == After(run[..n]).rows[k]
  {
    PrefixLegal(run, n);
    InvHolds(run[..n]);
    InvHolds(run);
    HistoryKept(run, n);
  }

  /** The label moves the batch out of pending. */
  predicate Marks(st: State, l: Label, k: Key) {
    l.Step? && l.w in st.procs && st.procs[l.w].Stream? && st.procs[l.w].key == k &&
      MarksRow(st, st.procs[l.w], l.reply)
  }

  lemma MarkIsStamped(st: State, l: Label, k: Key)
    requires Marks(st, l, k)
    ensures k in NextHist(st, l).stamped
  {
  }

  lemma MarkStays(run: seq<Label>, i: nat, k: Key)
    requires Legal(run) && i < |run| && Marks(After(run[..i]), run[i], k)
    ensures k in After(run).hist.stamped
  {
    HistoryKept(run, i + 1);
    var first := run[..i + 1];
    assert first[..i] == run[..i] && first[i] == run[i];
    PrefixLegal(run, i + 1);
    LastStep(first);
    MarkIsStamped(After(run[..i]), run[i], k);
  }

  /** A batch leaves pending at most once. */
  lemma MarkedOnce(run: seq<Label>, i: nat, j: nat, k: Key)
    requires Legal(run) && i < j < |run| && Marks(After(run[..i]), run[i], k)
    ensures !Marks(After(run[..j]), run[j], k)
  {
    var upto := run[..j];
    PrefixLegal(run, j);
    assert upto[..i] == run[..i] && upto[i] == run[i];
    MarkStays(upto, i, k);
    InvHolds(upto);
  }

  lemma KnownStep(st: State, l: Label, k: Key)
    requires KeysOk(st) && Enabled(st, l)
    requires Known(st.hist.seen, st.sessions, st.rows, StreamTask(k)) || (l.Admit? && l.key == k)
    ensures Known(NextHist(st, l).seen, NextSessions(st, l), NextRows(st, l), StreamTask(k))
  {
    assert l.CreateSession? ==> CanCreate(st, l.s, l.session);
    if Known(st.hist.seen, st.sessions, st.rows, StreamTask(k)) {
      KnownPreserved(st, l, StreamTask(k));
    }
  }

  /** Once admitted, a batch stays known: while its session exists, so does its row. */
  lemma {:induction false} AdmittedStays(run: seq<Label>, i: nat, k: Key)
    requires Legal(run) && i < |run| && run[i].Admit? && run[i].key == k
    ensures Known(After(run).hist.seen, After(run).sessions, After(run).rows, StreamTask(k))
  {
    var n := |run| - 1;
    LastStep(run);
    InvHolds(run[..n]);
    if i < n {
      AdmittedStays(run[..n], i, k);
    }
    KnownStep(After(run[..n]), run[n], k);
  }

  lemma AdmitIsNew(run: seq<Label>)
    requires Legal(run) && run != [] && run[|run| - 1].Admit?
    ensures var front := run[..|run| - 1]; var k := run[|run| - 1].key;
      Legal(front) && k.sync in After(front).sessions && k !in After(front).rows
  {
    var l := run[|run| - 1];
    LastStep(run);
    assert CanAdmit(After(run[..|run| - 1]), l.key, l.batch, l.order);
  }

  /** However often a client posts it, a batch is admitted at most once. */
  lemma AdmittedOnce(run: seq<Label>, i: nat, j: nat)
    requires Legal(run) && i < j < |run| && run[i].Admit? && run[j].Admit?
    ensures run[i].key != run[j].key
  {
    var upto := run[..j + 1];
    assert upto[..j] == run[..j] && upto[j] == run[j];
    PrefixLegal(run, j + 1);
    AdmitIsNew(upto);
    if run[i].key == run[j].key {
      AdmittedStays(run[..j], i, run[j].key);
    }
  }

  /** A delivery that returns an error left the content in place; one that returns none has deleted
      it and tried to trigger the finalizer. */
  lemma ErrorKeepsContent(run: seq<Label>, w: WorkerId)
    requires Legal(run) && w in After(run).procs && After(run).procs[w].Stream? && After(run).procs[w].pc.BatchReturned?
    ensures var p := After(run).procs[w]; p.deleted == p.triggered == !p.pc.err
  {
    InvHolds(run);
    assert DeliveryOk(After(run).procs[w]);
  }

  // ---------------------------------------------------------------------------
  // Sessions
  // ---------------------------------------------------------------------------

  function Rank(status: Status): nat {
    match status
    case Receiving => 0
    case Processing => 1
    case Finalizing => 2
    case _ => 3
  }

  ghost predicate Forward(x: Session, y: Session) {
    && x.identity == y.identity && x.repo == y.repo && x.client == y.client
    && x.expectedFiles == y.expectedFiles && x.expectedDeletes == y.expectedDeletes
    && Rank(x.status) <= Rank(y.status)
    && (!IsActive(x.status) ==> x == y)
  }

  lemma ForwardStep(st: State, l: Label, s: SyncId)
    requires KeysOk(st) && s in st.hist.seen && s in NextSessions(st, l)
    requires l.CreateSession? ==> l.s !in st.hist.seen
    requires l.Admit? ==> CanAdmit(st, l.key, l.batch, l.order)
    ensures s in st.sessions && Forward(st.sessions[s], NextSessions(st, l)[s])
  {
    SessionStep(st, l, s);
  }

  lemma StaysSeen(run: seq<Label>, n: nat, s: SyncId)
    requires Legal(run) && n <= |run| && s in After(run[..n]).sessions
    ensures s in After(run).hist.seen
  {
    PrefixLegal(run, n);
    InvHolds(run[..n]);
    HistoryKept(run, n);
  }

  lemma LastStepForward(run: seq<Label>, s: SyncId)
    requires Legal(run) && run != [] && s in After(run[..|run| - 1]).hist.seen && s in After(run).sessions
    ensures var st := After(run[..|run| - 1]); s in st.sessions && Forward(st.sessions[s], After(run).sessions[s])
  {
    var m := |run| - 1;
    var st := After(run[..m]);
    LastStep(run);
    InvHolds(run[..m]);
    assert run[m].CreateSession? ==> CanCreate(st, run[m].s, run[m].session);
    ForwardStep(st, run[m], s);
  }

  /** The status of a session never moves back, and a terminal session row never changes. */
  lemma {:induction false} StatusForward(run: seq<Label>, n: nat, s: SyncId)
    requires Legal(run) && n <= |run| && s in After(run[..n]).sessions && s in After(run).sessions
    ensures Forward(After(run[..n]).sessions[s], After(run).sessions[s])
  {
    if n == |run| {
      assert run[..n] == run;
    } else {
      var front := run[..|run| - 1];
      assert front[..n] == run[..n];
      LastStep(run);
      StaysSeen(front, n, s);
      LastStepForward(run, s);
      StatusForward(front, n, s);
    }
  }

  /** At most one session of an identity is active. */
  lemma OneActiveSession(run: seq<Label>, s: SyncId, t: SyncId)
    requires Legal(run) && s in After(run).sessions && t in After(run).sessions
    requires After(run).sessions[s].identity == After(run).sessions[t].identity
    requires IsActive(After(run).sessions[s].status) && IsActive(After(run).sessions[t].status)
    ensures s == t
  {
    InvHolds(run);
  }

  /** A session that was promised one delete twice never gets past receiving. */
  lemma RepeatedDeleteNeverCloses(run: seq<Label>, s: SyncId)
    requires Legal(run) && s in After(run).sessions && !NoDuplicates(After(run).sessions[s].expectedDeletes)
    ensures var status := After(run).sessions[s].status; status.Receiving? || status.Failed? || status.Expired?
  {
    InvHolds(run);
    assert ManifestOk(After(run).repos, After(run).sessions[s]);
  }

  // ---------------------------------------------------------------------------
  // Wake-ups
  // ---------------------------------------------------------------------------

  ghost predicate NeverLoses(run: seq<Label>, s: SyncId) {
    forall i | 0 <= i < |run| :: !Loses(After(run[..i]), run[i], s)
  }

  lemma {:induction false} LosslessHolds(run: seq<Label>, s: SyncId)
    requires Legal(run) && NeverLoses(run, s)
    ensures Lossless(After(run), s)
  {
    if run == [] {
      NoSteps();
    } else {
      var n := |run| - 1;
      LastStep(run);
      forall i | 0 <= i < n ensures !Loses(After(run[..n][..i]), run[..n][i], s) {
        assert run[..n][..i] == run[..i];
      }
      LosslessHolds(run[..n], s);
      InvHolds(run[..n]);
      LosslessPreserved(After(run[..n]), run[n], s);
    }
  }

  /** t is in the queue, or its outbox row has yet to be dispatched. */
  predicate Outstanding(st: State, t: Task) {
    t in st.queue || (t in st.outbox && !st.outbox[t].sent && !st.outbox[t].status.Enqueued?)
  }

  /** In every run that drops none of the session's work, a session past receiving has a task
      outstanding that moves it on: a pending batch, a batch whose TryEnqueue is still ahead, or the
      finalizer. */
  lemma NoLostWakeUp(run: seq<Label>, s: SyncId)
    requires Legal(run) && NeverLoses(run, s) && s in After(run).sessions
    ensures var st := After(run);
      && (st.sessions[s].status.Processing? && AllTerminal(st.rows, s) ==>
            exists k | k in st.rows :: k.sync == s && TriggerAhead(st.queue, st.procs, k))
      && (forall k | k in st.rows && k.sync == s && st.rows[k].state.Pending? :: Outstanding(st, StreamTask(k)))
      && (st.sessions[s].status.Finalizing? ==> Outstanding(st, FinalizeTask(s)))
  {
    InvHolds(run);
    LosslessHolds(run, s);
  }
}
