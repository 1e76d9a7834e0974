/** The batch rows: which keys are known, what a row holds, and what a delivery may rely on. */
module BatchRows {
  import opened MerkleTree
  import opened SyncState
  import opened SyncMachine

  // ---------------------------------------------------------------------------
  // Keys: a session that still exists has a row for every batch it ever admitted
  // ---------------------------------------------------------------------------

  ghost predicate Known(seen: set<SyncId>, sessions: map<SyncId, Session>, rows: map<Key, Row>, t: Task) {
    && SyncOf(t) in seen
    && (t.StreamTask? && t.key.sync in sessions ==> t.key in rows)
  }

  ghost predicate SessionsSeen(st: State) {
    forall s | s in st.sessions :: s in st.hist.seen
  }

  ghost predicate RowsOwned(st: State) {
    forall k | k in st.rows :: k.sync in st.sessions && StreamTask(k) in st.outbox
  }

  ghost predicate TasksKnown(st: State) {
    && (forall t | t in st.outbox :: Known(st.hist.seen, st.sessions, st.rows, t) && SyncOf(t) in st.sessions)
    && (forall t | t in st.queue || t in st.archived || t in st.claims :: Known(st.hist.seen, st.sessions, st.rows, t))
    && (forall w | w in st.procs :: Known(st.hist.seen, st.sessions, st.rows, TaskOf(st.procs[w])))
    && (forall k | k in st.hist.stamped :: Known(st.hist.seen, st.sessions, st.rows, StreamTask(k)))
  }

  ghost predicate KeysOk(st: State) {
    SessionsSeen(st) && RowsOwned(st) && TasksKnown(st)
  }

  lemma SessionsSeenPreserved(st: State, l: Label)
    requires SessionsSeen(st) && (l.Admit? ==> l.key.sync in st.sessions)
    ensures forall s | s in NextSessions(st, l) :: s in NextHist(st, l).seen
  {
  }

  lemma RowsOwnedPreserved(st: State, l: Label)
    requires RowsOwned(st) && (l.Admit? ==> l.key.sync in st.sessions)
    ensures forall k | k in NextRows(st, l) :: k.sync in NextSessions(st, l) && StreamTask(k) in NextOutbox(st, l)
  {
  }

  /** What is known stays known: identifiers are not reused, and rows leave with their session. */
  lemma KnownPreserved(st: State, l: Label, t: Task)
    requires RowsOwned(st) && Known(st.hist.seen, st.sessions, st.rows, t)
    requires l.CreateSession? ==> l.s !in st.hist.seen
    requires l.Admit? ==> l.key.sync in st.sessions
    ensures Known(NextHist(st, l).seen, NextSessions(st, l), NextRows(st, l), t)
  {
  }

  lemma OutboxKnown(st: State, l: Label)
    requires KeysOk(st) && Enabled(st, l)
    ensures forall t | t in NextOutbox(st, l) ::
      Known(NextHist(st, l).seen, NextSessions(st, l), NextRows(st, l), t) && SyncOf(t) in NextSessions(st, l)
  {
    forall t | t in NextOutbox(st, l)
      ensures Known(NextHist(st, l).seen, NextSessions(st, l), NextRows(st, l), t) && SyncOf(t) in NextSessions(st, l)
    {
      if t in st.outbox {
        KnownPreserved(st, l, t);
      }
    }
  }

  lemma QueueKnown(st: State, l: Label, t: Task)
    requires KeysOk(st) && Enabled(st, l)
    requires t in NextQueue(st, l) || t in NextArchived(st, l) || t in NextClaims(st, l)
    ensures Known(NextHist(st, l).seen, NextSessions(st, l), NextRows(st, l), t)
  {
    assert t in st.queue || t in st.archived || t in st.claims || t in st.outbox;
    KnownPreserved(st, l, t);
  }

  lemma ProcKnown(st: State, l: Label, w: WorkerId)
    requires KeysOk(st) && Enabled(st, l)
    requires w in NextProcs(st, l)
    ensures Known(NextHist(st, l).seen, NextSessions(st, l), NextRows(st, l), TaskOf(NextProcs(st, l)[w]))
  {
    var t := TaskOf(NextProcs(st, l)[w]);
    assert (w in st.procs && TaskOf(st.procs[w]) == t) || t in st.queue;
    KnownPreserved(st, l, t);
  }

  lemma StampKnown(st: State, l: Label, k: Key)
    requires KeysOk(st) && Enabled(st, l)
    requires k in NextHist(st, l).stamped
    ensures Known(NextHist(st, l).seen, NextSessions(st, l), NextRows(st, l), StreamTask(k))
  {
    if k !in st.hist.stamped {
      assert TaskOf(st.procs[l.w]) == StreamTask(k);
    }
    KnownPreserved(st, l, StreamTask(k));
  }

  lemma KeysPreserved(st: State, l: Label)
    requires KeysOk(st) && Enabled(st, l)
    ensures KeysOk(Next(st, l))
  {
    SessionsSeenPreserved(st, l);
    RowsOwnedPreserved(st, l);
    OutboxKnown(st, l);
    forall t | t in NextQueue(st, l) || t in NextArchived(st, l) || t in NextClaims(st, l)
      ensures Known(NextHist(st, l).seen, NextSessions(st, l), NextRows(st, l), t)
    { QueueKnown(st, l, t); }
    forall w | w in NextProcs(st, l)
      ensures Known(NextHist(st, l).seen, NextSessions(st, l), NextRows(st, l), TaskOf(NextProcs(st, l)[w]))
    { ProcKnown(st, l, w); }
    forall k | k in NextHist(st, l).stamped
      ensures Known(NextHist(st, l).seen, NextSessions(st, l), NextRows(st, l), StreamTask(k))
    { StampKnown(st, l, k); }
  }

  // ---------------------------------------------------------------------------
  // Row contents
  // ---------------------------------------------------------------------------

  ghost predicate RowOk(row: Row) {
    && (row.state.Pending? ==> row.failedFiles == map[] && row.failedDeletes == {})
    && (row.state.RowFailed? ==> row.failedFiles.Keys == row.files.Keys && row.failedDeletes == row.deletes)
  }

  ghost predicate StampsOk(stamped: map<Key, Row>) {
    forall k | k in stamped :: RowOk(stamped[k]) && !stamped[k].state.Pending?
  }

  ghost predicate RowsStamped(rows: map<Key, Row>, stamped: map<Key, Row>) {
    forall k | k in rows ::
      && RowOk(rows[k])
      && (rows[k].state.Pending? <==> k !in stamped)
      && (k in stamped ==> stamped[k] == rows[k])
  }

  ghost predicate BatchesOk(st: State) {
    StampsOk(st.hist.stamped) && RowsStamped(st.rows, st.hist.stamped)
  }

  /** The indexer's reports only accumulate, and a stamped row is never stamped again. */
  ghost predicate HistoryGrows(a: History, b: History) {
    && a.seen <= b.seen
    && a.indexedFiles <= b.indexedFiles && a.indexedDeletes <= b.indexedDeletes
    && (forall k | k in a.stamped :: k in b.stamped && b.stamped[k] == a.stamped[k])
  }

  lemma HistoryPreserved(st: State, l: Label)
    requires RowsStamped(st.rows, st.hist.stamped)
    ensures HistoryGrows(st.hist, NextHist(st, l))
  {
  }

  lemma RowsPreserved(st: State, l: Label)
    requires BatchesOk(st) && KeysOk(st)
    requires l.Admit? ==> l.key.sync in st.sessions && l.key !in st.rows
    ensures RowsStamped(NextRows(st, l), NextHist(st, l).stamped)
  {
    if l.Admit? {
      assert l.key in st.hist.stamped ==> Known(st.hist.seen, st.sessions, st.rows, StreamTask(l.key));
    }
  }

  lemma StampsPreserved(st: State, l: Label)
    requires BatchesOk(st)
    ensures StampsOk(NextHist(st, l).stamped)
  {
  }

  lemma BatchesPreserved(st: State, l: Label)
    requires BatchesOk(st) && KeysOk(st) && Enabled(st, l)
    ensures BatchesOk(Next(st, l))
  {
    assert l.Admit? ==> CanAdmit(st, l.key, l.batch, l.order);
    StampsPreserved(st, l);
    RowsPreserved(st, l);
  }
}
