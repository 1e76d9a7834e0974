/** What a finalizer commits: the delta of a session whose batches are all terminal, backed by
    stamped rows, and what a session marked done can rely on. */
module Finalization {
  import opened MerkleTree
  import opened SyncState
  import opened SyncMachine
  import opened MerkleCommits
  import opened BatchRows
  import opened Manifests

  /** No batch can be admitted or marked any more. */
  ghost predicate Closed(sessions: map<SyncId, Session>, rows: map<Key, Row>, s: SyncId)
    requires s in sessions
  {
    !sessions[s].status.Receiving? && !sessions[s].status.Processing? && AllTerminal(rows, s)
  }

  ghost predicate FrozenOk(st: State) {
    forall s | s in st.sessions ::
      && (st.sessions[s].status.Finalizing? || st.sessions[s].status.Done? ==> AllTerminal(st.rows, s))
      && (st.sessions[s].status.Finalizing? ==> FinalizeTask(s) in st.outbox)
  }

  /** Every path of the delta was processed in a stamped row of the session. */
  ghost predicate Backed(stamped: map<Key, Row>, s: SyncId, d: Delta) {
    && (forall p | p in d.files ::
          exists k | k in stamped ::
            k.sync == s && RowProcessesFile(stamped[k], p) && stamped[k].files[p] == d.files[p])
    && (forall p | p in d.deletes :: exists k | k in stamped :: k.sync == s && RowProcessesDelete(stamped[k], p))
  }

  ghost predicate DeltaOk(
    hist: History, sessions: map<SyncId, Session>, rows: map<Key, Row>, s: SyncId, r: RepoId, d: Delta)
  {
    && s in hist.seen
    && Backed(hist.stamped, s, d)
    && (s in sessions ==> Closed(sessions, rows, s) && IsDelta(rows, s, d) && sessions[s].repo == r)
  }

  /** The tree after `at` changes is the one the outcome speaks of. */
  ghost predicate OutcomeOk(repos: map<RepoId, Repo>, s: SyncId, o: Outcome) {
    var repo := RepoOf(repos, o.repo);
    && o.delta != Delta(map[], {})
    && o.at <= |repo.log| < |repo.past|
    && (o.saved ==> o.at > 0 && IsFor(repo.log[o.at - 1], s) && repo.log[o.at - 1].delta == o.delta)
    && (!o.saved ==> RootHash(ApplyChanges(repo.past[o.at], o.delta)) == RootHash(repo.past[o.at]))
  }

  ghost predicate NotBefore(sessions: map<SyncId, Session>, s: SyncId, at: int) {
    s in sessions ==> sessions[s].diffedAt <= at
  }

  ghost predicate FinalPcOk(st: State, s: SyncId, pc: FinalPc) {
    match pc
    case AtLoadRows(r) => s in st.sessions ==> Closed(st.sessions, st.rows, s) && st.sessions[s].repo == r
    case AtLoadTree(r, d, _, _, _) => d != Delta(map[], {}) && DeltaOk(st.hist, st.sessions, st.rows, s, r, d)
    case AtSaveTree(r, d, _, _, _, _, _, _) => d != Delta(map[], {}) && DeltaOk(st.hist, st.sessions, st.rows, s, r, d)
    case AtMarkDone(o) =>
      && DeltaOk(st.hist, st.sessions, st.rows, s, o.repo, o.delta) && OutcomeOk(st.repos, s, o)
      && NotBefore(st.sessions, s, if o.saved then o.at - 1 else o.at)
    case _ => true
  }

  ghost predicate FinalPcsOk(st: State) {
    forall w | w in st.procs && st.procs[w].Final? :: FinalPcOk(st, st.procs[w].sync, st.procs[w].fpc)
  }

  ghost predicate LogOk(st: State) {
    forall r, i | r in st.repos && 0 <= i < |st.repos[r].log| && st.repos[r].log[i].Commit? ::
      && DeltaOk(st.hist, st.sessions, st.rows, st.repos[r].log[i].sync, r, st.repos[r].log[i].delta)
      && NotBefore(st.sessions, st.repos[r].log[i].sync, i)
  }

  ghost predicate OutcomesOk(st: State) {
    && (forall s | s in st.hist.outcomes ::
          && DeltaOk(st.hist, st.sessions, st.rows, s, st.hist.outcomes[s].repo, st.hist.outcomes[s].delta)
          && OutcomeOk(st.repos, s, st.hist.outcomes[s])
          && NotBefore(st.sessions, s,
               if st.hist.outcomes[s].saved then st.hist.outcomes[s].at - 1 else st.hist.outcomes[s].at))
    && (forall s | s in st.sessions && st.sessions[s].status.Done? ::
          s in st.hist.outcomes || (st.sessions[s].expectedFiles == map[] && st.sessions[s].expectedDeletes == []))
  }

  // ---------------------------------------------------------------------------
  // Closed sessions stay as they are
  // ---------------------------------------------------------------------------

  lemma ClosedRows(st: State, l: Label, s: SyncId, k: Key)
    requires s in st.sessions && s in NextSessions(st, l) && k.sync == s
    requires AllTerminal(st.rows, s) && !st.sessions[s].status.Receiving?
    requires l.Admit? ==> CanAdmit(st, l.key, l.batch, l.order)
    ensures k in st.rows <==> k in NextRows(st, l)
    ensures k in st.rows ==> NextRows(st, l)[k] == st.rows[k]
  {
  }

  lemma ClosedPreserved(st: State, l: Label, s: SyncId)
    requires s in st.sessions && s in NextSessions(st, l) && Closed(st.sessions, st.rows, s)
    requires l.Admit? ==> CanAdmit(st, l.key, l.batch, l.order)
    requires l.CreateSession? ==> l.s != s
    ensures Closed(NextSessions(st, l), NextRows(st, l), s)
    ensures NextSessions(st, l)[s].repo == st.sessions[s].repo
    ensures NextSessions(st, l)[s].diffedAt == st.sessions[s].diffedAt
  {
    SessionStep(st, l, s);
    forall k | k in NextRows(st, l) && k.sync == s ensures !NextRows(st, l)[k].state.Pending? {
      ClosedRows(st, l, s, k);
    }
  }

  lemma SameRowsSameDelta(a: map<Key, Row>, b: map<Key, Row>, s: SyncId, d: Delta)
    requires forall k: Key | k.sync == s :: (k in a <==> k in b) && (k in a ==> a[k] == b[k])
    requires IsDelta(a, s, d)
    ensures IsDelta(b, s, d)
  {
    forall p ensures ProcessesFile(a, s, p) <==> ProcessesFile(b, s, p) {
    }
    forall p ensures ProcessesDelete(a, s, p) <==> ProcessesDelete(b, s, p) {
    }
  }

  lemma BackedGrows(a: History, b: History, s: SyncId, d: Delta)
    requires HistoryGrows(a, b) && Backed(a.stamped, s, d)
    ensures Backed(b.stamped, s, d)
  {
  }

  lemma DeltaPreserved(st: State, l: Label, s: SyncId, r: RepoId, d: Delta)
    requires DeltaOk(st.hist, st.sessions, st.rows, s, r, d) && RowsStamped(st.rows, st.hist.stamped)
    requires l.Admit? ==> CanAdmit(st, l.key, l.batch, l.order)
    requires l.CreateSession? ==> l.s !in st.hist.seen
    ensures DeltaOk(NextHist(st, l), NextSessions(st, l), NextRows(st, l), s, r, d)
  {
    HistoryPreserved(st, l);
    BackedGrows(st.hist, NextHist(st, l), s, d);
    if s in NextSessions(st, l) {
      SessionStep(st, l, s);
      ClosedPreserved(st, l, s);
      forall k: Key | k.sync == s
        ensures (k in st.rows <==> k in NextRows(st, l)) && (k in st.rows ==> st.rows[k] == NextRows(st, l)[k])
      { ClosedRows(st, l, s, k); }
      SameRowsSameDelta(st.rows, NextRows(st, l), s, d);
    }
  }

  lemma OutcomeExtends(a: map<RepoId, Repo>, b: map<RepoId, Repo>, s: SyncId, o: Outcome)
    requires OutcomeOk(a, s, o) && Extends(RepoOf(a, o.repo), RepoOf(b, o.repo))
    requires |RepoOf(b, o.repo).past| == |RepoOf(b, o.repo).log| + 1
    ensures OutcomeOk(b, s, o)
  {
    var x, y := RepoOf(a, o.repo), RepoOf(b, o.repo);
    assert y.past[o.at] == x.past[o.at];
  }

  lemma NotBeforePreserved(st: State, l: Label, s: SyncId, at: int)
    requires s in st.hist.seen && NotBefore(st.sessions, s, at) && (l.CreateSession? ==> l.s !in st.hist.seen)
    ensures NotBefore(NextSessions(st, l), s, at)
  {
    if s in NextSessions(st, l) {
      SessionStep(st, l, s);
    }
  }

  // ---------------------------------------------------------------------------
  // Frozen sessions
  // ---------------------------------------------------------------------------

  lemma FlipIsReady(st: State, l: Label, s: SyncId)
    requires s in st.sessions && s in NextSessions(st, l) && (l.CreateSession? ==> l.s != s)
    requires !st.sessions[s].status.Finalizing? && NextSessions(st, l)[s].status.Finalizing?
    ensures AllTerminal(st.rows, s) && st.sessions[s].status.Processing? && FinalizeTask(s) in NextOutbox(st, l)
  {
    SessionStep(st, l, s);
  }

  lemma FrozenRow(st: State, l: Label, s: SyncId, k: Key)
    requires s in st.sessions && s in NextSessions(st, l) && k in NextRows(st, l) && k.sync == s
    requires st.sessions[s].status.Finalizing? || st.sessions[s].status.Done? ==> AllTerminal(st.rows, s)
    requires (l.Admit? ==> CanAdmit(st, l.key, l.batch, l.order)) && (l.CreateSession? ==> l.s != s)
    requires NextSessions(st, l)[s].status.Finalizing? || NextSessions(st, l)[s].status.Done?
    ensures !NextRows(st, l)[k].state.Pending?
  {
    SessionStep(st, l, s);
    if !st.sessions[s].status.Finalizing? && NextSessions(st, l)[s].status.Finalizing? {
      FlipIsReady(st, l, s);
    }
    ClosedRows(st, l, s, k);
  }

  lemma FrozenStep(st: State, l: Label, s: SyncId)
    requires FrozenOk(st) && KeysOk(st) && s in NextSessions(st, l)
    requires l.Admit? ==> CanAdmit(st, l.key, l.batch, l.order)
    requires l.CreateSession? ==> l.s !in st.hist.seen && !l.session.status.Finalizing?
    ensures NextSessions(st, l)[s].status.Finalizing? || NextSessions(st, l)[s].status.Done? ==>
      AllTerminal(NextRows(st, l), s)
  {
    var y := NextSessions(st, l)[s];
    if y.status.Finalizing? || y.status.Done? {
      forall k | k in NextRows(st, l) && k.sync == s ensures !NextRows(st, l)[k].state.Pending? {
        SessionStep(st, l, s);
        if !(l.CreateSession? && l.s == s) {
          FrozenRow(st, l, s, k);
        }
      }
    }
  }

  lemma FinalizeQueued(st: State, l: Label, s: SyncId)
    requires FrozenOk(st) && s in NextSessions(st, l)
    requires l.CreateSession? ==> !l.session.status.Finalizing?
    requires l.Collect? ==> l.s in st.sessions && !IsActive(st.sessions[l.s].status)
    ensures NextSessions(st, l)[s].status.Finalizing? ==> FinalizeTask(s) in NextOutbox(st, l)
  {
    SessionStep(st, l, s);
    if s in st.sessions && !(l.CreateSession? && l.s == s) && NextSessions(st, l)[s].status.Finalizing? {
      if !st.sessions[s].status.Finalizing? {
        FlipIsReady(st, l, s);
      }
    }
  }

  lemma FrozenPreserved(st: State, l: Label)
    requires FrozenOk(st) && KeysOk(st) && Enabled(st, l)
    ensures FrozenOk(Next(st, l))
  {
    assert l.CreateSession? ==> CanCreate(st, l.s, l.session);
    forall s | s in NextSessions(st, l)
      ensures NextSessions(st, l)[s].status.Finalizing? || NextSessions(st, l)[s].status.Done? ==>
        AllTerminal(NextRows(st, l), s)
      ensures NextSessions(st, l)[s].status.Finalizing? ==> FinalizeTask(s) in NextOutbox(st, l)
    {
      FrozenStep(st, l, s);
      FinalizeQueued(st, l, s);
    }
  }

  // ---------------------------------------------------------------------------
  // The commit log and the outcomes
  // ---------------------------------------------------------------------------

  lemma LogPreserved(st: State, l: Label)
    requires LogOk(st) && FinalPcsOk(st) && CasOk(st) && ManifestsOk(st) && RowsStamped(st.rows, st.hist.stamped)
    requires Enabled(st, l)
    ensures LogOk(Next(st, l))
  {
    var repos := NextRepos(st, l);
    assert l.CreateSession? ==> CanCreate(st, l.s, l.session);
    forall r, i | r in repos && 0 <= i < |repos[r].log| && repos[r].log[i].Commit?
      ensures DeltaOk(NextHist(st, l), NextSessions(st, l), NextRows(st, l), repos[r].log[i].sync, r,
        repos[r].log[i].delta)
      ensures NotBefore(NextSessions(st, l), repos[r].log[i].sync, i)
    {
      LogEntryPreserved(st, l, r, i);
    }
  }

  lemma LogEntryPreserved(st: State, l: Label, r: RepoId, i: nat)
    requires LogOk(st) && FinalPcsOk(st) && CasOk(st) && ManifestsOk(st) && RowsStamped(st.rows, st.hist.stamped)
    requires Enabled(st, l)
    requires r in NextRepos(st, l) && i < |NextRepos(st, l)[r].log| && NextRepos(st, l)[r].log[i].Commit?
    ensures var c := NextRepos(st, l)[r].log[i];
      DeltaOk(NextHist(st, l), NextSessions(st, l), NextRows(st, l), c.sync, r, c.delta) &&
        NotBefore(NextSessions(st, l), c.sync, i)
  {
    var c := NextRepos(st, l)[r].log[i];
    LogEntryBacked(st, l, r, i);
    assert l.CreateSession? ==> CanCreate(st, l.s, l.session);
    DeltaPreserved(st, l, c.sync, r, c.delta);
    NotBeforePreserved(st, l, c.sync, i);
  }

  /** A new entry is the saving delivery's delta, committed after its session was created. */
  lemma LogEntryBacked(st: State, l: Label, r: RepoId, i: nat)
    requires LogOk(st) && FinalPcsOk(st) && CasOk(st) && ManifestsOk(st)
    requires l.Step? ==> CanStep(st, l.w, l.reply)
    requires r in NextRepos(st, l) && i < |NextRepos(st, l)[r].log| && NextRepos(st, l)[r].log[i].Commit?
    ensures var c := NextRepos(st, l)[r].log[i];
      DeltaOk(st.hist, st.sessions, st.rows, c.sync, r, c.delta) && NotBefore(st.sessions, c.sync, i)
  {
    match l
    case Step(w, reply) => SavedEntry(st, w, reply, r, i);
    case Replace(_, _, _) =>
    case _ =>
  }

  lemma SavedEntry(st: State, w: WorkerId, reply: Reply, r: RepoId, i: nat)
    requires LogOk(st) && FinalPcsOk(st) && CasOk(st) && ManifestsOk(st) && CanStep(st, w, reply)
    requires var repos := NextRepos(st, Step(w, reply)); r in repos && i < |repos[r].log| && repos[r].log[i].Commit?
    ensures var c := NextRepos(st, Step(w, reply))[r].log[i];
      DeltaOk(st.hist, st.sessions, st.rows, c.sync, r, c.delta) && NotBefore(st.sessions, c.sync, i)
  {
    var p := st.procs[w];
    if Saves(st, p, reply) {
      SaveCommits(st, w, reply);
      if r == p.fpc.repo && i == |RepoOf(st.repos, r).log| {
        SaverBacked(st, p, r);
      }
    }
  }

  lemma SaverBacked(st: State, p: Proc, r: RepoId)
    requires ReposOk(st.repos) && ManifestsOk(st)
    requires p.Final? && p.fpc.AtSaveTree? && p.fpc.repo == r && FinalPcOk(st, p.sync, p.fpc)
    ensures DeltaOk(st.hist, st.sessions, st.rows, p.sync, r, p.fpc.delta)
    ensures NotBefore(st.sessions, p.sync, |RepoOf(st.repos, r).log|)
  {
    assert p.sync in st.sessions ==> ManifestOk(st.repos, st.sessions[p.sync]);
    assert RepoOk(NoRepo);
    assert RepoOk(RepoOf(st.repos, r));
  }

  /** An outcome once reached stays true of the tree's history. */
  ghost predicate Holds(st: State, s: SyncId, o: Outcome) {
    && DeltaOk(st.hist, st.sessions, st.rows, s, o.repo, o.delta) && OutcomeOk(st.repos, s, o)
    && NotBefore(st.sessions, s, if o.saved then o.at - 1 else o.at)
  }

  lemma OutcomeGrows(st: State, l: Label, s: SyncId, o: Outcome)
    requires OutcomeOk(st.repos, s, o) && CasOk(st) && Enabled(st, l)
    ensures OutcomeOk(NextRepos(st, l), s, o)
  {
    ReposExtend(st, l, o.repo);
    CasPreserved(st, l);
    assert RepoOk(NoRepo) && NextRepos(st, l) == Next(st, l).repos;
    assert RepoOk(RepoOf(NextRepos(st, l), o.repo));
    OutcomeExtends(st.repos, NextRepos(st, l), s, o);
  }

  lemma HoldsPreserved(st: State, l: Label, s: SyncId, o: Outcome)
    requires Holds(st, s, o) && CasOk(st) && RowsStamped(st.rows, st.hist.stamped) && Enabled(st, l)
    ensures Holds(Next(st, l), s, o)
  {
    assert l.CreateSession? ==> CanCreate(st, l.s, l.session);
    DeltaPreserved(st, l, s, o.repo, o.delta);
    OutcomeGrows(st, l, s, o);
    NotBeforePreserved(st, l, s, if o.saved then o.at - 1 else o.at);
  }

  /** Only MarkDone records an outcome. */
  lemma OutcomeRecorded(st: State, l: Label, s: SyncId)
    requires s in NextHist(st, l).outcomes
    ensures
      || (s in st.hist.outcomes && NextHist(st, l).outcomes[s] == st.hist.outcomes[s])
      || (l.Step? && l.w in st.procs && st.procs[l.w].Final? && st.procs[l.w].sync == s
          && st.procs[l.w].fpc == AtMarkDone(NextHist(st, l).outcomes[s]))
  {
  }

  lemma OutcomeHeld(st: State, l: Label, s: SyncId)
    requires OutcomesOk(st) && FinalPcsOk(st)
    requires s in NextHist(st, l).outcomes
    ensures Holds(st, s, NextHist(st, l).outcomes[s])
  {
    OutcomeRecorded(st, l, s);
    var o := NextHist(st, l).outcomes[s];
    if !(s in st.hist.outcomes && o == st.hist.outcomes[s]) {
      assert FinalPcOk(st, s, AtMarkDone(o));
    }
  }

  lemma DoneIsRecorded(st: State, l: Label, s: SyncId)
    requires s in st.sessions && s in NextSessions(st, l) && NextSessions(st, l)[s].status.Done?
    requires l.CreateSession? ==> l.s != s
    ensures st.sessions[s].status.Done? || s in NextHist(st, l).outcomes
    ensures NextSessions(st, l)[s].expectedFiles == st.sessions[s].expectedFiles
    ensures NextSessions(st, l)[s].expectedDeletes == st.sessions[s].expectedDeletes
  {
    SessionStep(st, l, s);
  }

  lemma OutcomesGrow(st: State, l: Label)
    ensures st.hist.outcomes.Keys <= NextHist(st, l).outcomes.Keys
  {
  }

  lemma DoneHasOutcome(st: State, l: Label, s: SyncId)
    requires OutcomesOk(st) && SessionsSeen(st) && s in NextSessions(st, l) && NextSessions(st, l)[s].status.Done?
    requires l.CreateSession? ==> FreshSession(st.repos, l.session) && l.s !in st.hist.seen
    ensures s in NextHist(st, l).outcomes ||
      (NextSessions(st, l)[s].expectedFiles == map[] && NextSessions(st, l)[s].expectedDeletes == [])
  {
    if s in st.sessions {
      DoneIsRecorded(st, l, s);
      OutcomesGrow(st, l);
    } else {
      SessionStep(st, l, s);
    }
  }

  lemma OutcomesPreserved(st: State, l: Label)
    requires OutcomesOk(st) && FinalPcsOk(st) && CasOk(st) && SessionsSeen(st)
    requires RowsStamped(st.rows, st.hist.stamped) && Enabled(st, l)
    ensures OutcomesOk(Next(st, l))
  {
    assert l.CreateSession? ==> CanCreate(st, l.s, l.session);
    forall s | s in NextHist(st, l).outcomes ensures Holds(Next(st, l), s, NextHist(st, l).outcomes[s]) {
      OutcomeHeld(st, l, s);
      HoldsPreserved(st, l, s, NextHist(st, l).outcomes[s]);
    }
    forall s | s in NextSessions(st, l) && NextSessions(st, l)[s].status.Done?
      ensures s in NextHist(st, l).outcomes ||
        (NextSessions(st, l)[s].expectedFiles == map[] && NextSessions(st, l)[s].expectedDeletes == [])
    { DoneHasOutcome(st, l, s); }
  }

  // ---------------------------------------------------------------------------
  // The finalize deliveries
  // ---------------------------------------------------------------------------

  /** A delivery that does not move keeps what it knows. */
  lemma IdlePcPreserved(st: State, l: Label, s: SyncId, pc: FinalPc)
    requires FinalPcOk(st, s, pc) && s in st.hist.seen
    requires CasOk(st) && RowsStamped(st.rows, st.hist.stamped) && Enabled(st, l)
    ensures FinalPcOk(Next(st, l), s, pc)
  {
    assert l.CreateSession? ==> CanCreate(st, l.s, l.session);
    match pc
    case AtLoadRows(r) =>
      if s in NextSessions(st, l) {
        SessionStep(st, l, s);
        ClosedPreserved(st, l, s);
      }
    case AtLoadTree(r, d, _, _, _) => DeltaPreserved(st, l, s, r, d);
    case AtSaveTree(r, d, _, _, _, _, _, _) => DeltaPreserved(st, l, s, r, d);
    case AtMarkDone(o) => HoldsPreserved(st, l, s, o);
    case _ =>
  }

  lemma DeltaIsBacked(st: State, s: SyncId, d: Delta)
    requires RowsStamped(st.rows, st.hist.stamped) && IsDelta(st.rows, s, d)
    ensures Backed(st.hist.stamped, s, d)
  {
    forall p | p in d.deletes
      ensures exists k | k in st.hist.stamped :: k.sync == s && RowProcessesDelete(st.hist.stamped[k], p) {
      assert ProcessesDelete(st.rows, s, p);
      var k :| k in st.rows && k.sync == s && RowProcessesDelete(st.rows[k], p);
      assert k in st.hist.stamped;
    }
    forall p | p in d.files
      ensures exists k | k in st.hist.stamped ::
        k.sync == s && RowProcessesFile(st.hist.stamped[k], p) && st.hist.stamped[k].files[p] == d.files[p]
    {
      var k :| k in st.rows && k.sync == s && RowProcessesFile(st.rows[k], p) && st.rows[k].files[p] == d.files[p];
      assert k in st.hist.stamped;
    }
  }

  /** What the delivery knows before the commit log is written. */
  ghost predicate Moved(st: State, s: SyncId, pc: FinalPc) {
    match pc
    case AtMarkDone(o) =>
      && o.delta != Delta(map[], {}) && DeltaOk(st.hist, st.sessions, st.rows, s, o.repo, o.delta)
      && o.at == |RepoOf(st.repos, o.repo).log| + (if o.saved then 1 else 0)
      && (!o.saved ==> HashUnchanged(RepoOf(st.repos, o.repo), o.delta))
    case _ => FinalPcOk(st, s, pc)
  }

  lemma MovedFirst(st: State, p: Proc, reply: Reply)
    requires FrozenOk(st) && p.Final? && p.fpc.AtLoadFinalizing?
    ensures Moved(st, p.sync, NextFinalPc(st, p, reply))
  {
  }

  lemma MovedLoad(st: State, s: SyncId, r: RepoId, d: Delta, attempt: nat, base: nat, refused: nat, reply: Reply)
    requires FinalPcOk(st, s, AtLoadTree(r, d, attempt, base, refused))
    ensures Moved(st, s, AfterLoad(RepoOf(st.repos, r), r, d, attempt, base, refused, reply))
  {
  }

  lemma MovedSave(
    st: State, s: SyncId, r: RepoId, d: Delta, attempt: nat, base: nat, refused: nat, version: Version, reply: Reply)
    requires d != Delta(map[], {}) && DeltaOk(st.hist, st.sessions, st.rows, s, r, d)
    ensures Moved(st, s, AfterSave(RepoOf(st.repos, r), r, d, attempt, base, refused, version, reply))
  {
  }

  lemma MovedPc(st: State, p: Proc, reply: Reply)
    requires FrozenOk(st) && p.Final? && FinalPcOk(st, p.sync, p.fpc) && !p.fpc.AtLoadRows?
    ensures Moved(st, p.sync, NextFinalPc(st, p, reply)) || p.fpc.AtMarkDone?
  {
    match p.fpc
    case AtLoadFinalizing => MovedFirst(st, p, reply);
    case AtLoadTree(r, d, attempt, base, refused) => MovedLoad(st, p.sync, r, d, attempt, base, refused, reply);
    case AtSaveTree(r, d, attempt, base, refused, _, version, _) =>
      MovedSave(st, p.sync, r, d, attempt, base, refused, version, reply);
    case _ =>
  }

  lemma RowsRead(st: State, p: Proc, reply: Reply)
    requires RowsStamped(st.rows, st.hist.stamped)
    requires p.Final? && p.sync in st.hist.seen && FinalPcOk(st, p.sync, p.fpc) && p.fpc.AtLoadRows?
    requires reply.Results? ==> IsDelta(st.rows, p.sync, reply.delta)
    ensures Moved(st, p.sync, NextFinalPc(st, p, reply))
  {
    if reply.Results? {
      DeltaIsBacked(st, p.sync, reply.delta);
    }
  }

  lemma RepoIsOk(st: State, r: RepoId)
    requires CasOk(st)
    ensures RepoOk(RepoOf(st.repos, r))
  {
    assert RepoOk(NoRepo);
  }

  /** The tree a delivery has just read already has its delta's root hash. */
  lemma SkippedDone(st: State, s: SyncId, o: Outcome)
    requires RepoOk(RepoOf(st.repos, o.repo)) && ManifestsOk(st)
    requires !o.saved && Moved(st, s, AtMarkDone(o))
    ensures OutcomeOk(st.repos, s, o) && NotBefore(st.sessions, s, o.at)
  {
    assert s in st.sessions ==> ManifestOk(st.repos, st.sessions[s]);
  }

  /** The tree a delivery has just written is its own commit. */
  lemma SavedDone(st: State, w: WorkerId, reply: Reply)
    requires CasOk(st) && ManifestsOk(st) && w in st.procs && Saves(st, st.procs[w], reply) && GoodSave(st, w, reply)
    requires DeltaOk(st.hist, st.sessions, st.rows, st.procs[w].sync, st.procs[w].fpc.repo, st.procs[w].fpc.delta)
    requires st.procs[w].fpc.delta != Delta(map[], {})
    ensures var p := st.procs[w]; var at := |RepoOf(st.repos, p.fpc.repo).log|;
      && OutcomeOk(NextRepos(st, Step(w, reply)), p.sync, Outcome(p.fpc.repo, p.fpc.delta, at + 1, true))
      && NotBefore(st.sessions, p.sync, at)
  {
    var p := st.procs[w];
    RepoIsOk(st, p.fpc.repo);
    assert p.sync in st.sessions ==> ManifestOk(st.repos, st.sessions[p.sync]);
    SaveCommits(st, w, reply);
  }

  lemma DoneFrom(st: State, w: WorkerId, reply: Reply)
    requires w in st.procs && st.procs[w].Final? && FinalReply(st, st.procs[w].fpc, reply)
    requires NextFinalPc(st, st.procs[w], reply).AtMarkDone? && !st.procs[w].fpc.AtMarkDone?
    ensures var p := st.procs[w]; var o := NextFinalPc(st, p, reply).outcome;
      || (p.fpc.AtLoadTree? && !o.saved && !Saves(st, p, reply))
      || (Saves(st, p, reply) && GoodSave(st, w, reply)
          && o == Outcome(p.fpc.repo, p.fpc.delta, |RepoOf(st.repos, p.fpc.repo).log| + 1, true))
  {
  }

  lemma MovedDone(st: State, w: WorkerId, reply: Reply)
    requires CasOk(st) && ManifestsOk(st) && w in st.procs && st.procs[w].Final?
    requires FinalReply(st, st.procs[w].fpc, reply)
    requires NextFinalPc(st, st.procs[w], reply).AtMarkDone? && !st.procs[w].fpc.AtMarkDone?
    requires Moved(st, st.procs[w].sync, NextFinalPc(st, st.procs[w], reply))
    ensures var o := NextFinalPc(st, st.procs[w], reply).outcome;
      && OutcomeOk(NextRepos(st, Step(w, reply)), st.procs[w].sync, o)
      && NotBefore(st.sessions, st.procs[w].sync, if o.saved then o.at - 1 else o.at)
  {
    var p := st.procs[w];
    var o := NextFinalPc(st, p, reply).outcome;
    DoneFrom(st, w, reply);
    if o.saved {
      SavedDone(st, w, reply);
    } else {
      RepoIsOk(st, o.repo);
      SkippedDone(st, p.sync, o);
    }
  }

  lemma OwnFrame(st: State, w: WorkerId, reply: Reply)
    requires w in st.procs && st.procs[w].Final? && !st.procs[w].fpc.AtMarkDone? && !st.procs[w].fpc.AtFail?
    ensures NextSessions(st, Step(w, reply)) == st.sessions
    ensures NextRows(st, Step(w, reply)) == st.rows
    ensures NextHist(st, Step(w, reply)) == st.hist
  {
  }

  lemma OwnMoved(st: State, w: WorkerId, reply: Reply)
    requires FrozenOk(st) && RowsStamped(st.rows, st.hist.stamped)
    requires CanStep(st, w, reply) && st.procs[w].Final? && !st.procs[w].fpc.AtMarkDone?
    requires FinalPcOk(st, st.procs[w].sync, st.procs[w].fpc) && st.procs[w].sync in st.hist.seen
    ensures Moved(st, st.procs[w].sync, NextFinalPc(st, st.procs[w], reply))
  {
    var p := st.procs[w];
    if p.fpc.AtLoadRows? {
      RowsRead(st, p, reply);
    } else {
      MovedPc(st, p, reply);
    }
  }

  lemma OwnPcPreserved(st: State, w: WorkerId, reply: Reply)
    requires FrozenOk(st) && RowsStamped(st.rows, st.hist.stamped) && CasOk(st) && ManifestsOk(st)
    requires CanStep(st, w, reply) && st.procs[w].Final?
    requires FinalPcOk(st, st.procs[w].sync, st.procs[w].fpc) && st.procs[w].sync in st.hist.seen
    ensures FinalPcOk(Next(st, Step(w, reply)), st.procs[w].sync, NextFinalPc(st, st.procs[w], reply))
  {
    var p, pc := st.procs[w], NextFinalPc(st, st.procs[w], reply);
    if !p.fpc.AtMarkDone? && !p.fpc.AtFail? {
      OwnMoved(st, w, reply);
      if pc.AtMarkDone? {
        MovedDone(st, w, reply);
      }
      OwnFrame(st, w, reply);
    }
  }

  lemma FinalPcPreserved(st: State, l: Label, w: WorkerId)
    requires FrozenOk(st) && RowsStamped(st.rows, st.hist.stamped) && CasOk(st) && ManifestsOk(st) && Enabled(st, l)
    requires w in st.procs && st.procs[w].Final? && st.procs[w].sync in st.hist.seen
    requires FinalPcOk(st, st.procs[w].sync, st.procs[w].fpc)
    ensures FinalPcOk(Next(st, l), st.procs[w].sync,
      if l.Step? && l.w == w then NextFinalPc(st, st.procs[w], l.reply) else st.procs[w].fpc)
  {
    if l.Step? && l.w == w {
      OwnPcPreserved(st, w, l.reply);
    } else {
      IdlePcPreserved(st, l, st.procs[w].sync, st.procs[w].fpc);
    }
  }

  lemma FinalProcStep(st: State, l: Label, w: WorkerId)
    requires w in NextProcs(st, l) && NextProcs(st, l)[w].Final?
    ensures
      || NextProcs(st, l)[w].fpc == AtLoadFinalizing
      || (w in st.procs && st.procs[w].Final? && st.procs[w].sync == NextProcs(st, l)[w].sync
          && NextProcs(st, l)[w].fpc ==
               (if l.Step? && l.w == w then NextFinalPc(st, st.procs[w], l.reply) else st.procs[w].fpc))
  {
  }

  lemma FinalPcsPreserved(st: State, l: Label)
    requires FinalPcsOk(st) && FrozenOk(st) && KeysOk(st) && RowsStamped(st.rows, st.hist.stamped) && CasOk(st)
    requires ManifestsOk(st)
    requires Enabled(st, l)
    ensures FinalPcsOk(Next(st, l))
  {
    var procs := NextProcs(st, l);
    forall w | w in procs && procs[w].Final? ensures FinalPcOk(Next(st, l), procs[w].sync, procs[w].fpc) {
      FinalProcStep(st, l, w);
      if w in st.procs && st.procs[w].Final? {
        assert Known(st.hist.seen, st.sessions, st.rows, TaskOf(st.procs[w]));
        FinalPcPreserved(st, l, w);
      }
    }
  }
}
