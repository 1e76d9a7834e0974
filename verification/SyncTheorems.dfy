/** What holds in every run of the streaming sync service. */
module SyncTheorems {
  import opened Wrappers

  import opened Digests
  import opened MerkleTree
  import opened SyncState
  import opened SyncMachine
  import opened MerkleCommits
  import opened BatchRows
  import opened Meanings
  import opened Manifests
  import opened Finalization
  import opened WakeUp

  // ---------------------------------------------------------------------------
  // One active session an identity, and what a batch delivery has done
  // ---------------------------------------------------------------------------

  ghost predicate OneActive(sessions: map<SyncId, Session>) {
    forall s, t | s in sessions && t in sessions && s != t ::
      !(sessions[s].identity == sessions[t].identity && IsActive(sessions[s].status) && IsActive(sessions[t].status))
  }

  lemma StillActive(st: State, l: Label, s: SyncId)
    requires s in NextSessions(st, l) && !(l.CreateSession? && l.s == s) && IsActive(NextSessions(st, l)[s].status)
    requires l.Admit? ==> CanAdmit(st, l.key, l.batch, l.order)
    ensures s in st.sessions && IsActive(st.sessions[s].status)
    ensures st.sessions[s].identity == NextSessions(st, l)[s].identity
  {
    SessionStep(st, l, s);
  }

  lemma OneActivePreserved(st: State, l: Label)
    requires OneActive(st.sessions)
    requires (l.CreateSession? ==> NoActive(st.sessions, l.session.identity) && l.s !in st.sessions)
    requires l.Admit? ==> CanAdmit(st, l.key, l.batch, l.order)
    ensures OneActive(NextSessions(st, l))
  {
    var sessions := NextSessions(st, l);
    forall s, t | s in sessions && t in sessions && s != t && IsActive(sessions[s].status) &&
      IsActive(sessions[t].status)
      ensures sessions[s].identity != sessions[t].identity
    {
      if !(l.CreateSession? && l.s == s) { StillActive(st, l, s); }
      if !(l.CreateSession? && l.s == t) { StillActive(st, l, t); }
    }
  }

  ghost predicate DeliveryOk(p: Proc) {
    p.Stream? ==>
      && p.deleted == (p.pc.AtTrigger? || p.pc == BatchReturned(false))
      && p.triggered == (p.pc == BatchReturned(false))
  }

  lemma DeliveryPreserved(st: State, p: Proc, reply: Reply)
    requires DeliveryOk(p) && (p.Stream? ==> BatchReply(p.pc, reply))
    ensures DeliveryOk(NextProc(st, p, reply))
  {
  }

  // ---------------------------------------------------------------------------
  // The invariant
  // ---------------------------------------------------------------------------

  ghost predicate Inv(st: State) {
    && CasOk(st) && KeysOk(st) && BatchesOk(st) && ManifestsOk(st) && CoverOk(st)
    && FrozenOk(st) && FinalPcsOk(st) && LogOk(st) && OutcomesOk(st) && DispatchOk(st)
    && OneActive(st.sessions)
    && (forall w | w in st.procs :: DeliveryOk(st.procs[w]))
  }

  lemma DeliveriesPreserved(st: State, l: Label)
    requires (forall w | w in st.procs :: DeliveryOk(st.procs[w])) && Enabled(st, l)
    ensures forall w | w in NextProcs(st, l) :: DeliveryOk(NextProcs(st, l)[w])
  {
    if l.Step? {
      assert CanStep(st, l.w, l.reply);
      DeliveryPreserved(st, st.procs[l.w], l.reply);
    }
  }

  lemma InvPreserved(st: State, l: Label)
    requires Inv(st) && Enabled(st, l)
    ensures Inv(Next(st, l))
  {
    CasPreserved(st, l);
    KeysPreserved(st, l);
    BatchesPreserved(st, l);
    ManifestsPreserved(st, l);
    CoverPreserved(st, l);
    FrozenPreserved(st, l);
    FinalPcsPreserved(st, l);
    LogPreserved(st, l);
    OutcomesPreserved(st, l);
    DispatchPreserved(st, l);
    assert l.CreateSession? ==> CanCreate(st, l.s, l.session);
    OneActivePreserved(st, l);
    DeliveriesPreserved(st, l);
  }

  lemma {:induction false} InvHolds(run: seq<Label>)
    requires Legal(run)
    ensures Inv(After(run))
  {
    if run == [] {
      NoSteps();
    } else {
      var n := |run| - 1;
      LastStep(run);
      InvHolds(run[..n]);
      InvPreserved(After(run[..n]), run[n]);
    }
  }

  lemma {:induction false} PrefixLegal(run: seq<Label>, n: nat)
    requires Legal(run) && n <= |run|
    ensures Legal(run[..n])
  {
    if n == |run| {
      assert run[..n] == run;
    } else {
      LastStep(run);
      PrefixLegal(run[..|run| - 1], n);
      assert run[..|run| - 1][..n] == run[..n];
    }
  }

  // ---------------------------------------------------------------------------
  // The trees
  // ---------------------------------------------------------------------------

  /** The committed deltas, and the trees put there from outside, one after another from the empty tree. */
  ghost function Replay(log: seq<Commit>): Leaves {
    if log == [] then map[] else Changed(Replay(log[..|log| - 1]), log[|log| - 1])
  }

  lemma {:induction false} PastIsReplay(repo: Repo, n: nat)
    requires RepoOk(repo) && n <= |repo.log|
    ensures repo.past[n] == Replay(repo.log[..n])
  {
    if n > 0 {
      PastIsReplay(repo, n - 1);
      assert repo.log[..n][..n - 1] == repo.log[..n - 1];
      assert repo.past[(n - 1) + 1] == Changed(repo.past[n - 1], repo.log[n - 1]);
    }
  }

  /** However many finalizers load, save, fail and retry, and whoever deletes or replaces the tree
      without them, a stored tree is the committed deltas applied in commit order to what was last
      put there. */
  lemma CommitsLinearise(run: seq<Label>, r: RepoId)
    requires Legal(run)
    ensures var repo := RepoOf(After(run).repos, r);
      repo.tree == Replay(repo.log)
  {
    InvHolds(run);
    assert RepoOk(NoRepo);
    var repo := RepoOf(After(run).repos, r);
    PastIsReplay(repo, |repo.log|);
    assert repo.log[..|repo.log|] == repo.log;
  }

  /** The loop gives up only after five saves that a change of the tree by somebody else, or a
      concurrent request at the storage, stood in the way of. */
  lemma ExhaustedByOthers(run: seq<Label>, w: WorkerId)
    requires Legal(run) && w in After(run).procs
    requires After(run).procs[w].Final? && After(run).procs[w].fpc.AtFail?
    requires After(run).procs[w].fpc.reason == "merkle_cas_exhausted"
    ensures var pc := After(run).procs[w].fpc; var log := RepoOf(After(run).repos, pc.repo).log;
      pc.base + 5 <= |log| + pc.refused && forall i | pc.base <= i < |log| :: !IsBy(log[i], w)
  {
    InvHolds(run);
    var st := After(run);
    assert CasPcOk(st.repos, w, st.procs[w].fpc);
  }

  // ---------------------------------------------------------------------------
  // The commits
  // ---------------------------------------------------------------------------

  /** Every label of the run stores and admits under an identifier what it stands for. */
  ghost predicate RunMeant(m: Meaning, run: seq<Label>) {
    forall i | 0 <= i < |run| :: Meant(m, run[i])
  }

  lemma {:induction false} MeaningHolds(m: Meaning, run: seq<Label>)
    requires Legal(run) && RunMeant(m, run)
    ensures MeaningOk(m, After(run))
  {
    if run == [] {
      NoSteps();
    } else {
      var n := |run| - 1;
      LastStep(run);
      MeaningHolds(m, run[..n]);
      InvHolds(run[..n]);
      MeaningPreserved(m, After(run[..n]), run[n]);
    }
  }

  /** The indexer processed the path, with this content, in a batch of the session marked succeeded. */
  ghost predicate FileIndexed(h: History, s: SyncId, p: Path, hash: Hash) {
    exists k | k in h.stamped :: k.sync == s && h.stamped[k].state.Succeeded? && (k, p, hash) in h.indexedFiles
  }

  ghost predicate DeleteIndexed(h: History, s: SyncId, p: Path) {
    exists k | k in h.stamped :: k.sync == s && h.stamped[k].state.Succeeded? && (k, p) in h.indexedDeletes
  }

  lemma BackedIndexed(m: Meaning, h: History, s: SyncId, d: Delta)
    requires StampsMeant(m, h) && StampsOk(h.stamped) && Backed(h.stamped, s, d)
    ensures forall p | p in d.files :: FileIndexed(h, s, p, d.files[p])
    ensures forall p | p in d.deletes :: DeleteIndexed(h, s, p)
  {
    forall p | p in d.files ensures FileIndexed(h, s, p, d.files[p]) {
      var k :|
        && k in h.stamped && k.sync == s && RowProcessesFile(h.stamped[k], p) && h.stamped[k].files[p] == d.files[p];
      assert StampMeant(m, h, k, h.stamped[k]);
    }
    forall p | p in d.deletes ensures DeleteIndexed(h, s, p) {
      var k :| k in h.stamped && k.sync == s && RowProcessesDelete(h.stamped[k], p);
      assert StampMeant(m, h, k, h.stamped[k]);
    }
  }

  /** When every identifier stands for one batch, nothing enters a tree unless the indexer processed
      it, with the committed content, in a batch that was marked succeeded. */
  lemma CommitSafety(m: Meaning, run: seq<Label>, r: RepoId, i: nat)
    requires Legal(run) && RunMeant(m, run) && r in After(run).repos && i < |After(run).repos[r].log|
    requires After(run).repos[r].log[i].Commit?
    ensures var c := After(run).repos[r].log[i];
      && (forall p | p in c.delta.files :: FileIndexed(After(run).hist, c.sync, p, c.delta.files[p]))
      && (forall p | p in c.delta.deletes :: DeleteIndexed(After(run).hist, c.sync, p))
  {
    InvHolds(run);
    MeaningHolds(m, run);
    var c := After(run).repos[r].log[i];
    BackedIndexed(m, After(run).hist, c.sync, c.delta);
  }

  /** Until its session is collected, a commit is the whole processed delta, and it touches only
      paths the session was created for. */
  lemma CommitFrame(run: seq<Label>, r: RepoId, i: nat, p: Path)
    requires Legal(run) && r in After(run).repos && i < |After(run).repos[r].log|
    requires After(run).repos[r].log[i].Commit? && After(run).repos[r].log[i].sync in After(run).sessions
    ensures var st := After(run); var repo := st.repos[r]; var x := st.sessions[repo.log[i].sync];
      && IsDelta(st.rows, repo.log[i].sync, repo.log[i].delta)
      && i + 1 < |repo.past|
      && (p !in x.expectedFiles && p !in x.expectedDeletes ==>
            (p in repo.past[i + 1] <==> p in repo.past[i])
            && (p in repo.past[i] ==> repo.past[i + 1][p] == repo.past[i][p]))
  {
    InvHolds(run);
    var st := After(run);
    var repo := st.repos[r];
    var c := repo.log[i];
    assert RepoOk(repo) && DeltaOk(st.hist, st.sessions, st.rows, c.sync, r, c.delta);
    DeltaExpected(st, c.sync, c.delta);
    assert repo.past[i + 1] == Changed(repo.past[i], c);
  }

  /** A delta repeats the hashes the session was promised. */
  lemma DeltaExpected(st: State, s: SyncId, d: Delta)
    requires ManifestsOk(st) && CoverOk(st) && s in st.sessions && IsDelta(st.rows, s, d)
    ensures forall p | p in d.files ::
      p in st.sessions[s].expectedFiles && d.files[p] == st.sessions[s].expectedFiles[p]
    ensures d.deletes <= Elements(st.sessions[s].expectedDeletes)
  {
    var x := st.sessions[s];
    assert ManifestOk(st.repos, x);
    forall p | p in d.files ensures p in x.expectedFiles && d.files[p] == x.expectedFiles[p] {
      var k :| k in st.rows && k.sync == s && RowProcessesFile(st.rows[k], p) && st.rows[k].files[p] == d.files[p];
      assert RowReceived(st.rows[k], x);
    }
    forall p | p in d.deletes ensures p in x.expectedDeletes {
      assert ProcessesDelete(st.rows, s, p);
      var k :| k in st.rows && k.sync == s && RowProcessesDelete(st.rows[k], p);
      assert RowReceived(st.rows[k], x) && p in Elements(x.receivedDeletes);
    }
  }

  lemma SameDelta(rows: map<Key, Row>, s: SyncId, expected: Leaves, d: Delta, e: Delta)
    requires IsDelta(rows, s, d) && IsDelta(rows, s, e)
    requires forall p | p in d.files :: p in expected && d.files[p] == expected[p]
    requires forall p | p in e.files :: p in expected && e.files[p] == expected[p]
    ensures d == e
  {
    assert d.files.Keys == e.files.Keys by {
      forall p ensures p in d.files <==> p in e.files { }
    }
    assert d.files == e.files;
    assert d.deletes == e.deletes;
  }

  /** The delta is determined by the rows, whatever order they are read in. */
  lemma DeltaUnique(run: seq<Label>, s: SyncId, d: Delta, e: Delta)
    requires Legal(run) && s in After(run).sessions && IsDelta(After(run).rows, s, d) && IsDelta(After(run).rows, s, e)
    ensures d == e
  {
    InvHolds(run);
    DeltaExpected(After(run), s, d);
    DeltaExpected(After(run), s, e);
    SameDelta(After(run).rows, s, After(run).sessions[s].expectedFiles, d, e);
  }

  /** A terminal row of the session accepted the file and settled it: either processed or failed. */
  ghost predicate FileSettled(rows: map<Key, Row>, s: SyncId, p: Path) {
    exists k | k in rows ::
      k.sync == s && p in rows[k].files && (RowProcessesFile(rows[k], p) != (p in rows[k].failedFiles))
  }

  ghost predicate DeleteSettled(rows: map<Key, Row>, s: SyncId, p: Path) {
    exists k | k in rows ::
      k.sync == s && p in rows[k].deletes && (RowProcessesDelete(rows[k], p) != (p in rows[k].failedDeletes))
  }

  lemma AdmittedSettled(rows: map<Key, Row>, s: SyncId, p: Path)
    requires AllTerminal(rows, s)
    ensures FileAdmitted(rows, s, p) ==> FileSettled(rows, s, p)
    ensures DeleteAdmitted(rows, s, p) ==> DeleteSettled(rows, s, p)
  {
    if FileAdmitted(rows, s, p) {
      var k :| k in rows && k.sync == s && p in rows[k].files;
    }
    if DeleteAdmitted(rows, s, p) {
      var k :| k in rows && k.sync == s && p in rows[k].deletes;
    }
  }

  lemma SettledComplete(st: State, s: SyncId)
    requires ManifestsOk(st) && CoverOk(st) && FrozenOk(st)
    requires s in st.sessions && (st.sessions[s].status.Finalizing? || st.sessions[s].status.Done?)
    ensures AllTerminal(st.rows, s)
    ensures forall p | p in st.sessions[s].expectedFiles :: FileSettled(st.rows, s, p)
    ensures forall p | p in st.sessions[s].expectedDeletes :: DeleteSettled(st.rows, s, p)
  {
    var x := st.sessions[s];
    assert ManifestOk(st.repos, x) && Covered(st.rows, s, x);
    forall p | p in x.expectedFiles ensures FileSettled(st.rows, s, p) {
      AdmittedSettled(st.rows, s, p);
    }
    forall p | p in x.expectedDeletes ensures DeleteSettled(st.rows, s, p) {
      assert p in Elements(x.expectedDeletes);
      assert p in Elements(x.receivedDeletes);
      AdmittedSettled(st.rows, s, p);
    }
  }

  /** When a session is finalizing or done, every path it was promised sits in a terminal row,
      either processed or failed: reading the non-pending rows misses nothing. */
  lemma CompleteDelta(run: seq<Label>, s: SyncId)
    requires Legal(run) && s in After(run).sessions
    requires After(run).sessions[s].status.Finalizing? || After(run).sessions[s].status.Done?
    ensures AllTerminal(After(run).rows, s)
    ensures forall p | p in After(run).sessions[s].expectedFiles :: FileSettled(After(run).rows, s, p)
    ensures forall p | p in After(run).sessions[s].expectedDeletes :: DeleteSettled(After(run).rows, s, p)
  {
    InvHolds(run);
    SettledComplete(After(run), s);
  }

  // ---------------------------------------------------------------------------
  // Done
  // ---------------------------------------------------------------------------

  lemma OutcomeExact(repos: map<RepoId, Repo>, s: SyncId, o: Outcome)
    requires OutcomeOk(repos, s, o) && RepoOk(RepoOf(repos, o.repo))
    ensures var repo := RepoOf(repos, o.repo);
      ApplyChanges(repo.past[o.at], o.delta) == repo.past[o.at] <==>
        o.saved || !AddsOrRemovesPath(repo.past[o.at], o.delta)
  {
    var repo := RepoOf(repos, o.repo);
    if o.saved {
      assert repo.past[(o.at - 1) + 1] == Changed(repo.past[o.at - 1], repo.log[o.at - 1]);
      ApplyChangesIdempotent(repo.past[o.at - 1], o.delta);
    } else {
      EqualHashFastPathExact(repo.past[o.at], o.delta);
    }
  }

  /** A session marked done had work to commit and its outcome names a point of the tree's history,
      after its own diff. The tree of that point holds the whole processed delta exactly when the
      delta was saved or neither adds nor removes a path there: a skipped rename is lost. */
  lemma DoneIsCommittedExactly(run: seq<Label>, s: SyncId)
    requires Legal(run) && s in After(run).sessions && After(run).sessions[s].status.Done?
    requires !(After(run).sessions[s].expectedFiles == map[] && After(run).sessions[s].expectedDeletes == [])
    ensures var st := After(run);
      && s in st.hist.outcomes
      && var o := st.hist.outcomes[s]; var repo := RepoOf(st.repos, st.sessions[s].repo);
      && IsDelta(st.rows, s, o.delta)
      && st.sessions[s].diffedAt <= o.at < |repo.past|
      && (ApplyChanges(repo.past[o.at], o.delta) == repo.past[o.at] <==>
           o.saved || !AddsOrRemovesPath(repo.past[o.at], o.delta))
  {
    InvHolds(run);
    var st := After(run);
    var o := st.hist.outcomes[s];
    assert OutcomeOk(st.repos, s, o);
    RepoIsOk(st, o.repo);
    OutcomeExact(st.repos, s, o);
  }
}
