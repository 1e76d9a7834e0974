/** What the next diff asks for once a full sync is done. */
module Convergence {
  import opened Wrappers

  import opened Digests
  import opened MerkleTree
  import opened HashSize
  import opened SyncState
  import opened SyncMachine
  import opened MerkleCommits
  import opened BatchRows
  import opened Manifests
  import opened Finalization
  import opened SyncTheorems

  // ---------------------------------------------------------------------------
  // A tree only one session committed to
  // ---------------------------------------------------------------------------

  /** Since the session's diff, nobody else has changed the tree. */
  ghost predicate AloneSince(repo: Repo, s: SyncId, n: nat) {
    forall i | n <= i < |repo.log| :: IsFor(repo.log[i], s)
  }

  ghost predicate SameDeltaSince(repo: Repo, n: nat, d: Delta) {
    forall i | n <= i < |repo.log| :: repo.log[i].Commit? && repo.log[i].delta == d
  }

  lemma {:induction false} RepeatedCommits(repo: Repo, n: nat, m: nat, d: Delta)
    requires RepoOk(repo) && n < m <= |repo.log| && SameDeltaSince(repo, n, d)
    ensures repo.past[m] == ApplyChanges(repo.past[n], d)
  {
    assert repo.past[(m - 1) + 1] == Changed(repo.past[m - 1], repo.log[m - 1]);
    if n < m - 1 {
      RepeatedCommits(repo, n, m - 1, d);
      ApplyChangesIdempotent(repo.past[n], d);
    }
  }

  /** The delta is not empty and only asks for what the client has: from no tree at all it always
      changes the root hash. */
  lemma FirstCommitChanges(client: Leaves, d: Delta)
    requires d != Delta(map[], {}) && d.deletes <= Stale(map[], client)
    ensures RootHash(ApplyChanges(map[], d)) != RootHash(map[])
  {
    assert d.deletes == {};
    assert ApplyChanges(map[], d) == d.files;
    EmptyRootHash(d.files);
  }

  /** Once the delta was committed, it changed the root hash of the tree that was diffed. */
  lemma TreeAfterCommits(repo: Repo, n: nat, client: Leaves, d: Delta)
    requires RepoOk(repo) && n < |repo.log| && SameDeltaSince(repo, n, d)
    requires d != Delta(map[], {}) && d.deletes <= Stale(repo.past[n], client)
    ensures repo.tree == ApplyChanges(repo.past[n], d)
    ensures RootHash(ApplyChanges(repo.past[n], d)) != RootHash(repo.past[n])
  {
    RepeatedCommits(repo, n, |repo.log|, d);
    assert Genuine(repo.past[n], repo.log[n]);
    if repo.past[n] == map[] {
      FirstCommitChanges(client, d);
    }
  }

  /** The commits of the session all carry the outcome's delta. */
  lemma OwnCommits(run: seq<Label>, s: SyncId, i: nat)
    requires Legal(run) && s in After(run).sessions && s in After(run).hist.outcomes
    requires var repo := RepoOf(After(run).repos, After(run).sessions[s].repo);
      i < |repo.log| && IsFor(repo.log[i], s)
    ensures RepoOf(After(run).repos, After(run).sessions[s].repo).log[i].delta == After(run).hist.outcomes[s].delta
  {
    InvHolds(run);
    var st := After(run);
    var d := RepoOf(st.repos, st.sessions[s].repo).log[i].delta;
    assert DeltaOk(st.hist, st.sessions, st.rows, s, st.sessions[s].repo, d);
    DeltaUnique(run, s, d, st.hist.outcomes[s].delta);
  }

  // ---------------------------------------------------------------------------
  // The next diff
  // ---------------------------------------------------------------------------

  /** Exactly what the session did not process is asked for again. */
  ghost predicate Converged(tree: Leaves, x: Session, d: Delta) {
    && Need(tree, x.client).Keys == x.expectedFiles.Keys - d.files.Keys
    && Stale(tree, x.client) == Elements(x.expectedDeletes) - d.deletes
  }

  lemma ConvergedExactly(before: Leaves, x: Session, d: Delta)
    requires x.expectedFiles == Need(before, x.client) && Elements(x.expectedDeletes) == Stale(before, x.client)
    requires forall p | p in d.files :: p in x.expectedFiles && d.files[p] == x.expectedFiles[p]
    requires d.deletes <= Elements(x.expectedDeletes) && d != Delta(map[], {})
    ensures Converged(ApplyChanges(before, d), x, d)
    ensures !Converged(before, x, d)
  {
    CommitShrinksDiff(before, x.client, d);
    if d.files != map[] {
      var p :| p in d.files;
      assert p in Need(before, x.client).Keys && p !in x.expectedFiles.Keys - d.files.Keys;
    } else {
      var p :| p in d.deletes;
      assert p in Stale(before, x.client) && p !in Elements(x.expectedDeletes) - d.deletes;
    }
  }

  /** `hash` is the root hash. */
  lemma ConvergesIff(hash: Leaves -> Hash, before: Leaves, tree: Leaves, committed: bool, x: Session, d: Delta)
    requires if committed then tree == ApplyChanges(before, d) && hash(ApplyChanges(before, d)) != hash(before)
      else tree == before && hash(ApplyChanges(before, d)) == hash(before)
    requires d != Delta(map[], {})
    requires x.expectedFiles == Need(before, x.client) && Elements(x.expectedDeletes) == Stale(before, x.client)
    requires forall p | p in d.files :: p in x.expectedFiles && d.files[p] == x.expectedFiles[p]
    requires d.deletes <= Elements(x.expectedDeletes)
    ensures Converged(tree, x, d) <==> hash(ApplyChanges(before, d)) != hash(before)
  {
    ConvergedExactly(before, x, d);
  }

  /** After a done full sync since whose diff nobody else changed the tree, the next diff of the same
      client asks for exactly what was not processed, if and only if the delta changes the root
      hash of the tree that was diffed. */
  lemma DoneConverges(run: seq<Label>, s: SyncId)
    requires Legal(run) && s in After(run).sessions && After(run).sessions[s].status.Done?
    requires !After(run).sessions[s].incremental && s in After(run).hist.outcomes
    requires AloneSince(RepoOf(After(run).repos, After(run).sessions[s].repo), s, After(run).sessions[s].diffedAt)
    ensures var st := After(run); var x := st.sessions[s]; var repo := RepoOf(st.repos, x.repo);
      var d := st.hist.outcomes[s].delta;
      && x.diffedAt < |repo.past|
      && (Converged(repo.tree, x, d) <==>
           RootHash(ApplyChanges(repo.past[x.diffedAt], d)) != RootHash(repo.past[x.diffedAt]))
  {
    var st := After(run);
    var x, o := st.sessions[s], st.hist.outcomes[s];
    var repo := RepoOf(st.repos, x.repo);
    forall i | x.diffedAt <= i < |repo.log| ensures repo.log[i].Commit? && repo.log[i].delta == o.delta {
      OwnCommits(run, s, i);
    }
    InvHolds(run);
    DoneFacts(st, s);
    if x.diffedAt < |repo.log| {
      TreeAfterCommits(repo, x.diffedAt, x.client, o.delta);
    } else {
      assert o.at == x.diffedAt && repo.tree == repo.past[x.diffedAt];
    }
    ConvergesIff(RootHash, repo.past[x.diffedAt], repo.tree, x.diffedAt < |repo.log|, x, o.delta);
  }

  lemma DoneFacts(st: State, s: SyncId)
    requires CasOk(st) && ManifestsOk(st) && CoverOk(st) && OutcomesOk(st)
    requires s in st.sessions && s in st.hist.outcomes && !st.sessions[s].incremental
    ensures var x := st.sessions[s]; var o := st.hist.outcomes[s]; var repo := RepoOf(st.repos, x.repo);
      && RepoOk(repo) && x.diffedAt <= o.at <= |repo.log| && (o.saved ==> x.diffedAt < o.at) &&
           o.delta != Delta(map[], {})
      && (!o.saved ==> RootHash(ApplyChanges(repo.past[o.at], o.delta)) == RootHash(repo.past[o.at]))
      && x.expectedFiles == Need(repo.past[x.diffedAt], x.client)
      && Elements(x.expectedDeletes) == Stale(repo.past[x.diffedAt], x.client)
      && (forall p | p in o.delta.files :: p in x.expectedFiles && o.delta.files[p] == x.expectedFiles[p])
      && o.delta.deletes <= Elements(x.expectedDeletes)
  {
    var x, o := st.sessions[s], st.hist.outcomes[s];
    assert RepoOk(NoRepo);
    assert ManifestOk(st.repos, x);
    assert OutcomeOk(st.repos, s, o);
    DeltaExpected(st, s, o.delta);
  }

  /** A sync that changes the root hash strictly shrinks what is out of sync. */
  lemma ConvergedShrinks(before: Leaves, tree: Leaves, x: Session, d: Delta)
    requires x.expectedFiles == Need(before, x.client) && Elements(x.expectedDeletes) == Stale(before, x.client)
    requires d.files.Keys <= x.expectedFiles.Keys && d.deletes <= Elements(x.expectedDeletes) && d != Delta(map[], {})
    requires Converged(tree, x, d)
    ensures Need(tree, x.client).Keys <= Need(before, x.client).Keys && Stale(tree, x.client) <= Stale(before, x.client)
    ensures Need(tree, x.client).Keys != Need(before, x.client).Keys || Stale(tree, x.client) != Stale(before, x.client)
  {
    if d.files != map[] {
      var p :| p in d.files;
      assert p in Need(before, x.client).Keys && p !in Need(tree, x.client).Keys;
    } else {
      var p :| p in d.deletes;
      assert p in Stale(before, x.client) && p !in Stale(tree, x.client);
    }
  }

  /** A promised path was accepted in the row and failed there. */
  ghost predicate FailedEverywhere(rows: map<Key, Row>, s: SyncId, p: Path) {
    forall k | k in rows && k.sync == s && p in rows[k].files :: p in rows[k].failedFiles
  }

  ghost predicate DeleteFailedEverywhere(rows: map<Key, Row>, s: SyncId, p: Path) {
    forall k | k in rows && k.sync == s && p in rows[k].deletes :: p in rows[k].failedDeletes
  }

  lemma UnprocessedFailed(rows: map<Key, Row>, s: SyncId, d: Delta, p: Path)
    requires IsDelta(rows, s, d) && AllTerminal(rows, s)
    ensures p !in d.files <==> FailedEverywhere(rows, s, p)
    ensures p !in d.deletes <==> DeleteFailedEverywhere(rows, s, p)
  {
    assert p in d.files <==> ProcessesFile(rows, s, p);
    assert p in d.deletes <==> ProcessesDelete(rows, s, p);
    forall k | k in rows && k.sync == s
      ensures RowProcessesFile(rows[k], p) <==> p in rows[k].files && p !in rows[k].failedFiles { }
    forall k | k in rows && k.sync == s
      ensures RowProcessesDelete(rows[k], p) <==> p in rows[k].deletes && p !in rows[k].failedDeletes { }
  }

  /** What a done session did not process, and the next diff asks for again, is what failed in every
      row that had accepted it; with no failures that is nothing. */
  lemma AskedAgainIsFailed(run: seq<Label>, s: SyncId, p: Path)
    requires Legal(run) && s in After(run).sessions && After(run).sessions[s].status.Done?
    requires s in After(run).hist.outcomes
    ensures var d := After(run).hist.outcomes[s].delta;
      && (p in After(run).sessions[s].expectedFiles.Keys - d.files.Keys <==>
            p in After(run).sessions[s].expectedFiles && FileAdmitted(After(run).rows, s, p) &&
              FailedEverywhere(After(run).rows, s, p))
      && (p in Elements(After(run).sessions[s].expectedDeletes) - d.deletes <==>
            p in After(run).sessions[s].expectedDeletes && DeleteAdmitted(After(run).rows, s, p) &&
              DeleteFailedEverywhere(After(run).rows, s, p))
  {
    InvHolds(run);
    var st := After(run);
    assert DeltaOk(st.hist, st.sessions, st.rows, s, st.hist.outcomes[s].repo, st.hist.outcomes[s].delta);
    UnprocessedFailed(st.rows, s, st.hist.outcomes[s].delta, p);
    assert ManifestOk(st.repos, st.sessions[s]) && Covered(st.rows, s, st.sessions[s]);
    assert p in st.sessions[s].expectedDeletes ==> p in Elements(st.sessions[s].receivedDeletes);
  }

  // ---------------------------------------------------------------------------
  // With other sessions' commits, and changes from outside
  // ---------------------------------------------------------------------------

  predicate Touches(d: Delta, p: Path) {
    p in d.files || p in d.deletes
  }

  predicate SameAt(a: Leaves, b: Leaves, p: Path) {
    (p in a <==> p in b) && (p in a ==> a[p] == b[p])
  }

  /** The change leaves the path as it was. */
  predicate LeavesAlone(repo: Repo, i: nat, p: Path)
    requires i + 1 < |repo.past|
  {
    SameAt(repo.past[i], repo.past[i + 1], p)
  }

  /** From the nth change on, no one but the session has changed the path: no commit of another one, no
      deletion of the index and no tree saved without a session. */
  ghost predicate OnlyOwnTouch(repo: Repo, s: SyncId, n: nat, p: Path) {
    |repo.past| == |repo.log| + 1 &&
      forall i | n <= i < |repo.log| && !IsFor(repo.log[i], s) :: LeavesAlone(repo, i, p)
  }

  /** All commits of the session from the nth change on have delta d. */
  ghost predicate OwnDelta(repo: Repo, s: SyncId, d: Delta, n: nat) {
    forall i | n <= i < |repo.log| && IsFor(repo.log[i], s) :: repo.log[i].delta == d
  }

  ghost predicate OwnCommit(repo: Repo, s: SyncId, n: nat, m: nat) {
    m <= |repo.log| && exists i | n <= i < m :: IsFor(repo.log[i], s)
  }

  /** A foreign commit leaves alone what its delta does not touch. */
  lemma UntouchedAlone(repo: Repo, i: nat, p: Path)
    requires RepoOk(repo) && i < |repo.log| && repo.log[i].Commit? && !Touches(repo.log[i].delta, p)
    ensures LeavesAlone(repo, i, p)
  {
    assert repo.past[i + 1] == Changed(repo.past[i], repo.log[i]);
  }

  /** At such a path the tree is as the delta leaves it, or as it was. */
  lemma {:induction false} PathAfter(repo: Repo, s: SyncId, d: Delta, n: nat, m: nat, p: Path)
    requires RepoOk(repo) && n <= m <= |repo.log| && OnlyOwnTouch(repo, s, n, p) && OwnDelta(repo, s, d, n)
    ensures SameAt(repo.past[m], if OwnCommit(repo, s, n, m) then ApplyChanges(repo.past[n], d) else repo.past[n], p)
  {
    if n < m {
      PathAfter(repo, s, d, n, m - 1, p);
      assert repo.past[(m - 1) + 1] == Changed(repo.past[m - 1], repo.log[m - 1]);
      assert OwnCommit(repo, s, n, m) <==> OwnCommit(repo, s, n, m - 1) || IsFor(repo.log[m - 1], s);
      assert !IsFor(repo.log[m - 1], s) ==> LeavesAlone(repo, m - 1, p);
    }
  }

  /** The next diff asks for the path exactly when the session was promised it and did not process it. */
  ghost predicate ConvergedAt(tree: Leaves, x: Session, d: Delta, p: Path) {
    && (p in Need(tree, x.client) <==> p in x.expectedFiles && p !in d.files)
    && (p in Stale(tree, x.client) <==> p in Elements(x.expectedDeletes) && p !in d.deletes)
  }

  lemma ConvergedAtIff(before: Leaves, tree: Leaves, committed: bool, x: Session, d: Delta, p: Path)
    requires x.expectedFiles == Need(before, x.client) && Elements(x.expectedDeletes) == Stale(before, x.client)
    requires forall q | q in d.files :: q in x.expectedFiles && d.files[q] == x.expectedFiles[q]
    requires d.deletes <= Elements(x.expectedDeletes)
    requires SameAt(tree, if committed then ApplyChanges(before, d) else before, p)
    ensures ConvergedAt(tree, x, d, p) <==> committed || !Touches(d, p)
  {
  }

  lemma OwnDeltas(run: seq<Label>, s: SyncId)
    requires Legal(run) && s in After(run).sessions && s in After(run).hist.outcomes
    ensures var x := After(run).sessions[s]; var repo := RepoOf(After(run).repos, x.repo);
      OwnDelta(repo, s, After(run).hist.outcomes[s].delta, x.diffedAt)
  {
    var x := After(run).sessions[s];
    var repo := RepoOf(After(run).repos, x.repo);
    forall i | x.diffedAt <= i < |repo.log| && IsFor(repo.log[i], s)
      ensures repo.log[i].delta == After(run).hist.outcomes[s].delta
    { OwnCommits(run, s, i); }
  }

  /** After a done full sync, whatever others did since its diff: at a path that none of their commits,
      deletions and overwrites of the tree changed, the next diff asks for exactly what was not
      processed, if and only if the session's delta leaves the path alone or was committed since the
      diff. */
  lemma DoneConvergesAt(run: seq<Label>, s: SyncId, p: Path)
    requires Legal(run) && s in After(run).sessions && After(run).sessions[s].status.Done?
    requires !After(run).sessions[s].incremental && s in After(run).hist.outcomes
    requires var x := After(run).sessions[s]; OnlyOwnTouch(RepoOf(After(run).repos, x.repo), s, x.diffedAt, p)
    ensures var st := After(run); var x := st.sessions[s]; var d := st.hist.outcomes[s].delta;
      var repo := RepoOf(st.repos, x.repo);
      ConvergedAt(repo.tree, x, d, p) <==> OwnCommit(repo, s, x.diffedAt, |repo.log|) || !Touches(d, p)
  {
    var st := After(run);
    var x, o := st.sessions[s], st.hist.outcomes[s];
    var repo := RepoOf(st.repos, x.repo);
    OwnDeltas(run, s);
    InvHolds(run);
    DoneFacts(st, s);
    PathAfter(repo, s, o.delta, x.diffedAt, |repo.log|, p);
    var committed := OwnCommit(repo, s, x.diffedAt, |repo.log|);
    ConvergedAtIff(repo.past[x.diffedAt], repo.tree, committed, x, o.delta, p);
  }

  /** The next diff treats the path as it would treat it in the other tree. */
  ghost predicate SameDiff(a: Leaves, b: Leaves, client: Leaves, p: Path) {
    (p in Need(a, client) <==> p in Need(b, client)) && (p in Stale(a, client) <==> p in Stale(b, client))
  }

  /** Whoever changed the tree since, the next diff is right about a path exactly when it treats it as
      it would treat it in the tree that the diff read with the delta applied. */
  lemma DoneConvergesExactly(run: seq<Label>, s: SyncId, p: Path)
    requires Legal(run) && s in After(run).sessions && !After(run).sessions[s].incremental
    requires s in After(run).hist.outcomes
    ensures var st := After(run); var x := st.sessions[s]; var d := st.hist.outcomes[s].delta;
      var repo := RepoOf(st.repos, x.repo);
      && x.diffedAt < |repo.past|
      && (ConvergedAt(repo.tree, x, d, p) <==>
           SameDiff(repo.tree, ApplyChanges(repo.past[x.diffedAt], d), x.client, p))
  {
    InvHolds(run);
    var st := After(run);
    DoneFacts(st, s);
    var x, repo := st.sessions[s], RepoOf(st.repos, st.sessions[s].repo);
    ConvergedAsDiff(repo.past[x.diffedAt], repo.tree, x, st.hist.outcomes[s].delta, p);
  }

  lemma ConvergedAsDiff(before: Leaves, tree: Leaves, x: Session, d: Delta, p: Path)
    requires x.expectedFiles == Need(before, x.client) && Elements(x.expectedDeletes) == Stale(before, x.client)
    requires forall q | q in d.files :: q in x.expectedFiles && d.files[q] == x.expectedFiles[q]
    requires d.deletes <= Elements(x.expectedDeletes)
    ensures ConvergedAt(tree, x, d, p) <==> SameDiff(tree, ApplyChanges(before, d), x.client, p)
  {
    ConvergedAtIff(before, ApplyChanges(before, d), true, x, d, p);
  }

  // ---------------------------------------------------------------------------
  // Lost updates
  // ---------------------------------------------------------------------------

  /** Deleting the index, or saving the tree of a scan as old as the session's diff, asks for no version:
      it may follow any run, leaves the session done, and its next diff asks again for every file that
      it has processed and committed. */
  lemma ReplaceLosesCommits(run: seq<Label>, s: SyncId, tree: Leaves, token: Version, p: Path)
    requires Legal(run) && s in After(run).sessions && After(run).sessions[s].status.Done?
    requires !After(run).sessions[s].incremental && s in After(run).hist.outcomes
    requires var x := After(run).sessions[s]; var repo := RepoOf(After(run).repos, x.repo);
      Enabled(After(run), Replace(x.repo, tree, token)) &&
        (tree == map[] || (x.diffedAt < |repo.past| && tree == repo.past[x.diffedAt]))
    requires p in After(run).hist.outcomes[s].delta.files
    ensures var x := After(run).sessions[s]; var more := run + [Replace(x.repo, tree, token)]; var st := After(more);
      && Legal(more) && s in st.sessions && st.sessions[s] == x && st.hist.outcomes == After(run).hist.outcomes
      && p in Need(RepoOf(st.repos, x.repo).tree, x.client)
      && !ConvergedAt(RepoOf(st.repos, x.repo).tree, x, st.hist.outcomes[s].delta, p)
  {
    InvHolds(run);
    DoneFacts(After(run), s);
    Extend(run, Replace(After(run).sessions[s].repo, tree, token));
  }

  /** Deleting the index may follow any run. */
  lemma DeleteAlways(run: seq<Label>, r: RepoId)
    requires Legal(run)
    ensures Enabled(After(run), Replace(r, map[], 0)) && Legal(run + [Replace(r, map[], 0)])
    ensures RepoOf(After(run + [Replace(r, map[], 0)]).repos, r).tree == map[]
  {
    Extend(run, Replace(r, map[], 0));
  }

  /** When the index is deleted between a session's diff and its commit, the next diff asks again for
      the files that the diff found unchanged, though no commit touched them. */
  lemma DeletedIndexAsksAgain(run: seq<Label>, s: SyncId, j: nat, p: Path)
    requires Legal(run) && s in After(run).sessions && !After(run).sessions[s].incremental
    requires s in After(run).hist.outcomes
    requires var x := After(run).sessions[s]; var repo := RepoOf(After(run).repos, x.repo);
      && x.diffedAt <= j < |repo.log| && repo.log[j] == Overwrite(map[])
      && p in x.client && p !in x.expectedFiles && OnlyOwnTouch(repo, s, j + 1, p)
    ensures var st := After(run); var x := st.sessions[s]; var tree := RepoOf(st.repos, x.repo).tree;
      p in Need(tree, x.client) && !ConvergedAt(tree, x, st.hist.outcomes[s].delta, p)
  {
    var st := After(run);
    var x, d := st.sessions[s], st.hist.outcomes[s].delta;
    var repo := RepoOf(st.repos, x.repo);
    InvHolds(run);
    DoneFacts(st, s);
    OwnDeltas(run, s);
    assert repo.past[j + 1] == Changed(repo.past[j], repo.log[j]);
    PathAfter(repo, s, d, j + 1, |repo.log|, p);
    assert p !in repo.tree;
  }

  lemma SavedIsOwn(repos: map<RepoId, Repo>, s: SyncId, o: Outcome, n: nat)
    requires OutcomeOk(repos, s, o) && o.saved && n < o.at
    ensures OwnCommit(RepoOf(repos, o.repo), s, n, |RepoOf(repos, o.repo).log|)
  {
    assert IsFor(RepoOf(repos, o.repo).log[o.at - 1], s);
  }

  /** A done session whose last finalizer saved has committed since its diff; otherwise that finalizer
      had found the root hash unchanged. */
  lemma DoneCommitted(run: seq<Label>, s: SyncId)
    requires Legal(run) && s in After(run).sessions && s in After(run).hist.outcomes
    ensures var st := After(run); var x := st.sessions[s]; var o := st.hist.outcomes[s];
      o.repo == x.repo &&
        (o.saved ==> OwnCommit(RepoOf(st.repos, x.repo), s, x.diffedAt, |RepoOf(st.repos, x.repo).log|))
    ensures var o := After(run).hist.outcomes[s];
      !o.saved ==> o.at < |RepoOf(After(run).repos, o.repo).past| && SkippedAt(RepoOf(After(run).repos, o.repo), o)
  {
    InvHolds(run);
    var st := After(run);
    var o := st.hist.outcomes[s];
    assert OutcomeOk(st.repos, s, o) && DeltaOk(st.hist, st.sessions, st.rows, s, o.repo, o.delta);
    assert NotBefore(st.sessions, s, if o.saved then o.at - 1 else o.at);
    if o.saved {
      SavedIsOwn(st.repos, s, o, st.sessions[s].diffedAt);
    }
  }

  predicate SkippedAt(repo: Repo, o: Outcome)
    requires o.at < |repo.past|
  {
    RootHash(ApplyChanges(repo.past[o.at], o.delta)) == RootHash(repo.past[o.at])
  }

  /** The label commits to the repository for the session. */
  predicate CommitsFor(st: State, l: Label, r: RepoId, t: SyncId) {
    && l.Step? && l.w in st.procs && Saves(st, st.procs[l.w], l.reply)
    && st.procs[l.w].fpc.repo == r && st.procs[l.w].sync == t
  }

  lemma CommitterInactive(st: State, l: Label, s: SyncId, t: SyncId)
    requires FinalPcsOk(st) && ManifestsOk(st) && OneActive(st.sessions)
    requires s in st.sessions && IsActive(st.sessions[s].status) && t != s && CommitsFor(st, l, st.sessions[s].repo, t)
    ensures t in st.sessions ==> !IsActive(st.sessions[t].status)
  {
    if t in st.sessions {
      var pc := st.procs[l.w].fpc;
      assert FinalPcOk(st, t, pc);
      assert DeltaOk(st.hist, st.sessions, st.rows, t, pc.repo, pc.delta);
      assert ManifestOk(st.repos, st.sessions[s]) && ManifestOk(st.repos, st.sessions[t]);
    }
  }

  /** While a session is active, its tree is changed for another one only by a finalizer that comes
      too late: its own session was failed, expired, done or collected before. */
  lemma ForeignCommitIsLate(run: seq<Label>, i: nat, s: SyncId, t: SyncId)
    requires Legal(run) && i < |run| && t != s
    requires s in After(run[..i]).sessions && IsActive(After(run[..i]).sessions[s].status)
    requires CommitsFor(After(run[..i]), run[i], After(run[..i]).sessions[s].repo, t)
    ensures t in After(run[..i]).sessions ==> !IsActive(After(run[..i]).sessions[t].status)
  {
    PrefixLegal(run, i);
    InvHolds(run[..i]);
    CommitterInactive(After(run[..i]), run[i], s, t);
  }
}
