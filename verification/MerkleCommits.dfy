/** The compare-and-swap loop over the stored trees: commits are linearised, and the loop gives
    up only after five mismatches, each one a change of somebody else or a refused request. */
module MerkleCommits {
  import opened MerkleTree
  import opened SyncState
  import opened SyncMachine

  /** The write was not skipped: there was no tree, or the root hash changes. */
  ghost predicate Changes(tree: Leaves, d: Delta) {
    tree == map[] || RootHash(ApplyChanges(tree, d)) != RootHash(tree)
  }

  ghost predicate Genuine(tree: Leaves, c: Commit) {
    c.Commit? ==> Changes(tree, c.delta)
  }

  ghost predicate RepoOk(repo: Repo) {
    && |repo.past| == |repo.log| + 1
    && repo.past[0] == map[]
    && (forall i | 0 <= i < |repo.log| ::
          repo.past[i + 1] == Changed(repo.past[i], repo.log[i]) && Genuine(repo.past[i], repo.log[i]))
    && 0 in repo.issued && repo.issued[0] == map[]
    && repo.tree == repo.past[|repo.log|]
    && repo.version in repo.issued && repo.issued[repo.version] == repo.tree
  }

  ghost predicate ReposOk(repos: map<RepoId, Repo>) {
    forall r | r in repos :: RepoOk(repos[r])
  }

  /** From `base` on, no change is the worker's own. */
  ghost predicate OthersSince(repo: Repo, base: nat, w: WorkerId) {
    forall i | base <= i < |repo.log| :: !IsBy(repo.log[i], w)
  }

  ghost predicate CasPcOk(repos: map<RepoId, Repo>, w: WorkerId, pc: FinalPc) {
    match pc
    case AtLoadTree(r, _, attempt, base, refused) =>
      var repo := RepoOf(repos, r);
      && attempt < MAX_MERKLE_CAS_ATTEMPTS && refused <= attempt
      && base + attempt <= |repo.log| + refused && OthersSince(repo, base, w)
    case AtSaveTree(r, d, attempt, base, refused, tree, version, at) =>
      var repo := RepoOf(repos, r);
      && Changes(tree, d)
      && attempt < MAX_MERKLE_CAS_ATTEMPTS && refused <= attempt
      && base + attempt <= at + refused && at <= |repo.log| && OthersSince(repo, base, w)
      && version in repo.issued && repo.issued[version] == tree
      && (at == |repo.log| ==> repo.version == version)
    case AtFail(reason, r, base, refused) =>
      var repo := RepoOf(repos, r);
      reason == "merkle_cas_exhausted" ==>
        && refused <= MAX_MERKLE_CAS_ATTEMPTS && base + MAX_MERKLE_CAS_ATTEMPTS <= |repo.log| + refused
        && OthersSince(repo, base, w)
    case _ => true
  }

  ghost predicate CasProcsOk(repos: map<RepoId, Repo>, procs: map<WorkerId, Proc>) {
    forall w | w in procs && procs[w].Final? :: CasPcOk(repos, w, procs[w].fpc)
  }

  ghost predicate CasOk(st: State) {
    ReposOk(st.repos) && CasProcsOk(st.repos, st.procs)
  }

  /** Histories only grow. */
  ghost predicate Extends(a: Repo, b: Repo) {
    && a.log <= b.log && a.past <= b.past
    && (forall v | v in a.issued :: v in b.issued && b.issued[v] == a.issued[v])
    && (|a.log| == |b.log| ==> a == b)
  }

  lemma CommittedOk(repo: Repo, c: Commit, token: Version)
    requires RepoOk(repo) && Genuine(repo.tree, c) && (token == 0 ==> Changed(repo.tree, c) == map[])
    requires token in repo.issued ==> repo.issued[token] == Changed(repo.tree, c)
    ensures var after := Committed(repo, c, Changed(repo.tree, c), token); RepoOk(after) && Extends(repo, after)
  {
    var after := Committed(repo, c, Changed(repo.tree, c), token);
    forall i | 0 <= i < |after.log|
      ensures after.past[i + 1] == Changed(after.past[i], after.log[i]) && Genuine(after.past[i], after.log[i])
    {
      if i < |repo.log| {
        assert repo.past[i + 1] == Changed(repo.past[i], repo.log[i]) && Genuine(repo.past[i], repo.log[i]);
      }
    }
  }

  /** A tree put there from outside the protocol is one more change. */
  lemma ReplaceExtends(st: State, r: RepoId, tree: Leaves, token: Version)
    requires ReposOk(st.repos) && Enabled(st, Replace(r, tree, token))
    ensures var repo := RepoOf(st.repos, r); var after := Committed(repo, Overwrite(tree), tree, token);
      RepoOk(repo) && RepoOk(after) && Extends(repo, after)
  {
    assert RepoOk(NoRepo);
    CommittedOk(RepoOf(st.repos, r), Overwrite(tree), token);
  }

  /** The tree a delivery saves is the one its version token was issued for. */
  ghost predicate GoodSave(st: State, w: WorkerId, reply: Reply)
    requires w in st.procs && Saves(st, st.procs[w], reply)
  {
    var p := st.procs[w];
    FreshToken(RepoOf(st.repos, p.fpc.repo), reply.version, ApplyChanges(p.fpc.tree, p.fpc.delta))
  }

  lemma SaveCommits(st: State, w: WorkerId, reply: Reply)
    requires CasOk(st) && w in st.procs && Saves(st, st.procs[w], reply) && GoodSave(st, w, reply)
    ensures var p := st.procs[w]; var repo := RepoOf(st.repos, p.fpc.repo);
      var c := Commit(p.sync, w, p.fpc.delta);
      var after := Committed(repo, c, ApplyChanges(repo.tree, c.delta), reply.version);
      && NextRepos(st, Step(w, reply)) == st.repos[p.fpc.repo := after]
      && RepoOk(after) && Extends(repo, after)
  {
    var p := st.procs[w];
    LoadedTree(st.repos, w, p.fpc);
    SavedRepos(st, w, reply);
    CommittedOk(RepoOf(st.repos, p.fpc.repo), Commit(p.sync, w, p.fpc.delta), reply.version);
  }

  lemma SavedRepos(st: State, w: WorkerId, reply: Reply)
    requires w in st.procs && Saves(st, st.procs[w], reply)
    ensures var p := st.procs[w]; var c := Commit(p.sync, w, p.fpc.delta);
      NextRepos(st, Step(w, reply)) == st.repos[p.fpc.repo :=
        Committed(RepoOf(st.repos, p.fpc.repo), c, ApplyChanges(p.fpc.tree, p.fpc.delta), reply.version)]
  {
  }

  /** A version token that is still the current one names the tree that is there. */
  lemma LoadedTree(repos: map<RepoId, Repo>, w: WorkerId, pc: FinalPc)
    requires ReposOk(repos) && pc.AtSaveTree? && CasPcOk(repos, w, pc)
    ensures var repo := RepoOf(repos, pc.repo);
      RepoOk(repo) && (repo.version == pc.version ==> pc.tree == repo.tree && Changes(repo.tree, pc.delta))
  {
    assert RepoOk(NoRepo);
  }

  lemma ReposPreserved(st: State, w: WorkerId, reply: Reply)
    requires CasOk(st) && w in st.procs && (Saves(st, st.procs[w], reply) ==> GoodSave(st, w, reply))
    ensures ReposOk(NextRepos(st, Step(w, reply)))
  {
    if Saves(st, st.procs[w], reply) {
      SaveCommits(st, w, reply);
    }
  }

  /** A commit by one worker keeps what the other deliveries know. */
  lemma OtherCommit(repos: map<RepoId, Repo>, r: RepoId, after: Repo, c: Commit, w: WorkerId, pc: FinalPc)
    requires CasPcOk(repos, w, pc) && Extends(RepoOf(repos, r), after)
    requires after.log == RepoOf(repos, r).log + [c] && !IsBy(c, w)
    ensures CasPcOk(repos[r := after], w, pc)
  {
  }

  lemma OtherPreserved(st: State, w: WorkerId, reply: Reply, v: WorkerId)
    requires CasOk(st) && w in st.procs && (Saves(st, st.procs[w], reply) ==> GoodSave(st, w, reply))
    requires v in st.procs && v != w && st.procs[v].Final?
    ensures CasPcOk(NextRepos(st, Step(w, reply)), v, st.procs[v].fpc)
  {
    assert CasPcOk(st.repos, v, st.procs[v].fpc);
    if Saves(st, st.procs[w], reply) {
      SaveCommits(st, w, reply);
      var p := st.procs[w];
      var repo := RepoOf(st.repos, p.fpc.repo);
      var c := Commit(p.sync, w, p.fpc.delta);
      OtherCommit(st.repos, p.fpc.repo, Committed(repo, c, ApplyChanges(repo.tree, c.delta), reply.version), c, v,
        st.procs[v].fpc);
    }
  }

  lemma LoadKeeps(
    repos: map<RepoId, Repo>, w: WorkerId, r: RepoId, d: Delta, attempt: nat, base: nat, refused: nat, reply: Reply)
    requires RepoOk(RepoOf(repos, r)) && CasPcOk(repos, w, AtLoadTree(r, d, attempt, base, refused))
    ensures CasPcOk(repos, w, AfterLoad(RepoOf(repos, r), r, d, attempt, base, refused, reply))
  {
  }

  lemma ConflictKeeps(repos: map<RepoId, Repo>, w: WorkerId, pc: FinalPc, reply: Reply)
    requires pc.AtSaveTree? && CasPcOk(repos, w, pc)
    requires
      || RepoOf(repos, pc.repo).version != pc.version
      || reply.Fault? || reply.TokenFault? || reply.Permanent? || reply.Refused?
    ensures CasPcOk(repos, w,
      AfterSave(RepoOf(repos, pc.repo), pc.repo, pc.delta, pc.attempt, pc.base, pc.refused, pc.version, reply))
  {
  }

  lemma OwnPreserved(st: State, w: WorkerId, reply: Reply)
    requires CasOk(st) && w in st.procs && st.procs[w].Final? && !Saves(st, st.procs[w], reply)
    requires st.procs[w].fpc.AtSaveTree? ==> !reply.Fine? && !reply.Stats? && !reply.Results?
    ensures CasPcOk(st.repos, w, NextFinalPc(st, st.procs[w], reply))
  {
    var p := st.procs[w];
    assert CasPcOk(st.repos, w, p.fpc);
    match p.fpc
    case AtLoadTree(r, d, attempt, base, refused) =>
      assert RepoOk(NoRepo);
      LoadKeeps(st.repos, w, r, d, attempt, base, refused, reply);
    case AtSaveTree(_, _, _, _, _, _, _, _) => ConflictKeeps(st.repos, w, p.fpc, reply);
    case _ =>
  }

  lemma OwnSave(st: State, w: WorkerId, reply: Reply, repos: map<RepoId, Repo>)
    requires w in st.procs && Saves(st, st.procs[w], reply)
    ensures CasPcOk(repos, w, NextFinalPc(st, st.procs[w], reply))
  {
  }

  lemma ReplacePreserved(st: State, r: RepoId, tree: Leaves, token: Version)
    requires CasOk(st) && Enabled(st, Replace(r, tree, token))
    ensures CasOk(Next(st, Replace(r, tree, token)))
  {
    ReplaceExtends(st, r, tree, token);
    var after := Committed(RepoOf(st.repos, r), Overwrite(tree), tree, token);
    forall w | w in st.procs && st.procs[w].Final? ensures CasPcOk(st.repos[r := after], w, st.procs[w].fpc) {
      OtherCommit(st.repos, r, after, Overwrite(tree), w, st.procs[w].fpc);
    }
  }

  lemma StepPreserved(st: State, w: WorkerId, reply: Reply, v: WorkerId)
    requires CasOk(st) && CanStep(st, w, reply)
    requires v in st.procs && st.procs[v].Final?
    ensures CasPcOk(NextRepos(st, Step(w, reply)), v, NextProcs(st, Step(w, reply))[v].fpc)
  {
    if v != w {
      OtherPreserved(st, w, reply, v);
    } else if Saves(st, st.procs[w], reply) {
      OwnSave(st, w, reply, NextRepos(st, Step(w, reply)));
    } else {
      OwnPreserved(st, w, reply);
    }
  }

  lemma IdlePreserved(st: State, l: Label)
    requires CasOk(st) && !l.Step? && !l.Replace?
    ensures CasOk(Next(st, l))
  {
    var procs := NextProcs(st, l);
    forall v | v in procs && procs[v].Final? ensures CasPcOk(st.repos, v, procs[v].fpc) {
      if v in st.procs && procs[v] == st.procs[v] {
        assert CasPcOk(st.repos, v, st.procs[v].fpc);
      }
    }
  }

  lemma CasPreserved(st: State, l: Label)
    requires CasOk(st) && Enabled(st, l)
    ensures CasOk(Next(st, l))
  {
    match l
    case Step(w, reply) =>
      ReposPreserved(st, w, reply);
      forall v | v in st.procs && st.procs[v].Final?
        ensures CasPcOk(NextRepos(st, l), v, NextProcs(st, l)[v].fpc)
      { StepPreserved(st, w, reply, v); }
    case Replace(r, tree, token) => ReplacePreserved(st, r, tree, token);
    case _ => IdlePreserved(st, l);
  }
}
