/** What a session promised and received: the count comparison that closes it is exact, and the
    rows admitted so far cover exactly what it received. */
module Manifests {
  import opened Wrappers

  import opened MerkleTree
  import opened SyncState
  import opened SyncMachine
  import opened MerkleCommits
  import opened BatchRows

  lemma {:induction false} ElementsCount(xs: seq<Path>)
    ensures |Elements(xs)| <= |xs|
    ensures |Elements(xs)| == |xs| <==> NoDuplicates(xs)
  {
    if xs != [] {
      var rest, last := xs[..|xs| - 1], xs[|xs| - 1];
      ElementsCount(rest);
      assert xs == rest + [last];
      assert Elements(xs) == Elements(rest) + {last};
      if last in rest {
        assert Elements(xs) == Elements(rest);
        var i :| 0 <= i < |rest| && rest[i] == last;
        assert xs[i] == xs[|xs| - 1];
      } else {
        assert last !in Elements(rest);
        if NoDuplicates(rest) {
          forall i, j | 0 <= i < j < |xs| ensures xs[i] != xs[j] {
            assert xs[i] == rest[i] && xs[i] in rest;
          }
        } else {
          var i, j :| 0 <= i < j < |rest| && rest[i] == rest[j];
          assert xs[i] == xs[j];
        }
      }
    }
  }

  lemma SubsetCount<T>(a: set<T>, b: set<T>)
    requires a <= b
    ensures |a| <= |b|
    ensures |a| == |b| <==> a == b
  {
    var rest := b - a;
    assert b == a + rest && |b| == |a| + |rest|;
  }

  /** Everything promised has arrived. */
  ghost predicate Complete(x: Session) {
    && x.receivedFiles == x.expectedFiles
    && Elements(x.receivedDeletes) == Elements(x.expectedDeletes)
  }

  ghost predicate ReceivedOk(x: Session) {
    && (forall p | p in x.receivedFiles :: p in x.expectedFiles && x.expectedFiles[p] == x.receivedFiles[p])
    && NoDuplicates(x.receivedDeletes)
    && Elements(x.receivedDeletes) <= Elements(x.expectedDeletes)
  }

  /** The counts agree exactly when everything promised has arrived and no delete was promised
      twice: a repeated explicit delete leaves the session receiving until it expires. */
  lemma ClosesExact(x: Session)
    requires ReceivedOk(x)
    ensures Closes(x) <==> Complete(x) && NoDuplicates(x.expectedDeletes)
  {
    SubsetCount(x.receivedFiles.Keys, x.expectedFiles.Keys);
    assert |x.receivedFiles| == |x.receivedFiles.Keys| && |x.expectedFiles| == |x.expectedFiles.Keys|;
    SubsetCount(Elements(x.receivedDeletes), Elements(x.expectedDeletes));
    ElementsCount(x.receivedDeletes);
    ElementsCount(x.expectedDeletes);
    assert x.receivedFiles.Keys == x.expectedFiles.Keys ==> x.receivedFiles == x.expectedFiles;
  }

  ghost predicate DiffOk(repo: Repo, x: Session) {
    && x.diffedAt < |repo.past|
    && x.expectedFiles == Need(repo.past[x.diffedAt], x.client)
    && (!x.incremental ==> Lists(x.expectedDeletes, Stale(repo.past[x.diffedAt], x.client)))
  }

  ghost predicate ManifestOk(repos: map<RepoId, Repo>, x: Session) {
    && x.repo == x.identity && DiffOk(RepoOf(repos, x.repo), x)
    && ReceivedOk(x)
    && (x.status.Processing? || x.status.Finalizing? || x.status.Done? ==>
         Complete(x) && NoDuplicates(x.expectedDeletes))
  }

  ghost predicate ManifestsOk(st: State) {
    forall s | s in st.sessions :: ManifestOk(st.repos, st.sessions[s])
  }

  lemma MergeReceived(x: Session, b: Batch, order: seq<Path>)
    requires ReceivedOk(x) && Valid(x, b) && Lists(order, b.deletes)
    ensures ReceivedOk(x.(receivedFiles := x.receivedFiles + b.files, receivedDeletes := x.receivedDeletes + order))
  {
    var all := x.receivedDeletes + order;
    forall i, j | 0 <= i < j < |all| ensures all[i] != all[j] {
      if i < |x.receivedDeletes| <= j {
        assert order[j - |x.receivedDeletes|] in order;
        assert all[j] in b.deletes && all[i] in x.receivedDeletes;
      }
    }
    forall p | p in all ensures p in x.expectedDeletes {
      if p in order { assert p in b.deletes; } else { assert p in Elements(x.receivedDeletes); }
    }
  }

  lemma MergeOk(repos: map<RepoId, Repo>, x: Session, b: Batch, order: seq<Path>)
    requires ManifestOk(repos, x) && x.status.Receiving? && Valid(x, b) && Lists(order, b.deletes)
    ensures ManifestOk(repos, Merge(x, b, order))
  {
    var y := x.(receivedFiles := x.receivedFiles + b.files, receivedDeletes := x.receivedDeletes + order);
    MergeReceived(x, b, order);
    ClosesExact(y);
    assert ReceivedOk(y.(status := Processing));
  }

  lemma FreshOk(repos: map<RepoId, Repo>, x: Session)
    requires FreshSession(repos, x)
    ensures ManifestOk(repos, x)
  {
  }

  lemma ManifestExtends(a: map<RepoId, Repo>, b: map<RepoId, Repo>, x: Session)
    requires ManifestOk(a, x) && Extends(RepoOf(a, x.repo), RepoOf(b, x.repo))
    ensures ManifestOk(b, x)
  {
  }

  /** Every step extends every repository. */
  lemma ReposExtend(st: State, l: Label, r: RepoId)
    requires CasOk(st) && Enabled(st, l)
    ensures Extends(RepoOf(st.repos, r), RepoOf(NextRepos(st, l), r))
  {
    match l
    case Step(w, reply) => SaveExtends(st, w, reply, r);
    case Replace(repo, tree, token) => ReplaceExtends(st, repo, tree, token);
    case _ =>
  }

  lemma SaveExtends(st: State, w: WorkerId, reply: Reply, r: RepoId)
    requires CasOk(st) && CanStep(st, w, reply)
    ensures Extends(RepoOf(st.repos, r), RepoOf(NextRepos(st, Step(w, reply)), r))
  {
    if Saves(st, st.procs[w], reply) {
      SaveCommits(st, w, reply);
    }
  }

  /** The steps that write a session row change its status, or merge a batch into it. */
  lemma SessionStep(st: State, l: Label, s: SyncId)
    requires s in NextSessions(st, l)
    ensures
      || (l == CreateSession(s, NextSessions(st, l)[s]))
      || (s in st.sessions && NextSessions(st, l)[s] == st.sessions[s])
      || (s in st.sessions && l.Admit? && l.key.sync == s &&
           NextSessions(st, l)[s] == Merge(st.sessions[s], l.batch, l.order))
      || (s in st.sessions &&
           NextSessions(st, l)[s] ==
             st.sessions[s].(status := NextSessions(st, l)[s].status,
               failedReason := NextSessions(st, l)[s].failedReason)
          && StatusStep(st.sessions[s].status, NextSessions(st, l)[s].status))
  {
  }

  predicate StatusStep(a: Status, b: Status) {
    || (a.Processing? && b.Finalizing?)
    || (a.Finalizing? && b.Done?)
    || (IsActive(a) && (b.Failed? || b.Expired?))
  }

  lemma ManifestStep(st: State, l: Label, s: SyncId)
    requires ManifestsOk(st) && s in NextSessions(st, l)
    requires l.CreateSession? ==> FreshSession(st.repos, l.session)
    requires l.Admit? ==> CanAdmit(st, l.key, l.batch, l.order)
    ensures ManifestOk(st.repos, NextSessions(st, l)[s])
  {
    SessionStep(st, l, s);
    if l.CreateSession? && l.s == s {
      FreshOk(st.repos, l.session);
    } else {
      assert ManifestOk(st.repos, st.sessions[s]);
      if l.Admit? && l.key.sync == s {
        MergeOk(st.repos, st.sessions[s], l.batch, l.order);
      }
    }
  }

  lemma ManifestPreserved(st: State, l: Label, s: SyncId)
    requires CasOk(st) && ManifestsOk(st) && Enabled(st, l) && s in NextSessions(st, l)
    ensures ManifestOk(NextRepos(st, l), NextSessions(st, l)[s])
  {
    var y := NextSessions(st, l)[s];
    assert l.CreateSession? ==> CanCreate(st, l.s, l.session);
    ManifestStep(st, l, s);
    ReposExtend(st, l, y.repo);
    ManifestExtends(st.repos, NextRepos(st, l), y);
  }

  lemma ManifestsPreserved(st: State, l: Label)
    requires CasOk(st) && ManifestsOk(st) && Enabled(st, l)
    ensures ManifestsOk(Next(st, l))
  {
    forall s | s in NextSessions(st, l) ensures ManifestOk(NextRepos(st, l), NextSessions(st, l)[s]) {
      ManifestPreserved(st, l, s);
    }
  }

  // ---------------------------------------------------------------------------
  // Coverage
  // ---------------------------------------------------------------------------

  /** The session has received what the row accepted. */
  ghost predicate RowReceived(row: Row, x: Session) {
    && (forall p | p in row.files :: p in x.receivedFiles && x.receivedFiles[p] == row.files[p])
    && row.deletes <= Elements(x.receivedDeletes)
  }

  ghost predicate RowsReceived(rows: map<Key, Row>, sessions: map<SyncId, Session>) {
    forall k | k in rows && k.sync in sessions :: RowReceived(rows[k], sessions[k.sync])
  }

  ghost predicate FileAdmitted(rows: map<Key, Row>, s: SyncId, p: Path) {
    exists k | k in rows :: k.sync == s && p in rows[k].files
  }

  ghost predicate DeleteAdmitted(rows: map<Key, Row>, s: SyncId, p: Path) {
    exists k | k in rows :: k.sync == s && p in rows[k].deletes
  }

  ghost predicate Covered(rows: map<Key, Row>, s: SyncId, x: Session) {
    && (forall p | p in x.receivedFiles :: FileAdmitted(rows, s, p))
    && (forall p | p in x.receivedDeletes :: DeleteAdmitted(rows, s, p))
  }

  ghost predicate CoverOk(st: State) {
    && RowsReceived(st.rows, st.sessions)
    && (forall s | s in st.sessions :: Covered(st.rows, s, st.sessions[s]))
  }

  /** Rows stay, and keep what they accepted, while their session does; only an admission adds one. */
  lemma RowKeys(st: State, l: Label, k: Key)
    ensures k in st.rows && k.sync in NextSessions(st, l) ==> k in NextRows(st, l)
    ensures k in NextRows(st, l) ==> k in st.rows || (l.Admit? && l.key == k && NextRows(st, l)[k] == NewRow(l.batch))
    ensures k in NextRows(st, l) && l.Collect? ==> k.sync != l.s
  {
  }

  lemma RowAccepted(st: State, l: Label, k: Key)
    requires k in st.rows && k in NextRows(st, l) && (l.Admit? ==> l.key !in st.rows)
    ensures NextRows(st, l)[k].files == st.rows[k].files && NextRows(st, l)[k].deletes == st.rows[k].deletes
  {
  }

  /** A session row that was there before keeps what it had received. */
  ghost predicate KeepsReceived(x: Session, y: Session) {
    && (forall p | p in x.receivedFiles :: p in y.receivedFiles && y.receivedFiles[p] == x.receivedFiles[p])
    && Elements(x.receivedDeletes) <= Elements(y.receivedDeletes)
  }

  lemma MergeKeeps(x: Session, b: Batch, order: seq<Path>)
    requires ReceivedOk(x) && Valid(x, b) && Lists(order, b.deletes)
    ensures KeepsReceived(x, Merge(x, b, order))
    ensures forall p | p in b.files ::
      p in Merge(x, b, order).receivedFiles && Merge(x, b, order).receivedFiles[p] == b.files[p]
    ensures b.deletes <= Elements(Merge(x, b, order).receivedDeletes)
  {
    forall p | p in b.deletes ensures p in x.receivedDeletes + order { assert p in Elements(order); }
  }

  lemma ReceivedGrows(st: State, l: Label, s: SyncId)
    requires s in st.sessions && ReceivedOk(st.sessions[s]) && s in NextSessions(st, l)
    requires l.CreateSession? ==> l.s != s
    requires l.Admit? ==> CanAdmit(st, l.key, l.batch, l.order)
    ensures KeepsReceived(st.sessions[s], NextSessions(st, l)[s])
  {
    SessionStep(st, l, s);
    if l.Admit? && l.key.sync == s {
      MergeKeeps(st.sessions[s], l.batch, l.order);
    }
  }

  lemma RowReceivedPreserved(st: State, l: Label, k: Key)
    requires ManifestsOk(st) && RowsReceived(st.rows, st.sessions)
    requires k in NextRows(st, l) && k.sync in NextSessions(st, l)
    requires k in st.rows ==> k.sync in st.sessions && (l.CreateSession? ==> l.s != k.sync)
    requires l.Admit? ==> CanAdmit(st, l.key, l.batch, l.order)
    ensures RowReceived(NextRows(st, l)[k], NextSessions(st, l)[k.sync])
  {
    RowKeys(st, l, k);
    assert k.sync in st.sessions ==> ManifestOk(st.repos, st.sessions[k.sync]);
    if k in st.rows {
      RowAccepted(st, l, k);
      assert RowReceived(st.rows[k], st.sessions[k.sync]);
      ReceivedGrows(st, l, k.sync);
    } else {
      MergeKeeps(st.sessions[k.sync], l.batch, l.order);
    }
  }

  lemma CoveredPreserved(st: State, l: Label, s: SyncId)
    requires s in NextSessions(st, l)
    requires s in st.sessions ==> Covered(st.rows, s, st.sessions[s])
    requires l.CreateSession? ==> l.session.receivedFiles == map[] && l.session.receivedDeletes == []
    requires l.Admit? ==> Lists(l.order, l.batch.deletes) && l.key !in st.rows
    ensures Covered(NextRows(st, l), s, NextSessions(st, l)[s])
  {
    var y, rows := NextSessions(st, l)[s], NextRows(st, l);
    SessionStep(st, l, s);
    forall p | p in y.receivedFiles ensures FileAdmitted(rows, s, p) {
      if s in st.sessions && p in st.sessions[s].receivedFiles {
        var k :| k in st.rows && k.sync == s && p in st.rows[k].files;
        RowKeys(st, l, k);
        RowAccepted(st, l, k);
      } else {
        assert l.key in rows;
      }
    }
    forall p | p in y.receivedDeletes ensures DeleteAdmitted(rows, s, p) {
      if s in st.sessions && p in st.sessions[s].receivedDeletes {
        var k :| k in st.rows && k.sync == s && p in st.rows[k].deletes;
        RowKeys(st, l, k);
        RowAccepted(st, l, k);
      } else {
        assert l.key in rows && p in Elements(l.order);
      }
    }
  }

  lemma CoverPreserved(st: State, l: Label)
    requires ManifestsOk(st) && CoverOk(st) && KeysOk(st) && Enabled(st, l)
    ensures CoverOk(Next(st, l))
  {
    assert l.CreateSession? ==> CanCreate(st, l.s, l.session);
    assert l.Admit? ==> CanAdmit(st, l.key, l.batch, l.order);
    forall k | k in NextRows(st, l) && k.sync in NextSessions(st, l)
      ensures RowReceived(NextRows(st, l)[k], NextSessions(st, l)[k.sync])
    {
      RowReceivedPreserved(st, l, k);
    }
    CoveringPreserved(st, l);
  }

  lemma CoveringPreserved(st: State, l: Label)
    requires CoverOk(st) && KeysOk(st)
    requires l.CreateSession? ==> l.session.receivedFiles == map[] && l.session.receivedDeletes == []
    requires l.Admit? ==> Lists(l.order, l.batch.deletes) && l.key !in st.rows
    ensures forall s | s in NextSessions(st, l) :: Covered(NextRows(st, l), s, NextSessions(st, l)[s])
  {
    forall s | s in NextSessions(st, l) ensures Covered(NextRows(st, l), s, NextSessions(st, l)[s]) {
      CoveredPreserved(st, l, s);
    }
  }
}
