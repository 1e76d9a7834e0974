/** The two requests of the API, /diff and /stream: whatever happens in between, each performs only
    steps the transition system allows. */
module Requests {
  import opened Wrappers

  import opened Utf8
  import opened Lexicographic
  import opened MerkleTree
  import opened SyncState
  import opened SyncMachine
  import opened MerkleCommits
  import opened Manifests
  import opened SyncTheorems
  import opened SyncRuns
  import opened Backend
  import opened BatchText
  import opened BatchIds
  import opened Entries
  import Ingest

  datatype DiffResult = Created(s: SyncId, need: seq<Path>, delete: seq<Path>) | ConcurrentSync | DiffFailed

  datatype CreateResult = Inserted(s: SyncId) | OtherActive | InsertFailed

  datatype IngestResult = Queued | Duplicate | Rejected(reason: string) | NotFound | NotReceiving | Unavailable

  // ---------------------------------------------------------------------------
  // What stays true between two operations of a request
  // ---------------------------------------------------------------------------

  lemma {:induction false} PastKept(run: seq<Label>, n: nat, r: RepoId)
    requires Legal(run) && n <= |run|
    ensures RepoOf(After(run[..n]).repos, r).past <= RepoOf(After(run).repos, r).past
  {
    if n == |run| {
      assert run[..n] == run;
    } else {
      var front := run[..|run| - 1];
      assert front[..n] == run[..n];
      LastStep(run);
      PastKept(front, n, r);
      InvHolds(front);
      ReposExtend(After(front), run[|run| - 1], r);
    }
  }

  /** The steps that a request takes on its own. */
  lemma AdmitTables(st: State, k: Key, b: Batch, order: seq<Path>)
    requires k.sync in st.sessions
    ensures Next(st, Admit(k, b, order)) ==
      st.(sessions := st.sessions[k.sync := Merge(st.sessions[k.sync], b, order)],
          rows := st.rows[k := NewRow(b)],
          outbox := st.outbox[StreamTask(k) := OutboxRow(OutboxPending, false)])
  {
  }

  lemma ContentTables(st: State, k: Key, b: Batch)
    ensures Next(st, SetContent(k, b)) == st.(redis := st.redis[k := Intact(b.files, b.deletes)])
  {
  }

  lemma CreateTables(st: State, s: SyncId, x: Session)
    ensures Next(st, CreateSession(s, x)) ==
      st.(sessions := st.sessions[s := x], hist := st.hist.(seen := st.hist.seen + {s}))
  {
  }

  // ---------------------------------------------------------------------------
  // Sorting the deletes
  // ---------------------------------------------------------------------------

  lemma {:induction false} NoDuplicatesCounts(xs: seq<Path>)
    ensures NoDuplicates(xs) <==> forall x :: multiset(xs)[x] <= 1
  {
    if xs != [] {
      var front, last := xs[..|xs| - 1], xs[|xs| - 1];
      assert xs == front + [last];
      NoDuplicatesCounts(front);
      if !NoDuplicates(front) {
        var i, j :| 0 <= i < j < |front| && front[i] == front[j];
        assert xs[i] == xs[j];
        var x :| multiset(front)[x] > 1;
        assert multiset(xs)[x] > 1;
      } else if last in front {
        var i :| 0 <= i < |front| && front[i] == last;
        assert xs[i] == xs[|front|];
        assert multiset(xs)[last] == multiset(front)[last] + 1;
      } else {
        assert multiset(front)[last] == 0;
        assert forall x :: multiset(xs)[x] == if x == last then 1 else multiset(front)[x];
        forall i, j | 0 <= i < j < |xs| ensures xs[i] != xs[j] {
          assert xs[i] == front[i] && front[i] in front;
        }
      }
    }
  }

  lemma AddListed(xs: seq<Path>, s: set<Path>, p: Path)
    requires Lists(xs, s) && p !in s
    ensures Lists(xs + [p], s + {p})
  {
    assert p !in xs;
  }

  lemma SortedLists(xs: seq<Path>, s: set<Path>)
    requires Lists(xs, s)
    ensures Lists(Sort(xs), s)
  {
    SortSorts(xs);
    NoDuplicatesCounts(xs);
    NoDuplicatesCounts(Sort(xs));
    assert forall p :: p in Sort(xs) <==> p in multiset(Sort(xs));
    assert forall p :: p in xs <==> p in multiset(xs);
  }

  // ---------------------------------------------------------------------------
  // The service
  // ---------------------------------------------------------------------------

  class SyncSessionService {
    const store: Store

    /** How often a storage operation has failed under a request. */
    ghost var faults: nat

    constructor (store: Store)
      ensures this.store == store
    {
      this.store := store;
      faults := 0;
    }

    /** The client's paths the tree lacks or holds with another hash. */
    method ComputeNeed(tree: Leaves, client: Leaves) returns (need: Leaves)
      ensures need == Need(tree, client)
    {
      need := map[];
      var todo := client.Keys;
      while todo != {}
        invariant todo <= client.Keys
        invariant need == map p | p in client && p !in todo && (p !in tree || tree[p] != client[p]) :: client[p]
      {
        var p :| p in todo;
        todo := todo - {p};
        if p !in tree || tree[p] != client[p] {
          need := need[p := client[p]];
        }
      }
    }

    /** The tree's paths the client lacks, sorted. */
    method ComputeDeletes(tree: Leaves, client: Leaves) returns (deletes: seq<Path>)
      ensures Lists(deletes, Stale(tree, client))
    {
      deletes := [];
      var todo := tree.Keys;
      while todo != {}
        invariant todo <= tree.Keys && Lists(deletes, tree.Keys - client.Keys - todo)
      {
        var p :| p in todo;
        if p !in client {
          AddListed(deletes, tree.Keys - client.Keys - todo, p);
          deletes := deletes + [p];
          assert tree.Keys - client.Keys - (todo - {p}) == tree.Keys - client.Keys - todo + {p};
        } else {
          assert tree.Keys - client.Keys - (todo - {p}) == tree.Keys - client.Keys - todo;
        }
        todo := todo - {p};
      }
      assert tree.Keys - client.Keys - {} == Stale(tree, client);
      SortedLists(deletes, Stale(tree, client));
      deletes := Sort(deletes);
    }

    method NewSyncId() returns (s: SyncId)
      requires store.Valid()
      ensures s !in store.db.hist.seen
    {
      var first: SyncId := *;
      s := FirstFree(store.db.hist.seen, first);
    }

    /** /diff. The session repeats what the client sent, and an incremental one also its deletes,
        repeats included; the client is told the paths the tree lacked or held otherwise, and the
        deletes. */
    method Diff(identity: Identity, client: Leaves, incremental: bool, explicitDeletes: seq<Path>)
      returns (result: DiffResult)
      requires store.Valid()
      modifies store, this`faults
      ensures store.Valid() && old(store.trace) <= store.trace
      ensures result.Created? ==> result.s in store.db.sessions && result.s !in old(store.db.hist.seen)
      ensures result.Created? ==> FreshSession(store.db.repos, store.db.sessions[result.s])
      ensures result.Created? ==> (var x := store.db.sessions[result.s];
        && x.identity == identity && x.client == client && x.incremental == incremental
        && x.diffedAt == |RepoOf(old(store.db.repos), identity).log|
        && (incremental ==> multiset(x.expectedDeletes) == multiset(explicitDeletes))
        && x.status == (if x.expectedFiles == map[] && x.expectedDeletes == [] then Done else Receiving)
        && Lists(result.need, Need(RepoOf(old(store.db.repos), identity).tree, client).Keys)
        && result.delete == x.expectedDeletes)
      ensures result.ConcurrentSync? ==> !NoActive(store.db.sessions, identity)
      ensures result.DiffFailed? ==> faults > old(faults)
    {
      var prepared: bool := *;
      if !prepared {
        faults := faults + 1;
        return DiffFailed;
      }
      var x, need := NewSession(identity, client, incremental, explicitDeletes);
      WhileFresh(x);
      var created := CreateExclusive(x);
      match created
      case OtherActive => result := ConcurrentSync;
      case InsertFailed => result := DiffFailed;
      case Inserted(s) => result := Created(s, need, x.expectedDeletes);
    }

    /** Nothing that happens meanwhile makes the session's diff untrue of the tree it read. */
    method WhileFresh(x: SyncState.Session)
      requires store.Valid() && FreshSession(store.db.repos, x)
      modifies store
      ensures store.Valid() && old(store.trace) <= store.trace && FreshSession(store.db.repos, x)
      ensures old(store.db.hist.seen) <= store.db.hist.seen
    {
      ghost var run := store.trace;
      store.ValidLegal();
      store.Meanwhile();
      store.ValidLegal();
      assert store.trace[..|run|] == run;
      StillFresh(store.trace, |run|, x);
    }

    /** The session a diff of the stored tree yields, and the paths to upload, sorted. */
    method NewSession(identity: Identity, client: Leaves, incremental: bool, explicitDeletes: seq<Path>)
      returns (x: SyncState.Session, paths: seq<Path>)
      requires store.Valid()
      ensures FreshSession(store.db.repos, x)
      ensures x.identity == identity && x.client == client && x.incremental == incremental
      ensures x.diffedAt == |RepoOf(store.db.repos, identity).log|
      ensures incremental ==> multiset(x.expectedDeletes) == multiset(explicitDeletes)
      ensures Lists(paths, Need(RepoOf(store.db.repos, identity).tree, client).Keys)
    {
      store.ValidLegal();
      var repo := RepoOf(store.db.repos, identity);
      DiffedTree(store.trace, identity);
      var need := ComputeNeed(repo.tree, client);
      var deletes;
      if incremental {
        SortSorts(explicitDeletes);
        deletes := Sort(explicitDeletes);
      } else {
        deletes := ComputeDeletes(repo.tree, client);
      }
      paths := SortedKeys(need.Keys);
      SortedKeysList(need.Keys);
      x := SyncState.Session(identity, identity, client, incremental, |repo.log|, need, deletes, map[], [],
        if need == map[] && deletes == [] then Done else Receiving, "");
    }

    /** One session at a time: under the identity's lock, insert unless another is active. The
        transaction may fail, before or after it took effect. */
    method CreateExclusive(x: SyncState.Session) returns (result: CreateResult)
      requires store.Valid() && FreshSession(store.db.repos, x)
      modifies store, this`faults
      ensures store.Valid() && old(store.trace) <= store.trace && store.db.repos == old(store.db.repos)
      ensures result.Inserted? ==> NoActive(old(store.db.sessions), x.identity)
      ensures result.OtherActive? ==> !NoActive(old(store.db.sessions), x.identity)
      ensures result.InsertFailed? ==> faults > old(faults)
      ensures result.Inserted? ==>
        result.s !in old(store.db.hist.seen) && store.db.sessions == old(store.db.sessions)[result.s := x]
      ensures result.OtherActive? ==> store.db == old(store.db) && store.trace == old(store.trace)
      ensures !NoActive(old(store.db.sessions), x.identity) ==> store.db == old(store.db)
    {
      var answered: bool := *;
      if exists s | s in store.db.sessions ::
        store.db.sessions[s].identity == x.identity && IsActive(store.db.sessions[s].status) {
        result := OtherActive;
      } else {
        var committed: bool := *;
        answered := answered && committed;
        result := InsertFailed;
        if committed {
          var s := InsertSession(x);
          result := Inserted(s);
        }
      }
      if !answered {
        faults := faults + 1;
        result := InsertFailed;
      }
    }

    method InsertSession(x: SyncState.Session) returns (s: SyncId)
      requires store.Valid() && FreshSession(store.db.repos, x) && NoActive(store.db.sessions, x.identity)
      modifies store
      ensures store.Valid() && old(store.trace) <= store.trace && store.db.repos == old(store.db.repos)
      ensures s !in old(store.db.hist.seen) && store.db.sessions == old(store.db.sessions)[s := x]
    {
      s := NewSyncId();
      ghost var before := store.db;
      CreateTables(before, s, x);
      store.db := store.db.(
        sessions := store.db.sessions[s := x], hist := store.db.hist.(seen := store.db.hist.seen + {s}));
      store.RecordRequest(before, CreateSession(s, x));
    }

    /** /stream: validate against the session as it was loaded, compare the identifiers, store the
        content, then admit. What was seen under the header's identifier is not looked at again. Only
        what checked entries state under the identifier computed of them is stored or admitted. */
    method IngestBatch(s: SyncId, header: BatchId, entries: seq<Entry>) returns (result: IngestResult)
      requires store.Valid()
      modifies store, this`faults
      ensures store.Valid() && old(store.trace) <= store.trace
      ensures var key, b := Key(s, header), Ingest.BatchOf(entries);
        match result
        case Queued =>
          store.trace != old(store.trace) && LastAdmits(store.trace, key, b) && Ingest.WellFormed(entries) &&
            Ingest.Named(header, entries)
        case Duplicate => key in store.db.rows
        case NotFound => s !in store.db.sessions
        case NotReceiving => s in store.db.sessions && !store.db.sessions[s].status.Receiving?
        case Unavailable => faults > old(faults)
        case Rejected(reason) =>
          if reason == "batch_id_mismatch" then header != IdText(ItemsOf(entries))
          else s in store.db.sessions && !(Ingest.WellFormed(entries) && SyncMachine.Valid(store.db.sessions[s], b))
      ensures faults >= old(faults)
      ensures faults == old(faults) ==> LookedUp(old(store.db), s, header, entries, result)
      ensures faults == old(faults) && GetsThrough(old(store.db), s, header, entries) ==>
        AdmissionAnswers(old(store.trace), store.trace, Key(s, header), Ingest.BatchOf(entries), result)
    {
      var available: bool := *;
      if !available {
        faults := faults + 1;
        return Unavailable;
      }
      if s !in store.db.sessions {
        return NotFound;
      }
      var x := store.db.sessions[s];
      if !x.status.Receiving? {
        return NotReceiving;
      }
      var key := Key(s, header);
      if key in store.db.rows {
        return Duplicate;
      }
      var reason := Ingest.ValidateBatchEntries(x.(receivedDeletes := []), entries);
      if reason != "" {
        assert !(Ingest.WellFormed(entries) && Fits(x, Ingest.BatchOf(entries)));
        return Rejected(reason);
      }
      var computed := Ingest.ComputedId(entries);
      if computed != header {
        return Rejected("batch_id_mismatch");
      }
      var files, deletes := Ingest.BuildManifests(entries);
      var b := SyncState.Batch(files, deletes);
      assert Ingest.States(header, b, entries);
      result := StoreAndAdmit(key, b);
    }

    /** What is written of a batch that got through the look-ups: the content, then the admission. */
    method StoreAndAdmit(key: Key, b: Batch) returns (result: IngestResult)
      requires store.Valid() && key.sync in store.db.sessions && Fits(store.db.sessions[key.sync], b)
      requires Ingest.Stated(Ingest.Any, key.batch, b)
      modifies store, this`faults
      ensures store.Valid() && old(store.trace) <= store.trace
      ensures if result.Unavailable? then faults > old(faults) else faults == old(faults)
      ensures !result.Unavailable? ==> AdmissionAnswers(old(store.trace), store.trace, key, b, result)
      ensures match result
        case Queued => store.trace != old(store.trace) && LastAdmits(store.trace, key, b)
        case Duplicate => key in store.db.rows
        case NotFound => key.sync !in store.db.sessions
        case NotReceiving => key.sync in store.db.sessions && !store.db.sessions[key.sync].status.Receiving?
        case Rejected(reason) =>
          && reason != "batch_id_mismatch" && key.sync in store.db.sessions
          && !SyncMachine.Valid(store.db.sessions[key.sync], b)
        case Unavailable => true
    {
      var stored := StoreContent(key, b);
      if !stored {
        faults := faults + 1;
        return Unavailable;
      }
      ghost var run := store.trace;
      store.ValidLegal();
      assert After(run) == store.db;
      result := AdmitBatch(key, b);
      assert store.trace[..|run|] == run;
    }

    /** The content is in place before the batch can be. Whatever happens meanwhile, the session
        still expects the batch. */
    method StoreContent(key: Key, b: Batch) returns (stored: bool)
      requires store.Valid() && key.sync in store.db.sessions && Fits(store.db.sessions[key.sync], b)
      requires Ingest.Stated(Ingest.Any, key.batch, b)
      modifies store
      ensures store.Valid() && old(store.trace) <= store.trace
      ensures key.sync in store.db.sessions ==> Fits(store.db.sessions[key.sync], b)
    {
      stored := *;
      if stored {
        SetRedis(key, b);
      }
      WhileFits(key, b);
    }

    method SetRedis(key: Key, b: Batch)
      requires store.Valid() && key.sync in store.db.sessions && Ingest.Stated(Ingest.Any, key.batch, b)
      modifies store
      ensures store.Valid() && old(store.trace) <= store.trace && store.db.sessions == old(store.db.sessions)
    {
      ghost var before := store.db;
      store.ValidLegal();
      SessionsAreSeen(store.trace);
      ContentTables(before, key, b);
      store.db := store.db.(redis := store.db.redis[key := Intact(b.files, b.deletes)]);
      store.RecordRequest(before, SetContent(key, b));
    }

    method WhileFits(key: Key, b: Batch)
      requires store.Valid() && key.sync in store.db.sessions && Fits(store.db.sessions[key.sync], b)
      modifies store
      ensures store.Valid() && old(store.trace) <= store.trace
      ensures key.sync in store.db.sessions ==> Fits(store.db.sessions[key.sync], b)
    {
      ghost var run := store.trace;
      store.ValidLegal();
      store.Meanwhile();
      store.ValidLegal();
      assert store.trace[..|run|] == run;
      StillFits(store.trace, |run|, key.sync, b);
    }

    /** The transaction: under the session's lock, refuse deletes received before, insert the row
        unless it is there, merge the manifests, insert the outbox row, and close the session when
        the counts agree. It may fail, before or after it took effect. */
    method AdmitBatch(key: Key, b: Batch) returns (result: IngestResult)
      requires store.Valid()
      requires Ingest.Stated(Ingest.Any, key.batch, b)
      requires key.sync in store.db.sessions ==> Fits(store.db.sessions[key.sync], b)
      modifies store, this`faults
      ensures store.Valid() && old(store.trace) <= store.trace
      ensures result.Unavailable? || result == Verdict(old(store.db), key, b)
      ensures result.Queued? ==> LastAdmits(store.trace, key, b) && store.trace != old(store.trace)
      ensures result.Queued? ==>
        exists order :: Lists(order, b.deletes) && store.db == Next(old(store.db), Admit(key, b, order))
      ensures if result.Unavailable? then faults > old(faults) else faults == old(faults)
      ensures !Verdict(old(store.db), key, b).Queued? ==> store.db == old(store.db)
    {
      var available: bool := *;
      if !available {
        faults := faults + 1;
        return Unavailable;
      }
      var s := key.sync;
      if s !in store.db.sessions {
        return NotFound;
      }
      var locked := store.db.sessions[s];
      if !locked.status.Receiving? {
        return NotReceiving;
      }
      if exists p | p in b.deletes :: p in locked.receivedDeletes {
        return Rejected("delete_already_received");
      }
      if key in store.db.rows {
        return Duplicate;
      }
      var committed: bool := *;
      if !committed {
        faults := faults + 1;
        return Unavailable;
      }
      CommitBatch(key, b);
      var answered: bool := *;
      result := Queued;
      if !answered {
        faults := faults + 1;
        result := Unavailable;
      }
    }

    method CommitBatch(key: Key, b: Batch)
      requires store.Valid() && key.sync in store.db.sessions && key !in store.db.rows
      requires store.db.sessions[key.sync].status.Receiving? && SyncMachine.Valid(store.db.sessions[key.sync], b)
      requires Ingest.Stated(Ingest.Any, key.batch, b)
      modifies store
      ensures store.Valid() && old(store.trace) <= store.trace && store.trace != old(store.trace)
      ensures LastAdmits(store.trace, key, b)
      ensures exists order :: Lists(order, b.deletes) && store.db == Next(old(store.db), Admit(key, b, order))
    {
      store.ValidLegal();
      NotDispatched(store.trace, key);
      var order := SortedKeys(b.deletes);
      SortedKeysList(b.deletes);
      ghost var before := store.db;
      AdmitTables(before, key, b, order);
      MergeAndInsert(key, b, order);
      store.RecordRequest(before, Admit(key, b, order));
    }

    method MergeAndInsert(key: Key, b: Batch, order: seq<Path>)
      requires key.sync in store.db.sessions && store.db.sessions[key.sync].status.Receiving?
      modifies store`db
      ensures store.db == old(store.db).(
        sessions := old(store.db).sessions[key.sync := Merge(old(store.db).sessions[key.sync], b, order)],
        rows := old(store.db).rows[key := NewRow(b)],
        outbox := old(store.db).outbox[StreamTask(key) := OutboxRow(OutboxPending, false)])
    {
      var x := store.db.sessions[key.sync];
      store.db := store.db.(rows := store.db.rows[key := Row(b.files, b.deletes, Pending, map[], {})]);
      x := x.(receivedFiles := x.receivedFiles + b.files, receivedDeletes := x.receivedDeletes + order);
      store.db := store.db.(outbox := store.db.outbox[StreamTask(key) := OutboxRow(OutboxPending, false)]);
      if |x.receivedFiles| == |x.expectedFiles| && |x.receivedDeletes| == |x.expectedDeletes| {
        x := x.(status := Processing);
      }
      store.db := store.db.(sessions := store.db.sessions[key.sync := x]);
    }
  }

  /** The look-ups before anything is written settle these posts, in this order: no session, a session
      that does not receive any more, a batch that is there, entries that do not make a batch the
      session expects, and another identifier than theirs. */
  ghost predicate LookedUp(st: State, s: SyncId, header: BatchId, entries: seq<Entry>, result: IngestResult) {
    && (s !in st.sessions ==> result.NotFound?)
    && (s in st.sessions && !st.sessions[s].status.Receiving? ==> result.NotReceiving?)
    && (s in st.sessions && st.sessions[s].status.Receiving? ==>
         if Key(s, header) in st.rows then result.Duplicate?
         else if !(Ingest.WellFormed(entries) && Fits(st.sessions[s], Ingest.BatchOf(entries)))
           then result.Rejected? && result.reason != "batch_id_mismatch"
         else header != IdText(ItemsOf(entries)) ==> result == Rejected("batch_id_mismatch"))
  }

  /** It is the transaction's answer at some moment of the longer run. */
  ghost predicate AdmissionAnswers(run: seq<Label>, longer: seq<Label>, key: Key, b: Batch, result: IngestResult) {
    exists n | |run| <= n <= |longer| :: result == Verdict(After(longer[..n]), key, b)
  }

  /** None of these applies. */
  ghost predicate GetsThrough(st: State, s: SyncId, header: BatchId, entries: seq<Entry>) {
    && s in st.sessions && st.sessions[s].status.Receiving? && Key(s, header) !in st.rows
    && Ingest.WellFormed(entries) && Fits(st.sessions[s], Ingest.BatchOf(entries)) && header == IdText(ItemsOf(entries))
  }

  /** The transaction's answer: a batch that fits is refused only for a delete received before. */
  function Verdict(st: State, key: Key, b: Batch): (r: IngestResult)
    ensures key.sync in st.sessions && Fits(st.sessions[key.sync], b) && r.Rejected? ==>
      !SyncMachine.Valid(st.sessions[key.sync], b)
    ensures key.sync in st.sessions && Fits(st.sessions[key.sync], b) && r.Queued? ==>
      SyncMachine.Valid(st.sessions[key.sync], b)
  {
    if key.sync !in st.sessions then NotFound
    else if !st.sessions[key.sync].status.Receiving? then NotReceiving
    else if exists p | p in b.deletes ::
      p in st.sessions[key.sync].receivedDeletes then Rejected("delete_already_received")
    else if key in st.rows then Duplicate
    else Queued
  }

  /** What the transaction answers to another post of an admitted batch: that it is there, unless the
      session has stopped receiving, as the closing batch makes it, or the batch has deletes. */
  lemma RepeatedPost(run: seq<Label>, k: Key, b: Batch)
    requires Legal(run) && k in After(run).rows && After(run).rows[k].deletes == b.deletes
    ensures k.sync in After(run).sessions
    ensures var x := After(run).sessions[k.sync];
      Verdict(After(run), k, b) ==
        if !x.status.Receiving? then NotReceiving
        else if b.deletes != {} then Rejected("delete_already_received")
        else Duplicate
  {
    RowHeld(run, k);
    HeldVerdict(After(run), k, b);
  }

  lemma RowHeld(run: seq<Label>, k: Key)
    requires Legal(run) && k in After(run).rows
    ensures k.sync in After(run).sessions
    ensures After(run).rows[k].deletes <= Elements(After(run).sessions[k.sync].receivedDeletes)
  {
    InvHolds(run);
    assert RowReceived(After(run).rows[k], After(run).sessions[k.sync]);
  }

  lemma HeldVerdict(st: State, k: Key, b: Batch)
    requires k in st.rows && k.sync in st.sessions && b.deletes <= Elements(st.sessions[k.sync].receivedDeletes)
    ensures Verdict(st, k, b) ==
      if !st.sessions[k.sync].status.Receiving? then NotReceiving
      else if b.deletes != {} then Rejected("delete_already_received")
      else Duplicate
  {
    if p :| p in b.deletes {
      assert p in Elements(st.sessions[k.sync].receivedDeletes);
    }
  }

  predicate LastAdmits(run: seq<Label>, key: Key, b: Batch) {
    run != [] && run[|run| - 1].Admit? && run[|run| - 1].key == key && run[|run| - 1].batch == b
  }

  lemma SessionsAreSeen(run: seq<Label>)
    requires Legal(run)
    ensures forall s | s in After(run).sessions :: s in After(run).hist.seen
  {
    InvHolds(run);
  }

  /** The batch is valid for the session but for deletes it has received before. */
  predicate Fits(x: SyncState.Session, b: Batch) {
    SyncMachine.Valid(x.(receivedDeletes := []), b)
  }

  lemma StillFits(run: seq<Label>, n: nat, s: SyncId, b: Batch)
    requires Legal(run) && n <= |run| && s in After(run[..n]).sessions && Fits(After(run[..n]).sessions[s], b)
    ensures s in After(run).sessions ==> Fits(After(run).sessions[s], b)
  {
    if s in After(run).sessions {
      StatusForward(run, n, s);
    }
  }

  /** A batch without a row has no outbox row either. */
  lemma NotDispatched(run: seq<Label>, k: Key)
    requires Legal(run) && k !in After(run).rows
    ensures StreamTask(k) !in After(run).outbox
  {
    InvHolds(run);
  }

  lemma {:induction false} SortedKeysList(s: set<Path>)
    ensures Lists(SortedKeys(s), s)
  {
    if s != {} {
      var x := SortedKeys(s)[0];
      SortedKeysList(s - {x});
      assert x !in SortedKeys(s - {x});
    }
  }

  lemma DiffedTree(run: seq<Label>, r: RepoId)
    requires Legal(run)
    ensures var repo := RepoOf(After(run).repos, r); |repo.past| == |repo.log| + 1 && repo.past[|repo.log|] == repo.tree
  {
    InvHolds(run);
    assert RepoOk(NoRepo);
  }

  lemma StillFresh(run: seq<Label>, n: nat, x: SyncState.Session)
    requires Legal(run) && n <= |run| && FreshSession(After(run[..n]).repos, x)
    ensures FreshSession(After(run).repos, x)
    ensures After(run[..n]).hist.seen <= After(run).hist.seen
  {
    PastKept(run, n, x.repo);
    HistoryKept(run, n);
  }
}
