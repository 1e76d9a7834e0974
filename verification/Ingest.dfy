/** The admission test of /stream: an entry list passes exactly when it spells out, once each, the
    files and deletes of a batch the session can take. */
module Ingest {
  import opened Utf8
  import opened Digests
  import opened MerkleTree
  import opened BatchText
  import opened Entries
  import opened SyncState
  import opened SyncMachine
  import opened BatchIds
  import opened SyncTheorems
  import Wire

  /** accepted_files. The digest that a checked entry claims is that of its content. */
  function AcceptedFiles(entries: seq<Entry>): Leaves {
    if entries == [] then map[]
    else
      var front, e := AcceptedFiles(entries[..|entries| - 1]), entries[|entries| - 1];
      if e.op == "file" then front[e.path := DigestOf(e.content)] else front
  }

  /** accepted_deletes */
  function AcceptedDeletes(entries: seq<Entry>): set<Path> {
    if entries == [] then {}
    else
      var front, e := AcceptedDeletes(entries[..|entries| - 1]), entries[|entries| - 1];
      if e.op == "delete" then front + {e.path} else front
  }

  /** The accepted manifests built from the entries. */
  function BatchOf(entries: seq<Entry>): SyncState.Batch {
    SyncState.Batch(AcceptedFiles(entries), AcceptedDeletes(entries))
  }

  /** Known ops, one entry a path, and every file's content has its hash. */
  ghost predicate WellFormed(entries: seq<Entry>) {
    && (forall i | 0 <= i < |entries| :: entries[i].op == "file" || entries[i].op == "delete")
    && (forall i | 0 <= i < |entries| :: entries[i].op == "file" ==>
         entries[i].hash == Hex(DigestOf(entries[i].content)))
    && (forall i, j | 0 <= i < j < |entries| :: entries[i].path != entries[j].path)
  }

  predicate Expected(x: Session, e: Entry) {
    if e.op == "file" then e.path in x.expectedFiles && Hex(x.expectedFiles[e.path]) == e.hash
    else e.path in x.expectedDeletes && e.path !in x.receivedDeletes
  }

  /** The entries' paths are those of the batch, each with its entry's content. */
  lemma {:induction false} BatchOfEntries(entries: seq<Entry>, p: Path)
    requires forall i, j | 0 <= i < j < |entries| :: entries[i].path != entries[j].path
    ensures p in AcceptedFiles(entries) <==>
      exists i | 0 <= i < |entries| :: entries[i].op == "file" && entries[i].path == p
    ensures p in AcceptedDeletes(entries) <==>
      exists i | 0 <= i < |entries| :: entries[i].op == "delete" && entries[i].path == p
    ensures forall i | 0 <= i < |entries| && entries[i].op == "file" && entries[i].path == p ::
      p in AcceptedFiles(entries) && AcceptedFiles(entries)[p] == DigestOf(entries[i].content)
  {
    if entries != [] {
      var n := |entries| - 1;
      BatchOfEntries(entries[..n], p);
      assert forall i | 0 <= i < n :: entries[..n][i] == entries[i];
      if exists i | 0 <= i < n :: entries[..n][i].op == "file" && entries[..n][i].path == p {
        assert p in AcceptedFiles(entries[..n]);
      }
    }
  }

  /** A checked entry has the hash the session expects exactly when its content has. */
  lemma ExpectedFile(x: Session, e: Entry)
    requires e.op == "file" && e.hash == Hex(DigestOf(e.content))
    ensures Expected(x, e) <==> e.path in x.expectedFiles && x.expectedFiles[e.path] == DigestOf(e.content)
  {
    if Expected(x, e) {
      HexInjective(x.expectedFiles[e.path], DigestOf(e.content));
    }
  }

  /** For well-formed entries, being expected one by one is the batch being valid for the session. */
  lemma ExpectedExact(x: Session, entries: seq<Entry>)
    requires WellFormed(entries)
    ensures (entries != [] && forall i | 0 <= i < |entries| :: Expected(x, entries[i])) <==>
      SyncMachine.Valid(x, BatchOf(entries))
  {
    var b := BatchOf(entries);
    if entries != [] && forall i | 0 <= i < |entries| :: Expected(x, entries[i]) {
      BatchOfEntries(entries, entries[0].path);
      assert entries[0].path in b.files || entries[0].path in b.deletes;
      forall p | p in b.files ensures p in x.expectedFiles && x.expectedFiles[p] == b.files[p] {
        BatchOfEntries(entries, p);
        var i :| 0 <= i < |entries| && entries[i].op == "file" && entries[i].path == p;
        ExpectedFile(x, entries[i]);
      }
      forall p | p in b.deletes
        ensures p in x.expectedDeletes && p !in x.receivedDeletes { BatchOfEntries(entries, p); }
      forall p | p in b.files ensures p !in b.deletes { BatchOfEntries(entries, p); }
    }
    if SyncMachine.Valid(x, b) {
      assert entries != [];
      forall i | 0 <= i < |entries| ensures Expected(x, entries[i]) {
        BatchOfEntries(entries, entries[i].path);
        if entries[i].op == "file" {
          ExpectedFile(x, entries[i]);
        }
      }
    }
  }

  // ---------------------------------------------------------------------------
  // The identifier
  // ---------------------------------------------------------------------------

  /** Deletes claim no hash, as the client's do. */
  predicate BareDeletes(entries: seq<Entry>) {
    forall i | 0 <= i < |entries| && entries[i].op == "delete" :: entries[i].hash == ""
  }

  lemma LineOfEntry(entries: seq<Entry>, i: nat)
    requires WellFormed(entries) && BareDeletes(entries) && i < |entries|
    ensures var b, e := BatchOf(entries), entries[i];
      if e.op == "file" then e.path in b.files && ItemsOf(entries)[i] == FileItem(e.path, b.files[e.path])
      else e.path in b.deletes && ItemsOf(entries)[i] == DeleteItem(e.path)
  {
    BatchOfEntries(entries, entries[i].path);
  }

  lemma LinesOfEntries(entries: seq<Entry>, line: string)
    requires WellFormed(entries) && BareDeletes(entries)
    ensures line in LinesOf(ItemsOf(entries)) <==> line in BatchLines(BatchOf(entries))
  {
    var b, items := BatchOf(entries), ItemsOf(entries);
    LinesOfEach(items);
    if line in LinesOf(items) {
      var i :| 0 <= i < |items| && LinesOf(items)[i] == line;
      LineOfEntry(entries, i);
    }
    if p :| p in b.files && line == Line(FileItem(p, b.files[p])) {
      BatchOfEntries(entries, p);
      var i :| 0 <= i < |entries| && entries[i].op == "file" && entries[i].path == p;
      LineOfEntry(entries, i);
      assert LinesOf(items)[i] == line;
    }
    if p :| p in b.deletes && line == Line(DeleteItem(p)) {
      BatchOfEntries(entries, p);
      var i :| 0 <= i < |entries| && entries[i].op == "delete" && entries[i].path == p;
      LineOfEntry(entries, i);
      assert LinesOf(items)[i] == line;
    }
  }

  /** The text the server computes of checked entries is the identifier of what it accepts. */
  lemma EntriesId(entries: seq<Entry>)
    requires WellFormed(entries) && BareDeletes(entries)
    ensures IdText(ItemsOf(entries)) == IdOf(BatchOf(entries))
  {
    var items := ItemsOf(entries);
    LinesOfEach(items);
    forall line ensures line in LinesOf(items) <==> line in BatchLines(BatchOf(entries)) {
      LinesOfEntries(entries, line);
    }
    forall i, j | 0 <= i < j < |items| ensures LinesOf(items)[i] != LinesOf(items)[j] {
      PlainHash(entries, i);
      PlainHash(entries, j);
      if LinesOf(items)[i] == LinesOf(items)[j] {
        LineInjective(items[i], items[j]);
      }
    }
    ListedId(items, BatchOf(entries));
  }

  lemma PlainHash(entries: seq<Entry>, i: nat)
    requires WellFormed(entries) && BareDeletes(entries) && i < |entries|
    ensures Legible(ItemsOf(entries)[i])
  {
    CodedPlain(DigestOf(entries[i].content).preimage);
  }

  /** The header carries the text computed of the entries; bare deletes make it the identifier of
      what is accepted. */
  ghost predicate Named(header: BatchId, entries: seq<Entry>) {
    header == IdText(ItemsOf(entries)) && (BareDeletes(entries) ==> header == IdOf(BatchOf(entries)))
  }

  /** The entries pass for the batch under the identifier. */
  ghost predicate States(id: BatchId, b: SyncState.Batch, entries: seq<Entry>) {
    WellFormed(entries) && id == IdText(ItemsOf(entries)) && BatchOf(entries) == b
  }

  /** Some entries that are all `ok` pass for it. */
  ghost predicate Stated(ok: Item -> bool, id: BatchId, b: SyncState.Batch) {
    exists entries :: States(id, b, entries) && forall e | e in ItemsOf(entries) :: ok(e)
  }

  predicate Any(e: Item) {
    true
  }

  /** All that is stored and admitted was posted by such entries, `Any` or others. */
  ghost predicate Posted(ok: Item -> bool, run: seq<Label>) {
    forall i | 0 <= i < |run| && Names(run[i]) :: Stated(ok, run[i].key.batch, run[i].batch)
  }

  lemma EntryOfItem(entries: seq<Entry>, i: nat)
    requires i < |entries|
    ensures ItemsOf(entries)[i] in ItemsOf(entries)
  {
  }

  /** Entries that other ones repeat. */
  lemma SameEntries(a: seq<Entry>, b: seq<Entry>, p: Path)
    requires WellFormed(a) && WellFormed(b) && multiset(ItemsOf(a)) == multiset(ItemsOf(b))
    ensures p in AcceptedFiles(a) ==> p in AcceptedFiles(b) && AcceptedFiles(b)[p] == AcceptedFiles(a)[p]
    ensures p in AcceptedDeletes(a) ==> p in AcceptedDeletes(b)
  {
    BatchOfEntries(a, p);
    BatchOfEntries(b, p);
    forall i | 0 <= i < |a| && a[i].path == p
      ensures exists j | 0 <= j < |b| ::
        b[j].op == a[i].op && b[j].path == p && (a[i].op == "file" ==> DigestOf(b[j].content) == DigestOf(a[i].content))
    {
      EntryOfItem(a, i);
      assert ItemsOf(a)[i] in multiset(ItemsOf(b));
      var j :| 0 <= j < |b| && ItemsOf(b)[j] == ItemsOf(a)[i];
      if a[i].op == "file" {
        HexInjective(DigestOf(b[j].content), DigestOf(a[i].content));
      }
    }
  }

  /** Clean entries have one identifier exactly when they are the same up to order, and then
      they state one batch. */
  lemma StatedExact(a: seq<Entry>, b: seq<Entry>)
    requires WellFormed(a) && WellFormed(b) && AllClean(ItemsOf(a)) && AllClean(ItemsOf(b))
    ensures IdText(ItemsOf(a)) == IdText(ItemsOf(b)) <==> multiset(ItemsOf(a)) == multiset(ItemsOf(b))
    ensures IdText(ItemsOf(a)) == IdText(ItemsOf(b)) ==> BatchOf(a) == BatchOf(b)
  {
    IdTextExact(ItemsOf(a), ItemsOf(b));
    if multiset(ItemsOf(a)) == multiset(ItemsOf(b)) {
      forall p
        ensures p in AcceptedFiles(a) <==> p in AcceptedFiles(b)
        ensures p in AcceptedFiles(a) ==> AcceptedFiles(b)[p] == AcceptedFiles(a)[p]
        ensures p in AcceptedDeletes(a) <==> p in AcceptedDeletes(b)
      {
        SameEntries(a, b, p);
        SameEntries(b, a, p);
      }
      assert AcceptedFiles(a) == AcceptedFiles(b);
    }
  }

  /** In every run in which the posted entries hold no line break in a path or a claimed hash, and no bar
      in a claimed hash, whatever fails or is redelivered, nothing enters a tree unless the indexer
      processed it, with the committed content, in a batch marked succeeded. */
  lemma CleanCommitSafety(run: seq<Label>, r: RepoId, i: nat)
    requires Legal(run) && Posted(Clean, run)
    requires r in After(run).repos && i < |After(run).repos[r].log| && After(run).repos[r].log[i].Commit?
    ensures var c := After(run).repos[r].log[i];
      && (forall p | p in c.delta.files :: FileIndexed(After(run).hist, c.sync, p, c.delta.files[p]))
      && (forall p | p in c.delta.deletes :: DeleteIndexed(After(run).hist, c.sync, p))
  {
    CleanlyUnshared(run);
    UnsharedCommitSafety(run, r, i);
  }

  lemma CleanlyUnshared(run: seq<Label>)
    requires Posted(Clean, run)
    ensures Unshared(run)
  {
    forall i, j | 0 <= i < |run| && 0 <= j < |run| && Names(run[i]) && Names(run[j]) && run[i].key == run[j].key
      ensures run[i].batch == run[j].batch
    {
      var id := run[i].key.batch;
      var a :| States(id, run[i].batch, a) && forall e | e in ItemsOf(a) :: Clean(e);
      var b :| States(id, run[j].batch, b) && forall e | e in ItemsOf(b) :: Clean(e);
      StatedExact(a, b);
    }
  }

  method ComputedId(entries: seq<Entry>) returns (text: string)
    requires WellFormed(entries)
    ensures text == IdText(ItemsOf(entries)) && Named(text, entries)
  {
    text := Wire.ComputeBatchId(entries);
    if BareDeletes(entries) {
      EntriesId(entries);
    }
  }

  // ---------------------------------------------------------------------------
  // The tests
  // ---------------------------------------------------------------------------

  /** The reason is true of entry i. */
  ghost predicate Explains(reason: string, x: Session, entries: seq<Entry>, i: nat)
    requires i < |entries|
  {
    var e := entries[i];
    match reason
    case "unknown_op" => e.op != "file" && e.op != "delete"
    case "sha256_mismatch" => e.op == "file" && e.hash != Hex(DigestOf(e.content))
    case "not_in_expected_set" => if e.op == "file" then e.path !in x.expectedFiles else e.path !in x.expectedDeletes
    case "hash_mismatch" => e.op == "file" && e.path in x.expectedFiles && Hex(x.expectedFiles[e.path]) != e.hash
    case "file_duplicate_in_batch" => e.op == "file" && exists j | 0 <= j < i :: entries[j].path == e.path
    case "delete_already_received" =>
      e.op == "delete" && (e.path in x.receivedDeletes || exists j | 0 <= j < i :: entries[j].path == e.path)
    case _ => false
  }

  method BuildManifests(entries: seq<Entry>) returns (acceptedFiles: Leaves, acceptedDeletes: set<Path>)
    ensures SyncState.Batch(acceptedFiles, acceptedDeletes) == BatchOf(entries)
  {
    acceptedFiles, acceptedDeletes := map[], {};
    for i := 0 to |entries|
      invariant acceptedFiles == AcceptedFiles(entries[..i]) && acceptedDeletes == AcceptedDeletes(entries[..i])
    {
      var e := entries[i];
      assert entries[..i + 1][..i] == entries[..i] && entries[..i + 1][i] == e;
      match e.op
      case "file" => acceptedFiles := acceptedFiles[e.path := DigestOf(e.content)];
      case "delete" => acceptedDeletes := acceptedDeletes + {e.path};
      case _ =>
    }
    assert entries[..|entries|] == entries;
  }

  method ValidateBatchEntries(x: Session, entries: seq<Entry>) returns (reason: string)
    ensures reason == "" <==> WellFormed(entries) && SyncMachine.Valid(x, BatchOf(entries))
    ensures reason != "" ==>
      (reason == "empty_batch" && entries == []) || exists i | 0 <= i < |entries| :: Explains(reason, x, entries, i)
  {
    if |entries| == 0 {
      return "empty_batch";
    }
    var seenInBatch: set<Path> := {};
    for i := 0 to |entries|
      invariant seenInBatch == set j | 0 <= j < i :: entries[j].path
      invariant WellFormed(entries[..i])
      invariant forall j | 0 <= j < i :: Expected(x, entries[j])
    {
      var e := entries[i];
      match e.op
      case "file" =>
        if e.hash != Hex(DigestOf(e.content)) {
          assert Explains("sha256_mismatch", x, entries, i);
          return "sha256_mismatch";
        }
        if e.path !in x.expectedFiles {
          Refused(x, entries, i);
          assert Explains("not_in_expected_set", x, entries, i);
          return "not_in_expected_set";
        }
        if Hex(x.expectedFiles[e.path]) != e.hash {
          Refused(x, entries, i);
          assert Explains("hash_mismatch", x, entries, i);
          return "hash_mismatch";
        }
        if e.path in seenInBatch {
          assert Explains("file_duplicate_in_batch", x, entries, i);
          return "file_duplicate_in_batch";
        }
        seenInBatch := seenInBatch + {e.path};
      case "delete" =>
        if e.path !in x.expectedDeletes {
          Refused(x, entries, i);
          assert Explains("not_in_expected_set", x, entries, i);
          return "not_in_expected_set";
        }
        if e.path in x.receivedDeletes {
          Refused(x, entries, i);
          assert Explains("delete_already_received", x, entries, i);
          return "delete_already_received";
        }
        if e.path in seenInBatch {
          assert Explains("delete_already_received", x, entries, i);
          return "delete_already_received";
        }
        seenInBatch := seenInBatch + {e.path};
      case _ =>
        assert Explains("unknown_op", x, entries, i);
        return "unknown_op";
    }
    assert entries[..|entries|] == entries;
    ExpectedExact(x, entries);
    reason := "";
  }

  lemma Refused(x: Session, entries: seq<Entry>, i: nat)
    requires i < |entries| && !Expected(x, entries[i])
    ensures !(WellFormed(entries) && SyncMachine.Valid(x, BatchOf(entries)))
  {
    if WellFormed(entries) {
      ExpectedExact(x, entries);
    }
  }
}
