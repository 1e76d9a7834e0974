/** The identifier of a batch: the canonical text of what it uploads and deletes. Batches whose paths
    hold no line break have the same identifier only when they are the same. */
module BatchIds {
  import opened Lexicographic
  import opened Digests
  import opened MerkleTree
  import opened BatchText
  import opened SyncState
  import opened SyncMachine
  import opened Meanings
  import opened SyncTheorems

  function FileItem(p: Path, h: Hash): Item {
    Item("file", p, Hex(h))
  }

  function DeleteItem(p: Path): Item {
    Item("delete", p, "")
  }

  function BatchLines(b: Batch): set<string> {
    (set p | p in b.files :: Line(FileItem(p, b.files[p]))) + (set p | p in b.deletes :: Line(DeleteItem(p)))
  }

  function IdOf(b: Batch): BatchId {
    Join(SortedKeys(BatchLines(b)))
  }

  predicate CleanBatch(b: Batch) {
    (forall p | p in b.files :: Free(p, '\n')) && (forall p | p in b.deletes :: Free(p, '\n'))
  }

  lemma ItemsClean(p: Path, h: Hash)
    requires Free(p, '\n')
    ensures Clean(FileItem(p, h)) && Clean(DeleteItem(p))
  {
    CodedPlain(h.preimage);
  }

  lemma LinesJoinable(b: Batch)
    requires CleanBatch(b)
    ensures Joinable(SortedKeys(BatchLines(b)))
  {
    var lines := SortedKeys(BatchLines(b));
    forall i | 0 <= i < |lines| ensures Free(lines[i], '\n') && lines[i] != "" {
      assert lines[i] in lines && lines[i] in BatchLines(b);
      if p :| p in b.files && lines[i] == Line(FileItem(p, b.files[p])) {
        ItemsClean(p, b.files[p]);
        LineClean(FileItem(p, b.files[p]));
      } else {
        var p :| p in b.deletes && lines[i] == Line(DeleteItem(p));
        ItemsClean(p, Sha(""));
        LineClean(DeleteItem(p));
      }
    }
  }

  /** A line of a clean batch belongs to one entry. */
  lemma FileOfLine(a: Batch, b: Batch, p: Path)
    requires CleanBatch(a) && CleanBatch(b) && BatchLines(a) == BatchLines(b) && p in a.files
    ensures p in b.files && b.files[p] == a.files[p]
  {
    var line := Line(FileItem(p, a.files[p]));
    ItemsClean(p, a.files[p]);
    assert line in BatchLines(a);
    if q :| q in b.files && line == Line(FileItem(q, b.files[q])) {
      ItemsClean(q, b.files[q]);
      LineInjective(FileItem(p, a.files[p]), FileItem(q, b.files[q]));
      HexInjective(a.files[p], b.files[q]);
    } else {
      var q :| q in b.deletes && line == Line(DeleteItem(q));
      ItemsClean(q, Sha(""));
      LineInjective(FileItem(p, a.files[p]), DeleteItem(q));
    }
  }

  lemma DeleteOfLine(a: Batch, b: Batch, p: Path)
    requires CleanBatch(a) && CleanBatch(b) && BatchLines(a) == BatchLines(b) && p in a.deletes
    ensures p in b.deletes
  {
    var line := Line(DeleteItem(p));
    ItemsClean(p, Sha(""));
    assert line in BatchLines(a);
    if q :| q in b.files && line == Line(FileItem(q, b.files[q])) {
      ItemsClean(q, b.files[q]);
      LineInjective(DeleteItem(p), FileItem(q, b.files[q]));
    } else {
      var q :| q in b.deletes && line == Line(DeleteItem(q));
      ItemsClean(q, Sha(""));
      LineInjective(DeleteItem(p), DeleteItem(q));
    }
  }

  /** Clean batches have one identifier exactly when they are equal. */
  lemma IdExact(a: Batch, b: Batch)
    requires CleanBatch(a) && CleanBatch(b)
    ensures IdOf(a) == IdOf(b) <==> a == b
  {
    if IdOf(a) == IdOf(b) {
      LinesJoinable(a);
      LinesJoinable(b);
      JoinInjective(SortedKeys(BatchLines(a)), SortedKeys(BatchLines(b)));
      assert BatchLines(a) == BatchLines(b) by {
        forall line ensures line in BatchLines(a) <==> line in BatchLines(b) {
          assert line in SortedKeys(BatchLines(a)) <==> line in BatchLines(a);
          assert line in SortedKeys(BatchLines(b)) <==> line in BatchLines(b);
        }
      }
      SameLines(a, b);
    }
  }

  lemma SameLines(a: Batch, b: Batch)
    requires CleanBatch(a) && CleanBatch(b) && BatchLines(a) == BatchLines(b)
    ensures a == b
  {
    forall p | p in a.files ensures p in b.files && b.files[p] == a.files[p] { FileOfLine(a, b, p); }
    forall p | p in b.files ensures p in a.files { FileOfLine(b, a, p); }
    forall p | p in a.deletes ensures p in b.deletes { DeleteOfLine(a, b, p); }
    forall p | p in b.deletes ensures p in a.deletes { DeleteOfLine(b, a, p); }
    assert a.files == b.files && a.deletes == b.deletes;
  }

  // ---------------------------------------------------------------------------
  // Runs
  // ---------------------------------------------------------------------------

  predicate Names(l: Label) {
    l.SetContent? || l.Admit?
  }

  /** No two different batches are stored or admitted under one key. */
  ghost predicate Unshared(run: seq<Label>) {
    forall i, j | 0 <= i < |run| && 0 <= j < |run| && Names(run[i]) && Names(run[j]) && run[i].key == run[j].key ::
      run[i].batch == run[j].batch
  }

  /** The batch stored or admitted under the key. */
  ghost function MeaningIn(run: seq<Label>, k: Key): Batch {
    if exists i :: 0 <= i < |run| && Names(run[i]) && run[i].key == k then
      var i :| 0 <= i < |run| && Names(run[i]) && run[i].key == k;
      run[i].batch
    else Batch(map[], {})
  }

  /** In every run in which no key is shared, nothing enters a tree unless the indexer processed it, with
      the committed content, in a batch marked succeeded. */
  lemma UnsharedCommitSafety(run: seq<Label>, r: RepoId, i: nat)
    requires Legal(run) && Unshared(run)
    requires r in After(run).repos && i < |After(run).repos[r].log| && After(run).repos[r].log[i].Commit?
    ensures var c := After(run).repos[r].log[i];
      && (forall p | p in c.delta.files :: FileIndexed(After(run).hist, c.sync, p, c.delta.files[p]))
      && (forall p | p in c.delta.deletes :: DeleteIndexed(After(run).hist, c.sync, p))
  {
    var m: Meaning := k => MeaningIn(run, k);
    forall j | 0 <= j < |run| ensures Meant(m, run[j]) { }
    CommitSafety(m, run, r, i);
  }

  // ---------------------------------------------------------------------------
  // The text computed from a list of entries
  // ---------------------------------------------------------------------------

  lemma {:induction false} DistinctLines(lines: seq<string>)
    requires forall i, j | 0 <= i < j < |lines| :: lines[i] != lines[j]
    ensures multiset(lines) == multiset(set line | line in lines)
  {
    if lines != [] {
      var front, last := lines[..|lines| - 1], lines[|lines| - 1];
      DistinctLines(front);
      assert lines == front + [last] && last !in front;
      assert (set line | line in lines) == (set line | line in front) + {last};
    }
  }

  /** Entries that list a batch, each line once, have its identifier as their text. */
  lemma ListedId(items: seq<Item>, b: Batch)
    requires (set line | line in LinesOf(items)) == BatchLines(b)
    requires forall i, j | 0 <= i < j < |LinesOf(items)| :: LinesOf(items)[i] != LinesOf(items)[j]
    ensures IdText(items) == IdOf(b)
  {
    DistinctLines(LinesOf(items));
    SortSorts(LinesOf(items));
    SortedKeysSorted(BatchLines(b));
    SortedUnique(Sort(LinesOf(items)), SortedKeys(BatchLines(b)));
  }
}
