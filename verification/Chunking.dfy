/** The client's packing of files into upload batches. */
module Chunking {
  import opened Utf8

  const MAX_BATCH_BYTES: nat := 2 * 1024 * 1024
  const MAX_BATCH_FILES: nat := 100

  datatype FileEntry = FileEntry(path: string, hash: string, content: Bytes)

  datatype Batch = Batch(files: seq<FileEntry>, deletes: seq<string>)

  function Size(files: seq<FileEntry>): nat {
    if files == [] then 0 else Size(files[..|files| - 1]) + |files[|files| - 1].content|
  }

  /** Within both caps, or a single file. */
  predicate Fits(files: seq<FileEntry>) {
    |files| <= MAX_BATCH_FILES && (Size(files) <= MAX_BATCH_BYTES || |files| <= 1)
  }

  function Concat(parts: seq<seq<FileEntry>>): seq<FileEntry> {
    if parts == [] then [] else parts[0] + Concat(parts[1..])
  }

  /** Non-empty parts that fit, each of which could not take the first file of the next. */
  predicate Greedy(parts: seq<seq<FileEntry>>) {
    && (forall i | 0 <= i < |parts| :: parts[i] != [] && Fits(parts[i]))
    && (forall i | 0 <= i < |parts| - 1 :: !Fits(parts[i] + [parts[i + 1][0]]))
  }

  lemma {:induction false} SizeAppend(a: seq<FileEntry>, b: seq<FileEntry>)
    ensures Size(a + b) == Size(a) + Size(b)
  {
    if b == [] {
      assert a + b == a;
    } else {
      var front := b[..|b| - 1];
      assert (a + b)[..|a + b| - 1] == a + front;
      SizeAppend(a, front);
    }
  }

  /** What fits still fits when files are left off at either end. */
  lemma FitsPart(files: seq<FileEntry>, i: nat, j: nat)
    requires Fits(files) && i <= j <= |files|
    ensures Fits(files[i..j])
  {
    SizeAppend(files[..j], files[j..]);
    assert files == files[..j] + files[j..];
    SizeAppend(files[..j][..i], files[..j][i..]);
    assert files[..j] == files[..j][..i] + files[..j][i..];
    assert files[..j][i..] == files[i..j];
  }

  lemma {:induction false} ConcatAppend(parts: seq<seq<FileEntry>>, last: seq<FileEntry>)
    ensures Concat(parts + [last]) == Concat(parts) + last
  {
    if parts == [] {
      assert [last][1..] == [];
    } else {
      assert (parts + [last])[1..] == parts[1..] + [last];
      ConcatAppend(parts[1..], last);
    }
  }

  /** The greedy parts stay ahead of any other split into fitting parts: what they still have to
      cover is never more. */
  lemma {:induction false} GreedyAhead(greedy: seq<seq<FileEntry>>, other: seq<seq<FileEntry>>)
    requires Greedy(greedy) && forall i | 0 <= i < |other| :: Fits(other[i])
    requires |Concat(greedy)| <= |Concat(other)|
    requires Concat(other)[|Concat(other)| - |Concat(greedy)|..] == Concat(greedy)
    ensures |greedy| <= |other|
  {
    if greedy != [] {
      assert |Concat(greedy)| >= |greedy[0]| > 0;
      var skipped := |Concat(other)| - |Concat(greedy)|;
      StepAhead(greedy, other);
      var g, o := Concat(greedy[1..]), Concat(other[1..]);
      assert o[|o| - |g|..] == Concat(other)[|Concat(other)| - |g|..];
      assert g == Concat(greedy)[|greedy[0]|..];
      assert Concat(other)[|Concat(other)| - |g|..] == Concat(other)[skipped..][|greedy[0]|..];
      GreedyAhead(greedy[1..], other[1..]);
    }
  }

  lemma StepAhead(greedy: seq<seq<FileEntry>>, other: seq<seq<FileEntry>>)
    requires Greedy(greedy) && greedy != [] && other != [] && Fits(other[0])
    requires |Concat(greedy)| <= |Concat(other)|
    requires Concat(other)[|Concat(other)| - |Concat(greedy)|..] == Concat(greedy)
    ensures |Concat(greedy[1..])| <= |Concat(other[1..])|
  {
    var skipped := |Concat(other)| - |Concat(greedy)|;
    var g, o := Concat(greedy[1..]), Concat(other[1..]);
    if |g| > |o| {
      var end := skipped + |greedy[0]| + 1;
      assert |greedy| > 1;
      assert g[0] == greedy[1][0];
      assert end <= |other[0]|;
      assert other[0][skipped..end] == Concat(other)[skipped..end];
      assert Concat(other)[skipped..end] == Concat(greedy)[..|greedy[0]| + 1];
      assert Concat(greedy)[..|greedy[0]| + 1] == greedy[0] + [greedy[1][0]];
      FitsPart(other[0], skipped, end);
    }
  }

  /** No split of the files, in order, into parts that meet the caps has fewer parts. */
  lemma GreedyOptimal(greedy: seq<seq<FileEntry>>, other: seq<seq<FileEntry>>)
    requires Greedy(greedy) && (forall i | 0 <= i < |other| :: Fits(other[i])) && Concat(greedy) == Concat(other)
    ensures |greedy| <= |other|
  {
    assert Concat(other)[0..] == Concat(greedy);
    GreedyAhead(greedy, other);
  }

  function FilesOf(batches: seq<Batch>): seq<seq<FileEntry>> {
    seq(|batches|, i requires 0 <= i < |batches| => batches[i].files)
  }

  /** Greedy packing. The deletes go with the first batch, or make one of their own. */
  method ChunkIntoBatches(needed: seq<FileEntry>, deletes: seq<string>) returns (batches: seq<Batch>)
    ensures Concat(FilesOf(batches)) == needed
    ensures needed != [] ==> Greedy(FilesOf(batches)) && batches != []
    ensures needed == [] ==> batches == if deletes == [] then [] else [Batch([], deletes)]
    ensures forall i | 0 <= i < |batches| :: batches[i].deletes == if i == 0 then deletes else []
    ensures forall other | Concat(other) == needed && (forall i | 0 <= i < |other| :: Fits(other[i])) ::
      needed != [] ==> |batches| <= |other|
  {
    var parts := PackFiles(needed);
    batches := seq(|parts|, i requires 0 <= i < |parts| => Batch(parts[i], []));
    if |batches| > 0 {
      batches := batches[0 := batches[0].(deletes := deletes)];
      assert FilesOf(batches) == parts;
    } else if deletes != [] {
      assert parts == [];
      batches := [Batch([], deletes)];
      assert FilesOf(batches) == [[]] && Concat([[]]) == [] + Concat([]);
    } else {
      assert FilesOf(batches) == parts;
    }
    forall other | Concat(other) == needed && (forall i | 0 <= i < |other| :: Fits(other[i]))
      ensures needed != [] ==> |batches| <= |other| {
      GreedyOptimal(parts, other);
    }
  }

  lemma GreedyMore(parts: seq<seq<FileEntry>>, current: seq<FileEntry>)
    requires Greedy(parts) && current != [] && Fits(current)
    requires parts != [] ==> !Fits(parts[|parts| - 1] + [current[0]])
    ensures Greedy(parts + [current]) && Concat(parts + [current]) == Concat(parts) + current
  {
    ConcatAppend(parts, current);
  }

  /** The test of the loop: whether the entry fits into the current batch. */
  lemma AddFits(current: seq<FileEntry>, entry: FileEntry)
    requires Fits(current)
    ensures Size(current + [entry]) == Size(current) + |entry.content|
    ensures Fits(current + [entry]) <==>
      current == [] || (|current| < MAX_BATCH_FILES && Size(current) + |entry.content| <= MAX_BATCH_BYTES)
  {
    assert (current + [entry])[..|current|] == current;
  }

  /** The packing so far: finished parts and the current one. */
  ghost predicate Packing(parts: seq<seq<FileEntry>>, current: seq<FileEntry>, files: seq<FileEntry>) {
    && Concat(parts) + current == files
    && Greedy(parts) && Fits(current)
    && (current == [] ==> parts == [])
    && (current != [] && parts != [] ==> !Fits(parts[|parts| - 1] + [current[0]]))
  }

  lemma PackMore(parts: seq<seq<FileEntry>>, current: seq<FileEntry>, files: seq<FileEntry>, entry: FileEntry)
    requires Packing(parts, current, files) && Fits(current + [entry])
    ensures Packing(parts, current + [entry], files + [entry])
  {
    assert Concat(parts) + (current + [entry]) == (Concat(parts) + current) + [entry];
    assert current != [] ==> (current + [entry])[0] == current[0];
  }

  lemma PackNew(parts: seq<seq<FileEntry>>, current: seq<FileEntry>, files: seq<FileEntry>, entry: FileEntry)
    requires Packing(parts, current, files) && !Fits(current + [entry]) && current != []
    ensures Packing(parts + [current], [entry], files + [entry])
  {
    GreedyMore(parts, current);
    AddFits([], entry);
    assert [] + [entry] == [entry];
  }

  lemma NextFile(files: seq<FileEntry>, i: nat)
    requires i < |files|
    ensures files[..i + 1] == files[..i] + [files[i]] && [] + [files[i]] == [files[i]]
    ensures Size([files[i]]) == |files[i].content|
  {
    AddFits([], files[i]);
  }

  method PackFiles(needed: seq<FileEntry>) returns (parts: seq<seq<FileEntry>>)
    ensures Concat(parts) == needed && Greedy(parts)
  {
    parts := [];
    var current: seq<FileEntry> := [];
    var currentBytes := 0;
    for i := 0 to |needed|
      invariant Packing(parts, current, needed[..i]) && currentBytes == Size(current)
    {
      var entry := needed[i];
      var entrySize := |entry.content|;
      AddFits(current, entry);
      NextFile(needed, i);
      if current != [] && (|current| >= MAX_BATCH_FILES || currentBytes + entrySize > MAX_BATCH_BYTES) {
        PackNew(parts, current, needed[..i], entry);
        parts := parts + [current];
        current := [];
        currentBytes := 0;
      } else {
        PackMore(parts, current, needed[..i], entry);
      }
      currentBytes := currentBytes + entrySize;
      current := current + [entry];
    }
    assert needed[..|needed|] == needed;
    if current != [] {
      GreedyMore(parts, current);
      parts := parts + [current];
    }
  }
}
