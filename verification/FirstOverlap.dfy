/** No two backups of a turn may overlap: wherever they first do, for two files of different content,
    the run can go on so that a rewind gives one of them the content of the other. */
module FirstOverlap {
  import opened Wrappers

  import opened Utf8
  import opened Paths
  import opened Rewind
  import opened Checkpoint
  import opened ParallelEdits
  import opened CallSteps

  /** A rewind of the current turn gives the file back wrongly, though it does not count as lost and the
      backups are consistent for it. */
  ghost predicate MisledAt(w: World, root: string, f: Place) {
    && w.turn > 0
    && var t := w.turn - 1;
      && t in w.ends && !Lost(w.lost, t, f) && ConsistentAt(LogOf(w.turns), root, t, f)
      && forall after | Restored(LogOf(w.turns), root, t, w.files, after) :: Lookup(after, f) != Lookup(w.ends[t], f)
  }

  // ---------------------------------------------------------------------------
  // Two calls that know the same manifest
  // ---------------------------------------------------------------------------

  /** The calls i and j, what the manifest held when they read it, and what their files hold. */
  datatype Overlap = Overlap(i: nat, j: nat, ci: Call, cj: Call, known: seq<Entry>, a: Bytes, b: Bytes)

  function Swapped(x: Overlap): Overlap {
    Overlap(x.j, x.i, x.cj, x.ci, x.known, x.b, x.a)
  }

  predicate CallHas(tl: Timeline, c: Call, bytes: Bytes) {
    !c.late && !c.aborted && c.turn == tl.turn && Lookup(tl.files, FileOf(c.path)) == Has(bytes)
  }

  predicate OverlapOk(tl: Timeline, x: Overlap) {
    x.i != x.j && CallHas(tl, x.ci, x.a) && CallHas(tl, x.cj, x.b)
  }

  /** The world still shows the timeline, and the calls stand where it says. */
  ghost predicate Poised(w: World, tl: Timeline, x: Overlap, pi: Pc, pj: Pc) {
    && Line(w) == tl && DirOk(Dir(w)) && EntriesIn(Dir(w)) == x.known
    && x.i in w.calls && w.calls[x.i] == x.ci.(pc := pi) && x.j in w.calls && w.calls[x.j] == x.cj.(pc := pj)
  }

  function Name(x: Overlap): string {
    BlobName(|x.known|)
  }

  function NextOf(x: Overlap): seq<Entry> {
    x.known + [NewBlob(x.ci.path, x.known)]
  }

  /** The call i looks at its file. */
  lemma Looks(at: World -> bool, root: string, w: World, tl: Timeline, x: Overlap, pj: Pc) returns (v: World)
    requires Closed(at, root) && at(w) && OverlapOk(tl, x) && Poised(w, tl, x, AtFile(x.known), pj)
    ensures at(v) && Poised(v, tl, x, AtBlob(x.known, x.a), pj) && Dir(v) == Dir(w)
  {
    v := To(w, x.i, w.calls[x.i], AtBlob(x.known, x.a));
    ReadFile(root, w, x.i, w.calls[x.i], v);
  }

  /** The call i writes its blob. */
  lemma Stores(at: World -> bool, root: string, w: World, tl: Timeline, x: Overlap, pj: Pc) returns (v: World)
    requires Closed(at, root) && at(w) && OverlapOk(tl, x) && Poised(w, tl, x, AtBlob(x.known, x.a), pj)
    ensures at(v) && Poised(v, tl, x, AtTmp(NextOf(x)), pj)
    ensures Dir(v).tmp == Dir(w).tmp && Name(x) in Dir(v).blobs && Dir(v).blobs[Name(x)] == x.a
  {
    var dir := Dir(w).(blobs := Dir(w).blobs[Name(x) := x.a]);
    NextBlobFree(Dir(w), x.a);
    SameLog(w.turns, w.turn, dir);
    v := InDir(To(w, x.i, w.calls[x.i], AtTmp(NextOf(x))), w.turn, dir);
    PutBlob(root, w, x.i, w.calls[x.i], v);
  }

  /** The call i writes the temporary manifest. */
  lemma Prepares(at: World -> bool, root: string, w: World, tl: Timeline, x: Overlap, pj: Pc) returns (v: World)
    requires Closed(at, root) && at(w) && OverlapOk(tl, x) && Poised(w, tl, x, AtTmp(NextOf(x)), pj)
    ensures at(v) && Poised(v, tl, x, AtRename(NextOf(x)), pj)
    ensures Dir(v).tmp == Whole(NextOf(x)) && Dir(v).blobs == Dir(w).blobs
  {
    var dir := Dir(w).(tmp := Whole(NextOf(x)));
    SameRecord(dir, Dir(w));
    SameLog(w.turns, w.turn, dir);
    v := InDir(To(w, x.i, w.calls[x.i], AtRename(NextOf(x))), w.turn, dir);
    PutTmp(root, w, x.i, w.calls[x.i], v);
  }

  /** The call j stores its blob over that of i. */
  lemma Overwrites(at: World -> bool, root: string, w: World, tl: Timeline, x: Overlap, pi: Pc) returns (v: World)
    requires Closed(at, root) && at(w) && OverlapOk(tl, x) && Poised(w, tl, x, pi, AtFile(x.known))
    ensures at(v) && Poised(v, tl, x, pi, AtTmp(NextOf(Swapped(x))))
    ensures Dir(v).tmp == Dir(w).tmp && Name(x) in Dir(v).blobs && Dir(v).blobs[Name(x)] == x.b
  {
    var u := Looks(at, root, w, tl, Swapped(x), pi);
    v := Stores(at, root, u, tl, Swapped(x), pi);
  }

  /** The manifest that i puts in place refers to the blob of j. */
  lemma Replaces(at: World -> bool, root: string, w: World, tl: Timeline, x: Overlap, pj: Pc) returns (v: World)
    requires Closed(at, root) && at(w) && OverlapOk(tl, x) && Poised(w, tl, x, AtRename(NextOf(x)), pj)
    requires Dir(w).tmp == Whole(NextOf(x)) && Name(x) in Dir(w).blobs && Dir(w).blobs[Name(x)] == x.b
    requires !HasName(x.known, x.ci.path)
    ensures at(v) && v.turn == tl.turn && v.files == tl.files && v.ends == tl.ends && v.lost == tl.lost
    ensures LogOf(v.turns) == tl.log[tl.turn := EntriesOf(tl.log, tl.turn) + [Backup(x.ci.path, Has(x.b))]]
  {
    v := InDir(To(w, x.i, w.calls[x.i], AtEdit(true)), w.turn, Renamed(Dir(w)));
    PutManifest(root, w, x.i, w.calls[x.i], v);
    var e := NewBlob(x.ci.path, x.known);
    EntryAdded(Dir(w), e);
    var plain := Dir(w).(manifest := Entries(NextOf(x)));
    SameRecord(Renamed(Dir(w)), plain);
    assert Checkpoint.Recorded(plain, e) == Backup(x.ci.path, Has(x.b));
    NewLog(w.turns, w.turn, Renamed(Dir(w)));
    EntriesLogged(w.turns, w.turn);
  }

  /** What is left to the call i before the rename. */
  lemma Finishes(at: World -> bool, root: string, w: World, tl: Timeline, x: Overlap, pi: Pc) returns (v: World)
    requires Closed(at, root) && at(w) && OverlapOk(tl, x) && Poised(w, tl, x, pi, AtFile(x.known))
    requires pi == AtTmp(NextOf(x)) || (pi == AtRename(NextOf(x)) && Dir(w).tmp == Whole(NextOf(x)))
    requires !HasName(x.known, x.ci.path)
    ensures at(v) && v.turn == tl.turn && v.files == tl.files && v.ends == tl.ends && v.lost == tl.lost
    ensures LogOf(v.turns) == tl.log[tl.turn := EntriesOf(tl.log, tl.turn) + [Backup(x.ci.path, Has(x.b))]]
  {
    var pj := AtTmp(NextOf(Swapped(x)));
    var u := Overwrites(at, root, w, tl, x, pi);
    if pi.AtTmp? {
      u := Prepares(at, root, u, tl, x, pj);
    }
    v := Replaces(at, root, u, tl, x, pj);
  }

  /** The call i may stand anywhere in its backup. */
  predicate Anywhere(x: Overlap, pi: Pc, tmp: Tmp) {
    || pi == AtFile(x.known) || pi == AtBlob(x.known, x.a) || pi == AtTmp(NextOf(x))
    || (pi == AtRename(NextOf(x)) && tmp == Whole(NextOf(x)))
  }

  lemma Overlaps(at: World -> bool, root: string, w: World, tl: Timeline, x: Overlap, pi: Pc) returns (v: World)
    requires Closed(at, root) && at(w) && OverlapOk(tl, x) && Poised(w, tl, x, pi, AtFile(x.known))
    requires Anywhere(x, pi, Dir(w).tmp) && !HasName(x.known, x.ci.path)
    ensures at(v) && v.turn == tl.turn && v.files == tl.files && v.ends == tl.ends && v.lost == tl.lost
    ensures LogOf(v.turns) == tl.log[tl.turn := EntriesOf(tl.log, tl.turn) + [Backup(x.ci.path, Has(x.b))]]
  {
    var u, pc, pj := w, pi, AtFile(x.known);
    if pc.AtFile? {
      u := Looks(at, root, u, tl, x, pj);
      pc := AtBlob(x.known, x.a);
    }
    if pc.AtBlob? {
      u := Stores(at, root, u, tl, x, pj);
      pc := AtTmp(NextOf(x));
    }
    v := Finishes(at, root, u, tl, x, pc);
  }

  // ---------------------------------------------------------------------------
  // What the rewind then gives back
  // ---------------------------------------------------------------------------

  /** A file of the project that the turn has not backed up yet and that is not lost. */
  ghost predicate Exposed(tl: Timeline, root: string, path: string) {
    && tl.turn > 0 && tl.turn - 1 in tl.ends && WithinRoot(root, path)
    && !Covers(tl.log, root, tl.turn, FileOf(path)) && !Lost(tl.lost, tl.turn - 1, FileOf(path))
  }

  lemma StillStands(tl: Timeline, root: string, path: string)
    requires TimelineOk(tl, root) && Exposed(tl, root, path)
    ensures Lookup(tl.ends[tl.turn - 1], FileOf(path)) == Lookup(tl.files, FileOf(path))
  {
    assert EndOk(tl, root, tl.turn - 1, FileOf(path));
    assert Untouched(tl.log, root, tl.turn - 1, FileOf(path));
  }

  lemma WrongBackup(tl: Timeline, root: string, path: string, wrong: Content, v: World)
    requires TimelineOk(tl, root) && Exposed(tl, root, path) && wrong != Lookup(tl.files, FileOf(path))
    requires v.turn == tl.turn && v.files == tl.files && v.ends == tl.ends && v.lost == tl.lost
    requires LogOf(v.turns) == tl.log[tl.turn := EntriesOf(tl.log, tl.turn) + [Backup(path, wrong)]]
    ensures MisledAt(v, root, FileOf(path))
  {
    var f, t, log := FileOf(path), tl.turn, LogOf(v.turns);
    StillStands(tl, root, path);
    AddedFound(tl.log, log, root, t, Backup(path, wrong), f);
    forall after | Restored(log, root, t - 1, v.files, after) ensures Lookup(after, f) != Lookup(v.ends[t - 1], f) {
      assert Undone(log, root, t - 1, f, Last, Lookup(v.files, f), Lookup(after, f));
    }
  }

  /** The added backup of a file is the only one of its turn. */
  lemma AddedFound(before: Log, log: Log, root: string, t: nat, b: Backup, f: Place)
    requires t > 0 && Names(root, b, f) && !Covers(before, root, t, f) && log == before[t := EntriesOf(before, t) + [b]]
    ensures ConsistentAt(log, root, t - 1, f) && Oldest(log, root, t - 1, f, t)
    ensures Last(log[t], root, f) == Prior(b.prior)
  {
    var entries := EntriesOf(before, t);
    assert First(entries, root, f).Nothing?;
    FirstAppend(entries, b, root, f);
    LastAppend(entries, b, root, f);
    OnlyOldest(log, root, t, b.prior, f);
  }

  lemma OnlyOldest(log: Log, root: string, t: nat, prior: Content, f: Place)
    requires t > 0 && t in log && First(log[t], root, f) == Prior(prior) && Last(log[t], root, f) == Prior(prior)
    ensures ConsistentAt(log, root, t - 1, f) && Oldest(log, root, t - 1, f, t)
  {
    assert Covers(log, root, t, f);
  }

  // ---------------------------------------------------------------------------
  // The first overlap of a run
  // ---------------------------------------------------------------------------

  /** Of two calls that overlap for the first time, one has just read the manifest. */
  lemma JustRead(w: World, root: string, s: Step, i: nat, j: nat)
    requires Exclusive(w) && Enabled(w, root, s) && i != j
    requires var next := Next(w, root, s);
      i in next.calls && j in next.calls && BackingUp(next.calls[i]) && BackingUp(next.calls[j])
    ensures var next := Next(w, root, s); next.calls[i].pc.AtFile? || next.calls[j].pc.AtFile?
  {
    StartsBackup(w, root, s, i);
    StartsBackup(w, root, s, j);
  }

  lemma StartsBackup(w: World, root: string, s: Step, i: nat)
    requires Enabled(w, root, s) && i in Next(w, root, s).calls && BackingUp(Next(w, root, s).calls[i])
    ensures Next(w, root, s).calls[i].pc.AtFile? || (i in w.calls && BackingUp(w.calls[i]))
  {
  }

  /** What a call knows when it is backing up an existing file that is not lost. */
  lemma Knowing(w: World, root: string, c: Call, x: Overlap)
    requires CallOk(w, root, c) && BackingUp(c) && c.path == x.ci.path && x.known == EntriesIn(Dir(w))
    requires Exposed(Line(w), root, c.path) && Lookup(w.files, FileOf(c.path)) == Has(x.a)
    ensures Anywhere(x, c.pc, Dir(w).tmp) && !HasName(x.known, c.path)
  {
    assert (w.turn, FileOf(c.path)) !in w.lost;
    if c.pc.AtTmp? || c.pc.AtRename? {
      KnowingNext(w, root, c.path, c.pc.next, x);
    }
  }

  lemma KnowingNext(w: World, root: string, path: string, next: seq<Entry>, x: Overlap)
    requires NextOk(w, root, path, next) && path == x.ci.path && x.known == EntriesIn(Dir(w))
    requires !Covers(LogOf(w.turns), root, w.turn, FileOf(path)) && (w.turn, FileOf(path)) !in w.lost
    requires Lookup(w.files, FileOf(path)) == Has(x.a)
    ensures next == NextOf(x) && !HasName(x.known, path)
  {
    var n := |next| - 1;
    BlobEntry(w, root, path, next[n], n, x.a);
    assert next == next[..n] + [next[n]];
  }

  /** The entry of a file that exists names its blob. */
  lemma BlobEntry(w: World, root: string, path: string, e: Entry, n: nat, bytes: Bytes)
    requires EntryOk(w, root, path, e, n) && Lookup(w.files, FileOf(path)) == Has(bytes)
    requires !Covers(LogOf(w.turns), root, w.turn, FileOf(path)) && (w.turn, FileOf(path)) !in w.lost
    ensures e == Entry(path, true, Some(BlobName(n)))
  {
  }

  lemma MisleadsFrom(at: World -> bool, root: string, w: World, i: nat, j: nat, a: Bytes, b: Bytes)
    requires Closed(at, root) && at(w) && WorldOk(w, root) && TimelineOk(Line(w), root) && a != b && i != j
    requires i in w.calls && CallHas(Line(w), w.calls[i], a) && BackingUp(w.calls[i])
    requires j in w.calls && CallHas(Line(w), w.calls[j], b) && w.calls[j].pc.AtFile?
    requires Exposed(Line(w), root, w.calls[i].path)
    ensures exists v :: at(v) && MisledAt(v, root, FileOf(w.calls[i].path))
  {
    var x := Overlap(i, j, w.calls[i], w.calls[j], EntriesIn(Dir(w)), a, b);
    assert CallOk(w, root, w.calls[i]) && CallOk(w, root, w.calls[j]);
    Knowing(w, root, x.ci, x);
    assert DirOk(Dir(w));
    var v := Overlaps(at, root, w, Line(w), x, x.ci.pc);
    WrongBackup(Line(w), root, x.ci.path, Has(b), v);
  }

  /** A call that is backing up a file of the project, which exists and is neither backed up in the turn
      yet nor lost. */
  ghost predicate Hazard(w: World, root: string, id: nat) {
    && id in w.calls && BackingUp(w.calls[id]) && !w.calls[id].aborted
    && FileOf(w.calls[id].path) in w.files && Exposed(Line(w), root, w.calls[id].path)
  }

  /** Where two backups first overlap, of existing files that differ, some continuation misleads the
      next rewind about one of them. */
  lemma FirstOverlapMisleads(files: Files, root: string, steps: seq<Step>, i: nat, j: nat)
    requires steps != [] && Possible(files, root, steps) && BackedUpInTime(files, root, steps)
    requires OneAtATime(files, root, steps[..|steps| - 1])
    requires var w := Reach(files, root, steps);
      && i != j && Hazard(w, root, i) && Hazard(w, root, j)
      && w.files[FileOf(w.calls[i].path)] != w.files[FileOf(w.calls[j].path)]
    ensures var w := Reach(files, root, steps);
      exists v :: Continues(files, root, steps, v) &&
        (MisledAt(v, root, FileOf(w.calls[i].path)) || MisledAt(v, root, FileOf(w.calls[j].path)))
  {
    var front, last := steps[..|steps| - 1], steps[|steps| - 1];
    var w0, w := Reach(files, root, front), Reach(files, root, steps);
    LineOk(files, root, steps);
    assert front[..|front|] == front;
    JustRead(w0, root, last, i, j);
    ContinuesClosed(files, root, steps);
    var at := v => Continues(files, root, steps, v);
    var a, b := w.files[FileOf(w.calls[i].path)], w.files[FileOf(w.calls[j].path)];
    assert CallOk(w, root, w.calls[i]) && CallOk(w, root, w.calls[j]);
    if w.calls[j].pc.AtFile? {
      MisleadsFrom(at, root, w, i, j, a, b);
    } else {
      MisleadsFrom(at, root, w, j, i, b, a);
    }
  }

  lemma LineOk(files: Files, root: string, steps: seq<Step>)
    requires steps != [] && Possible(files, root, steps) && BackedUpInTime(files, root, steps)
    requires OneAtATime(files, root, steps[..|steps| - 1])
    ensures var w := Reach(files, root, steps); WorldOk(w, root) && TimelineOk(Line(w), root)
  {
    var front, last := steps[..|steps| - 1], steps[|steps| - 1];
    var w := Reach(files, root, front);
    assert front[..|front|] == front;
    FrontInTime(files, root, steps);
    ShowsTimeline(files, root, front);
    var moves :| IsPlay(files, root, moves, Line(w));
    StepOk(w, root, last);
    FollowOn(files, root, moves, w, Reach(files, root, steps));
    var more :| IsPlay(files, root, more, Line(Reach(files, root, steps)));
    PlaysOk(files, root, more);
  }
}
