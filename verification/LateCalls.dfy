/** Calls that are still in flight when a rewind begins. The rewind cancels the run and waits for a
    tenth of a second at most, and no call looks whether it was cancelled: its file operations may
    come after the restore. */
module LateCalls {
  import opened Wrappers

  import opened Utf8
  import opened Paths
  import opened Rewind
  import opened Checkpoint
  import opened ParallelEdits
  import opened CallSteps

  // ---------------------------------------------------------------------------
  // When the restored files stand
  // ---------------------------------------------------------------------------

  function Run(w: World, root: string, steps: seq<Step>): World {
    if steps == [] then w else Next(Run(w, root, steps[..|steps| - 1]), root, steps[|steps| - 1])
  }

  /** The calls in flight go on, and nothing else happens. */
  ghost predicate GoesOn(w: World, root: string, steps: seq<Step>) {
    steps == [] ||
      var front, last := steps[..|steps| - 1], steps[|steps| - 1];
      GoesOn(w, root, front) && last.Go? && Enabled(Run(w, root, front), root, last)
  }

  /** The call does not come to its change, or removes a file that is not there, or empties an empty one. */
  predicate Harmless(files: Files, c: Call) {
    (c.aborted && !c.pc.AtEdit?) ||
      (c.content == Lookup(files, FileOf(c.path)) && (c.content.Missing? || c.content.bytes == []))
  }

  predicate AllHarmless(files: Files, calls: map<nat, Call>) {
    forall id | id in calls :: Harmless(files, calls[id])
  }

  lemma HarmlessGo(w: World, root: string, s: Step)
    requires AllHarmless(w.files, w.calls) && s.Go? && Enabled(w, root, s)
    ensures Next(w, root, s).files == w.files && AllHarmless(w.files, Next(w, root, s).calls)
  {
    HarmlessFiles(w, root, s.id, s.reply);
    HarmlessCall(w, w.calls[s.id], s.reply);
  }

  lemma HarmlessFiles(w: World, root: string, id: nat, reply: Reply)
    requires id in w.calls && Harmless(w.files, w.calls[id]) && CutOk(w.calls[id], reply)
    ensures Gone(w, root, id, reply).files == w.files
  {
    var c := w.calls[id];
    if c.pc.AtEdit? && !reply.Refused? {
      SameContent(w.files, FileOf(c.path), Written(c, reply));
    }
  }

  lemma HarmlessCall(w: World, c: Call, reply: Reply)
    requires Harmless(w.files, c)
    ensures var pc := NextPc(w, c, reply); pc.Some? ==> Harmless(w.files, c.(pc := pc.value))
  {
  }

  lemma SameContent(files: Files, f: Place, content: Content)
    requires content == Lookup(files, f)
    ensures Write(files, f, content) == files
  {
  }

  lemma {:induction false} HarmlessRun(w: World, root: string, steps: seq<Step>)
    requires AllHarmless(w.files, w.calls) && GoesOn(w, root, steps)
    ensures Run(w, root, steps).files == w.files && AllHarmless(w.files, Run(w, root, steps).calls)
  {
    if steps != [] {
      var front, last := steps[..|steps| - 1], steps[|steps| - 1];
      HarmlessRun(w, root, front);
      HarmlessGo(Run(w, root, front), root, last);
    }
  }

  lemma GoFrom(w: World, root: string, steps: seq<Step>, s: Step)
    requires GoesOn(w, root, steps) && s.Go? && Enabled(Run(w, root, steps), root, s)
    ensures GoesOn(w, root, steps + [s]) && Run(w, root, steps + [s]) == Next(Run(w, root, steps), root, s)
  {
    assert (steps + [s])[..|steps|] == steps;
  }

  /** A call that comes to its change can make it, whole or in part. */
  lemma Changes(w: World, root: string, id: nat) returns (s: Step)
    requires id in w.calls && w.calls[id].pc.AtEdit? && !Harmless(w.files, w.calls[id])
    ensures s.Go? && Enabled(w, root, s) && Next(w, root, s).files != w.files
  {
    var c := w.calls[id];
    var f := FileOf(c.path);
    s := Go(id, if c.content == Lookup(w.files, f) then Cut([]) else Finished);
    assert Lookup(Next(w, root, s).files, f) != Lookup(w.files, f);
  }

  lemma Harms(w: World, root: string, id: nat)
    requires id in w.calls && !Harmless(w.files, w.calls[id])
    ensures exists steps :: GoesOn(w, root, steps) && Run(w, root, steps).files != w.files
  {
    if w.calls[id].pc.AtEdit? {
      var s := Changes(w, root, id);
      GoFrom(w, root, [], s);
    } else {
      var skip := Go(id, Refused);
      GoFrom(w, root, [], skip);
      assert [] + [skip] == [skip];
      var s := Changes(Run(w, root, [skip]), root, id);
      GoFrom(w, root, [skip], s);
    }
  }

  /** The files stay as they are however the calls in flight go on, exactly when each is harmless. */
  lemma FilesStand(w: World, root: string)
    ensures (forall steps | GoesOn(w, root, steps) :: Run(w, root, steps).files == w.files) <==>
      AllHarmless(w.files, w.calls)
  {
    if AllHarmless(w.files, w.calls) {
      forall steps | GoesOn(w, root, steps) ensures Run(w, root, steps).files == w.files {
        HarmlessRun(w, root, steps);
      }
    } else {
      var id :| id in w.calls && !Harmless(w.files, w.calls[id]);
      Harms(w, root, id);
    }
  }

  /** What a rewind gave back stays, exactly when every call in flight at that moment is harmless to it;
      so when there is none. */
  lemma RewindStands(w: World, root: string, t: nat, after: Files, pruned: bool)
    requires Enabled(w, root, Rewind(t, after, pruned))
    ensures var next := Next(w, root, Rewind(t, after, pruned));
      (forall steps | GoesOn(next, root, steps) :: Run(next, root, steps).files == after) <==>
        AllHarmless(after, w.calls)
  {
    var next := Next(w, root, Rewind(t, after, pruned));
    FilesStand(next, root);
    assert next.calls == Overtaken(w.calls);
    forall id | id in w.calls ensures Harmless(after, next.calls[id]) <==> Harmless(after, w.calls[id]) { }
  }

  // ---------------------------------------------------------------------------
  // What a late call leaves behind
  // ---------------------------------------------------------------------------

  /** A call overtaken by a rewind at its change makes it afterwards: no backup of the file is left
      above the turn, restoring again changes nothing, and the file is as at the end of the turn exactly
      when the call's content is. */
  lemma LateWriteExact(w: World, root: string, t: nat, after: Files, id: nat, again: Files)
    requires Enabled(w, root, Rewind(t, after, true)) && id in w.calls && w.calls[id].pc.AtEdit?
    requires var late := Next(Next(w, root, Rewind(t, after, true)), root, Go(id, Finished));
      Restored(LogOf(late.turns), root, t, late.files, again)
    ensures var late := Next(Next(w, root, Rewind(t, after, true)), root, Go(id, Finished));
      var f, content := FileOf(w.calls[id].path), w.calls[id].content;
      && again == late.files && Lookup(again, f) == content
      && (Lookup(again, f) == Lookup(late.ends[t], f) <==> content == Lookup(w.ends[t], f))
  {
    var mid := Next(w, root, Rewind(t, after, true));
    var late := Next(mid, root, Go(id, Finished));
    var log := LogOf(late.turns);
    forall f ensures Lookup(again, f) == Lookup(late.files, f) {
      assert Untouched(log, root, t, f);
      assert Undone(log, root, t, f, Last, Lookup(late.files, f), Lookup(again, f));
    }
    SameFiles(again, late.files);
  }

  /** One overtaken before it wrote the temporary manifest makes the directory of its turn anew, with a
      manifest whose blobs are gone. */
  lemma LateManifest(w: World, root: string, t: nat, after: Files, id: nat, c: Call, k: nat)
    requires Enabled(w, root, Rewind(t, after, true)) && Stands(w, id, c) && c.pc.AtTmp? && c.turn > t
    requires k < |c.pc.next| && c.pc.next[k].existedBefore && WithinRoot(root, c.pc.next[k].path)
    ensures var go := Go(id, Finished);
      var late := Next(Next(Next(w, root, Rewind(t, after, true)), root, go), root, go);
      && late.files == after && c.turn in late.turns
      && late.turns[c.turn] == TurnDir(Entries(c.pc.next), NoTmp, map[])
      && !DirOk(late.turns[c.turn]) && !Undoable(late.turns[c.turn], root)
  {
    Remakes(Next(w, root, Rewind(t, after, true)), root, id, c.(late := true));
    GoneManifest(c.pc.next, k, root);
  }

  lemma Remakes(w: World, root: string, id: nat, c: Call)
    requires Stands(w, id, c) && c.pc.AtTmp? && DirAt(w.turns, c.turn) == NewTurn
    ensures var go := Go(id, Finished); var late := Next(Next(w, root, go), root, go);
      && late.files == w.files && c.turn in late.turns
      && late.turns[c.turn] == TurnDir(Entries(c.pc.next), NoTmp, map[])
  {
    var go := Go(id, Finished);
    var next := Next(w, root, go);
    assert next.files == w.files && next.calls[id] == c.(pc := AtRename(c.pc.next));
    assert next.turns == w.turns[c.turn := TurnDir(NoManifest, Whole(c.pc.next), map[])];
  }

  lemma GoneManifest(entries: seq<Entry>, k: nat, root: string)
    requires k < |entries| && entries[k].existedBefore && WithinRoot(root, entries[k].path)
    ensures var dir := TurnDir(Entries(entries), NoTmp, map[]); !DirOk(dir) && !Undoable(dir, root)
  {
    assert !Replayable(TurnDir(Entries(entries), NoTmp, map[]), k, root);
  }

  // ---------------------------------------------------------------------------
  // Runs with a single call
  // ---------------------------------------------------------------------------

  /** A file of the project, what it holds and what the call writes. */
  datatype Single = Single(path: string, a: Bytes, c: Bytes)

  function Files0(x: Single): Files {
    map[FileOf(x.path) := x.a]
  }

  function CallX(x: Single, pc: Pc): Call {
    Call(1, x.path, Has(x.c), pc, false, false)
  }

  /** Turn 1, with the call there. */
  function Turn1(x: Single, turns: map<nat, TurnDir>, pc: Pc): World {
    World(Files0(x), turns, 1, true, map[0 := CallX(x, pc)], map[0 := Files0(x)], {})
  }

  function Only(x: Single): seq<Entry> {
    [NewBlob(x.path, [])]
  }

  function Stored(x: Single, tmp: Tmp): map<nat, TurnDir> {
    map[1 := TurnDir(NoManifest, tmp, map[BlobName(0) := x.a])]
  }

  lemma Begins(at: World -> bool, root: string, x: Single)
    requires ClosedAlone(at, root) && at(Start(Files0(x)))
    ensures at(Turn1(x, map[], AtManifest))
  {
    var w0, w1 := Start(Files0(x)), World(Files0(x), map[], 1, true, map[], map[0 := Files0(x)], {});
    Take(root, w0, NextTurn(1), w1);
    Take(root, w1, Spawn(0, 1, x.path, Has(x.c)), Turn1(x, map[], AtManifest));
  }

  lemma Reads(at: World -> bool, root: string, x: Single)
    requires ClosedAlone(at, root) && at(Turn1(x, map[], AtManifest)) && IsAbsolute(x.path)
    ensures at(Turn1(x, map[], AtBlob([], x.a)))
  {
    var w0, w1, w2 := Turn1(x, map[], AtManifest), Turn1(x, map[], AtFile([])), Turn1(x, map[], AtBlob([], x.a));
    ReadManifest(root, w0, 0, w0.calls[0], w1);
    ReadFile(root, w1, 0, w1.calls[0], w2);
  }

  lemma StoresIt(at: World -> bool, root: string, x: Single)
    requires ClosedAlone(at, root) && at(Turn1(x, map[], AtBlob([], x.a)))
    ensures at(Turn1(x, Stored(x, NoTmp), AtTmp(Only(x))))
  {
    var w0 := Turn1(x, map[], AtBlob([], x.a));
    assert [] + [NewBlob(x.path, [])] == Only(x);
    PutBlob(root, w0, 0, w0.calls[0], Turn1(x, Stored(x, NoTmp), AtTmp(Only(x))));
  }

  /** The call has stored the blob. */
  lemma Halfway(at: World -> bool, root: string, x: Single)
    requires ClosedAlone(at, root) && at(Start(Files0(x))) && IsAbsolute(x.path)
    ensures at(Turn1(x, Stored(x, NoTmp), AtTmp(Only(x))))
  {
    Begins(at, root, x);
    Reads(at, root, x);
    StoresIt(at, root, x);
  }

  function InPlace(x: Single): map<nat, TurnDir> {
    map[1 := TurnDir(Entries(Only(x)), NoTmp, map[BlobName(0) := x.a])]
  }

  /** The backup is complete. */
  lemma BacksUp(at: World -> bool, root: string, x: Single)
    requires ClosedAlone(at, root) && at(Turn1(x, Stored(x, NoTmp), AtTmp(Only(x))))
    ensures at(Turn1(x, InPlace(x), AtEdit(true)))
  {
    var w0, w1 := Turn1(x, Stored(x, NoTmp), AtTmp(Only(x))), Turn1(x, Stored(x, Whole(Only(x))), AtRename(Only(x)));
    PutTmp(root, w0, 0, w0.calls[0], w1);
    PutManifest(root, w1, 0, w1.calls[0], Turn1(x, InPlace(x), AtEdit(true)));
  }

  /** After the rewind to turn 0. */
  function Back(x: Single, files: Files, calls: map<nat, Call>, lost: set<(nat, Place)>): World {
    World(files, map[], 0, false, calls, map[0 := Files0(x)], lost)
  }

  function LateX(x: Single, pc: Pc): map<nat, Call> {
    map[0 := CallX(x, pc).(late := true)]
  }

  lemma GoesBack(at: World -> bool, root: string, x: Single, dir: TurnDir, pc: Pc)
    requires ClosedAlone(at, root) && at(Turn1(x, map[1 := dir], pc))
    ensures at(Back(x, Files0(x), LateX(x, pc), {}))
  {
    var w0 := Turn1(x, map[1 := dir], pc);
    Take(root, w0, Rewind(0, Files0(x), true), Back(x, Files0(x), LateX(x, pc), {}));
  }

  /** A single call, its backup complete, is overtaken by a rewind, and writes the file after it: the file
      is wrong, and no backup is left that could give it back. */
  lemma LateWrite(root: string, x: Single)
    requires IsAbsolute(x.path)
    ensures exists w ::
      && ReachableAlone(Files0(x), root, w) && w.calls == map[] && w.turns == map[]
      && w.ends == map[0 := Files0(x)] && w.files == map[FileOf(x.path) := x.c]
  {
    var at := w => ReachableAlone(Files0(x), root, w);
    ReachableAloneClosed(Files0(x), root);
    Halfway(at, root, x);
    BacksUp(at, root, x);
    GoesBack(at, root, x, InPlace(x)[1], AtEdit(true));
    WritesLate(at, root, x);
  }

  lemma WritesLate(at: World -> bool, root: string, x: Single)
    requires ClosedAlone(at, root) && at(Back(x, Files0(x), LateX(x, AtEdit(true)), {}))
    ensures at(Back(x, map[FileOf(x.path) := x.c], map[], {(1, FileOf(x.path))}))
  {
    var w0 := Back(x, Files0(x), LateX(x, AtEdit(true)), {});
    Take(root, w0, Go(0, Finished), Back(x, map[FileOf(x.path) := x.c], map[], {(1, FileOf(x.path))}));
  }

  /** One that had only stored its blob makes the directory of the undone turn anew, and from then on no
      restore of an earlier turn succeeds. */
  lemma LateBackup(root: string, x: Single)
    requires IsAbsolute(x.path) && WithinRoot(root, x.path)
    ensures exists w ::
      && ReachableAlone(Files0(x), root, w) && w.files == Files0(x)
      && 1 in w.turns && !DirOk(w.turns[1]) && !Undoable(w.turns[1], root)
  {
    var at := w => ReachableAlone(Files0(x), root, w);
    ReachableAloneClosed(Files0(x), root);
    Halfway(at, root, x);
    GoesBack(at, root, x, Stored(x, NoTmp)[1], AtTmp(Only(x)));
    RemadeManifest(at, root, x);
    GoneManifest(Only(x), 0, root);
  }

  function Remade(x: Single, dir: TurnDir, pc: Pc): World {
    Back(x, Files0(x), LateX(x, pc), {}).(turns := map[1 := dir])
  }

  lemma RemadeManifest(at: World -> bool, root: string, x: Single)
    requires ClosedAlone(at, root) && at(Back(x, Files0(x), LateX(x, AtTmp(Only(x))), {}))
    ensures at(Remade(x, TurnDir(Entries(Only(x)), NoTmp, map[]), AtEdit(true)))
  {
    var w0 := Back(x, Files0(x), LateX(x, AtTmp(Only(x))), {});
    var w1 := Remade(x, TurnDir(NoManifest, Whole(Only(x)), map[]), AtRename(Only(x)));
    PutTmp(root, w0, 0, w0.calls[0], w1);
    PutManifest(root, w1, 0, w1.calls[0], Remade(x, TurnDir(Entries(Only(x)), NoTmp, map[]), AtEdit(true)));
  }
}
