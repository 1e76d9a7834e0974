/** Single operations of calls that succeed, and what they lead to. */
module CallSteps {
  import opened Wrappers

  import opened Utf8
  import opened Paths
  import opened Rewind
  import opened Checkpoint
  import opened ParallelEdits

  ghost predicate Leads(w: World, root: string, next: World) {
    exists s :: Enabled(w, root, s) && next == Next(w, root, s)
  }

  /** A property of worlds that every possible step keeps. */
  ghost predicate Closed(at: World -> bool, root: string) {
    forall w, next | at(w) && Leads(w, root, next) :: at(next)
  }

  /** The same, of the steps that leave at most one call in flight. */
  ghost predicate ClosedAlone(at: World -> bool, root: string) {
    forall w, next | at(w) && Leads(w, root, next) && Alone(next) :: at(next)
  }

  predicate Alone(w: World) {
    forall i, j | i in w.calls && j in w.calls :: i == j
  }

  lemma Take(root: string, w: World, s: Step, next: World)
    requires Enabled(w, root, s) && next == Next(w, root, s)
    ensures Leads(w, root, next)
  {
  }

  predicate Stands(w: World, id: nat, c: Call) {
    id in w.calls && w.calls[id] == c && !c.aborted
  }

  function To(w: World, id: nat, c: Call, pc: Pc): World {
    w.(calls := w.calls[id := c.(pc := pc)])
  }

  function InDir(w: World, t: nat, dir: TurnDir): World {
    w.(turns := w.turns[t := dir])
  }

  lemma ReadManifest(root: string, w: World, id: nat, c: Call, next: World)
    requires Stands(w, id, c) && c.pc.AtManifest? && IsAbsolute(c.path) && DirAt(w.turns, c.turn).manifest.NoManifest?
    requires next == To(w, id, c, AtFile([]))
    ensures Leads(w, root, next)
  {
    Take(root, w, Go(id, Finished), next);
  }

  lemma ReadFile(root: string, w: World, id: nat, c: Call, next: World)
    requires Stands(w, id, c) && c.pc.AtFile? && FileOf(c.path) in w.files
    requires next == To(w, id, c, AtBlob(c.pc.known, w.files[FileOf(c.path)]))
    ensures Leads(w, root, next)
  {
    Take(root, w, Go(id, Finished), next);
  }

  lemma PutBlob(root: string, w: World, id: nat, c: Call, next: World)
    requires Stands(w, id, c) && c.pc.AtBlob?
    requires var known := c.pc.known; var dir := DirAt(w.turns, c.turn);
      next == InDir(To(w, id, c, AtTmp(known + [NewBlob(c.path, known)])), c.turn,
        dir.(blobs := dir.blobs[BlobName(|known|) := c.pc.bytes]))
    ensures Leads(w, root, next)
  {
    Take(root, w, Go(id, Finished), next);
  }

  lemma PutTmp(root: string, w: World, id: nat, c: Call, next: World)
    requires Stands(w, id, c) && c.pc.AtTmp?
    requires next == InDir(To(w, id, c, AtRename(c.pc.next)), c.turn, DirAt(w.turns, c.turn).(tmp := Whole(c.pc.next)))
    ensures Leads(w, root, next)
  {
    Take(root, w, Go(id, Finished), next);
  }

  lemma TearTmp(root: string, w: World, id: nat, c: Call, next: World)
    requires Stands(w, id, c) && c.pc.AtTmp?
    requires next == InDir(To(w, id, c, c.pc), c.turn, DirAt(w.turns, c.turn).(tmp := Torn))
    ensures Leads(w, root, next)
  {
    Take(root, w, Go(id, Cut([])), next);
  }

  lemma PutManifest(root: string, w: World, id: nat, c: Call, next: World)
    requires Stands(w, id, c) && c.pc.AtRename? && !DirAt(w.turns, c.turn).tmp.NoTmp?
    requires next == InDir(To(w, id, c, AtEdit(true)), c.turn, Renamed(DirAt(w.turns, c.turn)))
    ensures Leads(w, root, next)
  {
    Take(root, w, Go(id, Finished), next);
  }

  lemma PutFile(root: string, w: World, id: nat, c: Call, next: World)
    requires Stands(w, id, c) && c.pc.AtEdit? && w.open && Covers(LogOf(w.turns), root, w.turn, FileOf(c.path))
    requires next == w.(files := Write(w.files, FileOf(c.path), c.content), calls := w.calls - {id})
    ensures Leads(w, root, next)
  {
    Take(root, w, Go(id, Finished), next);
  }

  /** Some run of calls leads there. */
  ghost predicate Reachable(files: Files, root: string, w: World) {
    exists steps :: Possible(files, root, steps) && Reach(files, root, steps) == w
  }

  /** Some continuation of a run leads there. */
  ghost predicate Continues(files: Files, root: string, steps: seq<Step>, w: World) {
    exists more :: Possible(files, root, steps + more) && Reach(files, root, steps + more) == w
  }

  lemma StepOn(files: Files, root: string, steps: seq<Step>, s: Step)
    requires Possible(files, root, steps) && Enabled(Reach(files, root, steps), root, s)
    ensures Possible(files, root, steps + [s])
    ensures Reach(files, root, steps + [s]) == Next(Reach(files, root, steps), root, s)
  {
    assert (steps + [s])[..|steps|] == steps;
  }

  lemma ReachableClosed(files: Files, root: string)
    ensures Closed(w => Reachable(files, root, w), root) && Reachable(files, root, Start(files))
  {
    forall w, next | Reachable(files, root, w) && Leads(w, root, next) ensures Reachable(files, root, next) {
      var steps :| Possible(files, root, steps) && Reach(files, root, steps) == w;
      var s :| Enabled(w, root, s) && next == Next(w, root, s);
      StepOn(files, root, steps, s);
    }
    assert Possible(files, root, []) && Reach(files, root, []) == Start(files);
  }

  lemma ContinuesClosed(files: Files, root: string, steps: seq<Step>)
    requires Possible(files, root, steps)
    ensures Closed(w => Continues(files, root, steps, w), root)
    ensures Continues(files, root, steps, Reach(files, root, steps))
  {
    forall w, next | Continues(files, root, steps, w) && Leads(w, root, next)
      ensures Continues(files, root, steps, next)
    { ContinuesOn(files, root, steps, w, next); }
    assert steps + [] == steps;
  }

  lemma ContinuesOn(files: Files, root: string, steps: seq<Step>, w: World, next: World)
    requires Continues(files, root, steps, w) && Leads(w, root, next)
    ensures Continues(files, root, steps, next)
  {
    var more :| Possible(files, root, steps + more) && Reach(files, root, steps + more) == w;
    var s :| Enabled(w, root, s) && next == Next(w, root, s);
    StepOn(files, root, steps + more, s);
    assert steps + more + [s] == steps + (more + [s]);
  }

  /** Some run leads there in which no two backups overlap. */
  ghost predicate ReachableAlone(files: Files, root: string, w: World) {
    exists steps ::
      Possible(files, root, steps) && OneAtATime(files, root, steps) && Reach(files, root, steps) == w
  }

  lemma AloneOn(files: Files, root: string, steps: seq<Step>, s: Step)
    requires Possible(files, root, steps) && OneAtATime(files, root, steps)
    requires Enabled(Reach(files, root, steps), root, s) && Alone(Next(Reach(files, root, steps), root, s))
    ensures OneAtATime(files, root, steps + [s])
  {
    StepOn(files, root, steps, s);
    forall n | 0 <= n <= |steps + [s]| ensures Exclusive(Reach(files, root, (steps + [s])[..n])) {
      if n <= |steps| {
        assert (steps + [s])[..n] == steps[..n];
      } else {
        assert (steps + [s])[..n] == steps + [s];
      }
    }
  }

  lemma ReachableAloneClosed(files: Files, root: string)
    ensures ClosedAlone(w => ReachableAlone(files, root, w), root) && ReachableAlone(files, root, Start(files))
  {
    forall w, next | ReachableAlone(files, root, w) && Leads(w, root, next) && Alone(next)
      ensures ReachableAlone(files, root, next)
    {
      var steps :| Possible(files, root, steps) && OneAtATime(files, root, steps) && Reach(files, root, steps) == w;
      var s :| Enabled(w, root, s) && next == Next(w, root, s);
      StepOn(files, root, steps, s);
      AloneOn(files, root, steps, s);
    }
    var none: seq<Step> := [];
    assert Possible(files, root, none) && OneAtATime(files, root, none) && Reach(files, root, none) == Start(files);
  }
}
