/** What two writes in one response can do: whatever two files of the project they change, their
    backups may overlap so that a rewind gives one file the content of the other, or so that the
    manifest cannot be read any more. */
module OverlappingBackups {
  import opened Wrappers

  import opened Utf8
  import opened Paths
  import opened Rewind
  import opened Checkpoint
  import opened ParallelEdits
  import opened CallSteps

  // ---------------------------------------------------------------------------
  // Two writes at once
  // ---------------------------------------------------------------------------

  /** Two files of the project, what they hold, and what the calls write. */
  datatype Pair = Pair(p: string, q: string, a: Bytes, b: Bytes, c: Bytes, d: Bytes)

  predicate PairOk(root: string, x: Pair) {
    && IsAbsolute(x.p) && IsAbsolute(x.q) && WithinRoot(root, x.p) && WithinRoot(root, x.q)
    && FileOf(x.p) != FileOf(x.q)
  }

  function Files0(x: Pair): Files {
    map[FileOf(x.p) := x.a, FileOf(x.q) := x.b]
  }

  function Turn1(x: Pair, files: Files, turns: map<nat, TurnDir>, calls: map<nat, Call>): World {
    World(files, turns, 1, true, calls, map[0 := Files0(x)], {})
  }

  function CallP(x: Pair, pc: Pc): Call {
    Call(1, x.p, Has(x.c), pc, false, false)
  }

  function CallQ(x: Pair, pc: Pc): Call {
    Call(1, x.q, Has(x.d), pc, false, false)
  }

  function Calls(x: Pair, pc: Pc, qc: Pc): map<nat, Call> {
    map[0 := CallP(x, pc), 1 := CallQ(x, qc)]
  }

  function Only(path: string): seq<Entry> {
    [NewBlob(path, [])]
  }

  lemma BothSpawned(at: World -> bool, root: string, x: Pair)
    requires Closed(at, root) && at(Start(Files0(x)))
    ensures at(Turn1(x, Files0(x), map[], Calls(x, AtManifest, AtManifest)))
  {
    var files := Files0(x);
    var w0, w1 := Turn1(x, files, map[], map[]), Turn1(x, files, map[], map[0 := CallP(x, AtManifest)]);
    Take(root, Start(files), NextTurn(1), w0);
    Take(root, w0, Spawn(0, 1, x.p, Has(x.c)), w1);
    Take(root, w1, Spawn(1, 1, x.q, Has(x.d)), Turn1(x, files, map[], Calls(x, AtManifest, AtManifest)));
  }

  /** Both have read that there is no manifest. */
  lemma BothKnow(at: World -> bool, root: string, x: Pair)
    requires Closed(at, root) && at(Turn1(x, Files0(x), map[], Calls(x, AtManifest, AtManifest)))
    requires IsAbsolute(x.p) && IsAbsolute(x.q)
    ensures at(Turn1(x, Files0(x), map[], Calls(x, AtFile([]), AtFile([]))))
  {
    var files := Files0(x);
    var w0 := Turn1(x, files, map[], Calls(x, AtManifest, AtManifest));
    var w1, w2 := Turn1(x, files, map[], Calls(x, AtFile([]), AtManifest)),
      Turn1(x, files, map[], Calls(x, AtFile([]), AtFile([])));
    ReadManifest(root, w0, 0, w0.calls[0], w1);
    ReadManifest(root, w1, 1, w1.calls[1], w2);
  }

  /** Both have read what their files hold. */
  lemma BothRead(at: World -> bool, root: string, x: Pair)
    requires Closed(at, root) && at(Turn1(x, Files0(x), map[], Calls(x, AtFile([]), AtFile([]))))
    requires FileOf(x.p) != FileOf(x.q)
    ensures at(Turn1(x, Files0(x), map[], Calls(x, AtBlob([], x.a), AtBlob([], x.b))))
  {
    var files := Files0(x);
    var w0 := Turn1(x, files, map[], Calls(x, AtFile([]), AtFile([])));
    var w1 := Turn1(x, files, map[], Calls(x, AtBlob([], x.a), AtFile([])));
    var w2 := Turn1(x, files, map[], Calls(x, AtBlob([], x.a), AtBlob([], x.b)));
    ReadFile(root, w0, 0, w0.calls[0], w1);
    ReadFile(root, w1, 1, w1.calls[1], w2);
  }

  function BlobsOf(x: Pair): map<string, Bytes> {
    map[BlobName(0) := x.b]
  }

  function Stored(x: Pair, blobs: map<string, Bytes>, tmp: Tmp, pc: Pc, qc: Pc): World {
    Turn1(x, Files0(x), map[1 := TurnDir(NoManifest, tmp, blobs)], Calls(x, pc, qc))
  }

  lemma StoredNext(x: Pair, blobs: map<string, Bytes>, tmp: Tmp, pc: Pc, qc: Pc, tmp': Tmp, pc': Pc, qc': Pc)
    ensures var w, dir := Stored(x, blobs, tmp, pc, qc), TurnDir(NoManifest, tmp', blobs);
      && Dir(w).(tmp := tmp') == dir
      && InDir(To(w, 0, w.calls[0], pc'), 1, dir) == Stored(x, blobs, tmp', pc', qc)
      && InDir(To(w, 1, w.calls[1], qc'), 1, dir) == Stored(x, blobs, tmp', pc, qc')
  {
    CallsNext(x, pc, qc, pc', qc');
    var dirs: map<nat, TurnDir> := map[1 := TurnDir(NoManifest, tmp, blobs)];
    assert dirs[1 := TurnDir(NoManifest, tmp', blobs)] == map[1 := TurnDir(NoManifest, tmp', blobs)];
  }

  lemma CallsNext(x: Pair, pc: Pc, qc: Pc, pc': Pc, qc': Pc)
    ensures Calls(x, pc, qc)[0 := CallP(x, pc')] == Calls(x, pc', qc)
    ensures Calls(x, pc, qc)[1 := CallQ(x, qc')] == Calls(x, pc, qc')
  {
  }

  /** The first has written its blob. */
  lemma FirstStored(at: World -> bool, root: string, x: Pair)
    requires Closed(at, root) && at(Turn1(x, Files0(x), map[], Calls(x, AtBlob([], x.a), AtBlob([], x.b))))
    ensures at(Stored(x, map[BlobName(0) := x.a], NoTmp, AtTmp(Only(x.p)), AtBlob([], x.b)))
  {
    var w0 := Turn1(x, Files0(x), map[], Calls(x, AtBlob([], x.a), AtBlob([], x.b)));
    assert [] + [NewBlob(x.p, [])] == Only(x.p);
    PutBlob(root, w0, 0, w0.calls[0],
      Stored(x, map[BlobName(0) := x.a], NoTmp, AtTmp(Only(x.p)), AtBlob([], x.b)));
  }

  /** The second has overwritten it. */
  lemma SecondStored(at: World -> bool, root: string, x: Pair, es: seq<Entry>)
    requires Closed(at, root) && at(Stored(x, map[BlobName(0) := x.a], NoTmp, AtTmp(es), AtBlob([], x.b)))
    ensures at(Stored(x, BlobsOf(x), NoTmp, AtTmp(es), AtTmp(Only(x.q))))
  {
    var w0 := Stored(x, map[BlobName(0) := x.a], NoTmp, AtTmp(es), AtBlob([], x.b));
    assert map[BlobName(0) := x.a][BlobName(0) := x.b] == BlobsOf(x);
    assert [] + [NewBlob(x.q, [])] == Only(x.q);
    PutBlob(root, w0, 1, w0.calls[1],
      Stored(x, BlobsOf(x), NoTmp, AtTmp(es), AtTmp(Only(x.q))));
  }

  /** Both have read that there is no manifest, and what their files hold, and written their blob. */
  lemma BothBegun(at: World -> bool, root: string, x: Pair)
    requires Closed(at, root) && at(Start(Files0(x))) && PairOk(root, x)
    ensures at(Stored(x, BlobsOf(x), NoTmp, AtTmp(Only(x.p)), AtTmp(Only(x.q))))
  {
    BothSpawned(at, root, x);
    BothKnow(at, root, x);
    BothRead(at, root, x);
    FirstStored(at, root, x);
    SecondStored(at, root, x, Only(x.p));
  }

  function Recorded1(path: string, bytes: Bytes): Log {
    map[1 := [Backup(path, Has(bytes))]]
  }

  lemma LoggedOnce(path: string, blobs: map<string, Bytes>)
    requires BlobName(0) in blobs
    ensures var dir := TurnDir(Entries(Only(path)), NoTmp, blobs);
      LogOf(map[1 := dir]) == Recorded1(path, blobs[BlobName(0)]) && DirOk(dir)
  {
    assert View(TurnDir(Entries(Only(path)), NoTmp, blobs)) == [Backup(path, Has(blobs[BlobName(0)]))];
  }

  lemma OnceCovers(root: string, path: string, bytes: Bytes)
    requires WithinRoot(root, path)
    ensures Covers(Recorded1(path, bytes), root, 1, FileOf(path))
  {
    assert [Backup(path, Has(bytes))][0].path == path;
    EntryCovers(Recorded1(path, bytes), root, 1, path);
  }

  function InPlace(x: Pair, files: Files, es: seq<Entry>, blobs: map<string, Bytes>, calls: map<nat, Call>): World {
    Turn1(x, files, map[1 := TurnDir(Entries(es), NoTmp, blobs)], calls)
  }

  /** The second has its manifest in place. */
  lemma SecondPut(at: World -> bool, root: string, x: Pair, es: seq<Entry>, fs: seq<Entry>, blobs: map<string, Bytes>)
    requires Closed(at, root) && at(Stored(x, blobs, NoTmp, AtTmp(es), AtTmp(fs)))
    ensures at(InPlace(x, Files0(x), fs, blobs, Calls(x, AtTmp(es), AtEdit(true))))
  {
    var w0, w1 := Stored(x, blobs, NoTmp, AtTmp(es), AtTmp(fs)), Stored(x, blobs, Whole(fs), AtTmp(es), AtRename(fs));
    StoredNext(x, blobs, NoTmp, AtTmp(es), AtTmp(fs), Whole(fs), AtTmp(es), AtRename(fs));
    PutTmp(root, w0, 1, w0.calls[1], w1);
    PutManifest(root, w1, 1, w1.calls[1],
      InPlace(x, Files0(x), fs, blobs, Calls(x, AtTmp(es), AtEdit(true))));
  }

  /** And is done. */
  lemma SecondDone(
    at: World -> bool, root: string, x: Pair, files: Files, es: seq<Entry>, fs: seq<Entry>, blobs: map<string, Bytes>)
    requires Closed(at, root) && at(InPlace(x, files, fs, blobs, Calls(x, AtTmp(es), AtEdit(true))))
    requires Covers(LogOf(map[1 := TurnDir(Entries(fs), NoTmp, blobs)]), root, 1, FileOf(x.q))
    ensures at(InPlace(x, files[FileOf(x.q) := x.d], fs, blobs, map[0 := CallP(x, AtTmp(es))]))
  {
    var w0 := InPlace(x, files, fs, blobs, Calls(x, AtTmp(es), AtEdit(true)));
    assert Calls(x, AtTmp(es), AtEdit(true)) - {1} == map[0 := CallP(x, AtTmp(es))];
    PutFile(root, w0, 1, w0.calls[1],
      InPlace(x, files[FileOf(x.q) := x.d], fs, blobs, map[0 := CallP(x, AtTmp(es))]));
  }

  /** The first puts its own manifest over it. */
  lemma FirstPut(
    at: World -> bool, root: string, x: Pair, files: Files, es: seq<Entry>, fs: seq<Entry>, blobs: map<string, Bytes>)
    requires Closed(at, root) && at(InPlace(x, files, fs, blobs, map[0 := CallP(x, AtTmp(es))]))
    ensures at(InPlace(x, files, es, blobs, map[0 := CallP(x, AtEdit(true))]))
  {
    var w0 := InPlace(x, files, fs, blobs, map[0 := CallP(x, AtTmp(es))]);
    var w1 := Turn1(x, files, map[1 := TurnDir(Entries(fs), Whole(es), blobs)],
      map[0 := CallP(x, AtRename(es))]);
    PutTmp(root, w0, 0, w0.calls[0], w1);
    PutManifest(root, w1, 0, w1.calls[0],
      InPlace(x, files, es, blobs, map[0 := CallP(x, AtEdit(true))]));
  }

  lemma FirstDone(at: World -> bool, root: string, x: Pair, files: Files, es: seq<Entry>, blobs: map<string, Bytes>)
    requires Closed(at, root) && at(InPlace(x, files, es, blobs, map[0 := CallP(x, AtEdit(true))]))
    requires Covers(LogOf(map[1 := TurnDir(Entries(es), NoTmp, blobs)]), root, 1, FileOf(x.p))
    ensures at(InPlace(x, files[FileOf(x.p) := x.c], es, blobs, map[]))
  {
    var w0 := InPlace(x, files, es, blobs, map[0 := CallP(x, AtEdit(true))]);
    PutFile(root, w0, 0, w0.calls[0],
      InPlace(x, files[FileOf(x.p) := x.c], es, blobs, map[]));
  }

  /** Both are done. */
  function Over(x: Pair): World {
    InPlace(x, Files0(x)[FileOf(x.q) := x.d][FileOf(x.p) := x.c], Only(x.p), BlobsOf(x), map[])
  }

  lemma PlaceCovers(root: string, path: string, blobs: map<string, Bytes>)
    requires WithinRoot(root, path) && BlobName(0) in blobs
    ensures Covers(LogOf(map[1 := TurnDir(Entries(Only(path)), NoTmp, blobs)]), root, 1, FileOf(path))
  {
    LoggedOnce(path, blobs);
    OnceCovers(root, path, blobs[BlobName(0)]);
  }

  lemma BothDone(at: World -> bool, root: string, x: Pair)
    requires Closed(at, root) && at(Start(Files0(x))) && PairOk(root, x)
    ensures at(Over(x))
  {
    var es, fs, blobs := Only(x.p), Only(x.q), BlobsOf(x);
    BothBegun(at, root, x);
    SecondPut(at, root, x, es, fs, blobs);
    PlaceCovers(root, x.q, blobs);
    SecondDone(at, root, x, Files0(x), es, fs, blobs);
    FirstPut(at, root, x, Files0(x)[FileOf(x.q) := x.d], es, fs, blobs);
    PlaceCovers(root, x.p, blobs);
    FirstDone(at, root, x, Files0(x)[FileOf(x.q) := x.d], es, blobs);
  }

  // ---------------------------------------------------------------------------
  // What a rewind then does
  // ---------------------------------------------------------------------------

  /** Every backup succeeded and nothing counts as lost, the manifest is whole and consistent, but
      restoring the state before the turn gives the first file what the second held, and leaves the
      second as it was changed. */
  ghost predicate Misled(w: World, root: string, x: Pair) {
    && w.calls == map[] && w.lost == {} && w.ends == map[0 := Files0(x)]
    && (forall t | t in w.turns :: DirOk(w.turns[t]))
    && (forall t | t in LogOf(w.turns) :: OneNameEach(LogOf(w.turns)[t])) && Consistent(LogOf(w.turns), root, 0)
    && forall after | Restored(LogOf(w.turns), root, 0, w.files, after) ::
         Lookup(after, FileOf(x.p)) == Has(x.b) && Lookup(after, FileOf(x.q)) == Has(x.d)
  }

  lemma RestoredOnce(root: string, path: string, bytes: Bytes, before: Files, after: Files, f: Place)
    requires WithinRoot(root, path) && Restored(Recorded1(path, bytes), root, 0, before, after)
    ensures Lookup(after, f) == if f == FileOf(path) then Has(bytes) else Lookup(before, f)
  {
    var log, b := Recorded1(path, bytes), Backup(path, Has(bytes));
    assert Undone(log, root, 0, f, Last, Lookup(before, f), Lookup(after, f));
    assert [b][..0] == [] && [b][1..] == [];
    if f == FileOf(path) {
      OnceCovers(root, path, bytes);
      assert Oldest(log, root, 0, f, 1);
    } else {
      assert Untouched(log, root, 0, f);
    }
  }

  lemma OverMisleads(root: string, x: Pair)
    requires PairOk(root, x)
    ensures Misled(Over(x), root, x)
  {
    var w := Over(x);
    LoggedOnce(x.p, BlobsOf(x));
    OneNameConsistent(LogOf(w.turns), root, 0);
    forall after | Restored(LogOf(w.turns), root, 0, w.files, after)
      ensures Lookup(after, FileOf(x.p)) == Has(x.b) && Lookup(after, FileOf(x.q)) == Has(x.d)
    {
      RestoredOnce(root, x.p, x.b, w.files, after, FileOf(x.p));
      RestoredOnce(root, x.p, x.b, w.files, after, FileOf(x.q));
    }
  }

  /** Any two files of the project: two writes of one response can mislead a rewind. */
  lemma OverlapMisleads(root: string, x: Pair)
    requires PairOk(root, x)
    ensures exists w :: Reachable(Files0(x), root, w) && Misled(w, root, x)
  {
    ReachableClosed(Files0(x), root);
    BothDone(w => Reachable(Files0(x), root, w), root, x);
    OverMisleads(root, x);
  }

  /** Such a restore gives back the project exactly when the two files held the same and the second was
      not changed at all. */
  lemma MisledExact(w: World, root: string, x: Pair, after: Files)
    requires PairOk(root, x) && Misled(w, root, x) && Restored(LogOf(w.turns), root, 0, w.files, after)
    requires after.Keys == Files0(x).Keys
    ensures after == w.ends[0] <==> x.a == x.b && x.b == x.d
  {
    var f, g := FileOf(x.p), FileOf(x.q);
    assert Files0(x)[f] == x.a && Files0(x)[g] == x.b;
    assert Lookup(after, f) == Has(after[f]) && Lookup(after, g) == Has(after[g]);
  }

  /** The manifest of the turn cannot be read, and no restore of an earlier turn succeeds. */
  ghost predicate TornApart(w: World, root: string) {
    1 in w.turns && w.turns[1].manifest.CorruptManifest? && !Undoable(w.turns[1], root)
  }

  /** The second starts writing the temporary manifest that the first has finished. */
  lemma TornWrite(at: World -> bool, root: string, x: Pair, es: seq<Entry>, fs: seq<Entry>, blobs: map<string, Bytes>)
    requires Closed(at, root) && at(Stored(x, blobs, NoTmp, AtTmp(es), AtTmp(fs)))
    ensures at(Stored(x, blobs, Torn, AtRename(es), AtTmp(fs)))
  {
    var w0, w1 := Stored(x, blobs, NoTmp, AtTmp(es), AtTmp(fs)), Stored(x, blobs, Whole(es), AtRename(es), AtTmp(fs));
    StoredNext(x, blobs, NoTmp, AtTmp(es), AtTmp(fs), Whole(es), AtRename(es), AtTmp(fs));
    PutTmp(root, w0, 0, w0.calls[0], w1);
    StoredNext(x, blobs, Whole(es), AtRename(es), AtTmp(fs), Torn, AtRename(es), AtTmp(fs));
    TearTmp(root, w1, 1, w1.calls[1], Stored(x, blobs, Torn, AtRename(es), AtTmp(fs)));
  }

  function TornWorld(x: Pair, fs: seq<Entry>, blobs: map<string, Bytes>): World {
    Turn1(x, Files0(x), map[1 := TurnDir(CorruptManifest, NoTmp, blobs)], Calls(x, AtEdit(true), AtTmp(fs)))
  }

  lemma TornPut(at: World -> bool, root: string, x: Pair, es: seq<Entry>, fs: seq<Entry>, blobs: map<string, Bytes>)
    requires Closed(at, root) && at(Stored(x, blobs, Torn, AtRename(es), AtTmp(fs)))
    ensures at(TornWorld(x, fs, blobs))
  {
    var w0 := Stored(x, blobs, Torn, AtRename(es), AtTmp(fs));
    PutManifest(root, w0, 0, w0.calls[0], TornWorld(x, fs, blobs));
  }

  /** The first puts in place what the second is still writing. */
  lemma OverlapTears(root: string, x: Pair)
    requires PairOk(root, x)
    ensures exists w :: Reachable(Files0(x), root, w) && TornApart(w, root)
  {
    var at := w => Reachable(Files0(x), root, w);
    ReachableClosed(Files0(x), root);
    BothBegun(at, root, x);
    TornWrite(at, root, x, Only(x.p), Only(x.q), BlobsOf(x));
    TornPut(at, root, x, Only(x.p), Only(x.q), BlobsOf(x));
    assert TornApart(TornWorld(x, Only(x.q), BlobsOf(x)), root);
  }

  // ---------------------------------------------------------------------------
  // There are such files
  // ---------------------------------------------------------------------------

  lemma LetterFile(c: char)
    requires c != '/' && c != '.'
    ensures WithinRoot("/p", "/p/" + [c]) && FileOf("/p/" + [c]) == ["/", "p", [c]] && IsAbsolute("/p/" + [c])
  {
    var comps := ["/", "p", [c]];
    LetterComponents(c);
    DoubledSlash();
    SameComponents("/p", "/p/" + [c], "/p/" + [c], comps);
    NormalizeFollows(comps);
    FollowPlain(comps);
  }

  /** Two writes of /p/a and /p/b can mislead a rewind of the project /p. */
  lemma TwoFiles(a: Bytes, b: Bytes, c: Bytes, d: Bytes)
    ensures PairOk("/p", Pair("/p/a", "/p/b", a, b, c, d))
  {
    LetterFile('a');
    LetterFile('b');
    assert "/p/" + ['a'] == "/p/a" && "/p/" + ['b'] == "/p/b";
    assert ["/", "p", ['a']][2] != ["/", "p", ['b']][2];
  }
}
