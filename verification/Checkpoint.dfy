/** The checkpoint directory of one session and the project it protects, changed in place. Any file
    operation may fail or be cut off, leaving what it had written so far. */
module Checkpoint {
  import opened Wrappers

  import opened Utf8
  import opened Paths
  import opened Rewind
  import opened LineDiff

  /** A manifest entry as it is stored. */
  datatype Entry = Entry(path: string, existedBefore: bool, blob: Option<string>)

  datatype Manifest = NoManifest | Entries(entries: seq<Entry>) | CorruptManifest

  /** manifest.json.tmp: absent, cut off in the middle of a write, or whole. */
  datatype Tmp = NoTmp | Torn | Whole(entries: seq<Entry>)

  datatype TurnDir = TurnDir(manifest: Manifest, tmp: Tmp, blobs: map<string, Bytes>)

  datatype Error = NonAbsolutePath | Corrupt | Io | NotFound

  datatype Result<T> = Ok(value: T) | Err(error: Error)

  const NewTurn := TurnDir(NoManifest, NoTmp, map[])

  // ---------------------------------------------------------------------------
  // What a directory records
  // ---------------------------------------------------------------------------

  predicate Readable(dir: TurnDir, e: Entry) {
    e.existedBefore ==> e.blob.Some? && e.blob.value in dir.blobs
  }

  function Recorded(dir: TurnDir, e: Entry): Backup {
    Backup(e.path, if e.existedBefore && Readable(dir, e) then Has(dir.blobs[e.blob.value]) else Missing)
  }

  function EntriesIn(dir: TurnDir): seq<Entry> {
    if dir.manifest.Entries? then dir.manifest.entries else []
  }

  function View(dir: TurnDir): (r: seq<Backup>)
    ensures |r| == |EntriesIn(dir)|
  {
    seq(|EntriesIn(dir)|, i requires 0 <= i < |EntriesIn(dir)| => Recorded(dir, EntriesIn(dir)[i]))
  }

  /** A manifest is whole, names no path twice, and every file that existed has its own blob. */
  predicate DirOk(dir: TurnDir) {
    && !dir.manifest.CorruptManifest?
    && var es := EntriesIn(dir);
      && (forall i, j | 0 <= i < j < |es| :: es[i].path != es[j].path)
      && (forall i | 0 <= i < |es| ::
            if es[i].existedBefore then es[i].blob == Some(BlobName(i)) && BlobName(i) in dir.blobs
              else es[i].blob.None?)
  }

  predicate HasName(entries: seq<Entry>, path: string) {
    exists i | 0 <= i < |entries| :: entries[i].path == path
  }

  /** Whatever the temporary file holds has become the manifest. */
  function Renamed(dir: TurnDir): TurnDir {
    dir.(tmp := NoTmp, manifest := if dir.tmp.Whole? then Entries(dir.tmp.entries) else CorruptManifest)
  }

  function DirAt(turns: map<nat, TurnDir>, t: nat): TurnDir {
    if t in turns then turns[t] else NewTurn
  }

  function LogOf(turns: map<nat, TurnDir>): Log {
    map t | t in turns && turns[t].manifest.Entries? :: View(turns[t])
  }

  /** No two entries that need a blob share one. */
  lemma BlobsNotShared(dir: TurnDir, i: nat, j: nat)
    requires DirOk(dir) && i < j < |EntriesIn(dir)|
    requires EntriesIn(dir)[i].existedBefore && EntriesIn(dir)[j].existedBefore
    ensures EntriesIn(dir)[i].blob != EntriesIn(dir)[j].blob
  {
    BlobNamesDistinct(i, j);
  }

  /** Writing the next blob, whole or cut off, touches nothing a manifest refers to. */
  lemma NextBlobFree(dir: TurnDir, bytes: Bytes)
    requires DirOk(dir)
    ensures var after := dir.(blobs := dir.blobs[BlobName(|EntriesIn(dir)|) := bytes]);
      DirOk(after) && View(after) == View(dir)
  {
    var n := |EntriesIn(dir)|;
    var after := dir.(blobs := dir.blobs[BlobName(n) := bytes]);
    forall i | 0 <= i < n ensures Recorded(after, EntriesIn(dir)[i]) == Recorded(dir, EntriesIn(dir)[i]) {
      BlobNamesDistinct(i, n);
    }
  }

  /** Writing any blob, as a call that read an older manifest may, keeps what the turn records exactly
      when no entry uses the name for a file with other content. */
  lemma BlobExact(dir: TurnDir, n: nat, bytes: Bytes)
    requires DirOk(dir)
    ensures View(dir.(blobs := dir.blobs[BlobName(n) := bytes])) == View(dir) <==>
      (n < |EntriesIn(dir)| && EntriesIn(dir)[n].existedBefore ==> dir.blobs[BlobName(n)] == bytes)
  {
    var es := EntriesIn(dir);
    var after := dir.(blobs := dir.blobs[BlobName(n) := bytes]);
    forall i | 0 <= i < |es| && i != n ensures Recorded(after, es[i]) == Recorded(dir, es[i]) {
      BlobNamesDistinct(i, n);
    }
    if n < |es| {
      assert View(after)[n] == Recorded(after, es[n]) && View(dir)[n] == Recorded(dir, es[n]);
    }
  }

  /** An entry whose blob is in place under the next name can be added. */
  lemma EntryAdded(dir: TurnDir, e: Entry)
    requires DirOk(dir) && !HasName(EntriesIn(dir), e.path)
    requires if e.existedBefore
      then e.blob == Some(BlobName(|EntriesIn(dir)|)) && BlobName(|EntriesIn(dir)|) in dir.blobs
      else e.blob.None?
    ensures var after := dir.(manifest := Entries(EntriesIn(dir) + [e]));
      DirOk(after) && View(after) == View(dir) + [Recorded(after, e)]
    ensures !HasEntry(View(dir), e.path)
  {
    ViewAppended(dir, e);
    forall i | 0 <= i < |View(dir)| ensures View(dir)[i].path != e.path { }
  }

  lemma EntryAppended(dir: TurnDir, e: Entry, files: Files)
    requires DirOk(dir) && !HasName(EntriesIn(dir), e.path)
    requires e.existedBefore <==> FileOf(e.path) in files
    requires if e.existedBefore
      then e.blob == Some(BlobName(|EntriesIn(dir)|)) && BlobName(|EntriesIn(dir)|) in dir.blobs
           && dir.blobs[BlobName(|EntriesIn(dir)|)] == files[FileOf(e.path)]
      else e.blob.None?
    ensures var after := dir.(manifest := Entries(EntriesIn(dir) + [e]));
      DirOk(after) && View(after) == BackedUp(View(dir), e.path, files)
  {
    EntryAdded(dir, e);
    var after := dir.(manifest := Entries(EntriesIn(dir) + [e]));
    assert Recorded(after, e) == Backup(e.path, Lookup(files, FileOf(e.path)));
  }

  lemma ViewAppended(dir: TurnDir, e: Entry)
    ensures var after := dir.(manifest := Entries(EntriesIn(dir) + [e]));
      View(after) == View(dir) + [Recorded(after, e)]
  {
  }

  // ---------------------------------------------------------------------------
  // Replaying
  // ---------------------------------------------------------------------------

  /** Replaying the first n entries of a turn in order turned `before` into `now`. */
  ghost predicate Replayed(entries: seq<Backup>, root: string, before: Files, now: Files) {
    forall f ::
      match Last(entries, root, f)
      case Prior(c) => Lookup(now, f) == c
      case Nothing => Lookup(now, f) == Lookup(before, f)
  }

  lemma ReplayedNone(entries: seq<Backup>, root: string, files: Files)
    ensures Replayed(entries[..0], root, files, files) && InProject(entries[..0], root) == 0
  {
    assert entries[..0] == [];
  }

  lemma ReplayedAll(entries: seq<Backup>, root: string, before: Files, now: Files)
    requires Replayed(entries[..|entries|], root, before, now)
    ensures entries[..|entries|] == entries
    ensures forall f | Last(entries, root, f).Nothing? :: Lookup(now, f) == Lookup(before, f)
  {
    assert entries[..|entries|] == entries;
  }

  /** The file of one entry gets back what was recorded, unless it lies outside the project. */
  function GivenBack(root: string, b: Backup, files: Files): Files {
    if WithinRoot(root, b.path) then Write(files, FileOf(b.path), b.prior) else files
  }

  function CountOf(root: string, b: Backup): nat {
    if WithinRoot(root, b.path) then 1 else 0
  }

  lemma GivenBackLookup(root: string, b: Backup, files: Files, f: Place)
    ensures Lookup(GivenBack(root, b, files), f) == if Names(root, b, f) then b.prior else Lookup(files, f)
  {
  }

  lemma ReplayOne(entries: seq<Backup>, b: Backup, root: string, before: Files, now: Files)
    requires Replayed(entries, root, before, now)
    ensures Replayed(entries + [b], root, before, GivenBack(root, b, now))
  {
    forall f
      ensures match Last(entries + [b], root, f)
        case Prior(c) => Lookup(GivenBack(root, b, now), f) == c
        case Nothing => Lookup(GivenBack(root, b, now), f) == Lookup(before, f)
    {
      LastAppend(entries, b, root, f);
      GivenBackLookup(root, b, now, f);
    }
  }

  /** The turns of `done` have been undone, newest first. */
  function Part(log: Log, done: set<nat>): Log {
    map t | t in log && t in done :: log[t]
  }

  /** Undoing the next older turn: what it recorded wins over everything newer. */
  lemma UndoOlder(log: Log, root: string, target: nat, done: set<nat>, t: nat, before: Files, mid: Files, now: Files)
    requires Restored(Part(log, done), root, target, before, mid)
    requires t > target && forall u | u in done :: u > t
    requires Replayed(EntriesOf(log, t), root, mid, now)
    ensures Restored(Part(log, done + {t}), root, target, before, now)
  {
    var small, big := Part(log, done), Part(log, done + {t});
    forall f ensures Undone(big, root, target, f, Last, Lookup(before, f), Lookup(now, f)) {
      LastFinds(EntriesOf(log, t), root, f);
      assert Undone(small, root, target, f, Last, Lookup(before, f), Lookup(mid, f));
      assert forall u | u != t :: Covers(big, root, u, f) <==> Covers(small, root, u, f);
      if Covers(big, root, t, f) {
        forall u | Oldest(big, root, target, f, u) ensures u == t { }
      } else {
        forall u | Oldest(big, root, target, f, u) ensures Oldest(small, root, target, f, u) { }
        assert Untouched(big, root, target, f) ==> Untouched(small, root, target, f);
      }
    }
  }

  /** Turns without a manifest, or not above the target, do not matter. */
  lemma AllUndone(log: Log, root: string, target: nat, done: set<nat>, before: Files, now: Files)
    requires Restored(Part(log, done), root, target, before, now)
    requires forall t | t in log && t > target :: t in done
    ensures Restored(log, root, target, before, now)
  {
    var part := Part(log, done);
    forall f ensures Undone(log, root, target, f, Last, Lookup(before, f), Lookup(now, f)) {
      assert Undone(part, root, target, f, Last, Lookup(before, f), Lookup(now, f));
      assert forall u | u > target :: Covers(part, root, u, f) <==> Covers(log, root, u, f);
      assert forall u :: Oldest(log, root, target, f, u) ==> Oldest(part, root, target, f, u);
      assert Untouched(log, root, target, f) ==> Untouched(part, root, target, f);
    }
  }

  lemma PartCovered(log: Log, root: string, target: nat, done: set<nat>, before: Files, now: Files)
    requires OnlyCoveredDiffer(Part(log, done), root, target, before, now)
    ensures OnlyCoveredDiffer(log, root, target, before, now)
  {
    var part := Part(log, done);
    assert forall f, u | Covers(part, root, u, f) :: Covers(log, root, u, f);
    assert forall f | Untouched(log, root, target, f) :: Untouched(part, root, target, f);
  }

  predicate Replayable(dir: TurnDir, i: nat, root: string)
    requires i < |EntriesIn(dir)|
  {
    Givable(dir, EntriesIn(dir)[i], root)
  }

  predicate Givable(dir: TurnDir, e: Entry, root: string) {
    WithinRoot(root, e.path) ==> Readable(dir, e)
  }

  /** The directory's manifest can be read, and so can every blob its project files need. */
  predicate Undoable(dir: TurnDir, root: string) {
    !dir.manifest.CorruptManifest? && forall i | 0 <= i < |EntriesIn(dir)| :: Replayable(dir, i, root)
  }

  lemma UpTo(log: Log, root: string, target: nat, ts: seq<nat>, i: nat, before: Files, now: Files)
    requires i < |ts| && Descending(ts) && Restored(Part(log, Elements(ts[..i])), root, target, before, now)
    ensures OnlyCoveredDiffer(log, root, target, before, now)
    ensures Elements(ts[..i + 1]) == Elements(ts[..i]) + {ts[i]} && forall u | u in Elements(ts[..i]) :: u > ts[i]
    ensures Total(log, root, ts[..i + 1]) == Total(log, root, ts[..i]) + InProject(EntriesOf(log, ts[i]), root)
  {
    RestoredOnlyCovered(Part(log, Elements(ts[..i])), root, target, before, now);
    PartCovered(log, root, target, Elements(ts[..i]), before, now);
    assert ts[..i + 1] == ts[..i] + [ts[i]];
    assert ts[..i + 1][..i] == ts[..i];
  }

  /** Turn numbers, newest first. */
  predicate Descending(ts: seq<nat>) {
    forall i, j | 0 <= i < j < |ts| :: ts[i] > ts[j]
  }

  // ---------------------------------------------------------------------------
  // The session
  // ---------------------------------------------------------------------------

  class Session {
    var files: Files
    var turns: map<nat, TurnDir>

    /** How often a file operation has failed or been cut off. */
    ghost var failures: nat

    constructor (files: Files)
      ensures this.files == files && turns == map[]
    {
      this.files := files;
      turns := map[];
      failures := 0;
    }

    /** Whether the next file operation fails. */
    method Fails() returns (failed: bool)
      modifies this`failures
      ensures failures == old(failures) + if failed then 1 else 0
    {
      failed := *;
      if failed {
        failures := failures + 1;
      }
    }

    ghost predicate OnlyTurn(t: nat, before: map<nat, TurnDir>)
      reads this
    {
      forall u | u != t :: (u in turns <==> u in before) && (u in turns ==> turns[u] == before[u])
    }

    // -------------------------------------------------------------------------
    // backup_file
    // -------------------------------------------------------------------------

    /** A write that may be cut off, leaving any bytes. */
    method WriteBlob(t: nat, name: string, bytes: Bytes) returns (done: bool, ghost written: Bytes)
      modifies this`turns, this`failures
      ensures failures >= old(failures) && (!done ==> failures > old(failures))
      ensures OnlyTurn(t, old(turns)) && t in turns
      ensures var dir := DirAt(old(turns), t);
        turns[t] == dir.(blobs := dir.blobs[name := written]) || (!done && turns[t] == dir)
      ensures done ==> written == bytes
    {
      var dir := DirAt(turns, t);
      turns := turns[t := dir];
      written := bytes;
      var refused := Fails();
      if refused {
        return false, written;
      }
      var cut := Fails();
      done := !cut;
      var torn: Bytes := *;
      var data := if done then bytes else torn;
      turns := turns[t := dir.(blobs := dir.blobs[name := data])];
      written := data;
    }

    /** The manifest is written beside the old one and renamed over it. */
    method WriteManifestAtomic(t: nat, entries: seq<Entry>) returns (done: bool)
      modifies this`turns, this`failures
      ensures failures >= old(failures) && (!done ==> failures > old(failures))
      ensures OnlyTurn(t, old(turns)) && t in turns && turns[t].blobs == DirAt(old(turns), t).blobs
      ensures turns[t].manifest == Entries(entries) || (!done && turns[t].manifest == DirAt(old(turns), t).manifest)
    {
      var dir := DirAt(turns, t);
      turns := turns[t := dir];
      var failed := Fails();
      if failed {
        return false;
      }
      turns := turns[t := turns[t].(tmp := Torn)];
      failed := Fails();
      if failed {
        return false;
      }
      turns := turns[t := turns[t].(tmp := Whole(entries))];
      failed := Fails();
      if failed {
        return false;
      }
      Rename(t);
      failed := Fails();
      done := !failed;
    }

    method Rename(t: nat)
      requires t in turns && !turns[t].tmp.NoTmp?
      modifies this`turns
      ensures turns == old(turns)[t := Renamed(old(turns)[t])]
    {
      var dir := turns[t];
      turns :=
        turns[t :=
          dir.(tmp := NoTmp, manifest := match dir.tmp case Whole(es) => Entries(es) case _ => CorruptManifest)];
    }

    /** Records the file before it is first changed in the turn. Wherever it stops, the turn's
        manifest is whole and records what it did before, with this file added or not. */
    method BackupFile(t: nat, path: string) returns (r: Result<()>)
      modifies this`turns, this`failures
      ensures OnlyTurn(t, old(turns)) && failures >= old(failures)
      ensures r.Err? ==> failures > old(failures) || !IsAbsolute(path) || DirAt(old(turns), t).manifest.CorruptManifest?
      ensures !IsAbsolute(path) <==> r == Err(NonAbsolutePath)
      ensures DirAt(old(turns), t).manifest.CorruptManifest? ==> r.Err? && turns == old(turns)
      ensures DirOk(DirAt(old(turns), t)) ==>
        var before, after := DirAt(old(turns), t), DirAt(turns, t);
        && DirOk(after)
        && (View(after) == View(before) || View(after) == BackedUp(View(before), path, files))
        && (r.Ok? ==> View(after) == BackedUp(View(before), path, files) && t in turns && turns[t].manifest.Entries?)
        && (forall i | 0 <= i < |EntriesIn(before)| ::
             i < |EntriesIn(after)| && EntriesIn(after)[i] == EntriesIn(before)[i])
    {
      if !IsAbsolute(path) {
        return Err(NonAbsolutePath);
      }
      var failed := Fails();
      if failed {
        return Err(Io);
      }
      var dir := DirAt(turns, t);
      if dir.manifest.CorruptManifest? {
        return Err(Corrupt);
      }
      var entries := EntriesIn(dir);
      if HasName(entries, path) {
        NamedStays(dir, path);
        return Ok(());
      }
      var existedBefore := FileOf(path) in files;
      var blob := None;
      if existedBefore {
        var name := BlobName(|entries|);
        var done, written := WriteBlob(t, name, files[FileOf(path)]);
        if DirOk(dir) { NextBlobFree(dir, written); }
        if !done {
          return Err(Io);
        }
        blob := Some(name);
      }
      ghost var stored := DirAt(turns, t);
      var entry := Entry(path, existedBefore, blob);
      var done := WriteManifestAtomic(t, entries + [entry]);
      if DirOk(dir) {
        EntryAppended(stored, entry, files);
        SameRecord(turns[t],
          if turns[t].manifest == stored.manifest then stored else stored.(manifest := Entries(entries + [entry])));
      }
      r := if done then Ok(()) else Err(Io);
    }

    // -------------------------------------------------------------------------
    // restore_to
    // -------------------------------------------------------------------------

    /** list_turn_numbers, filtered to those above the target and sorted newest first. */
    method TurnsAbove(target: nat) returns (ts: seq<nat>)
      ensures Descending(ts) && forall t :: t in ts <==> t in turns && t > target
    {
      ts := [];
      var todo := turns.Keys;
      while todo != {}
        invariant Descending(ts) && todo <= turns.Keys
        invariant forall t :: t in ts <==> t in turns && t > target && t !in todo
      {
        var t :| t in todo;
        if t > target {
          ts := InsertDescending(t, ts);
        }
        todo := todo - {t};
      }
    }

    method InsertDescending(t: nat, ts: seq<nat>) returns (r: seq<nat>)
      requires Descending(ts) && t !in ts
      ensures Descending(r) && forall u :: u in r <==> u == t || u in ts
    {
      var i := 0;
      while i < |ts| && ts[i] > t
        invariant 0 <= i <= |ts| && forall j | 0 <= j < i :: ts[j] > t
      {
        i := i + 1;
      }
      assert forall j | i <= j < |ts| :: ts[j] in ts && ts[j] < t;
      r := ts[..i] + [t] + ts[i..];
    }

    /** Gives one entry's file back what was recorded for it, unless it lies outside the project. */
    method UndoEntry(dir: TurnDir, entry: Entry, root: string) returns (r: Result<nat>)
      modifies this`files, this`failures
      ensures failures >= old(failures) && (r.Err? && Givable(dir, entry, root) ==> failures > old(failures))
      ensures r.Ok? ==>
        files == GivenBack(root, Recorded(dir, entry), old(files)) && r.value == CountOf(root, Recorded(dir, entry))
      ensures r.Err? ==> files == old(files)
      ensures !Givable(dir, entry, root) ==> r.Err?
    {
      var within := IsWithinRoot(root, entry.path);
      if !within {
        return Ok(0);
      }
      var failed := Fails();
      if failed {
        return Err(Io);
      }
      if !entry.existedBefore {
        files := files - {FileOf(entry.path)};
      } else {
        if entry.blob.None? {
          return Err(Corrupt);
        }
        if entry.blob.value !in dir.blobs {
          return Err(Io);
        }
        files := files[FileOf(entry.path) := dir.blobs[entry.blob.value]];
      }
      r := Ok(1);
    }

    /** Replays one turn's entries and counts the project files rewritten or removed. */
    method UndoTurn(dir: TurnDir, root: string) returns (r: Result<nat>)
      modifies this`files, this`failures
      ensures failures >= old(failures)
      ensures r.Err? ==> failures > old(failures) || exists i | 0 <= i < |EntriesIn(dir)| :: !Replayable(dir, i, root)
      ensures r.Ok? ==> Replayed(View(dir), root, old(files), files) && r.value == InProject(View(dir), root)
      ensures forall f | Last(View(dir), root, f).Nothing? :: Lookup(files, f) == Lookup(old(files), f)
      ensures r.Ok? ==> forall i | 0 <= i < |EntriesIn(dir)| :: Replayable(dir, i, root)
    {
      var changed: nat := 0;
      ReplayedNone(View(dir), root, files);
      for i := 0 to |EntriesIn(dir)|
        invariant failures >= old(failures)
        invariant Replayed(View(dir)[..i], root, old(files), files) && changed == InProject(View(dir)[..i], root)
        invariant forall j | 0 <= j < i :: Replayable(dir, j, root)
      {
        var undone := UndoNext(dir, i, root, old(files));
        if undone.Err? {
          return undone;
        }
        changed := changed + undone.value;
      }
      ReplayedAll(View(dir), root, old(files), files);
      r := Ok(changed);
    }

    method UndoNext(dir: TurnDir, i: nat, root: string, ghost before: Files) returns (r: Result<nat>)
      requires i < |EntriesIn(dir)| && Replayed(View(dir)[..i], root, before, files)
      modifies this`files, this`failures
      ensures failures >= old(failures) && (r.Err? ==> failures > old(failures) || !Replayable(dir, i, root))
      ensures r.Err? ==> forall f | Last(View(dir), root, f).Nothing? :: Lookup(files, f) == Lookup(before, f)
      ensures r.Ok? ==> Replayable(dir, i, root) && Replayed(View(dir)[..i + 1], root, before, files)
      ensures r.Ok? ==> InProject(View(dir)[..i + 1], root) == InProject(View(dir)[..i], root) + r.value
    {
      NextBackup(View(dir), i, root, before, files);
      r := UndoEntry(dir, EntriesIn(dir)[i], root);
    }

    method UndoDir(t: nat, root: string) returns (r: Result<nat>)
      requires t in turns
      modifies this`files, this`failures
      ensures failures >= old(failures) && (r.Err? && Undoable(turns[t], root) ==> failures > old(failures))
      ensures r.Ok? ==> Replayed(EntriesOf(LogOf(turns), t), root, old(files), files)
      ensures r.Ok? ==> r.value == InProject(EntriesOf(LogOf(turns), t), root)
      ensures forall f | Last(EntriesOf(LogOf(turns), t), root, f).Nothing? :: Lookup(files, f) == Lookup(old(files), f)
      ensures !Undoable(turns[t], root) ==> r.Err?
    {
      var failed := Fails();
      if failed {
        return Err(Io);
      }
      var dir := turns[t];
      match dir.manifest
      case CorruptManifest => r := Err(Corrupt);
      case NoManifest => r := Ok(0);
      case Entries(_) => r := UndoTurn(dir, root);
    }

    /** Undoes every turn above the target, newest first. Success means the project is as the
        backups say; wherever it stops, only files the backups cover have changed. */
    method RestoreTo(target: nat, root: string) returns (r: Result<nat>)
      modifies this`files, this`failures
      ensures failures >= old(failures)
      ensures r.Err? && (forall t | t in turns :: t > target ==> Undoable(turns[t], root)) ==> failures > old(failures)
      ensures r.Ok? ==> Restored(LogOf(turns), root, target, old(files), files)
      ensures r.Ok? ==>
        exists ts ::
          Descending(ts) && (forall t :: t in ts <==> t in turns && t > target) &&
            r.value == Total(LogOf(turns), root, ts)
      ensures OnlyCoveredDiffer(LogOf(turns), root, target, old(files), files)
      ensures (exists t | t in turns :: t > target && !Undoable(turns[t], root)) ==> r.Err?
    {
      ghost var log := LogOf(turns);
      var ts := TurnsAbove(target);
      var changed: nat := 0;
      for i := 0 to |ts|
        invariant failures >= old(failures) && changed == Total(log, root, ts[..i])
        invariant Restored(Part(log, Elements(ts[..i])), root, target, old(files), files)
        invariant forall j | 0 <= j < i :: Undoable(turns[ts[j]], root)
      {
        ghost var mid := files;
        UpTo(log, root, target, ts, i, old(files), files);
        assert ts[i] in ts;
        var undone := UndoDir(ts[i], root);
        if undone.Err? {
          TurnCovered(log, root, target, ts[i], old(files), mid, files);
          return undone;
        }
        UndoOlder(log, root, target, Elements(ts[..i]), ts[i], old(files), mid, files);
        changed := changed + undone.value;
      }
      assert ts[..|ts|] == ts;
      AllUndone(log, root, target, Elements(ts), old(files), files);
      RestoredOnlyCovered(log, root, target, old(files), files);
      r := Ok(changed);
    }

    // -------------------------------------------------------------------------
    // delete_from
    // -------------------------------------------------------------------------

    /** Removing a directory may stop in the middle. */
    method RemoveTurn(t: nat) returns (done: bool)
      requires t in turns
      modifies this`turns, this`failures
      ensures failures >= old(failures) && (!done ==> failures > old(failures))
      ensures OnlyTurn(t, old(turns)) && (done ==> t !in turns)
      ensures t in turns ==> turns[t].manifest == old(turns)[t].manifest || turns[t].manifest.NoManifest?
    {
      var dir := turns[t];
      var kept: set<string> := *;
      var manifestKept: bool := *;
      turns := turns[t := dir.(blobs := map b | b in dir.blobs && b in kept :: dir.blobs[b],
                               manifest := if manifestKept then dir.manifest else NoManifest)];
      var failed := Fails();
      done := !failed;
      if done {
        turns := turns - {t};
      }
    }

    method RemoveTurns(doomed: set<nat>) returns (done: bool, deleted: nat)
      requires doomed <= turns.Keys
      modifies this`turns, this`failures
      ensures failures >= old(failures) && (!done ==> failures > old(failures))
      ensures turns.Keys <= old(turns).Keys
      ensures forall u | u in old(turns) && u !in doomed :: u in turns && turns[u] == old(turns)[u]
      ensures done ==> turns.Keys == old(turns).Keys - doomed && deleted == |doomed|
    {
      deleted := 0;
      var todo := doomed;
      while todo != {}
        invariant failures >= old(failures) && todo <= doomed && deleted + |todo| == |doomed|
        invariant turns.Keys == old(turns).Keys - (doomed - todo)
        invariant forall u | u in old(turns) && u !in doomed :: turns[u] == old(turns)[u]
      {
        var t :| t in todo;
        done := RemoveTurn(t);
        if !done {
          return;
        }
        todo := todo - {t};
        deleted := deleted + 1;
      }
      done := true;
    }

    method DeleteFrom(from: nat) returns (r: Result<nat>)
      modifies this`turns, this`failures
      ensures failures >= old(failures) && (r.Err? ==> failures > old(failures))
      ensures forall u | u < from :: (u in turns <==> u in old(turns)) && (u in turns ==> turns[u] == old(turns)[u])
      ensures turns.Keys <= old(turns).Keys
      ensures r.Ok? ==>
        turns == (map u | u in old(turns) && u < from :: old(turns)[u]) && r.value == |old(turns).Keys - turns.Keys|
    {
      var doomed := set u | u in turns && u >= from;
      var done, deleted := RemoveTurns(doomed);
      if done {
        assert old(turns).Keys - turns.Keys == doomed;
      }
      r := if done then Ok(deleted) else Err(Io);
    }

    // -------------------------------------------------------------------------
    // The callers
    // -------------------------------------------------------------------------

    /** A mutating tool: the backup first, and the edit even when the backup failed. A backed-up edit
        is one of the timeline. */
    method EditFile(t: nat, path: string, content: Content) returns (backed: bool)
      modifies this
      ensures OnlyTurn(t, old(turns)) && files == Write(old(files), FileOf(path), content)
      ensures !backed ==>
        failures > old(failures) || !IsAbsolute(path) || DirAt(old(turns), t).manifest.CorruptManifest?
      ensures backed && DirOk(DirAt(old(turns), t)) ==> DirOk(DirAt(turns, t))
      ensures backed && DirOk(DirAt(old(turns), t)) ==>
        LogOf(turns) == LogOf(old(turns))[t := BackedUp(EntriesOf(LogOf(old(turns)), t), path, old(files))]
    {
      var r := BackupFile(t, path);
      if r.Ok? && DirOk(DirAt(old(turns), t)) {
        BackupLogged(old(turns), turns, t, path, files);
      }
      files := Write(files, FileOf(path), content);
      backed := r.Ok?;
    }

    /** The rewind command: an error of the restore ends it, one of the pruning is ignored. */
    method RestoreCheckpoint(turn: nat, root: string) returns (r: Result<nat>, ghost pruned: bool)
      modifies this
      ensures failures == old(failures) ==> r.Err? || pruned
      ensures r.Err? && (forall t | t in old(turns) :: t > turn ==> Undoable(old(turns)[t], root)) ==>
        failures > old(failures)
      ensures r.Ok? ==> Restored(LogOf(old(turns)), root, turn, old(files), files)
      ensures r.Err? ==> turns == old(turns) && OnlyCoveredDiffer(LogOf(turns), root, turn, old(files), files)
      ensures r.Ok? && pruned ==> LogOf(turns) == Pruned(LogOf(old(turns)), turn)
      ensures forall u | u <= turn && u in old(turns) :: u in turns && turns[u] == old(turns)[u]
    {
      r := RestoreTo(turn, root);
      if r.Err? {
        return r, false;
      }
      ghost var before := turns;
      var deleted := DeleteFrom(turn + 1);
      pruned := deleted.Ok?;
      if pruned {
        PrunedLog(before, turn);
      }
    }

    /** Rewinding to the message that began a turn: whatever becomes of the restore, the turns it was to
        undo are pruned, and so is the only backup of a file that it did not give back. */
    method RewindToMessage(turn: nat, root: string) returns (restored: bool, pruned: bool)
      modifies this
      ensures OnlyCoveredDiffer(LogOf(old(turns)), root, Before(turn), old(files), files)
      ensures restored ==> Restored(LogOf(old(turns)), root, Before(turn), old(files), files)
      ensures if AllUndoable(old(turns), Before(turn), root) then !restored ==> failures > old(failures) else !restored
      ensures failures == old(failures) ==> pruned
      ensures pruned ==> turns == map u | u in old(turns) && u < turn :: old(turns)[u]
      ensures pruned && turn > 0 ==> LogOf(turns) == Pruned(LogOf(old(turns)), turn - 1)
      ensures forall u | u < turn && u in old(turns) :: u in turns && turns[u] == old(turns)[u]
    {
      restored := TryRestore(Before(turn), root);
      ghost var before := turns;
      var deleted := DeleteFrom(turn);
      pruned := deleted.Ok?;
      if pruned && turn > 0 {
        PrunedLog(before, turn - 1);
      }
    }

    method TryRestore(target: nat, root: string) returns (restored: bool)
      modifies this`files, this`failures
      ensures OnlyCoveredDiffer(LogOf(turns), root, target, old(files), files) && failures >= old(failures)
      ensures restored ==> Restored(LogOf(turns), root, target, old(files), files)
      ensures if AllUndoable(turns, target, root) then !restored ==> failures > old(failures) else !restored
    {
      var r := RestoreTo(target, root);
      restored := r.Ok?;
    }

    // -------------------------------------------------------------------------
    // diff_turn
    // -------------------------------------------------------------------------

    /** The blob of an entry, or nothing, and the file as it is now, or nothing. */
    method ReadBoth(dir: TurnDir, i: nat) returns (r: Result<(Bytes, Bytes)>)
      requires i < |EntriesIn(dir)|
      modifies this`failures
      ensures failures >= old(failures) && (r.Err? && DirOk(dir) ==> failures > old(failures))
      ensures r.Ok? && DirOk(dir) ==>
        r.value == (BytesOf(View(dir)[i].prior), BytesOf(Lookup(files, FileOf(View(dir)[i].path))))
    {
      var entry := EntriesIn(dir)[i];
      var prior: Bytes := [];
      if entry.blob.Some? {
        if entry.blob.value !in dir.blobs {
          return Err(Io);
        }
        prior := dir.blobs[entry.blob.value];
      }
      var unreadable := Fails();
      if unreadable {
        return Err(Io);
      }
      r := Ok((prior, if FileOf(entry.path) in files then files[FileOf(entry.path)] else []));
    }

    method DiffTurn(t: nat) returns (r: Result<Report>)
      modifies this`failures
      ensures r.Err? && t in turns && turns[t].manifest.Entries? && DirOk(turns[t]) ==> failures > old(failures)
      ensures t !in turns || turns[t].manifest.NoManifest? ==> r.Err?
      ensures r.Ok? ==> t in turns && (DirOk(turns[t]) ==> Shows(Describes, r.value, View(turns[t]), files))
      ensures r.Ok? && DirOk(turns[t]) ==> Shows(Reads, r.value, View(turns[t]), files)
    {
      var failed := Fails();
      if failed {
        return Err(Io);
      }
      if t !in turns || turns[t].manifest.NoManifest? {
        return Err(NotFound);
      }
      if turns[t].manifest.CorruptManifest? {
        return Err(Corrupt);
      }
      r := DiffDir(turns[t]);
      if r.Ok? && DirOk(turns[t]) {
        ShowsReads(r.value, View(turns[t]), files);
      }
    }

    method DiffDir(dir: TurnDir) returns (r: Result<Report>)
      modifies this`failures
      ensures failures >= old(failures) && (r.Err? && DirOk(dir) ==> failures > old(failures))
      ensures r.Ok? && DirOk(dir) ==> Shows(Describes, r.value, View(dir), files)
    {
      var entries := EntriesIn(dir);
      var report := NoReport;
      for i := 0 to |entries|
        invariant failures >= old(failures) && (DirOk(dir) ==> Shows(Describes, report, View(dir)[..i], files))
      {
        var both := ReadBoth(dir, i);
        if both.Err? {
          return Err(both.error);
        }
        var prior, current := both.value.0, both.value.1;
        if prior == current {
          if DirOk(dir) { ShowsSame(Describes, report, View(dir), i, files); }
          continue;
        }
        var after := UnifiedFileDiff(entries[i].path, prior, current, report);
        ghost var added :| Describes(added, entries[i].path, prior, current) && after == Plus(report, added);
        if DirOk(dir) { ShowsNext(Describes, report, after, added, View(dir), i, files); }
        report := after.(filesChanged := after.filesChanged + 1);
      }
      assert View(dir)[..|entries|] == View(dir);
      r := Ok(report);
    }
  }

  /** No manifest or blob that a restore of the target needs is unreadable. */
  predicate AllUndoable(turns: map<nat, TurnDir>, target: nat, root: string) {
    forall t | t in turns && t > target :: Undoable(turns[t], root)
  }

  /** The turn before, or 0. */
  function Before(turn: nat): nat {
    if turn == 0 then 0 else turn - 1
  }

  function Total(log: Log, root: string, ts: seq<nat>): nat {
    if ts == [] then 0
    else
      var t := ts[|ts| - 1];
      Total(log, root, ts[..|ts| - 1]) + InProject(EntriesOf(log, t), root)
  }

  lemma PrunedLog(turns: map<nat, TurnDir>, t: nat)
    ensures LogOf(map u | u in turns && u < t + 1 :: turns[u]) == Pruned(LogOf(turns), t)
  {
  }

  lemma BackupLogged(before: map<nat, TurnDir>, after: map<nat, TurnDir>, t: nat, path: string, files: Files)
    requires forall u | u != t :: (u in after <==> u in before) && (u in after ==> after[u] == before[u])
    requires t in after && after[t].manifest.Entries? && View(after[t]) == BackedUp(View(DirAt(before, t)), path, files)
    ensures LogOf(after) == LogOf(before)[t := BackedUp(EntriesOf(LogOf(before), t), path, files)]
  {
    assert View(DirAt(before, t)) == EntriesOf(LogOf(before), t);
  }

  // ---------------------------------------------------------------------------
  // The report of a turn
  // ---------------------------------------------------------------------------

  const NoReport := Report("", 0, 0, 0)

  /** A missing file counts as an empty one. */
  function BytesOf(c: Content): Bytes {
    match c case Missing => [] case Has(bytes) => bytes
  }

  predicate Changed(b: Backup, files: Files) {
    BytesOf(b.prior) != BytesOf(Lookup(files, FileOf(b.path)))
  }

  type Description = (Report, string, Bytes, Bytes) -> bool

  /** The report adds up, in order, what `describes` says of each changed file, and nothing else. */
  ghost predicate Shows(describes: Description, r: Report, entries: seq<Backup>, files: Files)
    decreases |entries|
  {
    if entries == [] then r == NoReport
    else
      var front, b := entries[..|entries| - 1], entries[|entries| - 1];
      if !Changed(b, files) then Shows(describes, r, front, files)
      else exists prev, added ::
        && Shows(describes, prev, front, files)
        && describes(added, b.path, BytesOf(b.prior), BytesOf(Lookup(files, FileOf(b.path))))
        && r == Plus(prev, added).(filesChanged := prev.filesChanged + 1)
  }

  lemma ShowsSame(describes: Description, r: Report, entries: seq<Backup>, i: nat, files: Files)
    requires i < |entries| && Shows(describes, r, entries[..i], files) && !Changed(entries[i], files)
    ensures Shows(describes, r, entries[..i + 1], files)
  {
    assert entries[..i + 1][..i] == entries[..i];
  }

  lemma ShowsNext(
    describes: Description, prev: Report, after: Report, added: Report, entries: seq<Backup>, i: nat, files: Files)
    requires i < |entries| && Shows(describes, prev, entries[..i], files) && Changed(entries[i], files)
    requires describes(added, entries[i].path, BytesOf(entries[i].prior),
      BytesOf(Lookup(files, FileOf(entries[i].path))))
    requires after == Plus(prev, added) && after.filesChanged == prev.filesChanged
    ensures Shows(describes, after.(filesChanged := after.filesChanged + 1), entries[..i + 1], files)
  {
    assert entries[..i + 1][..i] == entries[..i];
  }

  /** What the report adds up to can be read file by file. */
  lemma {:induction false} ShowsReads(r: Report, entries: seq<Backup>, files: Files)
    requires Shows(Describes, r, entries, files)
    ensures Shows(Reads, r, entries, files)
    decreases |entries|
  {
    if entries != [] {
      var front, b := entries[..|entries| - 1], entries[|entries| - 1];
      if Changed(b, files) {
        var now := BytesOf(Lookup(files, FileOf(b.path)));
        var prev, added :| Shows(Describes, prev, front, files) && Describes(added, b.path, BytesOf(b.prior), now)
          && r == Plus(prev, added).(filesChanged := prev.filesChanged + 1);
        ShowsReads(prev, front, files);
        DescribesReads(added, b.path, BytesOf(b.prior), now);
      } else {
        ShowsReads(r, front, files);
      }
    }
  }

  function ChangedCount(entries: seq<Backup>, files: Files): nat {
    if entries == [] then 0
    else ChangedCount(entries[..|entries| - 1], files) + if Changed(entries[|entries| - 1], files) then 1 else 0
  }

  lemma {:induction false} CountsNone(entries: seq<Backup>, files: Files)
    ensures ChangedCount(entries, files) == 0 <==> forall b | b in entries :: !Changed(b, files)
  {
    if entries != [] {
      var front, b := entries[..|entries| - 1], entries[|entries| - 1];
      assert entries == front + [b];
      CountsNone(front, files);
    }
  }

  /** The report counts the changed files; it is empty when there are none. */
  lemma {:induction false} ShowsCounts(describes: Description, r: Report, entries: seq<Backup>, files: Files)
    requires Shows(describes, r, entries, files)
    ensures r.filesChanged == ChangedCount(entries, files)
    ensures r.filesChanged == 0 ==> r == NoReport
    decreases |entries|
  {
    if entries != [] {
      var front, b := entries[..|entries| - 1], entries[|entries| - 1];
      if Changed(b, files) {
        var prev, added :|
          Shows(describes, prev, front, files) &&
            describes(added, b.path, BytesOf(b.prior), BytesOf(Lookup(files, FileOf(b.path))))
          && r == Plus(prev, added).(filesChanged := prev.filesChanged + 1);
        ShowsCounts(describes, prev, front, files);
      } else {
        ShowsCounts(describes, r, front, files);
      }
    }
  }

  /** After a restore, the oldest undone turn shows no change when it names each file in one way and
      all its files lie in the project. */
  lemma DiffAfterRestore(log: Log, root: string, target: nat, t: nat, before: Files, after: Files, r: Report)
    requires Restored(log, root, target, before, after)
    requires t in log && t > target && forall u | u in log && u > target :: u >= t
    requires OneNameEach(log[t]) && forall b | b in log[t] :: WithinRoot(root, b.path)
    requires Shows(Describes, r, log[t], after)
    ensures r == NoReport
  {
    forall b | b in log[t] ensures !Changed(b, after) {
      var i :| 0 <= i < |log[t]| && log[t][i] == b;
      var f := FileOf(b.path);
      assert Names(root, log[t][i], f);
      LastOfOne(log[t], root, i);
      LastFinds(log[t], root, f);
      assert Oldest(log, root, target, f, t);
      assert Undone(log, root, target, f, Last, Lookup(before, f), Lookup(after, f));
    }
    ShowsCounts(Describes, r, log[t], after);
    CountsNone(log[t], after);
  }

  lemma {:induction false} LastOfOne(entries: seq<Backup>, root: string, i: nat)
    requires i < |entries| && OneNameEach(entries) && WithinRoot(root, entries[i].path)
    ensures Last(entries, root, FileOf(entries[i].path)) == Prior(entries[i].prior)
  {
    var n := |entries| - 1;
    if i < n {
      LastOfOne(entries[..n], root, i);
    }
  }

  function InProject(entries: seq<Backup>, root: string): nat {
    if entries == [] then 0
    else InProject(entries[..|entries| - 1], root) + CountOf(root, entries[|entries| - 1])
  }

  lemma InProjectAppend(entries: seq<Backup>, b: Backup, root: string)
    ensures InProject(entries + [b], root) == InProject(entries, root) + CountOf(root, b)
  {
    assert (entries + [b])[..|entries|] == entries;
  }

  lemma NextBackup(entries: seq<Backup>, i: nat, root: string, before: Files, now: Files)
    requires i < |entries| && Replayed(entries[..i], root, before, now)
    ensures Replayed(entries[..i + 1], root, before, GivenBack(root, entries[i], now))
    ensures InProject(entries[..i + 1], root) == InProject(entries[..i], root) + CountOf(root, entries[i])
    ensures forall f | Last(entries, root, f).Nothing? :: Lookup(now, f) == Lookup(before, f)
  {
    ReplayedOthers(entries, i, root, before, now);
    ReplayOne(entries[..i], entries[i], root, before, now);
    InProjectAppend(entries[..i], entries[i], root);
    assert entries[..i + 1] == entries[..i] + [entries[i]];
  }

  lemma ReplayedOthers(entries: seq<Backup>, i: nat, root: string, before: Files, now: Files)
    requires i < |entries| && Replayed(entries[..i], root, before, now)
    ensures forall f | Last(entries, root, f).Nothing? :: Lookup(now, f) == Lookup(before, f)
  {
    PartNothing(entries, i, root);
  }

  lemma PartNothing(entries: seq<Backup>, n: nat, root: string)
    requires n <= |entries|
    ensures forall f | Last(entries, root, f).Nothing? :: Last(entries[..n], root, f).Nothing?
  {
    forall f | Last(entries, root, f).Nothing? ensures Last(entries[..n], root, f).Nothing? {
      LastFinds(entries, root, f);
      LastFinds(entries[..n], root, f);
      FirstFinds(entries, root, f);
      FirstFinds(entries[..n], root, f);
    }
  }

  lemma TurnCovered(log: Log, root: string, target: nat, t: nat, before: Files, mid: Files, now: Files)
    requires OnlyCoveredDiffer(log, root, target, before, mid) && t > target
    requires forall f | Last(EntriesOf(log, t), root, f).Nothing? :: Lookup(now, f) == Lookup(mid, f)
    ensures OnlyCoveredDiffer(log, root, target, before, now)
  {
    forall f | Untouched(log, root, target, f) ensures Lookup(now, f) == Lookup(before, f) {
      assert !Covers(log, root, t, f);
      LastFinds(EntriesOf(log, t), root, f);
    }
  }

  /** The record depends on the manifest and the blobs only. */
  lemma SameRecord(a: TurnDir, b: TurnDir)
    requires a.manifest == b.manifest && a.blobs == b.blobs
    ensures View(a) == View(b) && (DirOk(a) <==> DirOk(b))
  {
  }

  lemma NamedStays(dir: TurnDir, path: string)
    requires HasName(EntriesIn(dir), path)
    ensures HasEntry(View(dir), path) && dir.manifest.Entries?
  {
    var i :| 0 <= i < |EntriesIn(dir)| && EntriesIn(dir)[i].path == path;
    assert View(dir)[i].path == path;
  }
}
