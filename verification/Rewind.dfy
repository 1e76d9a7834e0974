/** What restoring a checkpoint means: backups are first-write-wins within a turn, and restoring
    gives every covered file the content its oldest undone turn recorded for it. */
module Rewind {
  import opened Utf8
  import opened Paths

  datatype Content = Missing | Has(bytes: Bytes)

  /** The project: the files there are, by the place their name leads to. */
  type Files = map<Place, Bytes>

  function Lookup(files: Files, f: Place): Content {
    if f in files then Has(files[f]) else Missing
  }

  function Write(files: Files, f: Place, c: Content): Files {
    match c case Missing => files - {f} case Has(bytes) => files[f := bytes]
  }

  lemma SameFiles(a: Files, b: Files)
    requires forall f :: Lookup(a, f) == Lookup(b, f)
    ensures a == b
  {
    forall f ensures f in a <==> f in b { assert Lookup(a, f) == Lookup(b, f); }
    forall f | f in a ensures a[f] == b[f] { assert Lookup(a, f) == Lookup(b, f); }
  }

  /** One recorded file: the name it was backed up under and what it held. */
  datatype Backup = Backup(path: string, prior: Content)

  type Log = map<nat, seq<Backup>>

  predicate Names(root: string, b: Backup, f: Place) {
    WithinRoot(root, b.path) && FileOf(b.path) == f
  }

  datatype Found = Nothing | Prior(content: Content)

  /** What the first entry naming the file recorded. */
  function First(entries: seq<Backup>, root: string, f: Place): Found {
    if entries == [] then Nothing
    else if Names(root, entries[0], f) then Prior(entries[0].prior)
    else First(entries[1..], root, f)
  }

  /** What the last entry naming the file recorded. Replaying the entries in order leaves this. */
  function Last(entries: seq<Backup>, root: string, f: Place): Found {
    if entries == [] then Nothing
    else if Names(root, entries[|entries| - 1], f) then Prior(entries[|entries| - 1].prior)
    else Last(entries[..|entries| - 1], root, f)
  }

  lemma {:induction false} FirstAppend(entries: seq<Backup>, b: Backup, root: string, f: Place)
    ensures First(entries + [b], root, f) ==
      if First(entries, root, f).Nothing? && Names(root, b, f) then Prior(b.prior) else First(entries, root, f)
  {
    if entries == [] {
      assert entries + [b] == [b] && [b][1..] == [];
    } else {
      assert (entries + [b])[1..] == entries[1..] + [b];
      FirstAppend(entries[1..], b, root, f);
    }
  }

  lemma LastAppend(entries: seq<Backup>, b: Backup, root: string, f: Place)
    ensures Last(entries + [b], root, f) == if Names(root, b, f) then Prior(b.prior) else Last(entries, root, f)
  {
    assert (entries + [b])[..|entries|] == entries;
  }

  lemma {:induction false} FirstFinds(entries: seq<Backup>, root: string, f: Place)
    ensures First(entries, root, f).Prior? <==> exists i | 0 <= i < |entries| :: Names(root, entries[i], f)
  {
    if entries != [] {
      var b, rest := entries[0], entries[1..];
      FirstFinds(rest, root, f);
      NamedInRest(b, rest, root, f);
      assert entries == [b] + rest;
    }
  }

  lemma NamedInRest(b: Backup, rest: seq<Backup>, root: string, f: Place)
    ensures (exists i | 0 <= i < |[b] + rest| :: Names(root, ([b] + rest)[i], f)) <==>
      Names(root, b, f) || exists i | 0 <= i < |rest| :: Names(root, rest[i], f)
  {
    var entries := [b] + rest;
    if Names(root, b, f) {
      assert Names(root, entries[0], f);
    } else if i :| 0 <= i < |rest| && Names(root, rest[i], f) {
      assert Names(root, entries[i + 1], f);
    }
    if i :| 0 <= i < |entries| && Names(root, entries[i], f) {
      assert i > 0 ==> Names(root, rest[i - 1], f);
    }
  }

  lemma {:induction false} LastFinds(entries: seq<Backup>, root: string, f: Place)
    ensures Last(entries, root, f).Prior? <==> First(entries, root, f).Prior?
  {
    if entries != [] {
      var n := |entries| - 1;
      assert entries == entries[..n] + [entries[n]];
      FirstAppend(entries[..n], entries[n], root, f);
      LastFinds(entries[..n], root, f);
    }
  }

  // ---------------------------------------------------------------------------
  // Restoring
  // ---------------------------------------------------------------------------

  predicate Covers(log: Log, root: string, t: nat, f: Place) {
    t in log && First(log[t], root, f).Prior?
  }

  /** The oldest turn above the target that recorded the file. */
  ghost predicate Oldest(log: Log, root: string, target: nat, f: Place, t: nat) {
    t > target && Covers(log, root, t, f) && forall u | target < u < t :: !Covers(log, root, u, f)
  }

  ghost predicate Untouched(log: Log, root: string, target: nat, f: Place) {
    forall u | u > target :: !Covers(log, root, u, f)
  }

  lemma {:induction false} OldestFrom(log: Log, root: string, target: nat, f: Place, t: nat)
    requires t > target && Covers(log, root, t, f)
    ensures exists u :: Oldest(log, root, target, f, u)
    decreases t
  {
    if !Oldest(log, root, target, f, t) {
      var u :| target < u < t && Covers(log, root, u, f);
      OldestFrom(log, root, target, f, u);
    }
  }

  /** The file goes from `before` to `after` when everything above the target is undone: the oldest
      turn wins, and in it the entry `pick` chooses. */
  ghost predicate Undone(
    log: Log, root: string, target: nat, f: Place, pick: (seq<Backup>, string, Place) -> Found, before: Content,
    after: Content)
  {
    && (forall t | Oldest(log, root, target, f, t) :: pick(log[t], root, f) == Prior(after))
    && (Untouched(log, root, target, f) ==> after == before)
  }

  /** restore_to: entries are replayed in order, so the last one naming a file wins in its turn. */
  ghost predicate Restored(log: Log, root: string, target: nat, before: Files, after: Files) {
    forall f :: Undone(log, root, target, f, Last, Lookup(before, f), Lookup(after, f))
  }

  /** The state the files had at the end of the target turn, as far as the backups can tell. */
  ghost predicate StoodAt(log: Log, root: string, target: nat, now: Files, then_: Files) {
    forall f :: Undone(log, root, target, f, First, Lookup(now, f), Lookup(then_, f))
  }

  lemma UndoneUnique(log: Log, root: string, target: nat, f: Place, pick: (seq<Backup>, string, Place) -> Found,
                     before: Content, a: Content, b: Content)
    requires Undone(log, root, target, f, pick, before, a) && Undone(log, root, target, f, pick, before, b)
    ensures a == b
  {
    if !Untouched(log, root, target, f) {
      var u :| u > target && Covers(log, root, u, f);
      OldestFrom(log, root, target, f, u);
    }
  }

  lemma RestoredUnique(log: Log, root: string, target: nat, before: Files, a: Files, b: Files)
    requires Restored(log, root, target, before, a) && Restored(log, root, target, before, b)
    ensures a == b
  {
    forall f ensures Lookup(a, f) == Lookup(b, f) {
      UndoneUnique(log, root, target, f, Last, Lookup(before, f), Lookup(a, f), Lookup(b, f));
    }
    SameFiles(a, b);
  }

  /** Where the project may differ from `before` while or after undoing what is above the target. */
  ghost predicate OnlyCoveredDiffer(log: Log, root: string, target: nat, before: Files, now: Files) {
    forall f | Untouched(log, root, target, f) :: Lookup(now, f) == Lookup(before, f)
  }

  /** A restore that stopped half way, or was repeated, is completed by restoring again. */
  lemma RestoreAgain(log: Log, root: string, target: nat, before: Files, partial: Files, after: Files)
    requires OnlyCoveredDiffer(log, root, target, before, partial)
    ensures Restored(log, root, target, before, after) <==> Restored(log, root, target, partial, after)
  {
    forall f ensures Undone(log, root, target, f, Last, Lookup(before, f), Lookup(after, f)) <==>
                     Undone(log, root, target, f, Last, Lookup(partial, f), Lookup(after, f)) {
      if !Untouched(log, root, target, f) {
      }
    }
  }

  lemma RestoredOnlyCovered(log: Log, root: string, target: nat, before: Files, after: Files)
    requires Restored(log, root, target, before, after)
    ensures OnlyCoveredDiffer(log, root, target, before, after)
    ensures Restored(log, root, target, after, after)
  {
    forall f | Untouched(log, root, target, f) ensures Lookup(after, f) == Lookup(before, f) {
      assert Undone(log, root, target, f, Last, Lookup(before, f), Lookup(after, f));
    }
    RestoreAgain(log, root, target, before, after, after);
  }

  /** Restoring to a later turn first changes nothing. */
  lemma RestoreInSteps(log: Log, root: string, a: nat, b: nat, before: Files, mid: Files, after: Files)
    requires b <= a && Restored(log, root, a, before, mid)
    ensures Restored(log, root, b, mid, after) <==> Restored(log, root, b, before, after)
  {
    RestoredOnlyCovered(log, root, a, before, mid);
    forall f | Untouched(log, root, b, f) ensures Lookup(mid, f) == Lookup(before, f) {
      assert Untouched(log, root, a, f);
    }
    RestoreAgain(log, root, b, before, mid, after);
  }

  // ---------------------------------------------------------------------------
  // Timelines
  // ---------------------------------------------------------------------------

  /** The current turn takes backups while `open`. `ends` records the files at the end of turns; `lost`
      the files, with a turn, that were changed without a backup in that turn, or that a rewind to the
      turn before gave back wrongly or that were changed after it. */
  datatype Timeline = Timeline(
    files: Files, log: Log, turn: nat, open: bool, ends: map<nat, Files>, lost: set<(nat, Place)>)

  datatype Move =
    | BeginTurn(turn: nat)
    | Record(path: string, prior: Content)
    | Change(place: Place, content: Content)
    | RewindTo(turn: nat, after: Files, pruned: bool)

  function EntriesOf(log: Log, t: nat): seq<Backup> {
    if t in log then log[t] else []
  }

  predicate HasEntry(entries: seq<Backup>, path: string) {
    exists i | 0 <= i < |entries| :: entries[i].path == path
  }

  /** backup_file: the first backup of a name in a turn wins. */
  function BackedUp(entries: seq<Backup>, path: string, files: Files): seq<Backup> {
    if HasEntry(entries, path) then entries else entries + [Backup(path, Lookup(files, FileOf(path)))]
  }

  /** delete_from(t + 1). */
  function Pruned(log: Log, t: nat): Log {
    map u | u in log && u <= t :: log[u]
  }

  function EndsAt(ends: map<nat, Files>, t: nat, files: Files): map<nat, Files> {
    (map u | u in ends && u < t :: ends[u]) + (if t > 0 then map[t - 1 := files] else map[])
  }

  /** Where two states of the project differ. */
  function Differing(a: Files, b: Files): set<Place> {
    set f | f in a.Keys + b.Keys && Lookup(a, f) != Lookup(b, f)
  }

  /** A change of a file that the current turn has backed up loses nothing. One made when the turn is
      over belongs to none. */
  function ChangeLoses(log: Log, root: string, turn: nat, open: bool, f: Place): set<(nat, Place)> {
    if !open then {(turn + 1, f)} else if Covers(log, root, turn, f) then {} else {(turn, f)}
  }

  /** What was lost at t or above is lost no more once turn t starts from the files as they are; it
      stays lost for the turns below. */
  function Settled(lost: set<(nat, Place)>, t: nat): set<(nat, Place)> {
    set p | p in lost :: (if p.0 < t || t == 0 then p.0 else t - 1, p.1)
  }

  function LostBy(tl: Timeline, root: string, m: Move): set<(nat, Place)> {
    match m
    case Change(f, _) => ChangeLoses(tl.log, root, tl.turn, tl.open, f)
    case RewindTo(t, after, _) => if t in tl.ends then (set f | f in Differing(after, tl.ends[t]) :: (t + 1, f)) else {}
    case _ => {}
  }

  function Played(tl: Timeline, root: string, m: Move): Timeline {
    var lost := tl.lost + LostBy(tl, root, m);
    match m
    case BeginTurn(t) => Timeline(tl.files, tl.log, t, true, EndsAt(tl.ends, t, tl.files), Settled(lost, t))
    case Record(path, prior) => tl.(log := tl.log[tl.turn := EntriesOf(tl.log, tl.turn) + [Backup(path, prior)]])
    case Change(f, content) => tl.(files := Write(tl.files, f, content), lost := lost)
    case RewindTo(t, after, pruned) =>
      Timeline(after, if pruned then Pruned(tl.log, t) else tl.log, if pruned then t else tl.turn, false,
               map u | u in tl.ends && u <= t :: tl.ends[u], lost)
  }

  /** A new turn's number is above all that have backups. A name is recorded once a turn, and the
      first to name a file records what the file holds, unless the file is lost already. Files may
      change at any time. A rewind restores a turn of the current timeline, or stops half way; either
      way the undone turns are then pruned, or are left when pruning fails at once. */
  ghost predicate CanPlay(tl: Timeline, root: string, m: Move) {
    match m
    case BeginTurn(t) => forall u | u in tl.log :: u < t
    case Record(path, prior) =>
      var f := FileOf(path);
      && tl.open && !HasEntry(EntriesOf(tl.log, tl.turn), path)
      && (Covers(tl.log, root, tl.turn, f) || (tl.turn, f) in tl.lost || prior == Lookup(tl.files, f))
    case Change(_, _) => true
    case RewindTo(t, after, _) => t in tl.ends && OnlyCoveredDiffer(tl.log, root, t, tl.files, after)
  }

  /** The file was lost in a turn above t. */
  ghost predicate Lost(lost: set<(nat, Place)>, t: nat, f: Place) {
    exists u: nat :: u > t && (u, f) in lost
  }

  /** Every file not lost since stands in the backups as it was at the end of the turn. */
  ghost predicate EndOk(tl: Timeline, root: string, t: nat, f: Place)
    requires t in tl.ends
  {
    Lost(tl.lost, t, f) || Undone(tl.log, root, t, f, First, Lookup(tl.files, f), Lookup(tl.ends[t], f))
  }

  ghost predicate TimelineOk(tl: Timeline, root: string) {
    && (forall u | u in tl.log :: u <= tl.turn)
    && (forall t | t in tl.ends :: t <= tl.turn && (tl.open ==> t < tl.turn))
    && (forall t, f | t in tl.ends :: EndOk(tl, root, t, f))
  }

  /** The file's first recorded content is the one it has now, or is not recorded anew. */
  lemma RecordKeeps(tl: Timeline, root: string, path: string, prior: Content, t: nat, f: Place)
    requires TimelineOk(tl, root) && CanPlay(tl, root, Record(path, prior)) && t in tl.ends && !Lost(tl.lost, t, f)
    ensures EndOk(Played(tl, root, Record(path, prior)), root, t, f)
  {
    var next := Played(tl, root, Record(path, prior));
    var entries := EntriesOf(tl.log, tl.turn);
    assert EndOk(tl, root, t, f);
    FirstAppend(entries, Backup(path, prior), root, f);
    assert forall u | u != tl.turn :: Covers(next.log, root, u, f) <==> Covers(tl.log, root, u, f);
    assert Covers(tl.log, root, tl.turn, f) ==> First(next.log[tl.turn], root, f) == First(tl.log[tl.turn], root, f);
    assert Covers(tl.log, root, tl.turn, f) ==> Covers(next.log, root, tl.turn, f);
    forall u | Oldest(next.log, root, t, f, u) ensures First(next.log[u], root, f) == Prior(Lookup(tl.ends[t], f)) {
      if Covers(tl.log, root, u, f) {
        assert Oldest(tl.log, root, t, f, u);
      } else {
        assert u == tl.turn && f == FileOf(path);
        assert Untouched(tl.log, root, t, f);
      }
    }
    if Untouched(next.log, root, t, f) {
      assert Untouched(tl.log, root, t, f);
    }
  }

  lemma RecordOk(tl: Timeline, root: string, path: string, prior: Content)
    requires TimelineOk(tl, root) && CanPlay(tl, root, Record(path, prior))
    ensures TimelineOk(Played(tl, root, Record(path, prior)), root)
  {
    forall t, f | t in tl.ends ensures EndOk(Played(tl, root, Record(path, prior)), root, t, f) {
      if !Lost(tl.lost, t, f) {
        RecordKeeps(tl, root, path, prior, t, f);
      }
    }
  }

  /** What a covered file holds no longer matters; another one is lost. */
  lemma ChangeOk(tl: Timeline, root: string, g: Place, content: Content)
    requires TimelineOk(tl, root) && CanPlay(tl, root, Change(g, content))
    ensures TimelineOk(Played(tl, root, Change(g, content)), root)
  {
    var next := Played(tl, root, Change(g, content));
    forall t, f | t in next.ends ensures EndOk(next, root, t, f) {
      assert EndOk(tl, root, t, f);
      if Lost(tl.lost, t, f) {
        LostStays(tl.lost, next.lost, t, t, f);
      } else if f == g && !tl.open {
        assert (tl.turn + 1, f) in next.lost;
      } else if f == g && !Covers(tl.log, root, tl.turn, g) {
        assert (tl.turn, f) in next.lost;
      }
    }
  }

  lemma BeginOk(tl: Timeline, root: string, t: nat)
    requires TimelineOk(tl, root) && CanPlay(tl, root, BeginTurn(t))
    ensures TimelineOk(Played(tl, root, BeginTurn(t)), root)
  {
    var next := Played(tl, root, BeginTurn(t));
    forall u, f | u in next.ends ensures EndOk(next, root, u, f) {
      if u == t - 1 {
        assert next.ends[u] == tl.files;
        assert forall v | v > u :: !Covers(tl.log, root, v, f);
      } else {
        assert EndOk(tl, root, u, f);
        SettledStays(tl.lost, t, u, f);
      }
    }
  }

  lemma SettledStays(lost: set<(nat, Place)>, t: nat, u: nat, f: Place)
    requires u + 1 < t
    ensures Lost(lost, u, f) ==> Lost(Settled(lost, t), u, f)
  {
    if Lost(lost, u, f) {
      var v: nat :| v > u && (v, f) in lost;
      assert (if v < t then v else t - 1, f) in Settled(lost, t);
    }
  }

  /** The oldest undone turn recorded the same content for the file first and last. It can differ
      only for a file backed up under two names in one turn. */
  ghost predicate ConsistentAt(log: Log, root: string, target: nat, f: Place) {
    forall t | Oldest(log, root, target, f, t) :: Last(log[t], root, f) == First(log[t], root, f)
  }

  ghost predicate Consistent(log: Log, root: string, target: nat) {
    forall f :: ConsistentAt(log, root, target, f)
  }

  /** Restoring gives a file back as it stood at the end of the turn exactly when the backups above it
      are consistent for the file. */
  lemma RewindExact(tl: Timeline, root: string, t: nat, after: Files, f: Place)
    requires TimelineOk(tl, root) && t in tl.ends && Restored(tl.log, root, t, tl.files, after) && !Lost(tl.lost, t, f)
    ensures Lookup(after, f) == Lookup(tl.ends[t], f) <==> ConsistentAt(tl.log, root, t, f)
  {
    assert EndOk(tl, root, t, f);
    assert Undone(tl.log, root, t, f, Last, Lookup(tl.files, f), Lookup(after, f));
    if ConsistentAt(tl.log, root, t, f) {
      assert Undone(tl.log, root, t, f, First, Lookup(tl.files, f), Lookup(after, f));
      UndoneUnique(tl.log, root, t, f, First, Lookup(tl.files, f), Lookup(after, f), Lookup(tl.ends[t], f));
    }
  }

  /** Once what is above t is gone, the file's oldest turn above u is what it was, or it is the one
      whose backup t has already given back. */
  lemma PrunedOldest(log: Log, root: string, t: nat, u: nat, f: Place)
    requires u <= t
    ensures forall v :: Oldest(Pruned(log, t), root, u, f, v) ==> Oldest(log, root, u, f, v)
    ensures Untouched(Pruned(log, t), root, u, f) ==> forall w :: Oldest(log, root, t, f, w) ==>
      Oldest(log, root, u, f, w)
    ensures Untouched(Pruned(log, t), root, u, f) && Untouched(log, root, t, f) ==> Untouched(log, root, u, f)
  {
    var pruned := Pruned(log, t);
    assert forall v: nat :: Covers(pruned, root, v, f) <==> Covers(log, root, v, f) && v <= t;
  }

  lemma RewindKeeps(tl: Timeline, root: string, t: nat, u: nat, f: Place)
    requires TimelineOk(tl, root) && t in tl.ends && u in tl.ends && u <= t
    requires !Lost(tl.lost, t, f) && !Lost(tl.lost, u, f)
    ensures Undone(Pruned(tl.log, t), root, u, f, First, Lookup(tl.ends[t], f), Lookup(tl.ends[u], f))
  {
    assert EndOk(tl, root, t, f) && EndOk(tl, root, u, f);
    PrunedOldest(tl.log, root, t, u, f);
    if Untouched(Pruned(tl.log, t), root, u, f) && !Untouched(tl.log, root, t, f) {
      var v :| v > t && Covers(tl.log, root, v, f);
      OldestFrom(tl.log, root, t, f, v);
      var w :| Oldest(tl.log, root, t, f, w);
    }
  }

  lemma UnprunedKeeps(tl: Timeline, root: string, t: nat, u: nat, f: Place)
    requires TimelineOk(tl, root) && t in tl.ends && u in tl.ends && u <= t
    requires !Lost(tl.lost, t, f) && !Lost(tl.lost, u, f)
    ensures Undone(tl.log, root, u, f, First, Lookup(tl.ends[t], f), Lookup(tl.ends[u], f))
  {
    assert EndOk(tl, root, t, f) && EndOk(tl, root, u, f);
    assert Untouched(tl.log, root, u, f) ==> Untouched(tl.log, root, t, f);
  }

  lemma LostStays(lost: set<(nat, Place)>, more: set<(nat, Place)>, t: nat, u: nat, f: Place)
    requires lost <= more && u <= t
    ensures Lost(lost, t, f) ==> Lost(more, u, f)
  {
    if Lost(lost, t, f) {
      var v: nat :| v > t && (v, f) in lost;
      assert (v, f) in more;
    }
  }

  lemma RewindOk(tl: Timeline, root: string, t: nat, after: Files, pruned: bool)
    requires TimelineOk(tl, root) && CanPlay(tl, root, RewindTo(t, after, pruned))
    ensures TimelineOk(Played(tl, root, RewindTo(t, after, pruned)), root)
  {
    var next := Played(tl, root, RewindTo(t, after, pruned));
    forall u, f | u in next.ends ensures EndOk(next, root, u, f) {
      if !Lost(next.lost, u, f) {
        LostStays(tl.lost, next.lost, t, u, f);
        LostStays(tl.lost, next.lost, u, u, f);
        assert (t + 1, f) !in next.lost && f !in Differing(after, tl.ends[t]);
        assert Lookup(after, f) == Lookup(tl.ends[t], f);
        if pruned {
          RewindKeeps(tl, root, t, u, f);
        } else {
          UnprunedKeeps(tl, root, t, u, f);
        }
      }
    }
  }

  // ---------------------------------------------------------------------------
  // Runs
  // ---------------------------------------------------------------------------

  /** A run from the given files. Turn 0 is the state before the first turn. */
  function Play(start: Files, root: string, moves: seq<Move>): Timeline {
    if moves == [] then Timeline(start, map[], 0, false, map[0 := start], {})
    else Played(Play(start, root, moves[..|moves| - 1]), root, moves[|moves| - 1])
  }

  /** Every move could be made. */
  ghost predicate Plays(start: Files, root: string, moves: seq<Move>) {
    moves == [] ||
      var front, last := moves[..|moves| - 1], moves[|moves| - 1];
      Plays(start, root, front) && CanPlay(Play(start, root, front), root, last)
  }

  lemma MoveOk(tl: Timeline, root: string, m: Move)
    requires TimelineOk(tl, root) && CanPlay(tl, root, m)
    ensures TimelineOk(Played(tl, root, m), root)
  {
    match m
    case BeginTurn(t) => BeginOk(tl, root, t);
    case Record(path, prior) => RecordOk(tl, root, path, prior);
    case Change(f, content) => ChangeOk(tl, root, f, content);
    case RewindTo(t, after, pruned) => RewindOk(tl, root, t, after, pruned);
  }

  lemma {:induction false} PlaysOk(start: Files, root: string, moves: seq<Move>)
    requires Plays(start, root, moves)
    ensures TimelineOk(Play(start, root, moves), root)
  {
    if moves != [] {
      var front, last := moves[..|moves| - 1], moves[|moves| - 1];
      PlaysOk(start, root, front);
      MoveOk(Play(start, root, front), root, last);
    }
  }

  /** After any run of turns, backups, changes and rewinds, restoring an earlier turn of the current
      timeline gives a file back as it stood at its end, exactly when the backups above it are
      consistent for the file. This is of every file that was not lost since. */
  lemma RewindCorrect(start: Files, root: string, moves: seq<Move>, t: nat, after: Files, f: Place)
    requires Plays(start, root, moves) && t in Play(start, root, moves).ends
    requires Restored(Play(start, root, moves).log, root, t, Play(start, root, moves).files, after)
    requires !Lost(Play(start, root, moves).lost, t, f)
    ensures var tl := Play(start, root, moves);
      Lookup(after, f) == Lookup(tl.ends[t], f) <==> ConsistentAt(tl.log, root, t, f)
  {
    PlaysOk(start, root, moves);
    RewindExact(Play(start, root, moves), root, t, after, f);
  }

  /** When nothing was lost since, the whole project is given back exactly when all backups above the
      turn are consistent. */
  lemma RewindAll(start: Files, root: string, moves: seq<Move>, t: nat, after: Files)
    requires Plays(start, root, moves) && t in Play(start, root, moves).ends
    requires Restored(Play(start, root, moves).log, root, t, Play(start, root, moves).files, after)
    requires forall f :: !Lost(Play(start, root, moves).lost, t, f)
    ensures after == Play(start, root, moves).ends[t] <==> Consistent(Play(start, root, moves).log, root, t)
  {
    var tl := Play(start, root, moves);
    forall f ensures Lookup(after, f) == Lookup(tl.ends[t], f) <==> ConsistentAt(tl.log, root, t, f) {
      RewindCorrect(start, root, moves, t, after, f);
    }
    if Consistent(tl.log, root, t) {
      SameFiles(after, tl.ends[t]);
    }
  }

  // ---------------------------------------------------------------------------
  // Backed-up edits
  // ---------------------------------------------------------------------------

  /** One edit on its own: the backup, then the change. */
  function Edited(tl: Timeline, root: string, path: string, content: Content): Timeline {
    var f := FileOf(path);
    var noted := if HasEntry(EntriesOf(tl.log, tl.turn), path) then tl
      else Played(tl, root, Record(path, Lookup(tl.files, f)));
    Played(noted, root, Change(f, content))
  }

  /** It is a first-write-wins backup and the change. */
  lemma EditedBacksUp(tl: Timeline, root: string, path: string, content: Content)
    ensures var next := Edited(tl, root, path, content);
      && next.files == Write(tl.files, FileOf(path), content)
      && next.log == tl.log[tl.turn := BackedUp(EntriesOf(tl.log, tl.turn), path, tl.files)]
  {
  }

  lemma EntryCovers(log: Log, root: string, t: nat, path: string)
    requires HasEntry(EntriesOf(log, t), path) && WithinRoot(root, path)
    ensures Covers(log, root, t, FileOf(path))
  {
    var i :| 0 <= i < |log[t]| && log[t][i].path == path;
    assert Names(root, log[t][i], FileOf(path));
    FirstFinds(log[t], root, FileOf(path));
  }

  /** Backed-up edits of project files lose nothing. */
  lemma EditOk(tl: Timeline, root: string, path: string, content: Content)
    requires TimelineOk(tl, root) && tl.open && WithinRoot(root, path)
    ensures TimelineOk(Edited(tl, root, path, content), root) && Edited(tl, root, path, content).lost == tl.lost
  {
    var f := FileOf(path);
    if HasEntry(EntriesOf(tl.log, tl.turn), path) {
      EntryCovers(tl.log, root, tl.turn, path);
      ChangeOk(tl, root, f, content);
    } else {
      var noted := Played(tl, root, Record(path, Lookup(tl.files, f)));
      RecordOk(tl, root, path, Lookup(tl.files, f));
      var entries := EntriesOf(noted.log, tl.turn);
      assert entries[|entries| - 1].path == path;
      EntryCovers(noted.log, root, tl.turn, path);
      ChangeOk(noted, root, f, content);
    }
  }

  /** No two entries of a turn name one file. */
  predicate OneNameEach(entries: seq<Backup>) {
    forall i, j | 0 <= i < j < |entries| :: FileOf(entries[i].path) != FileOf(entries[j].path)
  }

  lemma {:induction false} OneNameFirstIsLast(entries: seq<Backup>, root: string, f: Place)
    requires OneNameEach(entries)
    ensures Last(entries, root, f) == First(entries, root, f)
  {
    if entries != [] {
      var n := |entries| - 1;
      assert entries == entries[..n] + [entries[n]];
      FirstAppend(entries[..n], entries[n], root, f);
      OneNameFirstIsLast(entries[..n], root, f);
      FirstFinds(entries[..n], root, f);
    }
  }

  /** Backups are consistent when each turn names each file in one way. */
  lemma OneNameConsistent(log: Log, root: string, target: nat)
    requires forall t | t in log && t > target :: OneNameEach(log[t])
    ensures Consistent(log, root, target)
  {
    forall f, t | Oldest(log, root, target, f, t) ensures Last(log[t], root, f) == First(log[t], root, f) {
      OneNameFirstIsLast(log[t], root, f);
    }
  }

  /** A file edited under two names in one turn comes back with the content of the first edit. */
  lemma TwoNames(root: string, path: string, other: string, a: Bytes, b: Bytes, c: Content, after: Files)
    requires WithinRoot(root, path) && WithinRoot(root, other) && FileOf(path) == FileOf(other) && path != other
    requires a != b
    requires var tl := Play(map[FileOf(path) := a], root, TwoEdits(path, other, a, b, c));
      Restored(tl.log, root, 0, tl.files, after)
    ensures var start := map[FileOf(path) := a]; var moves := TwoEdits(path, other, a, b, c);
      var tl := Play(start, root, moves);
      && Plays(start, root, moves) && 0 in tl.ends && tl.ends[0] == start && tl.lost == {}
      && Lookup(after, FileOf(path)) == Has(b) && after != start
  {
    var f := FileOf(path);
    var start: Files := map[f := a];
    TwoNamesRun(start, root, path, other, a, b, c);
    var tl := Play(start, root, TwoEdits(path, other, a, b, c));
    var first, second := Backup(path, Has(a)), Backup(other, Has(b));
    LastAppend([first], second, root, f);
    assert [first] + [second] == [first, second];
    FirstFinds([first, second], root, f);
    assert [first, second][0] == first;
    assert Oldest(tl.log, root, 0, f, 1);
    assert Undone(tl.log, root, 0, f, Last, Lookup(tl.files, f), Lookup(after, f));
  }

  /** The moves of two edits of one file under different names. */
  function TwoEdits(path: string, other: string, a: Bytes, b: Bytes, c: Content): seq<Move> {
    var f := FileOf(path);
    [BeginTurn(1), Record(path, Has(a)), Change(f, Has(b)), Record(other, Has(b)), Change(f, c)]
  }

  /** Two such names. */
  lemma TwoNamesOfOneFile()
    ensures WithinRoot("/p", "/p/a") && WithinRoot("/p", "/p//a") && FileOf("/p/a") == FileOf("/p//a")
    ensures "/p/a" != "/p//a"
  {
    DoubledSlash();
    SameComponents("/p", "/p/a", "/p//a", ["/", "p", "a"]);
    assert |"/p/a"| != |"/p//a"|;
  }

  lemma SameComponents(root: string, path: string, other: string, comps: Place)
    requires Components(path) == comps && Components(other) == comps && Components(root) <= comps
    requires forall i | 0 <= i < |comps| :: comps[i] != ".."
    ensures WithinRoot(root, path) && WithinRoot(root, other) && FileOf(path) == FileOf(other)
  {
    FollowPlain(comps);
    NormalizeFollows(comps);
  }

  lemma PlayOn(start: Files, root: string, moves: seq<Move>, m: Move)
    requires Plays(start, root, moves) && CanPlay(Play(start, root, moves), root, m)
    ensures Plays(start, root, moves + [m])
    ensures Play(start, root, moves + [m]) == Played(Play(start, root, moves), root, m)
  {
    assert (moves + [m])[..|moves|] == moves;
  }

  lemma OneEditRun(start: Files, root: string, path: string, a: Bytes, b: Bytes)
    requires WithinRoot(root, path) && FileOf(path) in start && start[FileOf(path)] == a
    ensures var f := FileOf(path); var moves := [BeginTurn(1), Record(path, Has(a)), Change(f, Has(b))];
      && Plays(start, root, moves)
      && Play(start, root, moves) ==
         Timeline(start[f := b], map[1 := [Backup(path, Has(a))]], 1, true, map[0 := start], {})
  {
    var f := FileOf(path);
    var m0, m1, m2 := BeginTurn(1), Record(path, Has(a)), Change(f, Has(b));
    PlayOn(start, root, [], m0);
    assert [] + [m0] == [m0];
    var tl := Play(start, root, [m0]);
    assert tl == Timeline(start, map[], 1, true, map[0 := start], {});
    PlayOn(start, root, [m0], m1);
    assert [m0] + [m1] == [m0, m1];
    assert [] + [Backup(path, Has(a))] == [Backup(path, Has(a))];
    PlayOn(start, root, [m0, m1], m2);
    assert [m0, m1] + [m2] == [m0, m1, m2];
    assert [Backup(path, Has(a))][0].path == path;
    EntryCovers(map[1 := [Backup(path, Has(a))]], root, 1, path);
  }

  /** The second edit, after the first. */
  lemma SecondEdit(tl: Timeline, root: string, path: string, other: string, a: Bytes, b: Bytes, c: Content)
    requires WithinRoot(root, path) && WithinRoot(root, other) && FileOf(path) == FileOf(other) && path != other
    requires tl.log == map[1 := [Backup(path, Has(a))]] && tl.turn == 1 && tl.open && tl.lost == {}
    ensures var f := FileOf(path); var noted := Played(tl, root, Record(other, Has(b)));
      var next := Played(noted, root, Change(f, c));
      && CanPlay(tl, root, Record(other, Has(b))) && CanPlay(noted, root, Change(f, c))
      && next.log == map[1 := [Backup(path, Has(a)), Backup(other, Has(b))]] && next.lost == {} && next.ends == tl.ends
  {
    var first, second := Backup(path, Has(a)), Backup(other, Has(b));
    assert [first][0].path == path && [first, second][0].path == path;
    assert [first] + [second] == [first, second];
    EntryCovers(tl.log, root, 1, path);
    var noted: Log := map[1 := [first, second]];
    assert tl.log[1 := [first, second]] == noted;
    EntryCovers(noted, root, 1, path);
  }

  lemma TwoNamesRun(start: Files, root: string, path: string, other: string, a: Bytes, b: Bytes, c: Content)
    requires WithinRoot(root, path) && WithinRoot(root, other) && FileOf(path) == FileOf(other) && path != other
    requires FileOf(path) in start && start[FileOf(path)] == a
    ensures var moves := TwoEdits(path, other, a, b, c); var tl := Play(start, root, moves);
      && Plays(start, root, moves) && 0 in tl.ends && tl.ends[0] == start && tl.lost == {}
      && tl.log == map[1 := [Backup(path, Has(a)), Backup(other, Has(b))]]
  {
    var f := FileOf(path);
    var front := [BeginTurn(1), Record(path, Has(a)), Change(f, Has(b))];
    var m3, m4 := Record(other, Has(b)), Change(f, c);
    OneEditRun(start, root, path, a, b);
    SecondEdit(Play(start, root, front), root, path, other, a, b, c);
    PlayOn(start, root, front, m3);
    PlayOn(start, root, front + [m3], m4);
    assert front + [m3] + [m4] == TwoEdits(path, other, a, b, c);
  }

  // ---------------------------------------------------------------------------
  // Turn numbers that start again
  // ---------------------------------------------------------------------------

  /** When a new turn takes a number that has backups at or above it, restoring the turn before gives
      a file back as it is now exactly when its oldest such backup holds what it has now. */
  lemma RestartExact(tl: Timeline, root: string, t: nat, after: Files, f: Place)
    requires t > 0
    requires var next := Played(tl, root, BeginTurn(t)); Restored(next.log, root, t - 1, next.files, after)
    ensures Lookup(after, f) == Lookup(Played(tl, root, BeginTurn(t)).ends[t - 1], f) <==>
      forall u | Oldest(tl.log, root, t - 1, f, u) :: Last(tl.log[u], root, f) == Prior(Lookup(tl.files, f))
  {
    assert Undone(tl.log, root, t - 1, f, Last, Lookup(tl.files, f), Lookup(after, f));
    if !Untouched(tl.log, root, t - 1, f) {
      var u :| u > t - 1 && Covers(tl.log, root, u, f);
      OldestFrom(tl.log, root, t - 1, f, u);
    }
  }

  /** A listing of the turns that fails starts the numbers again at 1: restoring the state before the
      new turn then gives back the one before the first of all. */
  lemma RestartLoses(root: string, path: string, a: Bytes, b: Bytes, after: Files)
    requires WithinRoot(root, path) && a != b
    requires Restored(Restarted(root, path, a, b).log, root, 0, Restarted(root, path, a, b).files, after)
    ensures var tl := Restarted(root, path, a, b);
      && 0 in tl.ends && Lookup(tl.ends[0], FileOf(path)) == Has(b) && Lookup(after, FileOf(path)) == Has(a)
  {
    var f := FileOf(path);
    OneEditRun(map[f := a], root, path, a, b);
    var tl := Restarted(root, path, a, b);
    var first := Backup(path, Has(a));
    assert [first][0].path == path && [first][..0] == [];
    EntryCovers(tl.log, root, 1, path);
    assert Oldest(tl.log, root, 0, f, 1);
    assert Undone(tl.log, root, 0, f, Last, Lookup(tl.files, f), Lookup(after, f));
  }

  /** The file held a; turn 1 recorded that and wrote b; then turn 1 began again. */
  function Restarted(root: string, path: string, a: Bytes, b: Bytes): Timeline {
    Played(OneEdit(root, path, a, b), root, BeginTurn(1))
  }

  // ---------------------------------------------------------------------------
  // A restore that stopped half way
  // ---------------------------------------------------------------------------

  /** The rewind to a message ignores the error of its restore and prunes all the same. When a restore
      of t left the files `after`, wherever it stopped, and the turns above t are gone, a rewind to u
      gives a file back exactly when the backups of the turns up to t do, or, with none of those, when
      the file was given back already. Files that no turn above t had backed up are as they were. */
  lemma StoppedExact(tl: Timeline, root: string, t: nat, after: Files, u: nat, again: Files, f: Place)
    requires TimelineOk(tl, root) && t in tl.ends && u in tl.ends && u <= t
    requires !Lost(tl.lost, t, f) && !Lost(tl.lost, u, f)
    requires OnlyCoveredDiffer(tl.log, root, t, tl.files, after)
    requires Restored(Pruned(tl.log, t), root, u, after, again)
    ensures Lookup(again, f) == Lookup(tl.ends[u], f) <==>
      if Untouched(Pruned(tl.log, t), root, u, f) then Lookup(after, f) == Lookup(tl.ends[t], f)
        else ConsistentAt(Pruned(tl.log, t), root, u, f)
    ensures Untouched(tl.log, root, t, f) ==> Lookup(after, f) == Lookup(tl.ends[t], f)
  {
    var log := Pruned(tl.log, t);
    assert EndOk(tl, root, t, f);
    RewindKeeps(tl, root, t, u, f);
    assert Undone(log, root, u, f, Last, Lookup(after, f), Lookup(again, f));
    if !Untouched(log, root, u, f) {
      var v :| v > u && Covers(log, root, v, f);
      OldestFrom(log, root, u, f, v);
      var w :| Oldest(log, root, u, f, w);
    }
  }

  /** Turn 1 changed a file from a to b, the restore of the state before it could not write the file,
      and turn 1 was pruned: no later rewind to that state gives a back. */
  lemma StoppedSticks(root: string, path: string, a: Bytes, b: Bytes, again: Files)
    requires WithinRoot(root, path)
    requires var tl := Played(OneEdit(root, path, a, b), root, RewindTo(0, OneEdit(root, path, a, b).files, true));
      Restored(tl.log, root, 0, tl.files, again)
    ensures var tl := OneEdit(root, path, a, b);
      && CanPlay(tl, root, RewindTo(0, tl.files, true)) && tl.lost == {} && Consistent(tl.log, root, 0)
      && Lookup(tl.ends[0], FileOf(path)) == Has(a) && Lookup(again, FileOf(path)) == Has(b)
  {
    var f := FileOf(path);
    var tl := OneEdit(root, path, a, b);
    OneEditRun(map[f := a], root, path, a, b);
    OneNameConsistent(tl.log, root, 0);
    assert Untouched(Pruned(tl.log, 0), root, 0, f);
    assert Undone(Pruned(tl.log, 0), root, 0, f, Last, Lookup(tl.files, f), Lookup(again, f));
  }

  /** The file held a; turn 1 recorded that and wrote b. */
  function OneEdit(root: string, path: string, a: Bytes, b: Bytes): Timeline {
    Play(map[FileOf(path) := a], root, [BeginTurn(1), Record(path, Has(a)), Change(FileOf(path), Has(b))])
  }

  // ---------------------------------------------------------------------------
  // Pruning that stopped half way
  // ---------------------------------------------------------------------------

  /** What pruning left of the turns above t. */
  ghost predicate LeftOf(log: Log, t: nat, left: Log) {
    && (forall u | u in left :: u in log && left[u] == log[u])
    && (forall u | u in log && u <= t :: u in left)
  }

  /** After a rewind to t, whose pruning left `left`, restoring t again changes nothing exactly when
      the oldest turn left for each file recorded what the file has now. */
  lemma PartialPruneExact(log: Log, root: string, t: nat, left: Log, files: Files, again: Files)
    requires LeftOf(log, t, left) && Restored(left, root, t, files, again)
    ensures again == files <==>
      forall f, u | Oldest(left, root, t, f, u) :: Last(left[u], root, f) == Prior(Lookup(files, f))
  {
    if forall f, u | Oldest(left, root, t, f, u) :: Last(left[u], root, f) == Prior(Lookup(files, f)) {
      forall f ensures Undone(left, root, t, f, Last, Lookup(files, f), Lookup(files, f)) { }
      RestoredUnique(left, root, t, files, again, files);
    } else {
      var f, u :| Oldest(left, root, t, f, u) && Last(left[u], root, f) != Prior(Lookup(files, f));
      assert Undone(left, root, t, f, Last, Lookup(files, f), Lookup(again, f));
    }
  }

  /** Turns 2 and 3 changed one file; the rewind to turn 1 gave back its first content, but only
      turn 2 was removed: restoring turn 1 again now brings back the content between the two. */
  lemma PartialPruneUndoes(root: string, path: string, a: Bytes, b: Bytes, again: Files)
    requires WithinRoot(root, path) && a != b
    requires Restored(map[3 := [Backup(path, Has(b))]], root, 1, map[FileOf(path) := a], again)
    ensures LeftOf(map[2 := [Backup(path, Has(a))], 3 := [Backup(path, Has(b))]], 1, map[3 := [Backup(path, Has(b))]])
    ensures Restored(map[2 := [Backup(path, Has(a))], 3 := [Backup(path, Has(b))]], root, 1, map[FileOf(path) := a],
      map[FileOf(path) := a])
    ensures Lookup(again, FileOf(path)) == Has(b)
  {
    var f := FileOf(path);
    var newer, older := Backup(path, Has(b)), Backup(path, Has(a));
    var left: Log := map[3 := [newer]];
    var log: Log := map[2 := [older], 3 := [newer]];
    var files: Files := map[f := a];
    assert Names(root, newer, f) && Names(root, older, f);
    assert Oldest(left, root, 1, f, 3);
    assert Undone(left, root, 1, f, Last, Lookup(files, f), Lookup(again, f));
    assert Oldest(log, root, 1, f, 2);
    forall g ensures Undone(log, root, 1, g, Last, Lookup(files, g), Lookup(files, g)) {
      assert g != f ==> First([older], root, g).Nothing? && First([newer], root, g).Nothing? by {
        assert [older][1..] == [] && [newer][1..] == [];
      }
      assert forall u :: Covers(log, root, u, g) ==> g == f && (u == 2 || u == 3);
    }
  }
}
