/** The tool calls of one response run at the same time, and each backs its file up before it changes
    it, without a lock; nor does a rewind wait for them. As long as no two backups of a turn overlap
    between the read of the manifest and its replacement, and no call goes on backing up when its turn
    is over, every manifest stays whole and a rewind gives back what it should. Without either,
    neither holds. */
module ParallelEdits {
  import opened Wrappers

  import opened Utf8
  import opened Paths
  import opened Rewind
  import opened Checkpoint

  /** The next operation of a call: read the manifest, look at the file, write the blob, write the
      temporary manifest, rename it, change the file. */
  datatype Pc =
    | AtManifest
    | AtFile(known: seq<Entry>)
    | AtBlob(known: seq<Entry>, bytes: Bytes)
    | AtTmp(next: seq<Entry>)
    | AtRename(next: seq<Entry>)
    | AtEdit(backed: bool)

  /** A call of a turn. It is late when that turn was over, or was undone, since it started. Of an
      aborted call the present operation may still take effect, and no other one. */
  datatype Call = Call(turn: nat, path: string, content: Content, pc: Pc, late: bool, aborted: bool)

  /** The project, the checkpoint directory, the calls in flight, and what timelines keep. */
  datatype World = World(
    files: Files, turns: map<nat, TurnDir>, turn: nat, open: bool, calls: map<nat, Call>,
    ends: map<nat, Files>, lost: set<(nat, Place)>)

  /** How an operation goes. A write may be seen half done, with any bytes so far; a rename may take
      effect and report an error. */
  datatype Reply = Finished | Refused | Cut(bytes: Bytes)

  datatype Step =
    | NextTurn(turn: nat)
    | Spawn(id: nat, turn: nat, path: string, content: Content)
    | Go(id: nat, reply: Reply)
    | Abort(id: nat)
    | Rewind(turn: nat, after: Files, pruned: bool)

  function Dir(w: World): TurnDir {
    DirAt(w.turns, w.turn)
  }

  /** The timeline a world shows. */
  function Line(w: World): Timeline {
    Timeline(w.files, LogOf(w.turns), w.turn, w.open, w.ends, w.lost)
  }

  // ---------------------------------------------------------------------------
  // One operation of a call
  // ---------------------------------------------------------------------------

  function NewBlob(path: string, known: seq<Entry>): Entry {
    Entry(path, true, Some(BlobName(|known|)))
  }

  function NewFile(path: string): Entry {
    Entry(path, false, None)
  }

  /** Where the call goes; nothing when it is over. A failed backup does not hold up the change. */
  function NextPc(w: World, c: Call, reply: Reply): Option<Pc> {
    if c.aborted then (if reply.Cut? then Some(c.pc) else None) else PcAfter(w, c, reply)
  }

  function PcAfter(w: World, c: Call, reply: Reply): Option<Pc> {
    var dir := DirAt(w.turns, c.turn);
    match c.pc
    case AtManifest =>
      if reply.Refused? || !IsAbsolute(c.path) || dir.manifest.CorruptManifest? then Some(AtEdit(false))
      else if HasName(EntriesIn(dir), c.path) then Some(AtEdit(true))
      else Some(AtFile(EntriesIn(dir)))
    case AtFile(known) =>
      if reply.Refused? then Some(AtEdit(false))
      else if FileOf(c.path) in w.files then Some(AtBlob(known, w.files[FileOf(c.path)]))
      else Some(AtTmp(known + [NewFile(c.path)]))
    case AtBlob(known, _) =>
      (match reply
       case Finished => Some(AtTmp(known + [NewBlob(c.path, known)]))
       case Refused => Some(AtEdit(false))
       case Cut(_) => Some(c.pc))
    case AtTmp(next) =>
      (match reply
       case Finished => Some(AtRename(next))
       case Refused => Some(AtEdit(false))
       case Cut(_) => Some(c.pc))
    case AtRename(_) => Some(AtEdit(reply.Finished? && !dir.tmp.NoTmp?))
    case AtEdit(_) => if reply.Cut? then Some(c.pc) else None
  }

  function NextDir(dir: TurnDir, c: Call, reply: Reply): TurnDir {
    if reply.Refused? then dir
    else
      match c.pc
      case AtBlob(known, bytes) =>
        dir.(blobs := dir.blobs[BlobName(|known|) := if reply.Cut? then reply.bytes else bytes])
      case AtTmp(next) => dir.(tmp := if reply.Cut? then Torn else Whole(next))
      case AtRename(_) => if dir.tmp.NoTmp? then dir else Renamed(dir)
      case _ => dir
  }

  predicate Writes(c: Call, reply: Reply) {
    !reply.Refused? && (c.pc.AtBlob? || c.pc.AtTmp? || c.pc.AtRename?)
  }

  /** What a write may have written so far. */
  predicate CutOk(c: Call, reply: Reply) {
    reply.Cut? ==>
      match c.pc
      case AtBlob(_, bytes) => reply.bytes <= bytes
      case AtTmp(_) => true
      case AtEdit(_) => c.content.Has? && reply.bytes <= c.content.bytes
      case _ => false
  }

  function Written(c: Call, reply: Reply): Content {
    if reply.Cut? then Has(reply.bytes) else c.content
  }

  function Gone(w: World, root: string, id: nat, reply: Reply): World
    requires id in w.calls
  {
    var c := w.calls[id];
    var pc := NextPc(w, c, reply);
    var calls := if pc.None? then w.calls - {id} else w.calls[id := c.(pc := pc.value)];
    if c.pc.AtEdit? && !reply.Refused? then
      Altered(w, root, FileOf(c.path), Written(c, reply)).(calls := calls)
    else if Writes(c, reply)
      then w.(turns := w.turns[c.turn := NextDir(DirAt(w.turns, c.turn), c, reply)], calls := calls)
    else w.(calls := calls)
  }

  function Altered(w: World, root: string, f: Place, content: Content): World {
    w.(files := Write(w.files, f, content),
       lost := w.lost + ChangeLoses(LogOf(w.turns), root, w.turn, w.open, f))
  }

  // ---------------------------------------------------------------------------
  // Steps
  // ---------------------------------------------------------------------------

  /** The turn of the calls in flight is over. */
  function Overtaken(calls: map<nat, Call>): map<nat, Call> {
    map id | id in calls :: calls[id].(late := true)
  }

  function Next(w: World, root: string, s: Step): World {
    match s
    case NextTurn(t) =>
      World(w.files, w.turns, t, true, Overtaken(w.calls), EndsAt(w.ends, t, w.files), Settled(w.lost, t))
    case Spawn(id, t, path, content) =>
      w.(calls := w.calls[id := Call(t, path, content, AtManifest, !w.open || t != w.turn, false)])
    case Go(id, reply) => if id in w.calls then Gone(w, root, id, reply) else w
    case Abort(id) => if id in w.calls then w.(calls := w.calls[id := w.calls[id].(aborted := true)]) else w
    case Rewind(t, after, pruned) =>
      World(after, if pruned then (map u | u in w.turns && u <= t :: w.turns[u]) else w.turns,
            if pruned then t else w.turn, false, Overtaken(w.calls), map u | u in w.ends && u <= t :: w.ends[u],
            w.lost + if t in w.ends then (set f | f in Differing(after, w.ends[t]) :: (t + 1, f)) else {})
  }

  /** A rewind, and the turn of another run, may begin with calls in flight, and a run that goes on
      may start calls of a turn that has been undone. A restore may stop half way. */
  ghost predicate Enabled(w: World, root: string, s: Step) {
    match s
    case NextTurn(t) => forall u | u in LogOf(w.turns) :: u < t
    case Spawn(id, _, _, _) => id !in w.calls
    case Go(id, reply) => id in w.calls && CutOk(w.calls[id], reply)
    case Abort(id) => id in w.calls
    case Rewind(t, after, _) => t in w.ends && OnlyCoveredDiffer(LogOf(w.turns), root, t, w.files, after)
  }

  function Start(files: Files): World {
    World(files, map[], 0, false, map[], map[0 := files], {})
  }

  function Reach(files: Files, root: string, steps: seq<Step>): World {
    if steps == [] then Start(files)
    else Next(Reach(files, root, steps[..|steps| - 1]), root, steps[|steps| - 1])
  }

  ghost predicate Possible(files: Files, root: string, steps: seq<Step>) {
    steps == [] ||
      var front, last := steps[..|steps| - 1], steps[|steps| - 1];
      Possible(files, root, front) && Enabled(Reach(files, root, front), root, last)
  }

  /** Between the read of the manifest of the current turn and its replacement. */
  predicate BackingUp(c: Call) {
    !c.late && (c.pc.AtFile? || c.pc.AtBlob? || c.pc.AtTmp? || c.pc.AtRename?)
  }

  /** No two calls are backing up at the same time. */
  predicate Exclusive(w: World) {
    forall i, j | i in w.calls && j in w.calls && BackingUp(w.calls[i]) && BackingUp(w.calls[j]) :: i == j
  }

  ghost predicate OneAtATime(files: Files, root: string, steps: seq<Step>) {
    forall n | 0 <= n <= |steps| :: Exclusive(Reach(files, root, steps[..n]))
  }

  /** A late call writes a blob, the temporary manifest or the manifest. */
  predicate BacksUpLate(w: World, s: Step) {
    s.Go? && s.id in w.calls && w.calls[s.id].late && Writes(w.calls[s.id], s.reply)
  }

  /** No call backs anything up when its turn is over. */
  ghost predicate BackedUpInTime(files: Files, root: string, steps: seq<Step>) {
    forall n | 0 <= n < |steps| :: !BacksUpLate(Reach(files, root, steps[..n]), steps[n])
  }

  // ---------------------------------------------------------------------------
  // What holds while no two backups overlap
  // ---------------------------------------------------------------------------

  /** The recorded content is the file's, unless the file needs none or is lost. */
  ghost predicate PriorOk(w: World, root: string, path: string, prior: Content) {
    var f := FileOf(path);
    Covers(LogOf(w.turns), root, w.turn, f) || (w.turn, f) in w.lost || prior == Lookup(w.files, f)
  }

  predicate Knows(w: World, path: string, known: seq<Entry>) {
    known == EntriesIn(Dir(w)) && !HasName(known, path)
  }

  ghost predicate EntryOk(w: World, root: string, path: string, e: Entry, n: nat) {
    && e.path == path
    && (if e.existedBefore
        then e.blob == Some(BlobName(n)) && BlobName(n) in Dir(w).blobs &&
          PriorOk(w, root, path, Has(Dir(w).blobs[BlobName(n)]))
        else e.blob.None? && PriorOk(w, root, path, Missing))
  }

  ghost predicate NextOk(w: World, root: string, path: string, next: seq<Entry>) {
    next != [] && Knows(w, path, next[..|next| - 1]) && EntryOk(w, root, path, next[|next| - 1], |next| - 1)
  }

  /** Nothing is known of a late call. */
  ghost predicate CallOk(w: World, root: string, c: Call) {
    c.late || (w.open && c.turn == w.turn && PcOk(w, root, c))
  }

  ghost predicate PcOk(w: World, root: string, c: Call) {
    match c.pc
    case AtManifest => true
    case AtFile(known) => Knows(w, c.path, known)
    case AtBlob(known, bytes) => Knows(w, c.path, known) && PriorOk(w, root, c.path, Has(bytes))
    case AtTmp(next) => NextOk(w, root, c.path, next)
    case AtRename(next) => NextOk(w, root, c.path, next) && Dir(w).tmp == Whole(next)
    case AtEdit(backed) => backed && WithinRoot(root, c.path) ==> Covers(LogOf(w.turns), root, w.turn, FileOf(c.path))
  }

  ghost predicate WorldOk(w: World, root: string) {
    && (forall t | t in w.turns :: DirOk(w.turns[t]))
    && (forall id | id in w.calls :: CallOk(w, root, w.calls[id]))
  }

  /** The log does not see a change of blobs that no entry refers to, or of the temporary file. */
  lemma SameLog(turns: map<nat, TurnDir>, t: nat, dir: TurnDir)
    requires dir.manifest == DirAt(turns, t).manifest && View(dir) == View(DirAt(turns, t))
    ensures LogOf(turns[t := dir]) == LogOf(turns)
  {
  }

  lemma EntriesLogged(turns: map<nat, TurnDir>, t: nat)
    ensures EntriesOf(LogOf(turns), t) == View(DirAt(turns, t))
  {
  }

  lemma NewLog(turns: map<nat, TurnDir>, t: nat, dir: TurnDir)
    requires dir.manifest.Entries?
    ensures LogOf(turns[t := dir]) == LogOf(turns)[t := View(dir)]
  {
  }

  /** Nothing of the current turn's record changes. */
  ghost predicate SameRecords(w: World, next: World) {
    && LogOf(next.turns) == LogOf(w.turns) && next.turn == w.turn && next.files == w.files && next.lost == w.lost
    && next.open == w.open && next.ends == w.ends && EntriesIn(Dir(next)) == EntriesIn(Dir(w))
    && forall t | t in next.turns :: DirOk(next.turns[t])
  }

  /** The step is one of the timeline, or none. */
  ghost predicate Follows(w: World, root: string, next: World) {
    Line(next) == Line(w) || exists m :: CanPlay(Line(w), root, m) && Line(next) == Played(Line(w), root, m)
  }

  /** A call that is not backing up does not mind. */
  lemma IdleOk(w: World, next: World, root: string, c: Call)
    requires CallOk(w, root, c) && !BackingUp(c) && next.turn == w.turn && next.open == w.open
    requires forall f | Covers(LogOf(w.turns), root, w.turn, f) :: Covers(LogOf(next.turns), root, w.turn, f)
    ensures CallOk(next, root, c)
  {
  }

  lemma OthersIdle(w: World, next: World, root: string, id: nat)
    requires WorldOk(w, root) && id in w.calls && (forall j | j in w.calls && j != id :: !BackingUp(w.calls[j]))
    requires next.turn == w.turn && next.open == w.open && next.calls.Keys <= w.calls.Keys
    requires forall j | j in next.calls && j != id :: next.calls[j] == w.calls[j]
    requires forall f | Covers(LogOf(w.turns), root, w.turn, f) :: Covers(LogOf(next.turns), root, w.turn, f)
    requires id in next.calls ==> CallOk(next, root, next.calls[id])
    ensures forall j | j in next.calls :: CallOk(next, root, next.calls[j])
  {
    forall j | j in next.calls ensures CallOk(next, root, next.calls[j]) {
      if j != id {
        IdleOk(w, next, root, w.calls[j]);
      }
    }
  }

  lemma CallStays(w: World, next: World, root: string, c: Call)
    requires SameRecords(w, next) && CallOk(w, root, c) && Dir(next) == Dir(w)
    ensures CallOk(next, root, c)
  {
  }

  /** Reading the manifest. */
  lemma ManifestGone(w: World, root: string, id: nat, reply: Reply)
    requires WorldOk(w, root) && id in w.calls && w.calls[id].pc.AtManifest? && !w.calls[id].late
    ensures var next := Gone(w, root, id, reply); WorldOk(next, root) && Line(next) == Line(w)
  {
    var c, next := w.calls[id], Gone(w, root, id, reply);
    forall j | j in next.calls ensures CallOk(next, root, next.calls[j]) {
      if j != id {
        CallStays(w, next, root, w.calls[j]);
      } else if next.calls[id].pc == AtEdit(true) && WithinRoot(root, c.path) && HasName(EntriesIn(Dir(w)), c.path) {
        NameCovers(w, root, c.path);
      }
    }
  }

  /** A name in the manifest is a backup of its file. */
  lemma NameCovers(w: World, root: string, path: string)
    requires HasName(EntriesIn(Dir(w)), path) && WithinRoot(root, path)
    ensures Covers(LogOf(w.turns), root, w.turn, FileOf(path))
  {
    NamedStays(Dir(w), path);
    EntriesLogged(w.turns, w.turn);
    EntryCovers(LogOf(w.turns), root, w.turn, path);
  }

  /** Looking at the file. */
  lemma {:induction false} FileGone(w: World, root: string, id: nat, reply: Reply)
    requires WorldOk(w, root) && id in w.calls && w.calls[id].pc.AtFile? && !w.calls[id].late
    ensures var next := Gone(w, root, id, reply); WorldOk(next, root) && Line(next) == Line(w)
  {
    var c, next := w.calls[id], Gone(w, root, id, reply);
    assert CallOk(w, root, c);
    if id in next.calls {
      FileCall(w, root, c, reply, next.calls[id].pc);
    }
    forall j | j in next.calls ensures CallOk(next, root, next.calls[j]) {
      CallStays(w, next, root, next.calls[j]);
    }
  }

  lemma FileCall(w: World, root: string, c: Call, reply: Reply, pc: Pc)
    requires CallOk(w, root, c) && !c.late && c.pc.AtFile? && NextPc(w, c, reply) == Some(pc)
    ensures CallOk(w, root, c.(pc := pc))
  {
    var known := c.pc.known;
    assert (known + [NewFile(c.path)])[..|known|] == known;
  }

  /** Writing the blob, whole or in part. */
  lemma {:induction false} BlobGone(w: World, root: string, id: nat, reply: Reply)
    requires WorldOk(w, root) && Exclusive(w) && id in w.calls && w.calls[id].pc.AtBlob? && !reply.Refused?
    requires !w.calls[id].late
    ensures var next := Gone(w, root, id, reply); WorldOk(next, root) && Line(next) == Line(w)
  {
    var c, next := w.calls[id], Gone(w, root, id, reply);
    var known := c.pc.known;
    assert CallOk(w, root, c);
    BlobDir(Dir(w), c, reply);
    SameLog(w.turns, w.turn, NextDir(Dir(w), c, reply));
    if id in next.calls {
      BlobCall(w, next, root, c, reply, next.calls[id].pc);
    }
    OthersIdle(w, next, root, id);
  }

  lemma BlobDir(dir: TurnDir, c: Call, reply: Reply)
    requires DirOk(dir) && c.pc.AtBlob? && c.pc.known == EntriesIn(dir) && !reply.Refused?
    ensures var next := NextDir(dir, c, reply); DirOk(next) && View(next) == View(dir) && next.manifest == dir.manifest
  {
    NextBlobFree(dir, if reply.Cut? then reply.bytes else c.pc.bytes);
  }

  lemma BlobCall(w: World, next: World, root: string, c: Call, reply: Reply, pc: Pc)
    requires CallOk(w, root, c) && !c.late && c.pc.AtBlob? && !reply.Refused? && LogOf(next.turns) == LogOf(w.turns)
    requires NextPc(w, c, reply) == Some(pc)
    requires next == w.(turns := w.turns[w.turn := NextDir(Dir(w), c, reply)], calls := next.calls)
    ensures CallOk(next, root, c.(pc := pc))
  {
    var known := c.pc.known;
    assert Dir(next) == NextDir(Dir(w), c, reply);
    assert (known + [NewBlob(c.path, known)])[..|known|] == known;
  }

  /** Writing the temporary manifest, whole or in part. */
  lemma TmpGone(w: World, root: string, id: nat, reply: Reply)
    requires WorldOk(w, root) && Exclusive(w) && id in w.calls && w.calls[id].pc.AtTmp? && !reply.Refused?
    requires !w.calls[id].late
    ensures var next := Gone(w, root, id, reply); WorldOk(next, root) && Line(next) == Line(w)
  {
    var c, next := w.calls[id], Gone(w, root, id, reply);
    var dir := NextDir(Dir(w), c, reply);
    assert CallOk(w, root, c);
    SameRecord(dir, Dir(w));
    SameLog(w.turns, w.turn, dir);
    assert Dir(next) == dir;
    OthersIdle(w, next, root, id);
  }

  /** Putting the manifest in place: the timeline's backup. */
  lemma RenameGone(w: World, root: string, id: nat, reply: Reply)
    requires WorldOk(w, root) && Exclusive(w) && id in w.calls && w.calls[id].pc.AtRename? && !reply.Refused?
    requires !w.calls[id].late && CutOk(w.calls[id], reply)
    ensures var next := Gone(w, root, id, reply); WorldOk(next, root) && Follows(w, root, next)
  {
    var c, next := w.calls[id], Gone(w, root, id, reply);
    assert CallOk(w, root, c);
    assert next.calls == if c.aborted then w.calls - {id} else w.calls[id := c.(pc := AtEdit(true))];
    InPlaceOk(w, next, root, id, c);
  }

  lemma InPlaceOk(w: World, next: World, root: string, id: nat, c: Call)
    requires WorldOk(w, root) && Exclusive(w) && id in w.calls && w.calls[id] == c && BackingUp(c) && c.pc.AtRename?
    requires next == w.(turns := w.turns[w.turn := Renamed(Dir(w))], calls := next.calls)
    requires next.calls == if c.aborted then w.calls - {id} else w.calls[id := c.(pc := AtEdit(true))]
    ensures WorldOk(next, root) && Follows(w, root, next)
  {
    RenameFollows(w, next, root, c);
    InPlaceCalls(w, next, root, id, c);
  }

  lemma InPlaceCalls(w: World, next: World, root: string, id: nat, c: Call)
    requires WorldOk(w, root) && Exclusive(w) && id in w.calls && w.calls[id] == c && BackingUp(c)
    requires next.turn == w.turn && next.open == w.open
    requires next.calls == if c.aborted then w.calls - {id} else w.calls[id := c.(pc := AtEdit(true))]
    requires forall f | Covers(LogOf(w.turns), root, w.turn, f) :: Covers(LogOf(next.turns), root, w.turn, f)
    requires WithinRoot(root, c.path) ==> Covers(LogOf(next.turns), root, w.turn, FileOf(c.path))
    ensures forall j | j in next.calls :: CallOk(next, root, next.calls[j])
  {
    OthersIdle(w, next, root, id);
  }

  lemma RenameFollows(w: World, next: World, root: string, c: Call)
    requires DirOk(Dir(w)) && CallOk(w, root, c) && c.pc.AtRename? && !c.late
    requires next == w.(turns := w.turns[w.turn := Renamed(Dir(w))], calls := next.calls)
    ensures DirOk(Dir(next)) && Follows(w, root, next)
    ensures forall f | Covers(LogOf(w.turns), root, w.turn, f) :: Covers(LogOf(next.turns), root, w.turn, f)
    ensures WithinRoot(root, c.path) ==> Covers(LogOf(next.turns), root, w.turn, FileOf(c.path))
  {
    var b := RenamedDir(w, root, c);
    NewLog(w.turns, w.turn, Renamed(Dir(w)));
    EntriesLogged(w.turns, w.turn);
    Recording(w, next, root, c.path, b.prior);
    CoversMore(LogOf(w.turns), LogOf(next.turns), root, w.turn, b);
    if WithinRoot(root, c.path) {
      NameCovers(next, root, c.path);
    }
  }

  lemma RenamedDir(w: World, root: string, c: Call) returns (b: Backup)
    requires DirOk(Dir(w)) && CallOk(w, root, c) && c.pc.AtRename? && !c.late
    ensures var dir := Renamed(Dir(w));
      DirOk(dir) && dir.manifest.Entries? && View(dir) == View(Dir(w)) + [b] && HasName(EntriesIn(dir), c.path)
    ensures b.path == c.path && PriorOk(w, root, c.path, b.prior) && !HasEntry(View(Dir(w)), c.path)
  {
    var before, entries := Dir(w), c.pc.next;
    var n := |entries| - 1;
    var e := entries[n];
    assert entries == EntriesIn(before) + [e];
    EntryAdded(before, e);
    var plain := before.(manifest := Entries(entries));
    SameRecord(Renamed(before), plain);
    b := Checkpoint.Recorded(plain, e);
    assert EntriesIn(Renamed(before))[n].path == c.path;
  }

  lemma Recording(w: World, next: World, root: string, path: string, prior: Content)
    requires w.open && !HasEntry(EntriesOf(LogOf(w.turns), w.turn), path) && PriorOk(w, root, path, prior)
    requires LogOf(next.turns) == LogOf(w.turns)[w.turn := EntriesOf(LogOf(w.turns), w.turn) + [Backup(path, prior)]]
    requires next == w.(turns := next.turns, calls := next.calls)
    ensures Follows(w, root, next)
  {
    var m := Record(path, prior);
    assert CanPlay(Line(w), root, m) && Line(next) == Played(Line(w), root, m);
  }

  lemma CoversMore(log: Log, more: Log, root: string, t: nat, b: Backup)
    requires more == log[t := EntriesOf(log, t) + [b]]
    ensures forall f | Covers(log, root, t, f) :: Covers(more, root, t, f)
  {
    forall f | Covers(log, root, t, f) ensures Covers(more, root, t, f) {
      FirstAppend(log[t], b, root, f);
    }
  }

  /** Changing the file, whole or in part: the timeline's change. */
  lemma EditGone(w: World, root: string, id: nat, reply: Reply)
    requires WorldOk(w, root) && id in w.calls && w.calls[id].pc.AtEdit? && !reply.Refused?
    ensures var next := Gone(w, root, id, reply); WorldOk(next, root) && Follows(w, root, next)
  {
    var c, next := w.calls[id], Gone(w, root, id, reply);
    var m := Change(FileOf(c.path), Written(c, reply));
    assert CanPlay(Line(w), root, m) && Line(next) == Played(Line(w), root, m);
    forall j | j in next.calls ensures CallOk(next, root, next.calls[j]) {
      ChangeKeeps(w, next, root, w.calls[j], FileOf(c.path), Written(c, reply));
    }
  }

  /** A change of an uncovered file makes it lost, so what was read of it does not matter. */
  lemma ChangeKeeps(w: World, next: World, root: string, c: Call, f: Place, content: Content)
    requires CallOk(w, root, c) && next == Altered(w, root, f, content).(calls := next.calls)
    ensures CallOk(next, root, c)
  {
    forall path, prior | w.open && PriorOk(w, root, path, prior) ensures PriorOk(next, root, path, prior) {
      if FileOf(path) != f {
        assert Lookup(next.files, FileOf(path)) == Lookup(w.files, FileOf(path));
      }
    }
    assert Dir(next) == Dir(w);
  }

  /** A failed operation writes nothing. */
  lemma RefusedGone(w: World, root: string, id: nat)
    requires WorldOk(w, root) && id in w.calls
    ensures var next := Gone(w, root, id, Refused); WorldOk(next, root) && Line(next) == Line(w)
  {
    var next := Gone(w, root, id, Refused);
    forall j | j in next.calls ensures CallOk(next, root, next.calls[j]) {
      if j != id {
        CallStays(w, next, root, w.calls[j]);
      }
    }
  }

  /** A late call that writes nothing. */
  lemma LateGone(w: World, root: string, id: nat, reply: Reply)
    requires WorldOk(w, root) && id in w.calls && w.calls[id].late && !Writes(w.calls[id], reply)
    requires !w.calls[id].pc.AtEdit?
    ensures var next := Gone(w, root, id, reply); WorldOk(next, root) && Line(next) == Line(w)
  {
    var next := Gone(w, root, id, reply);
    forall j | j in next.calls ensures CallOk(next, root, next.calls[j]) {
      if j != id {
        CallStays(w, next, root, w.calls[j]);
      }
    }
  }

  lemma GoneOk(w: World, root: string, id: nat, reply: Reply)
    requires WorldOk(w, root) && Exclusive(w) && id in w.calls
    requires CutOk(w.calls[id], reply) && (w.calls[id].late ==> !Writes(w.calls[id], reply))
    ensures var next := Gone(w, root, id, reply); WorldOk(next, root) && Follows(w, root, next)
  {
    if reply.Refused? {
      RefusedGone(w, root, id);
    } else if w.calls[id].late && !w.calls[id].pc.AtEdit? {
      LateGone(w, root, id, reply);
    } else {
      match w.calls[id].pc
      case AtManifest => ManifestGone(w, root, id, reply);
      case AtFile(_) => FileGone(w, root, id, reply);
      case AtBlob(_, _) => BlobGone(w, root, id, reply);
      case AtTmp(_) => TmpGone(w, root, id, reply);
      case AtRename(_) => RenameGone(w, root, id, reply);
      case AtEdit(_) => EditGone(w, root, id, reply);
    }
  }

  lemma TurnOk(w: World, root: string, t: nat)
    requires WorldOk(w, root) && Enabled(w, root, NextTurn(t))
    ensures var next := Next(w, root, NextTurn(t)); WorldOk(next, root) && Follows(w, root, next)
  {
    assert CanPlay(Line(w), root, BeginTurn(t));
    assert Line(Next(w, root, NextTurn(t))) == Played(Line(w), root, BeginTurn(t));
  }

  lemma BackOk(w: World, root: string, t: nat, after: Files, pruned: bool)
    requires WorldOk(w, root) && Enabled(w, root, Rewind(t, after, pruned))
    ensures var next := Next(w, root, Rewind(t, after, pruned)); WorldOk(next, root) && Follows(w, root, next)
  {
    BackFollows(w, root, t, after, pruned);
  }

  lemma BackFollows(w: World, root: string, t: nat, after: Files, pruned: bool)
    requires Enabled(w, root, Rewind(t, after, pruned))
    ensures Follows(w, root, Next(w, root, Rewind(t, after, pruned)))
  {
    var next, m := Next(w, root, Rewind(t, after, pruned)), RewindTo(t, after, pruned);
    PrunedTurns(w.turns, t);
    assert CanPlay(Line(w), root, m) && Line(next) == Played(Line(w), root, m);
  }

  lemma PrunedTurns(turns: map<nat, TurnDir>, t: nat)
    ensures LogOf(map u | u in turns && u <= t :: turns[u]) == Pruned(LogOf(turns), t)
  {
  }

  lemma CallsOk(w: World, root: string, s: Step)
    requires WorldOk(w, root) && Enabled(w, root, s) && (s.Spawn? || s.Abort?)
    ensures var next := Next(w, root, s); WorldOk(next, root) && Line(next) == Line(w)
  {
    var next := Next(w, root, s);
    forall j | j in next.calls ensures CallOk(next, root, next.calls[j]) {
      if j in w.calls && next.calls[j] == w.calls[j] {
        CallStays(w, next, root, w.calls[j]);
      }
    }
  }

  /** Every step keeps the manifests whole and is one of the timeline, or none. */
  lemma StepOk(w: World, root: string, s: Step)
    requires WorldOk(w, root) && Exclusive(w) && Enabled(w, root, s) && !BacksUpLate(w, s)
    ensures var next := Next(w, root, s); WorldOk(next, root) && Follows(w, root, next)
  {
    match s
    case NextTurn(t) => TurnOk(w, root, t);
    case Spawn(_, _, _, _) => CallsOk(w, root, s);
    case Abort(_) => CallsOk(w, root, s);
    case Go(id, reply) => GoneOk(w, root, id, reply);
    case Rewind(t, after, pruned) => BackOk(w, root, t, after, pruned);
  }

  // ---------------------------------------------------------------------------
  // Runs in which backups do not overlap
  // ---------------------------------------------------------------------------

  ghost predicate IsPlay(files: Files, root: string, moves: seq<Move>, tl: Timeline) {
    Plays(files, root, moves) && Play(files, root, moves) == tl
  }

  lemma FrontOneAtATime(files: Files, root: string, steps: seq<Step>)
    requires steps != [] && OneAtATime(files, root, steps)
    ensures OneAtATime(files, root, steps[..|steps| - 1]) && Exclusive(Reach(files, root, steps[..|steps| - 1]))
  {
    AllExclusive(files, root, steps, |steps| - 1);
  }

  lemma AllExclusive(files: Files, root: string, steps: seq<Step>, k: nat)
    requires k <= |steps| && forall n | 0 <= n <= k :: Exclusive(Reach(files, root, steps[..n]))
    ensures OneAtATime(files, root, steps[..k]) && Exclusive(Reach(files, root, steps[..k]))
  {
    var front := steps[..k];
    forall n | 0 <= n <= |front| ensures Exclusive(Reach(files, root, front[..n])) {
      assert front[..n] == steps[..n];
    }
    assert front[..|front|] == front;
  }

  lemma FrontInTime(files: Files, root: string, steps: seq<Step>)
    requires steps != [] && BackedUpInTime(files, root, steps)
    ensures var front := steps[..|steps| - 1];
      BackedUpInTime(files, root, front) && !BacksUpLate(Reach(files, root, front), steps[|steps| - 1])
  {
    var front := steps[..|steps| - 1];
    forall n | 0 <= n < |front| ensures !BacksUpLate(Reach(files, root, front[..n]), front[n]) {
      assert front[..n] == steps[..n] && front[n] == steps[n];
    }
    assert !BacksUpLate(Reach(files, root, steps[..|front|]), steps[|front|]);
  }

  /** Such a run shows a timeline, however its calls are cut off, fail and interleave, and whatever
      files late calls change. */
  lemma {:induction false} ShowsTimeline(files: Files, root: string, steps: seq<Step>)
    requires Possible(files, root, steps) && OneAtATime(files, root, steps) && BackedUpInTime(files, root, steps)
    ensures WorldOk(Reach(files, root, steps), root)
    ensures exists moves :: IsPlay(files, root, moves, Line(Reach(files, root, steps)))
  {
    if steps == [] {
      assert IsPlay(files, root, [], Line(Start(files)));
    } else {
      var front, last := steps[..|steps| - 1], steps[|steps| - 1];
      FrontOneAtATime(files, root, steps);
      FrontInTime(files, root, steps);
      ShowsTimeline(files, root, front);
      var moves :| IsPlay(files, root, moves, Line(Reach(files, root, front)));
      StepOk(Reach(files, root, front), root, last);
      FollowOn(files, root, moves, Reach(files, root, front), Reach(files, root, steps));
    }
  }

  lemma FollowOn(files: Files, root: string, moves: seq<Move>, w: World, next: World)
    requires IsPlay(files, root, moves, Line(w)) && Follows(w, root, next)
    ensures exists more :: IsPlay(files, root, more, Line(next))
  {
    if Line(next) == Line(w) {
      assert IsPlay(files, root, moves, Line(next));
    } else {
      var m :| CanPlay(Line(w), root, m) && Line(next) == Played(Line(w), root, m);
      PlayOn(files, root, moves, m);
      assert IsPlay(files, root, moves + [m], Line(next));
    }
  }

  /** At every moment of such a run, every manifest is whole, and each of its entries has its blob. */
  lemma ManifestsWhole(files: Files, root: string, steps: seq<Step>, t: nat)
    requires Possible(files, root, steps) && OneAtATime(files, root, steps) && BackedUpInTime(files, root, steps)
    requires t in Reach(files, root, steps).turns
    ensures DirOk(Reach(files, root, steps).turns[t])
  {
    ShowsTimeline(files, root, steps);
  }

  /** After such a run a rewind gives back every file that was not lost since, as it stood at the end
      of the turn, exactly when the backups above it are consistent for the file. */
  lemma ParallelRewind(files: Files, root: string, steps: seq<Step>, t: nat, after: Files, f: Place)
    requires Possible(files, root, steps) && OneAtATime(files, root, steps) && BackedUpInTime(files, root, steps)
    requires var w := Reach(files, root, steps);
      t in w.ends && Restored(LogOf(w.turns), root, t, w.files, after) && !Lost(w.lost, t, f)
    ensures var w := Reach(files, root, steps);
      Lookup(after, f) == Lookup(w.ends[t], f) <==> ConsistentAt(LogOf(w.turns), root, t, f)
  {
    ShowsTimeline(files, root, steps);
    var moves :| IsPlay(files, root, moves, Line(Reach(files, root, steps)));
    RewindCorrect(files, root, moves, t, after, f);
  }

  // ---------------------------------------------------------------------------
  // Nothing is lost by backed-up edits
  // ---------------------------------------------------------------------------

  /** The step changes a file that it has not backed up, or that lies outside the project, or whose
      turn is over, or is a rewind that stopped half way or is over inconsistent backups. */
  ghost predicate Careless(w: World, root: string, s: Step) {
    match s
    case Go(id, reply) =>
      && id in w.calls && w.calls[id].pc.AtEdit? && !reply.Refused?
      && (w.calls[id].late || !w.calls[id].pc.backed || !WithinRoot(root, w.calls[id].path))
    case Rewind(t, after, _) =>
      !Restored(LogOf(w.turns), root, t, w.files, after) || !Consistent(LogOf(w.turns), root, t)
    case _ => false
  }

  ghost predicate Careful(files: Files, root: string, steps: seq<Step>) {
    forall n | 0 <= n < |steps| :: !Careless(Reach(files, root, steps[..n]), root, steps[n])
  }

  lemma CarefulStep(w: World, root: string, s: Step)
    requires WorldOk(w, root) && TimelineOk(Line(w), root) && Enabled(w, root, s) && !Careless(w, root, s)
    requires w.lost == {}
    ensures Next(w, root, s).lost == {}
  {
    match s
    case Go(id, reply) => CarefulGo(w, root, id, reply);
    case Rewind(t, after, _) => CarefulRewind(Line(w), root, t, after);
    case _ =>
  }

  lemma CarefulGo(w: World, root: string, id: nat, reply: Reply)
    requires id in w.calls && CallOk(w, root, w.calls[id]) && !Careless(w, root, Go(id, reply)) && w.lost == {}
    ensures Gone(w, root, id, reply).lost == {}
  {
    var c := w.calls[id];
    if c.pc.AtEdit? && !reply.Refused? {
      assert w.open && Covers(LogOf(w.turns), root, w.turn, FileOf(c.path));
      assert ChangeLoses(LogOf(w.turns), root, w.turn, w.open, FileOf(c.path)) == {};
    }
  }

  lemma CarefulRewind(tl: Timeline, root: string, t: nat, after: Files)
    requires TimelineOk(tl, root) && t in tl.ends && tl.lost == {}
    requires Restored(tl.log, root, t, tl.files, after) && Consistent(tl.log, root, t)
    ensures Differing(after, tl.ends[t]) == {}
  {
    forall f ensures Lookup(after, f) == Lookup(tl.ends[t], f) {
      RewindExact(tl, root, t, after, f);
    }
  }

  /** When every change is backed up and made in its turn, and every rewind is complete and over
      consistent backups, nothing is lost: a rewind gives back the whole project. */
  lemma {:induction false} NothingLost(files: Files, root: string, steps: seq<Step>)
    requires Possible(files, root, steps) && OneAtATime(files, root, steps) && BackedUpInTime(files, root, steps)
    requires Careful(files, root, steps)
    ensures Reach(files, root, steps).lost == {}
  {
    if steps != [] {
      var front, last := steps[..|steps| - 1], steps[|steps| - 1];
      var w := Reach(files, root, front);
      FrontOneAtATime(files, root, steps);
      FrontInTime(files, root, steps);
      FrontCareful(files, root, steps);
      NothingLost(files, root, front);
      ShowsTimeline(files, root, front);
      var moves :| IsPlay(files, root, moves, Line(w));
      PlaysOk(files, root, moves);
      CarefulStep(w, root, last);
    }
  }

  lemma FrontCareful(files: Files, root: string, steps: seq<Step>)
    requires steps != [] && Careful(files, root, steps)
    ensures var front := steps[..|steps| - 1];
      Careful(files, root, front) && !Careless(Reach(files, root, front), root, steps[|steps| - 1])
  {
    var front := steps[..|steps| - 1];
    forall n | 0 <= n < |front| ensures !Careless(Reach(files, root, front[..n]), root, front[n]) {
      assert front[..n] == steps[..n] && front[n] == steps[n];
    }
    assert !Careless(Reach(files, root, steps[..|front|]), root, steps[|front|]);
  }

  // ---------------------------------------------------------------------------
  // Runs that wait for their calls
  // ---------------------------------------------------------------------------

  /** A turn and a rewind begin with no call in flight, and calls start in the current turn only. */
  predicate Waits(w: World, s: Step) {
    match s
    case NextTurn(_) => w.calls == map[]
    case Rewind(_, _, _) => w.calls == map[]
    case Spawn(_, t, _, _) => w.open && t == w.turn
    case _ => true
  }

  predicate NoneLate(w: World) {
    forall id | id in w.calls :: !w.calls[id].late
  }

  lemma WaitsKeeps(w: World, root: string, s: Step)
    requires NoneLate(w) && Waits(w, s)
    ensures NoneLate(Next(w, root, s)) && !BacksUpLate(w, s)
  {
  }

  ghost predicate Waiting(files: Files, root: string, steps: seq<Step>) {
    forall n | 0 <= n < |steps| :: Waits(Reach(files, root, steps[..n]), steps[n])
  }

  lemma FrontWaiting(files: Files, root: string, steps: seq<Step>)
    requires steps != [] && Waiting(files, root, steps)
    ensures var front := steps[..|steps| - 1];
      Waiting(files, root, front) && Waits(Reach(files, root, front), steps[|steps| - 1])
  {
    var front := steps[..|steps| - 1];
    forall n | 0 <= n < |front| ensures Waits(Reach(files, root, front[..n]), front[n]) {
      assert front[..n] == steps[..n] && front[n] == steps[n];
    }
    assert Waits(Reach(files, root, steps[..|front|]), steps[|front|]);
  }

  lemma InTimeOn(files: Files, root: string, steps: seq<Step>)
    requires steps != []
    requires var front := steps[..|steps| - 1];
      BackedUpInTime(files, root, front) && !BacksUpLate(Reach(files, root, front), steps[|steps| - 1])
    ensures BackedUpInTime(files, root, steps)
  {
    var front := steps[..|steps| - 1];
    forall n | 0 <= n < |steps| ensures !BacksUpLate(Reach(files, root, steps[..n]), steps[n]) {
      if n < |front| {
        assert front[..n] == steps[..n] && front[n] == steps[n];
      }
    }
  }

  /** Then no call is ever late. */
  lemma {:induction false} WaitingInTime(files: Files, root: string, steps: seq<Step>)
    requires Waiting(files, root, steps)
    ensures BackedUpInTime(files, root, steps) && NoneLate(Reach(files, root, steps))
  {
    if steps != [] {
      var front, last := steps[..|steps| - 1], steps[|steps| - 1];
      FrontWaiting(files, root, steps);
      WaitingInTime(files, root, front);
      WaitsKeeps(Reach(files, root, front), root, last);
      InTimeOn(files, root, steps);
    }
  }
}
