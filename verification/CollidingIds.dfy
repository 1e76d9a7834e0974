/** Two batches with one identifier: the content of one is overwritten by that of the other, and the
    finalizer commits files the indexer never saw. */
module CollidingIds {
  import opened Lexicographic
  import opened Utf8
  import opened Digests
  import opened MerkleTree
  import opened BatchText
  import opened SyncState
  import opened SyncMachine
  import opened SyncTheorems
  import opened Entries
  import opened BatchIds
  import Ingest

  // ---------------------------------------------------------------------------
  // The batches
  // ---------------------------------------------------------------------------

  const H1 := Sha("1")
  const H2 := Sha("2")

  /** A file name that spells out the rest of one entry and the beginning of the next. */
  const Odd: Path := "aa|" + Hex(H2) + "\nfile|a"

  const BatchA := Batch(map["a" := H1, "aa" := H2], {})
  const BatchB := Batch(map[Odd := H1], {})
  const BatchC := Batch(map[Odd := H1, "s" := H1], {})

  const Client: Leaves := map["a" := H1, "aa" := H2, Odd := H1, "s" := H1]

  function LineOf(p: Path, h: Hash): string {
    Line(FileItem(p, h))
  }

  lemma OddNames()
    ensures Odd != "a" && Odd != "aa" && Odd != "s" && "a" != "aa" && "a" != "s" && "aa" != "s"
  {
    assert |Odd| > 2;
    assert |"a"| == 1 && |"aa"| == 2 && |"s"| == 1;
    assert "a"[0] != "s"[0];
  }

  lemma OddLine()
    ensures LineOf(Odd, H1) == LineOf("aa", H2) + "\n" + LineOf("a", H1)
  {
    var x, y := Hex(H2), Hex(H1);
    assert LineOf("aa", H2) == "file|aa|" + x;
    assert LineOf("a", H1) == "file|a|" + y;
    assert LineOf(Odd, H1) == "file" + "|" + ("aa|" + x + "\nfile|a") + "|" + y;
  }

  lemma LinesInOrder()
    ensures Le(LineOf("aa", H2), LineOf("a", H1)) && LineOf("aa", H2) != LineOf("a", H1)
  {
    var u, v := LineOf("aa", H2), LineOf("a", H1);
    assert u == "file|aa|" + Hex(H2) && v == "file|a|" + Hex(H1);
    assert u[..6] == "file|a" == v[..6];
    assert u[6] == 'a' && v[6] == '|';
    LeAt(u, v, 6);
  }

  lemma LinesOfTwo(p: Path, g: Hash, q: Path, h: Hash)
    requires p != q
    ensures BatchLines(Batch(map[p := g, q := h], {})) == {LineOf(p, g), LineOf(q, h)}
  {
    var files: Leaves := map[p := g, q := h];
    assert files[p] == g && files[q] == h;
  }

  lemma IdOfTwo(p: Path, g: Hash, q: Path, h: Hash)
    requires p != q && LineOf(p, g) != LineOf(q, h) && Le(LineOf(p, g), LineOf(q, h))
    ensures IdOf(Batch(map[p := g, q := h], {})) == LineOf(p, g) + "\n" + LineOf(q, h)
  {
    var u, v := LineOf(p, g), LineOf(q, h);
    LinesOfTwo(p, g, q, h);
    SortedKeysPair(u, v);
    assert [u, v][1..] == [v];
    assert Join([u, v]) == u + "\n" + Join([v]);
  }

  lemma IdOfOne(p: Path, h: Hash)
    ensures IdOf(Batch(map[p := h], {})) == LineOf(p, h)
  {
    var u := LineOf(p, h);
    var files: Leaves := map[p := h];
    assert files[p] == h;
    assert BatchLines(Batch(files, {})) == {u};
    LeTotal(u, u);
    SortedKeysFirst({u}, u);
    assert {u} - {u} == {};
  }

  lemma IdA()
    ensures IdOf(BatchA) == LineOf(Odd, H1)
  {
    OddNames();
    LinesInOrder();
    OddLine();
    var files: Leaves := map["aa" := H2, "a" := H1];
    assert BatchA.files == files;
    IdOfTwo("aa", H2, "a", H1);
  }

  lemma LineLength(p: Path, h: Hash)
    ensures |LineOf(p, h)| == 6 + |p| + |Hex(h)|
  {
  }

  lemma IdC()
    ensures |IdOf(BatchC)| > |LineOf(Odd, H1)|
  {
    OddNames();
    LineLength(Odd, H1);
    LineLength("s", H1);
    assert |Odd| > 2 && |"s"| == 1;
    LeTotal(LineOf(Odd, H1), LineOf("s", H1));
    if Le(LineOf(Odd, H1), LineOf("s", H1)) {
      IdOfTwo(Odd, H1, "s", H1);
    } else {
      var files: Leaves := map["s" := H1, Odd := H1];
      assert BatchC.files == files;
      IdOfTwo("s", H1, Odd, H1);
    }
  }

  /** Two different batches with one identifier, and a third that has another. */
  lemma SameId()
    ensures IdOf(BatchA) == IdOf(BatchB) && BatchA != BatchB && IdOf(BatchC) != IdOf(BatchA)
  {
    IdA();
    IdOfOne(Odd, H1);
    IdC();
    OddNames();
    assert "a" in BatchA.files && "a" !in BatchB.files;
  }

  // ---------------------------------------------------------------------------
  // What happens when content is overwritten
  // ---------------------------------------------------------------------------

  /** A session takes batch a under key ka and batch c under key kc; b comes to lie under ka. The file
      p is of a, but neither of b nor of c. The deletes of a are listed as in `order`. */
  datatype Plot =
    Plot(x: Session, ka: Key, kc: Key, a: Batch, order: seq<Path>, b: Batch, c: Batch, p: Path)

  function Half(pl: Plot): Session {
    Merge(pl.x, pl.a, pl.order)
  }

  function Full(pl: Plot): Session {
    Merge(Half(pl), pl.c, [])
  }

  ghost predicate PlotOk(pl: Plot) {
    && FreshSession(map[], pl.x) && pl.ka != pl.kc && pl.ka.sync == 0 && pl.kc.sync == 0
    && pl.x.status.Receiving? && SyncMachine.Valid(pl.x, pl.a) && Lists(pl.order, pl.a.deletes)
    && Half(pl).status.Receiving? && SyncMachine.Valid(Half(pl), pl.c) && pl.c.deletes == {}
    && Full(pl).status.Processing?
    && pl.p in pl.a.files && pl.p !in pl.b.files && pl.p !in pl.c.files
  }

  const Unsent := OutboxRow(OutboxPending, false)

  function ContentOf(b: Batch): Content {
    Intact(b.files, b.deletes)
  }

  function Early(x: Session, rows: map<Key, Row>, redis: map<Key, Content>, outbox: map<Task, OutboxRow>): State {
    State(map[0 := x], rows, redis, outbox, map[], {}, multiset{}, map[], map[], History({0}, {}, {}, map[], map[]))
  }

  lemma OpenStep(x: Session)
    requires FreshSession(map[], x)
    ensures Enabled(Initial, CreateSession(0, x))
    ensures Next(Initial, CreateSession(0, x)) == Early(x, map[], map[], map[])
  {
  }

  lemma StoreStep(
    x: Session, rows: map<Key, Row>, redis: map<Key, Content>, outbox: map<Task, OutboxRow>, k: Key, b: Batch)
    requires k.sync == 0
    ensures Enabled(Early(x, rows, redis, outbox), SetContent(k, b))
    ensures Next(Early(x, rows, redis, outbox), SetContent(k, b)) == Early(x, rows, redis[k := ContentOf(b)], outbox)
  {
  }

  lemma AdmitEnabled(
    x: Session, rows: map<Key, Row>, redis: map<Key, Content>, outbox: map<Task, OutboxRow>, k: Key, b: Batch,
    order: seq<Path>)
    requires k.sync == 0 && k !in rows && StreamTask(k) !in outbox
    requires x.status.Receiving? && SyncMachine.Valid(x, b) && Lists(order, b.deletes)
    ensures Enabled(Early(x, rows, redis, outbox), Admit(k, b, order))
  {
  }

  lemma AdmitStep(
    x: Session, rows: map<Key, Row>, redis: map<Key, Content>, outbox: map<Task, OutboxRow>, k: Key, b: Batch,
    order: seq<Path>)
    requires k.sync == 0 && k !in rows && StreamTask(k) !in outbox
    requires Enabled(Early(x, rows, redis, outbox), Admit(k, b, order))
    ensures Next(Early(x, rows, redis, outbox), Admit(k, b, order)) ==
      Early(Merge(x, b, order), rows[k := NewRow(b)], redis, outbox[StreamTask(k) := Unsent])
  {
  }

  /** Checked entries state the batches under these identifiers. */
  ghost predicate PlotStated(ok: Item -> bool, pl: Plot) {
    Ingest.Stated(ok, pl.ka.batch, pl.a) && Ingest.Stated(ok, pl.ka.batch, pl.b) && Ingest.Stated(ok, pl.kc.batch, pl.c)
  }

  lemma Take(ok: Item -> bool, run: seq<Label>, l: Label) returns (longer: seq<Label>)
    requires Legal(run) && Ingest.Posted(ok, run) && Enabled(After(run), l)
    requires l.SetContent? || l.Admit? ==> Ingest.Stated(ok, l.key.batch, l.batch)
    ensures longer == run + [l] && Legal(longer) && Ingest.Posted(ok, longer) && After(longer) == Next(After(run), l)
  {
    longer := run + [l];
    Extend(run, l);
  }

  lemma StoreTake(
    ok: Item -> bool, run: seq<Label>, x: Session, rows: map<Key, Row>, redis: map<Key, Content>,
    outbox: map<Task, OutboxRow>, k: Key, b: Batch)
    returns (longer: seq<Label>)
    requires Legal(run) && Ingest.Posted(ok, run) && After(run) == Early(x, rows, redis, outbox)
    requires k.sync == 0 && Ingest.Stated(ok, k.batch, b)
    ensures Legal(longer) && Ingest.Posted(ok, longer)
    ensures After(longer) == Early(x, rows, redis[k := ContentOf(b)], outbox)
  {
    StoreStep(x, rows, redis, outbox, k, b);
    longer := Take(ok, run, SetContent(k, b));
  }

  lemma AdmitTake(
    ok: Item -> bool, run: seq<Label>, x: Session, rows: map<Key, Row>, redis: map<Key, Content>,
    outbox: map<Task, OutboxRow>, k: Key, b: Batch, order: seq<Path>)
    returns (longer: seq<Label>)
    requires Legal(run) && Ingest.Posted(ok, run) && After(run) == Early(x, rows, redis, outbox)
    requires k.sync == 0 && Ingest.Stated(ok, k.batch, b) && k !in rows && StreamTask(k) !in outbox
    requires x.status.Receiving? && SyncMachine.Valid(x, b) && Lists(order, b.deletes)
    ensures Legal(longer) && Ingest.Posted(ok, longer) && longer == run + [Admit(k, b, order)]
    ensures After(longer) == Early(Merge(x, b, order), rows[k := NewRow(b)], redis, outbox[StreamTask(k) := Unsent])
  {
    AdmitEnabled(x, rows, redis, outbox, k, b, order);
    AdmitStep(x, rows, redis, outbox, k, b, order);
    longer := Take(ok, run, Admit(k, b, order));
  }

  /** a is stored and admitted. */
  lemma FirstRun(ok: Item -> bool, x: Session, ka: Key, a: Batch, order: seq<Path>) returns (run: seq<Label>)
    requires FreshSession(map[], x) && x.status.Receiving? && SyncMachine.Valid(x, a) && Lists(order, a.deletes)
    requires ka.sync == 0 && Ingest.Stated(ok, ka.batch, a)
    ensures Legal(run) && Ingest.Posted(ok, run)
    ensures After(run) ==
      Early(Merge(x, a, order), map[ka := NewRow(a)], map[ka := ContentOf(a)], map[StreamTask(ka) := Unsent])
  {
    NoSteps();
    OpenStep(x);
    var created := Take(ok, [], CreateSession(0, x));
    var stored := StoreTake(ok, created, x, map[], map[], map[], ka, a);
    run := AdmitTake(ok, stored, x, map[], map[ka := ContentOf(a)], map[], ka, a, order);
  }

  /** b, validated before, is stored over it. */
  lemma SecondRun(ok: Item -> bool, first: seq<Label>, half: Session, ka: Key, kc: Key, a: Batch, b: Batch, c: Batch)
    returns (run: seq<Label>)
    requires Legal(first) && Ingest.Posted(ok, first) && ka.sync == 0 && kc.sync == 0 && ka != kc
    requires Ingest.Stated(ok, ka.batch, b) && Ingest.Stated(ok, kc.batch, c)
    requires After(first) == Early(half, map[ka := NewRow(a)], map[ka := ContentOf(a)], map[StreamTask(ka) := Unsent])
    ensures Legal(run) && Ingest.Posted(ok, run)
    ensures After(run) == Early(half, map[ka := NewRow(a)], map[ka := ContentOf(b), kc := ContentOf(c)],
      map[StreamTask(ka) := Unsent])
  {
    var rows, outbox := map[ka := NewRow(a)], map[StreamTask(ka) := Unsent];
    var over := StoreTake(ok, first, half, rows, map[ka := ContentOf(a)], outbox, ka, b);
    assert map[ka := ContentOf(a)][ka := ContentOf(b)] == map[ka := ContentOf(b)];
    run := StoreTake(ok, over, half, rows, map[ka := ContentOf(b)], outbox, kc, c);
  }

  /** c closes the session. */
  lemma ThirdRun(ok: Item -> bool, second: seq<Label>, half: Session, ka: Key, kc: Key, a: Batch, b: Batch, c: Batch)
    returns (run: seq<Label>)
    requires Legal(second) && Ingest.Posted(ok, second) && kc.sync == 0 && ka != kc && Ingest.Stated(ok, kc.batch, c)
    requires half.status.Receiving? && SyncMachine.Valid(half, c) && c.deletes == {}
    requires After(second) == Early(half, map[ka := NewRow(a)], map[ka := ContentOf(b), kc := ContentOf(c)],
      map[StreamTask(ka) := Unsent])
    ensures Legal(run) && Ingest.Posted(ok, run)
    ensures After(run) == Early(Merge(half, c, []), map[ka := NewRow(a), kc := NewRow(c)],
      map[ka := ContentOf(b), kc := ContentOf(c)], map[StreamTask(ka) := Unsent, StreamTask(kc) := Unsent])
  {
    var rows, outbox := map[ka := NewRow(a)], map[StreamTask(ka) := Unsent];
    run := AdmitTake(ok, second, half, rows, map[ka := ContentOf(b), kc := ContentOf(c)], outbox, kc, c, []);
  }

  lemma SetupRun(ok: Item -> bool, pl: Plot) returns (run: seq<Label>)
    requires PlotOk(pl) && PlotStated(ok, pl)
    ensures Legal(run) && Ingest.Posted(ok, run)
    ensures After(run) == Early(Full(pl), map[pl.ka := NewRow(pl.a), pl.kc := NewRow(pl.c)],
      map[pl.ka := ContentOf(pl.b), pl.kc := ContentOf(pl.c)],
      map[StreamTask(pl.ka) := Unsent, StreamTask(pl.kc) := Unsent])
  {
    var first := FirstRun(ok, pl.x, pl.ka, pl.a, pl.order);
    var second := SecondRun(ok, first, Half(pl), pl.ka, pl.kc, pl.a, pl.b, pl.c);
    run := ThirdRun(ok, second, Half(pl), pl.ka, pl.kc, pl.a, pl.b, pl.c);
  }

  // ---------------------------------------------------------------------------
  // The deliveries
  // ---------------------------------------------------------------------------

  /** Nothing indexed has been the file p. */
  ghost predicate Unindexed(st: State, p: Path) {
    forall k, h :: (k, p, h) !in st.hist.indexedFiles
  }

  /** The session is as it is, and nothing was committed or given up. */
  ghost predicate Quiet(st: State, x: Session, p: Path) {
    && st.sessions == map[0 := x] && 0 in st.hist.seen
    && st.archived == {} && st.repos == map[] && Unindexed(st, p)
    && FinalizeTask(0) !in st.outbox && FinalizeTask(0) !in st.queue && FinalizeTask(0) !in st.claims
  }

  predicate IsUnsent(st: State, k: Key) {
    StreamTask(k) in st.outbox && st.outbox[StreamTask(k)].status.OutboxPending? && StreamTask(k) !in st.queue
  }

  /** What one batch's delivery leaves alone. */
  ghost predicate Others(st: State, next: State, k: Key, w: WorkerId) {
    && (forall j | j in st.redis && j != k :: j in next.redis && next.redis[j] == st.redis[j])
    && (forall j | j != k && IsUnsent(st, j) :: IsUnsent(next, j))
    && (forall v | v in st.procs && v != w :: v in next.procs && next.procs[v] == st.procs[v])
    && (forall v | v in next.procs && v != w :: v in st.procs)
    && (forall j | j in st.rows && j != k :: j in next.rows && next.rows[j] == st.rows[j])
    && next.rows.Keys == st.rows.Keys
  }

  lemma ClaimStep(st: State, x: Session, p: Path, k: Key, w: WorkerId)
    requires Quiet(st, x, p) && IsUnsent(st, k) && k.sync == 0
    ensures var l := Claim(StreamTask(k)); var next := Next(st, l);
      && Enabled(st, l) && Quiet(next, x, p) && Others(st, next, k, w) && next.rows == st.rows && next.redis == st.redis
      && next.procs == st.procs && StreamTask(k) in next.claims && StreamTask(k) !in next.queue
  {
  }

  lemma EnqueueStep(st: State, x: Session, p: Path, k: Key, w: WorkerId)
    requires Quiet(st, x, p) && StreamTask(k) in st.claims && StreamTask(k) !in st.queue && k.sync == 0
    ensures var l := Enqueue(StreamTask(k)); var next := Next(st, l);
      && Enabled(st, l) && Quiet(next, x, p) && Others(st, next, k, w) && next.rows == st.rows && next.redis == st.redis
      && next.procs == st.procs && StreamTask(k) in next.queue && next.queue[StreamTask(k)] == 0
  {
  }

  lemma StartStep(st: State, x: Session, p: Path, k: Key, w: WorkerId)
    requires Quiet(st, x, p) && StreamTask(k) in st.queue && st.queue[StreamTask(k)] == 0 && w !in st.procs
    ensures var l := Start(w, StreamTask(k)); var next := Next(st, l);
      && Enabled(st, l) && Quiet(next, x, p) && Others(st, next, k, w) && next.rows == st.rows && next.redis == st.redis
      && w in next.procs && next.procs[w] == Stream(k, false, AtGet, false, false)
  {
  }

  lemma GetStep(st: State, x: Session, p: Path, k: Key, w: WorkerId, b: Batch)
    requires Quiet(st, x, p) && w in st.procs && st.procs[w] == Stream(k, false, AtGet, false, false)
    requires k in st.redis && st.redis[k] == ContentOf(b)
    ensures var l := Step(w, Fine); var next := Next(st, l);
      && Enabled(st, l) && Quiet(next, x, p) && Others(st, next, k, w) && next.rows == st.rows
      && w in next.procs && next.procs[w] == Stream(k, false, AtLoadSession(b.files, b.deletes), false, false)
  {
  }

  lemma LoadStep(st: State, x: Session, p: Path, k: Key, w: WorkerId, b: Batch)
    requires Quiet(st, x, p) && w in st.procs && k.sync == 0 && x.status.Processing?
    requires st.procs[w] == Stream(k, false, AtLoadSession(b.files, b.deletes), false, false)
    ensures var l := Step(w, Fine); var next := Next(st, l);
      && Enabled(st, l) && Quiet(next, x, p) && Others(st, next, k, w) && next.rows == st.rows
      && w in next.procs && next.procs[w] == Stream(k, false, AtIndex(b.files, b.deletes), false, false)
  {
  }

  const AllIndexed := Stats(Indexed(map[], {}))

  lemma IndexStep(st: State, x: Session, p: Path, k: Key, w: WorkerId, b: Batch)
    requires Quiet(st, x, p) && w in st.procs && p !in b.files
    requires st.procs[w] == Stream(k, false, AtIndex(b.files, b.deletes), false, false)
    ensures var l := Step(w, AllIndexed); var next := Next(st, l);
      && Enabled(st, l) && Quiet(next, x, p) && Others(st, next, k, w) && next.rows == st.rows
      && w in next.procs && next.procs[w] == Stream(k, false, AtMarkSucceeded(map[], {}), false, false)
  {
  }

  lemma MarkStep(st: State, x: Session, p: Path, k: Key, w: WorkerId)
    requires Quiet(st, x, p) && w in st.procs && k in st.rows && st.rows[k].state.Pending?
    requires st.procs[w] == Stream(k, false, AtMarkSucceeded(map[], {}), false, false)
    ensures var l := Step(w, Fine); var next := Next(st, l);
      && Enabled(st, l) && Quiet(next, x, p) && Others(st, next, k, w)
      && k in next.rows && next.rows[k] == SucceededRow(st.rows[k], map[], {})
      && w in next.procs && next.procs[w] == Stream(k, false, AtDel, false, false)
  {
  }

  lemma OthersTrans(a: State, b: State, c: State, k: Key, w: WorkerId)
    requires Others(a, b, k, w) && Others(b, c, k, w)
    ensures Others(a, c, k, w)
  {
  }

  /** The delivery has been started. */
  ghost predicate Begun(
    ok: Item -> bool, before: seq<Label>, run: seq<Label>, x: Session, p: Path, k: Key, w: WorkerId, pc: BatchPc)
  {
    && Legal(before) && Legal(run) && Ingest.Posted(ok, run) && Quiet(After(run), x, p)
    && Others(After(before), After(run), k, w)
    && w in After(run).procs && After(run).procs[w] == Stream(k, false, pc, false, false)
  }

  lemma BeginRun(ok: Item -> bool, run: seq<Label>, x: Session, p: Path, k: Key, w: WorkerId, b: Batch)
    returns (longer: seq<Label>)
    requires Legal(run) && Ingest.Posted(ok, run) && Quiet(After(run), x, p) && k.sync == 0
    requires IsUnsent(After(run), k) && w !in After(run).procs && k in After(run).redis
    requires After(run).redis[k] == ContentOf(b)
    ensures Begun(ok, run, longer, x, p, k, w, AtGet) && After(longer).rows == After(run).rows
    ensures k in After(longer).redis && After(longer).redis[k] == ContentOf(b)
  {
    ClaimStep(After(run), x, p, k, w);
    var claimed := Take(ok, run, Claim(StreamTask(k)));
    EnqueueStep(After(claimed), x, p, k, w);
    var queued := Take(ok, claimed, Enqueue(StreamTask(k)));
    OthersTrans(After(run), After(claimed), After(queued), k, w);
    StartStep(After(queued), x, p, k, w);
    longer := Take(ok, queued, Start(w, StreamTask(k)));
    OthersTrans(After(run), After(queued), After(longer), k, w);
  }

  lemma WorkRun(
    ok: Item -> bool, start: seq<Label>, run: seq<Label>, x: Session, p: Path, k: Key, w: WorkerId, b: Batch)
    returns (longer: seq<Label>)
    requires Begun(ok, start, run, x, p, k, w, AtGet) && After(run).rows == After(start).rows
    requires k.sync == 0 && x.status.Processing? && p !in b.files
    requires k in After(run).redis && After(run).redis[k] == ContentOf(b)
    ensures Begun(ok, start, longer, x, p, k, w, AtMarkSucceeded(map[], {})) && After(longer).rows == After(start).rows
  {
    GetStep(After(run), x, p, k, w, b);
    var got := Take(ok, run, Step(w, Fine));
    OthersTrans(After(start), After(run), After(got), k, w);
    LoadStep(After(got), x, p, k, w, b);
    var loaded := Take(ok, got, Step(w, Fine));
    OthersTrans(After(start), After(got), After(loaded), k, w);
    IndexStep(After(loaded), x, p, k, w, b);
    longer := Take(ok, loaded, Step(w, AllIndexed));
    OthersTrans(After(start), After(loaded), After(longer), k, w);
  }

  /** A delivery of the batch marks its row succeeded, having indexed only what lay under its key. */
  lemma DeliverRun(ok: Item -> bool, run: seq<Label>, x: Session, p: Path, k: Key, w: WorkerId, b: Batch)
    returns (longer: seq<Label>)
    requires Legal(run) && Ingest.Posted(ok, run) && Quiet(After(run), x, p) && k.sync == 0
    requires IsUnsent(After(run), k) && w !in After(run).procs && k in After(run).redis
    requires After(run).redis[k] == ContentOf(b)
    requires x.status.Processing? && p !in b.files && k in After(run).rows && After(run).rows[k].state.Pending?
    ensures Begun(ok, run, longer, x, p, k, w, AtDel)
    ensures k in After(longer).rows && After(longer).rows[k] == SucceededRow(After(run).rows[k], map[], {})
  {
    var begun := BeginRun(ok, run, x, p, k, w, b);
    var worked := WorkRun(ok, run, begun, x, p, k, w, b);
    MarkStep(After(worked), x, p, k, w);
    longer := Take(ok, worked, Step(w, Fine));
    OthersTrans(After(run), After(worked), After(longer), k, w);
  }

  // ---------------------------------------------------------------------------
  // The finalizer
  // ---------------------------------------------------------------------------

  /** The rows are settled and nothing was committed. */
  ghost predicate Settled(st: State, rows: map<Key, Row>, p: Path) {
    st.rows == rows && 0 in st.hist.seen && st.archived == {} && st.repos == map[] && Unindexed(st, p)
  }

  function Done(b: Batch): Row {
    SucceededRow(NewRow(b), map[], {})
  }

  lemma DeliveredRun(ok: Item -> bool, pl: Plot) returns (run: seq<Label>)
    requires PlotOk(pl) && PlotStated(ok, pl)
    ensures Legal(run) && Ingest.Posted(ok, run) && Quiet(After(run), Full(pl), pl.p)
    ensures Settled(After(run), map[pl.ka := Done(pl.a), pl.kc := Done(pl.c)], pl.p)
    ensures 1 in After(run).procs && After(run).procs[1] == Stream(pl.kc, false, AtDel, false, false)
    ensures 2 !in After(run).procs
  {
    var setup := SetupRun(ok, pl);
    run := DeliverBoth(ok, setup, Full(pl), pl.p, pl.ka, pl.kc, pl.a, pl.b, pl.c);
  }

  lemma DeliverBoth(
    ok: Item -> bool, setup: seq<Label>, x: Session, p: Path, ka: Key, kc: Key, a: Batch, b: Batch, c: Batch)
    returns (run: seq<Label>)
    requires Legal(setup) && Ingest.Posted(ok, setup) && ka != kc && ka.sync == 0 && kc.sync == 0
    requires x.status.Processing? && p !in b.files && p !in c.files
    requires After(setup) == Early(x, map[ka := NewRow(a), kc := NewRow(c)],
      map[ka := ContentOf(b), kc := ContentOf(c)], map[StreamTask(ka) := Unsent, StreamTask(kc) := Unsent])
    ensures Legal(run) && Ingest.Posted(ok, run) && Quiet(After(run), x, p)
    ensures Settled(After(run), map[ka := Done(a), kc := Done(c)], p)
    ensures 1 in After(run).procs && After(run).procs[1] == Stream(kc, false, AtDel, false, false)
    ensures 2 !in After(run).procs
  {
    var first := DeliverRun(ok, setup, x, p, ka, 0, b);
    run := DeliverRun(ok, first, x, p, kc, 1, c);
    SettledRows(After(setup), After(first), After(run), ka, kc, a, c);
  }

  lemma SettledRows(setup: State, first: State, last: State, ka: Key, kc: Key, a: Batch, c: Batch)
    requires ka != kc && setup.rows == map[ka := NewRow(a), kc := NewRow(c)] && setup.procs == map[]
    requires Others(setup, first, ka, 0) && Others(first, last, kc, 1)
    requires ka in first.rows && first.rows[ka] == Done(a)
    requires kc in last.rows && last.rows[kc] == SucceededRow(first.rows[kc], map[], {})
    ensures last.rows == map[ka := Done(a), kc := Done(c)] && 2 !in last.procs
  {
    assert last.rows.Keys == {ka, kc};
  }

  lemma DelStep(st: State, x: Session, rows: map<Key, Row>, p: Path, k: Key)
    requires Settled(st, rows, p) && Quiet(st, x, p)
    requires 1 in st.procs && st.procs[1] == Stream(k, false, AtDel, false, false) && 2 !in st.procs
    ensures var l := Step(1, Fine); var next := Next(st, l);
      && Enabled(st, l) && Settled(next, rows, p) && Quiet(next, x, p)
      && 1 in next.procs && next.procs[1] == Stream(k, false, AtTrigger, true, false) && 2 !in next.procs
  {
  }

  ghost predicate Closed(st: State, y: Session, rows: map<Key, Row>, p: Path) {
    Settled(st, rows, p) && st.sessions == map[0 := y] && y.status.Finalizing?
  }

  lemma FlipStep(st: State, x: Session, rows: map<Key, Row>, p: Path, k: Key)
    requires Settled(st, rows, p) && Quiet(st, x, p) && x.status.Processing? && Ready(rows, 0) && k.sync == 0
    requires 1 in st.procs && st.procs[1] == Stream(k, false, AtTrigger, true, false) && 2 !in st.procs
    ensures var l := Step(1, Fine); var next := Next(st, l);
      && Enabled(st, l) && Closed(next, x.(status := Finalizing), rows, p) && 2 !in next.procs
      && FinalizeTask(0) in next.outbox && next.outbox[FinalizeTask(0)].status.OutboxPending?
      && FinalizeTask(0) !in next.queue
  {
  }

  lemma ClaimFinal(st: State, y: Session, rows: map<Key, Row>, p: Path)
    requires Closed(st, y, rows, p) && 2 !in st.procs
    requires FinalizeTask(0) in st.outbox && st.outbox[FinalizeTask(0)].status.OutboxPending?
    requires FinalizeTask(0) !in st.queue
    ensures var l := Claim(FinalizeTask(0)); var next := Next(st, l);
      && Enabled(st, l) && Closed(next, y, rows, p) && 2 !in next.procs
      && FinalizeTask(0) in next.claims && FinalizeTask(0) !in next.queue
  {
  }

  lemma EnqueueFinal(st: State, y: Session, rows: map<Key, Row>, p: Path)
    requires Closed(st, y, rows, p) && 2 !in st.procs
    requires FinalizeTask(0) in st.claims && FinalizeTask(0) !in st.queue
    ensures var l := Enqueue(FinalizeTask(0)); var next := Next(st, l);
      && Enabled(st, l) && Closed(next, y, rows, p) && 2 !in next.procs
      && FinalizeTask(0) in next.queue && next.queue[FinalizeTask(0)] == 0
  {
  }

  ghost predicate Finishing(st: State, y: Session, rows: map<Key, Row>, p: Path, pc: FinalPc) {
    Closed(st, y, rows, p) && 2 in st.procs && st.procs[2] == Final(0, false, pc)
  }

  lemma StartFinal(st: State, y: Session, rows: map<Key, Row>, p: Path)
    requires Closed(st, y, rows, p) && 2 !in st.procs
    requires FinalizeTask(0) in st.queue && st.queue[FinalizeTask(0)] == 0
    ensures var l := Start(2, FinalizeTask(0)); Enabled(st, l) && Finishing(Next(st, l), y, rows, p, AtLoadFinalizing)
  {
  }

  lemma GuardFinal(st: State, y: Session, rows: map<Key, Row>, p: Path)
    requires Finishing(st, y, rows, p, AtLoadFinalizing)
    ensures Enabled(st, Step(2, Fine)) && Finishing(Next(st, Step(2, Fine)), y, rows, p, AtLoadRows(y.repo))
  {
  }

  lemma ReadFinal(st: State, y: Session, rows: map<Key, Row>, p: Path, d: Delta)
    requires Finishing(st, y, rows, p, AtLoadRows(y.repo)) && IsDelta(rows, 0, d) && d != Delta(map[], {})
    ensures var l := Step(2, Results(d));
      Enabled(st, l) && Finishing(Next(st, l), y, rows, p, AtLoadTree(y.repo, d, 0, 0, 0))
  {
  }

  lemma LoadFinal(st: State, y: Session, rows: map<Key, Row>, p: Path, d: Delta)
    requires Finishing(st, y, rows, p, AtLoadTree(y.repo, d, 0, 0, 0))
    ensures Enabled(st, Step(2, Fine))
    ensures Finishing(Next(st, Step(2, Fine)), y, rows, p, AtSaveTree(y.repo, d, 0, 0, 0, map[], 0, 0))
  {
  }

  lemma SaveFinal(st: State, y: Session, rows: map<Key, Row>, p: Path, d: Delta)
    requires Finishing(st, y, rows, p, AtSaveTree(y.repo, d, 0, 0, 0, map[], 0, 0))
    ensures var l := Step(2, Token(1)); var next := Next(st, l);
      && Enabled(st, l) && Unindexed(next, p)
      && y.repo in next.repos && next.repos[y.repo].log == [Commit(0, 2, d)]
  {
  }

  lemma FinalRun(ok: Item -> bool, delivered: seq<Label>, x: Session, rows: map<Key, Row>, p: Path, k: Key)
    returns (run: seq<Label>)
    requires Legal(delivered) && Ingest.Posted(ok, delivered) && Settled(After(delivered), rows, p)
    requires Quiet(After(delivered), x, p)
    requires x.status.Processing? && Ready(rows, 0) && k.sync == 0 && 2 !in After(delivered).procs
    requires 1 in After(delivered).procs && After(delivered).procs[1] == Stream(k, false, AtDel, false, false)
    ensures Legal(run) && Ingest.Posted(ok, run)
    ensures Finishing(After(run), x.(status := Finalizing), rows, p, AtLoadFinalizing)
  {
    var y := x.(status := Finalizing);
    DelStep(After(delivered), x, rows, p, k);
    run := Take(ok, delivered, Step(1, Fine));
    FlipStep(After(run), x, rows, p, k);
    run := Take(ok, run, Step(1, Fine));
    ClaimFinal(After(run), y, rows, p);
    run := Take(ok, run, Claim(FinalizeTask(0)));
    EnqueueFinal(After(run), y, rows, p);
    run := Take(ok, run, Enqueue(FinalizeTask(0)));
    StartFinal(After(run), y, rows, p);
    run := Take(ok, run, Start(2, FinalizeTask(0)));
  }

  lemma CommitRun(ok: Item -> bool, finishing: seq<Label>, y: Session, rows: map<Key, Row>, p: Path, d: Delta)
    returns (run: seq<Label>)
    requires Legal(finishing) && Ingest.Posted(ok, finishing)
    requires Finishing(After(finishing), y, rows, p, AtLoadFinalizing)
    requires IsDelta(rows, 0, d) && d != Delta(map[], {})
    ensures Legal(run) && Ingest.Posted(ok, run) && Unindexed(After(run), p)
    ensures y.repo in After(run).repos && After(run).repos[y.repo].log == [Commit(0, 2, d)]
  {
    GuardFinal(After(finishing), y, rows, p);
    run := Take(ok, finishing, Step(2, Fine));
    ReadFinal(After(run), y, rows, p, d);
    run := Take(ok, run, Step(2, Results(d)));
    LoadFinal(After(run), y, rows, p, d);
    run := Take(ok, run, Step(2, Fine));
    SaveFinal(After(run), y, rows, p, d);
    run := Take(ok, run, Step(2, Token(1)));
  }

  lemma SumIsDelta(ka: Key, kc: Key, a: Batch, c: Batch)
    requires ka != kc && ka.sync == 0 && kc.sync == 0 && c.deletes == {}
    ensures var rows := map[ka := Done(a), kc := Done(c)];
      IsDelta(rows, 0, Delta(a.files + c.files, a.deletes)) && Ready(rows, 0)
  {
    var rows := map[ka := Done(a), kc := Done(c)];
    var sum := a.files + c.files;
    assert ka in rows && kc in rows;
    forall q ensures q in sum <==> ProcessesFile(rows, 0, q) {
      assert RowProcessesFile(rows[ka], q) <==> q in a.files;
      assert RowProcessesFile(rows[kc], q) <==> q in c.files;
    }
    forall q ensures q in a.deletes <==> ProcessesDelete(rows, 0, q) {
      assert RowProcessesDelete(rows[ka], q) <==> q in a.deletes;
    }
    forall q | q in sum
      ensures exists k | k in rows :: k.sync == 0 && RowProcessesFile(rows[k], q) && rows[k].files[q] == sum[q]
    {
      if q in c.files {
        assert RowProcessesFile(rows[kc], q) && rows[kc].files[q] == sum[q];
      } else {
        assert RowProcessesFile(rows[ka], q) && rows[ka].files[q] == sum[q];
      }
    }
  }

  /** Some commit of the run holds a file that no batch of its session had the indexer process. */
  ghost predicate CommitsUnindexed(run: seq<Label>) {
    exists r, i: nat, p ::
      && r in After(run).repos && i < |After(run).repos[r].log| && After(run).repos[r].log[i].Commit?
      && Sneaks(After(run), r, i, p)
  }

  ghost predicate Sneaks(st: State, r: RepoId, i: nat, p: Path)
    requires r in st.repos && i < |st.repos[r].log| && st.repos[r].log[i].Commit?
  {
    var c := st.repos[r].log[i];
    p in c.delta.files && !FileIndexed(st.hist, c.sync, p, c.delta.files[p])
  }

  /** Whenever a session can take a batch and another batch of the same identifier was stored after it,
      a file of the first alone can be committed without having been indexed. */
  lemma OverwrittenContentCommits(ok: Item -> bool, pl: Plot)
    requires PlotOk(pl) && PlotStated(ok, pl)
    ensures exists run :: Legal(run) && Ingest.Posted(ok, run) && CommitsUnindexed(run)
  {
    var d := Delta(pl.a.files + pl.c.files, pl.a.deletes);
    var rows := map[pl.ka := Done(pl.a), pl.kc := Done(pl.c)];
    assert pl.p in d.files;
    SumIsDelta(pl.ka, pl.kc, pl.a, pl.c);
    var delivered := DeliveredRun(ok, pl);
    var finishing := FinalRun(ok, delivered, Full(pl), rows, pl.p, pl.kc);
    var run := CommitRun(ok, finishing, Full(pl).(status := Finalizing), rows, pl.p, d);
    SneaksIn(run, Full(pl).repo, pl.p, d);
  }

  lemma SneaksIn(run: seq<Label>, r: RepoId, p: Path, d: Delta)
    requires Unindexed(After(run), p) && r in After(run).repos && After(run).repos[r].log == [Commit(0, 2, d)]
    requires p in d.files
    ensures CommitsUnindexed(run)
  {
    assert Sneaks(After(run), r, 0, p);
  }

  // ---------------------------------------------------------------------------
  // There are such batches
  // ---------------------------------------------------------------------------

  function FileEntry(p: Path, content: Bytes): Entry {
    Entry("file", p, Hex(DigestOf(content)), content)
  }

  function DeleteEntry(p: Path, claimed: string): Entry {
    Entry("delete", p, claimed, [])
  }

  const One: Bytes := [49]
  const Two: Bytes := [50]

  lemma Digests12()
    ensures DigestOf(One) == H1 && DigestOf(Two) == H2
  {
    assert seq(1, i requires 0 <= i < 1 => One[i] as char) == "1";
    assert seq(1, i requires 0 <= i < 1 => Two[i] as char) == "2";
  }

  /** Hashes as printed hold no line break and no bar. */
  predicate PrintedHash(e: Item) {
    Free(e.hash, '\n') && Free(e.hash, '|')
  }

  predicate PlainPath(e: Item) {
    Free(e.path, '\n')
  }

  lemma FileBatch(p: Path, c: Bytes)
    ensures Ingest.BatchOf([FileEntry(p, c)]) == Batch(map[p := DigestOf(c)], {})
  {
    var entries := [FileEntry(p, c)];
    assert entries[..0] == [] && entries[0].op == "file";
    assert Ingest.AcceptedFiles(entries[..0]) == map[] && Ingest.AcceptedDeletes(entries[..0]) == {};
  }

  lemma DeleteBatch(p: Path, claimed: string)
    ensures Ingest.BatchOf([DeleteEntry(p, claimed)]) == Batch(map[], {p})
  {
    var entries := [DeleteEntry(p, claimed)];
    assert entries[..0] == [] && entries[0].op == "delete";
    assert Ingest.AcceptedFiles(entries[..0]) == map[] && Ingest.AcceptedDeletes(entries[..0]) == {};
  }

  lemma StatesTwo(p: Path, c: Bytes, q: Path, d: Bytes)
    requires p != q
    ensures var b := Batch(map[p := DigestOf(c), q := DigestOf(d)], {}); Ingest.Stated(PrintedHash, IdOf(b), b)
  {
    var entries := [FileEntry(p, c), FileEntry(q, d)];
    assert entries[..1] == [FileEntry(p, c)];
    FileBatch(p, c);
    FilesStated(entries);
  }

  lemma StatesOne(p: Path, c: Bytes)
    ensures var b := Batch(map[p := DigestOf(c)], {}); Ingest.Stated(PrintedHash, IdOf(b), b)
  {
    FileBatch(p, c);
    FilesStated([FileEntry(p, c)]);
  }

  lemma FilesStated(entries: seq<Entry>)
    requires Ingest.WellFormed(entries) && forall e | e in entries :: e.op == "file"
    ensures Ingest.Stated(PrintedHash, IdOf(Ingest.BatchOf(entries)), Ingest.BatchOf(entries))
  {
    Ingest.EntriesId(entries);
    forall e | e in ItemsOf(entries) ensures PrintedHash(e) {
      var i :| 0 <= i < |entries| && ItemsOf(entries)[i] == e;
      CodedPlain(DigestOf(entries[i].content).preimage);
    }
    assert Ingest.States(IdOf(Ingest.BatchOf(entries)), Ingest.BatchOf(entries), entries);
  }

  lemma StatedABC()
    ensures Ingest.Stated(PrintedHash, IdOf(BatchA), BatchA) && Ingest.Stated(PrintedHash, IdOf(BatchB), BatchB)
    ensures Ingest.Stated(PrintedHash, IdOf(BatchC), BatchC)
  {
    Digests12();
    OddNames();
    assert BatchA == Batch(map["a" := DigestOf(One), "aa" := DigestOf(Two)], {});
    assert BatchB == Batch(map[Odd := DigestOf(One)], {});
    assert BatchC == Batch(map[Odd := DigestOf(One), "s" := DigestOf(One)], {});
    StatesTwo("a", One, "aa", Two);
    StatesOne(Odd, One);
    StatesTwo(Odd, One, "s", One);
  }

  /** A path with a line break makes two batches collide, though every hash is as printed. */
  lemma CollisionCommitsUnindexed()
    ensures exists run :: Legal(run) && Ingest.Posted(PrintedHash, run) && CommitsUnindexed(run)
  {
    var x := Session("me", "me", Client, false, 0, Client, [], map[], [], Receiving, "");
    var pl := Plot(x, Key(0, IdOf(BatchA)), Key(0, IdOf(BatchC)), BatchA, [], BatchB, BatchC, "a");
    SameId();
    StatedABC();
    ClientPlot(pl);
    OverwrittenContentCommits(PrintedHash, pl);
  }

  lemma ClientParts()
    ensures |BatchA.files| == 2 && |Client| == 4 && BatchA.files + BatchC.files == Client
    ensures var none: Leaves := map[]; none + BatchA.files == BatchA.files && Need(map[], Client) == Client
  {
    OddNames();
    assert BatchA.files.Keys == {"a", "aa"} && Client.Keys == {"a", "aa", Odd, "s"};
    assert |BatchA.files.Keys| == 2 && |Client.Keys| == 4;
    assert |BatchA.files| == |BatchA.files.Keys| && |Client| == |Client.Keys|;
  }

  lemma ClientPlot(pl: Plot)
    requires pl.x == Session("me", "me", Client, false, 0, Client, [], map[], [], Receiving, "")
    requires pl.ka.sync == 0 && pl.kc.sync == 0 && pl.ka != pl.kc
    requires pl.a == BatchA && pl.order == [] && pl.b == BatchB && pl.c == BatchC && pl.p == "a"
    ensures PlotOk(pl)
  {
    OddNames();
    ClientParts();
    assert "a" in BatchA.files && "s" in BatchC.files;
    assert SyncMachine.Valid(pl.x, BatchA);
    assert Half(pl) == pl.x.(receivedFiles := BatchA.files);
    assert SyncMachine.Valid(Half(pl), BatchC);
    assert Full(pl) == pl.x.(receivedFiles := Client, status := Processing);
  }

  // ---------------------------------------------------------------------------
  // Deletes that claim a hash
  // ---------------------------------------------------------------------------

  /** The session is promised the files f and s and the delete of p. */
  const ClaimClient: Leaves := map["f" := H1, "s" := H1]

  const BatchD := Batch(map["f" := H1], {"p"})
  const BatchE := Batch(map[], {"p"})
  const BatchF := Batch(map["s" := H1], {})

  const EntriesD := [DeleteEntry("p", "z"), FileEntry("f", One)]
  const EntriesE := [DeleteEntry("p", "z\nfile|f|" + Hex(H1))]

  lemma ItemsD()
    ensures ItemsOf(EntriesD) == [Item("delete", "p", "z"), Item("file", "f", Hex(H1))]
    ensures ItemsOf(EntriesE) == [Item("delete", "p", "z\nfile|f|" + Hex(H1))]
  {
    Digests12();
  }

  /** The delete's line comes first. */
  lemma ClaimInOrder()
    ensures Le(Line(Item("delete", "p", "z")), Line(Item("file", "f", Hex(H1))))
  {
    var u, v := Line(Item("delete", "p", "z")), Line(Item("file", "f", Hex(H1)));
    assert u[0] == 'd' && v[0] == 'f' && u[..0] == v[..0];
    LeAt(u, v, 0);
  }

  lemma SameClaimId()
    ensures IdText(ItemsOf(EntriesD)) == IdText(ItemsOf(EntriesE))
  {
    ItemsD();
    ClaimInOrder();
    ClaimCollides("p", "z", "f", Hex(H1));
    assert "z" + "\nfile|" + "f" + "|" == "z\nfile|f|";
  }

  lemma StatedD()
    ensures Ingest.Stated(PlainPath, IdText(ItemsOf(EntriesD)), BatchD)
    ensures Ingest.Stated(PlainPath, IdText(ItemsOf(EntriesE)), BatchE)
  {
    Digests12();
    ItemsD();
    ShortNames();
    assert EntriesD[..1] == [DeleteEntry("p", "z")];
    DeleteBatch("p", "z");
    DeleteBatch("p", "z\nfile|f|" + Hex(H1));
    assert Ingest.BatchOf(EntriesD) == BatchD && Ingest.BatchOf(EntriesE) == BatchE;
    assert Ingest.States(IdText(ItemsOf(EntriesD)), BatchD, EntriesD);
    assert Ingest.States(IdText(ItemsOf(EntriesE)), BatchE, EntriesE);
  }

  lemma ShortNames()
    ensures "f" != "s" && "f" != "p" && "s" != "p"
  {
    assert "f"[0] != "s"[0] && "f"[0] != "p"[0] && "s"[0] != "p"[0];
  }

  lemma StatedF()
    ensures Ingest.Stated(PlainPath, IdOf(BatchF), BatchF)
  {
    Digests12();
    var entries := [FileEntry("s", One)];
    FileBatch("s", One);
    Ingest.EntriesId(entries);
    assert Ingest.States(IdOf(BatchF), BatchF, entries);
  }

  lemma OtherIdF()
    ensures IdOf(BatchF) != IdText(ItemsOf(EntriesD))
  {
    ItemsD();
    IdOfOne("s", H1);
    LineLength("s", H1);
    LineLength("f", H1);
    ClaimInOrder();
    TextOfTwo(Item("delete", "p", "z"), Item("file", "f", Hex(H1)));
    assert |IdOf(BatchF)| < |IdText(ItemsOf(EntriesD))|;
  }

  /** A delete that claims a hash with a line break makes two batches collide, though no path holds one:
      a file is committed that the indexer never saw. */
  lemma ClaimCommitsUnindexed()
    ensures exists run :: Legal(run) && Ingest.Posted(PlainPath, run) && CommitsUnindexed(run)
  {
    var x := Session("me", "me", ClaimClient, true, 0, ClaimClient, ["p"], map[], [], Receiving, "");
    var id := IdText(ItemsOf(EntriesD));
    StatedF();
    OtherIdF();
    var pl := Plot(x, Key(0, id), Key(0, IdOf(BatchF)), BatchD, ["p"], BatchE, BatchF, "f");
    SameClaimId();
    StatedD();
    ClaimPlot(pl);
    OverwrittenContentCommits(PlainPath, pl);
  }

  lemma ClaimParts()
    ensures Need(map[], ClaimClient) == ClaimClient && |BatchD.files| == 1 && |ClaimClient| == 2
    ensures var none: Leaves := map[];
      none + BatchD.files == BatchD.files && BatchD.files + BatchF.files == ClaimClient
  {
    ShortNames();
    assert BatchD.files.Keys == {"f"} && ClaimClient.Keys == {"f", "s"};
    assert |BatchD.files| == |BatchD.files.Keys| == 1 && |ClaimClient| == |ClaimClient.Keys| == 2;
  }

  lemma ClaimPlot(pl: Plot)
    requires pl.x == Session("me", "me", ClaimClient, true, 0, ClaimClient, ["p"], map[], [], Receiving, "")
    requires pl.ka.sync == 0 && pl.kc.sync == 0 && pl.ka != pl.kc
    requires pl.a == BatchD && pl.order == ["p"] && pl.b == BatchE && pl.c == BatchF && pl.p == "f"
    ensures PlotOk(pl)
  {
    ShortNames();
    ClaimParts();
    assert "f" in BatchD.files && "s" in BatchF.files;
    assert SyncMachine.Valid(pl.x, BatchD);
    assert Half(pl) == pl.x.(receivedFiles := BatchD.files, receivedDeletes := ["p"]);
    assert SyncMachine.Valid(Half(pl), BatchF);
    assert Full(pl) == pl.x.(receivedFiles := ClaimClient, receivedDeletes := ["p"], status := Processing);
  }
}
