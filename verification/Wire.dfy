/** A batch on its way from the client through the server and the content store to the worker: one
    line an entry, then one packed row an entry. */
module Wire {
  import opened Wrappers

  import opened Utf8
  import opened Lexicographic
  import opened BatchText
  import opened Chunking
  import opened Entries

  const SCANNER_MAX: nat := 10 * 1024 * 1024

  /** JSON with base64 content, as a line codec, and the test for a blank line. */
  datatype Codec = Codec(encode: Entry -> Bytes, decode: Bytes -> Option<Entry>, blank: Bytes -> bool)

  const NEWLINE: Byte := 10
  const RETURN: Byte := 13

  /** The entry's line is read back as the entry and survives the scanner. */
  ghost predicate Travels(codec: Codec, e: Entry) {
    var line := codec.encode(e);
    && codec.decode(line) == Some(e)
    && NEWLINE !in line && !codec.blank(line) && |line| < SCANNER_MAX
    && line != [] && line[|line| - 1] != RETURN
  }

  // ---------------------------------------------------------------------------
  // The client's side
  // ---------------------------------------------------------------------------

  function FileWire(f: FileEntry): Entry {
    Entry("file", f.path, f.hash, f.content)
  }

  function DeleteWire(d: string): Entry {
    Entry("delete", d, "", [])
  }

  function EntriesOf(b: Batch): seq<Entry> {
    seq(|b.files|, i requires 0 <= i < |b.files| => FileWire(b.files[i]))
    + seq(|b.deletes|, i requires 0 <= i < |b.deletes| => DeleteWire(b.deletes[i]))
  }

  function Ndjson(codec: Codec, entries: seq<Entry>): Bytes {
    if entries == [] then [] else codec.encode(entries[0]) + [NEWLINE] + Ndjson(codec, entries[1..])
  }

  lemma {:induction false} NdjsonAppend(codec: Codec, entries: seq<Entry>, e: Entry)
    ensures Ndjson(codec, entries + [e]) == Ndjson(codec, entries) + codec.encode(e) + [NEWLINE]
  {
    if entries == [] {
      assert [] + [e] == [e] && [e][1..] == [];
      assert Ndjson(codec, [e]) == codec.encode(e) + [NEWLINE] + [];
    } else {
      assert (entries + [e])[1..] == entries[1..] + [e];
      NdjsonAppend(codec, entries[1..], e);
    }
  }

  method BuildBatchNdjson(codec: Codec, b: Batch) returns (out: Bytes)
    ensures out == Ndjson(codec, EntriesOf(b))
  {
    out := [];
    ghost var entries := EntriesOf(b);
    for i := 0 to |b.files|
      invariant out == Ndjson(codec, entries[..i])
    {
      assert entries[..i + 1] == entries[..i] + [FileWire(b.files[i])];
      NdjsonAppend(codec, entries[..i], FileWire(b.files[i]));
      out := out + codec.encode(Entry("file", b.files[i].path, b.files[i].hash, b.files[i].content));
      out := out + [NEWLINE];
    }
    for i := 0 to |b.deletes|
      invariant out == Ndjson(codec, entries[..|b.files| + i])
    {
      assert entries[..|b.files| + i + 1] == entries[..|b.files| + i] + [DeleteWire(b.deletes[i])];
      NdjsonAppend(codec, entries[..|b.files| + i], DeleteWire(b.deletes[i]));
      out := out + codec.encode(Entry("delete", b.deletes[i], "", []));
      out := out + [NEWLINE];
    }
    assert entries[..|b.files| + |b.deletes|] == entries;
  }

  lemma NextItem(items: seq<Item>, i: nat)
    requires i < |items|
    ensures LinesOf(items[..i + 1]) == LinesOf(items[..i]) + [Line(items[i])]
  {
    assert items[..i + 1][..i] == items[..i];
  }

  lemma AllItems(items: seq<Item>)
    ensures items[..|items|] == items
  {
  }

  lemma FileLine(path: string, hash: string)
    ensures "file|" + path + "|" + hash == Line(Item("file", path, hash))
  {
    assert "file|" == "file" + "|";
  }

  lemma DeleteLine(path: string)
    ensures "delete|" + path + "|" == Line(Item("delete", path, ""))
  {
    assert "delete|" == "delete" + "|";
    assert "delete" + "|" + path + "|" + "" == "delete" + "|" + path + "|";
  }

  lemma BatchItems(b: Batch) returns (items: seq<Item>)
    ensures items == ItemsOf(EntriesOf(b)) && |items| == |b.files| + |b.deletes|
    ensures forall i | 0 <= i < |b.files| :: items[i] == Item("file", b.files[i].path, b.files[i].hash)
    ensures forall i | 0 <= i < |b.deletes| :: items[|b.files| + i] == Item("delete", b.deletes[i], "")
  {
    items := ItemsOf(EntriesOf(b));
    forall i | 0 <= i < |b.deletes| ensures items[|b.files| + i] == Item("delete", b.deletes[i], "") {
      assert EntriesOf(b)[|b.files| + i] == DeleteWire(b.deletes[i]);
    }
  }

  /** The client's identifier text, from the batch. */
  method DeterministicBatchId(b: Batch) returns (text: string)
    ensures text == IdText(ItemsOf(EntriesOf(b)))
  {
    ghost var items := BatchItems(b);
    var lines := FileLines(b.files, items);
    lines := DeleteLines(b.deletes, lines, items, |b.files|);
    AllItems(items);
    text := Join(Sort(lines));
  }

  method FileLines(files: seq<FileEntry>, ghost items: seq<Item>) returns (lines: seq<string>)
    requires |files| <= |items| && forall i | 0 <= i < |files| :: items[i] == Item("file", files[i].path, files[i].hash)
    ensures lines == LinesOf(items[..|files|])
  {
    lines := [];
    for i := 0 to |files|
      invariant lines == LinesOf(items[..i])
    {
      NextItem(items, i);
      FileLine(files[i].path, files[i].hash);
      lines := lines + ["file|" + files[i].path + "|" + files[i].hash];
    }
  }

  method DeleteLines(deletes: seq<string>, before: seq<string>, ghost items: seq<Item>, ghost n: nat)
    returns (lines: seq<string>)
    requires n + |deletes| <= |items| && before == LinesOf(items[..n])
    requires forall i | 0 <= i < |deletes| :: items[n + i] == Item("delete", deletes[i], "")
    ensures lines == LinesOf(items[..n + |deletes|])
  {
    lines := before;
    for i := 0 to |deletes|
      invariant lines == LinesOf(items[..n + i])
    {
      NextItem(items, n + i);
      DeleteLine(deletes[i]);
      lines := lines + ["delete|" + deletes[i] + "|"];
    }
  }

  // ---------------------------------------------------------------------------
  // The server's side
  // ---------------------------------------------------------------------------

  function DropReturn(line: Bytes): Bytes {
    if line != [] && line[|line| - 1] == RETURN then line[..|line| - 1] else line
  }

  function Prepend(e: seq<Entry>, r: Option<seq<Entry>>): Option<seq<Entry>> {
    match r case None => None case Some(es) => Some(e + es)
  }

  /** What a body means: its lines, without a trailing carriage return, decoded in order; blank ones
      are skipped, and one that is too long or malformed spoils the body. */
  function Parsed(codec: Codec, body: Bytes): Option<seq<Entry>>
    decreases |body|
  {
    if body == [] then Some([])
    else
      var i := PositionOf(body, NEWLINE);
      var rest := if i == |body| then [] else body[i + 1..];
      if i >= SCANNER_MAX then None
      else
        var line := DropReturn(body[..i]);
        if codec.blank(line) then Parsed(codec, rest)
        else
          match codec.decode(line)
          case None => None
          case Some(e) => Prepend([e], Parsed(codec, rest))
  }

  method ParseNdjsonBatch(codec: Codec, body: Bytes) returns (r: Option<seq<Entry>>)
    ensures r == Parsed(codec, body)
  {
    var entries: seq<Entry> := [];
    var pos := 0;
    assert body[0..] == body;
    PrependNothing(Parsed(codec, body));
    while pos < |body|
      invariant pos <= |body| && Parsed(codec, body) == Prepend(entries, Parsed(codec, body[pos..]))
    {
      var i := PositionOf(body[pos..], NEWLINE);
      var next := if pos + i == |body| then |body| else pos + i + 1;
      assert (if i == |body[pos..]| then [] else body[pos..][i + 1..]) == body[next..];
      if i >= SCANNER_MAX {
        return None;
      }
      var line := DropReturn(body[pos..][..i]);
      if !codec.blank(line) {
        var raw := codec.decode(line);
        if raw.None? {
          return None;
        }
        PrependMore(entries, raw.value, Parsed(codec, body[next..]));
        entries := entries + [raw.value];
      }
      pos := next;
    }
    assert body[pos..] == [] && entries + [] == entries;
    r := Some(entries);
  }

  /** The bytes from a to b are one line: between the beginning or a newline and a newline or the end. */
  predicate LineAt(body: Bytes, a: nat, b: nat) {
    && a <= b <= |body| && a < |body| && NEWLINE !in body[a..b]
    && (a == 0 || body[a - 1] == NEWLINE) && (b == |body| || body[b] == NEWLINE)
  }

  /** It is too long, or neither blank nor an entry. */
  predicate BadLine(codec: Codec, body: Bytes, a: nat, b: nat) {
    LineAt(body, a, b) && BadBytes(codec, body[a..b])
  }

  predicate BadBytes(codec: Codec, bytes: Bytes) {
    |bytes| >= SCANNER_MAX || (!codec.blank(DropReturn(bytes)) && codec.decode(DropReturn(bytes)).None?)
  }

  ghost predicate HasBadLine(codec: Codec, body: Bytes) {
    exists a: nat, b: nat :: BadLine(codec, body, a, b)
  }

  /** A line behind the first newline is one of the rest. */
  lemma LineMoves(body: Bytes, i: nat, a: nat, b: nat)
    requires i < |body| && body[i] == NEWLINE && i + 1 <= a
    ensures LineAt(body, a, b) <==> a <= b && LineAt(body[i + 1..], a - i - 1, b - i - 1)
    ensures a <= b <= |body| ==> body[i + 1..][a - i - 1..b - i - 1] == body[a..b]
  {
    var rest := body[i + 1..];
    assert |rest| == |body| - i - 1;
    if a <= b <= |body| {
      assert rest[a - i - 1..b - i - 1] == body[a..b];
    }
  }

  /** The first line is that up to the first newline. */
  lemma FirstLine(body: Bytes, a: nat, b: nat)
    requires LineAt(body, a, b)
    ensures var i := PositionOf(body, NEWLINE); (a == 0 && b == i) || (i < |body| && a >= i + 1)
  {
    assert forall j | a <= j < b :: body[j] == body[a..b][j - a];
  }

  lemma BadFirst(codec: Codec, body: Bytes)
    requires body != []
    ensures var i := PositionOf(body, NEWLINE); LineAt(body, 0, i) && body[0..i] == body[..i]
  {
  }

  lemma BadRest(codec: Codec, body: Bytes, i: nat)
    requires i < |body| && i == PositionOf(body, NEWLINE)
    ensures HasBadLine(codec, body) <==> BadLine(codec, body, 0, i) || HasBadLine(codec, body[i + 1..])
  {
    if HasBadLine(codec, body[i + 1..]) {
      var a: nat, b: nat :| BadLine(codec, body[i + 1..], a, b);
      BadMoves(codec, body, i, a + i + 1, b + i + 1);
    }
    if HasBadLine(codec, body) {
      var a: nat, b: nat :| BadLine(codec, body, a, b);
      FirstLine(body, a, b);
      if !(a == 0 && b == i) {
        BadMoves(codec, body, i, a, b);
      }
    }
  }

  lemma BadMoves(codec: Codec, body: Bytes, i: nat, a: nat, b: nat)
    requires i < |body| && body[i] == NEWLINE && i + 1 <= a <= b
    ensures BadLine(codec, body, a, b) <==> BadLine(codec, body[i + 1..], a - i - 1, b - i - 1)
  {
    LineMoves(body, i, a, b);
  }

  lemma BadOnly(codec: Codec, body: Bytes)
    requires PositionOf(body, NEWLINE) == |body|
    ensures HasBadLine(codec, body) <==> BadLine(codec, body, 0, |body|)
  {
    if a: nat, b: nat :| BadLine(codec, body, a, b) {
      FirstLine(body, a, b);
    }
  }

  /** A body is refused exactly when one of its lines is bad. */
  lemma {:induction false} RefusesExactly(codec: Codec, body: Bytes)
    ensures Parsed(codec, body).None? <==> HasBadLine(codec, body)
    decreases |body|
  {
    if body != [] {
      var i := PositionOf(body, NEWLINE);
      BadFirst(codec, body);
      if i == |body| {
        BadOnly(codec, body);
        assert Parsed(codec, []) == Some([]);
      } else {
        RefusesExactly(codec, body[i + 1..]);
        BadRest(codec, body, i);
      }
    }
  }

  lemma PrependNothing(r: Option<seq<Entry>>)
    ensures Prepend([], r) == r
  {
    if r.Some? {
      assert [] + r.value == r.value;
    }
  }

  lemma PrependMore(es: seq<Entry>, e: Entry, r: Option<seq<Entry>>)
    ensures Prepend(es, Prepend([e], r)) == Prepend(es + [e], r)
  {
    if r.Some? {
      assert es + ([e] + r.value) == (es + [e]) + r.value;
    }
  }

  /** The server reads exactly the entries the client wrote, in order. */
  lemma {:induction false} WireRoundTrip(codec: Codec, entries: seq<Entry>)
    requires forall e | e in entries :: Travels(codec, e)
    ensures Parsed(codec, Ndjson(codec, entries)) == Some(entries)
  {
    if entries != [] {
      var line, rest := codec.encode(entries[0]), Ndjson(codec, entries[1..]);
      assert entries[0] in entries && Travels(codec, entries[0]);
      PositionAfter(line, NEWLINE, rest);
      var body := line + [NEWLINE] + rest;
      assert body[..|line|] == line && body[|line| + 1..] == rest;
      assert forall e | e in entries[1..] :: e in entries;
      WireRoundTrip(codec, entries[1..]);
      assert entries == [entries[0]] + entries[1..];
    }
  }

  method ComputeBatchId(entries: seq<Entry>) returns (text: string)
    ensures text == IdText(ItemsOf(entries))
  {
    var parts: seq<string> := [];
    ghost var items := ItemsOf(entries);
    for i := 0 to |entries|
      invariant parts == LinesOf(items[..i])
    {
      assert items[..i + 1][..i] == items[..i];
      parts := parts + [entries[i].op + "|" + entries[i].path + "|" + entries[i].hash];
    }
    assert items[..|entries|] == items;
    text := Join(Sort(parts));
  }

  /** The server recomputes the client's identifier, and it names this batch up to order only. */
  lemma ServerRecomputesId(codec: Codec, a: Batch, b: seq<Entry>)
    requires (forall e | e in EntriesOf(a) :: Travels(codec, e)) && AllClean(ItemsOf(EntriesOf(a)))
    requires AllClean(ItemsOf(b))
    ensures var received := Parsed(codec, Ndjson(codec, EntriesOf(a)));
      && received == Some(EntriesOf(a))
      && (IdText(ItemsOf(b)) == IdText(ItemsOf(received.value)) <==>
           multiset(ItemsOf(b)) == multiset(ItemsOf(EntriesOf(a))))
  {
    WireRoundTrip(codec, EntriesOf(a));
    IdTextExact(ItemsOf(b), ItemsOf(EntriesOf(a)));
  }

  // ---------------------------------------------------------------------------
  // The content store and the worker's side
  // ---------------------------------------------------------------------------

  function FilesIn(entries: seq<Entry>): seq<FileEntry> {
    if entries == [] then []
    else
      var e := entries[|entries| - 1];
      FilesIn(entries[..|entries| - 1]) + if e.op == "file" then [FileEntry(e.path, e.hash, e.content)] else []
  }

  function DeletesIn(entries: seq<Entry>): seq<string> {
    if entries == [] then []
    else
      var e := entries[|entries| - 1];
      DeletesIn(entries[..|entries| - 1]) + if e.op == "delete" then [e.path] else []
  }

  /** The rows of the content store: JSON values one after the other, compressed. `unpack` takes the
      first value off. */
  datatype RowCodec = RowCodec(
    pack: Entry -> Bytes, unpack: Bytes -> Option<(Entry, Bytes)>,
    zip: Bytes -> Bytes, unzip: Bytes -> Option<Bytes>)

  /** The entry's row is taken off whatever follows it. */
  ghost predicate Unpacks(rows: RowCodec, e: Entry) {
    rows.pack(e) != [] && forall rest :: rows.unpack(rows.pack(e) + rest) == Some((e, rest))
  }

  ghost predicate Unzips(rows: RowCodec) {
    forall data :: rows.unzip(rows.zip(data)) == Some(data)
  }

  function Packed(rows: RowCodec, entries: seq<Entry>): Bytes {
    if entries == [] then [] else rows.pack(entries[0]) + Packed(rows, entries[1..])
  }

  lemma {:induction false} PackedAppend(rows: RowCodec, entries: seq<Entry>, e: Entry)
    ensures Packed(rows, entries + [e]) == Packed(rows, entries) + rows.pack(e)
  {
    if entries == [] {
      assert [] + [e] == [e] && [e][1..] == [];
      assert Packed(rows, [e]) == rows.pack(e) + [];
    } else {
      assert (entries + [e])[1..] == entries[1..] + [e];
      PackedAppend(rows, entries[1..], e);
    }
  }

  method SerializeBatchForRedis(rows: RowCodec, entries: seq<Entry>) returns (data: Bytes)
    ensures data == rows.zip(Packed(rows, entries))
  {
    var buf: Bytes := [];
    for i := 0 to |entries|
      invariant buf == Packed(rows, entries[..i])
    {
      assert entries[..i + 1] == entries[..i] + [entries[i]];
      PackedAppend(rows, entries[..i], entries[i]);
      buf := buf + rows.pack(Entry(entries[i].op, entries[i].path, entries[i].hash, entries[i].content));
    }
    assert entries[..|entries|] == entries;
    data := rows.zip(buf);
  }

  /** What packed rows mean. A row that takes nothing off is malformed. */
  function Unpacked(rows: RowCodec, data: Bytes): Option<seq<Entry>>
    decreases |data|
  {
    if data == [] then Some([])
    else
      match rows.unpack(data)
      case None => None
      case Some((e, rest)) => if |rest| < |data| then Prepend([e], Unpacked(rows, rest)) else None
  }

  lemma {:induction false} UnpackedExact(rows: RowCodec, entries: seq<Entry>)
    requires forall e | e in entries :: Unpacks(rows, e)
    ensures Unpacked(rows, Packed(rows, entries)) == Some(entries)
  {
    if entries != [] {
      assert entries[0] in entries && Unpacks(rows, entries[0]);
      assert forall e | e in entries[1..] :: e in entries;
      UnpackedExact(rows, entries[1..]);
      assert entries == [entries[0]] + entries[1..];
    }
  }

  function Classified(entries: seq<Entry>): Option<Batch> {
    if KnownOps(entries) then Some(Batch(FilesIn(entries), DeletesIn(entries))) else None
  }

  /** What the worker makes of stored content. */
  function DecodedContent(rows: RowCodec, data: Bytes): Option<Batch> {
    match rows.unzip(data)
    case None => None
    case Some(unzipped) =>
      match Unpacked(rows, unzipped)
      case None => None
      case Some(entries) => Classified(entries)
  }

  lemma ClassifiedPrefix(entries: seq<Entry>, more: seq<Entry>)
    requires !KnownOps(entries)
    ensures Classified(entries + more) == None
  {
    var i :| 0 <= i < |entries| && entries[i].op != "file" && entries[i].op != "delete";
    assert (entries + more)[i] == entries[i];
  }

  /** Sorts the rows into files and deletes; any other op is an error. */
  method DecodeBatchContent(rows: RowCodec, data: Bytes) returns (r: Option<Batch>)
    ensures r == DecodedContent(rows, data)
  {
    var unzipped := rows.unzip(data);
    if unzipped.None? {
      return None;
    }
    var files: seq<FileEntry>, deletes: seq<string> := [], [];
    var todo := unzipped.value;
    ghost var done: seq<Entry> := [];
    PrependNothing(Unpacked(rows, todo));
    while todo != []
      invariant Unpacked(rows, unzipped.value) == Prepend(done, Unpacked(rows, todo))
      invariant KnownOps(done) && files == FilesIn(done) && deletes == DeletesIn(done)
      decreases |todo|
    {
      var row := rows.unpack(todo);
      if row.None? || |row.value.1| >= |todo| {
        return None;
      }
      var e := row.value.0;
      PrependMore(done, e, Unpacked(rows, row.value.1));
      assert (done + [e])[..|done|] == done && (done + [e])[|done|] == e;
      match e.op {
        case "file" => files := files + [FileEntry(e.path, e.hash, e.content)];
        case "delete" => deletes := deletes + [e.path];
        case _ =>
          UnknownOp(rows, unzipped.value, done + [e], row.value.1);
          return None;
      }
      done, todo := done + [e], row.value.1;
    }
    assert done + [] == done;
    r := Some(Batch(files, deletes));
  }

  lemma UnknownOp(rows: RowCodec, data: Bytes, done: seq<Entry>, rest: Bytes)
    requires Unpacked(rows, data) == Prepend(done, Unpacked(rows, rest)) && !KnownOps(done)
    ensures Unpacked(rows, data).Some? ==> Classified(Unpacked(rows, data).value) == None
  {
    if Unpacked(rows, rest).Some? {
      ClassifiedPrefix(done, Unpacked(rows, rest).value);
    }
  }

  lemma {:induction false} DeletesLast(b: Batch, n: nat)
    requires n <= |b.deletes|
    ensures var entries := EntriesOf(b)[..|b.files| + n];
      KnownOps(entries) && FilesIn(entries) == b.files && DeletesIn(entries) == b.deletes[..n]
  {
    var entries := EntriesOf(b)[..|b.files| + n];
    if n == 0 {
      FilesFirst(b, |b.files|);
      assert b.files[..|b.files|] == b.files;
    } else {
      DeletesLast(b, n - 1);
      assert entries[..|entries| - 1] == EntriesOf(b)[..|b.files| + n - 1];
      assert entries[|entries| - 1] == DeleteWire(b.deletes[n - 1]);
      assert b.deletes[..n] == b.deletes[..n - 1] + [b.deletes[n - 1]];
    }
  }

  lemma {:induction false} FilesFirst(b: Batch, n: nat)
    requires n <= |b.files|
    ensures var entries := EntriesOf(b)[..n];
      KnownOps(entries) && FilesIn(entries) == b.files[..n] && DeletesIn(entries) == []
  {
    var entries := EntriesOf(b)[..n];
    if n > 0 {
      FilesFirst(b, n - 1);
      assert entries[..n - 1] == EntriesOf(b)[..n - 1];
      assert entries[n - 1] == FileWire(b.files[n - 1]);
      assert b.files[..n] == b.files[..n - 1] + [b.files[n - 1]];
    }
  }

  lemma PartitionExact(b: Batch)
    ensures KnownOps(EntriesOf(b)) && FilesIn(EntriesOf(b)) == b.files && DeletesIn(EntriesOf(b)) == b.deletes
  {
    DeletesLast(b, |b.deletes|);
    assert EntriesOf(b)[..|b.files| + |b.deletes|] == EntriesOf(b);
    assert b.deletes[..|b.deletes|] == b.deletes;
  }

  /** The worker gets the client's batch back, files and deletes in their order: the server reads the
      client's lines, packs what it has read, and the worker unpacks it. */
  lemma WorkerGetsBatch(codec: Codec, rows: RowCodec, b: Batch)
    requires Unzips(rows)
    requires forall e | e in EntriesOf(b) :: Travels(codec, e) && Unpacks(rows, e)
    ensures var received := Parsed(codec, Ndjson(codec, EntriesOf(b)));
      received.Some? && DecodedContent(rows, rows.zip(Packed(rows, received.value))) == Some(b)
  {
    WireRoundTrip(codec, EntriesOf(b));
    UnpackedExact(rows, EntriesOf(b));
    PartitionExact(b);
  }
}
