/** The versioned tree of file hashes of one repository: the directory tree built over the
    leaves, its root hash, the application of a delta and the two forms of /diff. */
module MerkleTree {
  import opened Lexicographic
  import opened Digests

  type Path = string

  type Leaves = map<Path, Hash>

  datatype Delta = Delta(files: map<Path, Hash>, deletes: set<Path>)

  /** A file and a directory of the tree, each with its full path. */
  datatype Node = File(path: Path) | Dir(path: Path, children: seq<Node>)

  // ---------------------------------------------------------------------------
  // Building the tree
  // ---------------------------------------------------------------------------

  /** strings.Split(p, "/"). */
  function Split(p: string): (parts: seq<string>)
    ensures |parts| > 0
  {
    if p == "" then [""]
    else
      var rest := Split(p[1..]);
      if p[0] == '/' then [""] + rest else [[p[0]] + rest[0]] + rest[1..]
  }

  lemma SplitStep(c: char, s: string)
    ensures Split([c] + s) == if c == '/' then [""] + Split(s) else [[c] + Split(s)[0]] + Split(s)[1..]
  {
    assert ([c] + s)[1..] == s;
  }

  /** strings.Join(parts, "/"). */
  function JoinParts(parts: seq<string>): string {
    if parts == [] then ""
    else if |parts| == 1 then parts[0]
    else JoinParts(parts[..|parts| - 1]) + "/" + parts[|parts| - 1]
  }

  /** The parts that path.Clean keeps: no empty one, no dot, and `..` only in front. */
  function Cleaned(parts: seq<string>, rooted: bool): seq<string> {
    if parts == [] then []
    else
      var out := Cleaned(parts[..|parts| - 1], rooted);
      var last := parts[|parts| - 1];
      if last == "" || last == "." then out
      else if last == ".." then
        if out != [] && out[|out| - 1] != ".." then out[..|out| - 1] else if rooted then out else out + [".."]
      else out + [last]
  }

  /** The parts of path.Dir(p); none for a file of the root directory. */
  function DirParts(p: Path): seq<string> {
    var parts := Split(p);
    var above := parts[..|parts| - 1];
    var rooted := above != [] && above[0] == "";
    var out := Cleaned(above, rooted);
    if !rooted then out else if out == [] then ["", ""] else [""] + out
  }

  /** The position of the directory `path` among the children, or their number. */
  function FindDir(children: seq<Node>, path: Path): (i: nat)
    ensures i <= |children|
    ensures i < |children| ==> children[i].Dir? && children[i].path == path
  {
    if children == [] then 0
    else if children[0].Dir? && children[0].path == path then 0
    else 1 + FindDir(children[1..], path)
  }

  /** Adds the file below the directories named by `dirs`, creating the missing ones. */
  function AddFile(above: seq<string>, children: seq<Node>, dirs: seq<string>, file: Path): seq<Node>
    decreases |dirs|
  {
    if dirs == [] then children + [File(file)]
    else
      var here := above + [dirs[0]];
      var path := JoinParts(here);
      var i := FindDir(children, path);
      if i < |children|
      then children[i := Dir(path, AddFile(here, children[i].children, dirs[1..], file))]
      else children + [Dir(path, AddFile(here, [], dirs[1..], file))]
  }

  function AddAll(files: seq<Path>): seq<Node> {
    if files == [] then []
    else
      var last := files[|files| - 1];
      AddFile([], AddAll(files[..|files| - 1]), DirParts(last), last)
  }

  function InsertNode(n: Node, ns: seq<Node>): seq<Node> {
    if ns == [] || Le(n.path, ns[0].path) then [n] + ns else [ns[0]] + InsertNode(n, ns[1..])
  }

  /** Children ordered by path, at every directory. */
  function SortNodes(ns: seq<Node>): seq<Node> {
    if ns == [] then []
    else
      var n := match ns[0] case File(_) => ns[0] case Dir(p, cs) => Dir(p, SortNodes(cs));
      InsertNode(n, SortNodes(ns[1..]))
  }

  /** The children of the root directory. It depends on the paths alone. */
  function Shape(paths: set<Path>): seq<Node> {
    SortNodes(AddAll(SortedKeys(paths)))
  }

  // ---------------------------------------------------------------------------
  // Hashing: a directory's hash covers its children's hashes in order, not their names
  // ---------------------------------------------------------------------------

  function HashOf(n: Node, leaves: Leaves): Hash {
    match n
    case File(p) => if p in leaves then leaves[p] else Sha("")
    case Dir(_, children) => Sha(ConcatHex(HashesOf(children, leaves)))
  }

  function HashesOf(ns: seq<Node>, leaves: Leaves): (hs: seq<Hash>)
    ensures |hs| == |ns|
  {
    if ns == [] then [] else [HashOf(ns[0], leaves)] + HashesOf(ns[1..], leaves)
  }

  function RootHash(leaves: Leaves): Hash {
    Sha(ConcatHex(HashesOf(Shape(leaves.Keys), leaves)))
  }

  ghost predicate Holds(ns: seq<Node>, p: Path) {
    exists i | 0 <= i < |ns| :: HoldsOne(ns[i], p)
  }

  ghost predicate HoldsOne(n: Node, p: Path) {
    match n
    case File(q) => p == q
    case Dir(_, children) => Holds(children, p)
  }

  lemma {:induction false} AddFileHolds(above: seq<string>, children: seq<Node>, dirs: seq<string>, file: Path, p: Path)
    ensures Holds(children, p) || p == file ==> Holds(AddFile(above, children, dirs, file), p)
    decreases |dirs|
  {
    var after := AddFile(above, children, dirs, file);
    if dirs == [] {
      assert after[|children|] == File(file);
      if Holds(children, p) {
        var j :| 0 <= j < |children| && HoldsOne(children[j], p);
        assert HoldsOne(after[j], p);
      }
    } else {
      var here := above + [dirs[0]];
      var path := JoinParts(here);
      var i := FindDir(children, path);
      var inner := if i < |children| then children[i].children else [];
      AddFileHolds(here, inner, dirs[1..], file, p);
      assert after[i] == Dir(path, AddFile(here, inner, dirs[1..], file));
      if Holds(children, p) {
        var j :| 0 <= j < |children| && HoldsOne(children[j], p);
        assert HoldsOne(after[j], p);
      } else if p == file {
        assert HoldsOne(after[i], p);
      }
    }
  }

  lemma {:induction false} AddAllHolds(files: seq<Path>, p: Path)
    requires p in files
    ensures Holds(AddAll(files), p)
  {
    var front, last := files[..|files| - 1], files[|files| - 1];
    if p != last {
      assert p in front;
      AddAllHolds(front, p);
    }
    AddFileHolds([], AddAll(front), DirParts(last), last, p);
  }

  lemma {:induction false} InsertNodeHolds(n: Node, ns: seq<Node>, p: Path)
    ensures HoldsOne(n, p) || Holds(ns, p) ==> Holds(InsertNode(n, ns), p)
  {
    var after := InsertNode(n, ns);
    if ns == [] || Le(n.path, ns[0].path) {
      assert after[0] == n;
      if Holds(ns, p) {
        var j :| 0 <= j < |ns| && HoldsOne(ns[j], p);
        assert HoldsOne(after[j + 1], p);
      }
    } else {
      InsertNodeHolds(n, ns[1..], p);
      if Holds(ns, p) {
        var j :| 0 <= j < |ns| && HoldsOne(ns[j], p);
        if j == 0 {
          assert HoldsOne(after[0], p);
        } else {
          assert HoldsOne(ns[1..][j - 1], p);
        }
      }
      if Holds(InsertNode(n, ns[1..]), p) {
        var j :| 0 <= j < |InsertNode(n, ns[1..])| && HoldsOne(InsertNode(n, ns[1..])[j], p);
        assert HoldsOne(after[j + 1], p);
      }
    }
  }

  lemma {:induction false} SortNodesHolds(ns: seq<Node>, p: Path)
    requires Holds(ns, p)
    ensures Holds(SortNodes(ns), p)
  {
    var n := match ns[0] case File(_) => ns[0] case Dir(q, cs) => Dir(q, SortNodes(cs));
    var j :| 0 <= j < |ns| && HoldsOne(ns[j], p);
    if j == 0 {
      if ns[0].Dir? {
        SortNodesHolds(ns[0].children, p);
      }
      assert HoldsOne(n, p);
    } else {
      assert HoldsOne(ns[1..][j - 1], p);
      SortNodesHolds(ns[1..], p);
    }
    InsertNodeHolds(n, SortNodes(ns[1..]), p);
  }

  /** Every leaf is a file of the tree built over the leaves. */
  lemma ShapeHolds(paths: set<Path>, p: Path)
    requires p in paths
    ensures Holds(Shape(paths), p)
  {
    AddAllHolds(SortedKeys(paths), p);
    SortNodesHolds(AddAll(SortedKeys(paths)), p);
  }

  lemma {:induction false} EqualHashesEqualLeaves(ns: seq<Node>, a: Leaves, b: Leaves, p: Path)
    requires HashesOf(ns, a) == HashesOf(ns, b)
    requires Holds(ns, p) && p in a && p in b
    ensures a[p] == b[p]
  {
    var j :| 0 <= j < |ns| && HoldsOne(ns[j], p);
    var ha, hb := HashesOf(ns, a), HashesOf(ns, b);
    assert HashOf(ns[0], a) == ha[0] == hb[0] == HashOf(ns[0], b);
    assert HashesOf(ns[1..], a) == ha[1..] == hb[1..] == HashesOf(ns[1..], b);
    if j > 0 {
      assert HoldsOne(ns[1..][j - 1], p);
      EqualHashesEqualLeaves(ns[1..], a, b, p);
    } else if ns[0].Dir? {
      ConcatHexInjective(HashesOf(ns[0].children, a), HashesOf(ns[0].children, b));
      EqualHashesEqualLeaves(ns[0].children, a, b, p);
    }
  }

  /** Two trees with one root hash agree exactly when they hold the same paths. The root hash
      alone does not identify a tree, because no directory hash covers a name. */
  lemma RootHashExact(a: Leaves, b: Leaves)
    requires RootHash(a) == RootHash(b)
    ensures a == b <==> a.Keys == b.Keys
  {
    if a.Keys == b.Keys {
      ConcatHexInjective(HashesOf(Shape(a.Keys), a), HashesOf(Shape(a.Keys), b));
      forall p | p in a ensures a[p] == b[p] {
        ShapeHolds(a.Keys, p);
        EqualHashesEqualLeaves(Shape(a.Keys), a, b, p);
      }
    }
  }

  lemma SingletonShape(p: Path)
    requires DirParts(p) == []
    ensures Shape({p}) == [File(p)]
  {
    assert SortedKeys({p}) == [p] by {
      assert {p} - {p} == {};
    }
    assert AddAll([]) == [];
    assert AddAll([p]) == [File(p)];
    assert [File(p)][1..] == [] && SortNodes([]) == [];
  }

  lemma OneHash(p: Path, h: Hash)
    ensures HashesOf([File(p)], map[p := h]) == [h]
  {
    assert [File(p)][1..] == [];
  }

  /** Renaming the only file of a repository leaves the root hash unchanged. */
  lemma RenameKeepsRootHash(p: Path, q: Path, h: Hash)
    requires DirParts(p) == [] && DirParts(q) == []
    ensures RootHash(map[p := h]) == RootHash(map[q := h])
  {
    SingletonShape(p);
    SingletonShape(q);
    assert map[p := h].Keys == {p} && map[q := h].Keys == {q};
    OneHash(p, h);
    OneHash(q, h);
  }

  // ---------------------------------------------------------------------------
  // Deltas and /diff
  // ---------------------------------------------------------------------------

  /** Updates override leaves, then deletes remove them. */
  function ApplyChanges(leaves: Leaves, d: Delta): Leaves {
    (leaves + d.files) - d.deletes
  }

  predicate AddsOrRemovesPath(leaves: Leaves, d: Delta) {
    (exists p | p in d.files :: p !in leaves && p !in d.deletes) || (exists p | p in d.deletes :: p in leaves)
  }

  lemma ApplyChangesIdempotent(leaves: Leaves, d: Delta)
    ensures ApplyChanges(ApplyChanges(leaves, d), d) == ApplyChanges(leaves, d)
  {
  }

  /** So the finalizer takes the rename of an only file for no change and never writes it. */
  lemma RenameIsSkipped(h: Hash)
    ensures var leaves := map["a" := h]; var d := Delta(map["b" := h], {"a"});
      RootHash(ApplyChanges(leaves, d)) == RootHash(leaves) && ApplyChanges(leaves, d) == map["b" := h] != leaves
  {
    var leaves: Leaves := map["a" := h];
    var d := Delta(map["b" := h], {"a"});
    var none := Split("");
    assert none == [""] && none[1..] == [];
    assert "a"[1..] == "" && "b"[1..] == "" && ['a'] + "" == "a" && ['b'] + "" == "b";
    assert Split("a") == ["a"] && Split("b") == ["b"];
    assert ["a"][..0] == [] && ["b"][..0] == [];
    assert DirParts("a") == [] && DirParts("b") == [];
    RenameKeepsRootHash("a", "b", h);
    assert "a" != "b" by { assert "a"[0] != "b"[0]; }
    assert ApplyChanges(leaves, d) == map["b" := h];
    assert "a" in leaves && "a" !in ApplyChanges(leaves, d);
  }

  /** The finalizer skips its write when the root hash would not change. The skipped delta is
      really in the tree exactly when it neither adds nor removes a path. */
  lemma EqualHashFastPathExact(leaves: Leaves, d: Delta)
    requires RootHash(ApplyChanges(leaves, d)) == RootHash(leaves)
    ensures ApplyChanges(leaves, d) == leaves <==> !AddsOrRemovesPath(leaves, d)
  {
    var after := ApplyChanges(leaves, d);
    RootHashExact(after, leaves);
    if after.Keys == leaves.Keys {
      forall p | p in d.files && p !in d.deletes ensures p in leaves { assert p in after; }
      forall p | p in d.deletes ensures p !in leaves { assert p !in after; }
    }
  }

  /** `need`: the client's paths whose hash is missing from the tree or differs. */
  function Need(leaves: Leaves, client: Leaves): Leaves {
    map p | p in client && (p !in leaves || leaves[p] != client[p]) :: client[p]
  }

  /** `delete` of a full diff: the tree's paths the client no longer has. */
  function Stale(leaves: Leaves, client: Leaves): set<Path> {
    leaves.Keys - client.Keys
  }

  /** A delta asks for nothing the client does not have and keeps nothing it has. */
  predicate Agrees(d: Delta, client: Leaves) {
    && (forall p | p in d.files :: p in client && d.files[p] == client[p])
    && d.deletes !! client.Keys
  }

  /** Committing part of what a full diff asked for leaves exactly the rest to be asked for. */
  lemma CommitShrinksDiff(leaves: Leaves, client: Leaves, d: Delta)
    requires Agrees(d, client)
    ensures Need(ApplyChanges(leaves, d), client).Keys == Need(leaves, client).Keys - d.files.Keys
    ensures Stale(ApplyChanges(leaves, d), client) == Stale(leaves, client) - d.deletes
  {
  }

  /** A full diff asks for nothing exactly when the tree is the client's, and all it asks for makes the
      tree the client's. */
  lemma DiffReaches(leaves: Leaves, client: Leaves)
    ensures Need(leaves, client) == map[] && Stale(leaves, client) == {} <==> leaves == client
    ensures ApplyChanges(leaves, Delta(Need(leaves, client), Stale(leaves, client))) == client
  {
    if Need(leaves, client) == map[] && Stale(leaves, client) == {} {
      forall p | p in client ensures p in leaves && leaves[p] == client[p] {
        assert p !in Need(leaves, client);
      }
      assert forall p | p in leaves :: p !in Stale(leaves, client);
    }
  }
}
