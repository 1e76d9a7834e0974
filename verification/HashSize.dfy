/** When a delta can be mistaken for no change: the root hash covers one digest for every file, so
    the delta adds as many paths as it removes, unless some file's content spells out digests. */
module HashSize {
  import opened Lexicographic
  import opened Digests
  import opened MerkleTree

  /** The digest of a directory, or of a file whose content happens to be printed digests. */
  ghost predicate SpellsDigests(h: Hash) {
    exists hs :: hs != [] && h.preimage == ConcatHex(hs)
  }

  /** The number of digests at the bottom of a digest. */
  ghost function Count(h: Hash): nat
    decreases |h.preimage|, 1, 0
  {
    if SpellsDigests(h) then
      var hs :| hs != [] && h.preimage == ConcatHex(hs);
      CountOf(hs, |h.preimage|)
    else 1
  }

  ghost function CountOf(hs: seq<Hash>, bound: nat): nat
    requires |ConcatHex(hs)| <= bound
    decreases bound, 0, |hs|
  {
    if hs == [] then 0
    else
      ConcatHexLonger(hs, 0);
      Count(hs[0]) + CountOf(hs[1..], bound)
  }

  lemma {:induction false} CountOfBound(hs: seq<Hash>, b: nat, c: nat)
    requires |ConcatHex(hs)| <= b && |ConcatHex(hs)| <= c
    ensures CountOf(hs, b) == CountOf(hs, c)
  {
    if hs != [] {
      CountOfBound(hs[1..], b, c);
    }
  }

  lemma CountOfRollup(hs: seq<Hash>)
    requires hs != []
    ensures Count(Sha(ConcatHex(hs))) == CountOf(hs, |ConcatHex(hs)|)
  {
    forall ks | ks != [] && ConcatHex(hs) == ConcatHex(ks) ensures ks == hs {
      ConcatHexInjective(hs, ks);
    }
  }

  function Files(ns: seq<Node>): nat {
    if ns == [] then 0 else FilesOne(ns[0]) + Files(ns[1..])
  }

  function FilesOne(n: Node): nat {
    match n
    case File(_) => 1
    case Dir(_, children) => Files(children)
  }

  lemma {:induction false} FilesAppend(ns: seq<Node>, n: Node)
    ensures Files(ns + [n]) == Files(ns) + FilesOne(n)
  {
    if ns == [] {
      assert ns + [n] == [n];
    } else {
      assert (ns + [n])[1..] == ns[1..] + [n];
      FilesAppend(ns[1..], n);
    }
  }

  lemma {:induction false} FilesUpdate(ns: seq<Node>, i: nat, n: Node)
    requires i < |ns|
    ensures Files(ns[i := n]) == Files(ns) - FilesOne(ns[i]) + FilesOne(n)
  {
    if i == 0 {
      assert ns[0 := n][1..] == ns[1..];
    } else {
      assert ns[i := n][1..] == ns[1..][i - 1 := n];
      FilesUpdate(ns[1..], i - 1, n);
    }
  }

  /** No directory is empty. */
  predicate NoneEmpty(ns: seq<Node>) {
    forall i | 0 <= i < |ns| :: NotEmpty(ns[i])
  }

  predicate NotEmpty(n: Node) {
    match n
    case File(_) => true
    case Dir(_, children) => children != [] && NoneEmpty(children)
  }

  lemma {:induction false} AddFileCounts(above: seq<string>, children: seq<Node>, dirs: seq<string>, file: Path)
    ensures Files(AddFile(above, children, dirs, file)) == Files(children) + 1
    ensures NoneEmpty(children) ==> NoneEmpty(AddFile(above, children, dirs, file))
    ensures AddFile(above, children, dirs, file) != []
    decreases |dirs|
  {
    if dirs == [] {
      FilesAppend(children, File(file));
    } else {
      var here := above + [dirs[0]];
      var path := JoinParts(here);
      var i := FindDir(children, path);
      if i < |children| {
        AddFileCounts(here, children[i].children, dirs[1..], file);
        var n := Dir(path, AddFile(here, children[i].children, dirs[1..], file));
        FilesUpdate(children, i, n);
        if NoneEmpty(children) {
          assert NotEmpty(children[i]) && NotEmpty(n);
          var updated := children[i := n];
          forall j | 0 <= j < |updated| ensures NotEmpty(updated[j]) { }
        }
      } else {
        AddFileCounts(here, [], dirs[1..], file);
        var n := Dir(path, AddFile(here, [], dirs[1..], file));
        FilesAppend(children, n);
        assert NotEmpty(n);
      }
    }
  }

  lemma {:induction false} AddAllCounts(files: seq<Path>)
    ensures Files(AddAll(files)) == |files| && NoneEmpty(AddAll(files))
  {
    if files != [] {
      var front, last := files[..|files| - 1], files[|files| - 1];
      AddAllCounts(front);
      AddFileCounts([], AddAll(front), DirParts(last), last);
    }
  }

  lemma {:induction false} InsertNodeCounts(n: Node, ns: seq<Node>)
    ensures Files(InsertNode(n, ns)) == FilesOne(n) + Files(ns)
    ensures NotEmpty(n) && NoneEmpty(ns) ==> NoneEmpty(InsertNode(n, ns))
    ensures |InsertNode(n, ns)| == |ns| + 1
  {
    if ns == [] || Le(n.path, ns[0].path) {
      assert ([n] + ns)[1..] == ns;
    } else {
      InsertNodeCounts(n, ns[1..]);
      if NoneEmpty(ns) {
        forall i | 0 <= i < |ns[1..]| ensures NotEmpty(ns[1..][i]) { assert NotEmpty(ns[i + 1]); }
      }
      assert ([ns[0]] + InsertNode(n, ns[1..]))[1..] == InsertNode(n, ns[1..]);
    }
  }

  lemma {:induction false} SortNodesCounts(ns: seq<Node>)
    ensures Files(SortNodes(ns)) == Files(ns)
    ensures NoneEmpty(ns) ==> NoneEmpty(SortNodes(ns))
    ensures |SortNodes(ns)| == |ns|
  {
    if ns != [] {
      var n := match ns[0] case File(_) => ns[0] case Dir(p, cs) => Dir(p, SortNodes(cs));
      if ns[0].Dir? {
        SortNodesCounts(ns[0].children);
      }
      SortNodesCounts(ns[1..]);
      InsertNodeCounts(n, SortNodes(ns[1..]));
      if NoneEmpty(ns) {
        assert NotEmpty(ns[0]) && NotEmpty(n);
        forall i | 0 <= i < |ns[1..]| ensures NotEmpty(ns[1..][i]) { assert NotEmpty(ns[i + 1]); }
      }
    }
  }

  lemma {:induction false} SortedKeysCount(s: set<string>)
    ensures |SortedKeys(s)| == |s|
  {
    if s != {} {
      var x := SortedKeys(s)[0];
      SortedKeysCount(s - {x});
    }
  }

  /** No file's content is a row of printed digests. */
  ghost predicate PlainFiles(leaves: Leaves) {
    forall p | p in leaves :: !SpellsDigests(leaves[p])
  }

  lemma {:induction false} HashesCount(ns: seq<Node>, leaves: Leaves, bound: nat)
    requires PlainFiles(leaves) && NoneEmpty(ns) && |ConcatHex(HashesOf(ns, leaves))| <= bound
    ensures CountOf(HashesOf(ns, leaves), bound) == Files(ns)
  {
    if ns != [] {
      assert HashesOf(ns, leaves)[1..] == HashesOf(ns[1..], leaves);
      assert NotEmpty(ns[0]);
      if ns[0].Dir? {
        var inner := HashesOf(ns[0].children, leaves);
        HashesCount(ns[0].children, leaves, |ConcatHex(inner)|);
        CountOfRollup(inner);
      } else {
        MissingIsPlain();
      }
      HashesCount(ns[1..], leaves, bound);
    }
  }

  lemma MissingIsPlain()
    ensures !SpellsDigests(Sha(""))
  {
    forall hs | hs != [] ensures ConcatHex(hs) != "" { ConcatHexEmpty(hs); }
  }

  lemma ShapeCounts(leaves: Leaves)
    ensures Files(Shape(leaves.Keys)) == |leaves| && NoneEmpty(Shape(leaves.Keys))
  {
    var keys := SortedKeys(leaves.Keys);
    SortNodesCounts(AddAll(keys));
    AddAllCounts(keys);
    SortedKeysCount(leaves.Keys);
    assert |leaves.Keys| == |leaves|;
  }

  /** The root hash of a tree with files has one digest at its bottom for every file. */
  lemma RootHashCounts(leaves: Leaves)
    requires PlainFiles(leaves) && leaves != map[]
    ensures Count(RootHash(leaves)) == |leaves|
  {
    var hs := HashesOf(Shape(leaves.Keys), leaves);
    ShapeCounts(leaves);
    HashesCount(Shape(leaves.Keys), leaves, |ConcatHex(hs)|);
    assert |leaves| != 0 by {
      var p :| p in leaves;
      assert leaves.Keys != {} && |leaves.Keys| == |leaves|;
    }
    assert hs != [] by { assert Files([]) == 0; }
    CountOfRollup(hs);
  }

  /** A tree without files has a root hash of its own. */
  lemma EmptyRootHash(leaves: Leaves)
    ensures RootHash(leaves) == RootHash(map[]) <==> leaves == map[]
  {
    if RootHash(leaves) == RootHash(map[]) {
      var none: Leaves := map[];
      ConcatHexInjective(HashesOf(Shape(leaves.Keys), leaves), HashesOf(Shape(none.Keys), none));
      ShapeCounts(leaves);
      ShapeCounts(none);
      assert Shape(none.Keys) == [] by { assert none.Keys == {}; }
      assert Files([]) == 0;
      assert leaves.Keys == {} by { assert |leaves.Keys| == |leaves|; }
    }
  }

  lemma SameSizeDifferences(a: set<Path>, b: set<Path>)
    requires |a| == |b|
    ensures |a - b| == |b - a|
  {
    assert a == (a - b) + (a * b) && b == (b - a) + (a * b);
    assert |a| == |a - b| + |a * b|;
    assert |b| == |b - a| + |a * b|;
  }

  /** When no file's content is a row of printed digests, a delta the fast path loses removes exactly
      as many paths as it adds. */
  lemma LostDeltaRenames(leaves: Leaves, d: Delta)
    requires PlainFiles(leaves) && PlainFiles(d.files)
    requires RootHash(ApplyChanges(leaves, d)) == RootHash(leaves) && ApplyChanges(leaves, d) != leaves
    ensures var after := ApplyChanges(leaves, d);
      |leaves.Keys - after.Keys| == |after.Keys - leaves.Keys| && leaves.Keys != after.Keys
  {
    var after := ApplyChanges(leaves, d);
    EmptyRootHash(leaves);
    EmptyRootHash(after);
    RootHashCounts(leaves);
    RootHashCounts(after);
    RootHashExact(after, leaves);
    assert |leaves.Keys| == |leaves| && |after.Keys| == |after|;
    SameSizeDifferences(leaves.Keys, after.Keys);
  }

  // ---------------------------------------------------------------------------
  // A file in place of a directory
  // ---------------------------------------------------------------------------

  /** A directory of two files, and a file in its place whose content is their printed digests, have
      one root hash: the delta removes two paths and adds one, and is taken for no change. */
  lemma FileForDirectory(h1: Hash, h2: Hash)
    ensures var leaves := map["d/a" := h1, "d/b" := h2];
      var d := Delta(map["d" := Sha(Hex(h1) + Hex(h2))], {"d/a", "d/b"});
      RootHash(ApplyChanges(leaves, d)) == RootHash(leaves) && |leaves| == 2 && |ApplyChanges(leaves, d)| == 1
  {
    var leaves: Leaves := map["d/a" := h1, "d/b" := h2];
    var h := Sha(Hex(h1) + Hex(h2));
    var d := Delta(map["d" := h], {"d/a", "d/b"});
    ThreeNames();
    assert ApplyChanges(leaves, d) == map["d" := h];
    assert leaves.Keys == {"d/a", "d/b"} && map["d" := h].Keys == {"d"};
    FileHash(h);
    PairShape();
    PairHash(h1, h2);
  }

  lemma ThreeNames()
    ensures "d/a" != "d/b" && "d/a" != "d" && "d/b" != "d"
  {
    assert "d/a"[2] != "d/b"[2];
    assert |"d/a"| == |"d/b"| == 3 && |"d"| == 1;
  }

  lemma FileHash(h: Hash)
    ensures RootHash(map["d" := h]) == Sha(ConcatHex([h]))
  {
    SplitNames();
    SingletonShape("d");
    OneHash("d", h);
    assert map["d" := h].Keys == {"d"};
  }

  lemma SplitNames()
    ensures Split("d") == ["d"] && Split("d/a") == ["d", "a"] && Split("d/b") == ["d", "b"]
  {
    SplitStep('d', "");
    SplitStep('a', "");
    SplitStep('b', "");
    assert "d" == ['d'] + "" && "a" == ['a'] + "" && "b" == ['b'] + "";
    assert Split("") == [""] && [""][1..] == [];
    assert Split("d") == ["d"] && Split("a") == ["a"] && Split("b") == ["b"];
    SplitStep('/', "a");
    SplitStep('/', "b");
    assert "/a" == ['/'] + "a" && "/b" == ['/'] + "b";
    assert Split("/a") == ["", "a"] && Split("/b") == ["", "b"];
    SplitStep('d', "/a");
    SplitStep('d', "/b");
    assert "d/a" == ['d'] + "/a" && "d/b" == ['d'] + "/b" && ['d'] + "" == "d";
    assert ["", "a"][1..] == ["a"] && ["", "b"][1..] == ["b"];
  }

  lemma PartNames()
    ensures DirParts("d") == [] && DirParts("d/a") == ["d"] && DirParts("d/b") == ["d"]
  {
    SplitNames();
    assert ["d"][..0] == [] && ["d", "a"][..1] == ["d"] && ["d", "b"][..1] == ["d"];
    assert Cleaned(["d"], false) == ["d"];
  }

  lemma PairShape()
    ensures Shape({"d/a", "d/b"}) == [Dir("d", [File("d/a"), File("d/b")])]
  {
    SplitNames();
    PartNames();
    var a, b := "d/a", "d/b";
    assert a[..2] == "d/" == b[..2];
    LeAt(a, b, 2);
    SortedKeysPair(a, b);
    PairAdded(a, b);
    PairSorted(a, b);
  }

  lemma PairAdded(a: Path, b: Path)
    requires DirParts(a) == ["d"] && DirParts(b) == ["d"]
    ensures AddAll([a, b]) == [Dir("d", [File(a), File(b)])]
  {
    var one := [Dir("d", [File(a)])];
    assert [a, b][..1] == [a] && [a][..0] == [];
    assert [] + ["d"] == ["d"] && ["d"][1..] == [];
    assert AddFile([], [], ["d"], a) == one by { assert [] + [File(a)] == [File(a)]; }
    assert AddAll([a]) == one;
    assert [File(a)] + [File(b)] == [File(a), File(b)];
    assert one[0 := Dir("d", [File(a), File(b)])] == [Dir("d", [File(a), File(b)])];
  }

  lemma PairSorted(a: string, b: string)
    requires Le(a, b)
    ensures SortNodes([Dir("d", [File(a), File(b)])]) == [Dir("d", [File(a), File(b)])]
  {
    assert [File(b)][1..] == [] && [File(a), File(b)][1..] == [File(b)];
    assert SortNodes([File(b)]) == [File(b)];
    assert InsertNode(File(a), [File(b)]) == [File(a)] + [File(b)];
    assert SortNodes([File(a), File(b)]) == [File(a), File(b)];
    assert [Dir("d", [File(a), File(b)])][1..] == [] && SortNodes([]) == [];
    assert InsertNode(Dir("d", [File(a), File(b)]), []) == [Dir("d", [File(a), File(b)])];
  }

  lemma PairHash(h1: Hash, h2: Hash)
    ensures HashesOf([Dir("d", [File("d/a"), File("d/b")])], map["d/a" := h1, "d/b" := h2]) == [Sha(Hex(h1) + Hex(h2))]
  {
    var leaves: Leaves := map["d/a" := h1, "d/b" := h2];
    assert "d/a"[2] != "d/b"[2];
    var ns := [File("d/a"), File("d/b")];
    assert ns[1..] == [File("d/b")] && ns[1..][1..] == [];
    assert HashOf(ns[0], leaves) == h1 && HashOf(ns[1], leaves) == h2;
    assert HashesOf(ns[1..], leaves) == [h2] + HashesOf([], leaves) == [h2];
    assert HashesOf(ns, leaves) == [h1] + [h2] == [h1, h2];
    assert [h1, h2][1..] == [h2] && [h2][1..] == [];
    assert ConcatHex([h2]) == Hex(h2) + "";
    assert ConcatHex([h1, h2]) == Hex(h1) + Hex(h2);
    assert [Dir("d", ns)][1..] == [];
  }
}
