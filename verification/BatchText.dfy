/** The canonical text whose digest identifies a batch. Client and server compute it on their own
    and must agree; the digest is taken as collision free, so the text stands for the identifier. */
module BatchText {
  import opened Wrappers

  import opened Lexicographic
  import opened Digests

  /** An entry of a batch: op is "file" or "delete". The client's deletes have no hash. */
  datatype Item = Item(op: string, path: string, hash: string)

  function Line(e: Item): string {
    e.op + "|" + e.path + "|" + e.hash
  }

  function LinesOf(items: seq<Item>): seq<string> {
    if items == [] then [] else LinesOf(items[..|items| - 1]) + [Line(items[|items| - 1])]
  }

  lemma {:induction false} LinesOfEach(items: seq<Item>)
    ensures |LinesOf(items)| == |items| && forall i | 0 <= i < |items| :: LinesOf(items)[i] == Line(items[i])
  {
    if items != [] {
      LinesOfEach(items[..|items| - 1]);
    }
  }

  function Join(lines: seq<string>): string {
    if lines == [] then "" else if |lines| == 1 then lines[0] else lines[0] + "\n" + Join(lines[1..])
  }

  function IdText(items: seq<Item>): string {
    Join(Sort(LinesOf(items)))
  }

  /** Paths and hashes hold no newline, hashes no bar. */
  predicate Clean(e: Item) {
    && Free(e.path, '\n') && Free(e.hash, '\n') && Free(e.hash, '|')
    && (e.op == "file" || e.op == "delete")
  }

  predicate AllClean(items: seq<Item>) {
    forall e | e in items :: Clean(e)
  }

  // ---------------------------------------------------------------------------
  // Reading a line back
  // ---------------------------------------------------------------------------

  lemma BarUnique(a: string, b: string, c: string, d: string)
    requires a + "|" + b == c + "|" + d && Free(b, '|') && Free(d, '|')
    ensures a == c && b == d
  {
    var s := a + "|" + b;
    assert s == c + "|" + d;
    assert s[|a|] == '|' && s[|c|] == '|';
    assert forall i | |a| < i < |s| :: s[i] == b[i - |a| - 1];
    assert forall i | |c| < i < |s| :: s[i] == d[i - |c| - 1];
    assert |a| == |c|;
    assert a == s[..|a|] == s[..|c|] == c;
    assert b == s[|a| + 1..] && d == s[|c| + 1..];
  }

  /** A known op, and no bar in the hash. */
  predicate Legible(e: Item) {
    (e.op == "file" || e.op == "delete") && Free(e.hash, '|')
  }

  /** Such an entry can be read off its line. */
  lemma LineInjective(a: Item, b: Item)
    requires Legible(a) && Legible(b) && Line(a) == Line(b)
    ensures a == b
  {
    assert Line(a)[0] == a.op[0] && Line(b)[0] == b.op[0];
    var name := a.op;
    assert Line(a) == (name + "|" + a.path) + "|" + a.hash;
    assert Line(b) == (name + "|" + b.path) + "|" + b.hash;
    BarUnique(name + "|" + a.path, a.hash, name + "|" + b.path, b.hash);
    assert a.path == (name + "|" + a.path)[|name| + 1..] && b.path == (name + "|" + b.path)[|name| + 1..];
  }

  lemma LineClean(e: Item)
    requires Clean(e)
    ensures Free(Line(e), '\n') && Line(e) != ""
  {
  }

  // ---------------------------------------------------------------------------
  // Joining
  // ---------------------------------------------------------------------------

  predicate Joinable(lines: seq<string>) {
    forall i | 0 <= i < |lines| :: Free(lines[i], '\n') && lines[i] != ""
  }

  /** Joined lines are read back by cutting at the newlines. */
  lemma {:induction false} JoinInjective(a: seq<string>, b: seq<string>)
    requires Joinable(a) && Joinable(b) && Join(a) == Join(b)
    ensures a == b
  {
    JoinEmpty(a);
    JoinEmpty(b);
    if a != [] && b != [] {
      JoinHead(a);
      JoinHead(b);
      assert a[0] == b[0];
      if |a| > 1 {
        assert |b| > 1;
        assert Join(a) == a[0] + "\n" + Join(a[1..]);
        assert Join(b) == b[0] + "\n" + Join(b[1..]);
        assert Join(a[1..]) == Join(a)[|a[0]| + 1..] == Join(b)[|b[0]| + 1..] == Join(b[1..]);
        JoinInjective(a[1..], b[1..]);
      }
      assert a == [a[0]] + a[1..] && b == [b[0]] + b[1..];
    }
  }

  lemma JoinEmpty(a: seq<string>)
    requires Joinable(a)
    ensures Join(a) == "" <==> a == []
  {
  }

  lemma JoinHead(a: seq<string>)
    requires Joinable(a) && a != []
    ensures PositionOf(Join(a), '\n') == |a[0]| && Join(a)[..|a[0]|] == a[0]
    ensures |a| == 1 <==> |Join(a)| == |a[0]|
  {
    PositionAfter(a[0], '\n', if |a| > 1 then Join(a[1..]) else "");
    if |a| > 1 {
      assert Join(a) == a[0] + "\n" + Join(a[1..]);
    }
  }

  // ---------------------------------------------------------------------------
  // The text identifies the entries, up to their order
  // ---------------------------------------------------------------------------

  lemma {:induction false} LinesCount(items: seq<Item>, line: string)
    ensures line in LinesOf(items) <==> exists e :: e in items && Line(e) == line
  {
    if items != [] {
      var front, last := items[..|items| - 1], items[|items| - 1];
      assert items == front + [last];
      LinesCount(front, line);
      if e :| e in items && Line(e) == line {
        assert e == last || e in front;
      }
    }
  }

  /** Lines occur as often as their entries. */
  lemma {:induction false} LinesMultiplicity(items: seq<Item>, e: Item)
    requires AllClean(items) && Clean(e)
    ensures multiset(LinesOf(items))[Line(e)] == multiset(items)[e]
  {
    if items != [] {
      var front, last := items[..|items| - 1], items[|items| - 1];
      assert items == front + [last];
      assert forall x | x in front :: x in items;
      LinesMultiplicity(front, e);
      assert last in items;
      if Line(e) == Line(last) {
        LineInjective(e, last);
      }
    }
  }

  function Without(items: seq<Item>, i: nat): seq<Item>
    requires i < |items|
  {
    items[..i] + items[i + 1..]
  }

  /** Taking one entry out takes its line out. */
  lemma LinesWithout(items: seq<Item>, i: nat)
    requires i < |items|
    ensures |Without(items, i)| == |items| - 1
    ensures multiset(items) == multiset(Without(items, i)) + multiset{items[i]}
    ensures multiset(LinesOf(items)) == multiset(LinesOf(Without(items, i))) + multiset{Line(items[i])}
  {
    var head, one, tail := items[..i], [items[i]], items[i + 1..];
    assert items == head + (one + tail);
    LinesSplit(head, one + tail);
    LinesSplit(one, tail);
    LinesSplit(head, tail);
    assert LinesOf(one) == [Line(items[i])] by {
      assert one[..0] == [];
    }
  }

  lemma SameRest(a: multiset<Item>, b: multiset<Item>, x: Item)
    requires a + multiset{x} == b + multiset{x}
    ensures a == b
  {
    assert a == (a + multiset{x}) - multiset{x} && b == (b + multiset{x}) - multiset{x};
  }

  lemma {:induction false} LinesPermuted(a: seq<Item>, b: seq<Item>)
    requires multiset(a) == multiset(b)
    ensures multiset(LinesOf(a)) == multiset(LinesOf(b))
    decreases |a|
  {
    if a == [] {
      assert |multiset(b)| == |b|;
    } else {
      assert a[0] in multiset(a);
      var i := Position(b, a[0]);
      LinesWithout(a, 0);
      LinesWithout(b, i);
      SameRest(multiset(Without(a, 0)), multiset(Without(b, i)), a[0]);
      LinesPermuted(Without(a, 0), Without(b, i));
    }
  }

  lemma Position(items: seq<Item>, e: Item) returns (i: nat)
    requires e in multiset(items)
    ensures i < |items| && items[i] == e
  {
    i :| 0 <= i < |items| && items[i] == e;
  }

  lemma {:induction false} LinesSplit(a: seq<Item>, b: seq<Item>)
    ensures LinesOf(a + b) == LinesOf(a) + LinesOf(b)
  {
    if b == [] {
      assert a + b == a;
    } else {
      assert (a + b)[..|a + b| - 1] == a + b[..|b| - 1];
      LinesSplit(a, b[..|b| - 1]);
    }
  }

  /** The text does not depend on the order of files and deletes. */
  lemma IdTextPermuted(a: seq<Item>, b: seq<Item>)
    requires multiset(a) == multiset(b)
    ensures IdText(a) == IdText(b)
  {
    LinesPermuted(a, b);
    SortSorts(LinesOf(a));
    SortSorts(LinesOf(b));
    SortedUnique(Sort(LinesOf(a)), Sort(LinesOf(b)));
  }

  lemma SortedJoinable(items: seq<Item>)
    requires AllClean(items)
    ensures Joinable(Sort(LinesOf(items)))
  {
    var sorted := Sort(LinesOf(items));
    SortSorts(LinesOf(items));
    forall i | 0 <= i < |sorted| ensures Free(sorted[i], '\n') && sorted[i] != "" {
      assert sorted[i] in multiset(sorted);
      assert sorted[i] in LinesOf(items);
      LinesCount(items, sorted[i]);
      var e :| e in items && Line(e) == sorted[i];
      LineClean(e);
    }
  }

  /** Two clean batches have one text exactly when they hold the same entries. */
  lemma IdTextExact(a: seq<Item>, b: seq<Item>)
    requires AllClean(a) && AllClean(b)
    ensures IdText(a) == IdText(b) <==> multiset(a) == multiset(b)
  {
    if multiset(a) == multiset(b) {
      IdTextPermuted(a, b);
    }
    if IdText(a) == IdText(b) {
      SortedJoinable(a);
      SortedJoinable(b);
      JoinInjective(Sort(LinesOf(a)), Sort(LinesOf(b)));
      SortSorts(LinesOf(a));
      SortSorts(LinesOf(b));
      forall e: Item ensures multiset(a)[e] == multiset(b)[e] {
        if e in a || e in b {
          LinesMultiplicity(a, e);
          LinesMultiplicity(b, e);
        }
      }
    }
  }

  lemma TextOfOne(a: Item)
    ensures IdText([a]) == Line(a)
  {
    assert [a][..0] == [];
    assert LinesOf([a]) == [Line(a)];
    assert [Line(a)][1..] == [];
    assert Sort([Line(a)]) == [Line(a)];
  }

  lemma TextOfTwo(a: Item, b: Item)
    requires Le(Line(a), Line(b))
    ensures IdText([a, b]) == Line(a) + "\n" + Line(b)
  {
    var u, v := Line(a), Line(b);
    assert [a, b][..1] == [a] && [a][..0] == [];
    assert LinesOf([a]) == [u];
    assert LinesOf([a, b]) == [u, v];
    assert [v][1..] == [] && [u, v][1..] == [v];
    assert Sort([v]) == [v];
    assert Sort([u, v]) == [u, v];
    assert Join([u, v]) == u + "\n" + Join([v]);
  }

  /** A path with a newline can pass for two entries. */
  lemma NewlineCollides(p: string, q: string)
    requires Le(Line(Item("delete", p, "")), Line(Item("delete", q, "")))
    ensures IdText([Item("delete", p, ""), Item("delete", q, "")]) == IdText([Item("delete", p + "|\ndelete|" + q, "")])
  {
    var a, b, c := Item("delete", p, ""), Item("delete", q, ""), Item("delete", p + "|\ndelete|" + q, "");
    TextOfTwo(a, b);
    TextOfOne(c);
    assert Line(a) + "\n" + Line(b) == Line(c);
  }

  /** So can a claimed hash with a newline. */
  lemma ClaimCollides(p: string, z: string, f: string, h: string)
    requires Le(Line(Item("delete", p, z)), Line(Item("file", f, h)))
    ensures IdText([Item("delete", p, z), Item("file", f, h)]) ==
      IdText([Item("delete", p, z + "\nfile|" + f + "|" + h)])
  {
    var a, b, c := Item("delete", p, z), Item("file", f, h), Item("delete", p, z + "\nfile|" + f + "|" + h);
    TextOfTwo(a, b);
    TextOfOne(c);
    var head, tail := "delete|" + p + "|" + z, "\nfile|" + f + "|" + h;
    assert Line(a) == head && "\n" + Line(b) == tail;
    assert Line(c) == head + tail;
  }

  /** A claimed hash with a bar can pass for the end of the path. */
  lemma BarCollides(p: string, q: string, z: string)
    ensures IdText([Item("delete", p, q + "|" + z)]) == IdText([Item("delete", p + "|" + q, z)])
  {
    var a, b := Item("delete", p, q + "|" + z), Item("delete", p + "|" + q, z);
    TextOfOne(a);
    TextOfOne(b);
    assert Line(a) == Line(b);
  }
}
