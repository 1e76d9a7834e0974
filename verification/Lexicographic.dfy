/** Byte-wise lexicographic order on strings and the sorting the client and the server rely on. */
module Lexicographic {

  predicate Le(a: string, b: string) {
    a == [] || (b != [] && (a[0] < b[0] || (a[0] == b[0] && Le(a[1..], b[1..]))))
  }

  lemma {:induction false} LeTotal(a: string, b: string)
    ensures Le(a, b) || Le(b, a)
  {
    if a != [] && b != [] && a[0] == b[0] {
      LeTotal(a[1..], b[1..]);
    }
  }

  lemma {:induction false} LeAntisymmetric(a: string, b: string)
    requires Le(a, b) && Le(b, a)
    ensures a == b
  {
    if a != [] && b != [] {
      LeAntisymmetric(a[1..], b[1..]);
      assert a == [a[0]] + a[1..];
    }
  }

  lemma {:induction false} LeTransitive(a: string, b: string, c: string)
    requires Le(a, b) && Le(b, c)
    ensures Le(a, c)
  {
    if a != [] && b != [] && c != [] && a[0] == b[0] == c[0] {
      LeTransitive(a[1..], b[1..], c[1..]);
    }
  }

  /** x is a least element of s. */
  predicate IsLeast(x: string, s: set<string>) {
    x in s && forall y | y in s :: Le(x, y)
  }

  lemma {:induction false} LeastExists(s: set<string>)
    requires s != {}
    ensures exists x :: IsLeast(x, s)
  {
    var e :| e in s;
    var rest := s - {e};
    LeTotal(e, e);
    if rest == {} {
      assert s == {e};
      assert IsLeast(e, s);
    } else {
      LeastExists(rest);
      var m :| IsLeast(m, rest);
      LeTotal(e, m);
      forall y | y in s
        ensures Le(if Le(e, m) then e else m, y)
      {
        if Le(e, m) && y != e {
          LeTransitive(e, m, y);
        }
      }
      assert IsLeast(if Le(e, m) then e else m, s);
    }
  }

  lemma LeastUnique(x: string, y: string, s: set<string>)
    requires IsLeast(x, s) && IsLeast(y, s)
    ensures x == y
  {
    LeAntisymmetric(x, y);
  }

  /** The elements of a set in increasing order. */
  function SortedKeys(s: set<string>): (r: seq<string>)
    ensures forall x :: x in r <==> x in s
  {
    if s == {} then
      []
    else
      LeastExists(s);
      assert forall x, y | IsLeast(x, s) && IsLeast(y, s) :: x == y by {
        forall x, y | IsLeast(x, s) && IsLeast(y, s) ensures x == y { LeastUnique(x, y, s); }
      }
      var x :| IsLeast(x, s);
      [x] + SortedKeys(s - {x})
  }

  lemma SortedKeysFirst(s: set<string>, x: string)
    requires IsLeast(x, s)
    ensures SortedKeys(s) == [x] + SortedKeys(s - {x})
  {
    forall y | IsLeast(y, s) ensures x == y { LeastUnique(x, y, s); }
  }

  lemma {:induction false} SortedKeysSorted(s: set<string>)
    ensures Sorted(SortedKeys(s)) && multiset(SortedKeys(s)) == multiset(s)
  {
    if s != {} {
      var x := SortedKeys(s)[0];
      var rest := SortedKeys(s)[1..];
      SortedKeysSorted(s - {x});
      assert rest == SortedKeys(s - {x}) && SortedKeys(s) == [x] + rest;
      assert s == (s - {x}) + {x};
      forall j | 0 <= j < |rest| ensures Le(x, rest[j]) {
        assert rest[j] in rest && rest[j] in s;
      }
    }
  }

  /** Two keys, in order. */
  lemma SortedKeysPair(a: string, b: string)
    requires Le(a, b) && a != b
    ensures SortedKeys({a, b}) == [a, b] && SortedKeys({b}) == [b]
  {
    LeTotal(a, a);
    LeTotal(b, b);
    SortedKeysFirst({a, b}, a);
    SortedKeysFirst({b}, b);
    assert {a, b} - {a} == {b} && {b} - {b} == {};
  }

  /** Where two strings first differ decides. */
  lemma {:induction false} LeAt(a: string, b: string, i: nat)
    requires i < |a| && i < |b| && a[..i] == b[..i] && a[i] < b[i]
    ensures Le(a, b)
  {
    if i > 0 {
      assert a[0] == a[..i][0] == b[..i][0] == b[0];
      assert a[1..][..i - 1] == a[..i][1..] == b[..i][1..] == b[1..][..i - 1];
      LeAt(a[1..], b[1..], i - 1);
    }
  }

  predicate Sorted(xs: seq<string>) {
    forall i, j | 0 <= i < j < |xs| :: Le(xs[i], xs[j])
  }

  function Insert(x: string, xs: seq<string>): seq<string> {
    if xs == [] || Le(x, xs[0]) then [x] + xs else [xs[0]] + Insert(x, xs[1..])
  }

  /** Stands for the library sorts `entries.sort()` and `sort.Strings`. */
  function Sort(xs: seq<string>): seq<string> {
    if xs == [] then [] else Insert(xs[0], Sort(xs[1..]))
  }

  lemma {:induction false} InsertSorted(x: string, xs: seq<string>)
    requires Sorted(xs)
    ensures Sorted(Insert(x, xs)) && multiset(Insert(x, xs)) == multiset(xs) + multiset{x}
  {
    if xs != [] {
      assert xs == [xs[0]] + xs[1..];
      LeTotal(x, xs[0]);
      if Le(x, xs[0]) {
        forall j | 0 <= j < |xs| ensures Le(x, xs[j]) {
          if j > 0 { LeTransitive(x, xs[0], xs[j]); }
        }
      } else {
        InsertSorted(x, xs[1..]);
        var rest := Insert(x, xs[1..]);
        forall j | 0 <= j < |rest| ensures Le(xs[0], rest[j]) {
          assert rest[j] in multiset(rest);
          assert rest[j] == x || rest[j] in xs[1..];
        }
      }
    }
  }

  lemma {:induction false} SortSorts(xs: seq<string>)
    ensures Sorted(Sort(xs)) && multiset(Sort(xs)) == multiset(xs)
  {
    if xs != [] {
      assert xs == [xs[0]] + xs[1..];
      SortSorts(xs[1..]);
      InsertSorted(xs[0], Sort(xs[1..]));
    }
  }

  /** A sorted sequence is determined by the multiset of its elements. */
  lemma {:induction false} SortedUnique(xs: seq<string>, ys: seq<string>)
    requires Sorted(xs) && Sorted(ys) && multiset(xs) == multiset(ys)
    ensures xs == ys
  {
    assert |xs| == |multiset(xs)| == |multiset(ys)| == |ys|;
    if xs != [] {
      assert xs[0] in multiset(ys) && xs == [xs[0]] + xs[1..];
      assert ys[0] in multiset(xs) && ys == [ys[0]] + ys[1..];
      LeTotal(xs[0], xs[0]);
      LeTotal(ys[0], ys[0]);
      LeAntisymmetric(xs[0], ys[0]);
      assert multiset(xs[1..]) == multiset(xs) - multiset{xs[0]};
      assert multiset(ys[1..]) == multiset(ys) - multiset{ys[0]};
      SortedUnique(xs[1..], ys[1..]);
    }
  }
}
