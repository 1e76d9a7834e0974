/** Small shared definitions. */
module Wrappers {
  datatype Option<+T> = None | Some(value: T)

  function Elements<T>(xs: seq<T>): set<T> {
    set x | x in xs
  }

  /** The position of the first x, or the length. */
  function PositionOf<T(==)>(s: seq<T>, x: T): (i: nat)
    ensures i <= |s| && (i < |s| ==> s[i] == x)
    ensures forall j | 0 <= j < i :: s[j] != x
  {
    if s == [] || s[0] == x then 0 else 1 + PositionOf(s[1..], x)
  }

  lemma {:induction false} PositionAfter<T>(a: seq<T>, x: T, rest: seq<T>)
    requires x !in a
    ensures PositionOf(a + [x] + rest, x) == |a| && PositionOf(a, x) == |a|
  {
    if a != [] {
      assert (a + [x] + rest)[1..] == a[1..] + [x] + rest && (a + [x] + rest)[0] == a[0];
      PositionAfter(a[1..], x, rest);
    }
  }

  /** The least number from `first` on that is not taken. */
  function FirstFree(taken: set<nat>, first: nat): (n: nat)
    ensures n !in taken && n >= first
    decreases set v | v in taken && v >= first
  {
    if first !in taken then first
    else
      assert (set v | v in taken && v >= first) == {first} + (set v | v in taken && v >= first + 1);
      FirstFree(taken, first + 1)
  }
}
