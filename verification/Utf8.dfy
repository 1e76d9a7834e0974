/** UTF-8 (section 4 of RFC 3629) and the cut of a string at a character boundary. */
module Utf8 {
  type Byte = b: int | 0 <= b < 0x100

  type Bytes = seq<Byte>

  /** A Unicode scalar value. */
  type Scalar = c: int | 0 <= c < 0xD800 || 0xE000 <= c < 0x110000

  datatype Decoded = Invalid | Text(chars: seq<Scalar>)

  // ---------------------------------------------------------------------------
  // The syntax of UTF-8 byte sequences
  // ---------------------------------------------------------------------------

  predicate Tail(b: Byte) {
    0x80 <= b < 0xC0
  }

  predicate IsOne(s: Bytes) {
    |s| >= 1 && s[0] < 0x80
  }

  predicate IsTwo(s: Bytes) {
    |s| >= 2 && 0xC2 <= s[0] < 0xE0 && Tail(s[1])
  }

  predicate IsThree(s: Bytes) {
    && |s| >= 3 && 0xE0 <= s[0] < 0xF0 && Tail(s[1]) && Tail(s[2])
    && (s[0] == 0xE0 ==> 0xA0 <= s[1])
    && (s[0] == 0xED ==> s[1] < 0xA0)
  }

  predicate IsFour(s: Bytes) {
    && |s| >= 4 && 0xF0 <= s[0] < 0xF5 && Tail(s[1]) && Tail(s[2]) && Tail(s[3])
    && (s[0] == 0xF0 ==> 0x90 <= s[1])
    && (s[0] == 0xF4 ==> s[1] < 0x90)
  }

  /** The length of the character at the head, or 0 when there is none. */
  function Width(s: Bytes): (n: nat)
    ensures n <= 4 && n <= |s|
    ensures n > 0 ==> !Tail(s[0]) && forall i | 1 <= i < n :: Tail(s[i])
  {
    if IsOne(s) then 1 else if IsTwo(s) then 2 else if IsThree(s) then 3 else if IsFour(s) then 4 else 0
  }

  function Join2(a: int, b: int): int { a * 0x40 + b }
  function Join3(a: int, b: int, c: int): int { Join2(a, b) * 0x40 + c }
  function Join4(a: int, b: int, c: int, d: int): int { Join3(a, b, c) * 0x40 + d }

  function Head(s: Bytes): Scalar
    requires Width(s) > 0
  {
    if IsOne(s) then s[0]
    else if IsTwo(s) then Join2(s[0] as int - 0xC0, s[1] as int - 0x80)
    else if IsThree(s) then Join3(s[0] as int - 0xE0, s[1] as int - 0x80, s[2] as int - 0x80)
    else Join4(s[0] as int - 0xF0, s[1] as int - 0x80, s[2] as int - 0x80, s[3] as int - 0x80)
  }

  function Decode(s: Bytes): Decoded {
    if s == [] then Text([])
    else if Width(s) == 0 then Invalid
    else
      match Decode(s[Width(s)..])
      case Invalid => Invalid
      case Text(chars) => Text([Head(s)] + chars)
  }

  predicate Valid(s: Bytes) {
    Decode(s).Text?
  }

  /** The 6-bit group of c that starts at bit 6 * k. */
  function Group(c: nat, k: nat): (g: int)
    ensures 0 <= g < 0x40
  {
    if k == 0 then c % 0x40 else Group(c / 0x40, k - 1)
  }

  function EncodeOne(c: Scalar): Bytes {
    if c < 0x80 then [c]
    else if c < 0x800 then [0xC0 + c / 0x40, 0x80 + Group(c, 0)]
    else if c < 0x10000 then [0xE0 + c / 0x40 / 0x40, 0x80 + Group(c, 1), 0x80 + Group(c, 0)]
    else [0xF0 + c / 0x40 / 0x40 / 0x40, 0x80 + Group(c, 2), 0x80 + Group(c, 1), 0x80 + Group(c, 0)]
  }

  function Encode(chars: seq<Scalar>): Bytes {
    if chars == [] then [] else EncodeOne(chars[0]) + Encode(chars[1..])
  }

  lemma Groups(c: nat)
    ensures Group(c, 0) == c % 0x40 && Group(c, 1) == c / 0x40 % 0x40 && Group(c, 2) == c / 0x40 / 0x40 % 0x40
    ensures Join2(c / 0x40, Group(c, 0)) == c
    ensures Join3(c / 0x40 / 0x40, Group(c, 1), Group(c, 0)) == c
    ensures Join4(c / 0x40 / 0x40 / 0x40, Group(c, 2), Group(c, 1), Group(c, 0)) == c
  {
    assert Group(c, 1) == Group(c / 0x40, 0);
    assert Group(c, 2) == Group(c / 0x40, 1) == Group(c / 0x40 / 0x40, 0);
  }

  lemma EncodeOneHead(c: Scalar, rest: Bytes)
    ensures Width(EncodeOne(c) + rest) == |EncodeOne(c)| && Head(EncodeOne(c) + rest) == c
  {
    Groups(c);
    var s := EncodeOne(c) + rest;
    if c < 0x80 {
      assert IsOne(s);
    } else if c < 0x800 {
      assert IsTwo(s) && !IsOne(s);
    } else if c < 0x10000 {
      assert IsThree(s) && !IsTwo(s) && !IsOne(s);
    } else {
      assert IsFour(s) && !IsThree(s) && !IsTwo(s) && !IsOne(s);
    }
  }

  /** What was written is read back. */
  lemma {:induction false} DecodeEncode(chars: seq<Scalar>)
    ensures Decode(Encode(chars)) == Text(chars)
  {
    if chars != [] {
      var rest := Encode(chars[1..]);
      EncodeOneHead(chars[0], rest);
      assert (EncodeOne(chars[0]) + rest)[|EncodeOne(chars[0])|..] == rest;
      DecodeEncode(chars[1..]);
    }
  }

  lemma HeadEncodes(s: Bytes)
    requires Width(s) > 0
    ensures EncodeOne(Head(s)) == s[..Width(s)]
  {
    if IsOne(s) {
    } else if IsTwo(s) {
      TwoEncodes(s);
    } else if IsThree(s) {
      ThreeEncodes(s);
    } else {
      FourEncodes(s);
    }
  }

  lemma TwoEncodes(s: Bytes)
    requires IsTwo(s)
    ensures EncodeOne(Head(s)) == s[..2]
  {
    Groups(Head(s));
    Joined(s[0] as int - 0xC0, s[1] as int - 0x80);
    assert 0x80 <= Head(s) as int < 0x800;
  }

  lemma ThreeEncodes(s: Bytes)
    requires IsThree(s)
    ensures EncodeOne(Head(s)) == s[..3]
  {
    Groups(Head(s));
    Joined(s[0] as int - 0xE0, s[1] as int - 0x80);
    Joined(Join2(s[0] as int - 0xE0, s[1] as int - 0x80), s[2] as int - 0x80);
    assert 0x800 <= Head(s) as int < 0x10000;
  }

  lemma FourJoined(a: nat, b: nat, c: nat, d: nat)
    requires a < 5 && b < 0x40 && c < 0x40 && d < 0x40 && (a == 0 ==> b >= 0x10)
    ensures var n := Join4(a, b, c, d);
      0x10000 <= n && n / 0x40 == Join3(a, b, c) && n % 0x40 == d
    ensures Join3(a, b, c) / 0x40 == Join2(a, b) && Join3(a, b, c) % 0x40 == c
    ensures Join2(a, b) / 0x40 == a && Join2(a, b) % 0x40 == b
  {
    Joined(a, b);
    Joined(Join2(a, b), c);
    Joined(Join3(a, b, c), d);
  }

  lemma FourEncodes(s: Bytes)
    requires IsFour(s)
    ensures EncodeOne(Head(s)) == s[..4]
  {
    Groups(Head(s));
    FourJoined(s[0] as int - 0xF0, s[1] as int - 0x80, s[2] as int - 0x80, s[3] as int - 0x80);
  }

  lemma Joined(a: nat, b: nat)
    requires b < 0x40
    ensures Join2(a, b) / 0x40 == a && Join2(a, b) % 0x40 == b
  {
  }

  /** A text has one encoding: overlong forms are not valid. */
  lemma {:induction false} EncodeDecode(s: Bytes)
    requires Valid(s)
    ensures Encode(Decode(s).chars) == s
  {
    if s != [] {
      var n := Width(s);
      EncodeDecode(s[n..]);
      EncodeHead(s, n, Decode(s[n..]).chars);
    }
  }

  lemma EncodeHead(s: Bytes, n: nat, chars: seq<Scalar>)
    requires 0 < n == Width(s) <= |s| && Encode(chars) == s[n..]
    ensures Encode([Head(s)] + chars) == s
  {
    HeadEncodes(s);
    EncodeFirst(Head(s), chars, s[..n]);
    Rejoin(s, n);
  }

  lemma Rejoin(s: Bytes, n: nat)
    requires n <= |s|
    ensures s[..n] + s[n..] == s
  {
  }

  lemma EncodeFirst(c: Scalar, chars: seq<Scalar>, head: Bytes)
    requires EncodeOne(c) == head
    ensures Encode([c] + chars) == head + Encode(chars)
  {
    assert ([c] + chars)[1..] == chars;
  }

  // ---------------------------------------------------------------------------
  // Character boundaries
  // ---------------------------------------------------------------------------

  /** str::is_char_boundary: the ends, and every byte that does not continue a character. */
  predicate IsCharBoundary(s: Bytes, i: nat) {
    i == 0 || i == |s| || (i < |s| && !Tail(s[i]))
  }

  lemma WidthLocal(a: Bytes, b: Bytes)
    requires Width(a) > 0
    ensures Width(a + b) == Width(a)
  {
    var s := a + b;
    assert s[0] == a[0] && forall i | 0 <= i < |a| :: s[i] == a[i];
  }

  lemma HeadLocal(a: Bytes, b: Bytes)
    requires Width(a) > 0 && Width(a + b) == Width(a)
    ensures Head(a + b) == Head(a)
  {
    HeadEncodes(a);
    HeadEncodes(a + b);
    assert (a + b)[..Width(a)] == a[..Width(a)];
    EncodeOneHead(Head(a), []);
    EncodeOneHead(Head(a + b), []);
  }

  lemma AppendRest(a: Bytes, b: Bytes, n: nat)
    requires n <= |a|
    ensures (a + b)[n..] == a[n..] + b
  {
  }

  lemma {:induction false} DecodeAppend(a: Bytes, b: Bytes)
    requires Valid(a) && Valid(b)
    ensures Decode(a + b) == Text(Decode(a).chars + Decode(b).chars)
  {
    if a == [] {
      assert a + b == b;
    } else {
      var n := Width(a);
      WidthLocal(a, b);
      HeadLocal(a, b);
      AppendRest(a, b, n);
      DecodeAppend(a[n..], b);
      assert Decode(a).chars == [Head(a)] + Decode(a[n..]).chars;
    }
  }

  lemma WidthPrefix(s: Bytes, i: nat)
    requires 0 < Width(s) <= i <= |s|
    ensures Width(s[..i]) == Width(s)
  {
    assert forall j | 0 <= j < i :: s[..i][j] == s[j];
  }

  lemma {:induction false} SplitValid(s: Bytes, i: nat)
    requires Valid(s) && i <= |s| && IsCharBoundary(s, i)
    ensures Valid(s[..i]) && Valid(s[i..])
  {
    if i == |s| {
      assert s[..i] == s;
    } else if i > 0 {
      var n := Width(s);
      assert i >= n;
      var rest := s[n..];
      assert rest[..i - n] == s[..i][n..] && rest[i - n..] == s[i..];
      SplitValid(rest, i - n);
      WidthPrefix(s, i);
    }
  }

  /** The byte test finds exactly the places where both parts are valid. */
  lemma BoundaryExact(s: Bytes, i: nat)
    requires Valid(s) && i <= |s|
    ensures IsCharBoundary(s, i) <==> Valid(s[..i]) && Valid(s[i..])
  {
    if IsCharBoundary(s, i) {
      SplitValid(s, i);
    }
  }

  /** Among any four neighbouring positions of a text there is a boundary. */
  lemma {:induction false} BoundaryNear(s: Bytes, i: nat)
    requires Valid(s) && i <= |s|
    ensures exists b: nat :: b <= i <= b + 3 && IsCharBoundary(s, b)
  {
    if i < |s| {
      var n := Width(s);
      if i < n {
        assert IsCharBoundary(s, 0);
      } else {
        BoundaryNear(s[n..], i - n);
        var b: nat :| b <= i - n <= b + 3 && IsCharBoundary(s[n..], b);
        if b == 0 {
          assert Width(s[n..]) > 0;
        }
        assert IsCharBoundary(s, b + n);
      }
    } else {
      assert IsCharBoundary(s, i);
    }
  }

  /** The greatest character boundary not above the target. It is at most three bytes back, and the
      two parts are texts whose characters are together those of the whole. */
  method FloorCharBoundary(s: Bytes, target: nat) returns (end: nat)
    requires Valid(s)
    ensures end <= |s| && end <= target
    ensures Valid(s[..end]) && Valid(s[end..])
    ensures Decode(s) == Text(Decode(s[..end]).chars + Decode(s[end..]).chars)
    ensures forall i: nat | end < i <= target && i <= |s| :: !(Valid(s[..i]) && Valid(s[i..]))
    ensures target <= |s| ==> target <= end + 3
    ensures target > |s| ==> end == |s|
  {
    if target >= |s| {
      assert s[..|s|] == s && s[|s|..] == [];
      return |s|;
    }
    end := target;
    while end > 0 && !IsCharBoundary(s, end)
      invariant end <= target < |s|
      invariant forall i | end < i <= target :: !IsCharBoundary(s, i)
    {
      end := end - 1;
    }
    BoundaryNear(s, target);
    SplitValid(s, end);
    assert s == s[..end] + s[end..];
    DecodeAppend(s[..end], s[end..]);
    forall i: nat | end < i <= target && i <= |s| ensures !(Valid(s[..i]) && Valid(s[i..])) {
      BoundaryExact(s, i);
    }
  }

  method TruncateStr(s: Bytes, maxBytes: nat) returns (t: Bytes)
    requires Valid(s)
    ensures t <= s && |t| <= maxBytes && Valid(t)
    ensures |s| <= maxBytes ==> t == s
    ensures forall u | t <= u <= s && |u| <= maxBytes && Valid(u) && Valid(s[|u|..]) :: u == t
  {
    var end := FloorCharBoundary(s, maxBytes);
    t := s[..end];
    forall u | t <= u <= s && |u| <= maxBytes && Valid(u) && Valid(s[|u|..]) ensures u == t {
      assert u == s[..|u|];
    }
  }
}
