/** Path names and the files they name, and the on-disk names of the checkpoint layout. */
module Paths {
  import opened Utf8
  import opened Numerals
  import opened MerkleTree

  /** The components of a file's place: "/" first when it is absolute. */
  type Place = seq<string>

  // ---------------------------------------------------------------------------
  // Lexical resolution
  // ---------------------------------------------------------------------------

  predicate IsAbsolute(path: string) {
    path != "" && path[0] == '/'
  }

  /** The parts without the empty ones and the dots. */
  function Named(parts: seq<string>): (r: seq<string>)
    ensures forall part | part in r :: part != "" && part != "."
  {
    if parts == [] then []
    else if parts[0] == "" || parts[0] == "." then Named(parts[1..])
    else [parts[0]] + Named(parts[1..])
  }

  function Components(path: string): Place {
    (if IsAbsolute(path) then ["/"] else []) + Named(Split(path))
  }

  datatype Walk = Outside | At(place: Place)

  predicate CanPop(place: Place) {
    place != [] && place[|place| - 1] != "/"
  }

  /** Following the components one by one; `..` above the start leaves. */
  function Normalize(comps: Place): Walk {
    if comps == [] then At([])
    else
      match Normalize(comps[..|comps| - 1])
      case Outside => Outside
      case At(place) =>
        var last := comps[|comps| - 1];
        if last == ".." then (if CanPop(place) then At(place[..|place| - 1]) else Outside) else At(place + [last])
  }

  /** The file a name leads to: `..` at the root stays there. */
  function Follow(comps: Place): Place {
    if comps == [] then []
    else
      var place := Follow(comps[..|comps| - 1]);
      var last := comps[|comps| - 1];
      if last == ".." then (if CanPop(place) then place[..|place| - 1] else place) else place + [last]
  }

  function FileOf(path: string): Place {
    Follow(Components(path))
  }

  predicate WithinRoot(root: string, path: string) {
    var walk := Normalize(Components(path));
    walk.At? && Components(root) <= walk.place
  }

  lemma {:induction false} NormalizeFollows(comps: Place)
    ensures Normalize(comps).At? ==> Follow(comps) == Normalize(comps).place
  {
    if comps != [] {
      NormalizeFollows(comps[..|comps| - 1]);
    }
  }

  /** A name the check lets through leads to a file below the project root. */
  lemma WithinRootExact(root: string, path: string)
    requires WithinRoot(root, path)
    ensures Components(root) <= FileOf(path)
  {
    NormalizeFollows(Components(path));
  }

  lemma {:induction false} FollowPlain(comps: Place)
    requires forall i | 0 <= i < |comps| :: comps[i] != ".."
    ensures Normalize(comps) == At(comps)
  {
    if comps != [] {
      FollowPlain(comps[..|comps| - 1]);
    }
  }

  /** For a name without `..` the check is exact. */
  lemma WithinRootPlain(root: string, path: string)
    requires forall i | 0 <= i < |Components(path)| :: Components(path)[i] != ".."
    ensures WithinRoot(root, path) <==> Components(root) <= FileOf(path)
  {
    FollowPlain(Components(path));
    NormalizeFollows(Components(path));
  }

  method IsWithinRoot(root: string, candidate: string) returns (within: bool)
    ensures within == WithinRoot(root, candidate)
  {
    var normalized: Place := [];
    var comps := Components(candidate);
    for i := 0 to |comps|
      invariant Normalize(comps[..i]) == At(normalized)
    {
      assert comps[..i + 1][..i] == comps[..i] && comps[..i + 1][i] == comps[i];
      if comps[i] == ".." {
        if !CanPop(normalized) {
          OutsideStays(comps, i + 1);
          return false;
        }
        normalized := normalized[..|normalized| - 1];
      } else {
        normalized := normalized + [comps[i]];
      }
    }
    assert comps[..|comps|] == comps;
    within := Components(root) <= normalized;
  }

  lemma {:induction false} OutsideStays(comps: Place, n: nat)
    requires n <= |comps| && Normalize(comps[..n]) == Outside
    ensures Normalize(comps) == Outside
  {
    if n == |comps| {
      assert comps[..n] == comps;
    } else {
      assert comps[..|comps| - 1][..n] == comps[..n];
      OutsideStays(comps[..|comps| - 1], n);
    }
  }

  lemma SplitNames()
    ensures Split("/p") == ["", "p"] && Split("/a") == ["", "a"] && Split("//a") == ["", "", "a"]
  {
    SplitStep('p', "");
    assert "p" == ['p'] + "" && Split("") == [""];
    assert [""][1..] == [] && Split("p") == ["p"];
    SplitStep('/', "p");
    assert "/p" == ['/'] + "p";
    SplitStep('a', "");
    assert "a" == ['a'] + "" && Split("a") == ["a"];
    SplitStep('/', "a");
    assert "/a" == ['/'] + "a";
    SplitStep('/', "/a");
    assert "//a" == ['/'] + "/a";
  }

  lemma SplitFull()
    ensures Split("/p/a") == ["", "p", "a"] && Split("/p//a") == ["", "p", "", "a"]
  {
    SplitNames();
    SplitStep('p', "/a");
    assert "p/a" == ['p'] + "/a" && ['p'] + "" == "p" && ["", "a"][1..] == ["a"];
    assert Split("p/a") == ["p", "a"];
    SplitStep('/', "p/a");
    assert "/p/a" == ['/'] + "p/a";
    SplitStep('p', "//a");
    assert "p//a" == ['p'] + "//a" && ["", "", "a"][1..] == ["", "a"];
    assert Split("p//a") == ["p", "", "a"];
    SplitStep('/', "p//a");
    assert "/p//a" == ['/'] + "p//a";
  }

  /** A doubled separator does not change the components. */
  lemma DoubledSlash()
    ensures Components("/p") == ["/", "p"] && Components("/p/a") == ["/", "p", "a"]
    ensures Components("/p//a") == ["/", "p", "a"]
  {
    SplitNames();
    SplitFull();
    NamedThree();
  }

  lemma NamedThree()
    ensures Named(["", "p"]) == ["p"] && Named(["", "p", "a"]) == ["p", "a"] && Named(["", "p", "", "a"]) == ["p", "a"]
  {
    assert ["a"][1..] == [] && ["", "a"][1..] == ["a"] && ["p"][1..] == [];
    assert Named(["a"]) == ["a"] && Named(["", "a"]) == ["a"] && Named(["p"]) == ["p"];
    assert ["p", "a"][1..] == ["a"] && ["p", "", "a"][1..] == ["", "a"];
    assert Named(["p", "a"]) == ["p", "a"] && Named(["p", "", "a"]) == ["p", "a"];
    assert ["", "p"][1..] == ["p"] && ["", "p", "a"][1..] == ["p", "a"] && ["", "p", "", "a"][1..] == ["p", "", "a"];
  }

  lemma LetterParts(c: char)
    requires c != '/' && c != '.'
    ensures Split("/p/" + [c]) == ["", "p", [c]]
  {
    SplitStep(c, "");
    assert [c] == [c] + "" && Split("") == [""] && [""][1..] == [];
    SplitStep('/', [c]);
    SplitStep('p', "/" + [c]);
    assert "p/" + [c] == ['p'] + ("/" + [c]) && "/" + [c] == ['/'] + [c] && ['p'] + "" == "p";
    assert ["", [c]][1..] == [[c]] && Split("p/" + [c]) == ["p", [c]];
    SplitStep('/', "p/" + [c]);
    assert "/p/" + [c] == ['/'] + ("p/" + [c]);
  }

  lemma LetterComponents(c: char)
    requires c != '/' && c != '.'
    ensures Components("/p/" + [c]) == ["/", "p", [c]]
  {
    LetterParts(c);
    assert [[c]][1..] == [] && ["p", [c]][1..] == [[c]] && ["", "p", [c]][1..] == ["p", [c]];
    assert Named([[c]]) == [[c]] && Named(["p", [c]]) == ["p", [c]];
  }

  // ---------------------------------------------------------------------------
  // Numbers in names
  // ---------------------------------------------------------------------------

  function Zeros(k: nat): string {
    seq(k, i => '0')
  }

  /** {:04} */
  function Padded(n: nat): string {
    var digits := Digits(n);
    if |digits| < 4 then Zeros(4 - |digits|) + digits else digits
  }

  datatype Parsed = Unreadable | Number(value: nat)

  /** u32's FromStr: digits, after an optional plus sign, of a value that fits. */
  function ParseNumber(s: string): Parsed {
    var digits := if s != "" && s[0] == '+' then s[1..] else s;
    if digits == "" || !(forall c | c in digits :: IsDigit(c)) then Unreadable
    else if Value(digits) >= 0x1_0000_0000 then Unreadable
    else Number(Value(digits))
  }

  function TurnName(turn: nat): string {
    "turn-" + Padded(turn)
  }

  function ParseTurn(name: string): Parsed {
    if "turn-" <= name then ParseNumber(name[5..]) else Unreadable
  }

  function BlobName(i: nat): string {
    Padded(i) + ".blob"
  }

  lemma {:induction false} ZerosValue(k: nat, s: string)
    requires forall c | c in s :: IsDigit(c)
    ensures (forall c | c in Zeros(k) + s :: IsDigit(c)) && Value(Zeros(k) + s) == Value(s)
  {
    var all := Zeros(k) + s;
    assert forall c | c in all :: c == '0' || c in s;
    if s == "" {
      if k > 0 {
        assert all[..|all| - 1] == Zeros(k - 1) + s;
        ZerosValue(k - 1, s);
      }
    } else {
      assert all[..|all| - 1] == Zeros(k) + s[..|s| - 1];
      ZerosValue(k, s[..|s| - 1]);
    }
  }

  lemma PaddedValue(n: nat)
    ensures Padded(n) != "" && (forall c | c in Padded(n) :: IsDigit(c)) && Value(Padded(n)) == n
  {
    DigitsValue(n);
    if |Digits(n)| < 4 {
      ZerosValue(4 - |Digits(n)|, Digits(n));
    }
  }

  lemma DigitsLength(n: nat)
    ensures |Digits(n)| == if n < 10 then 1 else |Digits(n / 10)| + 1
    ensures |Digits(n)| >= 1
  {
  }

  /** Numbers below ten thousand are printed with four digits, greater ones with more. */
  lemma PaddedWidth(n: nat)
    ensures n < 10000 ==> |Padded(n)| == 4
    ensures n >= 10000 ==> |Padded(n)| > 4
  {
    DigitsLength(n);
    DigitsLength(n / 10);
    DigitsLength(n / 10 / 10);
    DigitsLength(n / 10 / 10 / 10);
    DigitsLength(n / 10 / 10 / 10 / 10);
    PaddedLength(n);
  }

  lemma PaddedLength(n: nat)
    ensures |Padded(n)| == if |Digits(n)| < 4 then 4 else |Digits(n)|
  {
  }

  /** The directory name of a turn is read back as that turn, so turns do not share directories. */
  lemma TurnNameRoundTrip(turn: nat)
    requires turn < 0x1_0000_0000
    ensures ParseTurn(TurnName(turn)) == Number(turn)
  {
    PaddedValue(turn);
    assert TurnName(turn)[5..] == Padded(turn);
    assert Padded(turn)[0] in Padded(turn);
  }

  /** Entries of one manifest do not share blobs. */
  lemma BlobNamesDistinct(i: nat, j: nat)
    ensures BlobName(i) == BlobName(j) <==> i == j
  {
    PaddedValue(i);
    PaddedValue(j);
    if BlobName(i) == BlobName(j) {
      assert Padded(i) == BlobName(i)[..|BlobName(i)| - 5];
      assert Padded(j) == BlobName(j)[..|BlobName(j)| - 5];
    }
  }

  // ---------------------------------------------------------------------------
  // Session identifiers
  // ---------------------------------------------------------------------------

  predicate IsSafe(b: Byte) {
    0x30 <= b <= 0x39 || 0x41 <= b <= 0x5A || 0x61 <= b <= 0x7A || b == 0x2E || b == 0x5F || b == 0x2D
  }

  function Hex(d: nat): char
    requires d < 16
  {
    ['0', '1', '2', '3', '4', '5', '6', '7', '8', '9', 'A', 'B', 'C', 'D', 'E', 'F'][d]
  }

  function Escape(b: Byte): string {
    if IsSafe(b) then [(b as int) as char] else ['%', Hex(b as int / 16), Hex(b as int % 16)]
  }

  function Sanitized(id: Bytes): string {
    if id == [] then "" else Escape(id[0]) + Sanitized(id[1..])
  }

  lemma Unroll(out: string, id: Bytes, i: nat)
    requires i < |id|
    ensures out + Sanitized(id[i..]) == (out + Escape(id[i])) + Sanitized(id[i + 1..])
  {
    assert id[i..][1..] == id[i + 1..];
  }

  method SanitizeSessionId(id: Bytes) returns (out: string)
    ensures out == Sanitized(id)
  {
    out := "";
    for i := 0 to |id|
      invariant out + Sanitized(id[i..]) == Sanitized(id)
    {
      Unroll(out, id, i);
      if IsSafe(id[i]) {
        out := out + [(id[i] as int) as char];
      } else {
        out := out + ['%', Hex(id[i] as int / 16), Hex(id[i] as int % 16)];
      }
    }
    assert id[|id|..] == [];
  }

  function HexValue(c: char): (v: int)
    ensures v < 16
  {
    if '0' <= c <= '9' then (c - '0') as int else if 'A' <= c <= 'F' then (c - 'A') as int + 10 else -1
  }

  datatype Unescaped = Bad | Id(id: Bytes)

  /** Reads the encoding back. */
  function Unescape(s: string): Unescaped
    decreases |s|
  {
    if s == "" then Id([])
    else if s[0] == '%' then
      if |s| < 3 || HexValue(s[1]) < 0 || HexValue(s[2]) < 0 then Bad
      else
        match Unescape(s[3..])
        case Bad => Bad
        case Id(id) => Id([HexValue(s[1]) * 16 + HexValue(s[2])] + id)
    else if s[0] as int >= 0x100 then Bad
    else
      match Unescape(s[1..])
      case Bad => Bad
      case Id(id) => Id([s[0] as int] + id)
  }

  lemma HexRoundTrip(d: nat)
    requires d < 16
    ensures HexValue(Hex(d)) == d
  {
  }

  lemma UnescapePlain(b: Byte, rest: string, id: Bytes)
    requires b as char != '%' && Unescape(rest) == Id(id)
    ensures Unescape([b as char] + rest) == Id([b] + id)
  {
    assert ([b as char] + rest)[1..] == rest;
  }

  lemma UnescapeCoded(hi: nat, lo: nat, rest: string, id: Bytes)
    requires hi < 16 && lo < 16 && Unescape(rest) == Id(id)
    ensures Unescape(['%', Hex(hi), Hex(lo)] + rest) == Id([hi * 16 + lo] + id)
  {
    HexRoundTrip(hi);
    HexRoundTrip(lo);
    assert (['%', Hex(hi), Hex(lo)] + rest)[3..] == rest;
  }

  lemma UnescapeByte(b: Byte, rest: string, id: Bytes)
    requires Unescape(rest) == Id(id)
    ensures Unescape(Escape(b) + rest) == Id([b] + id)
  {
    if IsSafe(b) {
      UnescapePlain(b, rest, id);
    } else {
      UnescapeCoded(b as int / 16, b as int % 16, rest, id);
    }
  }

  /** The encoding is reversible, so two sessions never share a directory. */
  lemma {:induction false} SanitizedRoundTrip(id: Bytes)
    ensures Unescape(Sanitized(id)) == Id(id)
  {
    if id != [] {
      SanitizedRoundTrip(id[1..]);
      UnescapeByte(id[0], Sanitized(id[1..]), id[1..]);
      assert id == [id[0]] + id[1..];
    }
  }

  lemma SanitizedInjective(a: Bytes, b: Bytes)
    ensures Sanitized(a) == Sanitized(b) <==> a == b
  {
    SanitizedRoundTrip(a);
    SanitizedRoundTrip(b);
  }

  predicate IsSegment(s: string) {
    forall c | c in s :: c != '/' && c != '\\' && c != ':'
  }

  lemma EscapeIsSegment(b: Byte)
    ensures IsSegment(Escape(b))
  {
    HexRoundTrip(b as int / 16);
    HexRoundTrip(b as int % 16);
  }

  /** The encoded name is one directory segment. */
  lemma {:induction false} SanitizedIsSegment(id: Bytes)
    ensures IsSegment(Sanitized(id))
  {
    if id != [] {
      SanitizedIsSegment(id[1..]);
      EscapeIsSegment(id[0]);
      assert forall c | c in Sanitized(id) :: c in Escape(id[0]) || c in Sanitized(id[1..]);
    }
  }
}
