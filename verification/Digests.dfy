/** SHA-256, taken as collision free: a digest stands for the text it was computed from. Its printed
    form is a text of its own, so a file's content may consist of printed digests. */
module Digests {
  import opened Numerals

  datatype Hash = Sha(preimage: string)

  /** The printed form. Like the hexadecimal one it determines the digest, ends by itself, and holds
      neither a line break nor a bar. */
  function Hex(h: Hash): string {
    Coded(h.preimage)
  }

  function Coded(s: string): string {
    if s == "" then "." else Digits(s[0] as int) + "," + Coded(s[1..])
  }

  function ConcatHex(hs: seq<Hash>): string {
    if hs == [] then "" else Hex(hs[0]) + ConcatHex(hs[1..])
  }

  predicate Free(s: string, c: char) {
    forall i | 0 <= i < |s| :: s[i] != c
  }

  lemma CodedFirst(s: string)
    ensures |Coded(s)| > |s| && (s == "" <==> Coded(s)[0] == '.')
  {
    CodedLength(s);
    if s != "" {
      DigitsValue(s[0] as int);
      assert Coded(s)[0] == Digits(s[0] as int)[0];
      assert Digits(s[0] as int)[0] in Digits(s[0] as int);
    }
  }

  lemma {:induction false} CodedLength(s: string)
    ensures |Coded(s)| > |s|
  {
    if s != "" {
      CodedLength(s[1..]);
    }
  }

  /** A coded text can be told from what follows it. */
  lemma {:induction false} CodedEnds(s: string, t: string, x: string, y: string)
    requires Coded(s) + x == Coded(t) + y
    ensures s == t && x == y
  {
    CodedFirst(s);
    CodedFirst(t);
    assert (Coded(s) + x)[0] == Coded(s)[0] && (Coded(t) + y)[0] == Coded(t)[0];
    if s != "" {
      var a, b := Coded(s[1..]), Coded(t[1..]);
      assert Coded(s) + x == Digits(s[0] as int) + "," + (a + x);
      assert Coded(t) + y == Digits(t[0] as int) + "," + (b + y);
      DigitsEnd(s[0] as int, t[0] as int, ',', a + x, b + y);
      CodedEnds(s[1..], t[1..], x, y);
      assert s == [s[0]] + s[1..] && t == [t[0]] + t[1..];
    } else {
      assert x == (Coded(s) + x)[1..] && y == (Coded(t) + y)[1..];
    }
  }

  lemma HexInjective(h: Hash, k: Hash)
    requires Hex(h) == Hex(k)
    ensures h == k
  {
    assert Hex(h) + "" == Hex(k) + "";
    CodedEnds(h.preimage, k.preimage, "", "");
  }

  /** Printed digests in a row are told apart. */
  lemma {:induction false} ConcatHexInjective(hs: seq<Hash>, ks: seq<Hash>)
    requires ConcatHex(hs) == ConcatHex(ks)
    ensures hs == ks
  {
    ConcatHexEmpty(hs);
    ConcatHexEmpty(ks);
    if hs != [] {
      CodedEnds(hs[0].preimage, ks[0].preimage, ConcatHex(hs[1..]), ConcatHex(ks[1..]));
      ConcatHexInjective(hs[1..], ks[1..]);
      assert hs == [hs[0]] + hs[1..] && ks == [ks[0]] + ks[1..];
    }
  }

  lemma ConcatHexEmpty(hs: seq<Hash>)
    ensures ConcatHex(hs) == "" <==> hs == []
  {
    if hs != [] {
      CodedLength(hs[0].preimage);
    }
  }

  /** Every digest in a row is shorter than the row. */
  lemma {:induction false} ConcatHexLonger(hs: seq<Hash>, i: nat)
    requires i < |hs|
    ensures |hs[i].preimage| < |ConcatHex(hs)|
  {
    if i == 0 {
      CodedLength(hs[0].preimage);
    } else {
      ConcatHexLonger(hs[1..], i - 1);
    }
  }

  lemma {:induction false} CodedPlain(s: string)
    ensures Free(Coded(s), '\n') && Free(Coded(s), '|')
  {
    if s != "" {
      CodedPlain(s[1..]);
      DigitsValue(s[0] as int);
      var digits, rest := Digits(s[0] as int), Coded(s[1..]);
      forall i | 0 <= i < |Coded(s)| ensures Coded(s)[i] != '\n' && Coded(s)[i] != '|' {
        if i < |digits| {
          assert Coded(s)[i] == digits[i] && digits[i] in digits;
        } else if i > |digits| {
          assert Coded(s)[i] == rest[i - |digits| - 1];
        }
      }
    }
  }
}
