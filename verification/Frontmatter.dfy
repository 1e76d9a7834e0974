/** The splitter of Markdown files that open with a YAML block between `---` lines. */
module Frontmatter {
  import opened Wrappers

  datatype Split = Split(yaml: string, body: string)

  // ---------------------------------------------------------------------------
  // Searching
  // ---------------------------------------------------------------------------

  predicate OccursAt(s: string, pat: string, i: nat) {
    i + |pat| <= |s| && s[i..i + |pat|] == pat
  }

  predicate Contains(s: string, pat: string) {
    exists i: nat | i <= |s| :: OccursAt(s, pat, i)
  }

  predicate EndsWith(s: string, pat: string) {
    |pat| <= |s| && s[|s| - |pat|..] == pat
  }

  /** str::find: the first occurrence. */
  function Find(s: string, pat: string): (r: Option<nat>)
    ensures r.Some? ==> OccursAt(s, pat, r.value) && forall j: nat | j < r.value :: !OccursAt(s, pat, j)
    ensures r.None? ==> !Contains(s, pat)
  {
    FindFrom(s, pat, 0)
  }

  function FindFrom(s: string, pat: string, i: nat): (r: Option<nat>)
    requires i <= |s| + 1 && forall j: nat | j < i :: !OccursAt(s, pat, j)
    ensures r.Some? ==> OccursAt(s, pat, r.value) && forall j: nat | j < r.value :: !OccursAt(s, pat, j)
    ensures r.None? ==> !Contains(s, pat)
    decreases |s| + 1 - i
  {
    if i > |s| then None else if OccursAt(s, pat, i) then Some(i) else FindFrom(s, pat, i + 1)
  }

  // ---------------------------------------------------------------------------
  // Splitting
  // ---------------------------------------------------------------------------

  const BOM: char := '\U{feff}'

  function TrimBoms(s: string): (r: string)
    ensures |r| <= |s| && s[|s| - |r|..] == r
    ensures forall i | 0 <= i < |s| - |r| :: s[i] == BOM
    ensures r != "" ==> r[0] != BOM
  {
    if s != "" && s[0] == BOM then TrimBoms(s[1..]) else s
  }

  function TrimBreaks(s: string): (r: string)
    ensures |r| <= |s| && s[|s| - |r|..] == r
    ensures forall i | 0 <= i < |s| - |r| :: s[i] == '\r' || s[i] == '\n'
    ensures r != "" ==> r[0] != '\r' && r[0] != '\n'
  {
    if s != "" && (s[0] == '\r' || s[0] == '\n') then TrimBreaks(s[1..]) else s
  }

  const LF := "\n---\n"
  const CRLF := "\r\n---\r\n"
  const LF_CRLF := "\n---\r\n"
  const CRLF_LF := "\r\n---\n"
  const EOF_CRLF := "\r\n---"
  const EOF_LF := "\n---"

  function CutAt(s: string, pat: string): Option<Split> {
    match Find(s, pat)
    case None => None
    case Some(i) => Some(Split(s[..i], s[i + |pat|..]))
  }

  function SplitOnCloseDelim(s: string): Option<Split> {
    if CutAt(s, LF).Some? then CutAt(s, LF)
    else if CutAt(s, CRLF).Some? then CutAt(s, CRLF)
    else if CutAt(s, LF_CRLF).Some? then CutAt(s, LF_CRLF)
    else if CutAt(s, CRLF_LF).Some? then CutAt(s, CRLF_LF)
    else if EndsWith(s, EOF_CRLF) then Some(Split(s[..|s| - |EOF_CRLF|], ""))
    else if EndsWith(s, EOF_LF) then Some(Split(s[..|s| - |EOF_LF|], ""))
    else None
  }

  function SplitFrontmatter(raw: string): Option<Split> {
    var trimmed := TrimBreaks(TrimBoms(raw));
    if "---\n" <= trimmed then SplitOnCloseDelim(trimmed[4..])
    else if "---\r\n" <= trimmed then SplitOnCloseDelim(trimmed[5..])
    else None
  }

  // ---------------------------------------------------------------------------
  // Nothing is lost
  // ---------------------------------------------------------------------------

  predicate OnlyBoms(s: string) {
    forall i | 0 <= i < |s| :: s[i] == BOM
  }

  predicate OnlyBreaks(s: string) {
    forall i | 0 <= i < |s| :: s[i] == '\r' || s[i] == '\n'
  }

  predicate IsOpening(s: string) {
    s == "---\n" || s == "---\r\n"
  }

  predicate IsClosing(s: string, body: string) {
    s == LF || s == CRLF || s == LF_CRLF || s == CRLF_LF || (body == "" && (s == EOF_CRLF || s == EOF_LF))
  }

  lemma CutLossless(s: string, pat: string)
    ensures CutAt(s, pat).Some? ==> s == CutAt(s, pat).value.yaml + pat + CutAt(s, pat).value.body
  {
    if CutAt(s, pat).Some? {
      var i := Find(s, pat).value;
      assert s == s[..i] + s[i..i + |pat|] + s[i + |pat|..];
    }
  }

  lemma CloseLossless(s: string) returns (close: string)
    requires SplitOnCloseDelim(s).Some?
    ensures IsClosing(close, SplitOnCloseDelim(s).value.body)
    ensures s == SplitOnCloseDelim(s).value.yaml + close + SplitOnCloseDelim(s).value.body
  {
    if CutAt(s, LF).Some? {
      CutLossless(s, LF);
      close := LF;
    } else if CutAt(s, CRLF).Some? {
      CutLossless(s, CRLF);
      close := CRLF;
    } else if CutAt(s, LF_CRLF).Some? {
      CutLossless(s, LF_CRLF);
      close := LF_CRLF;
    } else if CutAt(s, CRLF_LF).Some? {
      CutLossless(s, CRLF_LF);
      close := CRLF_LF;
    } else if EndsWith(s, EOF_CRLF) {
      EndLossless(s, EOF_CRLF);
      close := EOF_CRLF;
    } else {
      EndLossless(s, EOF_LF);
      close := EOF_LF;
    }
  }

  lemma EndLossless(s: string, pat: string)
    requires EndsWith(s, pat)
    ensures s == s[..|s| - |pat|] + pat + ""
  {
  }

  lemma SuffixSplit(s: string, rest: string)
    requires |rest| <= |s| && s[|s| - |rest|..] == rest
    ensures s == s[..|s| - |rest|] + rest
  {
  }

  lemma Associate(a: string, b: string, c: string)
    ensures a + (b + c) == a + b + c
  {
  }

  lemma BomsBefore(raw: string) returns (boms: string)
    ensures OnlyBoms(boms) && raw == boms + TrimBoms(raw)
  {
    var rest := TrimBoms(raw);
    boms := raw[..|raw| - |rest|];
    SuffixSplit(raw, rest);
  }

  lemma BreaksBefore(rest: string) returns (breaks: string)
    ensures OnlyBreaks(breaks) && rest == breaks + TrimBreaks(rest)
  {
    var trimmed := TrimBreaks(rest);
    breaks := rest[..|rest| - |trimmed|];
    SuffixSplit(rest, trimmed);
  }

  lemma Trimmed(raw: string) returns (boms: string, breaks: string)
    ensures OnlyBoms(boms) && OnlyBreaks(breaks) && raw == boms + breaks + TrimBreaks(TrimBoms(raw))
  {
    boms := BomsBefore(raw);
    breaks := BreaksBefore(TrimBoms(raw));
    Associate(boms, breaks, TrimBreaks(TrimBoms(raw)));
  }

  lemma Opened(trimmed: string) returns (open: string, rest: string)
    requires "---\n" <= trimmed || "---\r\n" <= trimmed
    ensures IsOpening(open) && trimmed == open + rest
    ensures rest == if "---\n" <= trimmed then trimmed[4..] else trimmed[5..]
  {
    open := if "---\n" <= trimmed then "---\n" else "---\r\n";
    rest := trimmed[|open|..];
  }

  /** A successful split keeps every character but the byte order marks and line breaks in front. */
  lemma SplitLossless(raw: string) returns (boms: string, breaks: string, open: string, close: string)
    requires SplitFrontmatter(raw).Some?
    ensures OnlyBoms(boms) && OnlyBreaks(breaks) && IsOpening(open)
    ensures IsClosing(close, SplitFrontmatter(raw).value.body)
    ensures raw ==
      (boms + breaks) + (open + (SplitFrontmatter(raw).value.yaml + close + SplitFrontmatter(raw).value.body))
  {
    var rest;
    boms, breaks := Trimmed(raw);
    open, rest := Opened(TrimBreaks(TrimBoms(raw)));
    close := CloseLossless(rest);
  }

  lemma {:induction false} TrimBomsOf(boms: string, rest: string)
    requires OnlyBoms(boms) && rest != "" && rest[0] != BOM
    ensures TrimBoms(boms + rest) == rest
  {
    if boms == "" {
      assert boms + rest == rest;
    } else {
      assert (boms + rest)[1..] == boms[1..] + rest;
      TrimBomsOf(boms[1..], rest);
    }
  }

  lemma {:induction false} TrimBreaksOf(breaks: string, rest: string)
    requires OnlyBreaks(breaks) && rest != "" && rest[0] != '\r' && rest[0] != '\n'
    ensures TrimBreaks(breaks + rest) == rest
  {
    if breaks == "" {
      assert breaks + rest == rest;
    } else {
      assert (breaks + rest)[1..] == breaks[1..] + rest;
      TrimBreaksOf(breaks[1..], rest);
    }
  }

  lemma CloseFound(yaml: string, close: string, body: string)
    requires IsClosing(close, body)
    ensures SplitOnCloseDelim(yaml + close + body).Some?
  {
    var s := yaml + close + body;
    assert s[|yaml|..|yaml| + |close|] == close;
    assert OccursAt(s, close, |yaml|);
    if close == EOF_CRLF || close == EOF_LF {
      assert s == yaml + close;
      assert EndsWith(s, close);
    }
  }

  lemma TrimmedOf(boms: string, breaks: string, trimmed: string)
    requires OnlyBoms(boms) && OnlyBreaks(breaks) && trimmed != "" && trimmed[0] == '-'
    ensures TrimBreaks(TrimBoms((boms + breaks) + trimmed)) == trimmed
  {
    assert (breaks + trimmed)[0] != BOM;
    Associate(boms, breaks, trimmed);
    TrimBomsOf(boms, breaks + trimmed);
    TrimBreaksOf(breaks, trimmed);
  }

  lemma OpeningOf(open: string, rest: string)
    requires IsOpening(open)
    ensures (open + rest)[0] == '-'
    ensures open == "---\n" ==> "---\n" <= open + rest && (open + rest)[4..] == rest
    ensures open == "---\r\n" ==> "---\r\n" <= open + rest && !("---\n" <= open + rest) && (open + rest)[5..] == rest
  {
    assert open == "---\r\n" ==> (open + rest)[3] == '\r';
  }

  /** With SplitLossless: a file splits exactly when it has an opening and a closing line. */
  lemma SplitFinds(boms: string, breaks: string, open: string, yaml: string, close: string, body: string)
    requires OnlyBoms(boms) && OnlyBreaks(breaks) && IsOpening(open) && IsClosing(close, body)
    ensures SplitFrontmatter((boms + breaks) + (open + (yaml + close + body))).Some?
  {
    var rest := yaml + close + body;
    OpeningOf(open, rest);
    TrimmedOf(boms, breaks, open + rest);
    CloseFound(yaml, close, body);
  }

  // ---------------------------------------------------------------------------
  // Printing, then splitting
  // ---------------------------------------------------------------------------

  predicate LfAt(s: string, i: nat) {
    i + 5 <= |s| && s[i] == '\n' && s[i + 1] == '-' && s[i + 2] == '-' && s[i + 3] == '-' && s[i + 4] == '\n'
  }

  predicate CrlfAt(s: string, i: nat) {
    && i + 7 <= |s| && s[i] == '\r' && s[i + 1] == '\n' && s[i + 2] == '-' && s[i + 3] == '-' && s[i + 4] == '-'
    && s[i + 5] == '\r' && s[i + 6] == '\n'
  }

  lemma LfOccurs(s: string, i: nat)
    ensures OccursAt(s, LF, i) <==> LfAt(s, i)
  {
    if i + 5 <= |s| {
      var w := s[i..i + 5];
      assert w[0] == s[i] && w[1] == s[i + 1] && w[2] == s[i + 2] && w[3] == s[i + 3] && w[4] == s[i + 4];
    }
  }

  lemma CrlfOccurs(s: string, i: nat)
    ensures OccursAt(s, CRLF, i) <==> CrlfAt(s, i)
  {
    if i + 7 <= |s| {
      var w := s[i..i + 7];
      assert w[0] == s[i] && w[1] == s[i + 1] && w[2] == s[i + 2] && w[3] == s[i + 3] && w[4] == s[i + 4] &&
        w[5] == s[i + 5] && w[6] == s[i + 6];
    }
  }

  /** An occurrence that ends inside the prefix is one of the prefix. */
  lemma OccursPrefix(a: string, b: string, pat: string, i: nat)
    requires i + |pat| <= |a|
    ensures OccursAt(a + b, pat, i) <==> OccursAt(a, pat, i)
  {
    assert (a + b)[i..i + |pat|] == a[i..i + |pat|];
  }

  /** Before the closing line there is another exactly when yaml contains one or ends with its
      beginning: a line break and three dashes. */
  lemma EarlierLf(yaml: string, body: string)
    ensures (exists i: nat | i < |yaml| :: OccursAt(yaml + LF + body, LF, i)) <==>
      Contains(yaml, LF) || EndsWith(yaml, EOF_LF)
  {
    var s := yaml + LF + body;
    assert s == yaml + (LF + body);
    forall i: nat | i < |yaml| && OccursAt(s, LF, i) ensures Contains(yaml, LF) || EndsWith(yaml, EOF_LF) {
      if i + |LF| <= |yaml| {
        OccursPrefix(yaml, LF + body, LF, i);
      } else {
        LfOccurs(s, i);
        assert s[|yaml|] == '\n';
        assert i + 4 == |yaml|;
        assert yaml[i..] == s[i..i + 4] == EOF_LF;
      }
    }
    if Contains(yaml, LF) {
      var i: nat :| i <= |yaml| && OccursAt(yaml, LF, i);
      OccursPrefix(yaml, LF + body, LF, i);
    } else if EndsWith(yaml, EOF_LF) {
      var i: nat := |yaml| - 4;
      assert s[i..i + 5] == yaml[i..] + [s[|yaml|]];
      assert OccursAt(s, LF, i);
    }
  }

  lemma OpenLf(a: string, b: string, c: string)
    ensures SplitFrontmatter("---\n" + a + b + c) == SplitOnCloseDelim(a + b + c)
  {
    var raw := "---\n" + a + b + c;
    assert raw[0] == '-' && raw[..4] == "---\n";
    assert raw[4..] == a + b + c;
  }

  lemma OpenCrlf(a: string, b: string, c: string)
    ensures SplitFrontmatter("---\r\n" + a + b + c) == SplitOnCloseDelim(a + b + c)
  {
    var raw := "---\r\n" + a + b + c;
    assert raw[0] == '-' && raw[3] == '\r' && raw[..5] == "---\r\n";
    assert raw[5..] == a + b + c;
  }

  /** A printed file splits into what was printed exactly when yaml neither contains a closing line
      nor ends with the beginning of one. */
  lemma PrintThenSplit(yaml: string, body: string)
    ensures SplitFrontmatter("---\n" + yaml + LF + body) == Some(Split(yaml, body)) <==>
      !Contains(yaml, LF) && !EndsWith(yaml, EOF_LF)
  {
    var s := yaml + LF + body;
    OpenLf(yaml, LF, body);
    assert s[|yaml|..|yaml| + 5] == LF;
    assert OccursAt(s, LF, |yaml|);
    var i := Find(s, LF).value;
    assert i <= |yaml|;
    EarlierLf(yaml, body);
    if i == |yaml| {
      assert s[..i] == yaml && s[i + |LF|..] == body;
    } else {
      assert |s[..i]| != |yaml|;
    }
  }

  /** A closing line that starts with a carriage return is never cut as such by the fourth pattern:
      the first one has matched inside it, and the return stays at the end of yaml. */
  lemma MixedCloseKeepsReturn(s: string)
    requires Contains(s, CRLF_LF)
    ensures SplitOnCloseDelim(s) == CutAt(s, LF) && CutAt(s, LF).Some?
  {
    var i: nat :| i <= |s| && OccursAt(s, CRLF_LF, i);
    assert s[i + 1..i + 6] == s[i..i + 6][1..] == CRLF_LF[1..] == LF;
    assert OccursAt(s, LF, i + 1);
  }

  lemma LfInCrlfText(yaml: string, body: string)
    ensures Contains(yaml + CRLF + body, LF) <==> Contains(yaml, LF) || Contains(body, LF) || "---\n" <= body
  {
    var s := yaml + CRLF + body;
    if Contains(s, LF) {
      var i: nat :| i <= |s| && OccursAt(s, LF, i);
      LfFoundIn(yaml, body, i);
    }
    LfPutIn(yaml, body);
  }

  lemma LfFoundIn(yaml: string, body: string, i: nat)
    requires OccursAt(yaml + CRLF + body, LF, i)
    ensures Contains(yaml, LF) || Contains(body, LF) || "---\n" <= body
  {
    var s := yaml + CRLF + body;
    var n := |yaml|;
    LfOccurs(s, i);
    if i + 5 <= n {
      assert s == yaml + (CRLF + body);
      OccursPrefix(yaml, CRLF + body, LF, i);
    } else if i >= n + 7 {
      assert body[i - n - 7..i - n - 7 + 5] == s[i..i + 5];
      assert OccursAt(body, LF, i - n - 7);
    } else {
      assert CrlfAt(s, n);
      assert i == n + 6;
      assert body[..4] == s[n + 7..n + 11] == "---\n";
    }
  }

  lemma LfPutIn(yaml: string, body: string)
    ensures Contains(yaml, LF) || Contains(body, LF) || "---\n" <= body ==> Contains(yaml + CRLF + body, LF)
  {
    var s := yaml + CRLF + body;
    var n := |yaml|;
    if Contains(yaml, LF) {
      var i: nat :| i <= |yaml| && OccursAt(yaml, LF, i);
      assert s == yaml + (CRLF + body);
      OccursPrefix(yaml, CRLF + body, LF, i);
    } else if Contains(body, LF) {
      var i: nat :| i <= |body| && OccursAt(body, LF, i);
      assert s[n + 7 + i..n + 7 + i + 5] == body[i..i + 5];
      assert OccursAt(s, LF, n + 7 + i);
    } else if "---\n" <= body {
      assert s[n + 6..n + 11] == [s[n + 6]] + body[..4];
      assert OccursAt(s, LF, n + 6);
    }
  }

  lemma EarlierCrlf(yaml: string, body: string)
    ensures (exists i: nat | i < |yaml| :: OccursAt(yaml + CRLF + body, CRLF, i)) <==>
      Contains(yaml, CRLF) || EndsWith(yaml, EOF_CRLF)
  {
    var s := yaml + CRLF + body;
    assert s == yaml + (CRLF + body);
    forall i: nat | i < |yaml| && OccursAt(s, CRLF, i) ensures Contains(yaml, CRLF) || EndsWith(yaml, EOF_CRLF) {
      if i + |CRLF| <= |yaml| {
        OccursPrefix(yaml, CRLF + body, CRLF, i);
      } else {
        CrlfOccurs(s, i);
        CrossingCrlf(s, yaml, body, i);
      }
    }
    if Contains(yaml, CRLF) {
      var i: nat :| i <= |yaml| && OccursAt(yaml, CRLF, i);
      OccursPrefix(yaml, CRLF + body, CRLF, i);
    } else if EndsWith(yaml, EOF_CRLF) {
      var i: nat := |yaml| - 5;
      assert s[i..i + 7] == yaml[i..] + s[|yaml|..|yaml| + 2];
      assert s[|yaml|..|yaml| + 2] == "\r\n";
      assert OccursAt(s, CRLF, i);
    }
  }

  lemma CrossingCrlf(s: string, yaml: string, body: string, i: nat)
    requires s == yaml + CRLF + body && i < |yaml| < i + 7 && CrlfAt(s, i)
    ensures EndsWith(yaml, EOF_CRLF)
  {
    var n := |yaml|;
    assert CrlfAt(s, n);
    assert i + 5 == n;
    assert yaml[i..] == s[i..i + 5] == EOF_CRLF;
  }

  /** A file printed with carriage returns splits into what was printed exactly when, besides yaml
      being free of closing lines, no plain line break closes a `---` line anywhere, the body
      included: the plain pattern is tried on the whole text first. */
  lemma PrintThenSplitCrlf(yaml: string, body: string)
    ensures SplitFrontmatter("---\r\n" + yaml + CRLF + body) == Some(Split(yaml, body)) <==>
      && !Contains(yaml, LF) && !Contains(body, LF) && !("---\n" <= body)
      && !Contains(yaml, CRLF) && !EndsWith(yaml, EOF_CRLF)
  {
    var s := yaml + CRLF + body;
    OpenCrlf(yaml, CRLF, body);
    LfInCrlfText(yaml, body);
    EarlierCrlf(yaml, body);
    assert s[|yaml|..|yaml| + 7] == CRLF;
    assert OccursAt(s, CRLF, |yaml|);
    if Contains(s, LF) {
      LfCutDiffers(yaml, body);
    } else {
      var i := Find(s, CRLF).value;
      if i == |yaml| {
        assert s[..i] == yaml && s[i + |CRLF|..] == body;
      } else {
        assert |s[..i]| != |yaml|;
      }
    }
  }

  /** No closing line that ends with a line break. */
  predicate NoClose(s: string) {
    !Contains(s, LF) && !Contains(s, CRLF) && !Contains(s, LF_CRLF) && !Contains(s, CRLF_LF)
  }

  /** With such a line the split has another end. */
  lemma EarlierClose(s: string, yaml: string, end: string)
    requires s == yaml + end && (end == EOF_LF || end == EOF_CRLF) && !NoClose(s)
    ensures SplitOnCloseDelim(s) != Some(Split(yaml, ""))
  {
    assert s[|s| - 1] == '-';
    CutInside(s, LF);
    CutInside(s, CRLF);
    CutInside(s, LF_CRLF);
    CutInside(s, CRLF_LF);
  }

  lemma CutInside(s: string, pat: string)
    requires s != "" && s[|s| - 1] != '\n' && pat != "" && pat[|pat| - 1] == '\n'
    ensures CutAt(s, pat).Some? ==> CutAt(s, pat).value.body != ""
  {
    if CutAt(s, pat).Some? {
      var i := Find(s, pat).value;
      assert s[i..i + |pat|][|pat| - 1] == s[i + |pat| - 1];
    }
  }

  /** A file that ends at its closing line splits into what was printed exactly when nothing closes before,
      and yaml printed with plain line breaks does not end with a carriage return. */
  lemma PrintThenSplitEof(yaml: string)
    ensures SplitFrontmatter("---\n" + yaml + EOF_LF + "") == Some(Split(yaml, "")) <==>
      NoClose(yaml + EOF_LF) && !EndsWith(yaml, "\r")
    ensures SplitFrontmatter("---\r\n" + yaml + EOF_CRLF + "") == Some(Split(yaml, "")) <==>
      NoClose(yaml + EOF_CRLF)
  {
    OpenLf(yaml, EOF_LF, "");
    OpenCrlf(yaml, EOF_CRLF, "");
    assert yaml + EOF_LF + "" == yaml + EOF_LF && yaml + EOF_CRLF + "" == yaml + EOF_CRLF;
    EofLf(yaml);
    EofCrlf(yaml);
  }

  lemma EofLf(yaml: string)
    ensures SplitOnCloseDelim(yaml + EOF_LF) == Some(Split(yaml, "")) <==>
      NoClose(yaml + EOF_LF) && !EndsWith(yaml, "\r")
  {
    var s := yaml + EOF_LF;
    if NoClose(s) {
      assert EndsWith(s, EOF_LF) && s[..|s| - |EOF_LF|] == yaml;
      ReturnBefore(yaml);
      if EndsWith(s, EOF_CRLF) {
        assert |s[..|s| - |EOF_CRLF|]| < |yaml|;
      }
    } else {
      EarlierClose(s, yaml, EOF_LF);
    }
  }

  lemma ReturnBefore(yaml: string)
    ensures EndsWith(yaml + EOF_LF, EOF_CRLF) <==> EndsWith(yaml, "\r")
  {
    var s := yaml + EOF_LF;
    if yaml != "" {
      var tail := s[|s| - 5..];
      assert tail == [yaml[|yaml| - 1]] + EOF_LF;
      assert EOF_CRLF == ['\r'] + EOF_LF;
      assert yaml[|yaml| - 1..] == [yaml[|yaml| - 1]];
      assert tail[0] == yaml[|yaml| - 1] && EOF_CRLF[0] == '\r';
    }
  }

  lemma EofCrlf(yaml: string)
    ensures SplitOnCloseDelim(yaml + EOF_CRLF) == Some(Split(yaml, "")) <==> NoClose(yaml + EOF_CRLF)
  {
    var s := yaml + EOF_CRLF;
    if NoClose(s) {
      assert EndsWith(s, EOF_CRLF) && s[..|s| - |EOF_CRLF|] == yaml;
    } else {
      EarlierClose(s, yaml, EOF_CRLF);
    }
  }

  /** A file with carriage returns whose body holds a rule between plain line breaks. */
  lemma PlainRuleInCrlfFile()
    ensures var yaml, body := "title: x", "a\n---\nb";
      SplitFrontmatter("---\r\n" + yaml + CRLF + body) != Some(Split(yaml, body))
  {
    var yaml, body := "title: x", "a\n---\nb";
    assert body[1..6] == LF;
    assert OccursAt(body, LF, 1);
    PrintThenSplitCrlf(yaml, body);
  }

  /** The plain pattern is shorter than the delimiter it was printed with. */
  lemma LfCutDiffers(yaml: string, body: string)
    requires Contains(yaml + CRLF + body, LF)
    ensures CutAt(yaml + CRLF + body, LF).Some? && CutAt(yaml + CRLF + body, LF) != Some(Split(yaml, body))
  {
    var s := yaml + CRLF + body;
    var i := Find(s, LF).value;
    assert |s[..i]| + 5 + |s[i + 5..]| == |s|;
  }
}
