/** The per-file diff of a turn: the common prefix and suffix of lines are trimmed, the rest is
    printed as one removed and one added block. */
module LineDiff {
  import opened Wrappers

  import opened Utf8

  // ---------------------------------------------------------------------------
  // Text
  // ---------------------------------------------------------------------------

  function Chars(text: seq<Scalar>): string {
    seq(|text|, i requires 0 <= i < |text| => text[i] as char)
  }

  function StripReturn(line: string): string {
    if line != "" && line[|line| - 1] == '\r' then line[..|line| - 1] else line
  }

  /** str::lines: a last line without a newline counts, an empty one does not, and the carriage
      return before a newline is dropped. */
  function Lines(s: string): seq<string>
    decreases |s|
  {
    if s == "" then []
    else
      var i := PositionOf(s, '\n');
      if i == |s| then [s] else [StripReturn(s[..i])] + Lines(s[i + 1..])
  }

  function Marked(mark: char, lines: seq<string>): string {
    if lines == [] then "" else Marked(mark, lines[..|lines| - 1]) + [mark] + lines[|lines| - 1] + "\n"
  }

  // ---------------------------------------------------------------------------
  // Trimming
  // ---------------------------------------------------------------------------

  /** The two files share their first `pre` and last `suf` lines, and no more after trimming the
      prefix first. */
  predicate Trimmed(p: seq<string>, c: seq<string>, pre: nat, suf: nat) {
    && pre + suf <= |p| && pre + suf <= |c|
    && p[..pre] == c[..pre]
    && p[|p| - suf..] == c[|c| - suf..]
    && (pre < |p| && pre < |c| ==> p[pre] != c[pre])
    && (pre + suf < |p| && pre + suf < |c| ==> p[|p| - 1 - suf] != c[|c| - 1 - suf])
  }

  /** c is p with one run of lines replaced. */
  predicate Replaces(p: seq<string>, c: seq<string>, pre: nat, suf: nat, added: seq<string>) {
    pre + suf <= |p| && c == p[..pre] + added + p[|p| - suf..]
  }

  /** Replacing the removed lines by the added ones turns the prior text into the current one. */
  lemma TrimmedReplaces(p: seq<string>, c: seq<string>, pre: nat, suf: nat)
    requires Trimmed(p, c, pre, suf)
    ensures Replaces(p, c, pre, suf, c[pre..|c| - suf])
  {
    assert c == c[..pre] + c[pre..|c| - suf] + c[|c| - suf..];
  }

  lemma SharedPrefix(p: seq<string>, c: seq<string>, n: nat)
    requires n <= |p| && n <= |c| && p[..n] == c[..n]
    ensures forall i | 0 <= i < n :: p[i] == c[i]
  {
    forall i | 0 <= i < n ensures p[i] == c[i] { assert p[..n][i] == c[..n][i]; }
  }

  lemma SharedSuffix(p: seq<string>, c: seq<string>, n: nat)
    requires n <= |p| && n <= |c| && p[|p| - n..] == c[|c| - n..]
    ensures forall i | |p| - n <= i < |p| :: p[i] == c[i - |p| + |c|]
  {
    forall i | |p| - n <= i < |p| ensures p[i] == c[i - |p| + |c|] {
      assert p[|p| - n..][i - (|p| - n)] == c[|c| - n..][i - (|p| - n)];
    }
  }

  /** No other way to replace one run of lines removes or adds fewer of them. */
  lemma TrimmedLeast(p: seq<string>, c: seq<string>, pre: nat, suf: nat, pre': nat, suf': nat, added: seq<string>)
    requires Trimmed(p, c, pre, suf) && Replaces(p, c, pre', suf', added)
    ensures |p| - pre - suf <= |p| - pre' - suf' && |c| - pre - suf <= |added|
  {
    assert |c| == pre' + |added| + suf';
    assert c[..pre'] == p[..pre'] && c[|c| - suf'..] == p[|p| - suf'..];
    SharedPrefix(p, c, pre');
    SharedSuffix(p, c, suf');
  }

  /** Two trims of the same files agree. */
  lemma TrimmedUnique(p: seq<string>, c: seq<string>, pre: nat, suf: nat, pre': nat, suf': nat)
    requires Trimmed(p, c, pre, suf) && Trimmed(p, c, pre', suf')
    ensures pre == pre' && suf == suf'
  {
    SharedPrefix(p, c, pre);
    SharedPrefix(p, c, pre');
    SharedSuffix(p, c, suf);
    SharedSuffix(p, c, suf');
  }

  lemma OneMoreSuffix(p: seq<string>, c: seq<string>, suf: nat)
    requires suf < |p| && suf < |c| && p[|p| - suf..] == c[|c| - suf..] && p[|p| - 1 - suf] == c[|c| - 1 - suf]
    ensures p[|p| - suf - 1..] == c[|c| - suf - 1..]
  {
    assert p[|p| - suf - 1..] == [p[|p| - 1 - suf]] + p[|p| - suf..];
    assert c[|c| - suf - 1..] == [c[|c| - 1 - suf]] + c[|c| - suf..];
  }

  lemma OneMorePrefix(p: seq<string>, c: seq<string>, pre: nat)
    requires pre < |p| && pre < |c| && p[..pre] == c[..pre] && p[pre] == c[pre]
    ensures p[..pre + 1] == c[..pre + 1]
  {
    assert p[..pre + 1] == p[..pre] + [p[pre]] && c[..pre + 1] == c[..pre] + [c[pre]];
  }

  method Trim(p: seq<string>, c: seq<string>) returns (pre: nat, suf: nat)
    ensures Trimmed(p, c, pre, suf)
  {
    pre := 0;
    while pre < |p| && pre < |c| && p[pre] == c[pre]
      invariant pre <= |p| && pre <= |c| && p[..pre] == c[..pre]
    {
      OneMorePrefix(p, c, pre);
      pre := pre + 1;
    }
    suf := 0;
    while suf < |p| - pre && suf < |c| - pre && p[|p| - 1 - suf] == c[|c| - 1 - suf]
      invariant pre + suf <= |p| && pre + suf <= |c| && p[|p| - suf..] == c[|c| - suf..]
    {
      OneMoreSuffix(p, c, suf);
      suf := suf + 1;
    }
  }

  // ---------------------------------------------------------------------------
  // The report
  // ---------------------------------------------------------------------------

  datatype Report = Report(diff: string, filesChanged: nat, insertions: nat, deletions: nat)

  /** The report of one changed file, given how its lines were trimmed. */
  function FileReport(path: string, p: seq<string>, c: seq<string>, pre: nat, suf: nat): Report
    requires pre + suf <= |p| && pre + suf <= |c|
  {
    Report("--- a/" + path + "\n+++ b/" + path + "\n" + Marked('-', p[pre..|p| - suf]) + Marked('+', c[pre..|c| - suf]),
           0, |c| - pre - suf, |p| - pre - suf)
  }

  function BinaryReport(path: string): Report {
    Report("Binary files a/" + path + " and b/" + path + " differ\n", 0, 1, 0)
  }

  function Plus(a: Report, b: Report): Report {
    Report(a.diff + b.diff, a.filesChanged + b.filesChanged, a.insertions + b.insertions, a.deletions + b.deletions)
  }

  /** What is appended for one changed file. */
  ghost predicate Describes(r: Report, path: string, prior: Bytes, current: Bytes) {
    if Valid(prior) && Valid(current) then
      var p, c := Lines(Chars(Decode(prior).chars)), Lines(Chars(Decode(current).chars));
      exists pre: nat, suf: nat :: Trimmed(p, c, pre, suf) && r == FileReport(path, p, c, pre, suf)
    else r == BinaryReport(path)
  }

  lemma {:induction false} MarkedAppend(mark: char, lines: seq<string>, line: string)
    ensures Marked(mark, lines + [line]) == Marked(mark, lines) + [mark] + line + "\n"
  {
    assert (lines + [line])[..|lines|] == lines;
  }

  method PrintLines(mark: char, lines: seq<string>, out: string, count: nat) returns (text: string, total: nat)
    ensures text == out + Marked(mark, lines) && total == count + |lines|
  {
    text, total := out, count;
    for i := 0 to |lines|
      invariant text == out + Marked(mark, lines[..i]) && total == count + i
    {
      MarkedAppend(mark, lines[..i], lines[i]);
      assert lines[..i + 1] == lines[..i] + [lines[i]];
      text := text + [mark];
      text := text + lines[i];
      text := text + "\n";
      total := total + 1;
    }
    assert lines[..|lines|] == lines;
  }

  lemma Concat4(a: string, b: string, c: string, d: string)
    ensures a + b + c + d == a + (b + c + d)
  {
  }

  /** Appends the file's block to the report. */
  method UnifiedFileDiff(path: string, prior: Bytes, current: Bytes, out: Report) returns (after: Report)
    ensures exists added :: Describes(added, path, prior, current) && after == Plus(out, added)
    ensures after.filesChanged == out.filesChanged
  {
    match (Decode(prior), Decode(current))
    case (Text(p), Text(c)) =>
      ghost var added;
      after, added := TextDiff(path, Lines(Chars(p)), Lines(Chars(c)), out);
      assert Describes(added, path, prior, current);
    case _ =>
      after := Report(out.diff + BinaryReport(path).diff, out.filesChanged, out.insertions + 1, out.deletions);
      assert Describes(BinaryReport(path), path, prior, current);
  }

  method TextDiff(path: string, p: seq<string>, c: seq<string>, out: Report)
    returns (after: Report, ghost added: Report)
    ensures exists pre: nat, suf: nat :: Trimmed(p, c, pre, suf) && added == FileReport(path, p, c, pre, suf)
    ensures after == Plus(out, added)
  {
    var pre, suf := Trim(p, c);
    var removed, inserted := p[pre..|p| - suf], c[pre..|c| - suf];
    var header := "--- a/" + path + "\n+++ b/" + path + "\n";
    var deleted, deletions := PrintLines('-', removed, out.diff + header, out.deletions);
    var diff, insertions := PrintLines('+', inserted, deleted, out.insertions);
    Concat4(out.diff, header, Marked('-', removed), Marked('+', inserted));
    added := FileReport(path, p, c, pre, suf);
    after := Report(diff, out.filesChanged, insertions, deletions);
  }

  /** A changed text file changes the line count by insertions less deletions, and reports none of
      either exactly when only line endings or a final newline differ. */
  lemma DescribesCounts(r: Report, path: string, prior: Bytes, current: Bytes)
    requires Describes(r, path, prior, current) && Valid(prior) && Valid(current)
    ensures var p := Lines(Chars(Decode(prior).chars)); var c := Lines(Chars(Decode(current).chars));
      && r.insertions - r.deletions == |c| - |p|
      && (r.insertions == 0 && r.deletions == 0 <==> p == c)
  {
    var p, c := Lines(Chars(Decode(prior).chars)), Lines(Chars(Decode(current).chars));
    var pre: nat, suf: nat :| Trimmed(p, c, pre, suf) && r == FileReport(path, p, c, pre, suf);
    TrimmedReplaces(p, c, pre, suf);
    if p == c {
      TrimmedUnique(p, c, pre, suf, |p|, 0);
    }
  }

  // ---------------------------------------------------------------------------
  // What lines are
  // ---------------------------------------------------------------------------

  predicate EndsInReturn(line: string) {
    line != "" && line[|line| - 1] == '\r'
  }

  /** The ending is the line's own: only the last line may have none, and a carriage return before a
      newline belongs to the ending. */
  predicate EndingOk(line: string, end: string, last: bool) {
    || (end == "\n" && !EndsInReturn(line)) || end == "\r\n" || (last && end == "" && line != "")
  }

  predicate Ended(lines: seq<string>, ends: seq<string>) {
    |ends| == |lines| &&
      forall i | 0 <= i < |lines| :: '\n' !in lines[i] && EndingOk(lines[i], ends[i], i == |lines| - 1)
  }

  function Glued(lines: seq<string>, ends: seq<string>): string
    requires |ends| == |lines|
  {
    if lines == [] then "" else lines[0] + ends[0] + Glued(lines[1..], ends[1..])
  }

  function EndsOf(s: string): (ends: seq<string>)
    ensures |ends| == |Lines(s)|
    decreases |s|
  {
    if s == "" then []
    else
      var i := PositionOf(s, '\n');
      if i == |s| then [""] else [if EndsInReturn(s[..i]) then "\r\n" else "\n"] + EndsOf(s[i + 1..])
  }

  lemma EndedMore(line: string, end: string, lines: seq<string>, ends: seq<string>)
    requires '\n' !in line && EndingOk(line, end, lines == []) && Ended(lines, ends)
    ensures Ended([line] + lines, [end] + ends)
    ensures Glued([line] + lines, [end] + ends) == line + end + Glued(lines, ends)
  {
    var all, closes := [line] + lines, [end] + ends;
    assert all[1..] == lines && closes[1..] == ends;
    forall i | 0 <= i < |all| ensures '\n' !in all[i] && EndingOk(all[i], closes[i], i == |all| - 1) {
      if i > 0 {
        assert all[i] == lines[i - 1] && closes[i] == ends[i - 1];
      }
    }
  }

  /** A text from its first newline on. */
  lemma AtBreak(head: string, rest: string)
    requires '\n' !in head
    ensures var s := head + ['\n'] + rest;
      PositionOf(s, '\n') == |head| < |s| && s[..|head|] == head && s[|head| + 1..] == rest
  {
    PositionAfter(head, '\n', rest);
  }

  lemma CutAtBreak(s: string) returns (head: string, rest: string)
    requires PositionOf(s, '\n') < |s|
    ensures '\n' !in head && s == head + ['\n'] + rest && |rest| < |s|
  {
    var i := PositionOf(s, '\n');
    head, rest := s[..i], s[i + 1..];
  }

  lemma LinesStep(head: string, rest: string)
    requires '\n' !in head
    ensures var s := head + ['\n'] + rest;
      && Lines(s) == [StripReturn(head)] + Lines(rest)
      && EndsOf(s) == [if EndsInReturn(head) then "\r\n" else "\n"] + EndsOf(rest)
  {
    AtBreak(head, rest);
  }

  /** The lines, each with its ending, are the text: no line holds a break. */
  lemma {:induction false} LinesEnded(s: string)
    ensures Ended(Lines(s), EndsOf(s)) && Glued(Lines(s), EndsOf(s)) == s
    decreases |s|
  {
    if s != "" {
      if PositionOf(s, '\n') == |s| {
        EndedMore(s, "", [], []);
        assert [s] + [] == [s] && [""] + [] == [""];
      } else {
        var head, rest := CutAtBreak(s);
        LinesEnded(rest);
        LinesStep(head, rest);
        var end := if EndsInReturn(head) then "\r\n" else "\n";
        EndedMore(StripReturn(head), end, Lines(rest), EndsOf(rest));
        assert StripReturn(head) + end == head + ['\n'];
      }
    }
  }

  /** And they are the only ones: whatever lines and endings make up a text are its lines. */
  lemma {:induction false} LinesOnly(lines: seq<string>, ends: seq<string>)
    requires Ended(lines, ends)
    ensures Lines(Glued(lines, ends)) == lines
  {
    if lines != [] {
      var line, end, rest := lines[0], ends[0], Glued(lines[1..], ends[1..]);
      assert '\n' !in line && EndingOk(line, end, |lines| == 1);
      assert Ended(lines[1..], ends[1..]);
      LinesOnly(lines[1..], ends[1..]);
      assert lines == [line] + lines[1..];
      if end == "" {
        assert rest == "" && Glued(lines, ends) == line;
        LastLine(line);
      } else {
        FirstLine(line, end, rest);
      }
    }
  }

  lemma LastLine(line: string)
    requires '\n' !in line && line != ""
    ensures Lines(line) == [line]
  {
    assert PositionOf(line, '\n') == |line|;
  }

  lemma FirstLine(line: string, end: string, rest: string)
    requires '\n' !in line && ((end == "\n" && !EndsInReturn(line)) || end == "\r\n")
    ensures Lines(line + end + rest) == [line] + Lines(rest)
  {
    var head := if end == "\n" then line else line + ['\r'];
    assert line + end == head + ['\n'];
    LinesStep(head, rest);
  }

  // ---------------------------------------------------------------------------
  // Reading a report
  // ---------------------------------------------------------------------------

  /** The pieces of a text between its newlines, without what is behind the last. */
  function Pieces(s: string): seq<string>
    decreases |s|
  {
    var i := PositionOf(s, '\n');
    if i == |s| then [] else [s[..i]] + Pieces(s[i + 1..])
  }

  /** The pieces with the mark in front, without it. */
  function Under(mark: char, pieces: seq<string>): seq<string> {
    if pieces == [] then []
    else if pieces[0] != "" && pieces[0][0] == mark then [pieces[0][1..]] + Under(mark, pieces[1..])
    else Under(mark, pieces[1..])
  }

  /** Reading the block of a file gives one run of lines to take out of the prior ones and one to put in
      its place; the counts are theirs. Every piece is one or the other, removed lines first. */
  ghost predicate Reads(r: Report, path: string, prior: Bytes, current: Bytes) {
    if Valid(prior) && Valid(current)
    then ReadsText(r, "--- a/" + path + "\n+++ b/" + path + "\n", LinesIn(prior), LinesIn(current))
    else r == Report("Binary files a/" + path + " and b/" + path + " differ\n", 0, 1, 0)
  }

  function LinesIn(bytes: Bytes): seq<string>
    requires Valid(bytes)
  {
    Lines(Chars(Decode(bytes).chars))
  }

  ghost predicate ReadsText(r: Report, header: string, p: seq<string>, c: seq<string>) {
    exists body: string, pre: nat ::
      && r.diff == header + body && ReadsBody(body, p, c, pre)
      && r.deletions == |Under('-', Pieces(body))| && r.insertions == |Under('+', Pieces(body))|
      && r.filesChanged == 0
  }

  ghost predicate ReadsBody(body: string, p: seq<string>, c: seq<string>, pre: nat) {
    var pieces := Pieces(body);
    var removed, added := Under('-', pieces), Under('+', pieces);
    && (body != "" ==> body[|body| - 1] == '\n') && |pieces| == |removed| + |added|
    && Under('-', pieces[..|removed|]) == removed
    && pre + |removed| <= |p| && p[pre..pre + |removed|] == removed
    && c == p[..pre] + added + p[pre + |removed|..]
  }

  function WithMark(mark: char, lines: seq<string>): seq<string> {
    seq(|lines|, i requires 0 <= i < |lines| => [mark] + lines[i])
  }

  predicate NoBreaks(lines: seq<string>) {
    forall i | 0 <= i < |lines| :: '\n' !in lines[i]
  }

  lemma {:induction false} PiecesOfMarked(mark: char, lines: seq<string>, rest: string)
    requires mark != '\n' && NoBreaks(lines)
    ensures Pieces(Marked(mark, lines) + rest) == WithMark(mark, lines) + Pieces(rest)
  {
    if lines == [] {
      assert Marked(mark, lines) + rest == rest && WithMark(mark, lines) == [];
    } else {
      var front, line := lines[..|lines| - 1], [mark] + lines[|lines| - 1];
      MarkedLast(mark, lines, rest);
      PiecesOfMarked(mark, front, line + ['\n'] + rest);
      PiecesStep(line, rest);
      WithLast(mark, lines, Pieces(rest));
    }
  }

  lemma PiecesStep(line: string, rest: string)
    requires '\n' !in line
    ensures Pieces(line + ['\n'] + rest) == [line] + Pieces(rest)
  {
    AtBreak(line, rest);
  }

  lemma WithLast(mark: char, lines: seq<string>, rest: seq<string>)
    requires lines != []
    ensures WithMark(mark, lines) + rest ==
      WithMark(mark, lines[..|lines| - 1]) + ([[mark] + lines[|lines| - 1]] + rest)
  {
    assert WithMark(mark, lines) == WithMark(mark, lines[..|lines| - 1]) + [[mark] + lines[|lines| - 1]];
  }

  lemma MarkedLast(mark: char, lines: seq<string>, rest: string)
    requires lines != []
    ensures var front, line := lines[..|lines| - 1], [mark] + lines[|lines| - 1];
      Marked(mark, lines) + rest == Marked(mark, front) + (line + ['\n'] + rest)
  {
  }

  lemma {:induction false} UnderMarked(mark: char, other: char, lines: seq<string>, rest: seq<string>)
    ensures Under(other, WithMark(mark, lines) + rest) == (if mark == other then lines else []) + Under(other, rest)
  {
    var pieces := WithMark(mark, lines) + rest;
    if lines == [] {
      assert pieces == rest;
    } else {
      assert pieces[0] == [mark] + lines[0] && pieces[0][1..] == lines[0];
      assert pieces[1..] == WithMark(mark, lines[1..]) + rest;
      UnderMarked(mark, other, lines[1..], rest);
      assert lines == [lines[0]] + lines[1..];
    }
  }

  lemma MarkedEnds(mark: char, lines: seq<string>)
    ensures Marked(mark, lines) == "" || Marked(mark, lines)[|Marked(mark, lines)| - 1] == '\n'
  {
  }

  lemma BlockReads(removed: seq<string>, added: seq<string>)
    requires NoBreaks(removed) && NoBreaks(added)
    ensures var body := Marked('-', removed) + Marked('+', added); var pieces := Pieces(body);
      && Under('-', pieces) == removed && Under('+', pieces) == added && |pieces| == |removed| + |added|
      && Under('-', pieces[..|removed|]) == removed && (body != "" ==> body[|body| - 1] == '\n')
  {
    var minus, plus := WithMark('-', removed), WithMark('+', added);
    PiecesOfBlock(removed, added);
    UnderBlock(removed, added);
    MarkedEnds('-', removed);
    MarkedEnds('+', added);
    assert (minus + plus)[..|removed|] == minus;
  }

  lemma PiecesOfBlock(removed: seq<string>, added: seq<string>)
    requires NoBreaks(removed) && NoBreaks(added)
    ensures Pieces(Marked('-', removed) + Marked('+', added)) == WithMark('-', removed) + WithMark('+', added)
  {
    PiecesOfMarked('-', removed, Marked('+', added));
    PiecesOfMarked('+', added, "");
    assert Marked('+', added) + "" == Marked('+', added) && Pieces("") == [];
    assert WithMark('+', added) + [] == WithMark('+', added);
  }

  lemma UnderBlock(removed: seq<string>, added: seq<string>)
    ensures var minus, plus := WithMark('-', removed), WithMark('+', added);
      Under('-', minus + plus) == removed && Under('+', minus + plus) == added && Under('-', minus) == removed
  {
    var minus, plus := WithMark('-', removed), WithMark('+', added);
    UnderMarked('-', '-', removed, plus);
    UnderMarked('-', '+', removed, plus);
    UnderMarked('+', '-', added, []);
    UnderMarked('+', '+', added, []);
    UnderMarked('-', '-', removed, []);
    assert plus + [] == plus && minus + [] == minus && Under('-', []) == [] && Under('+', []) == [];
    assert removed + [] == removed && added + [] == added && [] + added == added;
  }

  /** Every report can be read so. */
  lemma DescribesReads(r: Report, path: string, prior: Bytes, current: Bytes)
    requires Describes(r, path, prior, current)
    ensures Reads(r, path, prior, current)
  {
    if Valid(prior) && Valid(current) {
      var p, c := LinesIn(prior), LinesIn(current);
      var pre: nat, suf: nat :| Trimmed(p, c, pre, suf) && r == FileReport(path, p, c, pre, suf);
      FileReads(r, path, p, c, pre, suf, Chars(Decode(prior).chars), Chars(Decode(current).chars));
    }
  }

  lemma FileReads(
    r: Report, path: string, p: seq<string>, c: seq<string>, pre: nat, suf: nat, prior: string, current: string)
    requires p == Lines(prior) && c == Lines(current)
    requires Trimmed(p, c, pre, suf) && r == FileReport(path, p, c, pre, suf)
    ensures ReadsText(r, "--- a/" + path + "\n+++ b/" + path + "\n", p, c)
  {
    LinesEnded(prior);
    LinesEnded(current);
    TextReads(r, "--- a/" + path + "\n+++ b/" + path + "\n", p, c, pre, suf);
  }

  lemma TextReads(r: Report, header: string, p: seq<string>, c: seq<string>, pre: nat, suf: nat)
    requires NoBreaks(p) && NoBreaks(c) && Trimmed(p, c, pre, suf)
    requires var removed, added := p[pre..|p| - suf], c[pre..|c| - suf];
      r == Report(header + Marked('-', removed) + Marked('+', added), 0, |added|, |removed|)
    ensures ReadsText(r, header, p, c)
  {
    var removed, added := p[pre..|p| - suf], c[pre..|c| - suf];
    var body := Marked('-', removed) + Marked('+', added);
    BlockReads(removed, added);
    BodyReads(body, p, c, pre, suf);
    Associate(header, Marked('-', removed), Marked('+', added));
    assert r.diff == header + body;
  }

  lemma Associate(a: string, b: string, c: string)
    ensures a + b + c == a + (b + c)
  {
  }

  lemma BodyReads(body: string, p: seq<string>, c: seq<string>, pre: nat, suf: nat)
    requires Trimmed(p, c, pre, suf)
    requires var removed, added, pieces := p[pre..|p| - suf], c[pre..|c| - suf], Pieces(body);
      && Under('-', pieces) == removed && Under('+', pieces) == added && |pieces| == |removed| + |added|
      && Under('-', pieces[..|removed|]) == removed && (body != "" ==> body[|body| - 1] == '\n')
    ensures ReadsBody(body, p, c, pre)
  {
    TrimmedReplaces(p, c, pre, suf);
    assert pre + |p[pre..|p| - suf]| == |p| - suf;
  }
}
