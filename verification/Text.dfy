/** The string operations the models lean on: lines, joining and stripping, with `\n` the only line break. */
module Text {
  predicate IsSpace(c: char) {
    c == ' ' || c == '\t' || c == '\n' || c == '\r' || c as int == 11 || c as int == 12
  }

  function LStrip(s: string): string {
    if s != "" && IsSpace(s[0]) then LStrip(s[1..]) else s
  }

  function RStrip(s: string): string {
    if s != "" && IsSpace(s[|s| - 1]) then RStrip(s[..|s| - 1]) else s
  }

  function Strip(s: string): string {
    RStrip(LStrip(s))
  }

  predicate Stripped(s: string) {
    s != "" ==> !IsSpace(s[0]) && !IsSpace(s[|s| - 1])
  }

  function Join(lines: seq<string>): string {
    if |lines| == 0 then "" else if |lines| == 1 then lines[0]
    else Join(lines[..|lines| - 1]) + "\n" + lines[|lines| - 1]
  }

  /** `str.splitlines`: no final empty line for a trailing line break. */
  function Lines(s: string): seq<string> {
    var (done, last) := Split(s);
    if last == "" then done else done + [last]
  }

  /** Complete lines, and what follows the last line break. */
  function Split(s: string): (seq<string>, string) {
    if s == "" then ([], "")
    else
      var (done, last) := Split(s[..|s| - 1]);
      var c := s[|s| - 1];
      if c == '\n' then (done + [last], "") else (done, last + [c])
  }

  predicate OneLine(s: string) {
    forall i | 0 <= i < |s| :: s[i] != '\n'
  }

  predicate AllOneLine(lines: seq<string>) {
    forall i | 0 <= i < |lines| :: OneLine(lines[i])
  }

  lemma {:induction false} StripIsStripped(s: string)
    ensures Stripped(Strip(s))
    ensures |Strip(s)| <= |s|
  {
    LStripFacts(s);
    RStripFacts(LStrip(s));
  }

  lemma {:induction false} LStripFacts(s: string)
    ensures LStrip(s) != "" ==> !IsSpace(LStrip(s)[0])
    ensures |LStrip(s)| <= |s|
    decreases |s|
  {
    if s != "" && IsSpace(s[0]) { LStripFacts(s[1..]); }
  }

  lemma {:induction false} RStripFacts(s: string)
    ensures RStrip(s) != "" ==> !IsSpace(RStrip(s)[|RStrip(s)| - 1]) && RStrip(s)[0] == s[0]
    ensures |RStrip(s)| <= |s|
    decreases |s|
  {
    if s != "" && IsSpace(s[|s| - 1]) { RStripFacts(s[..|s| - 1]); }
  }

  lemma StripFixed(s: string)
    requires Stripped(s)
    ensures Strip(s) == s
  {
  }

  /** A trailing space, tab or line break makes no difference to the stripped text. */
  lemma {:induction false} StripTrailing(s: string, c: char)
    requires IsSpace(c)
    ensures Strip(s + [c]) == Strip(s)
    decreases |s|
  {
    var t := s + [c];
    if s == "" {
      assert t[1..] == "";
      assert LStrip(t) == LStrip("");
    } else if IsSpace(s[0]) {
      assert t[1..] == s[1..] + [c];
      StripTrailing(s[1..], c);
    } else {
      assert t[..|t| - 1] == s;
    }
  }

  lemma JoinAppend(lines: seq<string>, l: string)
    ensures Join(lines + [l]) == if lines == [] then l else Join(lines) + "\n" + l
  {
    assert (lines + [l])[..|lines|] == lines;
  }

  lemma SplitAppend(s: string, c: char)
    ensures var (done, last) := Split(s);
      Split(s + [c]) == if c == '\n' then (done + [last], "") else (done, last + [c])
  {
    assert (s + [c])[..|s|] == s;
  }

  lemma {:induction false} SplitAppendLine(s: string, l: string)
    requires OneLine(l)
    ensures Split(s + l) == (Split(s).0, Split(s).1 + l)
  {
    if l == "" {
      assert s + l == s && Split(s).1 + l == Split(s).1;
    } else {
      var k := |l| - 1;
      SplitAppendLine(s, l[..k]);
      SplitAppend(s + l[..k], l[k]);
      assert s + l[..k] + [l[k]] == s + l;
      assert l[..k] + [l[k]] == l;
      assert Split(s).1 + l[..k] + [l[k]] == Split(s).1 + l;
    }
  }

  /** Splitting a join gives the lines back, the last one still open. */
  lemma {:induction false} SplitJoin(lines: seq<string>)
    requires lines != [] && AllOneLine(lines)
    ensures Split(Join(lines)) == (lines[..|lines| - 1], lines[|lines| - 1])
  {
    var k := |lines| - 1;
    if k == 0 {
      SplitAppendLine("", lines[0]);
      assert "" + lines[0] == lines[0];
    } else {
      SplitJoin(lines[..k]);
      var head := Join(lines[..k]);
      SplitAppend(head, '\n');
      SplitAppendLine(head + "\n", lines[k]);
      assert head + "\n" + lines[k] == Join(lines);
      assert lines[..k][..k - 1] + [lines[..k][k - 1]] == lines[..k];
      assert "" + lines[k] == lines[k];
    }
  }

  /** Lines of a join: all of them, but for a last one that is empty. */
  lemma LinesJoin(lines: seq<string>)
    requires lines != [] && AllOneLine(lines)
    ensures Lines(Join(lines)) == if lines[|lines| - 1] == "" then lines[..|lines| - 1] else lines
    ensures Lines(Join(lines) + "\n") == lines
  {
    hide Join, Split, AllOneLine;
    var k, text := |lines| - 1, Join(lines);
    SplitJoin(lines);
    assert Split(text) == (lines[..k], lines[k]);
    SplitAppend(text, '\n');
    assert lines[..k] + [lines[k]] == lines;
    assert text + "\n" == text + ['\n'];
    assert Split(text + "\n") == (lines, "");
  }

  lemma {:induction false} SplitLinesAreLines(s: string)
    ensures AllOneLine(Split(s).0) && OneLine(Split(s).1)
  {
    if s != "" { SplitLinesAreLines(s[..|s| - 1]); }
  }

  lemma LinesAreLines(s: string)
    ensures AllOneLine(Lines(s))
  {
    SplitLinesAreLines(s);
  }

  lemma {:induction false} JoinSplit(s: string)
    ensures Join(Split(s).0 + [Split(s).1]) == s
  {
    if s == "" {
      assert [] + [""] == [""];
    } else {
      var k := |s| - 1;
      var (done, last) := Split(s[..k]);
      JoinSplit(s[..k]);
      assert s == s[..k] + [s[k]];
      JoinAppend(done + [last], "");
      JoinAppend(done, last);
      JoinAppend(done, last + [s[k]]);
    }
  }

  /** Text that does not end in a line break is the join of its lines. */
  lemma JoinLines(s: string)
    requires s != "" ==> s[|s| - 1] != '\n'
    ensures Join(Lines(s)) == s
  {
    JoinSplit(s);
    if s != "" {
      SplitAppend(s[..|s| - 1], s[|s| - 1]);
      assert s[..|s| - 1] + [s[|s| - 1]] == s;
    }
  }
}
