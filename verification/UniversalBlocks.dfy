/**
 The universal-block file: a parser of marked blocks and a writer that replaces
 one block's body in the file's text.
 */
module UniversalBlocks {
  import opened Prelude
  import opened Text

  const OPENING := "<!-- @@ "
  const CLOSING := " @@ -->"

  predicate IsWord(c: char) {
    'a' <= c <= 'z' || 'A' <= c <= 'Z' || '0' <= c <= '9' || c == '_'
  }

  /** The key of a marker line. */
  function MarkerKey(line: string): (key: Option<string>)
    ensures key.Some? ==> |line| >= 16
  {
    if |line| < 16 || line[..8] != OPENING || line[|line| - 7..] != CLOSING then None
    else
      var mid := line[8..|line| - 7];
      if forall i | 0 <= i < |mid| :: IsWord(mid[i]) then Some(mid) else None
  }

  predicate NoMarkers(lines: seq<string>) {
    forall i | 0 <= i < |lines| :: MarkerKey(lines[i]).None?
  }

  /** The markers of a file in order. */
  function Markers(lines: seq<string>): seq<string> {
    if lines == [] then []
    else
      var k := MarkerKey(lines[|lines| - 1]);
      Markers(lines[..|lines| - 1]) + if k.Some? then [k.value] else []
  }

  predicate DistinctMarkers(lines: seq<string>) {
    forall i, j | 0 <= i < j < |lines| && MarkerKey(lines[i]).Some? :: MarkerKey(lines[i]) != MarkerKey(lines[j])
  }

  // ── Parsing ─────────────────────────────────────────────────────────────

  datatype Scan = Scan(blocks: map<string, seq<string>>, key: Option<string>)

  const START := Scan(map[], None)

  function Step(st: Scan, line: string): Scan {
    var marker := MarkerKey(line);
    if marker.Some? then Scan(st.blocks[marker.value := []], marker)
    else if st.key.Some? && st.key.value in st.blocks then
      st.(blocks := st.blocks[st.key.value := st.blocks[st.key.value] + [line]])
    else st
  }

  function ScanFrom(st: Scan, lines: seq<string>): Scan {
    if lines == [] then st else Step(ScanFrom(st, lines[..|lines| - 1]), lines[|lines| - 1])
  }

  function Bodies(st: Scan): map<string, string> {
    map k | k in st.blocks :: Strip(Join(st.blocks[k]))
  }

  function ParseLines(lines: seq<string>): map<string, string> {
    Bodies(ScanFrom(START, lines))
  }

  function Parse(text: string): map<string, string> {
    ParseLines(Lines(text))
  }

  method RenderUniversal(text: string) returns (bodies: map<string, string>)
    ensures bodies == Parse(text)
  {
    var lines := Lines(text);
    var blocks: map<string, seq<string>> := map[];
    var key: Option<string> := None;
    for i := 0 to |lines|
      invariant Scan(blocks, key) == ScanFrom(START, lines[..i])
      invariant key.Some? ==> key.value in blocks
    {
      assert lines[..i + 1][..i] == lines[..i];
      var marker := MarkerKey(lines[i]);
      if marker.Some? {
        key := marker;
        blocks := blocks[key.value := []];
      } else if key.Some? {
        blocks := blocks[key.value := blocks[key.value] + [lines[i]]];
      }
    }
    assert lines[..|lines|] == lines;
    return map k | k in blocks :: Strip(Join(blocks[k]));
  }

  // ── Writing ─────────────────────────────────────────────────────────────

  /** The writer's search: the key's marker, and the next marker of another key or the end. */
  function Find(lines: seq<string>, key: string, i: nat, target: Option<nat>): (Option<nat>, nat)
    requires i <= |lines|
    decreases |lines| - i
  {
    if i == |lines| then (target, |lines|)
    else
      var m := MarkerKey(lines[i]);
      if m == Some(key) then Find(lines, key, i + 1, Some(i))
      else if m.Some? && target.Some? then (target, i)
      else Find(lines, key, i + 1, target)
  }

  lemma {:induction false} FindIsBlock(lines: seq<string>, key: string, i: nat, target: Option<nat>)
    requires i <= |lines|
    requires target.Some? ==>
      && target.value < i && MarkerKey(lines[target.value]) == Some(key)
      && forall j | target.value < j < i :: MarkerKey(lines[j]).None?
    requires target.None? ==> forall j | 0 <= j < i :: MarkerKey(lines[j]) != Some(key)
    ensures var (t, next) := Find(lines, key, i, target);
      && (t.None? <==> forall j | 0 <= j < |lines| :: MarkerKey(lines[j]) != Some(key))
      && (t.Some? ==> IsBlock(lines, key, t.value, next))
    decreases |lines| - i
  {
    if i < |lines| {
      var m := MarkerKey(lines[i]);
      if m == Some(key) {
        FindIsBlock(lines, key, i + 1, Some(i));
      } else if !(m.Some? && target.Some?) {
        FindIsBlock(lines, key, i + 1, target);
      }
    }
  }

  predicate IsBlock(lines: seq<string>, key: string, target: nat, next: nat) {
    && target < next <= |lines|
    && MarkerKey(lines[target]) == Some(key)
    && NoMarkers(lines[target + 1..next])
    && (next < |lines| ==> MarkerKey(lines[next]).Some? && MarkerKey(lines[next]) != Some(key))
  }

  function Rebuilt(lines: seq<string>, target: nat, next: nat, body: string): seq<string>
    requires target < next <= |lines|
  {
    lines[..target + 1] + Lines(Strip(body)) + (if next < |lines| then [""] else []) + lines[next..]
  }

  predicate EndsLine(s: string) {
    s != "" && s[|s| - 1] == '\n'
  }

  /** The file's text after a write; `Err` is the ValueError for an unknown block. */
  function Write(text: string, key: string, body: string): (r: Result<string, string>)
    ensures r.Ok? <==> exists i :: 0 <= i < |Lines(text)| && MarkerKey(Lines(text)[i]) == Some(key)
  {
    var lines := Lines(text);
    FindIsBlock(lines, key, 0, None);
    var (target, next) := Find(lines, key, 0, None);
    if target.None? then Err("unknown universal block: " + key)
    else
      var out := Join(Rebuilt(lines, target.value, next, body));
      Ok(if EndsLine(text) && !EndsLine(out) then out + "\n" else out)
  }

  method WriteUniversalBlock(text: string, key: string, body: string) returns (r: Result<string, string>)
    ensures r == Write(text, key, body)
  {
    var lines := Lines(text);
    var target: Option<nat> := None;
    var next, i := |lines|, 0;
    FindIsBlock(lines, key, 0, None);
    while i < |lines|
      invariant i <= |lines|
      invariant next == |lines|
      invariant Find(lines, key, 0, None) == Find(lines, key, i, target)
      invariant target.Some? ==> target.value < |lines|
    {
      var m := MarkerKey(lines[i]);
      if m == Some(key) {
        target := Some(i);
      } else if m.Some? && target.Some? {
        next := i;
        break;
      }
      i := i + 1;
    }
    assert Find(lines, key, 0, None) == (target, next);
    if target.None? {
      return Err("unknown universal block: " + key);
    }
    var body' := Strip(body);
    var rebuilt := lines[..target.value + 1] + (if body' != "" then Lines(body') else [])
      + (if next < |lines| then [""] else []) + lines[next..];
    assert rebuilt == Rebuilt(lines, target.value, next, body);
    var out := Join(rebuilt);
    if EndsLine(text) && !EndsLine(out) {
      out := out + "\n";
    }
    return Ok(out);
  }

  // ── Scanning pieces of a file ───────────────────────────────────────────

  lemma {:induction false} ScanConcat(st: Scan, a: seq<string>, b: seq<string>)
    ensures ScanFrom(st, a + b) == ScanFrom(ScanFrom(st, a), b)
  {
    if b == [] {
      assert a + b == a;
    } else {
      ScanConcat(st, a, b[..|b| - 1]);
      assert (a + b)[..|a + b| - 1] == a + b[..|b| - 1];
    }
  }

  lemma {:induction false} ScanBody(st: Scan, lines: seq<string>, key: string)
    requires NoMarkers(lines) && st.key == Some(key) && key in st.blocks
    ensures ScanFrom(st, lines) == st.(blocks := st.blocks[key := st.blocks[key] + lines])
  {
    if lines == [] {
      assert st.blocks[key] + lines == st.blocks[key];
    } else {
      var k := |lines| - 1;
      ScanBody(st, lines[..k], key);
      assert st.blocks[key] + lines == st.blocks[key] + lines[..k] + [lines[k]];
    }
  }

  predicate Avoids(lines: seq<string>, key: string) {
    forall i | 0 <= i < |lines| :: MarkerKey(lines[i]) != Some(key)
  }

  /** Scanning elsewhere neither reads nor writes a block that is not open. */
  lemma {:induction false} ScanFrame(st: Scan, lines: seq<string>, key: string, content: seq<string>)
    requires st.key != Some(key) && key in st.blocks && Avoids(lines, key)
    ensures var out := ScanFrom(st, lines);
      && out.key != Some(key)
      && key in out.blocks && out.blocks[key] == st.blocks[key]
      && ScanFrom(st.(blocks := st.blocks[key := content]), lines) == out.(blocks := out.blocks[key := content])
  {
    if lines != [] {
      var k := |lines| - 1;
      ScanFrame(st, lines[..k], key, content);
      var mid := ScanFrom(st, lines[..k]);
      assert Step(mid.(blocks := mid.blocks[key := content]), lines[k])
          == Step(mid, lines[k]).(blocks := Step(mid, lines[k]).blocks[key := content]);
    }
  }

  /** What follows a block, from its first marker on, is scanned alike whatever the block holds. */
  lemma ScanRest(st: Scan, rest: seq<string>, key: string, content: seq<string>)
    requires key in st.blocks && Avoids(rest, key)
    requires rest != [] ==> MarkerKey(rest[0]).Some?
    ensures key in ScanFrom(st, rest).blocks && ScanFrom(st, rest).blocks[key] == st.blocks[key]
    ensures ScanFrom(st.(blocks := st.blocks[key := content]), rest).blocks == ScanFrom(st, rest).blocks[key := content]
  {
    if rest != [] {
      var st' := st.(blocks := st.blocks[key := content]);
      assert rest == [rest[0]] + rest[1..];
      ScanConcat(st, [rest[0]], rest[1..]);
      ScanConcat(st', [rest[0]], rest[1..]);
      var first := Step(st, rest[0]);
      assert ScanFrom(st, [rest[0]]) == first;
      assert ScanFrom(st', [rest[0]]) == Step(st', rest[0]);
      assert Step(st', rest[0]).blocks == first.blocks[key := content];
      assert forall i | 0 <= i < |rest[1..]| :: rest[1..][i] == rest[i + 1];
      ScanFrame(first, rest[1..], key, content);
    }
  }

  /** `pre` leaves the block open and empty; `rest` starts with another marker and never reopens it. */
  ghost predicate Cut(pre: seq<string>, rest: seq<string>, key: string) {
    var st := ScanFrom(START, pre);
    && st.key == Some(key) && key in st.blocks && st.blocks[key] == []
    && Avoids(rest, key)
    && (rest != [] ==> MarkerKey(rest[0]).Some?)
  }

  lemma BlockIsCut(lines: seq<string>, key: string, target: nat, next: nat)
    requires DistinctMarkers(lines) && IsBlock(lines, key, target, next)
    ensures Cut(lines[..target + 1], lines[next..], key)
  {
    assert lines[..target + 1][..target] == lines[..target];
    forall i | 0 <= i < |lines[next..]| ensures MarkerKey(lines[next..][i]) != Some(key) {
      assert lines[next..][i] == lines[next + i];
    }
    assert next < |lines| ==> lines[next..][0] == lines[next];
  }

  /** Between the two, any marker-free lines become the block, and everything else is as without them. */
  lemma FillBlock(pre: seq<string>, content: seq<string>, rest: seq<string>, key: string)
    requires Cut(pre, rest, key) && NoMarkers(content)
    ensures ScanFrom(START, pre + content + rest).blocks == ScanFrom(ScanFrom(START, pre), rest).blocks[key := content]
  {
    var st := ScanFrom(START, pre);
    ScanConcat(START, pre + content, rest);
    ScanConcat(START, pre, content);
    ScanBody(st, content, key);
    assert [] + content == content;
    ScanRest(st, rest, key, content);
  }

  /** Replacing a block's lines by marker-free ones replaces that block in the scan, and nothing else. */
  lemma ReplaceBlock(pre: seq<string>, old': seq<string>, content: seq<string>, rest: seq<string>, key: string)
    requires Cut(pre, rest, key) && NoMarkers(old') && NoMarkers(content)
    ensures ScanFrom(START, pre + content + rest).blocks == ScanFrom(START, pre + old' + rest).blocks[key := content]
  {
    FillBlock(pre, old', rest, key);
    FillBlock(pre, content, rest, key);
  }

  /** A final empty line never shows in the parsed blocks. */
  lemma EmptyLastLine(lines: seq<string>)
    ensures ParseLines(lines + [""]) == ParseLines(lines)
  {
    assert (lines + [""])[..|lines|] == lines;
    var st := ScanFrom(START, lines);
    if st.key.Some? && st.key.value in st.blocks {
      var body := st.blocks[st.key.value];
      JoinAppend(body, "");
      if body != [] {
        assert Join(body) + "\n" + "" == Join(body) + ['\n'];
        StripTrailing(Join(body), '\n');
      }
    }
  }

  /** A written file's lines are the intended ones, but for a last one that is empty. */
  lemma RebuiltLines(lines: seq<string>, out: string)
    requires lines != [] && AllOneLine(lines)
    requires out == Join(lines) || out == Join(lines) + "\n"
    ensures Lines(out) == lines || Lines(out) + [""] == lines
  {
    LinesJoin(lines);
    assert lines[..|lines| - 1] + [lines[|lines| - 1]] == lines;
  }

  lemma RebuiltParses(lines: seq<string>, out: string)
    requires lines != [] && AllOneLine(lines)
    requires out == Join(lines) || out == Join(lines) + "\n"
    ensures Parse(out) == ParseLines(lines)
  {
    RebuiltLines(lines, out);
    EmptyLastLine(Lines(out));
  }

  /** The new lines of a block read back as the stripped body. */
  lemma BodyReadsBack(body: string)
    ensures Strip(Join(Lines(Strip(body)))) == Strip(body)
    ensures Strip(Join(Lines(Strip(body)) + [""])) == Strip(body)
    ensures AllOneLine(Lines(Strip(body)))
  {
    var b := Strip(body);
    StripIsStripped(body);
    JoinLines(b);
    LinesAreLines(b);
    StripFixed(b);
    JoinAppend(Lines(b), "");
    if Lines(b) != [] {
      assert b + "\n" + "" == b + ['\n'];
      StripTrailing(b, '\n');
    }
  }

  /** A write, piece by piece: the file around the block, the block's old lines and its new ones. */
  lemma WriteShape(text: string, key: string, body: string)
    returns (pre: seq<string>, old': seq<string>, content: seq<string>, rest: seq<string>)
    requires Write(text, key, body).Ok?
    ensures Lines(text) == pre + old' + rest && NoMarkers(old')
    ensures DistinctMarkers(Lines(text)) ==> Cut(pre, rest, key)
    ensures content == Lines(Strip(body)) || content == Lines(Strip(body)) + [""]
    ensures pre != [] && AllOneLine(pre + content + rest)
    ensures var out := Write(text, key, body).value;
      out == Join(pre + content + rest) || out == Join(pre + content + rest) + "\n"
  {
    var lines := Lines(text);
    var target, next := WriteTarget(text, key, body);
    pre, old', rest := lines[..target + 1], lines[target + 1..next], lines[next..];
    content := Lines(Strip(body)) + if next < |lines| then [""] else [];
    hide Lines, Strip, Join, Write, MarkerKey, NoMarkers, Cut, DistinctMarkers;
    RebuiltPieces(lines, target, next, body);
    if DistinctMarkers(lines) {
      BlockIsCut(lines, key, target, next);
    }
    RebuiltIsLines(text, target, next, body);
  }

  lemma RebuiltPieces(lines: seq<string>, target: nat, next: nat, body: string)
    requires target < next <= |lines|
    ensures lines == lines[..target + 1] + lines[target + 1..next] + lines[next..]
    ensures var content := Lines(Strip(body)) + if next < |lines| then [""] else [];
      && (content == Lines(Strip(body)) || content == Lines(Strip(body)) + [""])
      && Rebuilt(lines, target, next, body) == lines[..target + 1] + content + lines[next..]
  {
    hide Lines, Strip;
    assert Lines(Strip(body)) + [] == Lines(Strip(body));
  }

  lemma WriteTarget(text: string, key: string, body: string) returns (target: nat, next: nat)
    requires Write(text, key, body).Ok?
    ensures IsBlock(Lines(text), key, target, next)
    ensures var (out, all) := (Write(text, key, body).value, Join(Rebuilt(Lines(text), target, next, body)));
      out == all || out == all + "\n"
  {
    FindIsBlock(Lines(text), key, 0, None);
    var (t, n) := Find(Lines(text), key, 0, None);
    target, next := t.value, n;
  }

  lemma RebuiltIsLines(text: string, target: nat, next: nat, body: string)
    requires target < next <= |Lines(text)|
    ensures AllOneLine(Rebuilt(Lines(text), target, next, body))
  {
    LinesAreLines(text);
    LinesAreLines(Strip(body));
  }

  lemma BodiesUpdate(blocks: map<string, seq<string>>, key: string, content: seq<string>, k: Option<string>, k': Option<string>)
    ensures Bodies(Scan(blocks[key := content], k)) == Bodies(Scan(blocks, k'))[key := Strip(Join(content))]
  {
  }

  /**
   Writing a block and parsing the file gives the stripped body for that key and
   leaves every other parsed block as it was.
   */
  lemma WriteThenParse(text: string, key: string, body: string)
    requires DistinctMarkers(Lines(text)) && NoMarkers(Lines(Strip(body)))
    requires Write(text, key, body).Ok?
    ensures Parse(Write(text, key, body).value) == Parse(text)[key := Strip(body)]
  {
    var pre, old', content, rest := WriteShape(text, key, body);
    ReplaceBlock(pre, old', content, rest, key);
    RebuiltParses(pre + content + rest, Write(text, key, body).value);
    BodyReadsBack(body);
    var before, after := ScanFrom(START, pre + old' + rest), ScanFrom(START, pre + content + rest);
    BodiesUpdate(before.blocks, key, content, after.key, before.key);
  }

  // ── Markers survive a write ─────────────────────────────────────────────

  lemma {:induction false} MarkersConcat(a: seq<string>, b: seq<string>)
    ensures Markers(a + b) == Markers(a) + Markers(b)
  {
    if b == [] {
      assert a + b == a;
    } else {
      MarkersConcat(a, b[..|b| - 1]);
      assert (a + b)[..|a + b| - 1] == a + b[..|b| - 1];
    }
  }

  lemma {:induction false} MarkersOfBody(lines: seq<string>)
    requires NoMarkers(lines)
    ensures Markers(lines) == []
  {
    if lines != [] { MarkersOfBody(lines[..|lines| - 1]); }
  }

  predicate DistinctKeys(keys: seq<string>) {
    forall i, j | 0 <= i < j < |keys| :: keys[i] != keys[j]
  }

  lemma {:induction false} MarkersContain(lines: seq<string>, key: string)
    ensures key in Markers(lines) <==> exists i :: 0 <= i < |lines| && MarkerKey(lines[i]) == Some(key)
  {
    if lines != [] {
      var k := |lines| - 1;
      MarkersContain(lines[..k], key);
      assert lines == lines[..k] + [lines[k]];
      if MarkerKey(lines[k]) != Some(key) && exists i :: 0 <= i < |lines| && MarkerKey(lines[i]) == Some(key) {
        var i :| 0 <= i < |lines| && MarkerKey(lines[i]) == Some(key);
        assert lines[..k][i] == lines[i];
      }
    }
  }

  /** Adding a line keeps the markers distinct unless it repeats one of them. */
  lemma DistinctAppend(lines: seq<string>, l: string)
    ensures DistinctMarkers(lines + [l])
       <==> DistinctMarkers(lines) && (MarkerKey(l).Some? ==> MarkerKey(l).value !in Markers(lines))
  {
    var all := lines + [l];
    if MarkerKey(l).Some? {
      MarkersContain(lines, MarkerKey(l).value);
    }
    assert forall i | 0 <= i < |lines| :: all[i] == lines[i];
    assert all[|lines|] == l;
  }

  lemma DistinctKeysAppend(keys: seq<string>, k: string)
    ensures DistinctKeys(keys + [k]) <==> DistinctKeys(keys) && k !in keys
  {
    var all := keys + [k];
    assert forall i | 0 <= i < |keys| :: all[i] == keys[i];
    assert all[|keys|] == k;
  }

  lemma {:induction false} DistinctByMarkers(lines: seq<string>)
    ensures DistinctMarkers(lines) <==> DistinctKeys(Markers(lines))
  {
    if lines != [] {
      var k := |lines| - 1;
      DistinctByMarkers(lines[..k]);
      assert lines == lines[..k] + [lines[k]];
      DistinctAppend(lines[..k], lines[k]);
      if MarkerKey(lines[k]).Some? {
        assert Markers(lines) == Markers(lines[..k]) + [MarkerKey(lines[k]).value];
        DistinctKeysAppend(Markers(lines[..k]), MarkerKey(lines[k]).value);
      } else {
        assert Markers(lines) == Markers(lines[..k]);
      }
    }
  }

  /** A write keeps the file's markers, in order. */
  lemma WriteKeepsMarkers(text: string, key: string, body: string)
    requires NoMarkers(Lines(Strip(body))) && Write(text, key, body).Ok?
    ensures Markers(Lines(Write(text, key, body).value)) == Markers(Lines(text))
    ensures DistinctMarkers(Lines(text)) ==> DistinctMarkers(Lines(Write(text, key, body).value))
  {
    hide Markers, Lines, Strip, Write, DistinctMarkers, DistinctKeys;
    var pre, old', content, rest := WriteShape(text, key, body);
    var out := Write(text, key, body).value;
    MarkersAround(pre, old', rest);
    MarkersAround(pre, content, rest);
    RebuiltLines(pre + content + rest, out);
    MarkersConcat(Lines(out), [""]);
    MarkersOfBody([""]);
    DistinctByMarkers(Lines(text));
    DistinctByMarkers(Lines(out));
  }

  lemma MarkersAround(pre: seq<string>, content: seq<string>, rest: seq<string>)
    requires NoMarkers(content)
    ensures Markers(pre + content + rest) == Markers(pre) + Markers(rest)
  {
    MarkersConcat(pre + content, rest);
    MarkersConcat(pre, content);
    MarkersOfBody(content);
  }

  lemma KeyStaysWritable(text: string, key: string, body: string, other: string, otherBody: string)
    requires NoMarkers(Lines(Strip(body))) && Write(text, key, body).Ok?
    ensures Write(Write(text, key, body).value, other, otherBody).Ok? <==> Write(text, other, otherBody).Ok?
  {
    WriteKeepsMarkers(text, key, body);
    MarkersContain(Lines(text), other);
    MarkersContain(Lines(Write(text, key, body).value), other);
  }

  /** Writing the same body again changes no parsed block. */
  lemma WriteTwice(text: string, key: string, body: string)
    requires DistinctMarkers(Lines(text)) && NoMarkers(Lines(Strip(body))) && Write(text, key, body).Ok?
    ensures var once := Write(text, key, body).value;
      Write(once, key, body).Ok? && Parse(Write(once, key, body).value) == Parse(once)
  {
    KeyStaysWritable(text, key, body, key, body);
    WriteKeepsMarkers(text, key, body);
    WriteThenParse(text, key, body);
    WriteThenParse(Write(text, key, body).value, key, body);
  }

  /** Two writes in turn, to blocks of different keys. */
  lemma WriteBoth(text: string, a: string, aBody: string, b: string, bBody: string)
    requires DistinctMarkers(Lines(text))
    requires NoMarkers(Lines(Strip(aBody))) && NoMarkers(Lines(Strip(bBody)))
    requires Write(text, a, aBody).Ok? && Write(text, b, bBody).Ok?
    ensures var ab := Write(Write(text, a, aBody).value, b, bBody);
      ab.Ok? && Parse(ab.value) == Parse(text)[a := Strip(aBody)][b := Strip(bBody)]
  {
    KeyStaysWritable(text, a, aBody, b, bBody);
    WriteKeepsMarkers(text, a, aBody);
    WriteThenParse(text, a, aBody);
    WriteThenParse(Write(text, a, aBody).value, b, bBody);
  }

  /** Writes to different blocks commute at the parsed level. */
  lemma WritesCommute(text: string, a: string, aBody: string, b: string, bBody: string)
    requires DistinctMarkers(Lines(text)) && a != b
    requires NoMarkers(Lines(Strip(aBody))) && NoMarkers(Lines(Strip(bBody)))
    requires Write(text, a, aBody).Ok? && Write(text, b, bBody).Ok?
    ensures var ab, ba := Write(Write(text, a, aBody).value, b, bBody), Write(Write(text, b, bBody).value, a, aBody);
      ab.Ok? && ba.Ok? && Parse(ab.value) == Parse(ba.value)
  {
    WriteBoth(text, a, aBody, b, bBody);
    WriteBoth(text, b, bBody, a, aBody);
  }

  // ── A marker inside the body ────────────────────────────────────────────

  /** Characters of some lines, counting a line break for each. */
  function Weight(lines: seq<string>): nat {
    if lines == [] then 0 else Weight(lines[..|lines| - 1]) + |lines[|lines| - 1]| + 1
  }

  lemma WeightAppend(lines: seq<string>, l: string)
    ensures Weight(lines + [l]) == Weight(lines) + |l| + 1
  {
    assert (lines + [l])[..|lines|] == lines;
  }

  lemma {:induction false} JoinWeight(lines: seq<string>)
    ensures |Join(lines)| == if lines == [] then 0 else Weight(lines) - 1
  {
    if |lines| > 1 { JoinWeight(lines[..|lines| - 1]); }
    else if |lines| == 1 { assert Weight(lines[..0]) == 0; }
  }

  function HeldBy(st: Scan, key: string): nat {
    if key in st.blocks then Weight(st.blocks[key]) else 0
  }

  /** A block gains no more than the scanned lines weigh, and less when one of them is a marker. */
  lemma {:induction false} ScanWeight(st: Scan, lines: seq<string>, key: string)
    ensures HeldBy(ScanFrom(st, lines), key) <= HeldBy(st, key) + Weight(lines)
    ensures !NoMarkers(lines) ==> HeldBy(ScanFrom(st, lines), key) + 16 <= HeldBy(st, key) + Weight(lines)
  {
    if lines != [] {
      var k := |lines| - 1;
      var mid := ScanFrom(st, lines[..k]);
      ScanWeight(st, lines[..k], key);
      assert lines == lines[..k] + [lines[k]];
      if mid.key.Some? && mid.key.value in mid.blocks {
        WeightAppend(mid.blocks[mid.key.value], lines[k]);
      }
      if MarkerKey(lines[k]).None? && !NoMarkers(lines) {
        var i :| 0 <= i < |lines| && MarkerKey(lines[i]).Some?;
        assert lines[..k][i] == lines[i];
      }
    }
  }

  /**
   In a file with distinct markers, a written block reads back as its stripped
   body if and only if that body has no marker line of its own.
   */
  lemma ReadsBackIffNoMarker(text: string, key: string, body: string)
    requires DistinctMarkers(Lines(text)) && Write(text, key, body).Ok?
    ensures key in Parse(Write(text, key, body).value)
    ensures Parse(Write(text, key, body).value)[key] == Strip(body) <==> NoMarkers(Lines(Strip(body)))
  {
    if NoMarkers(Lines(Strip(body))) {
      WriteThenParse(text, key, body);
    } else {
      MarkedBodyShrinks(text, key, body);
    }
  }

  lemma {:induction false} KeysStay(st: Scan, lines: seq<string>, key: string)
    requires key in st.blocks
    ensures key in ScanFrom(st, lines).blocks
  {
    if lines != [] { KeysStay(st, lines[..|lines| - 1], key); }
  }

  lemma MarkedBodyShrinks(text: string, key: string, body: string)
    requires DistinctMarkers(Lines(text)) && Write(text, key, body).Ok? && !NoMarkers(Lines(Strip(body)))
    ensures var p := Parse(Write(text, key, body).value); key in p && |p[key]| < |Strip(body)|
  {
    var pre, old', content, rest := WriteShape(text, key, body);
    var b := Strip(body);
    RebuiltParses(pre + content + rest, Write(text, key, body).value);
    StripIsStripped(body);
    JoinLines(b);
    JoinWeight(Lines(b));
    WeightAppend(Lines(b), "");
    var i :| 0 <= i < |Lines(b)| && MarkerKey(Lines(b)[i]).Some?;
    assert content[i] == Lines(b)[i];
    FilledWeight(pre, content, rest, key);
  }

  /** A block filled with lines that include a marker keeps well less than their weight. */
  lemma FilledWeight(pre: seq<string>, content: seq<string>, rest: seq<string>, key: string)
    requires Cut(pre, rest, key) && !NoMarkers(content)
    ensures var p := ParseLines(pre + content + rest); key in p && |p[key]| + 16 <= Weight(content)
  {
    var st := ScanFrom(START, pre);
    var mid := ScanFrom(st, content);
    ScanConcat(START, pre + content, rest);
    ScanConcat(START, pre, content);
    KeysStay(st, content, key);
    ScanRest(mid, rest, key, mid.blocks[key]);
    ScanWeight(st, content, key);
    JoinWeight(mid.blocks[key]);
    StripIsStripped(Join(mid.blocks[key]));
  }
}
