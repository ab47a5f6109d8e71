/**
 Single edits and the all-or-nothing batch patch over files. Paths are taken as
 resolved; a path that is not a key names no regular file.
 */
module Patch {
  import opened Prelude
  import opened Text

  datatype File = Readable(text: string) | Binary | Denied

  type Files = map<string, File>

  datatype Code = BadParams | NotFound | BinaryFile | PermissionDenied | NoMatch | NotUnique

  // ── Occurrences ─────────────────────────────────────────────────────────

  predicate OccursAt(text: string, pat: string, i: nat) {
    i + |pat| <= |text| && text[i..i + |pat|] == pat
  }

  /** The first occurrence at or after `from`. */
  function Find(text: string, pat: string, from: nat): (r: Option<nat>)
    ensures r.Some? ==> from <= r.value && OccursAt(text, pat, r.value) && forall i: nat | from <= i < r.value :: !OccursAt(text, pat, i)
    ensures r.None? ==> forall i: nat | from <= i :: !OccursAt(text, pat, i)
    decreases |text| + 1 - from
  {
    if from + |pat| > |text| then None
    else if OccursAt(text, pat, from) then Some(from)
    else Find(text, pat, from + 1)
  }

  /** Occurrences counted from the left without overlap. */
  function CountFrom(text: string, pat: string, from: nat): nat
    requires pat != ""
    decreases |text| + 1 - from
  {
    var at := Find(text, pat, from);
    if at.None? then 0 else 1 + CountFrom(text, pat, at.value + |pat|)
  }

  /** `str.count`: an empty pattern fits between all characters and at both ends. */
  function Count(text: string, pat: string): nat {
    if pat == "" then |text| + 1 else CountFrom(text, pat, 0)
  }

  /** `str.replace(old, new, 1)`. */
  function ReplaceFirst(text: string, pat: string, repl: string): string {
    var at := Find(text, pat, 0);
    if at.None? then text else text[..at.value] + repl + text[at.value + |pat|..]
  }

  /** The count is zero exactly when the pattern does not occur. */
  lemma CountZeroIff(text: string, pat: string)
    requires pat != ""
    ensures Count(text, pat) == 0 <==> forall i: nat :: !OccursAt(text, pat, i)
  {
    var at := Find(text, pat, 0);
    if at.Some? {
      assert OccursAt(text, pat, at.value);
    }
  }

  predicate LeftmostAt(text: string, pat: string, i: nat) {
    OccursAt(text, pat, i) && forall j: nat | j < i :: !OccursAt(text, pat, j)
  }

  lemma FindIsLeftmost(text: string, pat: string, i: nat)
    ensures Find(text, pat, 0) == Some(i) <==> LeftmostAt(text, pat, i)
  {
  }

  /**
   The count is one exactly when the pattern occurs and no occurrence starts past
   the end of the leftmost one; overlapping repeats of the leftmost are not seen.
   */
  lemma CountOneIff(text: string, pat: string)
    requires pat != ""
    ensures Count(text, pat) == 1 <==>
      exists i: nat :: LeftmostAt(text, pat, i) && forall j: nat | i + |pat| <= j :: !OccursAt(text, pat, j)
  {
    var at := Find(text, pat, 0);
    if at.Some? {
      FindIsLeftmost(text, pat, at.value);
      var next := Find(text, pat, at.value + |pat|);
      forall i: nat | LeftmostAt(text, pat, i) ensures i == at.value {
        FindIsLeftmost(text, pat, i);
      }
      if next.Some? {
        assert CountFrom(text, pat, at.value + |pat|) >= 1;
        assert Count(text, pat) == 1 + CountFrom(text, pat, at.value + |pat|);
        assert OccursAt(text, pat, next.value);
      } else {
        assert CountFrom(text, pat, at.value + |pat|) == 0;
        assert Count(text, pat) == 1;
        assert LeftmostAt(text, pat, at.value) && forall j: nat | at.value + |pat| <= j :: !OccursAt(text, pat, j);
      }
    }
  }

  /** Replacing changes the text at the leftmost occurrence and nowhere else. */
  lemma ReplacesLeftmost(text: string, pat: string, repl: string, i: nat)
    requires LeftmostAt(text, pat, i)
    ensures ReplaceFirst(text, pat, repl) == text[..i] + repl + text[i + |pat|..]
  {
    FindIsLeftmost(text, pat, i);
  }

  // ── One edit ────────────────────────────────────────────────────────────

  predicate Blank(s: string) {
    Strip(s) == ""
  }

  /** What editing one text comes to. */
  function EditText(text: string, pat: string, repl: string): Result<string, Code> {
    if Count(text, pat) == 0 then Err(NoMatch)
    else if Count(text, pat) > 1 then Err(NotUnique)
    else Ok(ReplaceFirst(text, pat, repl))
  }

  function ReadFile(files: Files, path: string): Result<string, Code> {
    if path !in files then Err(NotFound)
    else match files[path]
      case Readable(text) => Ok(text)
      case Binary => Err(BinaryFile)
      case Denied => Err(PermissionDenied)
  }

  /** The files after `handle_edit`, or its error. */
  function Edit(files: Files, path: string, pat: string, repl: Option<string>): Result<Files, Code> {
    if Blank(path) || Blank(pat) || repl.None? then Err(BadParams)
    else
      var text := ReadFile(files, path);
      if text.Err? then Err(text.error)
      else
        var edited := EditText(text.value, pat, repl.value);
        if edited.Err? then Err(edited.error) else Ok(files[path := Readable(edited.value)])
  }

  // ── The batch ───────────────────────────────────────────────────────────

  /** A hunk's field as JSON delivers it. */
  datatype Field = Absent | NotString | Str(s: string)

  /** A path: missing, null, or a value with the text `str()` gives it. */
  datatype PathArg = NoPath | NullPath | Named(s: string)

  datatype Hunk = NotObject | Hunk(path: PathArg, oldStr: Field, newStr: Field)

  predicate HunkOk(h: Hunk) {
    h.Hunk? && !h.path.NoPath? && h.oldStr.Str? && h.newStr.Str?
  }

  /** The batch takes `str()` of whatever path it is given; an edit refuses null. */
  function PathOf(h: Hunk): string
    requires HunkOk(h)
  {
    if h.path.NullPath? then "None" else h.path.s
  }

  type Cache = map<string, string>

  /** Pre-flighting one hunk against the in-memory copies. */
  function Preflight(files: Files, cache: Cache, h: Hunk): Result<Cache, Code> {
    if !HunkOk(h) then Err(BadParams)
    else
      var text := if PathOf(h) in cache then Ok(cache[PathOf(h)]) else ReadFile(files, PathOf(h));
      if text.Err? then Err(text.error)
      else
        var edited := EditText(text.value, h.oldStr.s, h.newStr.s);
        if edited.Err? then Err(edited.error) else Ok(cache[PathOf(h) := edited.value])
  }

  /** All hunks pre-flighted, or the first failure with its index. */
  function PreflightAll(files: Files, hunks: seq<Hunk>): Result<Cache, (nat, Code)> {
    if hunks == [] then Ok(map[])
    else
      var n := |hunks| - 1;
      var before := PreflightAll(files, hunks[..n]);
      if before.Err? then before
      else
        var r := Preflight(files, before.value, hunks[n]);
        if r.Err? then Err((n, r.error)) else Ok(r.value)
  }

  /** Files with some contents replaced. */
  function Overlay(files: Files, cache: Cache): Files {
    files + map k | k in cache :: Readable(cache[k])
  }

  function ApplyPatch(files: Files, hunks: seq<Hunk>): Result<Files, (nat, Code)> {
    if hunks == [] then Err((0, BadParams))
    else
      var r := PreflightAll(files, hunks);
      if r.Err? then Err(r.error) else Ok(Overlay(files, r.value))
  }

  /** One hunk as a single edit; an edit rejects the parameters of a malformed hunk. */
  function EditHunk(files: Files, h: Hunk): Result<Files, Code> {
    if !HunkOk(h) || h.path.NullPath? then Err(BadParams) else Edit(files, PathOf(h), h.oldStr.s, Some(h.newStr.s))
  }

  /** Editing hunk by hunk, each edit on the files the last one left; the first failure stops it. */
  function EditInTurn(files: Files, hunks: seq<Hunk>): Result<Files, (nat, Code)> {
    if hunks == [] then Ok(files)
    else
      var n := |hunks| - 1;
      var before := EditInTurn(files, hunks[..n]);
      if before.Err? then before
      else
        var r := EditHunk(before.value, hunks[n]);
        if r.Err? then Err((n, r.error)) else Ok(r.value)
  }

  /** A well-formed hunk that an edit would not take: its path is null or blank, or its pattern is blank. */
  predicate BlankHunk(h: Hunk) {
    HunkOk(h) && (h.path.NullPath? || Blank(PathOf(h)) || Blank(h.oldStr.s))
  }

  /** The in-memory copies are of readable files. */
  predicate CacheFits(files: Files, cache: Cache) {
    forall k | k in cache :: k in files && files[k].Readable?
  }

  lemma PreflightIsEdit(files: Files, cache: Cache, h: Hunk)
    requires CacheFits(files, cache) && !BlankHunk(h)
    ensures var p, e := Preflight(files, cache, h), EditHunk(Overlay(files, cache), h);
      && (p.Ok? <==> e.Ok?)
      && (p.Err? && e.Err? ==> p.error == e.error)
      && (p.Ok? && e.Ok? ==> CacheFits(files, p.value) && Overlay(files, p.value) == e.value)
  {
    hide Blank, Count, ReplaceFirst;
    if HunkOk(h) {
      var path, over := PathOf(h), Overlay(files, cache);
      assert path in cache ==> over[path] == Readable(cache[path]);
      assert path !in cache ==> ReadFile(over, path) == ReadFile(files, path);
      var p := Preflight(files, cache, h);
      if p.Ok? {
        assert Overlay(files, p.value) == over[path := Readable(p.value[path])];
      }
    }
  }

  /** A blank hunk that is reached parts the two: the edit says bad parameters, the batch never does. */
  lemma BlankHunkParts(files: Files, cache: Cache, h: Hunk)
    requires BlankHunk(h)
    ensures EditHunk(Overlay(files, cache), h) == Err(BadParams)
    ensures Preflight(files, cache, h) != Err(BadParams)
  {
  }

  /** No blank hunk is reached. */
  ghost predicate BlanksUnreached(files: Files, hunks: seq<Hunk>) {
    forall i | 0 <= i < |hunks| && BlankHunk(hunks[i]) :: PreflightAll(files, hunks[..i]).Err?
  }

  lemma BlanksUnreachedPrefix(files: Files, hunks: seq<Hunk>)
    requires hunks != []
    ensures var n := |hunks| - 1;
      BlanksUnreached(files, hunks) <==>
        BlanksUnreached(files, hunks[..n]) && (BlankHunk(hunks[n]) ==> PreflightAll(files, hunks[..n]).Err?)
  {
    var n := |hunks| - 1;
    assert forall i | 0 <= i < n :: hunks[..n][i] == hunks[i] && hunks[..n][..i] == hunks[..i];
  }

  /** The pre-flight and the edits tell the same story. */
  ghost predicate SameStory(files: Files, hunks: seq<Hunk>) {
    var p, e := PreflightAll(files, hunks), EditInTurn(files, hunks);
    && (p.Ok? <==> e.Ok?)
    && (p.Err? && e.Err? ==> p.error == e.error)
    && (p.Ok? && e.Ok? ==> CacheFits(files, p.value) && Overlay(files, p.value) == e.value)
  }

  lemma {:induction false} UnreachedTellSameStory(files: Files, hunks: seq<Hunk>)
    requires BlanksUnreached(files, hunks)
    ensures SameStory(files, hunks)
    decreases |hunks|
  {
    if hunks != [] {
      var n := |hunks| - 1;
      BlanksUnreachedPrefix(files, hunks);
      UnreachedTellSameStory(files, hunks[..n]);
      var before := PreflightAll(files, hunks[..n]);
      if before.Ok? {
        PreflightIsEdit(files, before.value, hunks[n]);
      }
    } else {
      assert Overlay(files, map[]) == files;
    }
  }

  /** Once a blank hunk is reached, the edits have failed there and the batch has not. */
  lemma {:induction false} ReachedPartsForGood(files: Files, hunks: seq<Hunk>)
    requires !BlanksUnreached(files, hunks)
    ensures EditInTurn(files, hunks).Err?
    ensures PreflightAll(files, hunks).Err? ==> PreflightAll(files, hunks).error != EditInTurn(files, hunks).error
    ensures EditInTurn(files, hunks).error.0 < |hunks|
    decreases |hunks|
  {
    var n := |hunks| - 1;
    BlanksUnreachedPrefix(files, hunks);
    if BlanksUnreached(files, hunks[..n]) {
      UnreachedTellSameStory(files, hunks[..n]);
      BlankHunkParts(files, PreflightAll(files, hunks[..n]).value, hunks[n]);
    } else {
      ReachedPartsForGood(files, hunks[..n]);
    }
  }

  /**
   The batch does what editing hunk by hunk does (on success the same files, on
   failure the first failing edit's index and code) if and only if there is a
   hunk at all and none with a null or blank path or a blank pattern is reached.
   */
  lemma PatchRefinesEditsIff(files: Files, hunks: seq<Hunk>)
    ensures ApplyPatch(files, hunks) == EditInTurn(files, hunks) <==> hunks != [] && BlanksUnreached(files, hunks)
  {
    if hunks != [] {
      if BlanksUnreached(files, hunks) {
        UnreachedTellSameStory(files, hunks);
      } else {
        ReachedPartsForGood(files, hunks);
      }
    }
  }

  /** A blank pattern, which a single edit never takes, patches a file exactly when it occurs once there: an empty one in an empty file. */
  lemma BlankPatternPatchesIff(files: Files, path: string, pat: string, repl: string)
    requires Blank(pat)
    ensures Edit(files, path, pat, Some(repl)) == Err(BadParams)
    ensures ApplyPatch(files, [Hunk(Named(path), Str(pat), Str(repl))]).Ok? <==>
      path in files && files[path].Readable? && Count(files[path].text, pat) == 1
    ensures path in files && files[path].Readable? && pat == "" ==> (Count(files[path].text, pat) == 1 <==> files[path].text == "")
  {
    var h := Hunk(Named(path), Str(pat), Str(repl));
    assert [h][..0] == [];
    assert PreflightAll(files, [h][..0]) == Ok(map[]);
  }

  /** A space between two letters is such a pattern. */
  lemma SpacePartsBatchFromEdit()
    ensures var files := map["f" := Readable("a b")];
      && Edit(files, "f", " ", Some("-")) == Err(BadParams)
      && ApplyPatch(files, [Hunk(Named("f"), Str(" "), Str("-"))]).Ok?
  {
    var files := map["f" := Readable("a b")];
    BlankPatternPatchesIff(files, "f", " ", "-");
    assert "a b"[1..2] == " " && "a b"[0] != ' ' && "a b"[2] != ' ';
    assert OccursAt("a b", " ", 1) && forall j: nat | j != 1 :: !OccursAt("a b", " ", j);
    CountOneIff("a b", " ");
  }

  // ── The handlers ────────────────────────────────────────────────────────

  class FileTools {
    var files: Files

    constructor (files: Files)
      ensures this.files == files
    {
      this.files := files;
    }

    method HandleEdit(path: string, pat: string, repl: Option<string>) returns (r: Result<string, Code>)
      modifies this
      ensures r.Ok? <==> Edit(old(files), path, pat, repl).Ok?
      ensures r.Ok? ==> files == Edit(old(files), path, pat, repl).value
      ensures r.Err? ==> files == old(files) && r.error == Edit(old(files), path, pat, repl).error
    {
      if Blank(path) || Blank(pat) || repl.None? {
        return Err(BadParams);
      }
      if path !in files {
        return Err(NotFound);
      }
      match files[path] {
        case Binary => return Err(BinaryFile);
        case Denied => return Err(PermissionDenied);
        case Readable(text) =>
          var count := Count(text, pat);
          if count == 0 {
            return Err(NoMatch);
          }
          if count > 1 {
            return Err(NotUnique);
          }
          files := files[path := Readable(ReplaceFirst(text, pat, repl.value))];
          return Ok("edited " + path);
      }
    }

    /** One hunk against the in-memory copies, reading a file at its first touch. */
    method PreflightHunk(cache: Cache, h: Hunk) returns (r: Result<Cache, Code>)
      ensures r == Preflight(files, cache, h)
    {
      if !HunkOk(h) {
        return Err(BadParams);
      }
      var key, cache' := PathOf(h), cache;
      if key !in cache {
        if key !in files {
          return Err(NotFound);
        }
        match files[key] {
          case Binary => return Err(BinaryFile);
          case Denied => return Err(PermissionDenied);
          case Readable(text) => cache' := cache[key := text];
        }
      }
      var text := cache'[key];
      var count := Count(text, h.oldStr.s);
      if count == 0 {
        return Err(NoMatch);
      }
      if count > 1 {
        return Err(NotUnique);
      }
      cache' := cache'[key := ReplaceFirst(text, h.oldStr.s, h.newStr.s)];
      assert cache' == cache[key := cache'[key]];
      return Ok(cache');
    }

    /** Pre-flight in memory, then write every touched file. */
    method HandleApplyPatch(hunks: seq<Hunk>) returns (r: Result<(nat, nat), (nat, Code)>)
      modifies this
      ensures r.Ok? <==> ApplyPatch(old(files), hunks).Ok?
      ensures r.Ok? ==> files == ApplyPatch(old(files), hunks).value && r.value == (|hunks|, |Touched(hunks)|)
      ensures r.Err? ==> files == old(files) && r.error == ApplyPatch(old(files), hunks).error
    {
      if hunks == [] {
        return Err((0, BadParams));
      }
      var cache: Cache := map[];
      for i := 0 to |hunks|
        invariant files == old(files)
        invariant PreflightAll(files, hunks[..i]) == Ok(cache)
        invariant cache.Keys == Touched(hunks[..i])
      {
        PreflightMore(files, hunks, i);
        var p := PreflightHunk(cache, hunks[i]);
        if p.Err? {
          return Err((i, p.error));
        }
        cache := p.value;
      }
      assert hunks[..|hunks|] == hunks;
      WriteAll(cache);
      return Ok((|hunks|, |cache.Keys|));
    }

    method WriteAll(cache: Cache)
      modifies this
      ensures files == Overlay(old(files), cache)
    {
      var todo := cache.Keys;
      while todo != {}
        invariant todo <= cache.Keys
        invariant files.Keys == old(files).Keys + (cache.Keys - todo)
        invariant forall k | k in files :: files[k] == if k in cache && k !in todo then Readable(cache[k]) else old(files)[k]
      {
        var key :| key in todo;
        files := files[key := Readable(cache[key])];
        todo := todo - {key};
      }
    }
  }

  function Touched(hunks: seq<Hunk>): set<string> {
    set i | 0 <= i < |hunks| && HunkOk(hunks[i]) :: PathOf(hunks[i])
  }

  /** One more hunk decides either the next copies or, with its index, the whole batch. */
  lemma PreflightMore(files: Files, hunks: seq<Hunk>, i: nat)
    requires i < |hunks| && PreflightAll(files, hunks[..i]).Ok?
    ensures var p := Preflight(files, PreflightAll(files, hunks[..i]).value, hunks[i]);
      && (p.Ok? ==> PreflightAll(files, hunks[..i + 1]) == Ok(p.value))
      && (p.Err? ==> PreflightAll(files, hunks) == Err((i, p.error)))
    ensures Touched(hunks[..i + 1]) == Touched(hunks[..i]) + if HunkOk(hunks[i]) then {PathOf(hunks[i])} else {}
  {
    assert hunks[..i + 1][..i] == hunks[..i];
    var p := Preflight(files, PreflightAll(files, hunks[..i]).value, hunks[i]);
    if p.Err? {
      FailureStands(files, hunks, i + 1);
    }
    TouchedMore(hunks[..i], hunks[i]);
    assert hunks[..i + 1] == hunks[..i] + [hunks[i]];
  }

  lemma TouchedMore(hunks: seq<Hunk>, h: Hunk)
    ensures Touched(hunks + [h]) == Touched(hunks) + if HunkOk(h) then {PathOf(h)} else {}
  {
    var all := hunks + [h];
    forall p | p in Touched(hunks) ensures p in Touched(all) {
      var i :| 0 <= i < |hunks| && HunkOk(hunks[i]) && PathOf(hunks[i]) == p;
      assert all[i] == hunks[i];
    }
    assert all[|hunks|] == h;
  }

  /** Once a prefix has failed, the batch has failed the same way. */
  lemma {:induction false} FailureStands(files: Files, hunks: seq<Hunk>, k: nat)
    requires k <= |hunks| && PreflightAll(files, hunks[..k]).Err?
    ensures PreflightAll(files, hunks) == PreflightAll(files, hunks[..k])
    decreases |hunks|
  {
    if k == |hunks| {
      assert hunks[..k] == hunks;
    } else {
      var n := |hunks| - 1;
      assert hunks[..n][..k] == hunks[..k];
      FailureStands(files, hunks[..n], k);
    }
  }
}
