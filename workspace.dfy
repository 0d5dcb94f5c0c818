/** The question folder the bot's file tools work on
    (src/pair_programming_voice_bot/workspace.py). The folder is a map from
    each regular file's path relative to the root, written with `/`, to its
    text; directories exist only as prefixes of those paths. A path is a
    list of segments; symbolic links are not modelled. */
module Workspace {
  import opened Wrappers
  import opened Text

  type Segments = seq<string>

  /** One segment of `root / relative_path` as `resolve()` reads it: empty
      and `.` segments vanish, `..` climbs one level (never above `/`). */
  function Climb(base: Segments, segment: string): Segments {
    if segment == "" || segment == "." then base
    else if segment == ".." then (if base == [] then [] else base[..|base| - 1])
    else base + [segment]
  }

  function Normalise(base: Segments, parts: seq<string>): Segments
    decreases |parts|
  {
    if parts == [] then base else Normalise(Climb(base, parts[0]), parts[1..])
  }

  /** `p` is the root or lies beneath it. */
  predicate Inside(root: Segments, p: Segments) {
    |root| <= |p| && p[..|root|] == root
  }

  /** `_resolve`: `root / relative_path`, normalised (an absolute path
      replaces the root), and refused unless it stays inside the root. */
  function Resolve(root: Segments, relativePath: string): (r: Result<Segments, string>)
    ensures r.Ok? ==> Inside(root, r.value)
    ensures r.Err? ==> r.error == "Path escapes workspace: " + relativePath
    ensures var start := if |relativePath| > 0 && relativePath[0] == '/' then [] else root;
      (r.Ok? <==> Inside(root, Normalise(start, SplitOn(relativePath, '/'))))
      && (r.Ok? ==> r.value == Normalise(start, SplitOn(relativePath, '/')))
  {
    var start := if |relativePath| > 0 && relativePath[0] == '/' then [] else root;
    var p := Normalise(start, SplitOn(relativePath, '/'));
    if p != root && !(|root| < |p| && p[..|root|] == root) then Err("Path escapes workspace: " + relativePath)
    else Ok(p)
  }

  /** The file-map key of a resolved path: its segments below the root joined by `/`. */
  function Key(root: Segments, p: Segments): string
    requires Inside(root, p)
  {
    JoinWith(p[|root|..], "/")
  }

  /** `read_description`'s file name for a level: `desc.md` up to level 1,
      `desc_level{level}.md` beyond it. */
  function DescriptionName(level: int): (name: string)
    ensures level <= 1 ==> name == "desc.md"
    ensures level > 1 ==> name == "desc_level" + IntToString(level) + ".md"
  {
    if level <= 1 then "desc.md" else "desc_level" + IntToString(level) + ".md"
  }

  // ------------------------------------------------------ str.count / replace

  /** Non-overlapping occurrences of a non-empty `sub` in `s` from `from` on,
      counted left to right as `str.count` does. */
  function CountFrom(s: string, sub: string, from: nat): nat
    requires sub != [] && from <= |s|
    decreases |s| - from
  {
    match FindFrom(s, sub, from)
    case None => 0
    case Some(k) => 1 + CountFrom(s, sub, k + |sub|)
  }

  /** `s.count(sub)`; the empty string occurs `len(s) + 1` times. */
  function Count(s: string, sub: string): nat {
    if sub == [] then |s| + 1 else CountFrom(s, sub, 0)
  }

  /** `s.replace(sub, rep, 1)`. */
  function ReplaceFirst(s: string, sub: string, rep: string): string {
    match FindFrom(s, sub, 0)
    case None => s
    case Some(k) => s[..k] + rep + s[k + |sub|..]
  }

  /** The message and the file map `apply_patch` leaves. */
  datatype PatchOutcome = PatchOutcome(message: Result<string, string>, files: map<string, string>)

  /** `apply_patch`: the file must exist and hold `old_text` exactly once;
      then that one occurrence is replaced. On any error no file changes. */
  function Patch(root: Segments, files: map<string, string>, filePath: string, oldText: string, newText: string): (p: PatchOutcome)
    ensures p.message.Err? ==> p.files == files
    ensures p.message.Ok? <==>
      (Resolve(root, filePath).Ok? && Key(root, Resolve(root, filePath).value) in files
       && Count(files[Key(root, Resolve(root, filePath).value)], oldText) == 1)
    ensures p.message.Ok? ==>
      var key := Key(root, Resolve(root, filePath).value);
      p.message.value == "Patched " + filePath + "."
      && p.files == files[key := ReplaceFirst(files[key], oldText, newText)]
  {
    match Resolve(root, filePath)
    case Err(e) => PatchOutcome(Err(e), files)
    case Ok(target) =>
      var key := Key(root, target);
      if key !in files then PatchOutcome(Err("File not found: " + filePath), files)
      else
        var content := files[key];
        var matches := Count(content, oldText);
        if matches != 1 then
          PatchOutcome(Err("Patch requires exactly one match in " + filePath + ", found " + IntToString(matches) + "."), files)
        else PatchOutcome(Ok("Patched " + filePath + "."), files[key := ReplaceFirst(content, oldText, newText)])
  }

  // ------------------------------------------------------------ ordering

  /** Strictly increasing in Python's string order, so also free of duplicates. */
  predicate Sorted(xs: seq<string>) {
    forall i, j :: 0 <= i < j < |xs| ==> LexLess(xs[i], xs[j])
  }

  /** `x` put in its place in a sorted list that does not hold it. */
  function Insert(xs: seq<string>, x: string): (r: seq<string>)
    requires Sorted(xs) && x !in xs
    ensures Sorted(r) && |r| == |xs| + 1
    ensures forall y :: y in r <==> y in xs || y == x
    decreases |xs|
  {
    if xs == [] then [x]
    else if LexLess(x, xs[0]) then
      forall j | 0 <= j < |xs| ensures LexLess(x, xs[j]) {
        if j > 0 { LexLessTransitive(x, xs[0], xs[j]); }
      }
      [x] + xs
    else
      LexLessTotal(x, xs[0]);
      var rest := Insert(xs[1..], x);
      assert forall y :: y in rest ==> LexLess(xs[0], y);
      [xs[0]] + rest
  }

  // -------------------------------------------------------------- the class

  /** `QuestionWorkspace`: a resolved root and the files beneath it. */
  class QuestionWorkspace {
    const root: Segments
    var files: map<string, string>

    constructor (root: Segments, files: map<string, string>)
      ensures this.root == root && this.files == files
    {
      this.root := root;
      this.files := files;
    }

    /** `read_file`: the text of an existing file inside the root. */
    function ReadFile(path: string): (r: Result<string, string>)
      reads this
      ensures Resolve(root, path).Err? ==> r == Err("Path escapes workspace: " + path)
      ensures r.Ok? <==> Resolve(root, path).Ok? && Key(root, Resolve(root, path).value) in files
      ensures r.Ok? ==> r.value == files[Key(root, Resolve(root, path).value)]
      ensures Resolve(root, path).Ok? && r.Err? ==> r.error == "File not found: " + path
    {
      match Resolve(root, path)
      case Err(e) => Err(e)
      case Ok(target) =>
        var key := Key(root, target);
        if key !in files then Err("File not found: " + path) else Ok(files[key])
    }

    /** `read_description`: `desc.md` up to level 1, `desc_level{n}.md` beyond. */
    function ReadDescription(level: int := 1): (r: Result<string, string>)
      reads this
      ensures r == ReadFile(DescriptionName(level))
    {
      ReadFile(DescriptionName(level))
    }

    /** `get_current_code`. */
    function GetCurrentCode(filePath: string := "ruleengine.py"): (r: Result<string, string>)
      reads this
      ensures r == ReadFile(filePath)
    {
      ReadFile(filePath)
    }

    /** `apply_patch`. */
    method ApplyPatch(filePath: string, oldText: string, newText: string) returns (r: Result<string, string>)
      modifies this
      ensures PatchOutcome(r, files) == Patch(root, old(files), filePath, oldText, newText)
    {
      var target := Resolve(root, filePath);
      if target.Err? {
        return Err(target.error);
      }
      var key := Key(root, target.value);
      if key !in files {
        return Err("File not found: " + filePath);
      }
      var content := files[key];
      var matches := Count(content, oldText);
      if matches != 1 {
        return Err("Patch requires exactly one match in " + filePath + ", found " + IntToString(matches) + ".");
      }
      files := files[key := ReplaceFirst(content, oldText, newText)];
      r := Ok("Patched " + filePath + ".");
    }

    /** `list_files`: every file's relative path, once each, sorted. */
    method ListFiles() returns (r: seq<string>)
      ensures Sorted(r)
      ensures forall k :: k in r <==> k in files
      ensures |r| == |files|
    {
      var remaining := files.Keys;
      r := [];
      while remaining != {}
        invariant remaining <= files.Keys
        invariant Sorted(r)
        invariant forall k :: k in r <==> k in files && k !in remaining
        invariant |r| + |remaining| == |files|
        decreases |remaining|
      {
        var k :| k in remaining;
        r := Insert(r, k);
        remaining := remaining - {k};
      }
    }
  }

  // ---------------------------------------------------------------- lemmas

  /** A path without `..` segments that does not start at `/` never leaves
      the root. */
  lemma {:induction false} NormaliseExtends(base: Segments, parts: seq<string>)
    requires forall i :: 0 <= i < |parts| ==> parts[i] != ".."
    ensures Inside(base, Normalise(base, parts))
    decreases |parts|
  {
    if parts != [] {
      var next := Climb(base, parts[0]);
      NormaliseExtends(next, parts[1..]);
      assert Normalise(next, parts[1..])[..|base|] == next[..|base|];
    }
  }

  lemma PlainPathResolves(root: Segments, relativePath: string)
    requires relativePath == [] || relativePath[0] != '/'
    requires forall i :: 0 <= i < |SplitOn(relativePath, '/')| ==> SplitOn(relativePath, '/')[i] != ".."
    ensures Resolve(root, relativePath).Ok?
  {
    NormaliseExtends(root, SplitOn(relativePath, '/'));
  }

  /** `..` from a root below `/` escapes it. */
  lemma ParentEscapes(root: Segments)
    requires root != []
    ensures Resolve(root, "..").Err?
  {
    assert SplitOn("..", '/') == [".."];
    assert Normalise(root, [".."]) == Normalise(root[..|root| - 1], []);
  }

  /** Different levels beyond the first read different description files,
      none of them `desc.md`. */
  /** A plain file name (no `/`, not `.` or `..`) resolves to the file of
      that name directly beneath the root. */
  lemma PlainNameResolves(root: Segments, name: string)
    requires name != "" && name != "." && name != ".." && '/' !in name
    ensures Resolve(root, name) == Ok(root + [name])
    ensures Key(root, root + [name]) == name
  {
    assert SplitOn(name, '/') == [name];
    assert Normalise(root, [name]) == Normalise(root + [name], []);
    assert (root + [name])[..|root|] == root;
    assert (root + [name])[|root|..] == [name];
  }

  /** A description name beyond level 1 carries its level, and `int()` of
      the text between `desc_level` and `.md` reads it back. */
  lemma DescriptionLevelReadsBack(level: int)
    requires level > 1
    ensures var name := DescriptionName(level);
      |name| >= 14 && name[..10] == "desc_level" && name[|name| - 3..] == ".md"
      && ParseInt(name[10..|name| - 3]) == Some(level)
  {
    var name := DescriptionName(level);
    var digits := IntToString(level);
    assert name[10..|name| - 3] == digits;
    IntToStringRoundTrip(level);
  }

  lemma DescriptionNamesDistinct(a: int, b: int)
    requires a >= 2 && b >= 2 && a != b
    ensures DescriptionName(a) != DescriptionName(b)
    ensures DescriptionName(a) != "desc.md"
  {
    var sa := IntToString(a);
    var sb := IntToString(b);
    var na := DescriptionName(a);
    var nb := DescriptionName(b);
    assert na[..10] == "desc_level";
    if na == nb {
      assert |sa| == |sb|;
      assert na[10..10 + |sa|] == sa;
      assert nb[10..10 + |sb|] == sb;
      IntToStringRoundTrip(a);
      IntToStringRoundTrip(b);
    }
  }

  /** Once `find` has found the first occurrence at `k`, `CountFrom` from
      just past it is 0 only if no occurrence starts there or later. */
  lemma CountFromZero(s: string, sub: string, from: nat)
    requires sub != [] && from <= |s|
    ensures CountFrom(s, sub, from) == 0 <==> FindFrom(s, sub, from).None?
    ensures FindFrom(s, sub, from).Some? ==>
      CountFrom(s, sub, from) == 1 + CountFrom(s, sub, FindFrom(s, sub, from).value + |sub|)
  {
  }

  /** A non-empty text counted once is found, and not again past its end. */
  lemma CountedOnce(s: string, sub: string)
    requires sub != [] && Count(s, sub) == 1
    ensures FindFrom(s, sub, 0).Some?
    ensures FindFrom(s, sub, FindFrom(s, sub, 0).value + |sub|).None?
  {
    CountFromZero(s, sub, 0);
    var k := FindFrom(s, sub, 0).value;
    CountFromZero(s, sub, k + |sub|);
  }

  /** An occurrence at `k` splits the text around it. */
  lemma SpliceAt(s: string, sub: string, k: nat)
    requires k <= |s| && StartsWith(s[k..], sub)
    ensures k + |sub| <= |s| && s == s[..k] + sub + s[k + |sub|..]
  {
    assert s[k..][..|sub|] == sub;
    assert s == s[..k] + s[k..][..|sub|] + s[k + |sub|..];
  }

  /** A patch's one occurrence: the content is `prefix + old + suffix` with
      no other occurrence of a non-empty `old` starting before it or at or
      after its end, and the patched text is `prefix + new + suffix`. An
      empty `old` counts once only in an empty file. */
  lemma PatchSplice(s: string, oldText: string, newText: string)
    requires Count(s, oldText) == 1
    ensures FindFrom(s, oldText, 0).Some?
    ensures var k := FindFrom(s, oldText, 0).value;
      k + |oldText| <= |s|
      && s == s[..k] + oldText + s[k + |oldText|..]
      && ReplaceFirst(s, oldText, newText) == s[..k] + newText + s[k + |oldText|..]
      && (oldText != [] ==> forall j :: 0 <= j <= |s| && (j < k || j >= k + |oldText|) ==> !StartsWith(s[j..], oldText))
  {
    if oldText == [] {
      assert s == [];
    } else {
      CountedOnce(s, oldText);
      var k := FindFrom(s, oldText, 0).value;
      SpliceAt(s, oldText, k);
      FindFromExact(s, oldText, 0);
      FindFromExact(s, oldText, k + |oldText|);
    }
  }

  /** A non-empty text that does not occur is counted zero times, and the
      patch is refused. */
  lemma AbsentNotPatched(root: Segments, files: map<string, string>, filePath: string, oldText: string, newText: string)
    requires oldText != []
    requires Resolve(root, filePath).Ok? && Key(root, Resolve(root, filePath).value) in files
    requires !Contains(files[Key(root, Resolve(root, filePath).value)], oldText)
    ensures Patch(root, files, filePath, oldText, newText).message.Err?
    ensures Patch(root, files, filePath, oldText, newText).files == files
  {
  }
}
