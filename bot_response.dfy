/** `_parse_bot_response` (backend/app.py): the bot's reply split into the
    narration and the files its `<code file="NAME">` blocks replace.

    The block pattern `<code\s+file="([^"]+)">\s*\n(.*?)</code>` (with `.`
    matching newlines) is read here as Python's matcher settles it: the
    whitespace after `<code` and the name run as far as they can, the body
    starts after the last newline of the whitespace following `">`, and ends
    at the first `</code>`. Blocks are found left to right without overlap,
    as `finditer` and `sub` find them. */
module BotResponse {
  import opened Wrappers
  import opened Text

  /** One block: where it starts and ends in the reply, the name between
      the quotes and the body, both as written. */
  datatype Block = Block(start: nat, end: nat, name: string, body: string)

  /** What `_parse_bot_response` returns. */
  datatype ParsedResponse = ParsedResponse(narration: string, fileUpdates: map<string, string>)

  const OpenTag := "<code"
  const NameStart := "file=\""
  const NameEnd := "\">"
  const CloseTag := "</code>"

  /** Length of the run of characters other than `"` at the start of `s`. */
  function NonQuoteRun(s: string): (n: nat)
    ensures n <= |s|
  {
    if s == [] || s[0] == '"' then 0 else 1 + NonQuoteRun(s[1..])
  }

  /** `[^"]+` takes everything up to the first `"`. */
  lemma {:induction false} NonQuoteRunMaximal(s: string)
    ensures forall i :: 0 <= i < NonQuoteRun(s) ==> s[i] != '"'
    ensures NonQuoteRun(s) < |s| ==> s[NonQuoteRun(s)] == '"'
  {
    if s != [] && s[0] != '"' {
      NonQuoteRunMaximal(s[1..]);
    }
  }

  /** The position just past the last newline of `s`. */
  function AfterLastNewline(s: string): (r: Option<nat>)
    ensures r.Some? ==> 1 <= r.value <= |s|
    decreases |s|
  {
    if s == [] then None
    else if s[|s| - 1] == '\n' then Some(|s|)
    else AfterLastNewline(s[..|s| - 1])
  }

  /** `AfterLastNewline` finds the last newline, and finds none only when
      there is none. */
  lemma {:induction false} AfterLastNewlineExact(s: string)
    ensures AfterLastNewline(s).Some? ==>
      s[AfterLastNewline(s).value - 1] == '\n'
      && forall j :: AfterLastNewline(s).value <= j < |s| ==> s[j] != '\n'
    ensures AfterLastNewline(s).None? ==> forall j :: 0 <= j < |s| ==> s[j] != '\n'
    decreases |s|
  {
    if s != [] && s[|s| - 1] != '\n' {
      var init := s[..|s| - 1];
      AfterLastNewlineExact(init);
      assert forall j :: 0 <= j < |init| ==> init[j] == s[j];
    }
  }

  /** The block pattern tried at position `i` of `raw`. */
  function BlockAt(raw: string, i: nat): (r: Option<Block>)
    requires i <= |raw|
    ensures r.Some? ==> r.value.start == i && i < r.value.end <= |raw|
    ensures r.Some? ==> StartsWith(raw[i..], OpenTag)
  {
    if !StartsWith(raw[i..], OpenTag) then None
    else
      var a := i + |OpenTag|;
      var w := LeadingSpaces(raw[a..]);
      var b := a + w;
      if w == 0 || !StartsWith(raw[b..], NameStart) then None
      else
        var c := b + |NameStart|;
        var n := NonQuoteRun(raw[c..]);
        var d := c + n;
        if n == 0 || !StartsWith(raw[d..], NameEnd) then None
        else
          var e := d + |NameEnd|;
          var ws := LeadingSpaces(raw[e..]);
          match AfterLastNewline(raw[e..e + ws])
          case None => None
          case Some(k) =>
            match FindFrom(raw, CloseTag, e + k)
            case None => None
            case Some(f) =>
              assert raw[f..][..|CloseTag|] == CloseTag;
              Some(Block(i, f + |CloseTag|, raw[c..d], raw[e + k..f]))
  }

  /** The leftmost block starting at or after `from`. */
  function NextBlock(raw: string, from: nat): (r: Option<Block>)
    requires from <= |raw|
    ensures r.Some? ==> from <= r.value.start <= |raw| && BlockAt(raw, r.value.start) == r
    decreases |raw| - from
  {
    match BlockAt(raw, from)
    case Some(b) => Some(b)
    case None => if from == |raw| then None else NextBlock(raw, from + 1)
  }

  /** `finditer` from `from` on: each block, then the next one after its end. */
  function Blocks(raw: string, from: nat): seq<Block>
    requires from <= |raw|
    decreases |raw| - from
  {
    match NextBlock(raw, from)
    case None => []
    case Some(b) => [b] + Blocks(raw, b.end)
  }

  /** `sub("", ...)` from `from` on: the text between the blocks. */
  function Unmatched(raw: string, from: nat): string
    requires from <= |raw|
    decreases |raw| - from
  {
    match NextBlock(raw, from)
    case None => raw[from..]
    case Some(b) => raw[from..b.start] + Unmatched(raw, b.end)
  }

  /** Each block as the loop files it: stripped name, right-stripped body. */
  function Entries(blocks: seq<Block>): (es: seq<(string, string)>)
    ensures |es| == |blocks|
    ensures forall i :: 0 <= i < |blocks| ==> es[i] == (Strip(blocks[i].name), RStrip(blocks[i].body))
  {
    seq(|blocks|, i requires 0 <= i < |blocks| => (Strip(blocks[i].name), RStrip(blocks[i].body)))
  }

  /** The dictionary the `finditer` loop builds, a later entry for a name
      overwriting an earlier one. */
  function UpdatesOf(entries: seq<(string, string)>): map<string, string>
    decreases |entries|
  {
    if entries == [] then map[]
    else
      var last := entries[|entries| - 1];
      UpdatesOf(entries[..|entries| - 1])[last.0 := last.1]
  }

  /** Length of the run of newlines at the start of `s`. */
  function NewlineRun(s: string): (n: nat)
    ensures n <= |s|
    ensures forall i :: 0 <= i < n ==> s[i] == '\n'
    ensures n < |s| ==> s[n] != '\n'
  {
    if s == [] || s[0] != '\n' then 0 else 1 + NewlineRun(s[1..])
  }

  /** `re.sub(r"\n{3,}", "\n\n", s)`: every run of three or more newlines
      becomes two. */
  function Collapse(s: string): (r: string)
    ensures |r| <= |s|
    ensures s != [] && s[0] != '\n' ==> r != [] && r[0] == s[0]
    ensures s != [] && s[0] == '\n' ==> r != [] && r[0] == '\n'
    decreases |s|
  {
    if s == [] then []
    else if s[0] != '\n' then [s[0]] + Collapse(s[1..])
    else
      var n := NewlineRun(s);
      (if n >= 3 then "\n\n" else s[..n]) + Collapse(s[n..])
  }

  /** `_parse_bot_response`. */
  function ParseBotResponse(raw: string): ParsedResponse {
    ParsedResponse(Collapse(Strip(Unmatched(raw, 0))), UpdatesOf(Entries(Blocks(raw, 0))))
  }

  // ---------------------------------------------------------------- lemmas

  /** No three newlines in a row. */
  predicate NoTripleNewline(s: string) {
    forall i :: 0 <= i && i + 2 < |s| ==> !(s[i] == '\n' && s[i + 1] == '\n' && s[i + 2] == '\n')
  }

  /** A string starting with at most two newlines and then either nothing
      or a non-newline followed by a string without a triple keeps none. */
  lemma GlueNoTriple(head: string, tail: string)
    requires |head| <= 2 && forall i :: 0 <= i < |head| ==> head[i] == '\n'
    requires tail == [] || tail[0] != '\n'
    requires NoTripleNewline(tail)
    ensures NoTripleNewline(head + tail)
  {
    var s := head + tail;
    forall i | 0 <= i && i + 2 < |s|
      ensures !(s[i] == '\n' && s[i + 1] == '\n' && s[i + 2] == '\n')
    {
      if i >= |head| {
        assert s[i] == tail[i - |head|] && s[i + 1] == tail[i + 1 - |head|] && s[i + 2] == tail[i + 2 - |head|];
      } else {
        assert s[|head|] == tail[0];
      }
    }
  }

  /** Without three newlines in a row, `"\n\n\n"` is not found. */
  lemma NoTripleNotContained(s: string)
    requires NoTripleNewline(s)
    ensures !Contains(s, "\n\n\n")
  {
    forall j | 0 <= j <= |s|
      ensures !StartsWith(s[j..], "\n\n\n")
    {
      if j + 3 <= |s| {
        assert !(s[j] == '\n' && s[j + 1] == '\n' && s[j + 2] == '\n');
        assert s[j..][..3] == [s[j], s[j + 1], s[j + 2]];
      }
    }
  }

  /** Collapsing leaves no run of three newlines. */
  lemma {:induction false} CollapseNoTriple(s: string)
    ensures NoTripleNewline(Collapse(s))
    decreases |s|
  {
    if s != [] {
      if s[0] != '\n' {
        CollapseNoTriple(s[1..]);
        var r := Collapse(s);
        var rest := Collapse(s[1..]);
        assert r == [s[0]] + rest;
        forall i | 0 <= i && i + 2 < |r|
          ensures !(r[i] == '\n' && r[i + 1] == '\n' && r[i + 2] == '\n')
        {
          if i > 0 {
            assert r[i] == rest[i - 1] && r[i + 1] == rest[i] && r[i + 2] == rest[i + 1];
          }
        }
      } else {
        var n := NewlineRun(s);
        CollapseNoTriple(s[n..]);
        var head := if n >= 3 then "\n\n" else s[..n];
        GlueNoTriple(head, Collapse(s[n..]));
      }
    }
  }

  /** A string with no triple newline is left as it is. */
  lemma {:induction false} CollapseKeepsShortRuns(s: string)
    requires NoTripleNewline(s)
    ensures Collapse(s) == s
    decreases |s|
  {
    if s != [] {
      if s[0] != '\n' {
        CollapseKeepsShortRuns(s[1..]);
        assert s == [s[0]] + s[1..];
      } else {
        var n := NewlineRun(s);
        if |s| >= 3 {
          assert !(s[0] == '\n' && s[1] == '\n' && s[2] == '\n');
        }
        assert n < 3;
        CollapseKeepsShortRuns(s[n..]);
        assert s == s[..n] + s[n..];
      }
    }
  }

  /** Collapsing twice is collapsing once. */
  lemma CollapseIdempotent(s: string)
    ensures Collapse(Collapse(s)) == Collapse(s)
  {
    CollapseNoTriple(s);
    CollapseKeepsShortRuns(Collapse(s));
  }

  /** The narration never holds three newlines in a row. */
  lemma NarrationHasNoTripleNewline(raw: string)
    ensures !Contains(ParseBotResponse(raw).narration, "\n\n\n")
  {
    CollapseNoTriple(Strip(Unmatched(raw, 0)));
    NoTripleNotContained(ParseBotResponse(raw).narration);
  }

  /** A file is updated exactly when some block names it. */
  lemma {:induction false} UpdatedIffNamed(entries: seq<(string, string)>, name: string)
    ensures name in UpdatesOf(entries) <==> exists i :: 0 <= i < |entries| && entries[i].0 == name
    decreases |entries|
  {
    if entries != [] {
      var init := entries[..|entries| - 1];
      UpdatedIffNamed(init, name);
      assert forall i :: 0 <= i < |init| ==> init[i] == entries[i];
    }
  }

  /** An updated file gets the body of the last block naming it. */
  lemma {:induction false} LastBlockWins(entries: seq<(string, string)>, name: string)
    requires name in UpdatesOf(entries)
    ensures exists i :: (0 <= i < |entries| && entries[i].0 == name && UpdatesOf(entries)[name] == entries[i].1
      && forall j :: i < j < |entries| ==> entries[j].0 != name)
    decreases |entries|
  {
    var n := |entries| - 1;
    if entries[n].0 != name {
      var init := entries[..n];
      LastBlockWins(init, name);
      var i :| 0 <= i < |init| && init[i].0 == name && UpdatesOf(init)[name] == init[i].1
        && forall j :: i < j < |init| ==> init[j].0 != name;
      assert entries[i] == init[i];
      forall j | i < j < |entries|
        ensures entries[j].0 != name
      {
        if j < n {
          assert entries[j] == init[j];
        }
      }
    }
  }

  /** A position the search from `from` passes over holds no block. */
  lemma {:induction false} NextBlockSkips(raw: string, from: nat, j: nat)
    requires from <= j <= |raw|
    requires NextBlock(raw, from).None? || j < NextBlock(raw, from).value.start
    ensures BlockAt(raw, j).None?
    decreases j - from
  {
    var here := BlockAt(raw, from);
    if from < j {
      assert here.None?;
      assert NextBlock(raw, from) == NextBlock(raw, from + 1);
      NextBlockSkips(raw, from + 1, j);
    }
  }

  /** `finditer` finds the leftmost block: none starts between `from` and
      the one found, and when none is found none starts anywhere after `from`. */
  lemma NextBlockLeftmost(raw: string, from: nat)
    requires from <= |raw|
    ensures NextBlock(raw, from).Some? ==>
      forall j :: from <= j < NextBlock(raw, from).value.start ==> BlockAt(raw, j).None?
    ensures NextBlock(raw, from).None? ==> forall j :: from <= j <= |raw| ==> BlockAt(raw, j).None?
  {
    forall j | from <= j <= |raw| && (NextBlock(raw, from).None? || j < NextBlock(raw, from).value.start)
      ensures BlockAt(raw, j).None?
    {
      NextBlockSkips(raw, from, j);
    }
  }

  /** Past a point with no `<code` after it, no block is found. */
  lemma {:induction false} NoBlockFrom(raw: string, from: nat)
    requires from <= |raw| && FindFrom(raw, OpenTag, from).None?
    ensures NextBlock(raw, from).None?
    decreases |raw| - from
  {
    if from < |raw| {
      assert !StartsWith(raw[from..], OpenTag);
      NoBlockFrom(raw, from + 1);
    }
  }

  /** A reply without `<code` replaces no file; its narration is the
      trimmed reply with newline runs collapsed. */
  lemma PlainReply(raw: string)
    requires !Contains(raw, OpenTag)
    ensures ParseBotResponse(raw) == ParsedResponse(Collapse(Strip(raw)), map[])
  {
    NoBlockFrom(raw, 0);
    assert raw[0..] == raw;
  }
}
