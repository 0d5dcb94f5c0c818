/** The scan that pulls result snippets out of a search results page
    (src/pair_programming_voice_bot/concept_lookup.py, `_extract_ddg_snippets`),
    with the tag removal it applies to each. */
module SearchSnippets {
  import opened Wrappers
  import opened Text

  // --------------------------------------------------------- tag stripping

  /** Where the tag opening at `s[0] == '<'` closes: the next `>`, provided
      at least one other character comes before it (`<[^>]+>`). */
  function TagEnd(s: string): (r: Option<nat>)
    requires s != [] && s[0] == '<'
    ensures r.Some? ==> 2 <= r.value < |s| && s[r.value] == '>'
    ensures r.None? <==> FindFrom(s, ">", 1).None? || FindFrom(s, ">", 1) == Some(1)
  {
    match FindFrom(s, ">", 1)
    case None => None
    case Some(j) =>
      if j == 1 then None
      else
        assert s[j..][..1] == ">";
        Some(j)
  }

  /** `re.sub(r"<[^>]+>", "", s)`: every tag, found left to right, removed.
      The result only holds characters of `s`. */
  function StripTags(s: string): (r: string)
    ensures |r| <= |s|
    ensures forall c :: c in r ==> c in s
    decreases |s|
  {
    if s == [] then []
    else if s[0] == '<' && TagEnd(s).Some? then StripTags(s[TagEnd(s).value + 1..])
    else [s[0]] + StripTags(s[1..])
  }

  /** No tag is left: a `<` is either followed directly by `>` or by no `>` at all. */
  predicate TagFree(r: string) {
    forall i, j :: 0 <= i && i + 1 < j < |r| && r[i] == '<' && r[j] == '>' ==> r[i + 1] == '>'
  }

  /** `re.sub` leaves no tag behind, so stripping again changes nothing. */
  lemma {:induction false} StripTagsTagFree(s: string)
    ensures TagFree(StripTags(s))
    decreases |s|
  {
    if s != [] {
      if s[0] == '<' && TagEnd(s).Some? {
        StripTagsTagFree(s[TagEnd(s).value + 1..]);
      } else {
        var rest := StripTags(s[1..]);
        StripTagsTagFree(s[1..]);
        var r := [s[0]] + rest;
        forall i, j | 0 <= i && i + 1 < j < |r| && r[i] == '<' && r[j] == '>'
          ensures r[i + 1] == '>'
        {
          if i > 0 {
            assert rest[i - 1] == '<' && rest[j - 1] == '>';
          } else {
            assert rest[j - 1] == '>';
            assert '>' in s[1..];
            FirstGreaterIsNext(s);
            assert StripTags(s[1..])[0] == s[1];
          }
        }
      }
    }
  }

  /** When `s` opens with a `<` that starts no tag yet a `>` follows, that
      `>` comes right after it. */
  lemma FirstGreaterIsNext(s: string)
    requires s != [] && s[0] == '<' && TagEnd(s).None? && '>' in s[1..]
    ensures |s| >= 2 && s[1] == '>'
  {
    var k :| 0 <= k < |s[1..]| && s[1..][k] == '>';
    assert s[k + 1..][..1] == ">";
    FindFromExact(s, ">", 1);
  }

  // ------------------------------------------------------ snippet scanning

  const SnippetMarker := "class=\"result__snippet\""

  /** The text of one snippet: tags removed, then trimmed. */
  function SnippetText(raw: string): (t: string)
    ensures |t| <= |raw|
    ensures t == [] || Trimmed(t)
  {
    Strip(StripTags(raw))
  }

  /** One round of `_extract_ddg_snippets` from position `pos`: the next
      marker, the `>` after it and the `</` after that, all found; gives the
      text in between with tags removed and trimmed (possibly empty) and the
      position of the `</`, which lies beyond `pos`. */
  function NextSnippet(html: string, pos: nat): (r: Option<(string, nat)>)
    requires pos <= |html|
    ensures r.Some? ==> pos < r.value.1 <= |html|
  {
    match FindFrom(html, SnippetMarker, pos)
    case None => None
    case Some(idx) =>
      assert html[idx..][..|SnippetMarker|] == SnippetMarker;
      match FindFrom(html, ">", idx)
      case None => None
      case Some(tagClose) =>
        assert html[tagClose..][..1] == ">";
        match FindFrom(html, "</", tagClose)
        case None => None
        case Some(endTag) =>
          assert html[endTag..][..2] == "</";
          assert html[endTag] == '<' && html[tagClose] == '>';
          Some((SnippetText(html[tagClose + 1..endTag]), endTag))
  }

  /** Non-empty, with no whitespace at either end. */
  predicate Trimmed(t: string) {
    t != [] && !IsSpace(t[0]) && !IsSpace(t[|t| - 1])
  }

  /** What `_extract_ddg_snippets` returns when it resumes at `pos` having
      already gathered `found`: rounds go on while fewer than `maxResults`
      snippets are held; empty texts are skipped and the first round that
      finds no marker, `>` or `</` ends the scan. */
  function Scan(html: string, pos: nat, found: seq<string>, maxResults: int): seq<string>
    requires pos <= |html|
    decreases |html| - pos
  {
    if |found| >= maxResults then found
    else
      match NextSnippet(html, pos)
      case None => found
      case Some((text, endTag)) =>
        Scan(html, endTag, if text != [] then found + [text] else found, maxResults)
  }

  /** A resumed scan keeps what it had, adds only trimmed snippets, and stops
      growing at `maxResults`. */
  lemma {:induction false} ScanShape(html: string, pos: nat, found: seq<string>, maxResults: int)
    requires pos <= |html|
    ensures found <= Scan(html, pos, found, maxResults)
    ensures |Scan(html, pos, found, maxResults)| <= if |found| >= maxResults then |found| else maxResults
    ensures (forall i :: 0 <= i < |found| ==> Trimmed(found[i])) ==>
      forall i :: 0 <= i < |Scan(html, pos, found, maxResults)| ==> Trimmed(Scan(html, pos, found, maxResults)[i])
    decreases |html| - pos
  {
    if |found| < maxResults {
      match NextSnippet(html, pos)
      case None =>
      case Some((text, endTag)) =>
        var next := if text != [] then found + [text] else found;
        ScanShape(html, endTag, next, maxResults);
    }
  }

  /** `_extract_ddg_snippets` returns at most `maxResults` snippets (none
      when that is below one), each non-empty and trimmed. */
  lemma SnippetsShape(html: string, maxResults: int)
    ensures maxResults <= 0 ==> Scan(html, 0, [], maxResults) == []
    ensures |Scan(html, 0, [], maxResults)| <= if maxResults < 0 then 0 else maxResults
    ensures forall i :: 0 <= i < |Scan(html, 0, [], maxResults)| ==> Trimmed(Scan(html, 0, [], maxResults)[i])
  {
    ScanShape(html, 0, [], maxResults);
  }

  /** `_extract_ddg_snippets`. */
  method ExtractSnippets(html: string, maxResults: int := 3) returns (snippets: seq<string>)
    ensures snippets == Scan(html, 0, [], maxResults)
  {
    snippets := [];
    var pos := 0;
    while |snippets| < maxResults
      invariant pos <= |html|
      invariant Scan(html, pos, snippets, maxResults) == Scan(html, 0, [], maxResults)
      decreases |html| - pos
    {
      var round := NextSnippet(html, pos);
      if round.None? {
        break;
      }
      var (text, endTag) := round.value;
      if text != [] {
        snippets := snippets + [text];
      }
      pos := endTag;
    }
  }
}
