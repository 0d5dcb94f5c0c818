/** Reading the summary a Python `unittest` run prints (backend/runner.py,
    `parse_unittest_output`): the total comes from the first
    `Ran <n> test(s)` line, failures and errors from the first
    `FAILED (...)` line, and passed = max(0, total - failures - errors). */
module UnittestSummary {
  import opened Wrappers
  import opened Text

  datatype Summary = Summary(passed: nat, total: nat)

  /** Running failure and error counts while the `FAILED (...)` group is read. */
  datatype Tally = Tally(failures: int, errors: int)

  /** Length of the run of ASCII digits that starts `s`. */
  function DigitRun(s: string): (n: nat)
    ensures n <= |s|
  {
    if s == [] || !IsDigit(s[0]) then 0 else 1 + DigitRun(s[1..])
  }

  /** Length of the run of characters other than `)` that starts `s`. */
  function NonParenRun(s: string): (n: nat)
    ensures n <= |s|
  {
    if s == [] || s[0] == ')' then 0 else 1 + NonParenRun(s[1..])
  }

  /** The pattern `Ran\s+(\d+)\s+tests?` tried at position `p`: the value of
      the digit group when it matches there. Every repetition in the
      pattern is followed by a character it cannot consume, so the greedy
      match is the only one. */
  function RanAt(s: string, p: nat): Option<nat> {
    if p > |s| || !StartsWith(s[p..], "Ran") then None
    else
      var q := p + 3;
      var w1 := LeadingSpaces(s[q..]);
      var r := q + w1;
      var d := DigitRun(s[r..]);
      var t := r + d;
      var w2 := LeadingSpaces(s[t..]);
      if w1 >= 1 && d >= 1 && w2 >= 1 && StartsWith(s[t + w2..], "test")
      then Some(DigitsValue(s[r..t]))
      else None
  }

  /** `re.search` for the `Ran` pattern: the leftmost match. */
  function FirstRan(s: string): Option<nat> {
    Leftmost((p: nat) => RanAt(s, p), 0, |s|)
  }

  /** The pattern `FAILED\s+\(([^)]+)\)` tried at position `p`: the text
      between the parentheses when it matches there. */
  function FailedAt(s: string, p: nat): Option<string> {
    if p > |s| || !StartsWith(s[p..], "FAILED") then None
    else
      var q := p + 6;
      var w := LeadingSpaces(s[q..]);
      var open := q + w;
      if w == 0 || open == |s| || s[open] != '(' then None
      else
        var k := NonParenRun(s[open + 1..]);
        if k >= 1 && open + 1 + k < |s| then Some(s[open + 1..open + 1 + k]) else None
  }

  /** `\d+` takes the whole run of digits: every character it covers is a
      digit and the next one, if any, is not. */
  lemma {:induction false} DigitRunMaximal(s: string)
    ensures forall i :: 0 <= i < DigitRun(s) ==> IsDigit(s[i])
    ensures DigitRun(s) < |s| ==> !IsDigit(s[DigitRun(s)])
  {
    if s != [] && IsDigit(s[0]) {
      DigitRunMaximal(s[1..]);
    }
  }

  /** `[^)]+` stops exactly at the first `)`. */
  lemma {:induction false} NonParenRunMaximal(s: string)
    ensures forall i :: 0 <= i < NonParenRun(s) ==> s[i] != ')'
    ensures NonParenRun(s) < |s| ==> s[NonParenRun(s)] == ')'
  {
    if s != [] && s[0] != ')' {
      NonParenRunMaximal(s[1..]);
    }
  }

  /** A `FAILED (...)` group is never empty and holds no `)`. */
  lemma FailedGroupShape(s: string, p: nat)
    requires FailedAt(s, p).Some?
    ensures FailedAt(s, p).value != [] && ')' !in FailedAt(s, p).value
  {
    var q := p + 6;
    var open := q + LeadingSpaces(s[q..]);
    NonParenRunMaximal(s[open + 1..]);
  }

  /** `re.search` for the `FAILED` pattern: the leftmost match. */
  function FirstFailed(s: string): Option<string> {
    Leftmost((p: nat) => FailedAt(s, p), 0, |s|)
  }

  /** `[p.strip() for p in group.split(",")]`. */
  function FailedParts(group: string): (parts: seq<string>)
    ensures |parts| == |SplitOn(group, ',')|
  {
    var raw := SplitOn(group, ',');
    seq(|raw|, i requires 0 <= i < |raw| => Strip(raw[i]))
  }

  /** The count after the first `=` of a `key=value` part, `int(part.split("=")[1])`. */
  function CountOf(part: string): Option<int>
    requires '=' in part
  {
    ParseInt(SplitOn(part, '=')[1])
  }

  /** One part of the `FAILED (...)` group: `failures=` and `errors=` set
      their count (a count `int()` rejects raises, modelled as Err carrying
      the part); any other part changes nothing. */
  function Step(part: string, acc: Tally): Result<Tally, string> {
    if StartsWith(part, "failures=") then
      assert part[8] == '=';
      match CountOf(part)
      case None => Err(part)
      case Some(v) => Ok(acc.(failures := v))
    else if StartsWith(part, "errors=") then
      assert part[6] == '=';
      match CountOf(part)
      case None => Err(part)
      case Some(v) => Ok(acc.(errors := v))
    else Ok(acc)
  }

  /** The parts read left to right from `acc`; the first bad count stops the read. */
  function TallyFrom(parts: seq<string>, acc: Tally): Result<Tally, string>
    decreases |parts|
  {
    if parts == [] then Ok(acc)
    else
      match Step(parts[0], acc)
      case Err(e) => Err(e)
      case Ok(next) => TallyFrom(parts[1..], next)
  }

  /** What `parse_unittest_output(output)` returns, or the part whose count raised. */
  function SummaryOf(output: string): Result<Summary, string> {
    var total := FirstRan(output).GetOr(0);
    var tally :=
      match FirstFailed(output)
      case None => Ok(Tally(0, 0))
      case Some(g) => TallyFrom(FailedParts(g), Tally(0, 0));
    match tally
    case Err(part) => Err(part)
    case Ok(t) =>
      var d := total - t.failures - t.errors;
      Ok(Summary(if d > 0 then d else 0, total))
  }

  /** One step of the fold, unrolled at position `i`. */
  lemma TallyFromAt(parts: seq<string>, i: nat, acc: Tally)
    requires i < |parts|
    ensures TallyFrom(parts[i..], acc) ==
      match Step(parts[i], acc)
      case Err(e) => Err(e)
      case Ok(next) => TallyFrom(parts[i + 1..], next)
  {
    assert parts[i..][1..] == parts[i + 1..];
  }

  /** The loop of `parse_unittest_output` over the parts of the `FAILED` group. */
  method TallyParts(parts: seq<string>) returns (r: Result<Tally, string>)
    ensures r == TallyFrom(parts, Tally(0, 0))
  {
    var failures: int := 0;
    var errors: int := 0;
    var i := 0;
    while i < |parts|
      invariant 0 <= i <= |parts|
      invariant TallyFrom(parts, Tally(0, 0)) == TallyFrom(parts[i..], Tally(failures, errors))
    {
      var part := parts[i];
      TallyFromAt(parts, i, Tally(failures, errors));
      if StartsWith(part, "failures=") {
        assert part[8] == '=';
        var v := CountOf(part);
        if v.None? {
          return Err(part);
        }
        failures := v.value;
      } else if StartsWith(part, "errors=") {
        assert part[6] == '=';
        var v := CountOf(part);
        if v.None? {
          return Err(part);
        }
        errors := v.value;
      }
      i := i + 1;
    }
    assert parts[i..] == [];
    r := Ok(Tally(failures, errors));
  }

  /** `parse_unittest_output`. */
  method ParseUnittestOutput(output: string) returns (r: Result<Summary, string>)
    ensures r == SummaryOf(output)
  {
    var total: nat := 0;
    var ran := FirstRan(output);
    if ran.Some? {
      total := ran.value;
    }
    var tally: Result<Tally, string> := Ok(Tally(0, 0));
    var group := FirstFailed(output);
    if group.Some? {
      tally := TallyParts(FailedParts(group.value));
    }
    if tally.Err? {
      return Err(tally.error);
    }
    var d := total - tally.value.failures - tally.value.errors;
    r := Ok(Summary(if d > 0 then d else 0, total));
  }

  // ---------------------------------------------------------------- lemmas

  /** Reading `parts + [last]` is reading `parts` and then `last`: the parts
      are folded left to right, so a key that repeats keeps its last value. */
  lemma {:induction false} TallyAppend(parts: seq<string>, last: string, acc: Tally)
    ensures TallyFrom(parts + [last], acc) ==
      match TallyFrom(parts, acc)
      case Err(e) => Err(e)
      case Ok(t) => Step(last, t)
  {
    if parts != [] {
      assert (parts + [last])[1..] == parts[1..] + [last];
      match Step(parts[0], acc)
      case Err(e) =>
      case Ok(next) => TallyAppend(parts[1..], last, next);
    }
  }

  /** A part whose count `int()` rejects. */
  predicate BadPart(part: string) {
    Step(part, Tally(0, 0)).Err?
  }

  lemma StepErrIndependent(part: string, acc: Tally)
    ensures Step(part, acc).Err? <==> BadPart(part)
  {
  }

  /** The read fails exactly when some part carries a count `int()` rejects. */
  lemma {:induction false} TallyFailsIff(parts: seq<string>, acc: Tally)
    ensures TallyFrom(parts, acc).Err? <==> exists i :: 0 <= i < |parts| && BadPart(parts[i])
  {
    if parts != [] {
      StepErrIndependent(parts[0], acc);
      match Step(parts[0], acc)
      case Err(e) =>
      case Ok(next) =>
        TallyFailsIff(parts[1..], next);
        assert forall i :: 1 <= i < |parts| ==> parts[i] == parts[1..][i - 1];
    }
  }

  /** Without a `Ran` line the total is 0, and so is passed whatever
      non-negative counts a `FAILED` line gives. */
  lemma NoRanLineMeansZero(output: string, t: Tally)
    requires forall i :: 0 <= i <= |output| ==> RanAt(output, i).None?
    requires FirstFailed(output).Some? ==> TallyFrom(FailedParts(FirstFailed(output).value), Tally(0, 0)) == Ok(t)
    requires FirstFailed(output).None? ==> t == Tally(0, 0)
    requires t.failures >= 0 && t.errors >= 0
    ensures SummaryOf(output) == Ok(Summary(0, 0))
  {
    var i := LeftmostSpec((p: nat) => RanAt(output, p), 0, |output|);
  }

  /** The total is the number in the leftmost `Ran` line, and passed is the
      total less the failures and errors, floored at zero: it never exceeds
      the total unless the `FAILED` line carries a negative count. */
  lemma SummaryBounds(output: string, t: Tally)
    requires FirstFailed(output).Some? ==> TallyFrom(FailedParts(FirstFailed(output).value), Tally(0, 0)) == Ok(t)
    requires FirstFailed(output).None? ==> t == Tally(0, 0)
    ensures SummaryOf(output).Ok?
    ensures SummaryOf(output).value.total == FirstRan(output).GetOr(0)
    ensures t.failures + t.errors >= 0 ==> SummaryOf(output).value.passed <= SummaryOf(output).value.total
    ensures t.failures + t.errors <= SummaryOf(output).value.total ==>
      SummaryOf(output).value.passed == SummaryOf(output).value.total - t.failures - t.errors
  {
  }
}
