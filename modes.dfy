/** Who drives the session, and the spoken phrases that hand control over
    (src/pair_programming_voice_bot/modes.py). */
module Modes {
  import opened Wrappers
  import opened Text

  datatype Mode = BotDrives | HumanDrives {
    /** The enum's string value. */
    function Value(): string {
      match this
      case BotDrives => "bot_drives"
      case HumanDrives => "human_drives"
    }
  }

  /** `ModeTransition`: the frozen record of one mode change. */
  datatype ModeTransition = ModeTransition(previous: Mode, current: Mode, trigger: string)

  const BotSwitchPhrases: seq<string> := ["take over", "you drive", "bot drives", "your turn"]
  const HumanSwitchPhrases: seq<string> := ["let me try", "i'll drive", "my turn", "i will drive"]

  /** `s.replace("-", " ")`. */
  function Dehyphen(s: string): (r: string)
    ensures |r| == |s|
    ensures forall i :: 0 <= i < |s| ==> r[i] == if s[i] == '-' then ' ' else s[i]
  {
    seq(|s|, i requires 0 <= i < |s| => if s[i] == '-' then ' ' else s[i])
  }

  /** A character a normalised utterance may hold: no capital letter, no
      hyphen, and no whitespace other than a plain space. */
  predicate NormalChar(c: char) {
    !('A' <= c <= 'Z') && c != '-' && (IsSpace(c) ==> c == ' ')
  }

  /** Every word `split()` finds in a text without capitals or hyphens is
      made of normal characters. */
  lemma {:induction false} WordsNormal(x: string)
    requires forall k :: 0 <= k < |x| ==> !('A' <= x[k] <= 'Z') && x[k] != '-'
    ensures forall i, j :: 0 <= i < |Words(x)| && 0 <= j < |Words(x)[i]| ==> NormalChar(Words(x)[i][j])
    decreases |x|
  {
    if x != [] {
      WordsNormal(x[1..]);
      if !IsSpace(x[0]) {
        var n := WordLength(x);
        WordsNormal(x[n..]);
      }
    }
  }

  /** Joining words of normal characters with single spaces gives a text
      of normal characters whose first and last characters are not spaces. */
  lemma {:induction false} JoinNormal(ws: seq<string>)
    requires forall i :: 0 <= i < |ws| ==> ws[i] != [] && HasNoSpace(ws[i])
    requires forall i, j :: 0 <= i < |ws| && 0 <= j < |ws[i]| ==> NormalChar(ws[i][j])
    ensures forall k :: 0 <= k < |JoinWith(ws, " ")| ==> NormalChar(JoinWith(ws, " ")[k])
    ensures JoinWith(ws, " ") == [] || (!IsSpace(JoinWith(ws, " ")[0]) && !IsSpace(JoinWith(ws, " ")[|JoinWith(ws, " ")| - 1]))
    decreases |ws|
  {
    if |ws| > 1 {
      JoinNormal(ws[1..]);
      var w := ws[0];
      var tail := JoinWith(ws[1..], " ");
      var s := w + " " + tail;
      assert JoinWith(ws, " ") == s;
      forall k | 0 <= k < |s|
        ensures NormalChar(s[k])
      {
        if k < |w| {
          assert s[k] == ws[0][k];
        } else if k > |w| {
          assert s[k] == tail[k - |w| - 1];
        }
      }
      assert s[0] == w[0];
      assert s[|s| - 1] == tail[|tail| - 1];
    } else if |ws| == 1 {
      assert JoinWith(ws, " ") == ws[0];
      assert ws[0][0] == JoinWith(ws, " ")[0];
    }
  }

  /** `normalize_utterance`: lower-cased, hyphens read as spaces, and the
      words joined by single spaces. The result holds only normal
      characters and is exactly its own words joined by single spaces (no
      space at either end, never two in a row). */
  function Normalize(text: string): (r: string)
    ensures forall k :: 0 <= k < |r| ==> NormalChar(r[k])
    ensures r == [] || (!IsSpace(r[0]) && !IsSpace(r[|r| - 1]))
    ensures r == JoinWith(Words(r), " ")
  {
    var x := Dehyphen(Strip(Lower(text)));
    var ws := Words(x);
    WordsNormal(x);
    JoinNormal(ws);
    WordsOfJoin(ws);
    JoinWith(ws, " ")
  }

  /** Some phrase of `phrases` occurs in `s`. */
  predicate AnyPhraseIn(phrases: seq<string>, s: string) {
    exists i :: 0 <= i < |phrases| && Contains(s, phrases[i])
  }

  /** `detect_mode_command`: the bot phrases are tried before the human ones. */
  function DetectModeCommand(utterance: string): Option<Mode> {
    var normalized := Normalize(utterance);
    if AnyPhraseIn(BotSwitchPhrases, normalized) then Some(BotDrives)
    else if AnyPhraseIn(HumanSwitchPhrases, normalized) then Some(HumanDrives)
    else None
  }

  /** `ModeStateMachine`: the current driving mode. */
  class ModeStateMachine {
    var mode: Mode

    constructor (initialMode: Mode := BotDrives)
      ensures mode == initialMode
    {
      mode := initialMode;
    }

    /** `set_mode`: nothing happens when `target` is already the mode;
        otherwise the mode becomes `target` and the change is reported. */
    method SetMode(target: Mode, trigger: string := "manual") returns (t: Option<ModeTransition>)
      modifies this
      ensures old(mode) == target ==> t.None? && mode == old(mode)
      ensures old(mode) != target ==> t == Some(ModeTransition(old(mode), target, trigger)) && mode == target
    {
      if target == mode {
        return None;
      }
      var previous := mode;
      mode := target;
      t := Some(ModeTransition(previous, target, trigger));
    }

    /** `apply_voice_command`: an utterance with no switch phrase changes
        nothing; otherwise it is `set_mode` toward the detected mode, with
        the raw utterance as trigger. */
    method ApplyVoiceCommand(utterance: string) returns (t: Option<ModeTransition>)
      modifies this
      ensures DetectModeCommand(utterance).None? ==> t.None? && mode == old(mode)
      ensures DetectModeCommand(utterance).Some? && DetectModeCommand(utterance).value == old(mode) ==>
        t.None? && mode == old(mode)
      ensures DetectModeCommand(utterance).Some? && DetectModeCommand(utterance).value != old(mode) ==>
        t == Some(ModeTransition(old(mode), DetectModeCommand(utterance).value, utterance))
        && mode == DetectModeCommand(utterance).value
    {
      var target := DetectModeCommand(utterance);
      if target.None? {
        return None;
      }
      t := SetMode(target.value, utterance);
    }
  }

  // ---------------------------------------------------------------- lemmas

  /** Normalising twice is normalising once. */
  lemma NormalizeIdempotent(text: string)
    ensures Normalize(Normalize(text)) == Normalize(text)
  {
    var n := Normalize(text);
    assert IsLower(n);
    LowerOfLower(n);
    assert HasNoSpace(n) || n == [] || (!IsSpace(n[0]) && !IsSpace(n[|n| - 1]));
    assert LeadingSpaces(n) == 0 && TrailingSpaces(n) == 0;
    assert Strip(n) == n;
    assert Dehyphen(n) == n;
  }

  /** Detection depends on the utterance only through its normal form. */
  lemma DetectionIgnoresForm(a: string, b: string)
    requires Normalize(a) == Normalize(b)
    ensures DetectModeCommand(a) == DetectModeCommand(b)
  {
  }

  /** A bot phrase wins over a human phrase in the same utterance; a human
      phrase switches to the human only when no bot phrase occurs. */
  lemma DetectionOrder(utterance: string)
    ensures DetectModeCommand(utterance) == Some(BotDrives) <==> AnyPhraseIn(BotSwitchPhrases, Normalize(utterance))
    ensures DetectModeCommand(utterance) == Some(HumanDrives) <==>
      !AnyPhraseIn(BotSwitchPhrases, Normalize(utterance)) && AnyPhraseIn(HumanSwitchPhrases, Normalize(utterance))
    ensures DetectModeCommand(utterance).None? <==>
      !AnyPhraseIn(BotSwitchPhrases, Normalize(utterance)) && !AnyPhraseIn(HumanSwitchPhrases, Normalize(utterance))
  {
  }

  /** The machine only ever holds one of the two modes, and a command that
      names the current mode is no transition: "take over" while the bot
      drives changes nothing, "let me try" then hands over to the human. */
  method ScenarioTakeOverThenLetMeTry() returns (first: Option<ModeTransition>, second: Option<ModeTransition>, after: Mode)
    ensures first.None?
    ensures second == Some(ModeTransition(BotDrives, HumanDrives, "let me try"))
    ensures after == HumanDrives
  {
    var machine := new ModeStateMachine();
    DetectTakeOver();
    DetectLetMeTry();
    first := machine.ApplyVoiceCommand("take over");
    second := machine.ApplyVoiceCommand("let me try");
    after := machine.mode;
  }

  /** The words of a plain phrase: non-empty, space-free, normal characters. */
  predicate PlainWords(ws: seq<string>) {
    (forall i :: 0 <= i < |ws| ==> ws[i] != [] && HasNoSpace(ws[i]))
    && (forall i, j :: 0 <= i < |ws| && 0 <= j < |ws[i]| ==> NormalChar(ws[i][j]))
  }

  lemma PlainWordsCons(w: string, ws: seq<string>)
    requires w != [] && HasNoSpace(w) && (forall j :: 0 <= j < |w| ==> NormalChar(w[j]))
    requires PlainWords(ws)
    ensures PlainWords([w] + ws)
  {
    var all := [w] + ws;
    assert forall i :: 1 <= i < |all| ==> all[i] == ws[i - 1];
  }

  lemma PlainTakeOver()
    ensures PlainWords(["take", "over"])
  {
    PlainWordsCons("over", []);
    PlainWordsCons("take", ["over"]);
  }

  lemma JoinTakeOver()
    ensures JoinWith(["take", "over"], " ") == "take over"
  {
  }

  lemma NormalTakeOver()
    ensures Normalize("take over") == "take over"
  {
    PlainTakeOver();
    JoinTakeOver();
    NormalizeOfNormal(["take", "over"]);
  }

  lemma DetectTakeOver()
    ensures DetectModeCommand("take over") == Some(BotDrives)
  {
    NormalTakeOver();
    ContainsAt("take over", BotSwitchPhrases[0], 0);
  }

  lemma PlainLetMeTry()
    ensures PlainWords(["let", "me", "try"])
  {
    PlainWordsCons("try", []);
    PlainWordsCons("me", ["try"]);
    PlainWordsCons("let", ["me", "try"]);
  }

  lemma JoinLetMeTry()
    ensures JoinWith(["let", "me", "try"], " ") == "let me try"
  {
  }

  lemma NormalLetMeTry()
    ensures Normalize("let me try") == "let me try"
  {
    PlainLetMeTry();
    JoinLetMeTry();
    NormalizeOfNormal(["let", "me", "try"]);
  }

  lemma TakeOverNotInLetMeTry()
    ensures !Contains("let me try", "take over")
  {
    var s := "let me try";
    assert s[0] == 'l' && s[1] == 'e';
    NotContained(s, "take over");
  }

  lemma YouDriveNotInLetMeTry()
    ensures !Contains("let me try", "you drive")
  {
    var s := "let me try";
    assert s[0] == 'l' && s[1] == 'e';
    NotContained(s, "you drive");
  }

  lemma BotDrivesNotInLetMeTry()
    ensures !Contains("let me try", "bot drives")
  {
    var s := "let me try";
    assert s[0] == 'l';
    NotContained(s, "bot drives");
  }

  lemma YourTurnNotInLetMeTry()
    ensures !Contains("let me try", "your turn")
  {
    var s := "let me try";
    assert s[0] == 'l' && s[1] == 'e';
    NotContained(s, "your turn");
  }

  lemma NoBotPhraseInLetMeTry()
    ensures !AnyPhraseIn(BotSwitchPhrases, "let me try")
  {
    TakeOverNotInLetMeTry();
    YouDriveNotInLetMeTry();
    BotDrivesNotInLetMeTry();
    YourTurnNotInLetMeTry();
  }

  lemma DetectLetMeTry()
    ensures DetectModeCommand("let me try") == Some(HumanDrives)
  {
    NormalLetMeTry();
    NoBotPhraseInLetMeTry();
    ContainsAt("let me try", HumanSwitchPhrases[0], 0);
  }

  lemma PlainMyTurn()
    ensures PlainWords(["my", "turn"])
  {
    PlainWordsCons("turn", []);
    PlainWordsCons("my", ["turn"]);
  }

  lemma JoinMyTurn()
    ensures JoinWith(["my", "turn"], " ") == "my turn"
  {
  }

  lemma NormalMyTurn()
    ensures Normalize("my turn") == "my turn"
  {
    PlainMyTurn();
    JoinMyTurn();
    NormalizeOfNormal(["my", "turn"]);
  }

  /** Only "my turn" itself, of all the phrases, fits in "my turn". */
  lemma OnlyMyTurnInMyTurn()
    ensures !AnyPhraseIn(BotSwitchPhrases, "my turn")
    ensures !Contains("my turn", HumanSwitchPhrases[0]) && !Contains("my turn", HumanSwitchPhrases[1])
  {
    var s := "my turn";
    forall i | 0 <= i < |BotSwitchPhrases| ensures !Contains(s, BotSwitchPhrases[i]) {
      NotContained(s, BotSwitchPhrases[i]);
    }
    NotContained(s, HumanSwitchPhrases[0]);
    NotContained(s, HumanSwitchPhrases[1]);
  }

  lemma DetectMyTurn()
    ensures DetectModeCommand("my turn") == Some(HumanDrives)
  {
    NormalMyTurn();
    OnlyMyTurnInMyTurn();
    ContainsAt("my turn", HumanSwitchPhrases[2], 0);
  }

  /** A text already made of lower-case, hyphen-free words joined by
      single spaces is its own normal form. */
  lemma NormalizeOfNormal(ws: seq<string>)
    requires PlainWords(ws)
    ensures Normalize(JoinWith(ws, " ")) == JoinWith(ws, " ")
  {
    var n := JoinWith(ws, " ");
    JoinNormal(ws);
    WordsOfJoin(ws);
    assert IsLower(n);
    LowerOfLower(n);
    assert LeadingSpaces(n) == 0 && TrailingSpaces(n) == 0;
    assert Strip(n) == n;
    assert Dehyphen(n) == n;
  }

  /** `sub in s` fails when no position that leaves room for `sub` holds
      its first character. */
  lemma NotContained(s: string, sub: string)
    requires sub != []
    requires forall j :: 0 <= j && j + |sub| <= |s| ==> s[j] != sub[0]
    ensures !Contains(s, sub)
  {
    forall j | 0 <= j && j + |sub| <= |s|
      ensures StartsWith(s[j..], sub) ==> s[j] == sub[0]
    {
      assert s[j..][..|sub|][0] == s[j];
    }
  }
}
