/** The coaching hint for a struggle signal
    (src/pair_programming_voice_bot/hints.py). */
module Hints {
  import opened Text
  import opened Struggle

  const RecursiveHelperHint :=
    "Try evaluating conditions in small steps. "
    + "For AND/OR logic, a recursive helper usually keeps this clean."
  const TwoPassHint :=
    "You can break this into two passes: first find all matches, "
    + "then apply ordering/group conflict rules."
  const OrderingHint :=
    "This level usually fails on ordering. Sort by priority descending, "
    + "then alphabetically for ties."
  const AuditHint :=
    "Double-check audit behavior: history should keep timestamps across restore, "
    + "while only the rule set rolls back."
  const MissingFieldHint :=
    "Looks like the same failure repeated. Verify missing-field handling and operator dispatch."
  const FirstMatchWinsHint :=
    "No problem. Rebuild one small helper first, then connect it back. "
    + "For grouped rules, think first-match-wins per group."
  const LevelWallHint :=
    "You have been on this level for a while. "
    + "Want a focused hint on the exact failing assertion?"
  const ExplicitAskHint :=
    "Start with one failing test and implement only what that assertion needs. "
    + "Then rerun and iterate."
  const DefaultHint := "Keep going. If you want, I can suggest the next smallest implementation step."

  /** `hint_for_signal`: chosen by the signal's kind and, for pauses and
      repeated failures, by the level; any other kind gets the default. */
  function HintForSignal(signal: Signal, currentLevel: int): (h: string)
    ensures h != []
    ensures signal.kind == LongPause ==> h == if currentLevel <= 2 then RecursiveHelperHint else TwoPassHint
    ensures signal.kind == RepeatedFailure ==>
      h == (if currentLevel == 3 then OrderingHint else if currentLevel >= 4 then AuditHint else MissingFieldHint)
    ensures signal.kind == Backtrack ==> h == FirstMatchWinsHint
    ensures signal.kind == LevelWall ==> h == LevelWallHint
    ensures signal.kind == ExplicitAsk ==> h == ExplicitAskHint
    ensures signal.kind !in {LongPause, RepeatedFailure, Backtrack, LevelWall, ExplicitAsk} ==> h == DefaultHint
  {
    if signal.kind == LongPause then
      if currentLevel <= 2 then RecursiveHelperHint else TwoPassHint
    else if signal.kind == RepeatedFailure then
      if currentLevel == 3 then OrderingHint
      else if currentLevel >= 4 then AuditHint
      else MissingFieldHint
    else if signal.kind == Backtrack then FirstMatchWinsHint
    else if signal.kind == LevelWall then LevelWallHint
    else if signal.kind == ExplicitAsk then ExplicitAskHint
    else DefaultHint
  }

  /** Only pauses and repeated failures depend on the level; every other
      kind gets the same hint at every level. */
  lemma HintLevelIndependent(signal: Signal, a: int, b: int)
    requires signal.kind != LongPause && signal.kind != RepeatedFailure
    ensures HintForSignal(signal, a) == HintForSignal(signal, b)
  {
  }

  /** A backtrack's hint names first-match-wins. */
  lemma BacktrackHintMentionsFirstMatchWins(signal: Signal, level: int)
    requires signal.kind == Backtrack
    ensures Contains(HintForSignal(signal, level), "first-match-wins")
  {
    var lead := "No problem. Rebuild one small helper first, then connect it back. ";
    var rest := "For grouped rules, think first-match-wins per group.";
    assert rest[25..][..16] == "first-match-wins";
    assert FirstMatchWinsHint[|lead| + 25..] == rest[25..];
    ContainsAt(FirstMatchWinsHint, "first-match-wins", |lead| + 25);
  }
}
