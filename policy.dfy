/** Which tool calls each driving mode permits
    (src/pair_programming_voice_bot/policy.py). */
module Policy {
  import opened Wrappers
  import opened Modes

  datatype ToolAction =
    | ReadFile
    | ReadDescription
    | LookupConcept
    | ApplyPatch
    | ExecuteTests
    | GetCurrentCode
    | GetRunHistory
  {
    /** The enum's string value. */
    function Value(): string {
      match this
      case ReadFile => "read_file"
      case ReadDescription => "read_description"
      case LookupConcept => "lookup_concept"
      case ApplyPatch => "apply_patch"
      case ExecuteTests => "execute_tests"
      case GetCurrentCode => "get_current_code"
      case GetRunHistory => "get_run_history"
    }
  }

  const SharedActions: set<ToolAction> := {ReadFile, ReadDescription, LookupConcept}
  const BotOnlyActions: set<ToolAction> := {ApplyPatch, ExecuteTests}
  const HumanOnlyActions: set<ToolAction> := {GetCurrentCode, GetRunHistory}

  /** `allowed_actions`: the shared actions plus those only the current
      driver may use; the bot edits and runs, the human's helper inspects. */
  function AllowedActions(mode: Mode): (r: set<ToolAction>)
    ensures SharedActions <= r
    ensures mode == BotDrives ==> r * HumanOnlyActions == {} && BotOnlyActions <= r
    ensures mode == HumanDrives ==> r * BotOnlyActions == {} && HumanOnlyActions <= r
  {
    if mode == BotDrives then SharedActions + BotOnlyActions else SharedActions + HumanOnlyActions
  }

  /** The message of `ToolPolicyViolation`. */
  function ViolationMessage(mode: Mode, action: ToolAction): string {
    "Action '" + action.Value() + "' is disabled while in mode '" + mode.Value() + "'."
  }

  /** `assert_allowed`: no effect for a permitted action, the violation
      otherwise. */
  function AssertAllowed(mode: Mode, action: ToolAction): (r: Result<(), string>)
    ensures r.Ok? <==> action in AllowedActions(mode)
    ensures r.Err? ==> r.error == ViolationMessage(mode, action)
  {
    if action !in AllowedActions(mode) then Err(ViolationMessage(mode, action)) else Ok(())
  }

  // ---------------------------------------------------------------- lemmas

  /** The three tables split the seven actions: no action is in two of
      them and every action is in one, so every action is allowed in at
      least one mode. */
  lemma ActionTablesPartition(a: ToolAction)
    ensures SharedActions * BotOnlyActions == {} && SharedActions * HumanOnlyActions == {}
    ensures BotOnlyActions * HumanOnlyActions == {}
    ensures a in SharedActions || a in BotOnlyActions || a in HumanOnlyActions
    ensures a in AllowedActions(BotDrives) || a in AllowedActions(HumanDrives)
  {
    assert ApplyPatch !in SharedActions && ExecuteTests !in SharedActions;
    assert GetCurrentCode !in SharedActions && GetRunHistory !in SharedActions;
    assert ApplyPatch !in HumanOnlyActions && ExecuteTests !in HumanOnlyActions;
  }

  /** An action is allowed in both modes exactly when it is shared. */
  lemma AllowedInBothIffShared(a: ToolAction)
    ensures a in AllowedActions(BotDrives) && a in AllowedActions(HumanDrives) <==> a in SharedActions
  {
    ActionTablesPartition(a);
  }

  /** The permitted actions of one mode, and the refused ones of the other. */
  lemma PolicyTable()
    ensures AssertAllowed(BotDrives, ApplyPatch).Ok? && AssertAllowed(BotDrives, ExecuteTests).Ok?
    ensures AssertAllowed(HumanDrives, ApplyPatch).Err? && AssertAllowed(HumanDrives, ExecuteTests).Err?
    ensures AssertAllowed(HumanDrives, GetCurrentCode).Ok? && AssertAllowed(HumanDrives, GetRunHistory).Ok?
    ensures AssertAllowed(BotDrives, GetCurrentCode).Err? && AssertAllowed(BotDrives, GetRunHistory).Err?
  {
    ActionTablesPartition(ApplyPatch);
    ActionTablesPartition(GetCurrentCode);
  }
}
