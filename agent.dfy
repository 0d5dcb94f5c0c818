/** The pair-programming bot (src/pair_programming_voice_bot/agent.py): it
    holds the driving mode, feeds what it observes to the struggle detector
    only while the human drives, answers signals with hints, keeps a run
    history and a journal, and checks the tool policy before every tool call.

    `BotState` is the bot's state apart from the workspace files, and the
    functions ending in `Step` or `Observed` say what each call returns and
    leaves behind; the class's methods are proved to do exactly that. */
module Agent {
  import opened Wrappers
  import opened Text
  import opened Modes
  import Policy
  import opened Struggle
  import opened Hints
  import opened Workspace
  import opened Journal
  import opened ConceptLookup

  /** One `run_history` entry. */
  datatype RunEntry = RunEntry(exitCode: int, stderr: string, stageIndex: int, visiblePassed: int, visibleTotal: int)

  /** Mode, detector fields, journal and run history. */
  datatype BotState = BotState(mode: Mode, detector: DetectorState, journal: JournalDict, runHistory: seq<RunEntry>)

  /** What a call returns, and the state after it. */
  datatype Outcome<T> = Outcome(reply: T, state: BotState)

  const TakingOverReply := "Taking over now. I will edit code and run tests."
  const YourTurnReply := "Your turn. I will watch quietly and help if you get stuck."

  /** The journal after `log_mode_switch` for a transition. */
  function LoggedSwitch(j: JournalDict, t: ModeTransition, now: real): JournalDict {
    j.(modeSwitches := j.modeSwitches + [ModeSwitchRecord(now, t.previous.Value(), t.current.Value(), t.trigger)])
  }

  /** `_respond_to_signal` for a signal the detector may or may not have
      raised: a raised one is journalled and answered with its hint. */
  function Respond(st: BotState, signal: Option<Signal>, level: int): Outcome<Option<string>> {
    match signal
    case None => Outcome(None, st)
    case Some(s) =>
      var moments := st.journal.struggleMoments + [StruggleRecord(s.timestamp, s.kind, s.context)];
      Outcome(Some(HintForSignal(s, level)), st.(journal := st.journal.(struggleMoments := moments)))
  }

  /** `set_mode`: a switch to the other mode is journalled; a switch to the
      current mode changes nothing. */
  function SetModeStep(st: BotState, target: Mode, trigger: string, now: real): BotState {
    if st.mode == target then st
    else st.(mode := target, journal := LoggedSwitch(st.journal, ModeTransition(st.mode, target, trigger), now))
  }

  /** `handle_voice_input`: a command that switches the mode is journalled
      and acknowledged; anything else is read for a help request while the
      human drives, and ignored while the bot drives. */
  function VoiceInputStep(cfg: DetectorConfig, st: BotState, utterance: string, level: int, now: real): Outcome<seq<string>> {
    var command := DetectModeCommand(utterance);
    if command.Some? && command.value != st.mode then
      var t := ModeTransition(st.mode, command.value, utterance);
      Outcome([if command.value == BotDrives then TakingOverReply else YourTurnReply],
              st.(mode := command.value, journal := LoggedSwitch(st.journal, t, now)))
    else if st.mode == HumanDrives then
      var d := UserMessageStep(cfg, st.detector, utterance, now);
      var o := Respond(st.(detector := d.state), d.signal, level);
      Outcome(if o.reply.Some? then [o.reply.value] else [], o.state)
    else Outcome([], st)
  }

  /** `observe_code_update`. */
  function CodeUpdateObserved(cfg: DetectorConfig, st: BotState, code: string, level: int, now: real): Outcome<Option<string>> {
    if st.mode != HumanDrives then Outcome(None, st)
    else
      var d := CodeUpdateStep(cfg, st.detector, code, now);
      Respond(st.(detector := d.state), d.signal, level)
  }

  /** `observe_run_result`: recorded in the history and the journal in
      either mode; the detector sees it only while the human drives, and
      the hint is for level `stageIndex + 1`. */
  function RunResultObserved(cfg: DetectorConfig, st: BotState, exitCode: int, stderr: string, stageIndex: int,
                             visiblePassed: int, visibleTotal: int, now: real): Outcome<Option<string>> {
    var logged := st.(runHistory := st.runHistory + [RunEntry(exitCode, stderr, stageIndex, visiblePassed, visibleTotal)],
                      journal := st.journal.(testTimeline := st.journal.testTimeline + [TestRecord(stageIndex, visiblePassed, visibleTotal)]));
    if st.mode != HumanDrives then Outcome(None, logged)
    else
      var d := RunResultStep(cfg, st.detector, exitCode, stderr, stageIndex, now);
      Respond(logged.(detector := d.state), d.signal, stageIndex + 1)
  }

  /** `periodic_check`: the idle check first, the level wall only when
      that raised nothing. */
  function PeriodicCheckStep(cfg: DetectorConfig, st: BotState, level: int, testsStillFailing: bool, now: real): Outcome<Option<string>> {
    if st.mode != HumanDrives then Outcome(None, st)
    else
      var idle := IdleStep(cfg, st.detector, testsStillFailing, now);
      if idle.signal.Some? then Respond(st.(detector := idle.state), idle.signal, level)
      else
        var wall := LevelWallStep(cfg, idle.state, level, now);
        Respond(st.(detector := wall.state), wall.signal, level)
  }

  // ---------------------------------------------------------- tool results

  /** Why a tool call failed: the policy refused it, or the workspace or
      the backend reported an error. */
  datatype ToolError = PolicyViolation(message: string) | ToolFailure(message: string)

  /** `ToolPolicy.assert_allowed` as a tool sees it. */
  function Gate(mode: Mode, action: Policy.ToolAction): (r: Option<ToolError>)
    ensures r.None? <==> action in Policy.AllowedActions(mode)
    ensures r.Some? ==> r.value == PolicyViolation(Policy.ViolationMessage(mode, action))
  {
    match Policy.AssertAllowed(mode, action)
    case Ok(_) => None
    case Err(m) => Some(PolicyViolation(m))
  }

  function Lift<T>(r: Result<T, string>): Result<T, ToolError> {
    match r
    case Ok(v) => Ok(v)
    case Err(m) => Err(ToolFailure(m))
  }

  /** A tool's result: the refusal when the policy refuses, what the tool
      computes otherwise. */
  function Gated<T>(mode: Mode, action: Policy.ToolAction, x: Result<T, string>): (r: Result<T, ToolError>)
    ensures Refused(r) <==> action !in Policy.AllowedActions(mode)
    ensures Refused(r) ==> r.error.message == Policy.ViolationMessage(mode, action)
    ensures action in Policy.AllowedActions(mode) ==> r == Lift(x)
  {
    if Gate(mode, action).Some? then Err(Gate(mode, action).value) else Lift(x)
  }

  /** The policy refused the call. */
  predicate Refused<T>(r: Result<T, ToolError>) {
    r.Err? && r.error.PolicyViolation?
  }

  /** The fields `summarize_test_result` reads from a run result, each None
      when the result lacks it. */
  datatype ResultView = ResultView(
    currentIndex: Option<int>, currentPassed: Option<bool>, unlockedNext: Option<bool>,
    visiblePassed: Option<int>, visibleTotal: Option<int>)

  /** The assessment backend's `execute_tests(session_id, question_name, files)`. */
  type Backend = (string, string, map<string, string>) -> Result<ResultView, string>

  const NoBackendMessage := "No assessment backend configured."

  /** `summarize_test_result`. */
  function SummarizeTestResult(result: ResultView): (s: string)
    ensures var i := result.currentIndex.GetOr(0);
      result.currentPassed.GetOr(false) && result.unlockedNext.GetOr(false) ==>
        s == "Level " + IntToString(i + 1) + " passed. Unlocking Level " + IntToString(i + 2) + "."
    ensures var i := result.currentIndex.GetOr(0);
      !result.currentPassed.GetOr(false) ==>
        s == "Level " + IntToString(i + 1) + ": " + IntToString(result.visiblePassed.GetOr(0)) + "/"
             + IntToString(result.visibleTotal.GetOr(0)) + " visible tests passing."
  {
    var i := result.currentIndex.GetOr(0);
    if result.currentPassed.GetOr(false) then
      if result.unlockedNext.GetOr(false) then
        "Level " + IntToString(i + 1) + " passed. Unlocking Level " + IntToString(i + 2) + "."
      else "All levels complete."
    else
      "Level " + IntToString(i + 1) + ": " + IntToString(result.visiblePassed.GetOr(0)) + "/"
      + IntToString(result.visibleTotal.GetOr(0)) + " visible tests passing."
  }

  // -------------------------------------------------------------- the class

  /** `PairProgrammingVoiceBot`. */
  class PairProgrammingBot {
    const workspace: QuestionWorkspace
    const questionName: string
    const backend: Option<Backend>
    const modeState: ModeStateMachine
    const detector: StruggleDetector
    const journal: SessionJournal
    var runHistory: seq<RunEntry>

    /** The `mode` property. */
    function Mode(): Mode
      reads this, modeState
    {
      modeState.mode
    }

    function State(): BotState
      reads this, modeState, detector, journal
    {
      BotState(modeState.mode, detector.State(), journal.ToDict(), runHistory)
    }

    /** A mode machine or detector that is not supplied is made afresh: the
        bot then starts with the bot driving, and a detector with the
        default settings (`digest` standing for MD5). */
    constructor (workspace: QuestionWorkspace, questionName: string, backend: Option<Backend>,
                 modeState: Option<ModeStateMachine>, detector: Option<StruggleDetector>, digest: string -> string)
      ensures this.workspace == workspace && this.questionName == questionName && this.backend == backend
      ensures modeState.Some? ==> this.modeState == modeState.value
      ensures modeState.None? ==> fresh(this.modeState) && this.modeState.mode == BotDrives
      ensures detector.Some? ==> this.detector == detector.value
      ensures detector.None? ==> fresh(this.detector) && this.detector.config == DefaultConfig(digest)
                                 && this.detector.State() == FreshState
      ensures fresh(journal) && journal.ToDict() == JournalDict(questionName, [], [], [], [], None)
      ensures runHistory == []
    {
      var machine: ModeStateMachine;
      if modeState.Some? {
        machine := modeState.value;
      } else {
        machine := new ModeStateMachine();
      }
      var watcher: StruggleDetector;
      if detector.Some? {
        watcher := detector.value;
      } else {
        watcher := new StruggleDetector(DefaultConfig(digest));
      }
      var log := new SessionJournal(questionName);
      this.workspace := workspace;
      this.questionName := questionName;
      this.backend := backend;
      this.modeState := machine;
      this.detector := watcher;
      this.journal := log;
      runHistory := [];
    }

    /** `set_mode`, with the clock's reading as `now`. */
    method SetMode(target: Mode, now: real, trigger: string := "manual")
      modifies modeState, journal
      ensures State() == SetModeStep(old(State()), target, trigger, now)
    {
      var t := modeState.SetMode(target, trigger);
      if t.Some? {
        journal.LogModeSwitch(t.value.previous.Value(), t.value.current.Value(), t.value.trigger, now);
      }
    }

    /** `handle_voice_input`. */
    method HandleVoiceInput(utterance: string, currentLevel: int, now: real) returns (responses: seq<string>)
      modifies modeState, detector, journal
      ensures Outcome(responses, State()) == VoiceInputStep(detector.config, old(State()), utterance, currentLevel, now)
    {
      responses := [];
      var t := modeState.ApplyVoiceCommand(utterance);
      if t.Some? {
        journal.LogModeSwitch(t.value.previous.Value(), t.value.current.Value(), t.value.trigger, now);
        if t.value.current == BotDrives {
          responses := [TakingOverReply];
        } else {
          responses := [YourTurnReply];
        }
        return;
      }
      if modeState.mode == HumanDrives {
        var signal := detector.OnUserMessage(utterance, now);
        if signal.Some? {
          var hint := RespondToSignal(signal.value, currentLevel);
          responses := [hint];
        }
      }
    }

    /** `observe_code_update`. */
    method ObserveCodeUpdate(code: string, currentLevel: int, now: real) returns (hint: Option<string>)
      modifies detector, journal
      ensures Outcome(hint, State()) == CodeUpdateObserved(detector.config, old(State()), code, currentLevel, now)
    {
      if modeState.mode != HumanDrives {
        return None;
      }
      var signal := detector.OnCodeUpdate(code, now);
      if signal.None? {
        return None;
      }
      var h := RespondToSignal(signal.value, currentLevel);
      hint := Some(h);
    }

    /** `observe_run_result`. */
    method ObserveRunResult(exitCode: int, stderr: string, stageIndex: int, now: real,
                            visiblePassed: int := 0, visibleTotal: int := 0) returns (hint: Option<string>)
      modifies this, detector, journal
      ensures Outcome(hint, State())
              == RunResultObserved(detector.config, old(State()), exitCode, stderr, stageIndex, visiblePassed, visibleTotal, now)
    {
      runHistory := runHistory + [RunEntry(exitCode, stderr, stageIndex, visiblePassed, visibleTotal)];
      journal.LogTestResult(stageIndex, visiblePassed, visibleTotal);
      if modeState.mode != HumanDrives {
        return None;
      }
      var signal := detector.OnRunResult(exitCode, stderr, stageIndex, now);
      if signal.None? {
        return None;
      }
      var h := RespondToSignal(signal.value, stageIndex + 1);
      hint := Some(h);
    }

    /** `periodic_check`. */
    method PeriodicCheck(currentLevel: int, testsStillFailing: bool, now: real) returns (hint: Option<string>)
      modifies detector, journal
      ensures Outcome(hint, State()) == PeriodicCheckStep(detector.config, old(State()), currentLevel, testsStillFailing, now)
    {
      if modeState.mode != HumanDrives {
        return None;
      }
      var signal := detector.CheckIdle(testsStillFailing, now);
      if signal.None? {
        signal := detector.CheckLevelWall(currentLevel, now);
      }
      if signal.None? {
        return None;
      }
      var h := RespondToSignal(signal.value, currentLevel);
      hint := Some(h);
    }

    /** `_respond_to_signal`. */
    method RespondToSignal(signal: Signal, currentLevel: int) returns (hint: string)
      modifies journal
      ensures Outcome(Some(hint), State()) == Respond(old(State()), Some(signal), currentLevel)
    {
      journal.LogStruggle(signal.kind, signal.timestamp, signal.context);
      hint := HintForSignal(signal, currentLevel);
    }

    // ----------------------------------------------------------- the tools

    /** `read_file`. */
    function ReadFile(path: string): (r: Result<string, ToolError>)
      reads this, modeState, workspace
      ensures Refused(r) <==> Policy.ReadFile !in Policy.AllowedActions(modeState.mode)
      ensures !Refused(r) ==> r == Lift(workspace.ReadFile(path))
    {
      Gated(modeState.mode, Policy.ReadFile, workspace.ReadFile(path))
    }

    /** `read_description`. */
    function ReadDescription(level: int := 1): (r: Result<string, ToolError>)
      reads this, modeState, workspace
      ensures Refused(r) <==> Policy.ReadDescription !in Policy.AllowedActions(modeState.mode)
      ensures !Refused(r) ==> r == Lift(workspace.ReadDescription(level))
    {
      Gated(modeState.mode, Policy.ReadDescription, workspace.ReadDescription(level))
    }

    /** `get_current_code`. */
    function GetCurrentCode(filePath: string := "ruleengine.py"): (r: Result<string, ToolError>)
      reads this, modeState, workspace
      ensures Refused(r) <==> Policy.GetCurrentCode !in Policy.AllowedActions(modeState.mode)
      ensures !Refused(r) ==> r == Lift(workspace.GetCurrentCode(filePath))
    {
      Gated(modeState.mode, Policy.GetCurrentCode, workspace.GetCurrentCode(filePath))
    }

    /** `get_run_history`. */
    function GetRunHistory(): (r: Result<seq<RunEntry>, ToolError>)
      reads this, modeState
      ensures Refused(r) <==> Policy.GetRunHistory !in Policy.AllowedActions(modeState.mode)
      ensures !Refused(r) ==> r == Lift(Ok(runHistory))
    {
      Gated(modeState.mode, Policy.GetRunHistory, Ok(runHistory))
    }

    /** `execute_tests`: the policy first, then the backend, if there is one. */
    function ExecuteTests(sessionId: string, files: map<string, string>): (r: Result<ResultView, ToolError>)
      reads this, modeState
      ensures Refused(r) <==> Policy.ExecuteTests !in Policy.AllowedActions(modeState.mode)
      ensures !Refused(r) && backend.None? ==> r == Err(ToolFailure(NoBackendMessage))
      ensures !Refused(r) && backend.Some? ==> r == Lift(backend.value(sessionId, questionName, files))
    {
      Gated(modeState.mode, Policy.ExecuteTests,
            if backend.None? then Err(NoBackendMessage) else backend.value(sessionId, questionName, files))
    }

    /** `lookup_concept`: a permitted lookup is journalled; `web` is the
        web search's answer. */
    method LookupConcept(query: string, web: Option<string>) returns (r: Result<string, ToolError>)
      modifies journal
      ensures r == Gated(modeState.mode, Policy.LookupConcept, Ok(Lookup(query, web)))
      ensures journal.ToDict() == if r.Ok?
        then old(journal.ToDict()).(browserbaseLookups := old(journal.browserbaseLookups) + [LookupRecord(query, r.value)])
        else old(journal.ToDict())
    {
      match Gate(modeState.mode, Policy.LookupConcept)
      case Some(refusal) =>
        return Err(refusal);
      case None =>
      var summary := Lookup(query, web);
      journal.LogLookup(query, summary);
      r := Ok(summary);
    }

    /** `apply_patch`: a refused patch leaves the files as they were. */
    method ApplyPatch(filePath: string, oldText: string, newText: string) returns (r: Result<string, ToolError>)
      modifies workspace
      ensures Gate(modeState.mode, Policy.ApplyPatch).Some? ==>
        r == Err(Gate(modeState.mode, Policy.ApplyPatch).value) && workspace.files == old(workspace.files)
      ensures Gate(modeState.mode, Policy.ApplyPatch).None? ==>
        var p := Patch(workspace.root, old(workspace.files), filePath, oldText, newText);
        r == Lift(p.message) && workspace.files == p.files
    {
      var refused := Gate(modeState.mode, Policy.ApplyPatch);
      if refused.Some? {
        return Err(refused.value);
      }
      var message := workspace.ApplyPatch(filePath, oldText, newText);
      r := Lift(message);
    }

    /** `save_session_journal` up to the write: the journal's final code
        becomes the current `ruleengine.py`, without a policy check. */
    method SaveSessionJournal() returns (r: Result<(), ToolError>)
      modifies journal
      ensures workspace.GetCurrentCode().Err? ==>
        r == Err(ToolFailure(workspace.GetCurrentCode().error)) && journal.ToDict() == old(journal.ToDict())
      ensures workspace.GetCurrentCode().Ok? ==>
        r.Ok? && journal.ToDict() == old(journal.ToDict()).(finalCode := Some(workspace.GetCurrentCode().value))
    {
      var code := workspace.GetCurrentCode("ruleengine.py");
      if code.Err? {
        return Err(ToolFailure(code.error));
      }
      journal.SetFinalCode(code.value);
      r := Ok(());
    }
  }

  // ---------------------------------------------------------------- lemmas

  /** A command that switches the mode is answered with exactly one
      acknowledgement, journalled as one mode switch triggered by the
      utterance, and never reaches the detector. */
  lemma VoiceTransitionAnswersOnce(cfg: DetectorConfig, st: BotState, utterance: string, level: int, now: real)
    requires DetectModeCommand(utterance).Some? && DetectModeCommand(utterance).value != st.mode
    ensures var o := VoiceInputStep(cfg, st, utterance, level, now);
      |o.reply| == 1 && o.state.mode == DetectModeCommand(utterance).value && o.state.detector == st.detector
      && o.state.runHistory == st.runHistory
      && o.state.journal.modeSwitches
         == st.journal.modeSwitches + [ModeSwitchRecord(now, st.mode.Value(), o.state.mode.Value(), utterance)]
      && o.state.journal.struggleMoments == st.journal.struggleMoments
  {
  }

  /** While the bot drives, only a command for the human to drive changes
      anything: other speech, code updates and periodic checks get no reply
      and leave the state alone. */
  lemma QuietWhileBotDrives(cfg: DetectorConfig, st: BotState, utterance: string, code: string, level: int,
                            failing: bool, now: real)
    requires st.mode == BotDrives
    ensures DetectModeCommand(utterance) != Some(HumanDrives) ==> VoiceInputStep(cfg, st, utterance, level, now) == Outcome([], st)
    ensures CodeUpdateObserved(cfg, st, code, level, now) == Outcome(None, st)
    ensures PeriodicCheckStep(cfg, st, level, failing, now) == Outcome(None, st)
  {
  }

  /** Every run result adds one history entry and one journal test record,
      whatever the mode; while the bot drives nothing else changes. */
  lemma RunResultAlwaysRecorded(cfg: DetectorConfig, st: BotState, exitCode: int, stderr: string, stageIndex: int,
                                visiblePassed: int, visibleTotal: int, now: real)
    ensures var o := RunResultObserved(cfg, st, exitCode, stderr, stageIndex, visiblePassed, visibleTotal, now);
      o.state.runHistory == st.runHistory + [RunEntry(exitCode, stderr, stageIndex, visiblePassed, visibleTotal)]
      && o.state.journal.testTimeline == st.journal.testTimeline + [TestRecord(stageIndex, visiblePassed, visibleTotal)]
      && o.state.mode == st.mode && o.state.journal.modeSwitches == st.journal.modeSwitches
    ensures var o := RunResultObserved(cfg, st, exitCode, stderr, stageIndex, visiblePassed, visibleTotal, now);
      st.mode == BotDrives ==> o.reply.None? && o.state.detector == st.detector
  {
  }

  /** While the human drives, a run result's hint is the one for level
      `stageIndex + 1`, and it comes exactly when the detector signals. */
  lemma RunResultHintLevel(cfg: DetectorConfig, st: BotState, exitCode: int, stderr: string, stageIndex: int,
                           visiblePassed: int, visibleTotal: int, now: real)
    requires st.mode == HumanDrives
    ensures var o := RunResultObserved(cfg, st, exitCode, stderr, stageIndex, visiblePassed, visibleTotal, now);
      var d := RunResultStep(cfg, st.detector, exitCode, stderr, stageIndex, now);
      o.reply.Some? <==> d.signal.Some?
    ensures var o := RunResultObserved(cfg, st, exitCode, stderr, stageIndex, visiblePassed, visibleTotal, now);
      var d := RunResultStep(cfg, st.detector, exitCode, stderr, stageIndex, now);
      d.signal.Some? ==> o.reply == Some(HintForSignal(d.signal.value, stageIndex + 1))
  {
  }

  /** An idle signal settles the periodic check: the level wall is not
      looked at, so its cooldown and start times play no part. */
  lemma PeriodicIdleFirst(cfg: DetectorConfig, st: BotState, level: int, now: real)
    requires st.mode == HumanDrives
    requires IdleStep(cfg, st.detector, true, now).signal.Some?
    ensures var o := PeriodicCheckStep(cfg, st, level, true, now);
      var idle := IdleStep(cfg, st.detector, true, now);
      o.reply == Some(HintForSignal(idle.signal.value, level)) && o.state.detector == idle.state
  {
  }

  /** A hint is given exactly when one struggle moment is journalled. */
  lemma HintIffStruggleJournalled(cfg: DetectorConfig, st: BotState, code: string, level: int, failing: bool, now: real)
    ensures var o := CodeUpdateObserved(cfg, st, code, level, now);
      |o.state.journal.struggleMoments| == |st.journal.struggleMoments| + (if o.reply.Some? then 1 else 0)
    ensures var o := PeriodicCheckStep(cfg, st, level, failing, now);
      |o.state.journal.struggleMoments| == |st.journal.struggleMoments| + (if o.reply.Some? then 1 else 0)
  {
  }

  /** Patching and running tests are refused while the human drives;
      reading the code and the run history are refused while the bot drives. */
  lemma ToolsFollowTheDriver<T>(x: Result<T, string>)
    ensures Refused(Gated(HumanDrives, Policy.ApplyPatch, x)) && Refused(Gated(HumanDrives, Policy.ExecuteTests, x))
    ensures Refused(Gated(BotDrives, Policy.GetCurrentCode, x)) && Refused(Gated(BotDrives, Policy.GetRunHistory, x))
    ensures !Refused(Gated(BotDrives, Policy.ReadFile, x)) && !Refused(Gated(HumanDrives, Policy.ReadFile, x))
  {
    Policy.PolicyTable();
    assert Policy.ReadFile in Policy.SharedActions;
  }

  /** "All levels complete." is the summary exactly when the stage passed
      with nothing left to unlock; every other summary names the level. */
  lemma SummaryKinds(result: ResultView)
    ensures SummarizeTestResult(result) == "All levels complete." <==>
      result.currentPassed.GetOr(false) && !result.unlockedNext.GetOr(false)
    ensures !(result.currentPassed.GetOr(false) && !result.unlockedNext.GetOr(false)) ==>
      StartsWith(SummarizeTestResult(result), "Level " + IntToString(result.currentIndex.GetOr(0) + 1))
  {
    var s := SummarizeTestResult(result);
    var head := "Level " + IntToString(result.currentIndex.GetOr(0) + 1);
    if !(result.currentPassed.GetOr(false) && !result.unlockedNext.GetOr(false)) {
      assert s[..|head|] == head;
      assert s[0] == 'L';
    }
  }

  // ------------------------------------------------------- the mode journal

  /** What can happen to the bot, with the clock's reading for each. */
  datatype BotEvent =
    | SetModeEvent(target: Mode, trigger: string, now: real)
    | VoiceEvent(utterance: string, level: int, now: real)
    | CodeEvent(code: string, level: int, now: real)
    | RunEvent(exitCode: int, stderr: string, stageIndex: int, visiblePassed: int, visibleTotal: int, now: real)
    | PeriodicEvent(level: int, testsStillFailing: bool, now: real)

  function ApplyBot(cfg: DetectorConfig, st: BotState, e: BotEvent): BotState {
    match e
    case SetModeEvent(target, trigger, now) => SetModeStep(st, target, trigger, now)
    case VoiceEvent(utterance, level, now) => VoiceInputStep(cfg, st, utterance, level, now).state
    case CodeEvent(code, level, now) => CodeUpdateObserved(cfg, st, code, level, now).state
    case RunEvent(exitCode, stderr, stageIndex, vp, vt, now) =>
      RunResultObserved(cfg, st, exitCode, stderr, stageIndex, vp, vt, now).state
    case PeriodicEvent(level, failing, now) => PeriodicCheckStep(cfg, st, level, failing, now).state
  }

  function RunBot(cfg: DetectorConfig, st: BotState, events: seq<BotEvent>): BotState
    decreases |events|
  {
    if events == [] then st else RunBot(cfg, ApplyBot(cfg, st, events[0]), events[1..])
  }

  /** The journal's mode switches tell the mode's whole history from
      `initial`: each switch changes the mode, starts where the previous one
      ended, and the last one ends at the current mode. */
  predicate ModeLogFaithful(initial: Mode, st: BotState) {
    var ms := st.journal.modeSwitches;
    (ms == [] ==> st.mode == initial)
    && (ms != [] ==> ms[0].previous == initial.Value() && ms[|ms| - 1].current == st.mode.Value())
    && (forall i :: 0 < i < |ms| ==> ms[i].previous == ms[i - 1].current)
    && (forall i :: 0 <= i < |ms| ==> ms[i].previous != ms[i].current)
  }

  lemma LoggedSwitchFaithful(initial: Mode, st: BotState, target: Mode, trigger: string, now: real)
    requires ModeLogFaithful(initial, st) && target != st.mode
    ensures ModeLogFaithful(initial, st.(mode := target, journal := LoggedSwitch(st.journal, ModeTransition(st.mode, target, trigger), now)))
  {
    var ms := st.journal.modeSwitches;
    var ms' := LoggedSwitch(st.journal, ModeTransition(st.mode, target, trigger), now).modeSwitches;
    assert ms' == ms + [ModeSwitchRecord(now, st.mode.Value(), target.Value(), trigger)];
    assert forall i :: 0 <= i < |ms| ==> ms'[i] == ms[i];
    if ms == [] {
      assert st.mode == initial;
    }
  }

  /** A step that leaves the mode and the mode switches alone keeps the
      history faithful. */
  lemma SameModeLogFaithful(initial: Mode, st: BotState, st': BotState)
    requires ModeLogFaithful(initial, st)
    requires st'.mode == st.mode && st'.journal.modeSwitches == st.journal.modeSwitches
    ensures ModeLogFaithful(initial, st')
  {
  }

  /** Answering a signal touches neither the mode nor the mode switches. */
  lemma RespondKeepsMode(st: BotState, signal: Option<Signal>, level: int)
    ensures Respond(st, signal, level).state.mode == st.mode
    ensures Respond(st, signal, level).state.journal.modeSwitches == st.journal.modeSwitches
  {
  }

  lemma {:induction false} ApplyBotFaithful(cfg: DetectorConfig, initial: Mode, st: BotState, e: BotEvent)
    requires ModeLogFaithful(initial, st)
    ensures ModeLogFaithful(initial, ApplyBot(cfg, st, e))
  {
    match e
    case SetModeEvent(target, trigger, now) =>
      if target != st.mode {
        LoggedSwitchFaithful(initial, st, target, trigger, now);
      }
    case VoiceEvent(utterance, level, now) =>
      var command := DetectModeCommand(utterance);
      if command.Some? && command.value != st.mode {
        LoggedSwitchFaithful(initial, st, command.value, utterance, now);
      } else if st.mode == HumanDrives {
        var d := UserMessageStep(cfg, st.detector, utterance, now);
        RespondKeepsMode(st.(detector := d.state), d.signal, level);
        SameModeLogFaithful(initial, st, ApplyBot(cfg, st, e));
      }
    case CodeEvent(code, level, now) =>
      if st.mode == HumanDrives {
        var d := CodeUpdateStep(cfg, st.detector, code, now);
        RespondKeepsMode(st.(detector := d.state), d.signal, level);
        SameModeLogFaithful(initial, st, ApplyBot(cfg, st, e));
      }
    case RunEvent(exitCode, stderr, stageIndex, vp, vt, now) =>
      var logged := st.(runHistory := st.runHistory + [RunEntry(exitCode, stderr, stageIndex, vp, vt)],
                        journal := st.journal.(testTimeline := st.journal.testTimeline + [TestRecord(stageIndex, vp, vt)]));
      if st.mode == HumanDrives {
        var d := RunResultStep(cfg, st.detector, exitCode, stderr, stageIndex, now);
        RespondKeepsMode(logged.(detector := d.state), d.signal, stageIndex + 1);
      }
      SameModeLogFaithful(initial, st, ApplyBot(cfg, st, e));
    case PeriodicEvent(level, failing, now) =>
      if st.mode == HumanDrives {
        var idle := IdleStep(cfg, st.detector, failing, now);
        var wall := LevelWallStep(cfg, idle.state, level, now);
        RespondKeepsMode(st.(detector := idle.state), idle.signal, level);
        RespondKeepsMode(st.(detector := wall.state), wall.signal, level);
        SameModeLogFaithful(initial, st, ApplyBot(cfg, st, e));
      }
  }

  /** Whatever the bot goes through, the journal's mode switches stay a
      faithful history of its mode. */
  lemma {:induction false} ModeLogStaysFaithful(cfg: DetectorConfig, initial: Mode, st: BotState, events: seq<BotEvent>)
    requires ModeLogFaithful(initial, st)
    ensures ModeLogFaithful(initial, RunBot(cfg, st, events))
    decreases |events|
  {
    if events != [] {
      ApplyBotFaithful(cfg, initial, st, events[0]);
      ModeLogStaysFaithful(cfg, initial, ApplyBot(cfg, st, events[0]), events[1..]);
    }
  }

  // ------------------------------------------------------------ scenarios

  /** A fresh bot over the three files of a question. */
  method NewTestBot(digest: string -> string) returns (bot: PairProgrammingBot)
    ensures fresh(bot) && fresh(bot.modeState) && fresh(bot.detector) && fresh(bot.journal) && fresh(bot.workspace)
    ensures bot.Mode() == BotDrives
    ensures bot.detector.config == DefaultConfig(digest).(nudgeCooldown := 0) && bot.detector.State() == FreshState
    ensures bot.workspace.root == ["q"]
    ensures bot.workspace.files == map["desc.md" := "# Rule Engine\n", "desc_level2.md" := "# Level 2\n",
                                       "ruleengine.py" := "print('hello')\n"]
    ensures bot.journal.ToDict().questionName == "ruleengine"
  {
    var workspace := new QuestionWorkspace(["q"], map["desc.md" := "# Rule Engine\n", "desc_level2.md" := "# Level 2\n",
                                                      "ruleengine.py" := "print('hello')\n"]);
    var detector := new StruggleDetector(DefaultConfig(digest).(nudgeCooldown := 0));
    bot := new PairProgrammingBot(workspace, "ruleengine", None, None, Some(detector), digest);
  }

  /** Saying "my turn" to a new bot hands the keyboard over with one reply. */
  method ScenarioVoiceModeSwitch(digest: string -> string) returns (before: Mode, responses: seq<string>, after: Mode)
    ensures before == BotDrives && after == HumanDrives && |responses| == 1
  {
    var bot := NewTestBot(digest);
    before := bot.Mode();
    DetectMyTurn();
    responses := bot.HandleVoiceInput("my turn", 1, 0.0);
    after := bot.Mode();
  }

  /** While the human drives, a patch is refused and the file is untouched. */
  method ScenarioPatchRefusedForHuman(digest: string -> string) returns (r: Result<string, ToolError>, code: string)
    ensures Refused(r)
    ensures code == "print('hello')\n"
  {
    var bot := NewTestBot(digest);
    bot.SetMode(HumanDrives, 0.0, "test");
    Policy.PolicyTable();
    r := bot.ApplyPatch("ruleengine.py", "hello", "world");
    code := bot.workspace.files["ruleengine.py"];
  }

  /** Cutting ten characters down to one while the human drives brings the
      first-match-wins hint. */
  method ScenarioBacktrackHint(digest: string -> string) returns (first: Option<string>, hint: Option<string>)
    ensures first.None?
    ensures hint.Some? && Contains(hint.value, "first-match-wins")
  {
    var bot := NewTestBot(digest);
    bot.SetMode(HumanDrives, 0.0, "test");
    first := bot.ObserveCodeUpdate("1234567890", 3, 10.0);
    assert BacktrackThreshold(10, 0.2) == 8;
    hint := bot.ObserveCodeUpdate("1", 3, 11.0);
    BacktrackHintMentionsFirstMatchWins(Signal(Backtrack, 11.0, Sizes(10, 1)), 3);
  }
}
