/** Signs that the candidate is stuck, read from timestamped events
    (src/pair_programming_voice_bot/struggle_detector.py). Every event
    carries its own time `now`; the MD5 digest of a run's stderr is a
    parameter of the configuration, of which only determinism is used. */
module Struggle {
  import opened Wrappers
  import opened Text

  const Backtrack := "backtrack"
  const RepeatedFailure := "repeated_failure"
  const LongPause := "long_pause"
  const LevelWall := "level_wall"
  const ExplicitAsk := "explicit_ask"

  /** The keyword arguments `_emit` stores in a signal's context. */
  datatype SignalContext =
    | Sizes(previousSize: nat, currentSize: nat)
    | RunContext(stageIndex: int, exitCode: int)
    | MessageContext(message: string)
    | PauseContext(seconds: int)
    | WallContext(level: int, seconds: int)

  /** `StruggleSignal`. */
  datatype Signal = Signal(kind: string, timestamp: real, context: SignalContext)

  /** The constructor's parameters, and the digest `on_run_result` applies
      to stderr. */
  datatype DetectorConfig = DetectorConfig(
    idleThresholdSeconds: int,
    levelWallSeconds: int,
    backtrackRatio: real,
    nudgeCooldown: int,
    digest: string -> string)

  /** The constructor's defaults: 30 s idle, 300 s per level, a 20% shrink,
      a 60 s cooldown. */
  function DefaultConfig(digest: string -> string): DetectorConfig {
    DetectorConfig(30, 300, 0.2, 60, digest)
  }

  /** One entry of `run_results`: exit code, stderr digest, stage index. */
  datatype RunRecord = RunRecord(exitCode: int, digest: string, stageIndex: int)

  /** The detector's fields. `lastSignalTime` None stands for the initial
      minus infinity. */
  datatype DetectorState = DetectorState(
    lastEditTime: Option<real>,
    runResults: seq<RunRecord>,
    codeSnapshots: seq<string>,
    levelStartTime: map<int, real>,
    lastSignalTime: Option<real>)

  const FreshState := DetectorState(None, [], [], map[], None)

  /** What one call returns, and the fields after it. */
  datatype Step = Step(signal: Option<Signal>, state: DetectorState)

  /** The cooldown has run out since the last signal (always, before the first). */
  predicate Cooled(lastSignalTime: Option<real>, now: real, cooldown: int) {
    lastSignalTime.None? || now - lastSignalTime.value >= cooldown as real
  }

  /** `_emit`: a signal stamped `now` when the shared cooldown has run out,
      which restarts the cooldown; otherwise nothing, and nothing changes. */
  function EmitStep(cfg: DetectorConfig, st: DetectorState, kind: string, now: real, context: SignalContext): (r: Step)
    ensures r.signal.Some? <==> Cooled(st.lastSignalTime, now, cfg.nudgeCooldown)
    ensures r.signal.Some? ==> r.signal.value == Signal(kind, now, context) && r.state == st.(lastSignalTime := Some(now))
    ensures r.signal.None? ==> r.state == st
  {
    if !Cooled(st.lastSignalTime, now, cfg.nudgeCooldown) then Step(None, st)
    else Step(Some(Signal(kind, now, context)), st.(lastSignalTime := Some(now)))
  }

  /** `int(len(previous) * (1 - backtrack_ratio))`. */
  function BacktrackThreshold(previousSize: nat, ratio: real): int {
    Trunc(previousSize as real * (1.0 - ratio))
  }

  /** The new code is markedly shorter than the last snapshot. */
  predicate IsBacktrack(snapshots: seq<string>, code: string, ratio: real) {
    |snapshots| > 0 && |code| < BacktrackThreshold(|snapshots[|snapshots| - 1]|, ratio)
  }

  /** `on_code_update`: the snapshot is kept and the edit time set whether
      or not a backtrack is signalled. */
  function CodeUpdateStep(cfg: DetectorConfig, st: DetectorState, code: string, now: real): (r: Step)
    ensures r.state.codeSnapshots == st.codeSnapshots + [code] && r.state.lastEditTime == Some(now)
    ensures r.state.runResults == st.runResults && r.state.levelStartTime == st.levelStartTime
    ensures r.signal.Some? <==> IsBacktrack(st.codeSnapshots, code, cfg.backtrackRatio) && Cooled(st.lastSignalTime, now, cfg.nudgeCooldown)
    ensures r.signal.Some? ==> r.signal.value.kind == Backtrack && r.signal.value.timestamp == now
    ensures r.state.lastSignalTime == if r.signal.Some? then Some(now) else st.lastSignalTime
  {
    var emitted :=
      if IsBacktrack(st.codeSnapshots, code, cfg.backtrackRatio) then
        EmitStep(cfg, st, Backtrack, now, Sizes(|st.codeSnapshots[|st.codeSnapshots| - 1]|, |code|))
      else Step(None, st);
    Step(emitted.signal, emitted.state.(codeSnapshots := st.codeSnapshots + [code], lastEditTime := Some(now)))
  }

  /** The last two runs failed the same way: same exit code, same stderr
      digest, and a non-zero exit. The stage index plays no part. */
  predicate IsRepeatedFailure(runs: seq<RunRecord>) {
    |runs| >= 2
    && runs[|runs| - 1].exitCode == runs[|runs| - 2].exitCode
    && runs[|runs| - 1].digest == runs[|runs| - 2].digest
    && runs[|runs| - 1].exitCode != 0
  }

  /** `on_run_result`: the run is always recorded. */
  function RunResultStep(cfg: DetectorConfig, st: DetectorState, exitCode: int, stderr: string, stageIndex: int, now: real): (r: Step)
    ensures r.state.runResults == st.runResults + [RunRecord(exitCode, cfg.digest(stderr), stageIndex)]
    ensures r.state.codeSnapshots == st.codeSnapshots && r.state.lastEditTime == st.lastEditTime
    ensures r.state.levelStartTime == st.levelStartTime
    ensures r.signal.Some? <==> IsRepeatedFailure(r.state.runResults) && Cooled(st.lastSignalTime, now, cfg.nudgeCooldown)
    ensures r.signal.Some? ==> r.signal.value.kind == RepeatedFailure && r.signal.value.timestamp == now
    ensures r.state.lastSignalTime == if r.signal.Some? then Some(now) else st.lastSignalTime
  {
    var recorded := st.(runResults := st.runResults + [RunRecord(exitCode, cfg.digest(stderr), stageIndex)]);
    if IsRepeatedFailure(recorded.runResults) then
      EmitStep(cfg, recorded, RepeatedFailure, now, RunContext(stageIndex, exitCode))
    else Step(None, recorded)
  }

  /** `on_level_start`: records, or overwrites, the level's start time. */
  function LevelStartStep(st: DetectorState, level: int, now: real): (r: DetectorState)
    ensures r.levelStartTime == st.levelStartTime[level := now]
    ensures r.(levelStartTime := st.levelStartTime) == st
  {
    st.(levelStartTime := st.levelStartTime[level := now])
  }

  const HelpMarkers: seq<string> := ["help", "stuck", "hint", "what should i do", "not sure"]

  /** The lower-cased message holds one of the help markers. */
  predicate AsksForHelp(message: string) {
    exists i :: 0 <= i < |HelpMarkers| && Contains(Lower(message), HelpMarkers[i])
  }

  /** `on_user_message`. */
  function UserMessageStep(cfg: DetectorConfig, st: DetectorState, message: string, now: real): (r: Step)
    ensures r.signal.Some? <==> AsksForHelp(message) && Cooled(st.lastSignalTime, now, cfg.nudgeCooldown)
    ensures r.signal.Some? ==> r.signal.value == Signal(ExplicitAsk, now, MessageContext(message))
    ensures r.state == st.(lastSignalTime := r.state.lastSignalTime)
  {
    if AsksForHelp(message) then EmitStep(cfg, st, ExplicitAsk, now, MessageContext(message))
    else Step(None, st)
  }

  /** `check_idle`: only while tests fail and after a first edit. */
  function IdleStep(cfg: DetectorConfig, st: DetectorState, testsStillFailing: bool, now: real): (r: Step)
    ensures !testsStillFailing || st.lastEditTime.None? ==> r == Step(None, st)
    ensures r.signal.Some? <==>
      (testsStillFailing && st.lastEditTime.Some?
       && now - st.lastEditTime.value >= cfg.idleThresholdSeconds as real
       && Cooled(st.lastSignalTime, now, cfg.nudgeCooldown))
    ensures r.signal.Some? ==> r.signal.value == Signal(LongPause, now, PauseContext(Trunc(now - st.lastEditTime.value)))
    ensures r.state == st.(lastSignalTime := r.state.lastSignalTime)
  {
    if !testsStillFailing || st.lastEditTime.None? then Step(None, st)
    else if now - st.lastEditTime.value >= cfg.idleThresholdSeconds as real then
      EmitStep(cfg, st, LongPause, now, PauseContext(Trunc(now - st.lastEditTime.value)))
    else Step(None, st)
  }

  /** `check_level_wall`: only for a level whose start was recorded. */
  function LevelWallStep(cfg: DetectorConfig, st: DetectorState, level: int, now: real): (r: Step)
    ensures level !in st.levelStartTime ==> r == Step(None, st)
    ensures r.signal.Some? <==>
      (level in st.levelStartTime
       && now - st.levelStartTime[level] >= cfg.levelWallSeconds as real
       && Cooled(st.lastSignalTime, now, cfg.nudgeCooldown))
    ensures r.signal.Some? ==> r.signal.value == Signal(LevelWall, now, WallContext(level, Trunc(now - st.levelStartTime[level])))
    ensures r.state == st.(lastSignalTime := r.state.lastSignalTime)
  {
    if level !in st.levelStartTime then Step(None, st)
    else if now - st.levelStartTime[level] >= cfg.levelWallSeconds as real then
      EmitStep(cfg, st, LevelWall, now, WallContext(level, Trunc(now - st.levelStartTime[level])))
    else Step(None, st)
  }

  // --------------------------------------------------------- event runs

  /** A call on the detector, with the time it happens at. */
  datatype Event =
    | CodeUpdate(code: string, now: real)
    | RunResult(exitCode: int, stderr: string, stageIndex: int, now: real)
    | LevelStart(level: int, now: real)
    | UserMessage(message: string, now: real)
    | CheckIdle(testsStillFailing: bool, now: real)
    | CheckLevelWall(level: int, now: real)

  function Apply(cfg: DetectorConfig, st: DetectorState, e: Event): (r: Step)
    ensures r.signal.Some? ==> Cooled(st.lastSignalTime, r.signal.value.timestamp, cfg.nudgeCooldown)
    ensures r.signal.Some? ==> r.state.lastSignalTime == Some(r.signal.value.timestamp)
    ensures r.signal.None? ==> r.state.lastSignalTime == st.lastSignalTime
  {
    match e
    case CodeUpdate(code, now) => CodeUpdateStep(cfg, st, code, now)
    case RunResult(exitCode, stderr, stageIndex, now) => RunResultStep(cfg, st, exitCode, stderr, stageIndex, now)
    case LevelStart(level, now) => Step(None, LevelStartStep(st, level, now))
    case UserMessage(message, now) => UserMessageStep(cfg, st, message, now)
    case CheckIdle(failing, now) => IdleStep(cfg, st, failing, now)
    case CheckLevelWall(level, now) => LevelWallStep(cfg, st, level, now)
  }

  /** The signals a run of events produces, in order, and the final fields. */
  datatype Trace = Trace(signals: seq<Signal>, state: DetectorState)

  function RunEvents(cfg: DetectorConfig, st: DetectorState, events: seq<Event>): Trace
    decreases |events|
  {
    if events == [] then Trace([], st)
    else
      var before := RunEvents(cfg, st, events[..|events| - 1]);
      var step := Apply(cfg, before.state, events[|events| - 1]);
      Trace(before.signals + (if step.signal.Some? then [step.signal.value] else []), step.state)
  }

  /** The one cooldown is shared by every kind of signal: over any run of
      events, each signal comes at least `nudge_cooldown` seconds after the
      one before it (and after the last signal before the run), and the
      detector remembers the time of the latest. */
  lemma {:induction false} CooldownSpacing(cfg: DetectorConfig, st: DetectorState, events: seq<Event>)
    ensures var t := RunEvents(cfg, st, events);
      forall i :: 0 < i < |t.signals| ==> t.signals[i].timestamp - t.signals[i - 1].timestamp >= cfg.nudgeCooldown as real
    ensures var t := RunEvents(cfg, st, events);
      t.signals != [] ==> Cooled(st.lastSignalTime, t.signals[0].timestamp, cfg.nudgeCooldown)
    ensures var t := RunEvents(cfg, st, events);
      t.state.lastSignalTime == if t.signals == [] then st.lastSignalTime else Some(t.signals[|t.signals| - 1].timestamp)
    decreases |events|
  {
    if events != [] {
      var init := events[..|events| - 1];
      CooldownSpacing(cfg, st, init);
      var before := RunEvents(cfg, st, init);
      var step := Apply(cfg, before.state, events[|events| - 1]);
      var t := RunEvents(cfg, st, events);
      if step.signal.Some? {
        assert t.signals == before.signals + [step.signal.value];
        forall i | 0 < i < |t.signals|
          ensures t.signals[i].timestamp - t.signals[i - 1].timestamp >= cfg.nudgeCooldown as real
        {
          if i < |before.signals| {
            assert t.signals[i] == before.signals[i] && t.signals[i - 1] == before.signals[i - 1];
          } else {
            assert t.signals[i - 1] == before.signals[|before.signals| - 1];
          }
        }
      } else {
        assert t.signals == before.signals;
      }
    }
  }

  /** Python's `int(n * 0.8)` at the default ratio: a new snapshot of
      `currentSize` characters counts as a backtrack from one of
      `previousSize` exactly when 5 * (currentSize + 1) <= 4 * previousSize. */
  lemma BacktrackAtDefaultRatio(previousSize: nat, currentSize: nat)
    ensures currentSize < BacktrackThreshold(previousSize, 0.2) <==> 5 * (currentSize + 1) <= 4 * previousSize
  {
    var x := previousSize as real * (1.0 - 0.2);
    var t := BacktrackThreshold(previousSize, 0.2);
    assert t as real <= x < t as real + 1.0;
    if 5 * (currentSize + 1) <= 4 * previousSize {
      assert (currentSize + 1) as real <= x;
    }
  }

  /** A shrink only counts against the latest snapshot: with no earlier
      snapshot there is no backtrack, and growing code never is one. */
  lemma NoBacktrackWithoutShrink(snapshots: seq<string>, code: string, ratio: real)
    requires 0.0 <= ratio
    requires snapshots == [] || |code| >= |snapshots[|snapshots| - 1]|
    ensures !IsBacktrack(snapshots, code, ratio)
  {
    if snapshots != [] {
      var n := |snapshots[|snapshots| - 1]|;
      assert n as real * (1.0 - ratio) <= n as real;
      TruncMonotone(n as real * (1.0 - ratio), n as real);
    }
  }

  /** The stage index of a run does not enter the repeated-failure test. */
  lemma RepeatedFailureIgnoresStage(runs: seq<RunRecord>, a: RunRecord, b: RunRecord)
    requires a.exitCode == b.exitCode && a.digest == b.digest
    ensures IsRepeatedFailure(runs + [a]) <==> IsRepeatedFailure(runs + [b])
  {
  }

  // ------------------------------------------------------------ scenarios

  /** A ten-character snapshot followed by a two-character one is a backtrack. */
  lemma ScenarioBacktrack(digest: string -> string)
    ensures var cfg := DefaultConfig(digest).(nudgeCooldown := 0);
      var first := CodeUpdateStep(cfg, FreshState, "1234567890", 10.0);
      var second := CodeUpdateStep(cfg, first.state, "12", 11.0);
      first.signal.None? && second.signal.Some? && second.signal.value.kind == Backtrack
  {
    assert BacktrackThreshold(10, 0.2) == 8;
  }

  /** The same failure twice in a row is a repeated failure. */
  lemma ScenarioRepeatedFailure(digest: string -> string)
    ensures var cfg := DefaultConfig(digest).(nudgeCooldown := 0);
      var first := RunResultStep(cfg, FreshState, 1, "AssertionError", 2, 20.0);
      var second := RunResultStep(cfg, first.state, 1, "AssertionError", 2, 21.0);
      first.signal.None? && second.signal.Some? && second.signal.value.kind == RepeatedFailure
  {
  }

  /** Thirty-one seconds after an edit with failing tests is a long pause;
      301 seconds into level 3 is a level wall. */
  lemma ScenarioIdleAndLevelWall(digest: string -> string)
    ensures var cfg := DefaultConfig(digest).(nudgeCooldown := 0);
      var edited := CodeUpdateStep(cfg, FreshState, "abc", 100.0);
      var idle := IdleStep(cfg, edited.state, true, 131.0);
      var started := LevelStartStep(idle.state, 3, 200.0);
      var wall := LevelWallStep(cfg, started, 3, 501.0);
      idle.signal.Some? && idle.signal.value.kind == LongPause
      && wall.signal.Some? && wall.signal.value.kind == LevelWall
  {
  }

  /** With the default 60 s cooldown a backtrack at t=11 silences a repeated
      failure at t=13 that would otherwise be signalled. */
  lemma ScenarioSharedCooldown(digest: string -> string)
    ensures var cfg := DefaultConfig(digest);
      var s1 := CodeUpdateStep(cfg, FreshState, "abcdefghij", 10.0);
      var s2 := CodeUpdateStep(cfg, s1.state, "a", 11.0);
      var s3 := RunResultStep(cfg, s2.state, 1, "AssertionError", 2, 12.0);
      var s4 := RunResultStep(cfg, s3.state, 1, "AssertionError", 2, 13.0);
      s1.signal.None? && s2.signal.Some? && s3.signal.None? && s4.signal.None?
      && IsRepeatedFailure(s4.state.runResults)
  {
    assert BacktrackThreshold(10, 0.2) == 8;
  }

  // -------------------------------------------------------------- the class

  /** `StruggleDetector`: the fields of `DetectorState`, updated in place. */
  class StruggleDetector {
    const config: DetectorConfig
    var lastEditTime: Option<real>
    var runResults: seq<RunRecord>
    var codeSnapshots: seq<string>
    var levelStartTime: map<int, real>
    var lastSignalTime: Option<real>

    function State(): DetectorState
      reads this
    {
      DetectorState(lastEditTime, runResults, codeSnapshots, levelStartTime, lastSignalTime)
    }

    constructor (config: DetectorConfig)
      ensures this.config == config && State() == FreshState
    {
      this.config := config;
      lastEditTime := None;
      runResults := [];
      codeSnapshots := [];
      levelStartTime := map[];
      lastSignalTime := None;
    }

    method Emit(kind: string, now: real, context: SignalContext) returns (signal: Option<Signal>)
      modifies this
      ensures Step(signal, State()) == EmitStep(config, old(State()), kind, now, context)
    {
      if lastSignalTime.Some? && now - lastSignalTime.value < config.nudgeCooldown as real {
        return None;
      }
      lastSignalTime := Some(now);
      signal := Some(Signal(kind, now, context));
    }

    method OnCodeUpdate(code: string, now: real) returns (signal: Option<Signal>)
      modifies this
      ensures Step(signal, State()) == CodeUpdateStep(config, old(State()), code, now)
    {
      ghost var before := State();
      var snapshots := codeSnapshots;
      signal := None;
      if |snapshots| > 0 {
        var previous := snapshots[|snapshots| - 1];
        var threshold := Trunc(|previous| as real * (1.0 - config.backtrackRatio));
        if |code| < threshold {
          signal := Emit(Backtrack, now, Sizes(|previous|, |code|));
        }
      }
      ghost var emitted := State();
      assert Step(signal, emitted) ==
        if IsBacktrack(snapshots, code, config.backtrackRatio) then
          EmitStep(config, before, Backtrack, now, Sizes(|snapshots[|snapshots| - 1]|, |code|))
        else Step(None, before);
      codeSnapshots := snapshots + [code];
      lastEditTime := Some(now);
    }

    method OnRunResult(exitCode: int, stderr: string, stageIndex: int, now: real) returns (signal: Option<Signal>)
      modifies this
      ensures Step(signal, State()) == RunResultStep(config, old(State()), exitCode, stderr, stageIndex, now)
    {
      var digest := config.digest(stderr);
      runResults := runResults + [RunRecord(exitCode, digest, stageIndex)];
      var n := |runResults|;
      if n >= 2 && runResults[n - 1].exitCode == runResults[n - 2].exitCode
        && runResults[n - 1].digest == runResults[n - 2].digest && runResults[n - 1].exitCode != 0
      {
        signal := Emit(RepeatedFailure, now, RunContext(stageIndex, exitCode));
        return;
      }
      signal := None;
    }

    method OnLevelStart(level: int, now: real)
      modifies this
      ensures State() == LevelStartStep(old(State()), level, now)
    {
      levelStartTime := levelStartTime[level := now];
    }

    method OnUserMessage(message: string, now: real) returns (signal: Option<Signal>)
      modifies this
      ensures Step(signal, State()) == UserMessageStep(config, old(State()), message, now)
    {
      var normalized := Lower(message);
      var i := 0;
      while i < |HelpMarkers|
        invariant 0 <= i <= |HelpMarkers|
        invariant forall j :: 0 <= j < i ==> !Contains(normalized, HelpMarkers[j])
      {
        if Contains(normalized, HelpMarkers[i]) {
          signal := Emit(ExplicitAsk, now, MessageContext(message));
          return;
        }
        i := i + 1;
      }
      signal := None;
    }

    method CheckIdle(testsStillFailing: bool, now: real) returns (signal: Option<Signal>)
      modifies this
      ensures Step(signal, State()) == IdleStep(config, old(State()), testsStillFailing, now)
    {
      if !testsStillFailing || lastEditTime.None? {
        return None;
      }
      if now - lastEditTime.value >= config.idleThresholdSeconds as real {
        signal := Emit(LongPause, now, PauseContext(Trunc(now - lastEditTime.value)));
        return;
      }
      signal := None;
    }

    method CheckLevelWall(level: int, now: real) returns (signal: Option<Signal>)
      modifies this
      ensures Step(signal, State()) == LevelWallStep(config, old(State()), level, now)
    {
      if level !in levelStartTime {
        return None;
      }
      var started := levelStartTime[level];
      if now - started >= config.levelWallSeconds as real {
        signal := Emit(LevelWall, now, WallContext(level, Trunc(now - started)));
        return;
      }
      signal := None;
    }
  }
}
