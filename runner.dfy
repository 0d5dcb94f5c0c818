/** Stage-gated test execution and scoring (backend/runner.py). The
    sandboxed process (`docker_command`) is an executor handed in by the
    caller: given the sandbox's files and a test target it returns the exit
    code, stdout and stderr, or the message of the `ExecutionError` it
    raises. Errors are never caught here: an execution error, a count
    `int()` rejects or a question that does not load ends the whole run. */
module Runner {
  import opened Wrappers
  import opened Text
  import opened UnittestSummary
  import opened Questions

  /** What the sandboxed process reports. */
  datatype Exec = Exec(exitCode: int, stdout: string, stderr: string)

  /** `docker_command(workdir, ("python", target))` over the sandbox's files. */
  type Executor = (Files, string) -> Result<Exec, string>

  /** The exceptions that end a run: `ExecutionError`, the `ValueError`
      of a bad count (with the part that raised), or a question that does
      not load. */
  datatype RunError = ExecutionFailed(message: string) | BadCount(part: string) | QuestionFailed(reason: QuestionError)

  /** The dictionary `run_suite` returns. */
  datatype SuiteResult = SuiteResult(exitCode: int, output: string, passed: nat, total: nat)

  /** The dictionary `run_stage_tests` returns. */
  datatype StageResult = StageResult(
    visiblePass: nat, visibleTotal: nat, hiddenPass: nat, hiddenTotal: nat, output: string, passed: bool)

  /** The dictionary `run_code` returns, flattened. */
  datatype RunReport = RunReport(
    visiblePassed: nat, visibleTotal: nat, visibleOutput: string,
    hiddenPassed: nat, hiddenTotal: nat,
    finalScore: real,
    currentIndex: int, totalStages: nat, currentPassed: bool, unlockedNext: bool, stageName: string)

  /** `run_suite`: the counts are read from stdout and stderr joined by a
      newline; the output is the two joined without one. */
  function RunSuite(exec: Executor, sandbox: Files, target: string): Result<SuiteResult, RunError> {
    match exec(sandbox, target)
    case Err(m) => Err(ExecutionFailed(m))
    case Ok(e) =>
      match SummaryOf(e.stdout + "\n" + e.stderr)
      case Err(part) => Err(BadCount(part))
      case Ok(s) => Ok(SuiteResult(e.exitCode, e.stdout + e.stderr, s.passed, s.total))
  }

  /** What running one target gives. */
  type SuiteRun = string -> Result<SuiteResult, RunError>

  /** `run_suite` in a given sandbox. */
  function SuiteRunner(exec: Executor, sandbox: Files): SuiteRun {
    target => RunSuite(exec, sandbox, target)
  }

  /** The targets run in order; the first error ends the run. */
  function SuitesOf(run: SuiteRun, targets: seq<string>): (r: Result<seq<SuiteResult>, RunError>)
    ensures r.Ok? ==> |r.value| == |targets|
    decreases |targets|
  {
    if targets == [] then Ok([])
    else
      match SuitesOf(run, targets[..|targets| - 1])
      case Err(e) => Err(e)
      case Ok(rs) =>
        match run(targets[|targets| - 1])
        case Err(e) => Err(e)
        case Ok(r) => Ok(rs + [r])
  }

  function SumPassed(rs: seq<SuiteResult>): nat {
    if rs == [] then 0 else SumPassed(rs[..|rs| - 1]) + rs[|rs| - 1].passed
  }

  function SumTotal(rs: seq<SuiteResult>): nat {
    if rs == [] then 0 else SumTotal(rs[..|rs| - 1]) + rs[|rs| - 1].total
  }

  /** Every suite's process exited 0. */
  predicate AllExitedZero(rs: seq<SuiteResult>) {
    rs == [] || (AllExitedZero(rs[..|rs| - 1]) && rs[|rs| - 1].exitCode == 0)
  }

  /** `AllExitedZero` is "each exit code is 0". */
  lemma {:induction false} AllExitedZeroEach(rs: seq<SuiteResult>)
    ensures AllExitedZero(rs) <==> forall i :: 0 <= i < |rs| ==> rs[i].exitCode == 0
  {
    if rs != [] {
      var init := rs[..|rs| - 1];
      AllExitedZeroEach(init);
      assert forall i :: 0 <= i < |init| ==> init[i] == rs[i];
    }
  }

  function Outputs(rs: seq<SuiteResult>): (os: seq<string>)
    ensures |os| == |rs| && forall i :: 0 <= i < |rs| ==> os[i] == rs[i].output
  {
    seq(|rs|, i requires 0 <= i < |rs| => rs[i].output)
  }

  /** `[o for o in outputs if o]`. */
  function NonEmpty(os: seq<string>): seq<string> {
    if os == [] then [] else (if os[0] == "" then [] else [os[0]]) + NonEmpty(os[1..])
  }

  /** The filter keeps exactly the non-empty outputs. */
  lemma {:induction false} NonEmptyKeeps(os: seq<string>)
    ensures forall o :: o in NonEmpty(os) <==> o in os && o != ""
  {
    if os != [] {
      NonEmptyKeeps(os[1..]);
      assert forall o :: o in os <==> o == os[0] || o in os[1..];
    }
  }

  /** What `run_stage_tests` computes: visible targets first, then hidden;
      the stage passes when every count balances and every target exited 0;
      only visible output is shown. */
  function StageOutcome(run: SuiteRun, stage: Stage): Result<StageResult, RunError> {
    match SuitesOf(run, stage.visibleTests)
    case Err(e) => Err(e)
    case Ok(vs) =>
      match SuitesOf(run, stage.hiddenTests)
      case Err(e) => Err(e)
      case Ok(hs) =>
        Ok(StageResult(
          SumPassed(vs), SumTotal(vs), SumPassed(hs), SumTotal(hs),
          JoinWith(NonEmpty(Outputs(vs)), "\n"),
          SumPassed(vs) == SumTotal(vs) && SumPassed(hs) == SumTotal(hs) && AllExitedZero(vs) && AllExitedZero(hs)))
  }

  /** Running `targets[..i + 1]` is running `targets[..i]` and then `targets[i]`. */
  lemma SuitesOfStep(run: SuiteRun, targets: seq<string>, i: nat)
    requires i < |targets|
    ensures SuitesOf(run, targets[..i + 1]) ==
      match SuitesOf(run, targets[..i])
      case Err(e) => Err(e)
      case Ok(rs) =>
        (match run(targets[i])
         case Err(e) => Err(e)
         case Ok(r) => Ok(rs + [r]))
  {
    assert targets[..i + 1][..i] == targets[..i];
  }

  /** A successful run of `targets[..i]` followed by a successful `targets[i]`. */
  lemma SuitesOkStep(run: SuiteRun, targets: seq<string>, i: nat, rs: seq<SuiteResult>, r: SuiteResult)
    requires i < |targets| && SuitesOf(run, targets[..i]) == Ok(rs)
    requires run(targets[i]) == Ok(r)
    ensures SuitesOf(run, targets[..i + 1]) == Ok(rs + [r])
    ensures SumPassed(rs + [r]) == SumPassed(rs) + r.passed
    ensures SumTotal(rs + [r]) == SumTotal(rs) + r.total
    ensures Outputs(rs + [r]) == Outputs(rs) + [r.output]
    ensures AllExitedZero(rs + [r]) == (AllExitedZero(rs) && r.exitCode == 0)
  {
    SuitesOfStep(run, targets, i);
    SuiteSumsStep(rs, r);
  }

  /** A successful run of `targets[..i]` followed by a failing `targets[i]`
      fails the whole run with that error. */
  lemma SuitesErrStep(run: SuiteRun, targets: seq<string>, i: nat, rs: seq<SuiteResult>)
    requires i < |targets| && SuitesOf(run, targets[..i]) == Ok(rs)
    requires run(targets[i]).Err?
    ensures SuitesOf(run, targets) == Err(run(targets[i]).error)
  {
    SuitesOfStep(run, targets, i);
    SuitesErrPrefix(run, targets, i + 1);
  }

  /** An error on a prefix of the targets is the error of the whole run. */
  lemma {:induction false} SuitesErrPrefix(run: SuiteRun, targets: seq<string>, i: nat)
    requires i <= |targets| && SuitesOf(run, targets[..i]).Err?
    ensures SuitesOf(run, targets) == SuitesOf(run, targets[..i])
    decreases |targets| - i
  {
    if i == |targets| {
      assert targets[..i] == targets;
    } else {
      SuitesOfStep(run, targets, i);
      SuitesErrPrefix(run, targets, i + 1);
    }
  }

  /** The sums and flags over `rs + [r]`. */
  lemma SuiteSumsStep(rs: seq<SuiteResult>, r: SuiteResult)
    ensures SumPassed(rs + [r]) == SumPassed(rs) + r.passed
    ensures SumTotal(rs + [r]) == SumTotal(rs) + r.total
    ensures Outputs(rs + [r]) == Outputs(rs) + [r.output]
    ensures AllExitedZero(rs + [r]) == (AllExitedZero(rs) && r.exitCode == 0)
  {
    assert (rs + [r])[..|rs|] == rs;
  }

  /** The visible loop of `run_stage_tests`. */
  method RunVisible(run: SuiteRun, targets: seq<string>)
    returns (r: Result<(nat, nat, seq<string>, bool), RunError>)
    ensures SuitesOf(run, targets).Err? ==> r == Err(SuitesOf(run, targets).error)
    ensures SuitesOf(run, targets).Ok? ==>
      var vs := SuitesOf(run, targets).value;
      r == Ok((SumPassed(vs), SumTotal(vs), Outputs(vs), AllExitedZero(vs)))
  {
    var visiblePass: nat := 0;
    var visibleTotal: nat := 0;
    var outputs: seq<string> := [];
    var allExitedZero := true;
    ghost var vs: seq<SuiteResult> := [];
    var i := 0;
    while i < |targets|
      invariant 0 <= i <= |targets|
      invariant SuitesOf(run, targets[..i]) == Ok(vs)
      invariant visiblePass == SumPassed(vs) && visibleTotal == SumTotal(vs)
      invariant outputs == Outputs(vs) && allExitedZero == AllExitedZero(vs)
    {
      var result := run(targets[i]);
      if result.Err? {
        SuitesErrStep(run, targets, i, vs);
        return Err(result.error);
      }
      SuitesOkStep(run, targets, i, vs, result.value);
      visiblePass := visiblePass + result.value.passed;
      visibleTotal := visibleTotal + result.value.total;
      outputs := outputs + [result.value.output];
      if result.value.exitCode != 0 {
        allExitedZero := false;
      }
      vs := vs + [result.value];
      i := i + 1;
    }
    assert targets[..i] == targets;
    r := Ok((visiblePass, visibleTotal, outputs, allExitedZero));
  }

  /** The hidden loop of `run_stage_tests`: no output is kept. */
  method RunHidden(run: SuiteRun, targets: seq<string>)
    returns (r: Result<(nat, nat, bool), RunError>)
    ensures SuitesOf(run, targets).Err? ==> r == Err(SuitesOf(run, targets).error)
    ensures SuitesOf(run, targets).Ok? ==>
      var hs := SuitesOf(run, targets).value;
      r == Ok((SumPassed(hs), SumTotal(hs), AllExitedZero(hs)))
  {
    var hiddenPass: nat := 0;
    var hiddenTotal: nat := 0;
    var allExitedZero := true;
    ghost var hs: seq<SuiteResult> := [];
    var i := 0;
    while i < |targets|
      invariant 0 <= i <= |targets|
      invariant SuitesOf(run, targets[..i]) == Ok(hs)
      invariant hiddenPass == SumPassed(hs) && hiddenTotal == SumTotal(hs)
      invariant allExitedZero == AllExitedZero(hs)
    {
      var result := run(targets[i]);
      if result.Err? {
        SuitesErrStep(run, targets, i, hs);
        return Err(result.error);
      }
      SuitesOkStep(run, targets, i, hs, result.value);
      hiddenPass := hiddenPass + result.value.passed;
      hiddenTotal := hiddenTotal + result.value.total;
      if result.value.exitCode != 0 {
        allExitedZero := false;
      }
      hs := hs + [result.value];
      i := i + 1;
    }
    assert targets[..i] == targets;
    r := Ok((hiddenPass, hiddenTotal, allExitedZero));
  }

  /** `run_stage_tests`. */
  method RunStageTests(run: SuiteRun, stage: Stage) returns (r: Result<StageResult, RunError>)
    ensures r == StageOutcome(run, stage)
  {
    var visible := RunVisible(run, stage.visibleTests);
    if visible.Err? {
      return Err(visible.error);
    }
    var (visiblePass, visibleTotal, outputs, visibleZero) := visible.value;
    var hidden := RunHidden(run, stage.hiddenTests);
    if hidden.Err? {
      return Err(hidden.error);
    }
    var (hiddenPass, hiddenTotal, hiddenZero) := hidden.value;
    var stagePassed := visiblePass == visibleTotal && hiddenPass == hiddenTotal && visibleZero && hiddenZero;
    r := Ok(StageResult(visiblePass, visibleTotal, hiddenPass, hiddenTotal, JoinWith(NonEmpty(outputs), "\n"), stagePassed));
  }

  /** The stages run in order; the first error ends the run. */
  function StagesRun(run: SuiteRun, stages: seq<Stage>): (r: Result<seq<StageResult>, RunError>)
    ensures r.Ok? ==> |r.value| == |stages|
    decreases |stages|
  {
    if stages == [] then Ok([])
    else
      match StagesRun(run, stages[..|stages| - 1])
      case Err(e) => Err(e)
      case Ok(rs) =>
        match StageOutcome(run, stages[|stages| - 1])
        case Err(e) => Err(e)
        case Ok(r) => Ok(rs + [r])
  }

  /** `sum(1 for r in results if r["passed"])`. */
  function CountPassed(results: seq<StageResult>): nat {
    if results == [] then 0
    else CountPassed(results[..|results| - 1]) + (if results[|results| - 1].passed then 1 else 0)
  }

  predicate AllPassed(results: seq<StageResult>) {
    forall i :: 0 <= i < |results| ==> results[i].passed
  }

  function Min(a: int, b: int): int {
    if a <= b then a else b
  }

  /** The dictionary `run_code` builds from the executed stages: the counts
      and output of the last one, the stage-granular score, and whether the
      next stage unlocks. */
  function Report(results: seq<StageResult>, maxStage: int, stages: seq<Stage>): RunReport
    requires 0 <= maxStage < |stages|
  {
    var total := |stages|;
    var last := if results == [] then StageResult(0, 0, 0, 0, "", false) else results[|results| - 1];
    RunReport(
      last.visiblePass, last.visibleTotal, last.output,
      last.hiddenPass, last.hiddenTotal,
      (CountPassed(results) as real / total as real) * 100.0,
      maxStage, total,
      results != [] && last.passed,
      results != [] && AllPassed(results) && maxStage + 1 < total,
      stages[maxStage].name)
  }

  /** The report `run_code` builds once the question has loaded: stages
      `0..min(stage_index, len - 1)` run in order, the first error ending
      the run. */
  function StagesReport(run: SuiteRun, stages: seq<Stage>, stageIndex: int)
    : Result<RunReport, RunError>
    requires stageIndex >= 0 && |stages| >= 1
  {
    var maxStage := Min(stageIndex, |stages| - 1);
    match StagesRun(run, stages[..maxStage + 1])
    case Err(e) => Err(e)
    case Ok(results) => Ok(Report(results, maxStage, stages))
  }

  /** What `run_code(question, user_files, stage_index)` returns, or the
      error that ends it. */
  function RunCodeOutcome(repo: Repository, exec: Executor, question: string, userFiles: Files, stageIndex: int)
    : Result<RunReport, RunError>
    requires stageIndex >= 0
  {
    match LoadQuestionConfig(repo, question)
    case Err(e) => Err(QuestionFailed(e))
    case Ok(cfg) => StagesReport(SuiteRunner(exec, Sandbox(repo[question].files, cfg.visibleFiles, userFiles)), cfg.stages, stageIndex)
  }

  /** Running `stages[..i + 1]` is running `stages[..i]` and then `stages[i]`. */
  lemma StagesRunStep(run: SuiteRun, stages: seq<Stage>, i: nat)
    requires i < |stages|
    ensures StagesRun(run, stages[..i + 1]) ==
      match StagesRun(run, stages[..i])
      case Err(e) => Err(e)
      case Ok(rs) =>
        (match StageOutcome(run, stages[i])
         case Err(e) => Err(e)
         case Ok(r) => Ok(rs + [r]))
  {
    assert stages[..i + 1][..i] == stages[..i];
  }

  /** An error on a prefix of the stages is the error of the whole run. */
  lemma {:induction false} StagesErrPrefix(run: SuiteRun, stages: seq<Stage>, i: nat)
    requires i <= |stages| && StagesRun(run, stages[..i]).Err?
    ensures StagesRun(run, stages) == StagesRun(run, stages[..i])
    decreases |stages| - i
  {
    if i == |stages| {
      assert stages[..i] == stages;
    } else {
      StagesRunStep(run, stages, i);
      StagesErrPrefix(run, stages, i + 1);
    }
  }

  /** A successful run of `stages[..i]` followed by a successful `stages[i]`. */
  lemma StagesOkStep(run: SuiteRun, stages: seq<Stage>, i: nat, rs: seq<StageResult>, r: StageResult)
    requires i < |stages| && StagesRun(run, stages[..i]) == Ok(rs)
    requires StageOutcome(run, stages[i]) == Ok(r)
    ensures StagesRun(run, stages[..i + 1]) == Ok(rs + [r])
  {
    StagesRunStep(run, stages, i);
  }

  /** A successful run of `stages[..i]` followed by a failing `stages[i]`
      fails the whole run with that error. */
  lemma StagesErrStep(run: SuiteRun, stages: seq<Stage>, i: nat, rs: seq<StageResult>)
    requires i < |stages| && StagesRun(run, stages[..i]) == Ok(rs)
    requires StageOutcome(run, stages[i]).Err?
    ensures StagesRun(run, stages) == Err(StageOutcome(run, stages[i]).error)
  {
    StagesRunStep(run, stages, i);
    StagesErrPrefix(run, stages, i + 1);
  }

  /** The stage loop of `run_code`: each stage in order, stopping at the
      first error. */
  method RunStages(run: SuiteRun, stages: seq<Stage>) returns (r: Result<seq<StageResult>, RunError>)
    ensures r == StagesRun(run, stages)
  {
    var results: seq<StageResult> := [];
    var idx := 0;
    while idx < |stages|
      invariant 0 <= idx <= |stages|
      invariant StagesRun(run, stages[..idx]) == Ok(results)
    {
      var result := RunStageTests(run, stages[idx]);
      if result.Err? {
        StagesErrStep(run, stages, idx, results);
        return Err(result.error);
      }
      StagesOkStep(run, stages, idx, results, result.value);
      results := results + [result.value];
      idx := idx + 1;
    }
    assert stages[..idx] == stages;
    r := Ok(results);
  }

  /** The part of `run_code` after the question is materialised. */
  method RunLoaded(run: SuiteRun, stages: seq<Stage>, stageIndex: int)
    returns (r: Result<RunReport, RunError>)
    requires stageIndex >= 0 && |stages| >= 1
    ensures r == StagesReport(run, stages, stageIndex)
  {
    var maxStage := Min(stageIndex, |stages| - 1);
    var results := RunStages(run, stages[..maxStage + 1]);
    if results.Err? {
      return Err(results.error);
    }
    r := Ok(Report(results.value, maxStage, stages));
  }

  /** `run_code`. */
  method RunCode(repo: Repository, exec: Executor, question: string, userFiles: Files, stageIndex: int)
    returns (r: Result<RunReport, RunError>)
    requires stageIndex >= 0
    ensures r == RunCodeOutcome(repo, exec, question, userFiles, stageIndex)
  {
    var materialized := MaterializeQuestion(repo, question, userFiles);
    if materialized.Err? {
      return Err(QuestionFailed(materialized.error));
    }
    var (cfg, sandbox) := materialized.value;
    r := RunLoaded(SuiteRunner(exec, sandbox), cfg.stages, stageIndex);
  }

  // ---------------------------------------------------------------- lemmas

  /** Each suite of a successful run is the result of its own target. */
  lemma {:induction false} SuitesOfAt(run: SuiteRun, targets: seq<string>, i: nat)
    requires SuitesOf(run, targets).Ok? && i < |targets|
    ensures run(targets[i]).Ok?
    ensures SuitesOf(run, targets).value[i] == run(targets[i]).value
    decreases |targets|
  {
    var init := targets[..|targets| - 1];
    if i < |targets| - 1 {
      SuitesOfAt(run, init, i);
      assert init[i] == targets[i];
    }
  }

  /** Every executed stage of a successful run is the outcome of its own stage. */
  lemma {:induction false} StagesRunAt(run: SuiteRun, stages: seq<Stage>, i: nat)
    requires StagesRun(run, stages).Ok? && i < |stages|
    ensures StageOutcome(run, stages[i]).Ok?
    ensures StagesRun(run, stages).value[i] == StageOutcome(run, stages[i]).value
    decreases |stages|
  {
    var init := stages[..|stages| - 1];
    if i < |stages| - 1 {
      StagesRunAt(run, init, i);
      assert init[i] == stages[i];
    }
  }

  /** The process for `target` ran and exited 0. */
  predicate ExitedZero(exec: Executor, sandbox: Files, target: string) {
    exec(sandbox, target).Ok? && exec(sandbox, target).value.exitCode == 0
  }

  /** A target counts toward "every target exited 0" exactly when its own
      process exited 0. */
  lemma AllExitedZeroIff(exec: Executor, sandbox: Files, targets: seq<string>)
    requires SuitesOf(SuiteRunner(exec, sandbox), targets).Ok?
    ensures AllExitedZero(SuitesOf(SuiteRunner(exec, sandbox), targets).value) <==>
      forall i :: 0 <= i < |targets| ==> ExitedZero(exec, sandbox, targets[i])
  {
    var rs := SuitesOf(SuiteRunner(exec, sandbox), targets).value;
    AllExitedZeroEach(rs);
    forall i | 0 <= i < |targets|
      ensures rs[i].exitCode == 0 <==> ExitedZero(exec, sandbox, targets[i])
    {
      SuiteExitCode(exec, sandbox, targets, i);
    }
  }

  /** The exit code kept for a target is its own process's. */
  lemma SuiteExitCode(exec: Executor, sandbox: Files, targets: seq<string>, i: nat)
    requires SuitesOf(SuiteRunner(exec, sandbox), targets).Ok? && i < |targets|
    ensures SuitesOf(SuiteRunner(exec, sandbox), targets).value[i].exitCode == 0 <==> ExitedZero(exec, sandbox, targets[i])
  {
    SuitesOfAt(SuiteRunner(exec, sandbox), targets, i);
  }

  /** A stage passes exactly when the summed visible counts balance, the
      summed hidden counts balance and every target's process exited 0. */
  lemma StagePassedIff(exec: Executor, sandbox: Files, stage: Stage)
    requires StageOutcome(SuiteRunner(exec, sandbox), stage).Ok?
    ensures var o := StageOutcome(SuiteRunner(exec, sandbox), stage).value;
      o.passed <==>
        o.visiblePass == o.visibleTotal && o.hiddenPass == o.hiddenTotal
        && (forall i :: 0 <= i < |stage.visibleTests| ==> ExitedZero(exec, sandbox, stage.visibleTests[i]))
        && (forall i :: 0 <= i < |stage.hiddenTests| ==> ExitedZero(exec, sandbox, stage.hiddenTests[i]))
  {
    AllExitedZeroIff(exec, sandbox, stage.visibleTests);
    AllExitedZeroIff(exec, sandbox, stage.hiddenTests);
  }

  /** A stage with no targets passes with zero counts and no output. */
  lemma EmptyStagePasses(run: SuiteRun, name: string, toReveal: Option<seq<string>>)
    ensures StageOutcome(run, Stage(name, [], [], toReveal)) == Ok(StageResult(0, 0, 0, 0, "", true))
  {
  }

  /** The stage output is made of visible output only: two stages with the
      same visible targets show the same output, whatever their hidden
      targets print. */
  lemma HiddenOutputNeverShown(run: SuiteRun, a: Stage, b: Stage)
    requires a.visibleTests == b.visibleTests
    requires StageOutcome(run, a).Ok? && StageOutcome(run, b).Ok?
    ensures StageOutcome(run, a).value.output == StageOutcome(run, b).value.output
  {
  }

  /** No more stages pass than were run. */
  lemma {:induction false} CountPassedBound(results: seq<StageResult>)
    ensures CountPassed(results) <= |results|
    ensures CountPassed(results) == |results| <==> AllPassed(results)
  {
    if results != [] {
      var init := results[..|results| - 1];
      CountPassedBound(init);
      assert forall i :: 0 <= i < |init| ==> init[i] == results[i];
    }
  }

  /** The report of the stages `0..maxStage`: the score lies in [0, 100];
      the next stage unlocks exactly when every executed stage passed and a
      stage remains, and then the score is the share of stages done. */
  lemma ReportFacts(results: seq<StageResult>, maxStage: int, stages: seq<Stage>)
    requires 0 <= maxStage < |stages| && |results| == maxStage + 1
    ensures 0.0 <= Report(results, maxStage, stages).finalScore <= 100.0
    ensures Report(results, maxStage, stages).unlockedNext <==>
      (forall i :: 0 <= i < |results| ==> results[i].passed) && maxStage + 1 < |stages|
    ensures Report(results, maxStage, stages).unlockedNext ==>
      Report(results, maxStage, stages).finalScore == (maxStage + 1) as real * 100.0 / |stages| as real
    ensures Report(results, maxStage, stages).currentPassed == results[maxStage].passed
    ensures Report(results, maxStage, stages).visiblePassed == results[maxStage].visiblePass
    ensures Report(results, maxStage, stages).hiddenTotal == results[maxStage].hiddenTotal
  {
    CountPassedBound(results);
    var c := CountPassed(results) as real;
    var n := |stages| as real;
    assert c <= n;
    assert c / n <= 1.0;
  }

  /** Once loaded, `run_code` runs stages `0..min(stage_index, len - 1)`
      in order, each as `run_stage_tests` would, and reports on them; it
      unlocks the next stage only after passing the stage it was asked for. */
  lemma StagesReportFacts(run: SuiteRun, stages: seq<Stage>, stageIndex: int, i: nat)
    requires stageIndex >= 0 && |stages| >= 1
    requires StagesReport(run, stages, stageIndex).Ok?
    ensures StagesReport(run, stages, stageIndex).value.totalStages == |stages|
    ensures StagesReport(run, stages, stageIndex).value.currentIndex == Min(stageIndex, |stages| - 1)
    ensures 0.0 <= StagesReport(run, stages, stageIndex).value.finalScore <= 100.0
    ensures StagesReport(run, stages, stageIndex).value.unlockedNext ==>
      stageIndex + 1 < |stages| && StagesReport(run, stages, stageIndex).value.currentIndex == stageIndex
    ensures StagesReport(run, stages, stageIndex).value.unlockedNext && i <= stageIndex ==>
      StageOutcome(run, stages[i]).Ok? && StageOutcome(run, stages[i]).value.passed
  {
    var maxStage := Min(stageIndex, |stages| - 1);
    var executed := stages[..maxStage + 1];
    var results := StagesRun(run, executed).value;
    ReportFacts(results, maxStage, stages);
    if i <= maxStage {
      StagesRunAt(run, executed, i);
    }
  }

  /** `run_code` as a whole: a run that reports loaded its question, and
      the facts above hold of that question's stages. */
  lemma RunCodeFacts(repo: Repository, exec: Executor, question: string, userFiles: Files, stageIndex: int, i: nat)
    requires stageIndex >= 0
    requires RunCodeOutcome(repo, exec, question, userFiles, stageIndex).Ok?
    ensures LoadQuestionConfig(repo, question).Ok?
    ensures var stages := LoadQuestionConfig(repo, question).value.stages;
      RunCodeOutcome(repo, exec, question, userFiles, stageIndex)
        == StagesReport(SuiteRunner(exec, RunSandbox(repo, question, userFiles)), stages, stageIndex)
    ensures var stages := LoadQuestionConfig(repo, question).value.stages;
      var report := RunCodeOutcome(repo, exec, question, userFiles, stageIndex).value;
      report.totalStages == |stages| >= 1
      && report.currentIndex == Min(stageIndex, |stages| - 1)
      && 0.0 <= report.finalScore <= 100.0
      && (report.unlockedNext ==> stageIndex + 1 < |stages| && report.currentIndex == stageIndex)
      && (report.unlockedNext && i <= stageIndex ==>
            StageOutcome(SuiteRunner(exec, RunSandbox(repo, question, userFiles)), stages[i]).Ok?
            && StageOutcome(SuiteRunner(exec, RunSandbox(repo, question, userFiles)), stages[i]).value.passed)
  {
    var stages := LoadQuestionConfig(repo, question).value.stages;
    StagesReportFacts(SuiteRunner(exec, RunSandbox(repo, question, userFiles)), stages, stageIndex, i);
  }

  /** The sandbox `run_code` runs a loadable question in. */
  function RunSandbox(repo: Repository, question: string, userFiles: Files): Files
    requires LoadQuestionConfig(repo, question).Ok?
  {
    Sandbox(repo[question].files, LoadQuestionConfig(repo, question).value.visibleFiles, userFiles)
  }
}
