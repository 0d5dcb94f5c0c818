/** The endpoints of backend/app.py that decide something: `execute_code`,
    which runs the candidate's code at the session's stage, records the
    score, unlocks and reveals the next stage and feeds the run to the
    coaching bot; the mode toggle; and the bot-step guard. HTTP errors are
    `HttpError(status, detail)`; an exception the endpoint does not catch
    is `Unhandled`. The clock is the parameter `now`, read once per request. */
module App {
  import opened Wrappers
  import opened Questions
  import opened Runner
  import opened Sessions
  import opened Modes
  import opened Struggle
  import opened Agent
  import opened VoiceSessions
  import Journal

  datatype ExecuteRequest = ExecuteRequest(sessionId: string, questionName: string, files: Files)

  /** The response of `execute_code`, without `runtime_ms`. */
  datatype ExecuteReply = ExecuteReply(
    report: RunReport,
    unlockedStageIndex: Option<nat>,
    unlockedStageName: Option<string>,
    newVisibleFiles: Files)

  datatype ApiFailure = HttpError(status: int, detail: string) | Unhandled(error: RunError)

  const SessionNotFound := "Session not found"
  const QuestionMismatch := "Question mismatch for session"
  const SessionExpired := "Session expired"
  const VoiceSessionNotFound := "Voice session not found"
  const InvalidMode := "Invalid mode"
  const NotBotDrives := "Not in bot_drives mode"

  /** Every session is filed under its own id, as `create` files it. */
  predicate KeyedById(sessions: map<string, Session>) {
    forall id :: id in sessions ==> sessions[id].sessionId == id
  }

  // ------------------------------------------------------------ after a run

  /** The final stage has just been passed. */
  predicate PassedFinalStage(report: RunReport) {
    report.currentIndex == report.totalStages - 1 && report.currentPassed
  }

  /** The session after a run: the score is recorded when the final stage
      passed (`mark_score`), and the stage advances when the next one
      unlocked (`advance_stage`, then `get`). */
  function AfterRun(s: Session, report: RunReport, now: real): Session {
    var scored := if PassedFinalStage(report) then Refresh(s.(finalScore := Some(report.finalScore)), now) else s;
    if report.unlockedNext then Refresh(scored.(currentStageIndex := scored.currentStageIndex + 1), now)
    else scored
  }

  /** The stage `execute_code` names as unlocked, when the question loads
      and the index is within its stages. */
  function UnlockedStage(repo: Repository, question: string, index: nat): (r: Option<Stage>)
    ensures r.Some? ==> (LoadQuestionConfig(repo, question).Ok?
      && index < |LoadQuestionConfig(repo, question).value.stages|
      && r.value == LoadQuestionConfig(repo, question).value.stages[index])
  {
    match LoadQuestionConfig(repo, question)
    case Err(_) => None
    case Ok(cfg) => if index < |cfg.stages| then Some(cfg.stages[index]) else None
  }

  /** `(stage.reveal_files or []) + stage.visible_tests`. */
  function RevealList(stage: Stage): seq<string> {
    stage.revealFiles.GetOr([]) + stage.visibleTests
  }

  /** The listed paths that exist among the question's files, with their contents. */
  function ExistingFiles(files: Files, paths: seq<string>): Files
    decreases |paths|
  {
    if paths == [] then map[]
    else
      var p := paths[|paths| - 1];
      var m := ExistingFiles(files, paths[..|paths| - 1]);
      if p in files then m[p := files[p]] else m
  }

  /** `new_visible_files` for the stage at `index`. */
  function Revealed(repo: Repository, question: string, index: nat): Files {
    match LoadQuestionConfig(repo, question)
    case Err(_) => map[]
    case Ok(cfg) =>
      if index < |cfg.stages| then ExistingFiles(repo[question].files, RevealList(cfg.stages[index])) else map[]
  }

  /** The response once the run succeeded. */
  function ReplyAfterRun(repo: Repository, question: string, report: RunReport, after: Session): ExecuteReply {
    if !report.unlockedNext then ExecuteReply(report, None, None, map[])
    else
      var k := after.currentStageIndex;
      var name := match UnlockedStage(repo, question, k) case None => None case Some(st) => Some(st.name);
      ExecuteReply(report, Some(k), name, Revealed(repo, question, k))
  }

  /** The checks `execute_code` makes before running anything: the
      session as `get` refreshes it, or the rejection; and the sessions
      afterwards. */
  function Admit(sessions: map<string, Session>, request: ExecuteRequest, now: real)
    : (Result<Session, ApiFailure>, map<string, Session>)
  {
    var id := request.sessionId;
    if id !in sessions then (Err(HttpError(404, SessionNotFound)), sessions)
    else
      var s := Refresh(sessions[id], now);
      if s.questionName != request.questionName then (Err(HttpError(400, QuestionMismatch)), sessions[id := s])
      else if Remaining(s, now) <= 0 then (Err(HttpError(410, SessionExpired)), sessions[id := s.(status := Expired)])
      else (Ok(s), sessions[id := s])
  }

  /** An `ExecutionError` becomes a 500 carrying its message; any other
      error escapes the endpoint. */
  function RunFailure(e: RunError): ApiFailure {
    match e
    case ExecutionFailed(message) => HttpError(500, message)
    case _ => Unhandled(e)
  }

  /** `execute_code` on the session store: the response, and the sessions
      afterwards. */
  function Execute(sessions: map<string, Session>, repo: Repository, exec: Executor,
                   request: ExecuteRequest, now: real): (Result<ExecuteReply, ApiFailure>, map<string, Session>)
  {
    var (admitted, seen) := Admit(sessions, request, now);
    match admitted
    case Err(failure) => (Err(failure), seen)
    case Ok(s) =>
      Proceed(seen, s, repo, request, RunCodeOutcome(repo, exec, request.questionName, request.files, s.currentStageIndex), now)
  }

  /** `execute_code` once the session `s` is admitted and its code has run
      at its stage: record the outcome. */
  function Proceed(sessions: map<string, Session>, s: Session, repo: Repository, request: ExecuteRequest,
                   outcome: Result<RunReport, RunError>, now: real): (Result<ExecuteReply, ApiFailure>, map<string, Session>)
  {
    match outcome
    case Err(e) => (Err(RunFailure(e)), sessions)
    case Ok(report) =>
      var after := AfterRun(s, report, now);
      (Ok(ReplyAfterRun(repo, request.questionName, report, after)), sessions[request.sessionId := after])
  }

  /** What the coaching bot of the same session makes of the run: a run
      result with exit code 0 exactly when the current stage passed and the
      visible output as its error text, then the clock of the next level
      when one unlocked. The hint it may produce is dropped. */
  function CoachAfterRun(cfg: DetectorConfig, st: BotState, report: RunReport, now: real): BotState {
    var level := report.currentIndex + 1;
    var observed := RunResultObserved(cfg, st, if report.currentPassed then 0 else 1, report.visibleOutput,
                                      report.currentIndex, report.visiblePassed, report.visibleTotal, now).state;
    if report.unlockedNext then observed.(detector := LevelStartStep(observed.detector, level + 1, now))
    else observed
  }

  // ------------------------------------------------------------ methods

  /** The reveal loop of `execute_code`. */
  method RevealFiles(repo: Repository, question: string, index: nat) returns (revealed: Files)
    ensures revealed == Revealed(repo, question, index)
  {
    revealed := map[];
    var loaded := LoadQuestionConfig(repo, question);
    if loaded.Err? || index >= |loaded.value.stages| {
      return;
    }
    var files := repo[question].files;
    var paths := RevealList(loaded.value.stages[index]);
    var i := 0;
    while i < |paths|
      invariant 0 <= i <= |paths|
      invariant revealed == ExistingFiles(files, paths[..i])
    {
      assert paths[..i + 1][..i] == paths[..i];
      if paths[i] in files {
        revealed := revealed[paths[i] := files[paths[i]]];
      }
      i := i + 1;
    }
    assert paths[..i] == paths;
  }

  /** The checks at the head of `execute_code`. */
  method AdmitRequest(store: SessionStore, request: ExecuteRequest, now: real) returns (r: Result<Session, ApiFailure>)
    requires KeyedById(store.sessions)
    modifies store
    ensures (r, store.sessions) == Admit(old(store.sessions), request, now)
    ensures r.Ok? ==> r.value.sessionId == request.sessionId
  {
    var got := store.Get(request.sessionId, now);
    if got.None? {
      return Err(HttpError(404, SessionNotFound));
    }
    var session := got.value;
    assert session.sessionId == request.sessionId;
    if session.questionName != request.questionName {
      return Err(HttpError(400, QuestionMismatch));
    }
    var remaining := store.RemainingSeconds(session, now);
    if remaining <= 0 {
      store.Expire(session.sessionId);
      assert store.sessions == old(store.sessions)[request.sessionId := session.(status := Expired)];
      return Err(HttpError(410, SessionExpired));
    }
    r := Ok(session);
  }

  /** What `execute_code` does with the store after a successful run:
      score, advance, re-read the session and reveal the unlocked stage. */
  method RecordRun(store: SessionStore, session: Session, repo: Repository, question: string,
                   report: RunReport, now: real) returns (reply: ExecuteReply)
    requires session.sessionId in store.sessions && store.sessions[session.sessionId] == session
    requires Refresh(session, now) == session
    modifies store
    ensures store.sessions == old(store.sessions)[session.sessionId := AfterRun(session, report, now)]
    ensures reply == ReplyAfterRun(repo, question, report, AfterRun(session, report, now))
  {
    var unlockedIndex: Option<nat> := None;
    var unlockedName: Option<string> := None;
    var newVisibleFiles: Files := map[];
    if PassedFinalStage(report) {
      store.MarkScore(session.sessionId, report.finalScore, now);
    }
    if report.unlockedNext {
      store.AdvanceStage(session.sessionId);
      var updated := store.Get(session.sessionId, now);
      var index := updated.value.currentStageIndex;
      unlockedIndex := Some(index);
      var stage := UnlockedStage(repo, question, index);
      if stage.Some? {
        unlockedName := Some(stage.value.name);
        newVisibleFiles := RevealFiles(repo, question, index);
      } else {
        assert Revealed(repo, question, index) == map[];
      }
    }
    reply := ExecuteReply(report, unlockedIndex, unlockedName, newVisibleFiles);
  }

  /** The tail of `execute_code`: the session's coaching bot, if there is
      one, observes the run and starts the clock of an unlocked level. */
  method CoachRun(voices: VoiceSessionStore, sessionId: string, report: RunReport, now: real)
    modifies if sessionId in voices.sessions
             then {voices.sessions[sessionId].bot, voices.sessions[sessionId].bot.detector,
                   voices.sessions[sessionId].bot.journal}
             else {}
    ensures sessionId in voices.sessions ==>
      var bot := voices.sessions[sessionId].bot;
      bot.State() == CoachAfterRun(bot.detector.config, old(bot.State()), report, now)
  {
    var voice := voices.Get(sessionId);
    if voice.Some? {
      var bot := voice.value.bot;
      var hint := bot.ObserveRunResult(if report.currentPassed then 0 else 1, report.visibleOutput,
                                       report.currentIndex, now, report.visiblePassed, report.visibleTotal);
      if report.unlockedNext {
        bot.detector.OnLevelStart(report.currentIndex + 1 + 1, now);
      }
    }
  }

  /** `execute_code` after admission and the run: record the outcome in
      the store, then feed it to the session's coaching bot. */
  method RecordAndCoach(store: SessionStore, voices: VoiceSessionStore, session: Session, repo: Repository,
                        request: ExecuteRequest, outcome: Result<RunReport, RunError>, now: real)
    returns (r: Result<ExecuteReply, ApiFailure>)
    requires session.sessionId == request.sessionId
    requires session.sessionId in store.sessions && store.sessions[session.sessionId] == session
    requires Refresh(session, now) == session
    modifies store
    modifies if request.sessionId in voices.sessions
             then {voices.sessions[request.sessionId].bot, voices.sessions[request.sessionId].bot.detector,
                   voices.sessions[request.sessionId].bot.journal}
             else {}
    ensures (r, store.sessions) == Proceed(old(store.sessions), session, repo, request, outcome, now)
    ensures request.sessionId in voices.sessions ==>
      var bot := voices.sessions[request.sessionId].bot;
      bot.State() == if r.Ok? then CoachAfterRun(bot.detector.config, old(bot.State()), r.value.report, now)
                     else old(bot.State())
  {
    if outcome.Err? {
      return Err(RunFailure(outcome.error));
    }
    var report := outcome.value;
    var reply := RecordRun(store, session, repo, request.questionName, report, now);
    CoachRun(voices, request.sessionId, report, now);
    r := Ok(reply);
  }

  /** `execute_code`. */
  method ExecuteCode(store: SessionStore, voices: VoiceSessionStore, repo: Repository, exec: Executor,
                     request: ExecuteRequest, now: real)
    returns (r: Result<ExecuteReply, ApiFailure>)
    requires KeyedById(store.sessions)
    modifies store
    modifies if request.sessionId in voices.sessions
             then {voices.sessions[request.sessionId].bot, voices.sessions[request.sessionId].bot.detector,
                   voices.sessions[request.sessionId].bot.journal}
             else {}
    ensures (r, store.sessions) == Execute(old(store.sessions), repo, exec, request, now)
    ensures request.sessionId in voices.sessions ==>
      var bot := voices.sessions[request.sessionId].bot;
      bot.State() == if r.Ok? then CoachAfterRun(bot.detector.config, old(bot.State()), r.value.report, now)
                     else old(bot.State())
  {
    var admitted := AdmitRequest(store, request, now);
    if admitted.Err? {
      return Err(admitted.error);
    }
    var session := admitted.value;
    var outcome := RunCode(repo, exec, request.questionName, request.files, session.currentStageIndex);
    r := RecordAndCoach(store, voices, session, repo, request, outcome, now);
  }

  // ------------------------------------------------------ start_assessment

  /** The response of `start_assessment`. */
  datatype StartReply = StartReply(
    sessionId: string,
    questionName: string,
    remainingSeconds: int,
    expiresAt: real,
    status: Status,
    currentStageIndex: nat,
    stages: seq<string>)

  /** `payload.duration_minutes or cfg.default_duration_minutes`. */
  function StartDuration(requested: Option<int>, questionDefault: int): int {
    if requested.None? || requested.value == 0 then questionDefault else requested.value
  }

  /** The duration `sessions.create` settles on for a started assessment. */
  function Started(requested: Option<int>, questionDefault: int): int {
    ClampDuration(Some(StartDuration(requested, questionDefault)))
  }

  /** The minutes a started session runs: what the request asks within
      [1, 120]; the question's default when the request names none (or 0);
      60 when neither names a duration. */
  lemma StartDurationSettles(requested: Option<int>, questionDefault: int)
    ensures MinDurationMinutes <= Started(requested, questionDefault) <= MaxDurationMinutes
    ensures requested.Some? && MinDurationMinutes <= requested.value <= MaxDurationMinutes ==>
      Started(requested, questionDefault) == requested.value
    ensures requested.None? || requested == Some(0) ==>
      (MinDurationMinutes <= questionDefault <= MaxDurationMinutes ==> Started(requested, questionDefault) == questionDefault)
      && (questionDefault == 0 ==> Started(requested, questionDefault) == Sessions.DefaultDurationMinutes)
  {
  }

  /** `start_assessment`: 404 for a question without `question.json`; a
      descriptor missing a required key raises. Otherwise a timed session
      and a voice session are created under the same id (the id `uuid4`
      draws is `sessionId`), and the reply carries the remaining seconds,
      the expiry time and the stage names. */
  method StartAssessment(store: SessionStore, voices: VoiceSessionStore, repo: Repository, questionName: string,
                         durationMinutes: Option<int>, sessionId: string, digest: string -> string, now: real)
    returns (r: Result<StartReply, ApiFailure>)
    modifies store, voices
    ensures LoadQuestionConfig(repo, questionName).Err? ==>
      store.sessions == old(store.sessions) && voices.sessions == old(voices.sessions)
      && voices.folders == old(voices.folders)
    ensures LoadQuestionConfig(repo, questionName) == Err(QuestionNotFound(questionName)) ==>
      r == Err(HttpError(404, "Question " + questionName + " not found"))
    ensures LoadQuestionConfig(repo, questionName).Err? && LoadQuestionConfig(repo, questionName).error.KeyError? ==>
      r == Err(Unhandled(QuestionFailed(LoadQuestionConfig(repo, questionName).error)))
    ensures LoadQuestionConfig(repo, questionName).Ok? ==>
      var cfg := LoadQuestionConfig(repo, questionName).value;
      var duration := Started(durationMinutes, cfg.defaultDurationMinutes);
      var s := Session(sessionId, questionName, now, duration, Active, None, 0);
      store.sessions == old(store.sessions)[sessionId := s]
      && sessionId in voices.sessions
      && voices.sessions == old(voices.sessions)[sessionId := voices.sessions[sessionId]]
      && voices.sessions[sessionId].questionName == questionName
      && voices.sessions[sessionId].bot.State()
         == BotState(BotDrives, LevelStartStep(FreshState, 1, now), Journal.JournalDict(questionName, [], [], [], [], None), [])
      && r == Ok(StartReply(sessionId, questionName, Remaining(s, now), now + 60.0 * duration as real, Active, 0,
                            seq(|cfg.stages|, i requires 0 <= i < |cfg.stages| => cfg.stages[i].name)))
  {
    var loaded := LoadQuestionConfig(repo, questionName);
    if loaded.Err? {
      if loaded.error.QuestionNotFound? {
        return Err(HttpError(404, "Question " + questionName + " not found"));
      }
      return Err(Unhandled(QuestionFailed(loaded.error)));
    }
    var cfg := loaded.value;
    var s := store.Create(questionName, Some(StartDuration(durationMinutes, cfg.defaultDurationMinutes)), sessionId, now);
    var voice := voices.Create(s.sessionId, questionName, repo[questionName].files, digest, now);
    var remaining := store.RemainingSeconds(s, now);
    var names := seq(|cfg.stages|, i requires 0 <= i < |cfg.stages| => cfg.stages[i].name);
    r := Ok(StartReply(s.sessionId, questionName, remaining, s.startedAt + 60.0 * s.durationMinutes as real,
                       s.status, s.currentStageIndex, names));
  }

  /** `Mode(value)`: the mode whose value is the text, if any. */
  function ParseMode(value: string): (m: Option<Mode>)
    ensures m.Some? ==> m.value.Value() == value
    ensures m.None? ==> value != BotDrives.Value() && value != HumanDrives.Value()
  {
    if value == BotDrives.Value() then Some(BotDrives)
    else if value == HumanDrives.Value() then Some(HumanDrives)
    else None
  }

  /** `set_voice_mode`: 404 for an unknown voice session, 400 for a text
      that names no mode; otherwise the session's bot switches, journalled
      under the trigger "ui_toggle", and the new mode is returned. */
  method SetVoiceMode(voices: VoiceSessionStore, sessionId: string, mode: string, now: real)
    returns (r: Result<Mode, ApiFailure>)
    modifies if sessionId in voices.sessions
             then {voices.sessions[sessionId].bot.modeState, voices.sessions[sessionId].bot.journal}
             else {}
    ensures sessionId !in voices.sessions ==> r == Err(HttpError(404, VoiceSessionNotFound))
    ensures sessionId in voices.sessions ==>
      var bot := voices.sessions[sessionId].bot;
      match ParseMode(mode)
      case None => r == Err(HttpError(400, InvalidMode)) && bot.State() == old(bot.State())
      case Some(target) =>
        r == Ok(target) && bot.State() == SetModeStep(old(bot.State()), target, "ui_toggle", now)
  {
    var voice := voices.Get(sessionId);
    if voice.None? {
      return Err(HttpError(404, VoiceSessionNotFound));
    }
    var target := ParseMode(mode);
    if target.None? {
      return Err(HttpError(400, InvalidMode));
    }
    var bot := voice.value.bot;
    bot.SetMode(target.value, now, "ui_toggle");
    r := Ok(bot.Mode());
  }

  /** The guard of `bot_step`: 404 for an unknown voice session, 409
      unless that session's bot drives, and None when the step may proceed. */
  function BotStepGuard(voices: VoiceSessionStore, sessionId: string): (r: Option<ApiFailure>)
    reads voices
    reads if sessionId in voices.sessions
          then {voices.sessions[sessionId].bot, voices.sessions[sessionId].bot.modeState}
          else {}
    ensures r.None? <==> sessionId in voices.sessions && voices.sessions[sessionId].bot.Mode() == BotDrives
    ensures sessionId !in voices.sessions ==> r == Some(HttpError(404, VoiceSessionNotFound))
    ensures sessionId in voices.sessions && voices.sessions[sessionId].bot.Mode() == HumanDrives ==>
      r == Some(HttpError(409, NotBotDrives))
  {
    if sessionId !in voices.sessions then Some(HttpError(404, VoiceSessionNotFound))
    else if voices.sessions[sessionId].bot.Mode() != BotDrives then Some(HttpError(409, NotBotDrives))
    else None
  }

  // ---------------------------------------------------------------- lemmas

  /** The stage only ever moves forward by one, and exactly when the next
      stage unlocked; the score is written exactly when the final stage
      passed, and then it is the run's score. */
  lemma AfterRunMoves(s: Session, report: RunReport, now: real)
    ensures AfterRun(s, report, now).currentStageIndex == s.currentStageIndex + (if report.unlockedNext then 1 else 0)
    ensures AfterRun(s, report, now).finalScore == if PassedFinalStage(report) then Some(report.finalScore) else s.finalScore
    ensures Progressed(s, AfterRun(s, report, now))
    ensures AfterRun(s, report, now).sessionId == s.sessionId
  {
  }

  /** A run never both scores the final stage and unlocks another, and the
      stage it unlocks always exists: the `< len(cfg.stages)` guard of
      `execute_code` never fails. */
  lemma UnlockedStageExists(repo: Repository, exec: Executor, question: string, files: Files, s: Session, now: real)
    requires RunCodeOutcome(repo, exec, question, files, s.currentStageIndex).Ok?
    ensures var report := RunCodeOutcome(repo, exec, question, files, s.currentStageIndex).value;
      report.unlockedNext ==>
        !PassedFinalStage(report)
        && report.currentIndex == s.currentStageIndex
        && UnlockedStage(repo, question, AfterRun(s, report, now).currentStageIndex).Some?
  {
    var report := RunCodeOutcome(repo, exec, question, files, s.currentStageIndex).value;
    var cfg := LoadQuestionConfig(repo, question).value;
    assert report.totalStages == |cfg.stages|;
  }

  /** Every rejection leaves the stage and the score as they were; an
      unknown session leaves the store untouched. */
  lemma RejectionsKeepProgress(sessions: map<string, Session>, repo: Repository, exec: Executor,
                               request: ExecuteRequest, now: real)
    ensures var (r, after) := Execute(sessions, repo, exec, request, now);
      r.Err? ==> forall id :: id in sessions ==>
        id in after && after[id].currentStageIndex == sessions[id].currentStageIndex
        && after[id].finalScore == sessions[id].finalScore
    ensures request.sessionId !in sessions ==> Execute(sessions, repo, exec, request, now).1 == sessions
  {
  }

  /** Sessions stay filed under their own ids. */
  lemma ExecuteKeepsIds(sessions: map<string, Session>, repo: Repository, exec: Executor,
                        request: ExecuteRequest, now: real)
    requires KeyedById(sessions)
    ensures KeyedById(Execute(sessions, repo, exec, request, now).1)
  {
    if request.sessionId in sessions {
      var s := Refresh(sessions[request.sessionId], now);
      match RunCodeOutcome(repo, exec, request.questionName, request.files, s.currentStageIndex)
      case Err(_) =>
      case Ok(report) => AfterRunMoves(s, report, now);
    }
  }

  /** A session whose time is up is never run: it is answered 410 and
      stays expired. */
  lemma ExpiredNeverRuns(sessions: map<string, Session>, repo: Repository, exec: Executor,
                         request: ExecuteRequest, now: real)
    requires request.sessionId in sessions
    requires sessions[request.sessionId].questionName == request.questionName
    requires Remaining(sessions[request.sessionId], now) == 0
    ensures Execute(sessions, repo, exec, request, now).0 == Err(HttpError(410, SessionExpired))
    ensures Execute(sessions, repo, exec, request, now).1[request.sessionId].status == Expired
  {
  }

  /** A successful run reports the unlocked stage exactly when it unlocked,
      as the stage after the one the session was at, and reveals only files
      of the question. */
  lemma ExecuteUnlocks(sessions: map<string, Session>, repo: Repository, exec: Executor,
                       request: ExecuteRequest, now: real)
    requires Execute(sessions, repo, exec, request, now).0.Ok?
    ensures var reply := Execute(sessions, repo, exec, request, now).0.value;
      request.sessionId in sessions
      && (reply.unlockedStageIndex.Some? <==> reply.report.unlockedNext)
      && (reply.report.unlockedNext ==>
            reply.unlockedStageIndex == Some(sessions[request.sessionId].currentStageIndex + 1)
            && reply.unlockedStageName.Some?)
      && (!reply.report.unlockedNext ==> reply.newVisibleFiles == map[])
  {
    var id := request.sessionId;
    var s := Refresh(sessions[id], now);
    var outcome := RunCodeOutcome(repo, exec, request.questionName, request.files, s.currentStageIndex);
    assert Execute(sessions, repo, exec, request, now) == Proceed(sessions[id := s], s, repo, request, outcome, now);
    var report := outcome.value;
    UnlockedStageExists(repo, exec, request.questionName, request.files, s, now);
    AfterRunMoves(s, report, now);
    ReplyNamesUnlocked(repo, request.questionName, report, AfterRun(s, report, now));
  }

  /** The reply names a stage exactly when one unlocked, and reveals
      nothing otherwise. */
  lemma ReplyNamesUnlocked(repo: Repository, question: string, report: RunReport, after: Session)
    requires report.unlockedNext ==> UnlockedStage(repo, question, after.currentStageIndex).Some?
    ensures var reply := ReplyAfterRun(repo, question, report, after);
      (reply.unlockedStageIndex.Some? <==> report.unlockedNext)
      && (report.unlockedNext ==>
            reply.unlockedStageIndex == Some(after.currentStageIndex) && reply.unlockedStageName.Some?)
      && (!report.unlockedNext ==> reply.newVisibleFiles == map[])
  {
  }

  /** The revealed files are exactly the listed paths that exist, each
      with its contents. */
  lemma {:induction false} ExistingFilesExact(files: Files, paths: seq<string>)
    ensures forall p :: p in ExistingFiles(files, paths) <==> p in paths && p in files
    ensures forall p :: p in ExistingFiles(files, paths) ==> ExistingFiles(files, paths)[p] == files[p]
    decreases |paths|
  {
    if paths != [] {
      var init := paths[..|paths| - 1];
      ExistingFilesExact(files, init);
      assert paths == init + [paths[|paths| - 1]];
    }
  }

  /** The coaching bot records every run in its history and its journal,
      with exit code 0 exactly when the current stage passed, and starts
      the next level's clock when one unlocked. */
  lemma CoachRecordsRun(cfg: DetectorConfig, st: BotState, report: RunReport, now: real)
    ensures var after := CoachAfterRun(cfg, st, report, now);
      |after.runHistory| == |st.runHistory| + 1
      && after.runHistory[..|st.runHistory|] == st.runHistory
      && after.runHistory[|st.runHistory|].exitCode == (if report.currentPassed then 0 else 1)
      && after.journal.testTimeline == st.journal.testTimeline
           + [Journal.TestRecord(report.currentIndex, report.visiblePassed, report.visibleTotal)]
      && (report.unlockedNext ==> after.detector.levelStartTime[report.currentIndex + 2] == now)
      && after.mode == st.mode
  {
    RunResultAlwaysRecorded(cfg, st, if report.currentPassed then 0 else 1, report.visibleOutput,
                            report.currentIndex, report.visiblePassed, report.visibleTotal, now);
  }

  /** `Mode(value)` accepts exactly the two mode values. */
  lemma ParseModeRoundTrip(m: Mode)
    ensures ParseMode(m.Value()) == Some(m)
  {
  }
}
