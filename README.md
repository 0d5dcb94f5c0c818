# pair_helper — a verified model of its two engines

pair_helper is a practice environment for timed coding interviews with a
voice pair-programming bot. This project models and proves the two parts
of it that decide things.

**Stage-gated execution and scoring** (`backend/`):
- `runner.py` reads `unittest` summaries, runs a stage's visible and
  hidden test targets, runs the stages up to the session's stage, and
  scores the run.
- `questions.py` decodes `question.json` with its defaults, synthesises a
  stage when none is declared, and builds the sandbox a submission runs
  in. Candidate content may replace the visible files only.
- `sessions.py` is the store of timed sessions. It clamps the duration,
  expires sessions lazily, and only ever moves the stage index forward.
- `app.py` contributes `execute_code`, the voice-mode toggle, the
  `bot_step` guard, the parser of the bot's `<code file=…>` replies, and
  the 20-message conversation history.

**Collaboration state** (`src/pair_programming_voice_bot/` and
`backend/voice_sessions.py`):
- the two driving modes and the spoken phrases that switch them;
- the tool policy of each mode;
- the struggle detector, whose one cooldown is shared by all signals;
- the hint table;
- the workspace's path containment and its exactly-one-match patch;
- the bot that ties all of these together;
- the append-only session journal and its 1900-character code chunks;
- the concept knowledge base and the search-snippet scanner;
- the store of voice sessions.

## How the model is built

- One module per source file, plus `Wrappers` (`Option`, `Result`) and `Text`.
  `Text` holds the parts of Python's `str` the code relies on: `lower`,
  `strip`, `rstrip`, `split`, `find`, `in`, `int()`, `str()` and string
  ordering.
- `BotResponse` and `SearchSnippets` hold the two parsers of `app.py` and
  `concept_lookup.py`. `UnittestSummary` holds `parse_unittest_output`.
- Files are maps from relative name to content. A question folder is its
  file map plus the object `question.json` decodes to. Workspace paths
  are segment lists.
- The Docker subprocess is a parameter, `Executor`. It maps a sandbox and
  a target to an exit code and outputs, or to an `ExecutionError`.
- Each clock read is a parameter `now`, in seconds. The MD5 digest is a
  parameter `digest`, and nothing is assumed about it beyond being a
  function.
- Objects whose fields the source updates are classes:
  - `SessionStore`, `VoiceSessionStore` and `VoiceSession`;
  - `ModeStateMachine`, `StruggleDetector` and `SessionJournal`;
  - `QuestionWorkspace` and `PairProgrammingBot`.
- Each method is proved equal to a specification function over the old
  state: `CodeUpdateStep`, `Patch`, `SetModeStep`, `Execute` and so on.
  The properties are lemmas about those functions.
- The source's loops are `while` loops with invariants:
  - the test-target and stage loops of the runner;
  - the two sandbox loops;
  - the hidden-file lookup and the reveal loop;
  - the `FAILED` group fold;
  - the snippet scan, the code chunking and `list_files`.
- A `SessionStore` session is a value in the store's map. Writes through
  a session object the store handed out (`execute_code` setting
  `session.status`) become the store method `Expire`.

### Where the model follows the code rather than the description

- An `ExecutionError` raised while a stage runs leaves `run_code`, and
  `execute_code` answers it with a 500. So does a `ValueError` from
  `int()` on a malformed count, or a missing question. The model
  propagates these (`RunError`, `ApiFailure.Unhandled`); it does not score
  the stage as failed.
- `parse_unittest_output` does not clamp a negative count in
  `FAILED (failures=-2)`. Such a count makes `passed` exceed `total`.
  `UnittestSummary.SummaryBounds` states the bound only for
  non-negative counts.

## Model

| member | source | states |
|---|---|---|
| UnittestSummary.ParseUnittestOutput | backend/runner.py:22-41 | the parse gives the total of the leftmost `Ran N tests` line (0 without one), the failures and errors of the first `FAILED (...)` group, and passed = max(0, total − failures − errors); a count `int()` rejects raises instead |
| UnittestSummary.TallyParts | backend/runner.py:34-39 | the loop over the stripped parts of the group is the left-to-right fold: `failures=` and `errors=` set their count, any other key is ignored, the first count `int()` rejects stops the parse |
| UnittestSummary.DigitRunMaximal | backend/runner.py:29 | `\d+` takes the whole run of digits after `Ran`, and only digits |
| UnittestSummary.NonParenRunMaximal | backend/runner.py:32 | `[^)]+` ends exactly at the first `)` |
| UnittestSummary.FailedGroupShape | backend/runner.py:32 | a captured `FAILED` group is non-empty and holds no `)` |
| UnittestSummary.FailedParts | backend/runner.py:34 | one stripped part per comma-separated piece of the group |
| UnittestSummary.TallyAppend | backend/runner.py:35-39 | the parts are read in order, so a key that repeats keeps its last value |
| UnittestSummary.StepErrIndependent | backend/runner.py:36-39 | whether a part raises does not depend on the counts read before it |
| UnittestSummary.TallyFailsIff | backend/runner.py:35-39 | the parse raises exactly when some part of the group carries a count `int()` rejects |
| UnittestSummary.NoRanLineMeansZero | backend/runner.py:26-40 | without a `Ran` line the result is (0, 0), even when a `FAILED` line with non-negative counts is present |
| UnittestSummary.SummaryBounds | backend/runner.py:29-40 | total is the leftmost `Ran` count; passed ≤ total when the counts are non-negative; passed = total − failures − errors when that is not negative |
| Runner.SuitesOf | backend/runner.py:107-120 | a run of targets that succeeds gives one suite result per target |
| Runner.SuitesOfAt | backend/runner.py:107-108 | each suite result of a successful run is the result of running its own target |
| Runner.SuitesErrPrefix | backend/runner.py:107-120 | the first target that raises ends the whole run with its error |
| Runner.AllExitedZeroEach | backend/runner.py:105-120 | the `all_exited_zero` flag is true exactly when every suite exited 0 |
| Runner.AllExitedZeroIff | backend/runner.py:112-120 | the flag is true exactly when every target's own process exited 0 |
| Runner.SuiteExitCode | backend/runner.py:88-96 | the exit code kept for a target is its own process's |
| Runner.NonEmptyKeeps | backend/runner.py:128 | the output filter keeps exactly the non-empty outputs |
| Runner.RunVisible | backend/runner.py:107-113 | the visible loop returns the summed passed and total counts, every output in order and the exit flag, or the first error |
| Runner.RunHidden | backend/runner.py:115-120 | the hidden loop returns the summed counts and the exit flag and keeps no output, or the first error |
| Runner.RunStageTests | backend/runner.py:99-130 | `run_stage_tests` runs visible then hidden targets and computes the stage result |
| Runner.StagePassedIff | backend/runner.py:107-122 | a stage passes exactly when the visible counts balance, the hidden counts balance and every target's process exited 0 |
| Runner.EmptyStagePasses | backend/runner.py:99-130 | a stage with no targets passes with zero counts and empty output |
| Runner.HiddenOutputNeverShown | backend/runner.py:104-128 | two stages with the same visible targets report the same output, whatever their hidden targets print |
| Runner.StagesRun | backend/runner.py:150-152 | a run of stages that succeeds gives one result per stage |
| Runner.StagesRunAt | backend/runner.py:150-152 | each executed stage's result is `run_stage_tests` of that stage |
| Runner.StagesErrPrefix | backend/runner.py:150-152 | the first stage that raises ends the whole run with its error |
| Runner.RunStages | backend/runner.py:149-156 | the stage loop runs the stages in order, stopping at the first error |
| Runner.CountPassedBound | backend/runner.py:159-164 | no more stages pass than were run, and the count equals their number exactly when every one passed |
| Runner.ReportFacts | backend/runner.py:158-185 | the score lies in [0, 100]; `unlocked_next` holds exactly when every executed stage passed and a further stage exists, and then the score is (max_stage + 1)·100/len(stages); the reported counts are the last executed stage's |
| Runner.RunLoaded | backend/runner.py:143-185 | once the question is loaded, stages 0..min(stage_index, len − 1) run in order and the report is built from their results |
| Runner.StagesReportFacts | backend/runner.py:143-185 | the report names min(stage_index, len − 1) as current; an unlock means the requested stage itself was reached and every stage up to it passed |
| Runner.RunCode | backend/runner.py:133-185 | `run_code` loads the question, materialises the sandbox, runs the stages in it and reports, or raises the first error |
| Runner.RunCodeFacts | backend/runner.py:133-185 | a run that reports had a loadable question with at least one stage, and the stage, score and unlock facts hold of that question's stages in the candidate's sandbox |
| Questions.ConfigFromJson | backend/questions.py:37-52 | decoding fails exactly when `name`, `visible_files` or `entrypoint` is missing, naming the first missing key; otherwise the required fields are copied and one stage is decoded per declared stage, none when `stages` is absent |
| Questions.StageDefaults | backend/questions.py:17-23 | a stage object with no keys decodes to name "Stage" and empty visible, hidden and reveal lists |
| Questions.ConfigDefaults | backend/questions.py:38-52 | with only the required keys, the environment is {}, the duration 60 and there are no stages |
| Questions.LoadQuestionConfig | backend/questions.py:59-74 | a question without `question.json` is not found; a loaded configuration always has at least one stage |
| Questions.NoStagesSynthesisesOne | backend/questions.py:66-73 | a question with no or empty `stages` gets exactly one stage "Stage 1", with the entrypoint as its visible test and the existing hidden files as hidden tests |
| Questions.DeclaredStagesKept | backend/questions.py:39-42 | declared stages are kept, each decoded by `Stage.from_json` |
| Questions.ExistingMembers | backend/questions.py:103-106 | the lookup keeps exactly the names that exist in the folder |
| Questions.ExistingIn | backend/questions.py:102-107 | the lookup loop keeps the existing names in list order |
| Questions.GetHiddenFiles | backend/questions.py:99-107 | `get_hidden_files` returns the existing hidden files of the question, looked up in fixed order |
| Questions.ExistingNoDuplicates | backend/questions.py:101-107 | a name list without repeats gives a result without repeats |
| Questions.HiddenFilesShape | backend/questions.py:99-107 | the hidden files are exactly the existing ones of the four fixed names, without repeats, `hiddenTests.py` first when it exists |
| Questions.LoadVisibleFiles | backend/questions.py:77-90 | the loop returns `desc.md` and the visible files that exist, with their contents |
| Questions.VisibleFilesExact | backend/questions.py:77-90 | a name is returned exactly when it exists and is `desc.md` or listed as visible, and its content is the folder's |
| Questions.WriteVisible | backend/questions.py:119-130 | the first sandbox loop writes each visible file with the candidate's content, else the stock content, and skips it when neither exists |
| Questions.CopySupport | backend/questions.py:132-140 | the second sandbox loop adds every other top-level file except `question.json`, copied verbatim |
| Questions.MaterializeQuestion | backend/questions.py:110-141 | `materialize_question` fails as loading fails; otherwise it returns the configuration and the sandbox of both loops |
| Questions.SandboxTrustBoundary | backend/questions.py:119-140 | candidate content appears only under visible names; every other sandbox entry is the stock file, top-level and never `question.json` |
| Questions.SandboxComplete | backend/questions.py:119-140 | a name is in the sandbox exactly when it is visible and has content somewhere, or is a non-visible top-level stock file other than `question.json` |
| Sessions.ClampDuration | backend/sessions.py:25-26 | the duration is the requested one, or 60 when none or 0 is given, clamped into [1, 120] |
| Sessions.Remaining | backend/sessions.py:46-49 | the remaining whole seconds are never negative, and are 0 exactly when less than one second is left |
| Sessions.Refresh | backend/sessions.py:41-43 | lazy expiry changes only the status, and a session ends expired exactly when it was expired or has no time left |
| Sessions.SessionStore.constructor | backend/sessions.py:21-22 | a new store holds no session |
| Sessions.SessionStore.Create | backend/sessions.py:24-35 | `create` stores under the given id an active session with the clamped duration, no score and stage 0 |
| Sessions.SessionStore.Get | backend/sessions.py:37-44 | `get` gives None for an unknown id and leaves the store alone; otherwise it returns and keeps the refreshed session; no session goes back in progress |
| Sessions.SessionStore.RemainingSeconds | backend/sessions.py:46-49 | `remaining_seconds` is `Remaining` at the given time |
| Sessions.SessionStore.MarkScore | backend/sessions.py:51-56 | `mark_score` overwrites the score on every call and expires a session whose time is up; an unknown id changes nothing |
| Sessions.SessionStore.AdvanceStage | backend/sessions.py:58-61 | `advance_stage` adds exactly 1 to the stage index, with no upper bound; an unknown id changes nothing |
| Sessions.SessionStore.Expire | backend/app.py:209-212 | the status write of `execute_code` marks that one session expired |
| Sessions.RemainingMonotone | backend/sessions.py:46-49 | the remaining seconds never grow as the clock moves forward |
| Sessions.ExpiryIsPermanent | backend/sessions.py:37-44 | once lazy expiry has expired a session it stays expired at every later time |
| Sessions.ProgressedTransitive | backend/sessions.py:51-61 | "stage index never lower, expired never active again" composes over any run of store operations |
| Sessions.FreshSession | backend/sessions.py:9-35 | a new session is active, without score, at stage 0, and has time left until its clamped duration has almost passed |
| App.AdmitRequest | backend/app.py:204-212 | the request is answered and the store changed as `Admit` defines (404 for an unknown session, 400 for another question, 410 after expiring a session with no time left), and an admitted session is the one requested |
| App.ExpiredNeverRuns | backend/app.py:209-212 | a session whose time is up is answered 410 and left expired |
| App.RejectionsKeepProgress | backend/app.py:204-218 | every rejected request leaves every session's stage and score as they were; an unknown session leaves the store untouched |
| App.AfterRunMoves | backend/app.py:223-229 | after a run the stage moves forward by one exactly when the next stage unlocked, and the score is recorded exactly when the final stage passed |
| App.UnlockedStageExists | backend/app.py:226-233 | a run that unlocks never also scores the final stage, and the unlocked stage always exists, so the `< len(cfg.stages)` guard always holds |
| App.UnlockedStage | backend/app.py:230-233 | a named unlocked stage is the stage at that index of the loaded configuration |
| App.ExistingFilesExact | backend/app.py:234-238 | the revealed files are exactly the listed paths that exist, with their contents |
| App.RevealFiles | backend/app.py:234-238 | the reveal loop gives the unlocked stage's `reveal_files + visible_tests` that exist |
| App.ReplyNamesUnlocked | backend/app.py:220-238 | the reply names a stage exactly when one unlocked, and then names the session's new stage; it reveals nothing otherwise |
| App.ExecuteUnlocks | backend/app.py:220-238 | a successful `execute_code` reports an unlocked stage exactly when the run unlocked one, at the session's previous stage plus one, and reveals no files otherwise |
| App.RecordRun | backend/app.py:220-277 | after a run the store holds the session with the score and stage decisions applied, and the reply carries the run report and the reveal |
| App.CoachRecordsRun | backend/app.py:253-267 | the coaching bot records the run once in its history and journal, with exit code 0 exactly when the stage passed, and starts the clock of level index + 2 when a stage unlocked |
| App.CoachRun | backend/app.py:253-267 | a session with a voice session has its bot observe the run as `CoachAfterRun` says; other bots are untouched |
| App.RecordAndCoach | backend/app.py:220-277 | the tail of `execute_code` records the run in the store and coaches the voice session |
| App.ExecuteCode | backend/app.py:202-277 | `execute_code` returns the reply and leaves the store as `Execute` defines, and coaches the voice session after a successful run |
| App.ExecuteKeepsIds | backend/app.py:202-277 | every session stays filed under its own id |
| App.ParseMode | backend/app.py:309-311 | `Mode(value)` gives the mode whose value is the text, and fails for any other text |
| App.ParseModeRoundTrip | backend/app.py:309 | both mode values parse back to their mode |
| App.SetVoiceMode | backend/app.py:303-313 | 404 for an unknown voice session, 400 for a text that names no mode; otherwise the bot switches with trigger "ui_toggle" and the mode is returned |
| App.BotStepGuard | backend/app.py:444-448 | `bot_step` proceeds exactly when the voice session exists and its bot's mode is bot-drives; 404 for an unknown session, 409 when the bot's mode is human-drives |
| App.StartDurationSettles | backend/app.py:166 | the started session runs the requested minutes when they lie in [1, 120], the question's default when the request names none (or 0) and that default lies in [1, 120], 60 when neither names one, and always between 1 and 120 |
| App.StartAssessment | backend/app.py:159-181 | 404 for a question without `question.json` and no store changes; a descriptor missing a key raises; otherwise a timed session and a voice session (bot-drives, level 1 started now) are filed under the same id, and the reply carries the remaining seconds, the expiry time, status Active, stage 0 and the stage names |
| BotResponse.NonQuoteRunMaximal | backend/app.py:424 | the file name `[^"]+` runs up to the first `"` |
| BotResponse.AfterLastNewlineExact | backend/app.py:424 | `\s*\n` ends at the last newline of the whitespace after the tag |
| BotResponse.BlockAt | backend/app.py:424 | a block found at a position starts there with `<code` and ends inside the reply |
| BotResponse.NextBlock | backend/app.py:429 | the next block found from a position is a block at or after that position |
| BotResponse.NextBlockSkips | backend/app.py:429 | no block starts at a position the search passes over |
| BotResponse.NextBlockLeftmost | backend/app.py:429 | `finditer` finds the leftmost block: none starts between the search point and the one it finds |
| BotResponse.NoBlockFrom | backend/app.py:429 | with no `<code` after a position no further block is found |
| BotResponse.Entries | backend/app.py:430-431 | each block is filed under its stripped name with its right-stripped body |
| BotResponse.UpdatedIffNamed | backend/app.py:428-432 | a file is updated exactly when some block names it |
| BotResponse.LastBlockWins | backend/app.py:428-432 | an updated file gets the body of the last block naming it |
| BotResponse.Collapse | backend/app.py:435 | collapsing never lengthens the text and keeps its first character |
| BotResponse.CollapseNoTriple | backend/app.py:435 | after collapsing no three newlines are in a row |
| BotResponse.CollapseKeepsShortRuns | backend/app.py:435 | text without three newlines in a row is left unchanged |
| BotResponse.CollapseIdempotent | backend/app.py:435 | collapsing twice is collapsing once |
| BotResponse.NarrationHasNoTripleNewline | backend/app.py:434-435 | the narration never contains "\n\n\n" |
| BotResponse.PlainReply | backend/app.py:427-436 | a reply without `<code` updates no file, and its narration is the stripped, collapsed reply |
| VoiceSessions.KeepLast | backend/app.py:335 | `history[-n:]` keeps the newest n entries, or all of them when there are fewer |
| VoiceSessions.VoiceSession.constructor | backend/voice_sessions.py:19-24 | a voice session starts with an empty conversation history |
| VoiceSessions.VoiceSession.RecordExchange | backend/app.py:333-335 | the prompt and the reply are appended and the history cut to its last 20 entries |
| VoiceSessions.ExchangeKeepsNewest | backend/app.py:333-335 | after an exchange the history holds at most 20 entries, ends with the prompt and the reply, and keeps the newest earlier entries in order |
| VoiceSessions.VoiceSessionStore.constructor | backend/voice_sessions.py:28-29 | a new store over the questions root holds no voice session and no open folder |
| VoiceSessions.VoiceSessionStore.Create | backend/voice_sessions.py:31-41 | `create` stores under the id, replacing any session there, a session with empty history and a new bot over the folder `questions root / question_name` (the same workspace object as every earlier session of that question), in bot-drives mode, with an empty journal and level 1 started now |
| VoiceSessions.PatchSeenAcrossSessions | backend/voice_sessions.py:31-41 | two voice sessions of one question share one workspace: the files the second bot reads are the files after the first bot's patch |
| VoiceSessions.NewSessionState | backend/voice_sessions.py:31-41 | a new voice session's bot drives, has only level 1's clock started, no runs and no signal, and its empty mode journal is faithful |
| VoiceSessions.VoiceSessionStore.Get | backend/voice_sessions.py:43-44 | `get` gives None exactly for an unknown id |
| VoiceSessions.VoiceSessionStore.SetMode | backend/voice_sessions.py:46-51 | None for an unknown id; otherwise the bot switches (journalled when the mode changes) and the requested mode is returned |
| Modes.Normalize | src/pair_programming_voice_bot/modes.py:30-31 | the normal form has no capital and no hyphen, no whitespace at either end, and is its own words joined by single spaces |
| Modes.NormalizeIdempotent | src/pair_programming_voice_bot/modes.py:30-31 | normalising twice is normalising once |
| Modes.NormalizeOfNormal | src/pair_programming_voice_bot/modes.py:30-31 | lower-case, hyphen-free words joined by single spaces are already normal |
| Modes.DetectionIgnoresForm | src/pair_programming_voice_bot/modes.py:34-42 | two utterances with the same normal form give the same command |
| Modes.DetectionOrder | src/pair_programming_voice_bot/modes.py:34-42 | bot-drives exactly when a bot phrase occurs; human-drives exactly when a human phrase occurs and no bot phrase does; None exactly when neither does |
| Modes.DetectMyTurn | tests/test_mode_state_machine.py:16 | "my turn" is a human-drives command |
| Modes.ModeStateMachine.constructor | src/pair_programming_voice_bot/modes.py:55-56 | the machine starts in the given mode, bot-drives by default |
| Modes.ModeStateMachine.SetMode | src/pair_programming_voice_bot/modes.py:62-67 | setting the current mode returns None and changes nothing; setting the other mode switches and returns (previous, target, trigger) |
| Modes.ModeStateMachine.ApplyVoiceCommand | src/pair_programming_voice_bot/modes.py:69-73 | an utterance without a command changes nothing; otherwise it acts as `set_mode` with the raw utterance as trigger |
| Modes.ScenarioTakeOverThenLetMeTry | tests/test_mode_state_machine.py:19-26 | "take over" while the bot drives makes no transition; "let me try" then hands over to the human |
| Policy.AllowedActions | src/pair_programming_voice_bot/policy.py:46-50 | both modes allow the shared actions; bot-drives adds patching and running tests, human-drives adds reading the code and the run history, and each excludes the other's |
| Policy.AssertAllowed | src/pair_programming_voice_bot/policy.py:52-57 | the check passes exactly for an allowed action and otherwise fails with the violation message |
| Policy.ActionTablesPartition | src/pair_programming_voice_bot/policy.py:26-44 | the three action sets are pairwise disjoint, cover all seven actions, and every action is allowed in some mode |
| Policy.AllowedInBothIffShared | src/pair_programming_voice_bot/policy.py:26-50 | an action is allowed in both modes exactly when it is shared |
| Policy.PolicyTable | tests/test_tool_policy.py:15-27 | bot-drives may patch and run tests, human-drives may not; human-drives may read the code and the history, bot-drives may not |
| Struggle.EmitStep | src/pair_programming_voice_bot/struggle_detector.py:42-46 | a signal stamped now is emitted exactly when the cooldown has run out since the last one (always before the first), and then becomes the last signal time |
| Struggle.CodeUpdateStep | src/pair_programming_voice_bot/struggle_detector.py:48-63 | the snapshot is always appended and the edit time set; a backtrack is signalled exactly when the code is shorter than the threshold of the last snapshot and the cooldown allows |
| Struggle.RunResultStep | src/pair_programming_voice_bot/struggle_detector.py:65-86 | the run is always recorded with its digest; a repeated failure is signalled exactly when the last two runs share a non-zero exit code and a digest and the cooldown allows |
| Struggle.LevelStartStep | src/pair_programming_voice_bot/struggle_detector.py:88-89 | the level's start time is recorded or overwritten, and nothing else changes |
| Struggle.UserMessageStep | src/pair_programming_voice_bot/struggle_detector.py:91-97 | an explicit ask is signalled exactly when the lower-cased message holds a help marker and the cooldown allows |
| Struggle.IdleStep | src/pair_programming_voice_bot/struggle_detector.py:99-114 | nothing while tests pass or before a first edit; a long pause exactly when the idle threshold is reached and the cooldown allows |
| Struggle.LevelWallStep | src/pair_programming_voice_bot/struggle_detector.py:116-128 | nothing for a level that never started; a level wall exactly when its time is reached and the cooldown allows |
| Struggle.Apply | src/pair_programming_voice_bot/struggle_detector.py:42-46 | every kind of signal passes the same cooldown and becomes the last signal time |
| Struggle.CooldownSpacing | src/pair_programming_voice_bot/struggle_detector.py:42-46 | over any run of calls, consecutive signals of any kinds are at least the cooldown apart, and the detector remembers the latest |
| Struggle.BacktrackAtDefaultRatio | src/pair_programming_voice_bot/struggle_detector.py:53-54 | at ratio 0.2, `len(code) < int(len(prev)·0.8)` exactly when 5·(len(code) + 1) ≤ 4·len(prev) |
| Struggle.NoBacktrackWithoutShrink | src/pair_programming_voice_bot/struggle_detector.py:51-54 | without a previous snapshot, or without shrinking, there is no backtrack |
| Struggle.RepeatedFailureIgnoresStage | src/pair_programming_voice_bot/struggle_detector.py:75-79 | the stage index plays no part in the repeated-failure test |
| Struggle.ScenarioBacktrack | tests/test_struggle_detector.py:14-19 | ten characters then two is a backtrack |
| Struggle.ScenarioRepeatedFailure | tests/test_struggle_detector.py:21-26 | the same failure twice in a row is a repeated failure |
| Struggle.ScenarioIdleAndLevelWall | tests/test_struggle_detector.py:28-38 | 31 s after an edit with failing tests is a long pause; 301 s into level 3 is a level wall |
| Struggle.ScenarioSharedCooldown | tests/test_struggle_detector.py:40-46 | with the 60 s cooldown, a backtrack at t=11 silences the repeated failures at t=12 and t=13 |
| Struggle.StruggleDetector.constructor | src/pair_programming_voice_bot/struggle_detector.py:20-36 | a new detector keeps its settings and starts with no edit, run, snapshot, level or signal |
| Struggle.StruggleDetector.Emit | src/pair_programming_voice_bot/struggle_detector.py:42-46 | `_emit` does what `EmitStep` says |
| Struggle.StruggleDetector.OnCodeUpdate | src/pair_programming_voice_bot/struggle_detector.py:48-63 | `on_code_update` does what `CodeUpdateStep` says |
| Struggle.StruggleDetector.OnRunResult | src/pair_programming_voice_bot/struggle_detector.py:65-86 | `on_run_result` does what `RunResultStep` says |
| Struggle.StruggleDetector.OnLevelStart | src/pair_programming_voice_bot/struggle_detector.py:88-89 | `on_level_start` does what `LevelStartStep` says |
| Struggle.StruggleDetector.OnUserMessage | src/pair_programming_voice_bot/struggle_detector.py:91-97 | `on_user_message` does what `UserMessageStep` says |
| Struggle.StruggleDetector.CheckIdle | src/pair_programming_voice_bot/struggle_detector.py:99-114 | `check_idle` does what `IdleStep` says |
| Struggle.StruggleDetector.CheckLevelWall | src/pair_programming_voice_bot/struggle_detector.py:116-128 | `check_level_wall` does what `LevelWallStep` says |
| Hints.HintForSignal | src/pair_programming_voice_bot/hints.py:8-53 | every kind has its hint, pauses by level ≤ 2 or above, repeated failures by level 3, ≥ 4 or other; unknown kinds get the default; never empty |
| Hints.HintLevelIndependent | src/pair_programming_voice_bot/hints.py:8-53 | only pauses and repeated failures depend on the level |
| Hints.BacktrackHintMentionsFirstMatchWins | src/pair_programming_voice_bot/hints.py:35-39 | the backtrack hint contains "first-match-wins" |
| Workspace.Resolve | src/pair_programming_voice_bot/workspace.py:17-21 | the path is `root / relative_path` normalised (an absolute path replaces the root), and it is refused exactly when it leaves the root |
| Workspace.NormaliseExtends | src/pair_programming_voice_bot/workspace.py:17-21 | a path without `..` stays beneath its base |
| Workspace.PlainPathResolves | src/pair_programming_voice_bot/workspace.py:17-21 | a relative path without `..` is never refused |
| Workspace.ParentEscapes | src/pair_programming_voice_bot/workspace.py:17-21 | `..` from a root below `/` is refused |
| Workspace.DescriptionName | src/pair_programming_voice_bot/workspace.py:36-41 | up to level 1 the description is `desc.md`; beyond it `desc_level{level}.md` |
| Workspace.DescriptionLevelReadsBack | src/pair_programming_voice_bot/workspace.py:39-40 | the level beyond 1 can be read back from the digits between `desc_level` and `.md` |
| Workspace.PlainNameResolves | src/pair_programming_voice_bot/workspace.py:17-21 | a plain file name resolves to the file of that name directly beneath the root |
| Workspace.DescriptionNamesDistinct | src/pair_programming_voice_bot/workspace.py:36-41 | different levels beyond 1 read different files, none of them `desc.md` |
| Workspace.Patch | src/pair_programming_voice_bot/workspace.py:46-58 | a patch succeeds exactly when the path resolves, the file exists and `old_text` occurs once; then that occurrence is replaced and "Patched {file}." returned; on any error no file changes |
| Workspace.PatchSplice | src/pair_programming_voice_bot/workspace.py:51-56 | the one occurrence splits the file into prefix + old + suffix with no other occurrence, and the patched file is prefix + new + suffix |
| Workspace.AbsentNotPatched | src/pair_programming_voice_bot/workspace.py:46-55 | a non-empty text that does not occur is refused and changes nothing |
| Workspace.QuestionWorkspace.constructor | src/pair_programming_voice_bot/workspace.py:14-15 | the workspace holds the given root and files |
| Workspace.QuestionWorkspace.ReadFile | src/pair_programming_voice_bot/workspace.py:30-34 | an escaping path and a missing file are refused with their messages; otherwise the file's text is returned |
| Workspace.QuestionWorkspace.ReadDescription | src/pair_programming_voice_bot/workspace.py:36-41 | reads the level's description file |
| Workspace.QuestionWorkspace.GetCurrentCode | src/pair_programming_voice_bot/workspace.py:43-44 | reads the given file, `ruleengine.py` by default |
| Workspace.QuestionWorkspace.ApplyPatch | src/pair_programming_voice_bot/workspace.py:46-58 | `apply_patch` returns the message and leaves the files that `Patch` defines |
| Workspace.QuestionWorkspace.ListFiles | src/pair_programming_voice_bot/workspace.py:23-28 | every file's relative path once, strictly sorted |
| Journal.SessionJournal.constructor | src/pair_programming_voice_bot/notion_logger.py:18-25 | a new journal has the question name, four empty lists and no final code |
| Journal.SessionJournal.ToDict | src/pair_programming_voice_bot/notion_logger.py:61-69 | `to_dict` exposes the question name, the four lists and the final code as they are now |
| Journal.SessionJournal.LogModeSwitch | src/pair_programming_voice_bot/notion_logger.py:27-35 | one more mode-switch record, nothing else changes |
| Journal.SessionJournal.LogStruggle | src/pair_programming_voice_bot/notion_logger.py:37-44 | one more struggle record, nothing else changes |
| Journal.SessionJournal.LogLookup | src/pair_programming_voice_bot/notion_logger.py:46-47 | one more lookup record, nothing else changes |
| Journal.SessionJournal.LogTestResult | src/pair_programming_voice_bot/notion_logger.py:49-56 | one more test record, nothing else changes |
| Journal.SessionJournal.SetFinalCode | src/pair_programming_voice_bot/notion_logger.py:58-59 | the final code is overwritten, nothing else changes |
| Journal.ChunksReassemble | src/pair_programming_voice_bot/notion_logger.py:211-214 | the chunks put back together are the code; each holds 1 to 1900 characters, all but the last exactly 1900, and there are ⌈len/1900⌉ of them |
| Journal.CodeChunks | src/pair_programming_voice_bot/notion_logger.py:212-214 | the chunking loop produces those chunks |
| ConceptLookup.FirstKbMatch | src/pair_programming_voice_bot/concept_lookup.py:106-108 | the scan finds the first key, in declaration order, that occurs in the query, or reports that none does |
| ConceptLookup.Lookup | src/pair_programming_voice_bot/concept_lookup.py:102-126 | the summary of the first key found in the lower-cased, stripped query; otherwise a non-empty web answer; otherwise the fixed apology |
| ConceptLookup.KbBeforeWeb | src/pair_programming_voice_bot/concept_lookup.py:105-118 | a query that names a key never depends on the web search |
| SearchSnippets.TagEnd | src/pair_programming_voice_bot/concept_lookup.py:207 | a tag `<[^>]+>` closes at the next `>`, and there is none exactly when no `>` follows or it follows at once |
| SearchSnippets.StripTags | src/pair_programming_voice_bot/concept_lookup.py:207 | removing tags never adds a character |
| SearchSnippets.StripTagsTagFree | src/pair_programming_voice_bot/concept_lookup.py:207 | no tag is left after removal |
| SearchSnippets.SnippetText | src/pair_programming_voice_bot/concept_lookup.py:206-207 | a snippet's text is empty or trimmed, and never longer than the raw text |
| SearchSnippets.NextSnippet | src/pair_programming_voice_bot/concept_lookup.py:197-206 | a round that finds the marker, the `>` and the `</` moves the scan position strictly forward |
| SearchSnippets.ScanShape | src/pair_programming_voice_bot/concept_lookup.py:196-210 | a resumed scan keeps what it found, adds only trimmed snippets and stops at the limit |
| SearchSnippets.SnippetsShape | src/pair_programming_voice_bot/concept_lookup.py:192-211 | at most `max_results` snippets, none for a limit ≤ 0, each non-empty and trimmed |
| SearchSnippets.ExtractSnippets | src/pair_programming_voice_bot/concept_lookup.py:192-211 | the scan loop returns what `Scan` defines |
| Agent.Gate | src/pair_programming_voice_bot/agent.py:145 | the policy passes exactly for an allowed action, and otherwise refuses with the violation message |
| Agent.Gated | src/pair_programming_voice_bot/agent.py:144-193 | a gated tool is refused exactly when the mode forbids it, and otherwise gives the tool's own result |
| Agent.SummarizeTestResult | src/pair_programming_voice_bot/agent.py:169-185 | passed and unlocked gives "Level k+1 passed. Unlocking Level k+2."; not passed gives the visible counts, missing fields read as 0 or false |
| Agent.SummaryKinds | src/pair_programming_voice_bot/agent.py:169-185 | "All levels complete." exactly when the stage passed with nothing to unlock; every other summary starts with the level |
| Agent.PairProgrammingBot.constructor | src/pair_programming_voice_bot/agent.py:19-36 | a bot without a given machine starts in bot-drives, without a given detector gets the default one, and starts with an empty journal and history |
| Agent.PairProgrammingBot.SetMode | src/pair_programming_voice_bot/agent.py:42-50 | a switch to the other mode is journalled once; a switch to the current mode changes nothing |
| Agent.PairProgrammingBot.HandleVoiceInput | src/pair_programming_voice_bot/agent.py:52-72 | `handle_voice_input` replies and leaves the state as `VoiceInputStep` defines |
| Agent.VoiceTransitionAnswersOnce | src/pair_programming_voice_bot/agent.py:52-66 | a switching command gets exactly one reply, is journalled as one switch with the utterance as trigger, and never reaches the detector |
| Agent.PairProgrammingBot.ObserveCodeUpdate | src/pair_programming_voice_bot/agent.py:74-86 | `observe_code_update` does what `CodeUpdateObserved` defines |
| Agent.QuietWhileBotDrives | src/pair_programming_voice_bot/agent.py:52-142 | while the bot drives, only a human-drives command changes anything; other speech, code updates and periodic checks give no reply and no change |
| Agent.PairProgrammingBot.ObserveRunResult | src/pair_programming_voice_bot/agent.py:88-119 | `observe_run_result` does what `RunResultObserved` defines |
| Agent.RunResultAlwaysRecorded | src/pair_programming_voice_bot/agent.py:98-110 | every run adds one history entry and one journal test record in either mode; while the bot drives nothing else changes |
| Agent.RunResultHintLevel | src/pair_programming_voice_bot/agent.py:109-119 | while the human drives, a run gets a hint exactly when the detector signals, and it is the hint for level stage + 1 |
| Agent.PairProgrammingBot.PeriodicCheck | src/pair_programming_voice_bot/agent.py:121-142 | `periodic_check` does what `PeriodicCheckStep` defines |
| Agent.PeriodicIdleFirst | src/pair_programming_voice_bot/agent.py:131-142 | an idle signal settles the check; the level wall is not consulted |
| Agent.PairProgrammingBot.RespondToSignal | src/pair_programming_voice_bot/agent.py:199-201 | the signal is journalled and answered with its hint |
| Agent.HintIffStruggleJournalled | src/pair_programming_voice_bot/agent.py:199-201 | a hint is given exactly when one struggle moment is journalled |
| Agent.PairProgrammingBot.ReadFile | src/pair_programming_voice_bot/agent.py:144-146 | refused exactly when the mode forbids reading; otherwise the workspace's `read_file` |
| Agent.PairProgrammingBot.ReadDescription | src/pair_programming_voice_bot/agent.py:148-150 | refused exactly when the mode forbids it; otherwise the workspace's description |
| Agent.PairProgrammingBot.LookupConcept | src/pair_programming_voice_bot/agent.py:152-156 | a permitted lookup returns the knowledge-base answer and journals it; a refused one journals nothing |
| Agent.PairProgrammingBot.ApplyPatch | src/pair_programming_voice_bot/agent.py:158-160 | a refused patch leaves the files as they were; a permitted one does what `Patch` defines |
| Agent.PairProgrammingBot.ExecuteTests | src/pair_programming_voice_bot/agent.py:162-167 | refused first by the policy; then an error without a backend, the backend's answer with one |
| Agent.PairProgrammingBot.GetCurrentCode | src/pair_programming_voice_bot/agent.py:187-189 | refused exactly when the mode forbids it; otherwise the workspace's current code |
| Agent.PairProgrammingBot.GetRunHistory | src/pair_programming_voice_bot/agent.py:191-193 | refused exactly when the mode forbids it; otherwise the run history |
| Agent.PairProgrammingBot.SaveSessionJournal | src/pair_programming_voice_bot/agent.py:195-197 | the journal's final code becomes the current `ruleengine.py`, with no policy check; a read error changes nothing |
| Agent.ToolsFollowTheDriver | src/pair_programming_voice_bot/agent.py:144-193 | patching and running tests are refused while the human drives; reading the code and history are refused while the bot drives; reading files never is |
| Agent.ModeLogStaysFaithful | src/pair_programming_voice_bot/agent.py:42-72 | whatever the bot goes through, the journal's mode switches chain from the initial mode to the current one, each a real change |
| Agent.ScenarioVoiceModeSwitch | tests/test_agent_core.py:36-40 | "my turn" to a new bot hands over with one reply |
| Agent.ScenarioPatchRefusedForHuman | tests/test_agent_core.py:42-45 | while the human drives a patch is refused and the file is untouched |
| Agent.ScenarioBacktrackHint | tests/test_agent_core.py:47-52 | cutting ten characters to one while the human drives brings the first-match-wins hint |
| Text.Lower | src/pair_programming_voice_bot/concept_lookup.py:103 | `lower()` maps each ASCII capital to its small letter and keeps the length |
| Text.Strip | src/pair_programming_voice_bot/concept_lookup.py:103 | `strip()` is the slice after the leading whitespace with no whitespace at either end |
| Text.RStrip | backend/app.py:431 | `rstrip()` is a prefix, ends in non-whitespace, and drops only whitespace |
| Text.FindFrom | src/pair_programming_voice_bot/concept_lookup.py:197 | `find` returns a position at or after the start where the text occurs |
| Text.FindFromExact | src/pair_programming_voice_bot/concept_lookup.py:197-205 | `find` returns the leftmost occurrence, and -1 only when there is none |
| Text.LeftmostSpec | backend/runner.py:29-32 | `re.search` reports the leftmost match |
| Text.SplitOn | backend/runner.py:34 | `split(c)` gives at least one part, two when `c` occurs, and no part holds `c` |
| Text.Words | src/pair_programming_voice_bot/modes.py:31 | `split()` gives non-empty words without whitespace |
| Text.WordsOfJoin | src/pair_programming_voice_bot/modes.py:31 | splitting words joined by single spaces gives the words back |
| Text.NatToString | src/pair_programming_voice_bot/workspace.py:40 | `str(n)` of a natural number is a non-empty run of decimal digits |
| Text.IntToStringRoundTrip | src/pair_programming_voice_bot/workspace.py:40 | `int(str(n)) == n` for every integer |
| Text.Trunc | backend/sessions.py:49 | `int()` of a float truncates toward zero |
| Text.TruncMonotone | backend/sessions.py:49 | truncation never decreases as its argument grows |
| Text.LexLessIrreflexive | src/pair_programming_voice_bot/workspace.py:28 | no string sorts before itself |
| Text.LexLessTotal | src/pair_programming_voice_bot/workspace.py:28 | Python's string order relates any two different strings |
| Text.LexLessTransitive | src/pair_programming_voice_bot/workspace.py:28 | Python's string order is transitive |

## Left out

- Docker execution (`docker_command`, backend/runner.py:44-85) is the parameter `Executor`: process, timeout and isolation flags are not modelled.
- File and directory I/O (temporary directories, `read_text`, `write_text`, `iterdir`, `rglob`, `mkdir`) become maps; symbolic links inside `Path.resolve` are not modelled.
- `json.load` is not modelled: `question.json` is the decoded `RawQuestion`, so a malformed file or a wrongly typed value is not modelled.
- Clock reads (`time.time()`, `datetime.now`) are the parameter `now`, read once per request. `runtime_ms` is not modelled, because it is only a clock difference.
- `uuid.uuid4()` in `SessionStore.create` is the parameter `sessionId`; its uniqueness is not modelled.
- The MD5 digest is the parameter `digest`; collisions are possible in the model as they are in the source.
- `save_snapshot` and `log_event` (backend/activity_logger.py) are append-only I/O and are not modelled.
- The language model, text-to-speech, Notion, Browserbase and DuckDuckGo clients are network calls. They are not modelled. The web search's answer is the parameter `web` of `Lookup`; the " | " joining of snippets and the session release are left out.
- The voice endpoints `voice_input`, `voice_code_update`, `voice_check`, `voice_lookup` and `bot_step` call the language model; only their history truncation (`RecordExchange`) and the `bot_step` guard are modelled.
- `SessionJournal.save` and `upload_to_notion` are I/O; only the 1900-character chunking of the final code is modelled.
- Runner.RunCode: a negative `stage_index` is not modelled (callers pass the session's stage index, which starts at 0 and only grows), so `requires stageIndex >= 0`.
- Runner.ReportFacts: the final score is a real number; floating-point rounding of `stages_passed / total_stages * 100` is not modelled.
- Struggle.BacktrackThreshold: the ratio is a real number and `int()` truncates exactly; a float product rounding across an integer boundary is not modelled.
- UnittestSummary.SummaryBounds: states passed ≤ total only for non-negative counts, because `int()` accepts "-2" and the source then reports passed > total.
- ParseInt accepts ASCII digits only; Python's `int()` also accepts other Unicode decimal digits.
- Text.Lower lower-cases ASCII letters only; Python's `lower()` also maps other Unicode letters.
- App.ExecuteCode: the hint `observe_run_result` returns is dropped, as the source drops it.
- App.AdmitRequest: requires that every session is filed under its own id (`KeyedById`), which `create` guarantees and every store operation preserves (`App.ExecuteKeepsIds`).
- `execute_code` writes through the session object `get` handed out; the model writes through the store (`SessionStore.Expire`), so aliasing between session objects is not modelled.
- The `StruggleSignal.context` dictionary is a datatype per signal kind, holding the keyword arguments each kind passes.
- `tags`, `estimated_difficulty` and `environment` are decoded but no modelled code reads them.
- `list_questions`, `get_question`, `get_assessment`, `log_activity`, `get_voice_state` and `text_to_speech` in backend/app.py only read, log or proxy, and are not modelled.
- `publish_session` in backend/app.py uploads the journal to Notion or saves it to a file, which is I/O. Modelled are the final-code write (`Journal.SessionJournal.SetFinalCode`) and the 1900-character chunking (`Journal.CodeChunks`).
- App.StartAssessment: the `log_event` call is I/O and is left out. The remaining seconds and the expiry time use the one `now` the request reads.
- VoiceSessions.VoiceSessionStore.Create and Agent.PairProgrammingBot.ApplyPatch: the voice sessions of a question share one workspace, but `execute_code` and `materialize_question` read the stock files from `Repository`, which is a value. So a bot's patch is not in the files those later runs copy, as it would be in the source's shared question folder.
- Workspace.QuestionWorkspace.ReadFile, Workspace.Patch and Workspace.QuestionWorkspace.ApplyPatch: directories are not modelled. A path that resolves to a directory (`""` or `"."` for the root, or a sub-folder) gives "File not found" in the model; the source raises `IsADirectoryError`, which is an `OSError` and not a `WorkspaceError`.
