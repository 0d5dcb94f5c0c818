/** The keyed store of voice sessions (backend/voice_sessions.py): each
    session owns a bot over its own workspace and a conversation history. */
module VoiceSessions {
  import opened Wrappers
  import opened Text
  import opened Modes
  import opened Struggle
  import opened Workspace
  import opened Journal
  import opened Agent

  /** One entry of `conversation_history`. */
  datatype Message = Message(role: string, content: string)

  /** How many messages a session's conversation history keeps. */
  const HistoryLimit := 20

  /** `history[-n:]`: the newest `n` entries, all of them when there are fewer. */
  function KeepLast<T>(history: seq<T>, n: nat): (r: seq<T>)
    ensures |r| == if |history| <= n then |history| else n
    ensures r == history[|history| - |r|..]
  {
    if |history| <= n then history else history[|history| - n..]
  }

  /** `VoiceSession`. */
  class VoiceSession {
    const sessionId: string
    const questionName: string
    const bot: PairProgrammingBot
    var conversationHistory: seq<Message>

    constructor (sessionId: string, questionName: string, bot: PairProgrammingBot)
      ensures this.sessionId == sessionId && this.questionName == questionName && this.bot == bot
      ensures conversationHistory == []
    {
      this.sessionId := sessionId;
      this.questionName := questionName;
      this.bot := bot;
      conversationHistory := [];
    }

    /** The two appends and the truncation each voice endpoint performs
        after consulting the language model: the prompt (a user or system
        message) and the assistant's reply. */
    method RecordExchange(prompt: Message, reply: Message)
      modifies this
      ensures conversationHistory == KeepLast(old(conversationHistory) + [prompt, reply], HistoryLimit)
    {
      conversationHistory := conversationHistory + [prompt];
      conversationHistory := conversationHistory + [reply];
      conversationHistory := conversationHistory[if |conversationHistory| <= HistoryLimit then 0 else |conversationHistory| - HistoryLimit..];
    }
  }

  /** `VoiceSessionStore`. Every session's workspace is the folder
      `questionsRoot / question_name` on disk; `folders` holds one
      `QuestionWorkspace` per folder a session has opened, so all voice
      sessions of one question read and patch the same files. */
  class VoiceSessionStore {
    const questionsRoot: Segments
    var sessions: map<string, VoiceSession>
    var folders: map<string, QuestionWorkspace>

    constructor (questionsRoot: Segments)
      ensures this.questionsRoot == questionsRoot
      ensures sessions == map[] && folders == map[]
    {
      this.questionsRoot := questionsRoot;
      sessions := map[];
      folders := map[];
    }

    /** `create`: a new bot over the question's folder (whose files are
        `questionFiles` when no session has opened it yet), driven by the
        bot, with level 1 started at `now`; stored under `sessionId`,
        replacing any session there. `digest` stands for MD5. */
    method Create(sessionId: string, questionName: string, questionFiles: map<string, string>,
                  digest: string -> string, now: real)
      returns (session: VoiceSession)
      modifies this
      ensures fresh(session) && fresh(session.bot)
      ensures fresh(session.bot.modeState) && fresh(session.bot.detector) && fresh(session.bot.journal)
      ensures questionName in old(folders) ==> session.bot.workspace == old(folders)[questionName]
      ensures questionName !in old(folders) ==>
        fresh(session.bot.workspace) && session.bot.workspace.root == questionsRoot + [questionName]
        && session.bot.workspace.files == questionFiles
      ensures folders == old(folders)[questionName := session.bot.workspace]
      ensures sessions == old(sessions)[sessionId := session]
      ensures session.sessionId == sessionId && session.questionName == questionName
      ensures session.conversationHistory == []
      ensures session.bot.questionName == questionName && session.bot.backend.None?
      ensures session.bot.detector.config == DefaultConfig(digest)
      ensures session.bot.State()
              == BotState(BotDrives, LevelStartStep(FreshState, 1, now),
                          JournalDict(questionName, [], [], [], [], None), [])
    {
      var workspace: QuestionWorkspace;
      if questionName in folders {
        workspace := folders[questionName];
      } else {
        workspace := new QuestionWorkspace(questionsRoot + [questionName], questionFiles);
      }
      var bot := new PairProgrammingBot(workspace, questionName, None, None, None, digest);
      bot.detector.OnLevelStart(1, now);
      session := new VoiceSession(sessionId, questionName, bot);
      sessions := sessions[sessionId := session];
      folders := folders[questionName := workspace];
    }

    /** `get`. */
    function Get(sessionId: string): (r: Option<VoiceSession>)
      reads this
      ensures r.None? <==> sessionId !in sessions
      ensures r.Some? ==> r.value == sessions[sessionId]
    {
      if sessionId in sessions then Some(sessions[sessionId]) else None
    }

    /** `set_mode`: nothing for an unknown session; otherwise the session's
        bot switches (journalled when the mode changes) and the new mode,
        which is always the one asked for, is returned. */
    method SetMode(sessionId: string, mode: Mode, now: real, trigger: string := "api") returns (r: Option<Mode>)
      modifies if sessionId in sessions then {sessions[sessionId].bot.modeState, sessions[sessionId].bot.journal} else {}
      ensures sessionId !in sessions ==> r.None?
      ensures sessionId in sessions ==> r == Some(mode)
      ensures sessionId in sessions ==>
        sessions[sessionId].bot.State() == SetModeStep(old(sessions[sessionId].bot.State()), mode, trigger, now)
    {
      var session := Get(sessionId);
      if session.None? {
        return None;
      }
      var bot := session.value.bot;
      bot.SetMode(mode, now, trigger);
      r := Some(bot.Mode());
    }
  }

  /** After an exchange the history holds at most 20 messages, ends with
      the prompt and the reply, and what it keeps of the earlier history is
      that history's newest messages in order. */
  lemma {:induction false} ExchangeKeepsNewest(history: seq<Message>, prompt: Message, reply: Message)
    ensures var h := KeepLast(history + [prompt, reply], HistoryLimit);
      |h| <= HistoryLimit && |h| >= 2
      && h[|h| - 2] == prompt && h[|h| - 1] == reply
      && h[..|h| - 2] == history[|history| - (|h| - 2)..]
  {
    var all := history + [prompt, reply];
    var h := KeepLast(all, HistoryLimit);
    assert h == all[|all| - |h|..];
    assert h[..|h| - 2] == all[|all| - |h|..|all| - 2];
    assert all[..|all| - 2] == history;
  }

  /** A new session's bot starts with the bot driving, an empty journal,
      and its level-1 clock started at creation. */
  lemma NewSessionState(questionName: string, digest: string -> string, now: real)
    ensures var st := BotState(BotDrives, LevelStartStep(FreshState, 1, now),
                               JournalDict(questionName, [], [], [], [], None), []);
      st.mode == BotDrives && st.detector.levelStartTime == map[1 := now]
      && st.detector.runResults == [] && st.detector.lastSignalTime.None?
      && ModeLogFaithful(BotDrives, st)
  {
  }

  /** Two voice sessions of one question share its folder: whatever patch
      the first session's bot applies is in the files the second session's
      bot reads. */
  method PatchSeenAcrossSessions(questionsRoot: Segments, question: string, files: map<string, string>,
                                 digest: string -> string, path: string, oldText: string, newText: string,
                                 readPath: string, now: real)
    returns (first: VoiceSession, second: VoiceSession, patched: Result<string, ToolError>,
             seen: Result<string, ToolError>)
    ensures second.bot.workspace == first.bot.workspace
    ensures var p := Patch(questionsRoot + [question], files, path, oldText, newText);
      patched == Lift(p.message) && second.bot.workspace.files == p.files
    ensures seen == Lift(second.bot.workspace.ReadFile(readPath))
  {
    var store := new VoiceSessionStore(questionsRoot);
    first := store.Create("first", question, files, digest, now);
    assert first.bot.State().mode == BotDrives;
    second := store.Create("second", question, files, digest, now);
    assert second.bot.State().mode == BotDrives;
    patched := first.bot.ApplyPatch(path, oldText, newText);
    assert Policy.ReadFile in Policy.AllowedActions(BotDrives);
    seen := second.bot.ReadFile(readPath);
  }
}
