/** Question configuration and the sandbox a submission runs in
    (backend/questions.py). A question folder is a map from relative
    path to content; `question.json` is one of its files, and the folder
    also carries that file's decoded JSON object. */
module Questions {
  import opened Wrappers

  type Files = map<string, string>

  /** A decoded stage object of `question.json`; a key that is absent is None. */
  datatype RawStage = RawStage(
    name: Option<string>,
    visibleTests: Option<seq<string>>,
    hiddenTests: Option<seq<string>>,
    revealFiles: Option<seq<string>>)

  /** The decoded top-level object of `question.json`. */
  datatype RawQuestion = RawQuestion(
    name: Option<string>,
    visibleFiles: Option<seq<string>>,
    entrypoint: Option<string>,
    environment: Option<map<string, string>>,
    defaultDurationMinutes: Option<int>,
    stages: Option<seq<RawStage>>,
    tags: Option<seq<string>>,
    estimatedDifficulty: Option<string>)

  /** A stage: the test targets run for it and the files revealed when it
      unlocks (None on the synthesised stage, which never sets them). */
  datatype Stage = Stage(
    name: string,
    visibleTests: seq<string>,
    hiddenTests: seq<string>,
    revealFiles: Option<seq<string>>)

  datatype QuestionConfig = QuestionConfig(
    name: string,
    visibleFiles: seq<string>,
    entrypoint: string,
    environment: map<string, string>,
    defaultDurationMinutes: int,
    stages: seq<Stage>,
    tags: Option<seq<string>>,
    estimatedDifficulty: Option<string>)

  /** A question on disk: its files, and the JSON object `question.json` decodes to. */
  datatype QuestionFolder = QuestionFolder(files: Files, descriptor: RawQuestion)

  /** The questions root: question name to folder. */
  type Repository = map<string, QuestionFolder>

  /** `KeyError` for a required key, `FileNotFoundError` for a missing question. */
  datatype QuestionError = KeyError(key: string) | QuestionNotFound(question: string)

  const ConfigFile := "question.json"
  const DescriptionFile := "desc.md"
  const DefaultDurationMinutes := 60

  /** The fixed hidden test names, in the order they are looked up. */
  const HiddenNames: seq<string> := ["hiddenTests.py", "hidden_level2.py", "hidden_level3.py", "hidden_level4.py"]

  /** `Stage.from_json`. */
  function StageFromJson(raw: RawStage): Stage {
    Stage(
      raw.name.GetOr("Stage"),
      raw.visibleTests.GetOr([]),
      raw.hiddenTests.GetOr([]),
      Some(raw.revealFiles.GetOr([])))
  }

  /** `QuestionConfig.from_json`: the first of `name`, `visible_files`,
      `entrypoint` that is missing raises; the rest have defaults. */
  function ConfigFromJson(raw: RawQuestion): (r: Result<QuestionConfig, QuestionError>)
    ensures r.Ok? <==> raw.name.Some? && raw.visibleFiles.Some? && raw.entrypoint.Some?
    ensures r.Err? ==> r.error == KeyError(
      if raw.name.None? then "name"
      else if raw.visibleFiles.None? then "visible_files"
      else "entrypoint")
    ensures r.Ok? ==> (r.value.name == raw.name.value && r.value.entrypoint == raw.entrypoint.value
                       && r.value.visibleFiles == raw.visibleFiles.value)
    ensures r.Ok? ==> |r.value.stages| == if raw.stages.Some? then |raw.stages.value| else 0
  {
    var stages :=
      if raw.stages.Some? && raw.stages.value != [] then
        seq(|raw.stages.value|, i requires 0 <= i < |raw.stages.value| => StageFromJson(raw.stages.value[i]))
      else [];
    if raw.name.None? then Err(KeyError("name"))
    else if raw.visibleFiles.None? then Err(KeyError("visible_files"))
    else if raw.entrypoint.None? then Err(KeyError("entrypoint"))
    else Ok(QuestionConfig(
      raw.name.value,
      raw.visibleFiles.value,
      raw.entrypoint.value,
      raw.environment.GetOr(map[]),
      raw.defaultDurationMinutes.GetOr(DefaultDurationMinutes),
      stages,
      raw.tags,
      raw.estimatedDifficulty))
  }

  /** The members of `names` that exist in `files`, in the order of `names`. */
  function Existing(names: seq<string>, files: Files): (r: seq<string>)
    ensures |r| <= |names|
  {
    if names == [] then []
    else (if names[0] in files then [names[0]] else []) + Existing(names[1..], files)
  }

  /** `Existing` keeps exactly the names that exist. */
  lemma {:induction false} ExistingMembers(names: seq<string>, files: Files)
    ensures forall n :: n in Existing(names, files) <==> n in names && n in files
    decreases |names|
  {
    if names != [] {
      ExistingMembers(names[1..], files);
      assert forall n :: n in names <==> n == names[0] || n in names[1..];
    }
  }

  /** `Existing` unrolled once at position `i`. */
  lemma ExistingAt(names: seq<string>, i: nat, files: Files)
    requires i < |names|
    ensures Existing(names[i..], files) == (if names[i] in files then [names[i]] else []) + Existing(names[i + 1..], files)
  {
    assert names[i..][1..] == names[i + 1..];
  }

  /** What `get_hidden_files` finds in a question folder. */
  function HiddenFiles(files: Files): seq<string> {
    Existing(HiddenNames, files)
  }

  /** The single stage `load_question_config` adds to a question that declares none. */
  function SynthesisedStage(entrypoint: string, files: Files): Stage {
    Stage("Stage 1", [entrypoint], HiddenFiles(files), None)
  }

  /** `load_question_config`. */
  function LoadQuestionConfig(repo: Repository, question: string): (r: Result<QuestionConfig, QuestionError>)
    ensures (question !in repo || ConfigFile !in repo[question].files) ==> r == Err(QuestionNotFound(question))
    ensures r.Ok? ==> |r.value.stages| >= 1
  {
    if question !in repo || ConfigFile !in repo[question].files then Err(QuestionNotFound(question))
    else
      var folder := repo[question];
      match ConfigFromJson(folder.descriptor)
      case Err(e) => Err(e)
      case Ok(cfg) =>
        if cfg.stages == [] then Ok(cfg.(stages := [SynthesisedStage(cfg.entrypoint, folder.files)]))
        else Ok(cfg)
  }

  /** The lookup loop of `get_hidden_files`: each name in turn, kept when it exists. */
  method ExistingIn(names: seq<string>, files: Files) returns (found: seq<string>)
    ensures found == Existing(names, files)
  {
    found := [];
    var i := 0;
    while i < |names|
      invariant 0 <= i <= |names|
      invariant found + Existing(names[i..], files) == Existing(names, files)
    {
      ExistingAt(names, i, files);
      if names[i] in files {
        found := found + [names[i]];
      }
      i := i + 1;
    }
    assert names[i..] == [];
  }

  /** `get_hidden_files`: the hidden test names that exist, looked up in fixed order. */
  method GetHiddenFiles(repo: Repository, question: string) returns (found: seq<string>)
    ensures found == HiddenFiles(if question in repo then repo[question].files else map[])
  {
    var files: Files := if question in repo then repo[question].files else map[];
    found := ExistingIn(HiddenNames, files);
  }

  /** What `load_visible_files` returns: `desc.md` and the listed visible
      files, those that exist. */
  function VisibleFiles(files: Files, visible: seq<string>): Files {
    map k | k in files && (k == DescriptionFile || k in visible) :: files[k]
  }

  /** `load_visible_files`. */
  method LoadVisibleFiles(repo: Repository, question: string, cfg: QuestionConfig) returns (out: Files)
    ensures out == VisibleFiles(if question in repo then repo[question].files else map[], cfg.visibleFiles)
  {
    var files: Files := if question in repo then repo[question].files else map[];
    out := map[];
    if DescriptionFile in files {
      out := out[DescriptionFile := files[DescriptionFile]];
    }
    var i := 0;
    while i < |cfg.visibleFiles|
      invariant 0 <= i <= |cfg.visibleFiles|
      invariant out == VisibleFiles(files, cfg.visibleFiles[..i])
    {
      var rel := cfg.visibleFiles[i];
      assert cfg.visibleFiles[..i + 1] == cfg.visibleFiles[..i] + [rel];
      if rel in files {
        out := out[rel := files[rel]];
      }
      i := i + 1;
    }
    assert cfg.visibleFiles[..i] == cfg.visibleFiles;
  }

  /** A name directly in the question folder, not inside a sub-folder. */
  predicate TopLevel(path: string) {
    '/' !in path
  }

  /** The visible files of a sandbox: the candidate's content where given,
      else the stock copy, else nothing. */
  function SandboxVisible(stock: Files, visible: seq<string>, overrides: Files): Files {
    map k | k in visible && (k in overrides || k in stock) :: if k in overrides then overrides[k] else stock[k]
  }

  /** The supporting files of a sandbox: every other top-level file of the
      question folder except `question.json`, copied as it is. */
  function SandboxSupport(stock: Files, visible: seq<string>): Files {
    map k | k in stock && TopLevel(k) && k != ConfigFile && k !in visible :: stock[k]
  }

  /** The sandbox `materialize_question` writes. */
  function Sandbox(stock: Files, visible: seq<string>, overrides: Files): Files {
    SandboxVisible(stock, visible, overrides) + SandboxSupport(stock, visible)
  }

  /** Adding one more visible name to `SandboxVisible`. */
  lemma SandboxVisibleStep(stock: Files, visible: seq<string>, rel: string, overrides: Files)
    ensures SandboxVisible(stock, visible + [rel], overrides) ==
      if rel in overrides then SandboxVisible(stock, visible, overrides)[rel := overrides[rel]]
      else if rel in stock then SandboxVisible(stock, visible, overrides)[rel := stock[rel]]
      else SandboxVisible(stock, visible, overrides)
  {
    var before := SandboxVisible(stock, visible, overrides);
    var after := SandboxVisible(stock, visible + [rel], overrides);
    var expected := if rel in overrides then before[rel := overrides[rel]]
                    else if rel in stock then before[rel := stock[rel]]
                    else before;
    assert forall k :: k in visible + [rel] <==> k in visible || k == rel;
    assert forall k :: k in after <==> k in expected;
    assert forall k :: k in after ==> after[k] == expected[k];
  }

  /** The first loop of `materialize_question`: each visible file gets the
      candidate's content, else the stock copy, else is skipped. */
  method WriteVisible(stock: Files, visible: seq<string>, overrides: Files) returns (dest: Files)
    ensures dest == SandboxVisible(stock, visible, overrides)
  {
    dest := map[];
    var i := 0;
    while i < |visible|
      invariant 0 <= i <= |visible|
      invariant dest == SandboxVisible(stock, visible[..i], overrides)
    {
      var rel := visible[i];
      assert visible[..i + 1] == visible[..i] + [rel];
      SandboxVisibleStep(stock, visible[..i], rel, overrides);
      var content: Option<string> := if rel in overrides then Some(overrides[rel]) else None;
      if content.None? && rel in stock {
        content := Some(stock[rel]);
      }
      if content.Some? {
        dest := dest[rel := content.value];
      }
      i := i + 1;
    }
    assert visible[..i] == visible;
  }

  /** The supporting files among the names in `done`. */
  function SupportAmong(stock: Files, visible: seq<string>, done: set<string>): Files {
    map k | k in done && k in stock && TopLevel(k) && k != ConfigFile && k !in visible :: stock[k]
  }

  /** Looking at one more name of the question folder. */
  lemma SupportAmongStep(stock: Files, visible: seq<string>, done: set<string>, name: string)
    requires name in stock
    ensures SupportAmong(stock, visible, done + {name}) ==
      if name !in visible && name != ConfigFile && TopLevel(name)
      then SupportAmong(stock, visible, done)[name := stock[name]]
      else SupportAmong(stock, visible, done)
  {
    var before := SupportAmong(stock, visible, done);
    var after := SupportAmong(stock, visible, done + {name});
    if name !in visible && name != ConfigFile && TopLevel(name) {
      assert after.Keys == before.Keys + {name};
    } else {
      assert after.Keys == before.Keys;
    }
  }

  /** The second loop of `materialize_question`: every other top-level file
      of the question folder but `question.json` is copied over `dest`. */
  method CopySupport(stock: Files, visible: seq<string>, dest0: Files) returns (dest: Files)
    ensures dest == dest0 + SandboxSupport(stock, visible)
  {
    dest := dest0;
    var todo := stock.Keys;
    while todo != {}
      invariant todo <= stock.Keys
      invariant dest == dest0 + SupportAmong(stock, visible, stock.Keys - todo)
      decreases todo
    {
      var name :| name in todo;
      ghost var done := stock.Keys - todo;
      SupportAmongStep(stock, visible, done, name);
      assert stock.Keys - (todo - {name}) == done + {name};
      if name !in visible && name != ConfigFile && TopLevel(name) {
        dest := dest[name := stock[name]];
      }
      todo := todo - {name};
    }
    assert SupportAmong(stock, visible, stock.Keys) == SandboxSupport(stock, visible);
  }

  /** `materialize_question`: the loaded configuration and the sandbox
      written into an empty destination. */
  method MaterializeQuestion(repo: Repository, question: string, overrides: Files)
    returns (r: Result<(QuestionConfig, Files), QuestionError>)
    ensures LoadQuestionConfig(repo, question).Err? ==> r == Err(LoadQuestionConfig(repo, question).error)
    ensures LoadQuestionConfig(repo, question).Ok? ==>
      r == Ok((LoadQuestionConfig(repo, question).value,
               Sandbox(repo[question].files, LoadQuestionConfig(repo, question).value.visibleFiles, overrides)))
  {
    var loaded := LoadQuestionConfig(repo, question);
    if loaded.Err? {
      return Err(loaded.error);
    }
    var cfg := loaded.value;
    var stock := repo[question].files;
    var dest := WriteVisible(stock, cfg.visibleFiles, overrides);
    dest := CopySupport(stock, cfg.visibleFiles, dest);
    r := Ok((cfg, dest));
  }

  // ---------------------------------------------------------------- lemmas

  /** A stage object with no keys gets the documented defaults. */
  lemma StageDefaults()
    ensures StageFromJson(RawStage(None, None, None, None)) == Stage("Stage", [], [], Some([]))
  {
  }

  /** With the three required keys present, the optional ones default to
      an empty environment, 60 minutes, no stages, no tags and no difficulty. */
  lemma ConfigDefaults(name: string, visible: seq<string>, entry: string)
    ensures ConfigFromJson(RawQuestion(Some(name), Some(visible), Some(entry), None, None, None, None, None))
      == Ok(QuestionConfig(name, visible, entry, map[], 60, [], None, None))
  {
  }

  /** A question that declares no stages, or an empty list of them, is
      loaded with exactly one stage named "Stage 1" that runs the
      entrypoint visibly and the existing hidden files hidden. */
  lemma NoStagesSynthesisesOne(repo: Repository, question: string)
    requires question in repo && ConfigFile in repo[question].files
    requires ConfigFromJson(repo[question].descriptor).Ok?
    requires repo[question].descriptor.stages.None? || repo[question].descriptor.stages == Some([])
    ensures LoadQuestionConfig(repo, question).Ok?
    ensures LoadQuestionConfig(repo, question).value.stages ==
      [Stage("Stage 1", [repo[question].descriptor.entrypoint.value], HiddenFiles(repo[question].files), None)]
  {
  }

  /** A question that declares stages keeps them, decoded one by one. */
  lemma DeclaredStagesKept(repo: Repository, question: string, i: nat)
    requires question in repo && ConfigFile in repo[question].files
    requires ConfigFromJson(repo[question].descriptor).Ok?
    requires repo[question].descriptor.stages.Some? && i < |repo[question].descriptor.stages.value|
    ensures LoadQuestionConfig(repo, question).Ok?
    ensures LoadQuestionConfig(repo, question).value.stages[i] == StageFromJson(repo[question].descriptor.stages.value[i])
  {
  }

  /** `Existing` keeps the order of `names` and, when `names` has no
      repeats, so does its result. */
  lemma {:induction false} ExistingNoDuplicates(names: seq<string>, files: Files)
    requires forall i, j :: 0 <= i < j < |names| ==> names[i] != names[j]
    ensures forall i, j :: 0 <= i < j < |Existing(names, files)| ==> Existing(names, files)[i] != Existing(names, files)[j]
  {
    if names != [] {
      ExistingNoDuplicates(names[1..], files);
      ExistingMembers(names[1..], files);
      assert names[0] !in names[1..];
    }
  }

  /** The hidden files are the existing ones among the four fixed names,
      with no name twice; the first present name comes first. */
  lemma HiddenFilesShape(files: Files)
    ensures forall n :: n in HiddenFiles(files) <==> n in HiddenNames && n in files
    ensures forall i, j :: 0 <= i < j < |HiddenFiles(files)| ==> HiddenFiles(files)[i] != HiddenFiles(files)[j]
    ensures "hiddenTests.py" in files ==> HiddenFiles(files)[0] == "hiddenTests.py"
  {
    ExistingMembers(HiddenNames, files);
    ExistingNoDuplicates(HiddenNames, files);
  }

  /** The trust boundary: the candidate's content appears in the sandbox
      only under the visible names; every other entry is the stock file,
      and `question.json` is never copied unless it is itself listed as
      visible. */
  lemma SandboxTrustBoundary(stock: Files, visible: seq<string>, overrides: Files, k: string)
    requires k in Sandbox(stock, visible, overrides)
    ensures k in visible ==>
              Sandbox(stock, visible, overrides)[k] == (if k in overrides then overrides[k] else stock[k])
    ensures k !in visible ==>
              (k in stock && TopLevel(k) && k != ConfigFile && Sandbox(stock, visible, overrides)[k] == stock[k])
  {
  }

  /** Every visible file with content somewhere, and every supporting
      top-level file, is written. */
  lemma SandboxComplete(stock: Files, visible: seq<string>, overrides: Files, k: string)
    ensures k in Sandbox(stock, visible, overrides) <==>
      (k in visible && (k in overrides || k in stock))
      || (k !in visible && k in stock && TopLevel(k) && k != ConfigFile)
  {
  }

  /** `load_visible_files` returns `desc.md` and the visible files that
      exist, with their stock content, and nothing else. */
  lemma VisibleFilesExact(files: Files, visible: seq<string>, k: string)
    ensures k in VisibleFiles(files, visible) <==> k in files && (k == DescriptionFile || k in visible)
    ensures k in VisibleFiles(files, visible) ==> VisibleFiles(files, visible)[k] == files[k]
  {
  }
}
