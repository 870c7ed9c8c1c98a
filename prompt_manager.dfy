/** The prompt manager: a stage's system prompt comes from the project's
    `prompts/` directory, else from the global prompts directory, else from
    the built-in defaults; every answer is cached per stage until a save, a
    reset or a change of project drops it. */
module Prompts {
  import opened Wrappers
  import opened Py
  import opened Storage

  // ---------------------------------------------------------------------
  // Built-in prompts

  /** `DEFAULT_PROMPTS`, in its key order. Each body is abbreviated to its
      first line. */
  const DefaultPrompts: seq<(string, string)> := [
    ("02_format", "# Системный промпт: Форматирование транскрипции"),
    ("03_compare", "# Системный промпт: Сравнение и коррекция"),
    ("04_plan", "# Системный промпт: Создание плана статьи"),
    ("05_write_section", "# Системный промпт: Написание секции статьи"),
    ("07_literary_edit", "# Системный промпт: Литературная редактура"),
    ("08_marketing_analysis", "# Системный промпт: Маркетинговый анализ"),
    ("materials/tg_vk_post", "# Пост для Telegram/VK"),
    ("materials/email_announce", "# Анонс для email-рассылки"),
    ("materials/press_release", "# Пресс-релиз"),
    ("materials/cards", "# Карточки для соцсетей"),
    ("materials/business_media", "# Статья для делового СМИ")
  ]

  /** `DEFAULT_PROMPTS.keys()`. */
  function KeysOf(table: seq<(string, string)>): (ks: seq<string>)
    ensures |ks| == |table| && forall i :: 0 <= i < |table| ==> ks[i] == table[i].0
  {
    if |table| == 0 then [] else [table[0].0] + KeysOf(table[1..])
  }

  /** `DEFAULT_PROMPTS.get(stage)`: the first entry for the key. */
  function LookupTable(table: seq<(string, string)>, stage: string): (r: Option<string>)
    ensures r.Some? <==> stage in KeysOf(table)
    ensures r.Some? ==> exists i :: 0 <= i < |table| && table[i] == (stage, r.value)
  {
    if |table| == 0 then None
    else if table[0].0 == stage then Some(table[0].1)
    else
      var r := LookupTable(table[1..], stage);
      assert KeysOf(table) == [table[0].0] + KeysOf(table[1..]);
      if r.Some? then
        var i :| 0 <= i < |table[1..]| && table[1..][i] == (stage, r.value);
        assert table[i + 1] == (stage, r.value);
        r
      else r
  }

  /** `get_default_prompt(stage)`: the built-in text whatever override
      files exist, or "" for a stage without one. */
  function DefaultPrompt(defaults: seq<(string, string)>, stage: string): (r: string)
    ensures stage in KeysOf(defaults) ==> exists i :: 0 <= i < |defaults| && defaults[i] == (stage, r)
    ensures stage !in KeysOf(defaults) ==> r == ""
  {
    LookupTable(defaults, stage).GetOr("")
  }

  // ---------------------------------------------------------------------
  // Resolution

  datatype Source = Project | Custom | Default {
    /** The tag the program reports: "project", "custom" or "default". */
    function Name(): string {
      match this
      case Project => "project"
      case Custom => "custom"
      case Default => "default"
    }
  }

  /** `PromptInfo`: the text, where it came from and, for a file, its path. */
  datatype PromptInfo = PromptInfo(content: string, source: Source, filePath: Option<string>)

  /** `project_dir / "prompts"`. */
  function ProjectPromptsDir(project: string): string {
    PathJoin(project, "prompts")
  }

  /** `dir / f"{stage}.md"`. */
  function PromptPath(dir: string, stage: string): string {
    PathJoin(dir, stage + ".md")
  }

  predicate ExistsIn(files: map<string, string>, dirs: set<string>, p: string) {
    p in files || p in dirs
  }

  /** Where a manager looks: the open project (if any), the global prompts
      directory and the built-in table. */
  datatype Tiers = Tiers(project: Option<string>, promptsDir: string, defaults: seq<(string, string)>) {
    function ProjectPath(stage: string): string
      requires project.Some?
    {
      PromptPath(ProjectPromptsDir(project.value), stage)
    }

    function CustomPath(stage: string): string {
      PromptPath(promptsDir, stage)
    }

    /** Whether the project tier has an entry (a file or a directory) for
        the stage; with no project it has none. */
    predicate ProjectHit(files: map<string, string>, dirs: set<string>, stage: string) {
      project.Some? && ExistsIn(files, dirs, ProjectPath(stage))
    }
  }

  function NotFound(stage: string): Error {
    Error(ValueError, "Prompt for stage '" + stage + "' not found!")
  }

  /** The three-tier lookup of `get_prompt_info` after a cache miss: the
      first tier whose path exists supplies the text (reading a directory
      raises), and a stage no tier supplies raises ValueError. */
  function Resolve(t: Tiers, files: map<string, string>, dirs: set<string>, stage: string): (r: Result<PromptInfo>)
    // a file's text is what the file holds, and only the defaults have no path
    ensures r.Ok? && r.value.filePath.Some? ==> r.value.filePath.value in files && r.value.content == files[r.value.filePath.value]
    ensures r.Ok? ==> (r.value.source == Default <==> r.value.filePath.None?)
    // the tiers in order
    ensures r.Ok? && r.value.source == Project <==> t.ProjectHit(files, dirs, stage) && t.ProjectPath(stage) in files
    ensures r.Ok? && r.value.source == Project ==> r.value.filePath == Some(t.ProjectPath(stage))
    ensures r.Ok? && r.value.source == Custom <==> !t.ProjectHit(files, dirs, stage) && t.CustomPath(stage) in files
    ensures r.Ok? && r.value.source == Custom ==> r.value.filePath == Some(t.CustomPath(stage))
    ensures r.Ok? && r.value.source == Default <==>
      !t.ProjectHit(files, dirs, stage) && !ExistsIn(files, dirs, t.CustomPath(stage)) && stage in KeysOf(t.defaults)
    ensures r.Ok? && r.value.source == Default ==> exists i :: 0 <= i < |t.defaults| && t.defaults[i] == (stage, r.value.content)
    // the two ways it fails
    ensures r.Err? ==> r.error == NotFound(stage) || r.error.kind == IsADirectoryError
    ensures r.Err? && r.error == NotFound(stage) <==>
      !t.ProjectHit(files, dirs, stage) && !ExistsIn(files, dirs, t.CustomPath(stage)) && stage !in KeysOf(t.defaults)
  {
    if t.ProjectHit(files, dirs, stage) then
      var path := t.ProjectPath(stage);
      if path in files then Ok(PromptInfo(files[path], Project, Some(path))) else Err(NotAFile(path, dirs))
    else
      var path := t.CustomPath(stage);
      if ExistsIn(files, dirs, path) then
        if path in files then Ok(PromptInfo(files[path], Custom, Some(path))) else Err(NotAFile(path, dirs))
      else
        var builtin := LookupTable(t.defaults, stage);
        if builtin.Some? then Ok(PromptInfo(builtin.value, Default, None)) else Err(NotFound(stage))
  }

  /** What `get_prompt_info` answers: the cached entry when there is one,
      otherwise the resolution. */
  function Consult(cache: map<string, PromptInfo>, t: Tiers, files: map<string, string>, dirs: set<string>, stage: string): Result<PromptInfo> {
    if stage in cache then Ok(cache[stage]) else Resolve(t, files, dirs, stage)
  }

  /** The cache after answering `stage` with `r`: a success is stored. */
  function Remember(cache: map<string, PromptInfo>, stage: string, r: Result<PromptInfo>): map<string, PromptInfo> {
    if r.Ok? then cache[stage := r.value] else cache
  }

  /** Storing an answer changes no later answer, for any stage, as long as
      the files stay as they are. */
  lemma RememberIsTransparent(cache: map<string, PromptInfo>, t: Tiers, files: map<string, string>, dirs: set<string>, stage: string, q: string)
    ensures var r := Consult(cache, t, files, dirs, stage);
      Consult(Remember(cache, stage, r), t, files, dirs, q) == Consult(cache, t, files, dirs, q)
  {}

  /** A cached answer ignores the tiers entirely: it stays what it was
      whatever is written or deleted and whichever project is open, until
      the entry is dropped. */
  lemma CachedAnswerIsFrozen(cache: map<string, PromptInfo>, t: Tiers, files: map<string, string>, dirs: set<string>,
                             t': Tiers, files': map<string, string>, dirs': set<string>, stage: string)
    requires stage in cache
    ensures Consult(cache, t', files', dirs', stage) == Consult(cache, t, files, dirs, stage) == Ok(cache[stage])
  {}

  /** The directory `save_prompt` writes into: the project's `prompts/` when
      asked to and a project is open, the global directory otherwise. */
  function SaveDir(t: Tiers, toProject: bool): (dir: string)
    ensures toProject && t.project.Some? ==> PromptPath(dir, "") == t.ProjectPath("")
  {
    if toProject && t.project.Some? then ProjectPromptsDir(t.project.value) else t.promptsDir
  }

  /** After a save the stage's next answer is the saved text: from the
      project tier when saved there; from the global tier unless a project
      entry for the stage shadows it. */
  lemma SaveThenConsult(cache: map<string, PromptInfo>, t: Tiers, files: map<string, string>, dirs: set<string>,
                        stage: string, content: string, toProject: bool)
    ensures var dir := SaveDir(t, toProject);
      var path := PromptPath(dir, stage);
      var files', dirs' := files[path := content], dirs + {dir};
      var r := Consult(cache - {stage}, t, files', dirs', stage);
      (toProject && t.project.Some? ==> r == Ok(PromptInfo(content, Project, Some(path))))
      && (!(toProject && t.project.Some?) && !t.ProjectHit(files', dirs', stage) ==> r == Ok(PromptInfo(content, Custom, Some(path))))
      && (!(toProject && t.project.Some?) && t.ProjectHit(files', dirs', stage) ==> r.Ok? ==> r.value.source == Project)
  {
    var dir := SaveDir(t, toProject);
    var path := PromptPath(dir, stage);
    assert stage !in cache - {stage};
    if toProject && t.project.Some? {
      assert t.ProjectHit(files[path := content], dirs + {dir}, stage);
    }
  }

  /** A save of a stage named by one component, into a directory that is
      not empty, cannot fail on a missing directory: the file goes right
      into the directory `save_prompt` has just made. */
  lemma SaveIntoDir(dirs: set<string>, dir: string, stage: string)
    requires '/' !in stage && |dir| > 0 && PromptPath(dir, stage) !in dirs
    ensures WriteError(PromptPath(dir, stage), dirs + {dir}).None?
  {
    ParentOfJoin(dir, stage + ".md");
  }

  /** A save of a stage named `sub/leaf` (the material prompts are named so)
      raises FileNotFoundError when the sub-directory does not exist yet,
      for nothing creates it. */
  lemma SaveIntoMissingSubdir(dirs: set<string>, dir: string, sub: string, leaf: string)
    requires '/' !in leaf && |dir| > 0 && PathJoin(dir, sub) !in dirs
    requires PromptPath(dir, sub + "/" + leaf) !in dirs
    ensures var path := PromptPath(dir, sub + "/" + leaf);
      WriteError(path, dirs + {dir}) == Some(Error(FileNotFoundError, "[Errno 2] No such file or directory: '" + path + "'"))
  {
    var path := PromptPath(dir, sub + "/" + leaf);
    var folder := PathJoin(dir, sub);
    assert path == PathJoin(folder, leaf + ".md");
    ParentOfJoin(folder, leaf + ".md");
    assert |folder| > |dir| && |path| > |dir|;
    MissingParent(path, dirs + {dir});
  }

  /** The file step of `reset_to_default`: unlink the project file, then the
      global one, each only if its path exists; the flag says whether one
      was unlinked. Unlinking a directory raises, keeping what was already
      deleted. */
  function ResetFiles(t: Tiers, files: map<string, string>, dirs: set<string>, stage: string): (r: (Result<bool>, map<string, string>))
    ensures r.0.Ok? ==> t.CustomPath(stage) !in r.1 && (t.project.Some? ==> t.ProjectPath(stage) !in r.1)
    ensures r.0.Ok? ==> (r.0.value <==> t.ProjectHit(files, dirs, stage) || t.CustomPath(stage) in files)
    ensures r.0.Ok? ==> r.1 == files - {t.CustomPath(stage)} - (if t.project.Some? then {t.ProjectPath(stage)} else {})
    ensures r.0.Err? ==> r.0.error.kind == IsADirectoryError
    ensures forall p :: p in files && p !in r.1 ==> p == t.CustomPath(stage) || (t.project.Some? && p == t.ProjectPath(stage))
  {
    var (first, files1) :=
      if t.ProjectHit(files, dirs, stage) then
        var path := t.ProjectPath(stage);
        if path in files then (Ok(true), files - {path}) else (Err(NotAFile(path, dirs)), files)
      else (Ok(false), files);
    if first.Err? then (first, files1)
    else
      var path := t.CustomPath(stage);
      if ExistsIn(files1, dirs, path) then
        if path in files1 then (Ok(true), files1 - {path}) else (Err(NotAFile(path, dirs)), files1)
      else (first, files1)
  }

  /** After a reset that did not raise, on a file system where no path is
      both a file and a directory, the stage resolves to its built-in
      prompt, or raises ValueError when it has none. */
  lemma ResetThenResolve(t: Tiers, files: map<string, string>, dirs: set<string>, stage: string)
    requires NoFileIsADir(files, dirs)
    requires ResetFiles(t, files, dirs, stage).0.Ok?
    ensures Resolve(t, ResetFiles(t, files, dirs, stage).1, dirs, stage) ==
      if stage in KeysOf(t.defaults) then Ok(PromptInfo(DefaultPrompt(t.defaults, stage), Default, None)) else Err(NotFound(stage))
  {
    var files' := ResetFiles(t, files, dirs, stage).1;
    assert !t.ProjectHit(files', dirs, stage);
    assert !ExistsIn(files', dirs, t.CustomPath(stage));
  }

  /** One entry of `list_all_stages`. */
  datatype StageEntry = StageEntry(stage: string, source: Source, filePath: Option<string>, hasCustom: bool)

  function EntryOf(stage: string, info: PromptInfo): (e: StageEntry)
    ensures e.stage == stage && e.source == info.source && e.filePath == info.filePath
    ensures e.hasCustom <==> info.source != Default
  {
    StageEntry(stage, info.source, info.filePath, info.source != Default)
  }

  /** The answers for `keys`, in order. */
  function Answers(cache: map<string, PromptInfo>, t: Tiers, files: map<string, string>, dirs: set<string>, keys: seq<string>): (rs: seq<Result<PromptInfo>>)
    ensures |rs| == |keys| && forall i :: 0 <= i < |keys| ==> rs[i] == Consult(cache, t, files, dirs, keys[i])
  {
    seq(|keys|, i requires 0 <= i < |keys| => Consult(cache, t, files, dirs, keys[i]))
  }

  /** `list_all_stages()` given each key's answer: the keys are answered in
      order; every one is listed with its answer, or the first failing
      answer is raised. */
  function Listing(keys: seq<string>, answers: seq<Result<PromptInfo>>): (r: Result<seq<StageEntry>>)
    requires |answers| == |keys|
    ensures r.Ok? ==> |r.value| == |keys|
  {
    if |keys| == 0 then Ok([])
    else
      var entries :- Listing(keys[..|keys| - 1], answers[..|keys| - 1]);
      var info :- answers[|keys| - 1];
      Ok(entries + [EntryOf(keys[|keys| - 1], info)])
  }

  /** The listing succeeds iff every key has an answer, and then holds the
      keys' entries in key order. */
  lemma {:induction false} ListingEntries(keys: seq<string>, answers: seq<Result<PromptInfo>>)
    requires |answers| == |keys|
    ensures var r := Listing(keys, answers);
      (r.Ok? <==> forall i :: 0 <= i < |keys| ==> answers[i].Ok?)
      && (r.Ok? ==> forall i :: 0 <= i < |keys| ==> r.value[i] == EntryOf(keys[i], answers[i].value))
  {
    if |keys| > 0 {
      var n := |keys| - 1;
      ListingEntries(keys[..n], answers[..n]);
      assert forall i :: 0 <= i < n ==> keys[..n][i] == keys[i] && answers[..n][i] == answers[i];
    }
  }

  /** One key more: its entry is added, or its error ends the listing. */
  lemma ListingStep(keys: seq<string>, answers: seq<Result<PromptInfo>>, i: nat)
    requires |answers| == |keys| && i < |keys| && Listing(keys[..i], answers[..i]).Ok?
    ensures answers[i].Ok? ==>
      Listing(keys[..i + 1], answers[..i + 1]) == Ok(Listing(keys[..i], answers[..i]).value + [EntryOf(keys[i], answers[i].value)])
    ensures answers[i].Err? ==> Listing(keys, answers) == Err(answers[i].error)
  {
    assert keys[..i + 1][..i] == keys[..i] && answers[..i + 1][..i] == answers[..i];
    if answers[i].Err? {
      ListingKeepsFailure(keys, answers, i + 1);
    }
  }

  /** Once a prefix of the keys fails, the whole listing fails the same way. */
  lemma {:induction false} ListingKeepsFailure(keys: seq<string>, answers: seq<Result<PromptInfo>>, n: nat)
    requires |answers| == |keys| && n <= |keys| && Listing(keys[..n], answers[..n]).Err?
    ensures Listing(keys, answers) == Listing(keys[..n], answers[..n])
    decreases |keys| - n
  {
    if n < |keys| {
      assert keys[..n + 1][..n] == keys[..n];
      assert answers[..n + 1][..n] == answers[..n];
      ListingKeepsFailure(keys, answers, n + 1);
    } else {
      assert keys[..n] == keys && answers[..n] == answers;
    }
  }

  // ---------------------------------------------------------------------
  // The manager object

  class PromptManager {
    const promptsDir: string
    var projectDir: Option<string>
    var cache: map<string, PromptInfo>
    const fs: FileSystem
    /** The module's `DEFAULT_PROMPTS`, which the manager reads. */
    const defaults: seq<(string, string)>

    constructor(promptsDir: string, projectDir: Option<string>, fs: FileSystem)
      ensures this.promptsDir == promptsDir && this.fs == fs && cache == map[] && defaults == DefaultPrompts
      ensures this.projectDir == if projectDir == Some("") then None else projectDir
    {
      this.promptsDir := promptsDir;
      this.projectDir := if projectDir == Some("") then None else projectDir;
      this.cache := map[];
      this.fs := fs;
      this.defaults := DefaultPrompts;
    }

    function Where(): Tiers
      reads this
    {
      Tiers(projectDir, promptsDir, defaults)
    }

    /** What `get_prompt_info(stage)` answers now. */
    function Current(stage: string): Result<PromptInfo>
      reads this, fs
    {
      Consult(cache, Where(), fs.files, fs.dirs, stage)
    }

    /** `get_prompt_info(stage)`: the cached entry, or the first tier that
        has the stage, which is then cached. */
    method GetPromptInfo(stage: string) returns (r: Result<PromptInfo>)
      modifies this`cache
      ensures r == old(Current(stage))
      ensures cache == Remember(old(cache), stage, r)
      ensures forall q :: Current(q) == old(Current(q))
    {
      forall q ensures Consult(Remember(cache, stage, Current(stage)), Where(), fs.files, fs.dirs, q) == Current(q) {
        RememberIsTransparent(cache, Where(), fs.files, fs.dirs, stage, q);
      }
      if stage in cache {
        return Ok(cache[stage]);
      }
      if projectDir.Some? {
        var projectPath := PromptPath(ProjectPromptsDir(projectDir.value), stage);
        if fs.Exists(projectPath) {
          var content :- fs.ReadText(projectPath);
          var info := PromptInfo(content, Project, Some(projectPath));
          cache := cache[stage := info];
          return Ok(info);
        }
      }
      var customPath := PromptPath(promptsDir, stage);
      if fs.Exists(customPath) {
        var content :- fs.ReadText(customPath);
        var info := PromptInfo(content, Custom, Some(customPath));
        cache := cache[stage := info];
        return Ok(info);
      }
      var builtin := LookupTable(defaults, stage);
      if builtin.Some? {
        var info := PromptInfo(builtin.value, Default, None);
        cache := cache[stage := info];
        return Ok(info);
      }
      return Err(NotFound(stage));
    }

    /** `get_prompt(stage)`: the text of the answer. */
    method GetPrompt(stage: string) returns (r: Result<string>)
      modifies this`cache
      ensures old(Current(stage)).Ok? ==> r == Ok(old(Current(stage)).value.content)
      ensures old(Current(stage)).Err? ==> r == Err(old(Current(stage)).error)
      ensures cache == Remember(old(cache), stage, old(Current(stage)))
    {
      var info :- GetPromptInfo(stage);
      return Ok(info.content);
    }

    /** `get_source(stage)`: the tag of the answer. */
    method GetSource(stage: string) returns (r: Result<string>)
      modifies this`cache
      ensures old(Current(stage)).Ok? ==> r == Ok(old(Current(stage)).value.source.Name())
      ensures old(Current(stage)).Err? ==> r == Err(old(Current(stage)).error)
      ensures cache == Remember(old(cache), stage, old(Current(stage)))
    {
      var info :- GetPromptInfo(stage);
      return Ok(info.source.Name());
    }

    /** `save_prompt(stage, content, to_project)`: make the directory
        `SaveDir` picks, write the file and drop only this stage's cache
        entry. A stage name holding '/' puts the file in a sub-directory
        nothing makes; when it is missing the write raises, and the cache
        is left as it was. */
    method SavePrompt(stage: string, content: string, toProject: bool) returns (r: Result<string>)
      modifies this`cache, fs
      ensures var dir := SaveDir(Where(), toProject);
        var path := PromptPath(dir, stage);
        && fs.dirs == old(fs.dirs) + {dir}
        && (r.Ok? <==> WriteError(path, fs.dirs).None?)
        && (r.Ok? ==> r.value == path && fs.files == old(fs.files)[path := content] && cache == old(cache) - {stage})
        && (r.Err? ==> r.error == NotAFile(path, fs.dirs) && fs.files == old(fs.files) && cache == old(cache))
    {
      var targetDir := if toProject && projectDir.Some? then ProjectPromptsDir(projectDir.value) else promptsDir;
      fs.Mkdir(targetDir);
      var path := PromptPath(targetDir, stage);
      var _ :- fs.TryWriteText(path, content);
      cache := cache - {stage};
      return Ok(path);
    }

    /** `reset_to_default(stage)`: delete the override files that exist,
        then drop the stage's cache entry; true iff one was deleted. */
    method ResetToDefault(stage: string) returns (r: Result<bool>)
      modifies this`cache, fs`files
      ensures (r, fs.files) == ResetFiles(Where(), old(fs.files), fs.dirs, stage)
      ensures cache == if r.Ok? then old(cache) - {stage} else old(cache)
    {
      var deleted := false;
      if projectDir.Some? {
        var projectPath := PromptPath(ProjectPromptsDir(projectDir.value), stage);
        if fs.Exists(projectPath) {
          var _ :- fs.Unlink(projectPath);
          deleted := true;
        }
      }
      var customPath := PromptPath(promptsDir, stage);
      if fs.Exists(customPath) {
        var _ :- fs.Unlink(customPath);
        deleted := true;
      }
      cache := cache - {stage};
      return Ok(deleted);
    }

    /** `list_all_stages()`: one entry per built-in stage, in order. Filling
        the cache along the way changes no answer. */
    method ListAllStages() returns (r: Result<seq<StageEntry>>)
      modifies this`cache
      ensures r == Listing(KeysOf(defaults), Answers(old(cache), Where(), fs.files, fs.dirs, KeysOf(defaults)))
      ensures forall q :: Current(q) == old(Current(q))
    {
      var keys := KeysOf(defaults);
      ghost var answers := Answers(cache, Where(), fs.files, fs.dirs, keys);
      var entries: seq<StageEntry> := [];
      var i := 0;
      while i < |keys|
        invariant 0 <= i <= |keys|
        invariant forall q :: Current(q) == old(Current(q))
        invariant Listing(keys[..i], answers[..i]) == Ok(entries)
      {
        var info := GetPromptInfo(keys[i]);
        ListingStep(keys, answers, i);
        if info.Err? {
          return Err(info.error);
        }
        entries := entries + [EntryOf(keys[i], info.value)];
        i := i + 1;
      }
      assert keys[..i] == keys && answers[..i] == answers;
      return Ok(entries);
    }

    /** `set_project_dir(project_dir)`: the whole cache is dropped. */
    method SetProjectDir(project: Option<string>)
      modifies this`projectDir, this`cache
      ensures projectDir == if project == Some("") then None else project
      ensures cache == map[]
      ensures forall q :: Current(q) == Resolve(Where(), fs.files, fs.dirs, q)
    {
      projectDir := if project == Some("") then None else project;
      cache := map[];
    }

    /** `clear_cache()`. */
    method ClearCache()
      modifies this`cache
      ensures cache == map[]
      ensures forall q :: Current(q) == Resolve(Where(), fs.files, fs.dirs, q)
    {
      cache := map[];
    }
  }
}
