/** `Pipeline`: the orchestrator that creates and loads a project and
    runs its stages in order. */
module Orchestration {
  import opened Wrappers
  import opened Json
  import opened Py
  import opened Storage
  import Text
  import StateStore
  import Prompts
  import Llm
  import Base
  import Stages

  /** A loaded project: its directory, its state store and the LLM
      processor built for it. */
  datatype Project = Project(dir: string, store: StateStore.StateManager, llm: Llm.LlmProcessor)

  /** The failure of any operation that needs a project when none is
      loaded. */
  const NoProject := Error(ValueError, "No project loaded")

  /** The failure of `run_stage` when the order forbids stage n; `last` is
      the number `get_last_completed_stage` returned. */
  function CannotRun(codec: Codec, n: int, last: Json): Error
    requires IsNumber(last)
  {
    Error(ValueError, "Cannot run stage " + Text.IntToString(n) + ". Complete stage "
                      + Str(codec, AddNumber(last, JInt(1)).value) + " first.")
  }

  /** The key `run_all` looks a stage's status up under before running it:
      the number and a literal '*'. */
  function WildcardKey(n: int): string {
    Text.IntToString(n) + "_*"
  }

  /** No stage of a new project has a record under the wildcard key, so
      the lookup finds no status; its result decides nothing anyway. */
  lemma WildcardMatchesNoRecord(name: string, config: Fields, now: string, n: nat)
    ensures StateStore.StageStatus(StateStore.InitialState(name, config, now), WildcardKey(n)) == Ok(JNull)
  {
    var st := StateStore.InitialState(name, config, now);
    assert "current_stage" != "stages" by { assert "current_stage"[0] != "stages"[0]; }
    assert StateStore.StagesOf(st) == Some(StateStore.SeededFrom(0));
    assert 1 <= n <= |StateStore.StageNames| ==> StateStore.StageNames[n - 1] != "*" by {
      if 1 <= n <= |StateStore.StageNames| {
        assert StateStore.StageNames[n - 1][0] != '*';
      }
    }
    Base.NotSeeded(n, "*");
    assert WildcardKey(n) == Text.NatToString(n) + "_" + "*";
  }

  /** The project configuration `create_project` stores: the model asked
      for, or the default when none (or an empty name) is given, and the
      configured temperature. */
  function ProjectConfig(model: Option<string>, defaultModel: string, temperature: real): (r: Fields)
    ensures Lookup(r, "model") == Some(JStr(if model.Some? && model.value != "" then model.value else defaultModel))
    ensures Lookup(r, "temperature") == Some(JReal(temperature))
  {
    Field("model", JStr(if model.Some? && model.value != "" then model.value else defaultModel),
          Single("temperature", JReal(temperature)))
  }

  /** `get_project_status()` on a loaded state: the project's name, then
      `current_stage`, the two counters and the stage records, read in
      that order, the first missing one raising `KeyError`. */
  function Status(st: StateStore.ProjectState): (r: Result<Fields>)
    ensures StateStore.WellFormed(st) ==> r.Ok?
    ensures r.Ok? ==>
      && Lookup(r.value, "project_name") == Some(JStr(st.projectName))
      && Lookup(r.value, "current_stage") == Lookup(st.pipeline, "current_stage")
      && Lookup(r.value, "total_tokens") == Lookup(st.statistics, "total_tokens_used")
      && Lookup(r.value, "total_calls") == Lookup(st.statistics, "total_api_calls")
      && Lookup(r.value, "stages") == Lookup(st.pipeline, "stages")
    ensures !HasKey(st.pipeline, "current_stage") ==> r == Err(Error(KeyError, QuoteKey("current_stage")))
  {
    var current :- Subscript(JObj(st.pipeline), "current_stage");
    var tokens :- Subscript(JObj(st.statistics), "total_tokens_used");
    var calls :- Subscript(JObj(st.statistics), "total_api_calls");
    var stages :- Subscript(JObj(st.pipeline), "stages");
    var r := Field("project_name", JStr(st.projectName), Field("current_stage", current,
      Field("total_tokens", tokens, Field("total_calls", calls, Single("stages", stages)))));
    LookupFields();
    assert "stages"[0] != "project_name"[0] && "stages"[0] != "current_stage"[0];
    assert "stages"[0] != "total_tokens"[0] && "stages"[0] != "total_calls"[0];
    assert "total_tokens"[0] != "project_name"[0] && "total_tokens"[0] != "current_stage"[0];
    assert "total_calls"[0] != "project_name"[0] && "total_calls"[0] != "current_stage"[0];
    assert "total_calls"[6] != "total_tokens"[6];
    Ok(r)
  }

  class Pipeline {
    const projectsDir: string
    const promptsDir: string
    const defaultModel: string
    const temperature: real
    /** The projects' files, and the prompt files apart from them. */
    const fs: FileSystem
    const promptFs: FileSystem
    const codec: Codec
    var project: Option<Project>

    constructor(projectsDir: string, promptsDir: string, defaultModel: string, temperature: real,
                fs: FileSystem, promptFs: FileSystem, codec: Codec)
      requires fs != promptFs
      ensures this.projectsDir == projectsDir && this.promptsDir == promptsDir && this.defaultModel == defaultModel
      ensures this.temperature == temperature && this.fs == fs && this.promptFs == promptFs && this.codec == codec
      ensures project == None && Valid()
    {
      this.projectsDir := projectsDir;
      this.promptsDir := promptsDir;
      this.defaultModel := defaultModel;
      this.temperature := temperature;
      this.fs := fs;
      this.promptFs := promptFs;
      this.codec := codec;
      this.project := None;
    }

    /** A loaded project works on the pipeline's files and prompt files. */
    ghost predicate Valid()
      reads this
    {
      && fs != promptFs
      && (project.Some? ==> project.value.store.fs == fs && project.value.llm.prompts.fs == promptFs)
    }

    /** What running a stage of the loaded project can change. */
    function Footprint(): set<object>
      reads this
    {
      if project.None? then {}
      else {project.value.store, project.value.store.fs, project.value.llm.prompts, project.value.llm.client}
    }

    /** `load_project(project_dir)`: a missing directory raises
        `FileNotFoundError`; a state file that does not load raises
        `ValueError`; otherwise the project is loaded with a new store, a
        new prompt manager for the project and a new processor over
        `client`. */
    method LoadProject(dir: string, client: Llm.GeminiClient) returns (r: Result<()>)
      requires Valid()
      modifies this`project
      ensures Valid()
      ensures !fs.Exists(dir) ==> r == Err(Error(FileNotFoundError, "Project not found: " + dir)) && project == old(project)
      ensures fs.Exists(dir) && StateStore.Loaded(fs.files, PathJoin(dir, "state.json"), codec).None? ==>
        r == Err(Error(ValueError, "Invalid project state in " + dir)) && project == old(project)
      ensures r.Ok? <==> fs.Exists(dir) && StateStore.Loaded(fs.files, PathJoin(dir, "state.json"), codec).Some?
      ensures r.Ok? ==>
        && project.Some? && project.value.dir == dir
        && fresh(project.value.store) && project.value.store.state == StateStore.Loaded(fs.files, PathJoin(dir, "state.json"), codec)
        && fresh(project.value.llm) && fresh(project.value.llm.prompts)
        && project.value.llm.client == client && project.value.llm.prompts.cache == map[]
        && project.value.llm.prompts.projectDir == (if dir == "" then None else Some(dir))
    {
      if !fs.Exists(dir) {
        return Err(Error(FileNotFoundError, "Project not found: " + dir));
      }
      var store := new StateStore.StateManager(dir, fs, codec);
      var loaded := store.Load();
      if loaded.None? {
        return Err(Error(ValueError, "Invalid project state in " + dir));
      }
      var prompts := new Prompts.PromptManager(promptsDir, Some(dir), promptFs);
      var llm := new Llm.LlmProcessor(client, prompts, codec);
      project := Some(Project(dir, store, llm));
      return Ok(());
    }

    /** `run_stage(n, **kwargs)`: without a project it raises
        `ValueError`; when the order forbids the stage it raises
        `ValueError` naming the next stage to complete, before any stage
        is built; otherwise the stage is built and its `run` result is
        returned as it is. The ghost results describe that run: what
        `execute` returned, the state it left and the key the record was
        finished under. */
    method RunStage(n: int, args: Stages.Kwargs, now: string, given: Result<Base.StageResult>)
      returns (r: Result<Base.StageResult>, ghost outcome: Result<Base.StageResult>,
               ghost executed: Option<StateStore.ProjectState>, ghost finalKey: string)
      requires Valid()
      modifies Footprint()
      ensures project == old(project)
      ensures old(project).None? ==> r == Err(NoProject)
      ensures old(project).Some? ==>
        var p := project.value;
        var can := old(p.store.CanRunStage(n));
        var same := p.store.state == old(p.store.state) && fs.files == old(fs.files)
                         && p.llm.client.requests == old(p.llm.client.requests);
        && (can.Err? ==> r == Err(can.error) && same)
        && (can == Ok(false) ==>
              IsNumber(old(p.store.GetLastCompletedStage()))
              && r == Err(CannotRun(p.store.codec, n, old(p.store.GetLastCompletedStage()))) && same)
        && (can == Ok(true) && Stages.Construct(n, args).Err? ==> r == Err(Stages.Construct(n, args).error) && same)
        && (can == Ok(true) && Stages.Construct(n, args).Ok? ==>
              var key := Base.StageKey(n, Stages.InfoOf(n).value.name);
              var (begun, u) := Base.Updated(old(p.store.state), key, "in_progress", NoFields, now);
              && (u.Err? ==> (p.store.state, r) == Base.MarkedError(begun, key, u.error, now))
              && (u.Ok? ==> (p.store.state, r) == Base.Finished(executed, finalKey, outcome, now))
              && (u.Ok? && Stages.Unmodelled(n) ==> outcome == given && executed == begun)
              && (n != 10 ==> finalKey == key))
    {
      if project.None? {
        return Err(NoProject), given, None, "";
      }
      var p := project.value;
      var can := p.store.CanRunStage(n);
      if can.Err? {
        return Err(can.error), given, None, "";
      }
      if !can.value {
        var last := p.store.GetLastCompletedStage();
        return Err(CannotRun(p.store.codec, n, last)), given, None, "";
      }
      Stages.ConstructForwards(n, args);
      var stage := Stages.CreateStage(n, p.dir, p.llm, p.store, args);
      if stage.Err? {
        return Err(stage.error), given, None, "";
      }
      r, outcome, executed := Stages.Run(stage.value, now, given);
      finalKey := stage.value.Key();
    }

    /** `run_all(from_stage, to_stage, **kwargs)`: without a project it
        raises `ValueError`; otherwise stages `from_stage..to_stage` run in
        increasing order, each one whatever its recorded status, and the
        results are collected until the first failed one, which ends the
        list. An exception from a status lookup or from `run_stage` leaves
        `run_all` and the results collected so far are lost. `given(n)`
        is the outcome of stage n's `execute` where that is not modelled. */
    method RunAll(fromStage: int, toStage: int, args: Stages.Kwargs, now: string, given: int -> Result<Base.StageResult>)
      returns (r: Result<seq<Base.StageResult>>)
      requires Valid()
      modifies Footprint()
      ensures project == old(project)
      ensures old(project).None? ==> r == Err(NoProject)
      ensures r.Ok? ==>
        && |r.value| <= (if fromStage <= toStage then toStage - fromStage + 1 else 0)
        && (forall k :: 0 <= k < |r.value| - 1 ==> r.value[k].success)
        && (|r.value| < toStage - fromStage + 1 ==> |r.value| > 0 && !r.value[|r.value| - 1].success)
    {
      if project.None? {
        return Err(NoProject);
      }
      var p := project.value;
      var results: seq<Base.StageResult> := [];
      var n := fromStage;
      while n <= toStage
        invariant project == old(project) && Valid() && Footprint() == old(Footprint())
        invariant fromStage <= n && |results| == n - fromStage && (n <= toStage + 1 || results == [])
        invariant (forall k :: 0 <= k < |results| ==> results[k].success)
        decreases toStage + 1 - n
      {
        var status := p.store.GetStageStatus(WildcardKey(n));
        if status.Err? {
          return Err(status.error);
        }
        var result;
        ghost var outcome, executed, finalKey;
        result, outcome, executed, finalKey := RunStage(n, args, now, given(n));
        if result.Err? {
          return Err(result.error);
        }
        results := results + [result.value];
        if !result.value.success {
          return Ok(results);
        }
        n := n + 1;
      }
      return Ok(results);
    }

    /** `create_project(name, input_file, model)`: an existing directory
        raises `ValueError`; otherwise the directory is made, a new state
        is seeded with the model and temperature and saved, the project is
        loaded, and stage 1 runs on the input file. The directory is
        returned whatever stage 1's result, while an exception it raises
        leaves `create_project`. `seeded` is the new state and `first` the
        result of stage 1's run. */
    method CreateProject(name: string, inputFile: string, model: Option<string>, client: Llm.GeminiClient,
                         now: string, given: Result<Base.StageResult>)
      returns (r: Result<string>, ghost seeded: StateStore.ProjectState, ghost first: Result<Base.StageResult>)
      requires Valid() && RoundTrips(codec)
      modifies this`project, fs, client
      ensures Valid()
      ensures var dir := PathJoin(projectsDir, name);
        && (old(fs.Exists(dir)) ==>
              r == Err(Error(ValueError, "Project already exists: " + name))
              && project == old(project) && fs.files == old(fs.files) && fs.dirs == old(fs.dirs))
        && (!old(fs.Exists(dir)) ==>
              && seeded == StateStore.InitialState(name, ProjectConfig(model, defaultModel, temperature), now)
              && project.Some? && project.value.dir == dir && project.value.llm.client == client
              && var key := Base.StageKey(1, Stages.InfoOf(1).value.name);
                 var begun := Base.Updated(Some(seeded), key, "in_progress", NoFields, now).0;
                 && begun.Some? && Base.RecordField(begun.value, key, "status") == Some(JStr("in_progress"))
                 && (project.value.store.state, first) == Base.Finished(begun, key, given, now)
                 && r == (if first.Err? then Err(first.error) else Ok(dir)))
    {
      var dir := PathJoin(projectsDir, name);
      if fs.Exists(dir) {
        return Err(Error(ValueError, "Project already exists: " + name)), StateStore.InitialState(name, NoFields, now), given;
      }
      seeded := Open(dir, name, model, client, now);
      var result := RunFirst(inputFile, now, given);
      ghost var key := Base.StageKey(1, Stages.InfoOf(1).value.name);
      ghost var (begun, u) := Base.Updated(Some(seeded), key, "in_progress", NoFields, now);
      assert u.Ok? && begun.Some? && Base.RecordField(begun.value, key, "status") == Some(JStr("in_progress")) by {
        StateStore.InitialStateFacts(name, ProjectConfig(model, defaultModel, temperature), now);
        Base.BeginMarksInProgress(seeded, 1, Stages.InfoOf(1).value.name, now);
      }
      first := result;
      if result.Err? {
        return Err(result.error), seeded, first;
      }
      return Ok(dir), seeded, first;
    }

    /** The first steps of `create_project`: the directory and its seeded
        state are written and the project is loaded from them. */
    method Open(dir: string, name: string, model: Option<string>, client: Llm.GeminiClient, now: string)
      returns (ghost seeded: StateStore.ProjectState)
      requires Valid() && RoundTrips(codec) && !fs.Exists(dir)
      modifies this`project, fs
      ensures Valid()
      ensures seeded == StateStore.InitialState(name, ProjectConfig(model, defaultModel, temperature), now)
      ensures project.Some? && project.value.dir == dir && project.value.llm.client == client
      ensures project.value.store.state == Some(seeded)
      ensures fresh(project.value.store) && fresh(project.value.llm.prompts)
      ensures Footprint() == {project.value.store, fs, project.value.llm.prompts, client}
    {
      seeded := Seed(dir, name, model, now);
      var loaded := LoadProject(dir, client);
      assert loaded.Ok?;
    }

    /** `run_stage(1, input_file=input_file)`: stage 1 may always run and
        is always built, so its record is marked in progress and the
        outcome of its `execute` finishes the run under the key "1_load". */
    method RunFirst(inputFile: string, now: string, given: Result<Base.StageResult>) returns (r: Result<Base.StageResult>)
      requires Valid()
      modifies Footprint()
      ensures project == old(project)
      ensures old(project).None? ==> r == Err(NoProject)
      ensures old(project).Some? ==>
        var p := project.value;
        var key := Base.StageKey(1, Stages.InfoOf(1).value.name);
        var (begun, u) := Base.Updated(old(p.store.state), key, "in_progress", NoFields, now);
        && (u.Err? ==> (p.store.state, r) == Base.MarkedError(begun, key, u.error, now))
        && (u.Ok? ==> (p.store.state, r) == Base.Finished(begun, key, given, now))
    {
      var args := Stages.Kwargs(Some(inputFile), None, []);
      Stages.ConstructForwards(1, args);
      ghost var outcome, executed, finalKey;
      r, outcome, executed, finalKey := RunStage(1, args, now, given);
    }

    /** The directory of a new project and its seeded state, saved where
        `load_project` reads it back. */
    method Seed(dir: string, name: string, model: Option<string>, now: string) returns (seeded: StateStore.ProjectState)
      requires RoundTrips(codec)
      modifies fs
      ensures seeded == StateStore.InitialState(name, ProjectConfig(model, defaultModel, temperature), now)
      ensures fs.files == old(fs.files)[PathJoin(dir, "state.json") := codec.dumps(StateStore.Dump(seeded))]
      ensures fs.dirs == old(fs.dirs) + {dir} + StateStore.ProjectDirs(dir)
      ensures fs.Exists(dir) && StateStore.Loaded(fs.files, PathJoin(dir, "state.json"), codec) == Some(seeded)
    {
      fs.Mkdir(dir);
      var store := new StateStore.StateManager(dir, fs, codec);
      seeded := store.CreateNew(name, ProjectConfig(model, defaultModel, temperature), now);
      StateStore.SaveThenLoad(old(fs.files), store.stateFile, codec, seeded);
    }

    /** `get_project_status()`: `NoProject` without a project or a state. */
    function GetProjectStatus(): (r: Result<Fields>)
      reads this, if project.Some? then {project.value.store} else {}
      ensures project.None? || project.value.store.state.None? ==> r == Err(NoProject)
      ensures project.Some? && project.value.store.state.Some? ==> r == Status(project.value.store.state.value)
    {
      if project.None? || project.value.store.state.None? then Err(NoProject)
      else Status(project.value.store.state.value)
    }
  }
}
