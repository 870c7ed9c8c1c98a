/** The stage registry: `STAGES`, the ten stage classes by number, and
    `create_stage`, which builds one from its number and keyword arguments;
    and `BaseStage.run`, the lifecycle every stage shares around its own
    `execute`. */
module Stages {
  import opened Wrappers
  import opened Json
  import opened Py
  import opened Storage
  import Text
  import StateStore
  import Llm
  import Base
  import Compare
  import Plan
  import Write
  import Merge
  import Select
  import Generate

  // ---------------------------------------------------------------------
  // The stages outside this model: their declared attributes only

  const LoadInfo := Base.StageInfo(1, "01_load", "Загрузка файла", [], "01_loaded.md")
  const FormatInfo := Base.StageInfo(2, "02_format", "Форматирование", ["01_loaded.md"], "02_formatted.md")
  const EditInfo := Base.StageInfo(7, "07_literary_edit", "Литературная правка", ["06_merged.md"], "07_edited.md")
  const AnalyzeInfo := Base.StageInfo(8, "08_marketing_analysis", "Маркетинговый анализ", ["07_edited.md"], "08_analysis.md")

  /** The stages whose `execute` is not modelled: loading, formatting,
      editing and the marketing analysis. */
  predicate Unmodelled(id: int) {
    id == 1 || id == 2 || id == 7 || id == 8
  }

  // ---------------------------------------------------------------------
  // STAGES

  /** `STAGES[n]`'s declared attributes; none for a number not in the
      registry. */
  function InfoOf(n: int): (r: Option<Base.StageInfo>)
    ensures r.Some? <==> 1 <= n <= 10
    ensures r.Some? ==> r.value.id == n
  {
    if n == 1 then Some(LoadInfo)
    else if n == 2 then Some(FormatInfo)
    else if n == 3 then Some(Compare.Info)
    else if n == 4 then Some(Plan.Info)
    else if n == 5 then Some(Write.Info)
    else if n == 6 then Some(Merge.Info)
    else if n == 7 then Some(EditInfo)
    else if n == 8 then Some(AnalyzeInfo)
    else if n == 9 then Some(Select.Info)
    else if n == 10 then Some(Generate.Info)
    else None
  }

  /** The class `STAGES[n]` names, for the constructor's messages. */
  function ClassName(n: int): string {
    if n == 1 then "LoadStage"
    else if n == 2 then "FormatStage"
    else if n == 3 then "CompareStage"
    else if n == 4 then "PlanStage"
    else if n == 5 then "WriteStage"
    else if n == 6 then "MergeStage"
    else if n == 7 then "EditStage"
    else if n == 8 then "AnalyzeStage"
    else if n == 9 then "SelectStage"
    else "GenerateStage"
  }

  /** A stage built by the registry declares its own number's attributes. */
  predicate Registered(info: Base.StageInfo) {
    InfoOf(info.id) == Some(info)
  }

  /** The key a registered stage keeps its record under: its number and
      the part of its name after the first '_'. */
  function OwnKey(n: int): string
    requires 1 <= n <= 10
  {
    Base.StageKey(n, InfoOf(n).value.name)
  }

  /** The key of a stage whose name is a head without '_', '_' and a
      rest is its number, '_' and the rest. */
  lemma OwnKeyIs(n: int, head: string, rest: string)
    requires 1 <= n <= 10 && '_' !in head && InfoOf(n).value.name == head + "_" + rest
    ensures OwnKey(n) == Text.NatToString(n) + "_" + rest
  {
    Base.KeyNameOfJoin(head, rest);
  }

  /** A new project seeds a record under the key of every stage but stages
      5, 7 and 8: their names ("write_section", "literary_edit",
      "marketing_analysis") differ from the seeded ones ("write", "edit",
      "analyze"), so their first update creates a record of its own and
      the seeded one stays "pending". */
  lemma OwnKeySeeded(n: int)
    requires 1 <= n <= 10
    ensures HasKey(StateStore.SeededFrom(0), OwnKey(n)) <==> !(n == 5 || n == 7 || n == 8)
  {
    if n == 5 || n == 7 || n == 8 {
      FreshOwnKey(n);
    } else {
      StateStore.InitialKeys();
      HasKeyIsInKeys(StateStore.SeededFrom(0), OwnKey(n));
      SeededOwnKey(n);
    }
  }

  /** Stages 5, 7 and 8 find no seeded record under their keys. */
  lemma FreshOwnKey(n: int)
    requires n == 5 || n == 7 || n == 8
    ensures !HasKey(StateStore.SeededFrom(0), OwnKey(n))
  {
    if n == 5 {
      WriteKeyFresh();
    } else if n == 7 {
      EditKeyFresh();
    } else {
      AnalyzeKeyFresh();
    }
  }

  lemma WriteKeyFresh()
    ensures !HasKey(StateStore.SeededFrom(0), OwnKey(5))
  {
    UnseededKey(5, "05", "write_section", "write");
  }

  lemma EditKeyFresh()
    ensures !HasKey(StateStore.SeededFrom(0), OwnKey(7))
  {
    UnseededKey(7, "07", "literary_edit", "edit");
  }

  lemma AnalyzeKeyFresh()
    ensures !HasKey(StateStore.SeededFrom(0), OwnKey(8))
  {
    UnseededKey(8, "08", "marketing_analysis", "analyze");
  }

  /** A stage whose name part is not the name seeded for its number has
      no seeded record. */
  lemma UnseededKey(n: int, head: string, rest: string, seeded: string)
    requires 1 <= n <= 10 && '_' !in head && InfoOf(n).value.name == head + "_" + rest
    requires StateStore.StageNames[n - 1] == seeded && |seeded| != |rest|
    ensures !HasKey(StateStore.SeededFrom(0), OwnKey(n))
  {
    OwnKeyIs(n, head, rest);
    Base.NotSeeded(n, rest);
  }

  /** The key of each of the other seven stages is its seeded key. */
  lemma SeededOwnKey(n: int)
    requires 1 <= n <= 10 && !(n == 5 || n == 7 || n == 8)
    ensures OwnKey(n) == StateStore.SeededKey(n - 1)
  {
    StateStore.SeededKeysLow();
    StateStore.SeededKeysHigh();
    if n == 1 {
      OwnKeyIs(1, "01", "load");
    } else if n == 2 {
      OwnKeyIs(2, "02", "format");
    } else if n == 3 {
      OwnKeyIs(3, "03", "compare");
    } else if n == 4 {
      OwnKeyIs(4, "04", "plan");
    } else if n == 6 {
      OwnKeyIs(6, "06", "merge");
    } else if n == 9 {
      OwnKeyIs(9, "09", "select");
    } else {
      OwnKeyIs(10, "10", "generate");
    }
  }

  // ---------------------------------------------------------------------
  // create_stage

  /** The names `run_stage`, `run_all` and `create_stage` bind themselves,
      and the two the stage constructors take. */
  const BoundNames: seq<string> :=
    ["self", "stage_num", "from_stage", "to_stage", "project_dir", "llm_processor", "state_manager",
     "input_file", "selected_materials"]

  /** The name of a keyword argument no signature on the way binds. */
  type Extra = n: string | n !in BoundNames witness "extra"

  /** The keyword arguments passed through `run_stage` to the stage's
      constructor: `input_file` and `selected_materials` when present, and
      any others by name. */
  datatype Kwargs = Kwargs(inputFile: Option<string>, selectedMaterials: Option<Option<seq<string>>>, others: seq<Extra>)

  const NoKwargs := Kwargs(None, None, [])

  /** The keyword argument the constructor of stage n does not take, if
      any: only the loading stage takes `input_file`, only the selection
      stage `selected_materials`, and no stage any other. */
  function Unexpected(n: int, args: Kwargs): (r: Option<string>)
    ensures r.None? <==> (args.inputFile.Some? ==> n == 1) && (args.selectedMaterials.Some? ==> n == 9) && |args.others| == 0
  {
    if args.inputFile.Some? && n != 1 then Some("input_file")
    else if args.selectedMaterials.Some? && n != 9 then Some("selected_materials")
    else if |args.others| > 0 then Some(args.others[0])
    else None
  }

  /** What `STAGES[n](**kwargs)` is given: the stage's attributes and its
      constructor's own arguments. */
  datatype Built = Built(info: Base.StageInfo, inputFile: Option<string>, selectedMaterials: Option<seq<string>>)

  /** The stage `create_stage(n, **kwargs)` builds, or what it raises: the
      number is checked first, then the keywords the class takes, then the
      loading stage's required `input_file`. */
  function Construct(n: int, args: Kwargs): Result<Built> {
    if InfoOf(n).None? then Err(Error(ValueError, "Invalid stage number: " + Text.IntToString(n) + ". Must be 1-10."))
    else if Unexpected(n, args).Some? then
      Err(Error(TypeError, ClassName(n) + ".__init__() got an unexpected keyword argument '" + Unexpected(n, args).value + "'"))
    else if n == 1 && args.inputFile.None? then
      Err(Error(TypeError, "LoadStage.__init__() missing 1 required positional argument: 'input_file'"))
    else Ok(Built(InfoOf(n).value, if n == 1 then args.inputFile else None,
                  if n == 9 then args.selectedMaterials.GetOr(None) else None))
  }

  /** A number outside 1..10 raises `ValueError`, and nothing else does. */
  lemma InvalidNumberRaises(n: int, args: Kwargs)
    ensures Construct(n, args).Err? && Construct(n, args).error.kind == ValueError <==> !(1 <= n <= 10)
    ensures !(1 <= n <= 10) ==>
      Construct(n, args).error.message == "Invalid stage number: " + Text.IntToString(n) + ". Must be 1-10."
  {
  }

  /** A stage is built exactly when the number is registered and the class
      takes every keyword given, the loading stage getting its input file;
      the stage declares that number, and its constructor gets the keyword
      values unchanged. */
  lemma ConstructForwards(n: int, args: Kwargs)
    ensures Construct(n, args).Ok? <==>
      1 <= n <= 10 && (args.inputFile.Some? <==> n == 1) && (args.selectedMaterials.Some? ==> n == 9) && |args.others| == 0
    ensures Construct(n, args).Ok? ==>
      var b := Construct(n, args).value;
      && Registered(b.info) && b.info.id == n
      && b.inputFile == args.inputFile
      && b.selectedMaterials == (if n == 9 then args.selectedMaterials.GetOr(None) else None)
  {
  }

  /** `create_stage(n, project_dir=..., llm_processor=..., state_manager=...,
      **kwargs)`: a new stage object as `Construct` says. */
  method CreateStage(n: int, projectDir: string, llm: Llm.LlmProcessor, state: StateStore.StateManager, args: Kwargs)
    returns (r: Result<Base.Stage>)
    ensures Construct(n, args).Err? ==> r == Err(Construct(n, args).error)
    ensures Construct(n, args).Ok? ==>
      var b := Construct(n, args).value;
      && r.Ok? && fresh(r.value)
      && r.value.info == b.info && r.value.stageName == b.info.name && r.value.projectDir == projectDir
      && r.value.stagesDir == PathJoin(projectDir, "stages") && r.value.outputDir == PathJoin(projectDir, "output")
      && r.value.llm == llm && r.value.state == state
      && r.value.inputFile == b.inputFile && r.value.selectedMaterials == b.selectedMaterials
  {
    var b :- Construct(n, args);
    var stage := new Base.Stage(b.info, projectDir, llm, state, b.inputFile, b.selectedMaterials);
    return Ok(stage);
  }

  // ---------------------------------------------------------------------
  // run

  /** The `execute` of stages 3 to 6. */
  method ExecuteEarly(s: Base.Stage, now: string) returns (r: Result<Base.StageResult>)
    requires 3 <= s.info.id <= 6 && Registered(s.info) && s.llm.prompts.fs != s.state.fs
    modifies s.state`state, s.state.fs, s.llm.prompts`cache, s.llm.client`requests, s.llm.client`lastTokenCount
  {
    var id := s.info.id;
    if id == 3 {
      r := Compare.Execute(s);
    } else if id == 4 {
      r := Plan.Execute(s);
    } else if id == 5 {
      r := Write.Execute(s, now);
    } else {
      r := Merge.Execute(s);
    }
  }

  /** The stage's own `execute`. The stages outside this model return the
      outcome given for them and change nothing here. */
  method Execute(s: Base.Stage, now: string, given: Result<Base.StageResult>) returns (r: Result<Base.StageResult>)
    requires Registered(s.info) && s.llm.prompts.fs != s.state.fs
    modifies s`stageName, s`selectedMaterials, s.state`state, s.state.fs, s.llm.prompts`cache, s.llm.client`requests,
             s.llm.client`lastTokenCount
    ensures Unmodelled(s.info.id) ==>
      && r == given && s.stageName == old(s.stageName) && s.state.state == old(s.state.state)
      && s.state.fs.files == old(s.state.fs.files) && s.llm.client.requests == old(s.llm.client.requests)
    ensures s.info.id != 10 ==> s.stageName == old(s.stageName)
  {
    var id := s.info.id;
    if 3 <= id <= 6 {
      r := ExecuteEarly(s, now);
    } else if id == 9 {
      r := Select.Execute(s, now);
    } else if id == 10 {
      r := Generate.Execute(s, now);
    } else {
      r := given;
    }
  }

  /** `run`: the record is marked "in_progress", `execute` runs, and its
      outcome completes the record, passes a failed result through or
      marks the record "error", all under the key of the stage's name at
      that point. An exception from the first update also marks the record
      "error". The ghost results are what `execute` returned and the state
      it left. */
  method Run(s: Base.Stage, now: string, given: Result<Base.StageResult>)
    returns (r: Result<Base.StageResult>, ghost outcome: Result<Base.StageResult>,
             ghost executed: Option<StateStore.ProjectState>)
    requires Registered(s.info) && s.llm.prompts.fs != s.state.fs
    modifies s`stageName, s`selectedMaterials, s.state`state, s.state.fs, s.llm.prompts`cache, s.llm.client`requests,
             s.llm.client`lastTokenCount
    ensures var (begun, u) := Base.Updated(old(s.state.state), old(s.Key()), "in_progress", NoFields, now);
      && (u.Err? ==> (s.state.state, r) == Base.MarkedError(begun, old(s.Key()), u.error, now))
      && (u.Ok? ==> (s.state.state, r) == Base.Finished(executed, s.Key(), outcome, now))
      && (u.Ok? && Unmodelled(s.info.id) ==> outcome == given && executed == begun)
      && (s.info.id != 10 ==> s.Key() == old(s.Key()))
  {
    var u := s.Begin(now);
    if u.Err? {
      r := s.MarkError(u.error, now);
      return r, Err(u.error), s.state.state;
    }
    var result := Execute(s, now, given);
    outcome, executed := result, s.state.state;
    r := s.Finish(result, now);
  }
}
