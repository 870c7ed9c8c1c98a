/** What every stage shares: its result record, its key in the state
    store, the slugifier, the file and model helpers, and the lifecycle
    `run` wraps around each stage's own `execute`. */
module Base {
  import opened Wrappers
  import opened Json
  import opened Py
  import opened Storage
  import Text
  import StateStore
  import Llm
  import Prompts

  /** `StageResult`. */
  datatype StageResult = StageResult(
    success: bool,
    outputFile: Option<string>,
    tokensUsed: int,
    error: Option<string>,
    metadata: Option<Fields>)

  /** `StageResult(success=False, error=message)`. */
  function Failed(message: string): StageResult {
    StageResult(false, None, 0, Some(message), None)
  }

  /** The class attributes a stage declares: `stage_id`, `stage_name`,
      `stage_title`, `input_files`, `output_file`. */
  datatype StageInfo = StageInfo(id: int, name: string, title: string, inputFiles: seq<string>, outputFile: string)

  // ---------------------------------------------------------------------
  // stage_key

  /** The part of a stage name after its first '_', or the whole name when
      it has none: `stage_name.split("_", 1)[1]`. */
  function KeyName(name: string): (r: string)
    ensures '_' in name ==> name == Text.BeforeFirst(name, '_') + "_" + r
    ensures '_' !in name ==> r == name
  {
    match Text.AfterFirst(name, '_')
    case Some(rest) => rest
    case None => name
  }

  /** The name after a head without '_' and one '_' is the rest. */
  lemma KeyNameOfJoin(head: string, rest: string)
    requires '_' !in head
    ensures KeyName(head + "_" + rest) == rest
  {
    var name := head + "_" + rest;
    Text.BeforeFirstOfJoin(head, '_', rest);
    assert name == head + ['_'] + rest;
    var r := KeyName(name);
    assert name == head + "_" + r;
    assert r == name[|head| + 1..] == rest;
  }

  /** `stage_key`: the stage number, '_', and the name after its first '_'. */
  function StageKey(id: int, name: string): string {
    Text.IntToString(id) + "_" + KeyName(name)
  }

  /** The state store reads back the stage's own number from its key. */
  lemma StageKeyNumber(id: nat, name: string)
    ensures StateStore.KeyNumber(StageKey(id, name)) == Ok(id)
  {
    StateStore.KeyNumberOfKey(id, KeyName(name));
  }

  /** A key whose name part differs from the seeded name of its number
      names no seeded record, so a new project has no record under it. */
  lemma NotSeeded(n: nat, name: string)
    requires 1 <= n <= |StateStore.StageNames| ==> name != StateStore.StageNames[n - 1]
    ensures !HasKey(StateStore.SeededFrom(0), Text.NatToString(n) + "_" + name)
  {
    NotSeededFrom(0, n, name);
  }

  lemma {:induction false} NotSeededFrom(i: nat, n: nat, name: string)
    requires i <= |StateStore.StageNames|
    requires 1 <= n <= |StateStore.StageNames| ==> name != StateStore.StageNames[n - 1]
    ensures !HasKey(StateStore.SeededFrom(i), Text.NatToString(n) + "_" + name)
    decreases |StateStore.StageNames| - i
  {
    if i < |StateStore.StageNames| {
      KeysDiffer(i + 1, StateStore.StageNames[i], n, name);
      NotSeededFrom(i + 1, n, name);
    }
  }

  /** Keys with different numbers or different names differ. */
  lemma KeysDiffer(n: nat, a: string, m: nat, b: string)
    requires n != m || a != b
    ensures Text.NatToString(n) + "_" + a != Text.NatToString(m) + "_" + b
  {
    if n != m {
      StateStore.KeyNumberOfKey(n, a);
      StateStore.KeyNumberOfKey(m, b);
    } else {
      var d := Text.NatToString(n);
      assert (d + "_" + a)[|d| + 1..] == a;
      assert (d + "_" + b)[|d| + 1..] == b;
    }
  }

  // ---------------------------------------------------------------------
  // _slugify

  /** The characters `[a-z0-9_-]` a slug keeps. */
  predicate SlugChar(c: char) {
    'a' <= c <= 'z' || '0' <= c <= '9' || c == '_' || c == '-'
  }

  /** `re.sub(r'[^a-z0-9_-]', '', s)`: the slug characters of `s`, in order. */
  function KeepSlugChars(s: string): (r: string)
    ensures |r| <= |s|
    ensures forall k :: 0 <= k < |r| ==> SlugChar(r[k])
    ensures (forall k :: 0 <= k < |s| ==> SlugChar(s[k])) ==> r == s
  {
    if |s| == 0 then ""
    else if SlugChar(s[0]) then [s[0]] + KeepSlugChars(s[1..])
    else KeepSlugChars(s[1..])
  }

  /** `s[:n]`: the first `n` characters; a negative `n` drops that many
      from the end. */
  function PyPrefix(s: string, n: int): (r: string)
    ensures r <= s
    ensures n >= 0 ==> |r| == if n < |s| then n else |s|
    ensures n < 0 ==> |r| == if |s| + n > 0 then |s| + n else 0
  {
    if n >= 0 then (if n < |s| then s[..n] else s)
    else if |s| + n > 0 then s[..|s| + n]
    else ""
  }

  /** The default `max_length` of `_slugify`. */
  const SlugLength := 30

  /** `_slugify(text, max_length)`: lower-cased, spaces to '_', every
      character outside `[a-z0-9_-]` dropped, then cut to `max_length`. */
  function Slugify(text: string, maxLength: int): (r: string)
    ensures forall k :: 0 <= k < |r| ==> SlugChar(r[k])
    ensures maxLength >= 0 ==> |r| <= maxLength
    ensures r <= KeepSlugChars(Text.ReplaceChar(Text.Lower(text), ' ', '_'))
  {
    PyPrefix(KeepSlugChars(Text.ReplaceChar(Text.Lower(text), ' ', '_')), maxLength)
  }

  /** Lower-casing leaves slug characters alone. */
  lemma {:induction false} LowerKeepsSlug(s: string)
    requires forall k :: 0 <= k < |s| ==> SlugChar(s[k])
    ensures Text.Lower(s) == s
  {
    if |s| > 0 {
      LowerKeepsSlug(s[1..]);
      assert Text.LowerChar(s[0]) == [s[0]];
      assert s == [s[0]] + s[1..];
    }
  }

  /** A slug that fits the length is its own slug... */
  lemma SlugIsFixed(s: string, maxLength: int)
    requires forall k :: 0 <= k < |s| ==> SlugChar(s[k])
    requires maxLength >= |s|
    ensures Slugify(s, maxLength) == s
  {
    LowerKeepsSlug(s);
    var t := Text.ReplaceChar(s, ' ', '_');
    assert t == s;
  }

  /** ... so slugifying twice with a non-negative length gives what
      slugifying once gave. */
  lemma SlugifyIdempotent(text: string, maxLength: int)
    requires maxLength >= 0
    ensures Slugify(Slugify(text, maxLength), maxLength) == Slugify(text, maxLength)
  {
    var s := Slugify(text, maxLength);
    SlugIsFixed(s, maxLength);
  }

  // ---------------------------------------------------------------------
  // The lifecycle, on the store's current state

  /** `update_stage(key, status, **extra)` on the store's current state:
      the state it leaves and what it raised. */
  function Updated(st: Option<StateStore.ProjectState>, key: string, status: string, extra: Fields, now: string)
    : (r: (Option<StateStore.ProjectState>, Result<()>))
    ensures st.None? <==> r.0.None?
    ensures st.None? ==> r.1.Ok?
  {
    if st.None? then (None, Ok(()))
    else
      var s := StateStore.UpdateStageStep(st.value, key, status, extra, now);
      (Some(if s.raised.None? then s.state.(updatedAt := now) else s.state), s.Outcome())
  }

  /** `update_statistics(**updates)` on the store's current state. */
  function Counted(st: Option<StateStore.ProjectState>, updates: Fields, now: string)
    : (r: (Option<StateStore.ProjectState>, Result<()>))
    ensures st.None? <==> r.0.None?
    ensures st.None? ==> r.1.Ok?
  {
    if st.None? then (None, Ok(()))
    else
      var (stats, raised) := StateStore.StatisticsAfter(st.value.statistics, updates);
      if raised.None? then (Some(st.value.(statistics := stats, updatedAt := now)), Ok(()))
      else (Some(st.value.(statistics := stats)), Err(raised.value))
  }

  /** The counters a successful stage adds to. */
  function Counters(tokens: int): Fields {
    Field("total_tokens_used", JInt(tokens), Single("total_api_calls", JInt(1)))
  }

  /** `None` or a text, as a JSON value. */
  function OptText(o: Option<string>): Json {
    if o.Some? then JStr(o.value) else JNull
  }

  /** The fields a completed record gets from the result. */
  function CompletionExtra(res: StageResult): Fields {
    Field("output_file", OptText(res.outputFile), Single("tokens_used", JInt(res.tokensUsed)))
  }

  /** The field an errored record gets. */
  function ErrorExtra(message: string): Fields {
    Single("error_message", JStr(message))
  }

  /** `progress={"current": current, "total": total}`. */
  function ProgressExtra(current: int, total: int): Fields {
    Single("progress", JObj(Field("current", JInt(current), Single("total", JInt(total)))))
  }

  /** The `except` branch of `run`: the record is marked "error" with the
      exception's text and a failed result carries the same text; an
      exception raised by that update leaves `run` itself. */
  function MarkedError(st: Option<StateStore.ProjectState>, key: string, e: Error, now: string)
    : (Option<StateStore.ProjectState>, Result<StageResult>)
  {
    var (st1, u) := Updated(st, key, "error", ErrorExtra(e.message), now);
    (st1, if u.Err? then Err(u.error) else Ok(Failed(e.message)))
  }

  /** What `run` does once `execute` has returned or raised: a successful
      result completes the record, a failed result is passed through
      untouched, an exception marks the record "error". */
  function Finished(st: Option<StateStore.ProjectState>, key: string, outcome: Result<StageResult>, now: string)
    : (Option<StateStore.ProjectState>, Result<StageResult>)
  {
    match outcome
    case Err(e) => MarkedError(st, key, e, now)
    case Ok(res) =>
      if !res.success then (st, Ok(res))
      else Completed(Updated(st, key, "completed", CompletionExtra(res), now), key, res, now)
  }

  /** After the "completed" update `p`: an exception it raised marks the
      record "error"; otherwise a result that used tokens adds to the
      counters. */
  function Completed(p: (Option<StateStore.ProjectState>, Result<()>), key: string, res: StageResult, now: string)
    : (Option<StateStore.ProjectState>, Result<StageResult>)
  {
    if p.1.Err? then MarkedError(p.0, key, p.1.error, now)
    else if res.tokensUsed > 0 then Charged(Counted(p.0, Counters(res.tokensUsed), now), key, res, now)
    else (p.0, Ok(res))
  }

  /** After the counter update `q`: an exception it raised marks the record
      "error"; otherwise the result is passed on. */
  function Charged(q: (Option<StateStore.ProjectState>, Result<()>), key: string, res: StageResult, now: string)
    : (Option<StateStore.ProjectState>, Result<StageResult>)
  {
    if q.1.Err? then MarkedError(q.0, key, q.1.error, now) else (q.0, Ok(res))
  }

  /** The record stored under `key`'s field `k`. */
  function RecordField(st: StateStore.ProjectState, key: string, k: string): Option<Json> {
    match StateStore.RecordOf(st, key)
    case Some(JObj(rec)) => Lookup(rec, k)
    case _ => None
  }

  /** A failed result returned by `execute` is passed through unchanged
      and the state is left as `execute` left it: the record stays
      "in_progress" and no counter moves. */
  lemma FailedResultPassesThrough(st: Option<StateStore.ProjectState>, key: string, res: StageResult, now: string)
    requires !res.success
    ensures Finished(st, key, Ok(res), now) == (st, Ok(res))
  {}

  /** Marking the start on a well-formed record: the record says
      "in_progress", nothing else but the stamps changes, and the record
      stays well formed. */
  lemma BeginMarksInProgress(st: StateStore.ProjectState, id: nat, name: string, now: string)
    requires StateStore.WellFormed(st)
    ensures var (st1, u) := Updated(Some(st), StageKey(id, name), "in_progress", NoFields, now);
      var key := StageKey(id, name);
      && u.Ok? && st1.Some? && StateStore.WellFormed(st1.value)
      && RecordField(st1.value, key, "status") == Some(JStr("in_progress"))
      && StateStore.CurrentStage(st1.value) == StateStore.CurrentStage(st)
      && st1.value.statistics == st.statistics && st1.value.materials == st.materials
  {
    var key := StageKey(id, name);
    StageKeyNumber(id, name);
    UpdatedRecord(st, key, "in_progress", NoFields, now);
    UpdatedRest(st, key, "in_progress", NoFields, now);
  }

  /** A successful update stores the status and the extra fields in the
      key's record. */
  lemma UpdatedRecord(st: StateStore.ProjectState, key: string, status: string, extra: Fields, now: string)
    requires StateStore.WellFormed(st) && StateStore.KeyNumber(key).Ok?
    requires UniqueKeys(extra) && !HasKey(extra, "status")
    ensures var st1 := Updated(Some(st), key, status, extra, now).0.value;
      && RecordField(st1, key, "status") == Some(JStr(status))
      && (forall k :: HasKey(extra, k) ==> RecordField(st1, key, k) == Lookup(extra, k))
  {
    StoredIsDict(st, key);
    var rec := if StateStore.RecordOf(st, key).Some? then StateStore.RecordOf(st, key).value.fields else NoFields;
    StoredRecord(st, key, status, extra, now);
    RecordFields(Updated(Some(st), key, status, extra, now).0.value, key, rec, status, extra, now);
  }

  /** A record stored as an update leaves it has the status asked for and
      the extra fields given. */
  lemma RecordFields(st1: StateStore.ProjectState, key: string, rec: Fields, status: string, extra: Fields, now: string)
    requires StateStore.RecordOf(st1, key) == Some(JObj(StateStore.RecordAfter(rec, status, extra, now)))
    requires UniqueKeys(extra) && !HasKey(extra, "status")
    ensures RecordField(st1, key, "status") == Some(JStr(status))
    ensures forall k :: HasKey(extra, k) ==> RecordField(st1, key, k) == Lookup(extra, k)
  {
    forall k | HasKey(extra, k) ensures Lookup(StateStore.RecordAfter(rec, status, extra, now), k) == Lookup(extra, k) {
      StateStore.StatusAndExtraStored(rec, status, extra, now, k);
    }
    StateStore.StatusAndExtraStored(rec, status, extra, now, "status");
  }

  /** On a well-formed record the record under any key is a dict or
      missing. */
  lemma StoredIsDict(st: StateStore.ProjectState, key: string)
    requires StateStore.WellFormed(st)
    ensures StateStore.RecordOf(st, key).None? || StateStore.RecordOf(st, key).value.JObj?
  {
    var recs := StateStore.StagesOf(st).value;
    if HasKey(recs, key) {
      StateStore.AllDictsLookup(recs, key);
    }
  }

  /** The record an update stores under its key, once the state is saved. */
  lemma StoredRecord(st: StateStore.ProjectState, key: string, status: string, extra: Fields, now: string)
    requires StateStore.StagesOf(st).Some? && StateStore.KeyNumber(key).Ok?
    requires StateStore.RecordOf(st, key).None? || StateStore.RecordOf(st, key).value.JObj?
    ensures var rec := if StateStore.RecordOf(st, key).Some? then StateStore.RecordOf(st, key).value.fields else NoFields;
      StateStore.RecordOf(Updated(Some(st), key, status, extra, now).0.value, key) ==
        Some(JObj(StateStore.RecordAfter(rec, status, extra, now)))
  {
    StateStore.UpdateStageFrames(st, key, status, extra, now, key);
  }

  /** On a well-formed record an update whose key names a number does not
      raise, keeps the record well formed, moves `current_stage` only on
      "completed", and leaves the materials and the counters. */
  lemma UpdatedRest(st: StateStore.ProjectState, key: string, status: string, extra: Fields, now: string)
    requires StateStore.WellFormed(st) && StateStore.KeyNumber(key).Ok?
    ensures var (st1, u) := Updated(Some(st), key, status, extra, now);
      && u == Ok(()) && st1.Some? && StateStore.WellFormed(st1.value)
      && StateStore.CurrentStage(st1.value) ==
           (if status == "completed" then JInt(StateStore.KeyNumber(key).value) else StateStore.CurrentStage(st))
      && st1.value.statistics == st.statistics && st1.value.materials == st.materials
  {
    StateStore.UpdateStageKeepsWellFormed(st, key, status, extra, now);
    StateStore.UpdateStageOk(st, key, status, extra, now);
  }

  /** On a well-formed record the counters of a successful stage grow by
      the tokens and by one call, and nothing else changes. */
  lemma CountedFacts(st: StateStore.ProjectState, tokens: int, now: string)
    requires StateStore.WellFormed(st)
    ensures var (st2, u) := Counted(Some(st), Counters(tokens), now);
      && u == Ok(()) && st2.Some? && StateStore.WellFormed(st2.value)
      && st2.value.pipeline == st.pipeline && st2.value.materials == st.materials
      && Lookup(st2.value.statistics, "total_tokens_used") ==
           Some(JInt(Lookup(st.statistics, "total_tokens_used").value.i + tokens))
      && Lookup(st2.value.statistics, "total_api_calls") ==
           Some(JInt(Lookup(st.statistics, "total_api_calls").value.i + 1))
  {
    StateStore.CountersKeepWellFormed(st, tokens);
  }

  /** Records are read from the pipeline only. */
  lemma SamePipelineSameRecords(a: StateStore.ProjectState, b: StateStore.ProjectState, key: string, k: string)
    requires a.pipeline == b.pipeline
    ensures RecordField(a, key, k) == RecordField(b, key, k)
    ensures StateStore.CurrentStage(a) == StateStore.CurrentStage(b)
  {}

  /** A successful result on a well-formed record: the "completed"
      update does not raise, and the record says "completed" with the
      result's output file and tokens, `current_stage` becomes the stage's
      number, and the counters and materials stay. */
  lemma SuccessCompletes(st: StateStore.ProjectState, id: nat, name: string, res: StageResult, now: string)
    requires StateStore.WellFormed(st)
    ensures var key := StageKey(id, name);
      var (st1, u) := Updated(Some(st), key, "completed", CompletionExtra(res), now);
      && u == Ok(()) && st1.Some? && StateStore.WellFormed(st1.value)
      && RecordField(st1.value, key, "status") == Some(JStr("completed"))
      && RecordField(st1.value, key, "output_file") == Some(OptText(res.outputFile))
      && RecordField(st1.value, key, "tokens_used") == Some(JInt(res.tokensUsed))
      && StateStore.CurrentStage(st1.value) == JInt(id)
      && st1.value.statistics == st.statistics && st1.value.materials == st.materials
  {
    var key := StageKey(id, name);
    var extra := CompletionExtra(res);
    StageKeyNumber(id, name);
    CompletionExtraKeys(res);
    UpdatedRecord(st, key, "completed", extra, now);
    UpdatedRest(st, key, "completed", extra, now);
  }

  lemma CompletionExtraKeys(res: StageResult)
    ensures var extra := CompletionExtra(res);
      && UniqueKeys(extra) && !HasKey(extra, "status")
      && HasKey(extra, "output_file") && Lookup(extra, "output_file") == Some(OptText(res.outputFile))
      && HasKey(extra, "tokens_used") && Lookup(extra, "tokens_used") == Some(JInt(res.tokensUsed))
  {
    assert "output_file"[0] != "tokens_used"[0];
    assert "output_file"[0] != "status"[0] && "tokens_used"[0] != "status"[0];
    assert !HasKey(Single("tokens_used", JInt(res.tokensUsed)), "status");
  }

  /** After a "completed" update that did not raise, on a well-formed
      record: the result is passed on; with tokens used the counters grow
      by the tokens and by exactly one call, however many calls the stage
      made, and the records stay; without, nothing changes. */
  lemma SuccessCounts(st1: StateStore.ProjectState, key: string, res: StageResult, now: string)
    requires StateStore.WellFormed(st1)
    ensures var (st2, r) := Completed((Some(st1), Ok(())), key, res, now);
      var tokens := Lookup(st1.statistics, "total_tokens_used").value.i;
      var calls := Lookup(st1.statistics, "total_api_calls").value.i;
      && r == Ok(res) && st2.Some? && StateStore.WellFormed(st2.value)
      && (res.tokensUsed > 0 ==>
            && Lookup(st2.value.statistics, "total_tokens_used") == Some(JInt(tokens + res.tokensUsed))
            && Lookup(st2.value.statistics, "total_api_calls") == Some(JInt(calls + 1))
            && st2.value.pipeline == st1.pipeline && st2.value.materials == st1.materials)
      && (res.tokensUsed <= 0 ==> st2 == Some(st1))
  {
    if res.tokensUsed > 0 {
      CountedFacts(st1, res.tokensUsed, now);
    }
  }

  /** An exception on a well-formed record: the record is marked "error"
      with the exception's text, the failed result carries the same text,
      and `current_stage` and the counters stay. */
  lemma ExceptionMarksError(st: StateStore.ProjectState, id: nat, name: string, e: Error, now: string)
    requires StateStore.WellFormed(st)
    ensures var (st', r) := Finished(Some(st), StageKey(id, name), Err(e), now);
      var key := StageKey(id, name);
      && r == Ok(Failed(e.message)) && st'.Some? && StateStore.WellFormed(st'.value)
      && RecordField(st'.value, key, "status") == Some(JStr("error"))
      && RecordField(st'.value, key, "error_message") == Some(JStr(e.message))
      && StateStore.CurrentStage(st'.value) == StateStore.CurrentStage(st)
      && st'.value.statistics == st.statistics && st'.value.materials == st.materials
  {
    var key := StageKey(id, name);
    StageKeyNumber(id, name);
    UpdatedRecord(st, key, "error", ErrorExtra(e.message), now);
    UpdatedRest(st, key, "error", ErrorExtra(e.message), now);
  }

  /** The files after an update of the store left `st` and returned `u`:
      the record is saved only when the update got through. */
  function Saved(files: map<string, string>, stateFile: string, codec: Codec,
                 st: Option<StateStore.ProjectState>, u: Result<()>): map<string, string> {
    if st.Some? && u.Ok? then files[stateFile := codec.dumps(StateStore.Dump(st.value))] else files
  }

  /** Every stage's record changes only by the state file. */
  ghost predicate OnlyStateFile(before: map<string, string>, after: map<string, string>, stateFile: string) {
    forall p :: p != stateFile ==> (p in after <==> p in before) && (p in after ==> after[p] == before[p])
  }

  // ---------------------------------------------------------------------
  // The stage object

  /** `BaseStage`: the stage's declared attributes, the project's
      directories, and the objects it works through. `stageName` is an
      instance attribute the generation stage reassigns;
      `inputFile` is the loading stage's constructor argument and
      `selectedMaterials` the selection stage's. */
  class Stage {
    const info: StageInfo
    var stageName: string
    const projectDir: string
    const stagesDir: string
    const outputDir: string
    const llm: Llm.LlmProcessor
    const state: StateStore.StateManager
    var selectedMaterials: Option<seq<string>>
    const inputFile: Option<string>

    constructor(info: StageInfo, projectDir: string, llm: Llm.LlmProcessor, state: StateStore.StateManager,
                inputFile: Option<string>, selectedMaterials: Option<seq<string>>)
      ensures this.info == info && stageName == info.name && this.projectDir == projectDir
      ensures stagesDir == PathJoin(projectDir, "stages") && outputDir == PathJoin(projectDir, "output")
      ensures this.llm == llm && this.state == state && this.inputFile == inputFile
      ensures this.selectedMaterials == selectedMaterials
    {
      this.inputFile := inputFile;
      this.info := info;
      this.stageName := info.name;
      this.projectDir := projectDir;
      this.stagesDir := PathJoin(projectDir, "stages");
      this.outputDir := PathJoin(projectDir, "output");
      this.llm := llm;
      this.state := state;
      this.selectedMaterials := selectedMaterials;
    }

    /** The file system the stage reads and writes: the store's. */
    function Files(): FileSystem {
      state.fs
    }

    /** `stage_key`. */
    function Key(): string
      reads this
    {
      StageKey(info.id, stageName)
    }

    /** The path `read_input(filename)` reads, when there is one to read. */
    function InputPath(filename: Option<string>): Option<string> {
      if filename.Some? then Some(PathJoin(stagesDir, filename.value))
      else if info.inputFiles == [] then None
      else Some(PathJoin(stagesDir, info.inputFiles[0]))
    }

    /** `read_input(filename)`: without a name and without declared inputs
        it raises ValueError; a path that does not exist raises
        FileNotFoundError; otherwise the file's text. */
    function ReadInput(filename: Option<string>): (r: Result<string>)
      reads state.fs
      ensures InputPath(filename).None? ==> r == Err(Error(ValueError, "No input file specified"))
      ensures InputPath(filename).Some? && !state.fs.Exists(InputPath(filename).value) ==>
        r == Err(Error(FileNotFoundError, "Input file not found: " + InputPath(filename).value))
      ensures InputPath(filename).Some? && InputPath(filename).value in state.fs.files ==>
        r == Ok(state.fs.files[InputPath(filename).value])
      ensures r.Ok? ==> InputPath(filename).Some? && InputPath(filename).value in state.fs.files
    {
      var name :- if filename.Some? then Ok(filename.value)
        else if info.inputFiles == [] then Err(Error(ValueError, "No input file specified"))
        else Ok(info.inputFiles[0]);
      var path := PathJoin(stagesDir, name);
      if !state.fs.Exists(path) then Err(Error(FileNotFoundError, "Input file not found: " + path))
      else state.fs.ReadText(path)
    }

    /** `read_json(filename)`: FileNotFoundError for a missing path, then
        the parsed text; text that is not JSON raises a decode error. */
    function ReadJson(filename: string): (r: Result<Json>)
      reads state.fs
      ensures var path := PathJoin(stagesDir, filename);
        && (!state.fs.Exists(path) ==> r == Err(Error(FileNotFoundError, "JSON file not found: " + path)))
        && (path in state.fs.files ==>
              r == match state.codec.loads(state.fs.files[path])
                   case Some(j) => Ok(j)
                   case None => Err(Error(JsonDecodeError, "Expecting value")))
        && (r.Ok? ==> path in state.fs.files)
    {
      var path := PathJoin(stagesDir, filename);
      if !state.fs.Exists(path) then Err(Error(FileNotFoundError, "JSON file not found: " + path))
      else
        var text :- state.fs.ReadText(path);
        match state.codec.loads(text)
        case Some(j) => Ok(j)
        case None => Err(Error(JsonDecodeError, "Expecting value"))
    }

    /** `save_output(content, filename)`: the text is written under the
        stages directory, by default to the stage's output file. */
    method SaveOutput(content: string, filename: Option<string>) returns (path: string)
      modifies state.fs
      ensures path == PathJoin(stagesDir, filename.GetOr(info.outputFile))
      ensures state.fs.files == old(state.fs.files)[path := content]
      ensures state.fs.dirs == old(state.fs.dirs) + {Parent(path)}
    {
      path := PathJoin(stagesDir, filename.GetOr(info.outputFile));
      state.fs.Mkdir(Parent(path));
      state.fs.WriteText(path, content);
    }

    /** `save_json(data, filename)`: the JSON text of the data, written
        as `save_output` writes. */
    method SaveJson(data: Json, filename: Option<string>) returns (path: string)
      modifies state.fs
      ensures path == PathJoin(stagesDir, filename.GetOr(info.outputFile))
      ensures state.fs.files == old(state.fs.files)[path := state.codec.dumps(data)]
      ensures state.fs.dirs == old(state.fs.dirs) + {Parent(path)}
    {
      path := SaveOutput(state.codec.dumps(data), filename);
    }

    /** The prompt `call_llm` resolves now: the one for the stage's
        current name. */
    function Prompt(): Result<Prompts.PromptInfo>
      reads this, llm.prompts, llm.prompts.fs
    {
      llm.prompts.Current(stageName)
    }

    /** The request `call_llm(content, extra)` sends now, if any: none when
        the prompt does not resolve. */
    function Asked(content: string, extra: Option<Fields>): (q: seq<Llm.Request>)
      reads this, llm.prompts, llm.prompts.fs
      ensures |q| <= 1
    {
      match Prompt()
      case Err(_) => []
      case Ok(info) => [Llm.RequestFor(llm.codec, info, content, extra)]
    }

    /** What `call_llm(content, extra)` returns now: the prompt's error, or
        the answer to the request it sends. */
    function Answer(content: string, extra: Option<Fields>): Result<Llm.LlmResult>
      reads this, llm.prompts, llm.prompts.fs, llm.client
    {
      match Prompt()
      case Err(e) => Err(e)
      case Ok(info) =>
        Llm.Answered(llm.client.NextReply(Llm.RequestFor(llm.codec, info, content, extra)),
          llm.client.lastTokenCount, stageName, info)
    }

    /** `call_llm(content, extra_context)`: the processor's `process` for
        the stage's current name, at the default temperature. No prompt
        changes, and the resolved one is cached. */
    method CallLlm(content: string, extra: Option<Fields>) returns (r: Result<Llm.LlmResult>)
      modifies llm.prompts`cache, llm.client`requests, llm.client`lastTokenCount
      ensures r == old(Answer(content, extra))
      ensures llm.client.requests == old(llm.client.requests) + old(Asked(content, extra))
      ensures llm.client.lastTokenCount == if r.Ok? then r.value.tokensUsed else old(llm.client.lastTokenCount)
      ensures llm.prompts.cache == Prompts.Remember(old(llm.prompts.cache), stageName, old(Prompt()))
      ensures forall q :: llm.prompts.Current(q) == old(llm.prompts.Current(q))
    {
      r := llm.Process(stageName, content, extra, Llm.DefaultTemperature);
    }

    /** The `update_stage(stage_key, "in_progress")` that opens `run`. */
    method Begin(now: string) returns (r: Result<()>)
      modifies state`state, state.fs`files
      ensures (state.state, r) == Updated(old(state.state), Key(), "in_progress", NoFields, now)
      ensures state.fs.files == Saved(old(state.fs.files), state.stateFile, state.codec, state.state, r)
    {
      r := state.UpdateStage(Key(), "in_progress", NoFields, now);
    }

    /** `update_progress(current, total)`: the record stays "in_progress"
        and gets the progress. */
    method UpdateProgress(current: int, total: int, now: string) returns (r: Result<()>)
      modifies state`state, state.fs`files
      ensures (state.state, r) == Updated(old(state.state), Key(), "in_progress", ProgressExtra(current, total), now)
      ensures state.fs.files == Saved(old(state.fs.files), state.stateFile, state.codec, state.state, r)
    {
      r := state.UpdateStage(Key(), "in_progress", ProgressExtra(current, total), now);
    }

    /** The `except` branch of `run`. */
    method MarkError(e: Error, now: string) returns (r: Result<StageResult>)
      modifies state`state, state.fs`files
      ensures (state.state, r) == MarkedError(old(state.state), Key(), e, now)
      ensures OnlyStateFile(old(state.fs.files), state.fs.files, state.stateFile)
    {
      var u := state.UpdateStage(Key(), "error", ErrorExtra(e.message), now);
      if u.Err? {
        return Err(u.error);
      }
      return Ok(Failed(e.message));
    }

    /** The rest of `run` once `execute` has returned or raised. */
    method Finish(outcome: Result<StageResult>, now: string) returns (r: Result<StageResult>)
      modifies state`state, state.fs`files
      ensures (state.state, r) == Finished(old(state.state), Key(), outcome, now)
      ensures OnlyStateFile(old(state.fs.files), state.fs.files, state.stateFile)
    {
      if outcome.Err? {
        r := MarkError(outcome.error, now);
        return;
      }
      var res := outcome.value;
      if !res.success {
        return Ok(res);
      }
      r := Complete(res, now);
    }

    /** The successful part of `run`'s ending: the record is completed and
        the counters charged, an exception from either marking it "error". */
    method Complete(res: StageResult, now: string) returns (r: Result<StageResult>)
      modifies state`state, state.fs`files
      ensures (state.state, r) == Completed(Updated(old(state.state), Key(), "completed", CompletionExtra(res), now), Key(), res, now)
      ensures OnlyStateFile(old(state.fs.files), state.fs.files, state.stateFile)
    {
      var u := state.UpdateStage(Key(), "completed", CompletionExtra(res), now);
      if u.Err? {
        r := MarkError(u.error, now);
        return;
      }
      if res.tokensUsed > 0 {
        r := Charge(res, now);
      } else {
        r := Ok(res);
      }
    }

    /** The counters a successful result adds to, an exception while adding
        marking the record "error". */
    method Charge(res: StageResult, now: string) returns (r: Result<StageResult>)
      modifies state`state, state.fs`files
      ensures (state.state, r) == Charged(Counted(old(state.state), Counters(res.tokensUsed), now), Key(), res, now)
      ensures OnlyStateFile(old(state.fs.files), state.fs.files, state.stateFile)
    {
      var c := state.UpdateStatistics(Counters(res.tokensUsed), now);
      if c.Err? {
        r := MarkError(c.error, now);
      } else {
        r := Ok(res);
      }
    }
  }
}
