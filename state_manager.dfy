/** The project state store: one record per project, persisted as
    `state.json` in the project directory. The record's dict fields are
    JSON values, so that `set` can place any value anywhere, as the
    program allows; specification functions say what each operation does to
    a record, and the `StateManager` class performs the operations on its
    state and the file system. */
module StateStore {
  import opened Wrappers
  import opened Json
  import opened Py
  import opened Storage
  import Text

  /** The persisted record. Timestamps are ISO texts. */
  datatype ProjectState = ProjectState(
    version: string,
    projectName: string,
    createdAt: string,
    updatedAt: string,
    config: Fields,
    input: Fields,
    pipeline: Fields,
    materials: Fields,
    statistics: Fields)

  /** The outcome of an operation that can raise part-way: the state it
      leaves, and the exception if one was raised. */
  datatype Step = Step(state: ProjectState, raised: Option<Error>)
  {
    function Outcome(): Result<()> {
      if raised.Some? then Err(raised.value) else Ok(())
    }
  }

  const StageNames: seq<string> :=
    ["load", "format", "compare", "plan", "write", "merge", "edit", "analyze", "select", "generate"]

  const PendingRecord: Json := JObj(Single("status", JStr("pending")))

  /** The key of the i-th seeded record (counting from 0): its number, '_',
      its name. */
  function SeededKey(i: nat): string
    requires i < |StageNames|
  {
    Text.NatToString(i + 1) + "_" + StageNames[i]
  }

  /** The first `n` seeded keys in order, each holding a pending record:
      what the seeding loop builds in `n` rounds (`SeedStages`). */
  function Seeded(n: nat): Fields
    requires n <= |StageNames|
  {
    if n == 0 then NoFields else AddLast(Seeded(n - 1), SeededKey(n - 1), PendingRecord)
  }

  /** The seeded keys spelled out: "1_load" to "5_write"... */
  lemma SeededKeysLow()
    ensures SeededKey(0) == "1_load" && SeededKey(1) == "2_format" && SeededKey(2) == "3_compare"
      && SeededKey(3) == "4_plan" && SeededKey(4) == "5_write"
  {}

  /** ... and "6_merge" to "10_generate". */
  lemma SeededKeysHigh()
    ensures SeededKey(5) == "6_merge" && SeededKey(6) == "7_edit" && SeededKey(7) == "8_analyze"
      && SeededKey(8) == "9_select" && SeededKey(9) == "10_generate"
  {}

  /** The seeded records from the i-th on, each pending: cast as a chain
      of fields, so that the ten of a new project are written out once. */
  function SeededFrom(i: nat): Fields
    requires i <= |StageNames|
    decreases |StageNames| - i
  {
    if i == |StageNames| then NoFields else Field(SeededKey(i), PendingRecord, SeededFrom(i + 1))
  }

  /** The stage number a key names: `int(key.split("_")[0])`. */
  function KeyNumber(key: string): Result<int> {
    ParseInt(Text.BeforeFirst(key, '_'))
  }

  /** A key made of a number, '_' and a name names that number. */
  lemma KeyNumberOfKey(n: nat, name: string)
    ensures KeyNumber(Text.NatToString(n) + "_" + name) == Ok(n)
  {
    var d := Text.NatToString(n);
    forall k | 0 <= k < |d| ensures d[k] != '_' {
      assert Text.IsDigit(d[k]);
    }
    Text.BeforeFirstOfJoin(d, '_', name);
    ParseIntOfString(n);
  }

  /** The keys the first `n` rounds of the seeding loop assign, in order. */
  function SeededKeys(n: nat): (ks: seq<string>)
    requires n <= |StageNames|
    ensures |ks| == n && forall j :: 0 <= j < n ==> ks[j] == SeededKey(j)
  {
    if n == 0 then [] else SeededKeys(n - 1) + [SeededKey(n - 1)]
  }

  /** Different rounds assign different keys, as their numbers differ. */
  lemma SeededKeysDiffer(i: nat, j: nat)
    requires i < j < |StageNames|
    ensures SeededKey(i) != SeededKey(j)
  {
    KeyNumberOfKey(i + 1, StageNames[i]);
    KeyNumberOfKey(j + 1, StageNames[j]);
  }

  /** After `n` rounds the keys are the first `n` seeded keys in order. */
  lemma {:induction false} SeededFacts(n: nat)
    requires n <= |StageNames|
    ensures Keys(Seeded(n)) == SeededKeys(n)
  {
    if n > 0 {
      SeededFacts(n - 1);
    }
  }

  /** The keys of a new project's records are the seeded keys, in order. */
  lemma InitialKeys()
    ensures var ks := Keys(SeededFrom(0));
      |ks| == |StageNames| && forall i :: 0 <= i < |ks| ==> ks[i] == SeededKey(i)
  {
    SeededIsInitial(|StageNames|);
    SeededFacts(|StageNames|);
  }

  /** Every seeded record is pending. */
  lemma {:induction false} SeededFromPending(i: nat, k: string)
    requires i <= |StageNames|
    ensures HasKey(SeededFrom(i), k) ==> Lookup(SeededFrom(i), k) == Some(PendingRecord)
    decreases |StageNames| - i
  {
    if i < |StageNames| {
      SeededFromPending(i + 1, k);
    }
  }

  /** Every seeded record is a dict. */
  lemma {:induction false} SeededFromDicts(i: nat)
    requires i <= |StageNames|
    ensures AllDicts(SeededFrom(i))
    decreases |StageNames| - i
  {
    if i < |StageNames| {
      SeededFromDicts(i + 1);
    }
  }

  /** The seeding loop never meets a key twice. */
  lemma SeededFresh(n: nat)
    requires n < |StageNames|
    ensures !HasKey(Seeded(n), SeededKey(n))
  {
    SeededFacts(n);
    var ks := SeededKeys(n);
    forall j | 0 <= j < |ks| ensures ks[j] != SeededKey(n) {
      SeededKeysDiffer(j, n);
    }
    HasKeyIsInKeys(Seeded(n), SeededKey(n));
  }

  /** The first `n` rounds followed by the records from the n-th on are
      all the seeded records. */
  lemma {:induction false} SeededSplit(n: nat)
    requires n <= |StageNames|
    ensures Concat(Seeded(n), SeededFrom(n)) == SeededFrom(0)
  {
    if n > 0 {
      SeededSplit(n - 1);
      ConcatAddLast(Seeded(n - 1), SeededKey(n - 1), PendingRecord, SeededFrom(n));
    }
  }

  /** The seeding loop, run to the end, builds the records of a new
      project. */
  lemma SeededIsInitial(n: nat)
    requires n == |StageNames|
    ensures Seeded(n) == SeededFrom(0)
  {
    SeededSplit(n);
    ConcatNoFields(Seeded(n));
  }

  const InitialStatistics: Fields :=
    Field("total_tokens_used", JInt(0), Field("total_api_calls", JInt(0), Single("total_time_seconds", JInt(0))))

  /** The record `create_new` builds. */
  function InitialState(name: string, config: Fields, now: string): ProjectState {
    ProjectState("1.0", name, now, now, config, NoFields,
      Field("current_stage", JInt(0), Single("stages", JObj(SeededFrom(0)))),
      Field("selected", JList([]), Single("generated", JList([]))),
      InitialStatistics)
  }

  /** `model_dump()`: the record as a dict, fields in declaration order. */
  function Dump(st: ProjectState): Json {
    JObj(Field("version", JStr(st.version),
         Field("project_name", JStr(st.projectName),
         Field("created_at", JStr(st.createdAt),
         Field("updated_at", JStr(st.updatedAt),
         Field("config", JObj(st.config),
         Field("input", JObj(st.input),
         Field("pipeline", JObj(st.pipeline),
         Field("materials", JObj(st.materials),
         Single("statistics", JObj(st.statistics)))))))))))
  }

  const DictFieldNames: seq<string> := ["config", "input", "pipeline", "materials", "statistics"]

  /** A text field: present as a string, or absent with a default. */
  function TextField(f: Fields, k: string, default: Option<string>): (r: Result<string>)
    ensures r.Ok? <==> (match Lookup(f, k) case Some(v) => v.JStr? case None => default.Some?)
    ensures r.Ok? ==> r.value == (match Lookup(f, k) case Some(v) => v.s case None => default.value)
  {
    match Lookup(f, k)
    case Some(JStr(s)) => Ok(s)
    case Some(_) => Err(Error(ValidationError, "1 validation error for ProjectState\n" + k + "\n  Input should be a valid string"))
    case None =>
      if default.Some? then Ok(default.value)
      else Err(Error(ValidationError, "1 validation error for ProjectState\n" + k + "\n  Field required"))
  }

  /** A dict field: present as a dict, or absent and empty. */
  function DictField(f: Fields, k: string): (r: Result<Fields>)
    ensures r.Ok? <==> (match Lookup(f, k) case Some(v) => v.JObj? case None => true)
    ensures r.Ok? ==> JObj(r.value) == Lookup(f, k).GetOr(JObj(NoFields))
  {
    match Lookup(f, k)
    case Some(JObj(d)) => Ok(d)
    case Some(_) => Err(Error(ValidationError, "1 validation error for ProjectState\n" + k + "\n  Input should be a valid dictionary"))
    case None => Ok(NoFields)
  }

  /** `ProjectState(**obj)`: required texts must be present, dict fields
      that are present must be dicts, other keys are ignored. */
  function FromTree(j: Json): Result<ProjectState>
  {
    if !j.JObj? then Err(Error(TypeError, "argument after ** must be a mapping, not " + TypeName(j)))
    else
      var f := j.fields;
      var version :- TextField(f, "version", Some("1.0"));
      var name :- TextField(f, "project_name", None);
      var created :- TextField(f, "created_at", None);
      var updated :- TextField(f, "updated_at", None);
      var config :- DictField(f, "config");
      var input :- DictField(f, "input");
      var pipeline :- DictField(f, "pipeline");
      var materials :- DictField(f, "materials");
      var statistics :- DictField(f, "statistics");
      Ok(ProjectState(version, name, created, updated, config, input, pipeline, materials, statistics))
  }

  /** Rebuilding a record from its own dump gives the record back. */
  lemma FromTreeOfDump(st: ProjectState)
    ensures FromTree(Dump(st)) == Ok(st)
  {
    LookupFields();
  }

  /** A dict field of a rebuilt record is what the tree held under that
      name, or an empty dict. */
  lemma FromTreeDictField(j: Json, st: ProjectState, k: string)
    requires FromTree(j) == Ok(st) && k in DictFieldNames
    ensures j.JObj?
    ensures Lookup(Dump(st).fields, k) == Some(Lookup(j.fields, k).GetOr(JObj(NoFields)))
  {
    DumpDictFields(st);
    FromTreeParts(j, st);
  }

  lemma FromTreeParts(j: Json, st: ProjectState)
    requires FromTree(j) == Ok(st)
    ensures j.JObj?
    ensures DictField(j.fields, "config") == Ok(st.config)
    ensures DictField(j.fields, "input") == Ok(st.input)
    ensures DictField(j.fields, "pipeline") == Ok(st.pipeline)
    ensures DictField(j.fields, "materials") == Ok(st.materials)
    ensures DictField(j.fields, "statistics") == Ok(st.statistics)
  {}

  lemma DumpDictFields(st: ProjectState)
    ensures Lookup(Dump(st).fields, "config") == Some(JObj(st.config))
    ensures Lookup(Dump(st).fields, "input") == Some(JObj(st.input))
    ensures Lookup(Dump(st).fields, "pipeline") == Some(JObj(st.pipeline))
    ensures Lookup(Dump(st).fields, "materials") == Some(JObj(st.materials))
    ensures Lookup(Dump(st).fields, "statistics") == Some(JObj(st.statistics))
  {
    LookupFields();
  }

  /** What `load` makes of the state file: the record, or None when the
      file is missing, is not JSON, or does not validate. */
  function Loaded(files: map<string, string>, path: string, codec: Codec): Option<ProjectState> {
    if path !in files then None
    else match codec.loads(files[path])
      case None => None
      case Some(data) =>
        match FromTree(data)
        case Ok(st) => Some(st)
        case Err(_) => None
  }

  /** Saving and loading back give the saved record, when the codec reads
      what it writes. */
  lemma SaveThenLoad(files: map<string, string>, path: string, codec: Codec, st: ProjectState)
    requires RoundTrips(codec)
    ensures Loaded(files[path := codec.dumps(Dump(st))], path, codec) == Some(st)
  {
    assert codec.loads(codec.dumps(Dump(st))) == Some(Dump(st));
    FromTreeOfDump(st);
  }

  // ---------------------------------------------------------------------
  // Reading records

  /** The stage records, when `pipeline["stages"]` is a dict. */
  function StagesOf(st: ProjectState): Option<Fields> {
    match Lookup(st.pipeline, "stages")
    case Some(JObj(recs)) => Some(recs)
    case _ => None
  }

  /** The record stored under `key`, when there is one. */
  function RecordOf(st: ProjectState, key: string): Option<Json> {
    match StagesOf(st)
    case Some(recs) => Lookup(recs, key)
    case None => None
  }

  /** `pipeline.get("current_stage", 0)`. */
  function CurrentStage(st: ProjectState): Json {
    Lookup(st.pipeline, "current_stage").GetOr(JInt(0))
  }

  /** `get_stage_status(key)`: the record's "status", None (JNull) when the
      record or its status is missing. */
  function StageStatus(st: ProjectState, key: string): (r: Result<Json>)
    ensures StagesOf(st).Some? && RecordOf(st, key).None? ==> r == Ok(JNull)
    ensures StagesOf(st).Some? && RecordOf(st, key).Some? && RecordOf(st, key).value.JObj? ==>
              r == Ok(Lookup(RecordOf(st, key).value.fields, "status").GetOr(JNull))
    ensures !HasKey(st.pipeline, "stages") ==> r == Err(Error(KeyError, "'stages'"))
  {
    var stages :- Subscript(JObj(st.pipeline), "stages");
    var rec :- DictGet(stages, key, JObj(NoFields));
    DictGet(rec, "status", JNull)
  }

  /** `can_run_stage(n)` for a given last completed stage: stage 1 always,
      any other stage once `current_stage >= n - 1`. */
  function CanRun(current: Json, n: int): (r: Result<bool>)
    ensures n == 1 ==> r == Ok(true)
    ensures n != 1 && current.JInt? ==> r == Ok(current.i >= n - 1)
    ensures r.Err? <==> n != 1 && !IsNumber(current)
  {
    if n == 1 then Ok(true) else AtLeast(current, n - 1)
  }

  // ---------------------------------------------------------------------
  // update_stage

  /** The record after `update_stage` on a dict record: the status, the
      start stamp when the record had none, the completion stamp, then the
      extra fields. */
  function RecordAfter(rec: Fields, status: string, extra: Fields, now: string): Fields {
    var withStatus := Put(rec, "status", JStr(status));
    var started :=
      if status == "in_progress" && !Truthy(Lookup(withStatus, "started_at").GetOr(JNull))
      then Put(withStatus, "started_at", JStr(now)) else withStatus;
    var completed := if status == "completed" then Put(started, "completed_at", JStr(now)) else started;
    PutAll(completed, extra)
  }

  /** The record with its stages dict replaced; nothing else changes. */
  function WithStages(st: ProjectState, recs: Fields): (r: ProjectState)
    ensures StagesOf(r) == Some(recs)
    ensures Lookup(r.pipeline, "current_stage") == Lookup(st.pipeline, "current_stage")
    ensures r.(pipeline := st.pipeline) == st
  {
    st.(pipeline := Put(st.pipeline, "stages", JObj(recs)))
  }

  /** The stages dict and the record `update_stage` changes, or what that
      raises: a missing "stages" entry, a stages value without `.get`, or
      a record that does not take item assignment. */
  function Target(st: ProjectState, key: string, status: string): (r: Result<(Fields, Fields)>)
    ensures r.Ok? <==> StagesOf(st).Some? && (RecordOf(st, key).None? || RecordOf(st, key).value.JObj?)
    ensures r.Ok? ==> r.value.0 == StagesOf(st).value
    ensures r.Ok? ==> r.value.1 == if RecordOf(st, key).Some? then RecordOf(st, key).value.fields else NoFields
    ensures RecordOf(st, key).Some? && !RecordOf(st, key).value.JObj? ==> r.Err? && r.error.kind == TypeError
  {
    var stages :- Subscript(JObj(st.pipeline), "stages");
    var record :- DictGet(stages, key, JObj(NoFields));
    var _ :- SetItem(record, "status", JStr(status));
    Ok((stages.fields, record.fields))
  }

  /** `update_stage(key, status, **extra)` on a record, before it is saved.
      The record changed is the stored one itself, so when the key's number
      does not parse, the changes to an existing record are already in
      place. */
  function UpdateStageStep(st: ProjectState, key: string, status: string, extra: Fields, now: string): Step {
    match Target(st, key, status)
    case Err(e) => Step(st, Some(e))
    case Ok((recs, rec)) =>
      var stored := Put(recs, key, JObj(RecordAfter(rec, status, extra, now)));
      var shared := if HasKey(recs, key) then WithStages(st, stored) else st;
      match KeyNumber(key)
      case Err(e) => Step(shared, Some(e))
      case Ok(num) =>
        var pipeline := if status == "completed" then Put(shared.pipeline, "current_stage", JInt(num)) else shared.pipeline;
        Step(WithStages(shared.(pipeline := pipeline), stored), None)
  }

  /** After a successful update the named record is the updated one and
      every other record is as before; an unknown key gets a fresh record. */
  lemma UpdateStageFrames(st: ProjectState, key: string, status: string, extra: Fields, now: string, other: string)
    requires StagesOf(st).Some?
    requires RecordOf(st, key).None? || RecordOf(st, key).value.JObj?
    requires KeyNumber(key).Ok?
    ensures var s := UpdateStageStep(st, key, status, extra, now);
      s.raised.None?
      && RecordOf(s.state, key) == Some(JObj(RecordAfter(
           if RecordOf(st, key).Some? then RecordOf(st, key).value.fields else NoFields, status, extra, now)))
      && (other != key ==> RecordOf(s.state, other) == RecordOf(st, other))
  {}

  /** Completing a stage sets `current_stage` to exactly the key's number,
      also when that is lower than before. */
  lemma CompletedSetsCurrentStage(st: ProjectState, key: string, extra: Fields, now: string)
    requires StagesOf(st).Some?
    requires RecordOf(st, key).None? || RecordOf(st, key).value.JObj?
    requires KeyNumber(key).Ok?
    ensures var s := UpdateStageStep(st, key, "completed", extra, now);
      s.raised.None? && CurrentStage(s.state) == JInt(KeyNumber(key).value)
  {}

  /** Any status but "completed" leaves `current_stage` alone, whether the
      update succeeds or raises. */
  lemma OtherStatusKeepsCurrentStage(st: ProjectState, key: string, status: string, extra: Fields, now: string)
    requires status != "completed"
    ensures CurrentStage(UpdateStageStep(st, key, status, extra, now).state) == CurrentStage(st)
  {}

  /** A record that is not a dict cannot take a status: the update raises
      and changes nothing. */
  lemma NonDictRecordRaises(st: ProjectState, key: string, status: string, extra: Fields, now: string)
    requires RecordOf(st, key).Some? && !RecordOf(st, key).value.JObj?
    ensures var s := UpdateStageStep(st, key, status, extra, now);
      s.state == st && s.raised.Some? && s.raised.value.kind == TypeError
  {}

  /** "completed" stamps `completed_at` unless an extra field gives it. */
  lemma CompletedStampsCompletion(rec: Fields, extra: Fields, now: string)
    requires !HasKey(extra, "completed_at")
    ensures Lookup(RecordAfter(rec, "completed", extra, now), "completed_at") == Some(JStr(now))
  {}

  /** The first "in_progress" update stamps `started_at`. */
  lemma FirstStartStamps(rec: Fields, extra: Fields, now: string)
    requires !Truthy(Lookup(rec, "started_at").GetOr(JNull))
    requires !HasKey(extra, "started_at")
    ensures Lookup(RecordAfter(rec, "in_progress", extra, now), "started_at") == Some(JStr(now))
  {}

  /** A later update, whatever its status, keeps a start stamp already
      there, unless an extra field gives it. */
  lemma StartStampKept(rec: Fields, status: string, extra: Fields, now: string)
    requires Truthy(Lookup(rec, "started_at").GetOr(JNull))
    requires !HasKey(extra, "started_at")
    ensures Lookup(RecordAfter(rec, status, extra, now), "started_at") == Lookup(rec, "started_at")
  {}

  /** The status given is the record's status, unless an extra field
      named "status" overrides it; extra fields end with their values. */
  lemma StatusAndExtraStored(rec: Fields, status: string, extra: Fields, now: string, k: string)
    requires UniqueKeys(extra)
    ensures !HasKey(extra, "status") ==> Lookup(RecordAfter(rec, status, extra, now), "status") == Some(JStr(status))
    ensures HasKey(extra, k) ==> Lookup(RecordAfter(rec, status, extra, now), k) == Lookup(extra, k)
  {
    if HasKey(extra, k) {
      var withStatus := Put(rec, "status", JStr(status));
      var started :=
        if status == "in_progress" && !Truthy(Lookup(withStatus, "started_at").GetOr(JNull))
        then Put(withStatus, "started_at", JStr(now)) else withStatus;
      var completed := if status == "completed" then Put(started, "completed_at", JStr(now)) else started;
      PutAllWins(completed, extra, k);
    }
  }

  /** An existing record is changed in place: even when the key's number
      does not parse and the update raises, the record already shows the
      changes. */
  lemma FailedUpdateKeepsChanges(st: ProjectState, key: string, status: string, extra: Fields, now: string)
    requires StagesOf(st).Some? && RecordOf(st, key).Some? && RecordOf(st, key).value.JObj?
    requires KeyNumber(key).Err?
    ensures var s := UpdateStageStep(st, key, status, extra, now);
      s.raised == Some(KeyNumber(key).error)
      && RecordOf(s.state, key) == Some(JObj(RecordAfter(RecordOf(st, key).value.fields, status, extra, now)))
  {}

  // ---------------------------------------------------------------------
  // update_statistics

  /** One round of `update_statistics`: a number is added to an existing
      counter, anything else replaces it, a missing key is inserted. */
  function Bump(stats: Fields, k: string, v: Json): Result<Fields> {
    if HasKey(stats, k) && IsNumber(v) then
      var sum :- AddNumber(Lookup(stats, k).value, v);
      Ok(Put(stats, k, sum))
    else Ok(Put(stats, k, v))
  }

  /** `update_statistics(**updates)`: the rounds in order; the loop stops
      at the first `+=` that raises, keeping what it did so far. */
  function StatisticsAfter(stats: Fields, updates: Fields): (Fields, Option<Error>)
    decreases updates
  {
    if updates.NoFields? then (stats, None)
    else
      match Bump(stats, updates.key, updates.val)
      case Err(e) => (stats, Some(e))
      case Ok(next) => StatisticsAfter(next, updates.rest)
  }

  /** Adding to an integer counter adds, and leaves every other counter. */
  lemma StatisticsAccumulate(stats: Fields, k: string, a: int, b: int, other: string)
    requires Lookup(stats, k) == Some(JInt(a))
    ensures var (after, raised) := StatisticsAfter(stats, Single(k, JInt(b)));
      raised.None? && Lookup(after, k) == Some(JInt(a + b))
      && (other != k ==> Lookup(after, other) == Lookup(stats, other))
  {}

  /** Two updates by `b` and `c` add `b + c`: the counters accumulate. */
  lemma StatisticsTwice(stats: Fields, k: string, a: int, b: int, c: int)
    requires Lookup(stats, k) == Some(JInt(a))
    ensures var once := StatisticsAfter(stats, Single(k, JInt(b))).0;
      var twice := StatisticsAfter(once, Single(k, JInt(c)));
      twice.1.None? && Lookup(twice.0, k) == Some(JInt(a + b + c))
  {
    StatisticsAccumulate(stats, k, a, b, k);
    var once := StatisticsAfter(stats, Single(k, JInt(b))).0;
    StatisticsAccumulate(once, k, a + b, c, k);
  }

  /** A value that is not a number replaces an existing counter, and a
      key not yet there is inserted with the value given. */
  lemma StatisticsReplaceOrInsert(stats: Fields, k: string, v: Json)
    requires !IsNumber(v) || !HasKey(stats, k)
    ensures StatisticsAfter(stats, Single(k, v)) == (Put(stats, k, v), None)
  {}

  /** Adding to a counter that is not a number raises a TypeError and
      changes nothing. */
  lemma StatisticsAddToText(stats: Fields, k: string, s: string, b: int)
    requires Lookup(stats, k) == Some(JStr(s))
    ensures StatisticsAfter(stats, Single(k, JInt(b))).0 == stats
    ensures StatisticsAfter(stats, Single(k, JInt(b))).1.Some?
    ensures StatisticsAfter(stats, Single(k, JInt(b))).1.value.kind == TypeError
  {}

  // ---------------------------------------------------------------------
  // Material lists

  /** `add_selected_material(id)` on the materials dict: the new dict, or
      None when the id is already selected and nothing changes. */
  function SelectedAfter(materials: Fields, id: string): Result<Option<Fields>> {
    var selected :- Subscript(JObj(materials), "selected");
    var present :- Contains(selected, id);
    if present then Ok(None)
    else
      var grown :- Append(selected, JStr(id));
      Ok(Some(Put(materials, "selected", grown)))
  }

  /** Selecting appends an id that is not selected yet, and only then. */
  lemma SelectAppendsNew(materials: Fields, items: seq<Json>, id: string)
    requires Lookup(materials, "selected") == Some(JList(items))
    ensures JStr(id) in items ==> SelectedAfter(materials, id) == Ok(None)
    ensures JStr(id) !in items ==>
      SelectedAfter(materials, id) == Ok(Some(Put(materials, "selected", JList(items + [JStr(id)]))))
  {}

  /** Selecting the same id twice is the same as selecting it once. */
  lemma SelectIdempotent(materials: Fields, items: seq<Json>, id: string)
    requires Lookup(materials, "selected") == Some(JList(items))
    requires SelectedAfter(materials, id).Ok? && SelectedAfter(materials, id).value.Some?
    ensures SelectedAfter(SelectedAfter(materials, id).value.value, id) == Ok(None)
  {
    var after := SelectedAfter(materials, id).value.value;
    assert Lookup(after, "selected") == Some(JList(items + [JStr(id)]));
    assert (items + [JStr(id)])[|items|] == JStr(id);
  }

  /** A selected list without repeats keeps none after a selection. */
  lemma SelectKeepsDistinct(materials: Fields, items: seq<Json>, id: string)
    requires Lookup(materials, "selected") == Some(JList(items))
    requires forall i, j :: 0 <= i < j < |items| ==> items[i] != items[j]
    requires SelectedAfter(materials, id).Ok? && SelectedAfter(materials, id).value.Some?
    ensures var grown := items + [JStr(id)];
      Lookup(SelectedAfter(materials, id).value.value, "selected") == Some(JList(grown))
      && forall i, j :: 0 <= i < j < |grown| ==> grown[i] != grown[j]
  {}

  /** The record `add_generated_material` appends. */
  function GeneratedRecord(id: string, file: string, now: string): Json {
    JObj(Field("id", JStr(id), Field("file", JStr(file), Single("generated_at", JStr(now)))))
  }

  /** `add_generated_material(id, file)` on the materials dict. */
  function GeneratedAfter(materials: Fields, id: string, file: string, now: string): Result<Fields> {
    var generated :- Subscript(JObj(materials), "generated");
    var grown :- Append(generated, GeneratedRecord(id, file, now));
    Ok(Put(materials, "generated", grown))
  }

  /** A generated record goes at the end; earlier records stay, and so
      does the selected list. */
  lemma GeneratedAppends(materials: Fields, items: seq<Json>, id: string, file: string, now: string)
    requires Lookup(materials, "generated") == Some(JList(items))
    ensures GeneratedAfter(materials, id, file, now).Ok?
    ensures var after := GeneratedAfter(materials, id, file, now).value;
      Lookup(after, "generated") == Some(JList(items + [GeneratedRecord(id, file, now)]))
      && Lookup(after, "selected") == Lookup(materials, "selected")
  {}

  // ---------------------------------------------------------------------
  // get / set by dotted path

  /** The value `get` finds by walking `keys` through nested dicts, or
      `default` as soon as a step is not a dict holding the key. */
  function GetPath(obj: Json, keys: seq<string>, default: Json): Json
    decreases |keys|
  {
    if |keys| == 0 then obj
    else if obj.JObj? && HasKey(obj.fields, keys[0]) then GetPath(Lookup(obj.fields, keys[0]).value, keys[1..], default)
    else default
  }

  /** `set`'s walk: each missing key on the way gets an empty dict, then the
      last key is assigned. Changes made through the nested dicts show in
      the outer one, which this states by assigning the changed child back. */
  function PutPath(parent: Json, keys: seq<string>, value: Json): (r: Result<Json>)
    requires |keys| >= 1
    ensures r.Ok? ==> parent.JObj? && r.value.JObj?
    decreases |keys|
  {
    if |keys| == 1 then SetItem(parent, keys[0], value)
    else
      var present :- Contains(parent, keys[0]);
      var withChild :- if present then Ok(parent) else SetItem(parent, keys[0], JObj(NoFields));
      var child :- Subscript(withChild, keys[0]);
      var newChild :- PutPath(child, keys[1..], value);
      SetItem(withChild, keys[0], newChild)
  }

  /** What `set` placed is what `get` finds on the same path. */
  lemma {:induction false} PutPathThenGetPath(parent: Json, keys: seq<string>, value: Json, default: Json)
    requires |keys| >= 1 && PutPath(parent, keys, value).Ok?
    ensures GetPath(PutPath(parent, keys, value).value, keys, default) == value
    decreases |keys|
  {
    if |keys| > 1 {
      var present := Contains(parent, keys[0]).value;
      var withChild := (if present then Ok(parent) else SetItem(parent, keys[0], JObj(NoFields))).value;
      var child := Subscript(withChild, keys[0]).value;
      PutPathThenGetPath(child, keys[1..], value, default);
    }
  }

  /** Keys beside the path's first key are left alone. */
  lemma PutPathKeepsSiblings(parent: Json, keys: seq<string>, value: Json, other: string)
    requires |keys| >= 1 && PutPath(parent, keys, value).Ok? && other != keys[0]
    ensures parent.JObj?
    ensures Lookup(PutPath(parent, keys, value).value.fields, other) == Lookup(parent.fields, other)
  {
    if |keys| > 1 {
      var present := Contains(parent, keys[0]).value;
      var withChild := (if present then Ok(parent) else SetItem(parent, keys[0], JObj(NoFields))).value;
      assert Lookup(withChild.fields, other) == Lookup(parent.fields, other);
    }
  }

  /** `set(path, value)` on a record: walk the dump, then rebuild and
      validate the record. */
  function SetPath(st: ProjectState, path: string, value: Json): Result<ProjectState> {
    var tree :- PutPath(Dump(st), Text.Split(path, '.'), value);
    FromTree(tree)
  }

  /** A value set under one of the dict fields (a path of two or more keys
      starting with "config", "input", "pipeline", "materials" or
      "statistics") is found there by `get`. */
  lemma SetThenGet(st: ProjectState, path: string, value: Json, default: Json)
    requires SetPath(st, path, value).Ok?
    requires |Text.Split(path, '.')| >= 2 && Text.Split(path, '.')[0] in DictFieldNames
    ensures GetPath(Dump(SetPath(st, path, value).value), Text.Split(path, '.'), default) == value
  {
    var keys := Text.Split(path, '.');
    var tree := PutPath(Dump(st), keys, value).value;
    var st' := SetPath(st, path, value).value;
    PutPathThenGetPath(Dump(st), keys, value, default);
    FromTreeDictField(tree, st', keys[0]);
  }

  // ---------------------------------------------------------------------
  // The well-formed records the program itself produces

  /** Every value of the dict is a dict. */
  predicate AllDicts(fs: Fields) {
    fs.NoFields? || (fs.val.JObj? && AllDicts(fs.rest))
  }

  lemma {:induction false} AllDictsLookup(fs: Fields, k: string)
    requires AllDicts(fs) && HasKey(fs, k)
    ensures Lookup(fs, k).value.JObj?
  {
    if fs.key != k {
      AllDictsLookup(fs.rest, k);
    }
  }

  lemma {:induction false} AllDictsPut(fs: Fields, k: string, v: Json)
    requires AllDicts(fs) && v.JObj?
    ensures AllDicts(Put(fs, k, v))
  {
    if fs.Field? && fs.key != k {
      AllDictsPut(fs.rest, k, v);
    }
  }

  /** The value under `k` is an integer. */
  predicate IntAt(fs: Fields, k: string) {
    Lookup(fs, k).Some? && Lookup(fs, k).value.JInt?
  }

  /** The value under `k` is a list. */
  predicate ListAt(fs: Fields, k: string) {
    Lookup(fs, k).Some? && Lookup(fs, k).value.JList?
  }

  /** Stage records are dicts under a dict `pipeline["stages"]`,
      `current_stage` is an integer, both material lists are lists and the
      two counters the stages add to are integers. */
  predicate WellFormed(st: ProjectState) {
    && StagesOf(st).Some? && AllDicts(StagesOf(st).value)
    && IntAt(st.pipeline, "current_stage")
    && ListAt(st.materials, "selected") && ListAt(st.materials, "generated")
    && IntAt(st.statistics, "total_tokens_used") && IntAt(st.statistics, "total_api_calls")
  }

  /** A new project's record is well formed, as described: ten pending
      records, stage 0, empty material lists, zero counters. */
  lemma InitialStateFacts(name: string, config: Fields, now: string)
    ensures WellFormed(InitialState(name, config, now))
    ensures var st := InitialState(name, config, now);
      var ks := Keys(StagesOf(st).value);
      && |ks| == |StageNames| && (forall i :: 0 <= i < |ks| ==> ks[i] == SeededKey(i))
      && (forall k :: HasKey(StagesOf(st).value, k) ==> Lookup(StagesOf(st).value, k) == Some(PendingRecord))
      && CurrentStage(st) == JInt(0)
      && Lookup(st.materials, "selected") == Some(JList([]))
      && Lookup(st.materials, "generated") == Some(JList([]))
  {
    var st := InitialState(name, config, now);
    assert StagesOf(st) == Some(SeededFrom(0));
    InitialKeys();
    SeededFromDicts(0);
    forall k | HasKey(SeededFrom(0), k) ensures Lookup(SeededFrom(0), k) == Some(PendingRecord) {
      SeededFromPending(0, k);
    }
  }

  /** A successful update leaves the materials and the statistics alone,
      stores the updated record under its key and moves `current_stage`
      only on "completed". */
  lemma UpdateStageOk(st: ProjectState, key: string, status: string, extra: Fields, now: string)
    requires Target(st, key, status).Ok? && KeyNumber(key).Ok?
    ensures var s := UpdateStageStep(st, key, status, extra, now);
      var (recs, rec) := Target(st, key, status).value;
      && s.raised.None?
      && s.state.materials == st.materials && s.state.statistics == st.statistics
      && StagesOf(s.state) == Some(Put(recs, key, JObj(RecordAfter(rec, status, extra, now))))
      && Lookup(s.state.pipeline, "current_stage") ==
           if status == "completed" then Some(JInt(KeyNumber(key).value)) else Lookup(st.pipeline, "current_stage")
  {}

  /** On a well-formed record, an update whose key names a number succeeds
      and keeps the record well formed. */
  lemma UpdateStageKeepsWellFormed(st: ProjectState, key: string, status: string, extra: Fields, now: string)
    requires WellFormed(st) && KeyNumber(key).Ok?
    ensures UpdateStageStep(st, key, status, extra, now).raised.None?
    ensures WellFormed(UpdateStageStep(st, key, status, extra, now).state)
  {
    var recs := StagesOf(st).value;
    if HasKey(recs, key) {
      AllDictsLookup(recs, key);
    }
    var rec := Target(st, key, status).value.1;
    AllDictsPut(recs, key, JObj(RecordAfter(rec, status, extra, now)));
    UpdateStageOk(st, key, status, extra, now);
  }

  /** The counters a stage adds to never make the update raise on a
      well-formed record; they grow by the tokens used and by one call,
      and the record stays well formed. */
  lemma CountersKeepWellFormed(st: ProjectState, tokens: int)
    requires WellFormed(st)
    ensures var (stats, raised) := StatisticsAfter(st.statistics,
        Field("total_tokens_used", JInt(tokens), Single("total_api_calls", JInt(1))));
      raised.None? && WellFormed(st.(statistics := stats))
      && Lookup(stats, "total_tokens_used") == Some(JInt(Lookup(st.statistics, "total_tokens_used").value.i + tokens))
      && Lookup(stats, "total_api_calls") == Some(JInt(Lookup(st.statistics, "total_api_calls").value.i + 1))
  {
    var a := Lookup(st.statistics, "total_tokens_used").value.i;
    var once := Put(st.statistics, "total_tokens_used", JInt(a + tokens));
    assert Bump(st.statistics, "total_tokens_used", JInt(tokens)) == Ok(once);
  }

  /** The statements of `update_stage` that change the record: the status,
      the stamps, then the extra fields one by one. */
  method ApplyUpdate(record: Fields, status: string, extra: Fields, now: string) returns (rec: Fields)
    ensures rec == RecordAfter(record, status, extra, now)
  {
    rec := Put(record, "status", JStr(status));
    if status == "in_progress" && !Truthy(Lookup(rec, "started_at").GetOr(JNull)) {
      rec := Put(rec, "started_at", JStr(now));
    }
    if status == "completed" {
      rec := Put(rec, "completed_at", JStr(now));
    }
    ghost var before := rec;
    var rest := extra;
    while rest.Field?
      invariant PutAll(rec, rest) == PutAll(before, extra)
      decreases rest
    {
      rec := Put(rec, rest.key, rest.val);
      rest := rest.rest;
    }
  }

  /** The directories `create_new` makes: the project directory (as a
      parent) and everything under it. */
  function ProjectDirs(dir: string): (r: set<string>)
    ensures dir in r && PathJoin(dir, "prompts") in r
  {
    {dir, PathJoin(dir, "input"), PathJoin(dir, "stages"), PathJoin(dir, "stages/05_sections"),
     PathJoin(dir, "output"), PathJoin(dir, "output/materials"), PathJoin(dir, "prompts")}
  }

  /** The seeding loop of `create_new`: one pending record per stage name,
      keyed by its number from 1 and its name. */
  method SeedStages() returns (stages: Fields)
    ensures stages == SeededFrom(0)
  {
    stages := NoFields;
    var i := 0;
    while i < |StageNames|
      invariant 0 <= i <= |StageNames|
      invariant stages == Seeded(i)
    {
      SeededFresh(i);
      PutNewKey(stages, SeededKey(i), PendingRecord);
      stages := Put(stages, Text.NatToString(i + 1) + "_" + StageNames[i], PendingRecord);
      i := i + 1;
    }
    SeededIsInitial(i);
  }

  // ---------------------------------------------------------------------
  // The store object

  class StateManager {
    const projectDir: string
    const stateFile: string
    const fs: FileSystem
    const codec: Codec
    var state: Option<ProjectState>

    constructor(projectDir: string, fs: FileSystem, codec: Codec)
      ensures this.projectDir == projectDir && this.fs == fs && this.codec == codec
      ensures stateFile == PathJoin(projectDir, "state.json")
      ensures state == None
    {
      this.projectDir := projectDir;
      this.stateFile := PathJoin(projectDir, "state.json");
      this.fs := fs;
      this.codec := codec;
      this.state := None;
    }

    /** `load()`: on success the record becomes the current state; on any
        failure the current state is left as it was. */
    method Load() returns (r: Option<ProjectState>)
      modifies this`state
      ensures r == Loaded(fs.files, stateFile, codec)
      ensures state == if r.Some? then r else old(state)
    {
      r := Loaded(fs.files, stateFile, codec);
      if r.Some? {
        state := r;
      }
    }

    /** `save()`: stamp `updated_at` and write the dump to the state file;
        nothing without a state. */
    method Save(now: string)
      modifies this`state, fs`files
      ensures state == if old(state).Some? then Some(old(state).value.(updatedAt := now)) else None
      ensures fs.files == if old(state).Some? then old(fs.files)[stateFile := codec.dumps(Dump(state.value))] else old(fs.files)
    {
      if state.Some? {
        state := Some(state.value.(updatedAt := now));
        fs.WriteText(stateFile, codec.dumps(Dump(state.value)));
      }
    }

    /** `create_new(name, config)`: seed the ten stage records, make the
        project's directories and save. */
    method CreateNew(name: string, config: Fields, now: string) returns (st: ProjectState)
      modifies this`state, fs
      ensures st == InitialState(name, config, now) && state == Some(st)
      ensures fs.files == old(fs.files)[stateFile := codec.dumps(Dump(st))]
      ensures fs.dirs == old(fs.dirs) + ProjectDirs(projectDir)
    {
      var stages := SeedStages();
      state := Some(ProjectState("1.0", name, now, now, config, NoFields,
        Field("current_stage", JInt(0), Single("stages", JObj(stages))),
        Field("selected", JList([]), Single("generated", JList([]))),
        InitialStatistics));
      assert state == Some(InitialState(name, config, now));
      MakeDirs();
      assert fs.files == old(fs.files);
      Save(now);
      st := state.value;
    }

    /** The directory part of `create_new`: every `mkdir(parents=True,
        exist_ok=True)` call. */
    method MakeDirs()
      modifies fs`dirs
      ensures fs.dirs == old(fs.dirs) + ProjectDirs(projectDir)
    {
      fs.Mkdir(projectDir);
      fs.Mkdir(PathJoin(projectDir, "input"));
      fs.Mkdir(PathJoin(projectDir, "stages"));
      fs.Mkdir(PathJoin(projectDir, "stages/05_sections"));
      fs.Mkdir(PathJoin(projectDir, "output"));
      fs.Mkdir(PathJoin(projectDir, "output/materials"));
      fs.Mkdir(PathJoin(projectDir, "prompts"));
    }

    /** `update_stage(key, status, **extra)`. Without a state nothing
        happens; otherwise the record changes as `UpdateStageStep` says and
        is saved unless the update raised. */
    method UpdateStage(key: string, status: string, extra: Fields, now: string) returns (r: Result<()>)
      modifies this`state, fs`files
      ensures old(state).None? ==> r == Ok(()) && state == None && fs.files == old(fs.files)
      ensures old(state).Some? ==>
        var s := UpdateStageStep(old(state).value, key, status, extra, now);
        r == s.Outcome()
        && state == Some(if r.Ok? then s.state.(updatedAt := now) else s.state)
        && fs.files == if r.Ok? then old(fs.files)[stateFile := codec.dumps(Dump(state.value))] else old(fs.files)
    {
      if state.None? {
        return Ok(());
      }
      var st := state.value;
      var t := Target(st, key, status);
      if t.Err? { return Err(t.error); }
      var recs := t.value.0;
      var rec := ApplyUpdate(t.value.1, status, extra, now);
      var stored := Put(recs, key, JObj(rec));
      if HasKey(recs, key) {
        state := Some(WithStages(st, stored));
      }
      var num :- KeyNumber(key);
      if status == "completed" {
        state := Some(state.value.(pipeline := Put(state.value.pipeline, "current_stage", JInt(num))));
      }
      state := Some(WithStages(state.value, stored));
      Save(now);
      return Ok(());
    }

    /** `get_stage_status(key)`; None (JNull) without a state. */
    function GetStageStatus(key: string): (r: Result<Json>)
      reads this
      ensures state.None? ==> r == Ok(JNull)
    {
      if state.None? then Ok(JNull) else StageStatus(state.value, key)
    }

    /** `get_last_completed_stage()`: `current_stage`, 0 without a state. */
    function GetLastCompletedStage(): (r: Json)
      reads this
      ensures state.None? ==> r == JInt(0)
      ensures state.Some? && HasKey(state.value.pipeline, "current_stage") ==>
        r == Lookup(state.value.pipeline, "current_stage").value
    {
      if state.None? then JInt(0) else CurrentStage(state.value)
    }

    /** `can_run_stage(n)`. */
    function CanRunStage(n: int): (r: Result<bool>)
      reads this
      ensures n == 1 ==> r == Ok(true)
      ensures state.None? ==> r == Ok(n <= 1)
      ensures state.Some? && WellFormed(state.value) ==>
        r == Ok(n == 1 || Lookup(state.value.pipeline, "current_stage").value.i >= n - 1)
    {
      CanRun(GetLastCompletedStage(), n)
    }

    /** `update_statistics(**updates)`: the loop over the updates, then a
        save; when a `+=` raises, the counters changed so far are kept and
        nothing is saved. */
    method UpdateStatistics(updates: Fields, now: string) returns (r: Result<()>)
      modifies this`state, fs`files
      ensures old(state).None? ==> r == Ok(()) && state == None && fs.files == old(fs.files)
      ensures old(state).Some? ==>
        var (stats, raised) := StatisticsAfter(old(state).value.statistics, updates);
        (raised.None? ==> r == Ok(())) && (raised.Some? ==> r == Err(raised.value))
        && state == Some(if r.Ok? then old(state).value.(statistics := stats, updatedAt := now)
                         else old(state).value.(statistics := stats))
        && fs.files == if r.Ok? then old(fs.files)[stateFile := codec.dumps(Dump(state.value))] else old(fs.files)
    {
      if state.None? {
        return Ok(());
      }
      var stats := state.value.statistics;
      var rest := updates;
      while rest.Field?
        invariant state == old(state) && fs.files == old(fs.files)
        invariant StatisticsAfter(stats, rest) == StatisticsAfter(old(state).value.statistics, updates)
        decreases rest
      {
        var k, v := rest.key, rest.val;
        if HasKey(stats, k) {
          if IsNumber(v) {
            var sum := AddNumber(Lookup(stats, k).value, v);
            if sum.Err? {
              state := Some(state.value.(statistics := stats));
              return Err(sum.error);
            }
            stats := Put(stats, k, sum.value);
          } else {
            stats := Put(stats, k, v);
          }
        } else {
          stats := Put(stats, k, v);
        }
        rest := rest.rest;
      }
      state := Some(state.value.(statistics := stats));
      Save(now);
      return Ok(());
    }

    /** `add_selected_material(id)`: appended and saved only when not yet
        selected. */
    method AddSelectedMaterial(id: string, now: string) returns (r: Result<()>)
      modifies this`state, fs`files
      ensures old(state).None? ==> r == Ok(()) && state == None && fs.files == old(fs.files)
      ensures old(state).Some? ==>
        var after := SelectedAfter(old(state).value.materials, id);
        (r.Ok? <==> after.Ok?)
        && (after.Err? ==> r == Err(after.error))
        && (after.Ok? && after.value.Some? ==>
              state == Some(old(state).value.(materials := after.value.value, updatedAt := now))
              && fs.files == old(fs.files)[stateFile := codec.dumps(Dump(state.value))])
        && (after.Err? || after.value.None? ==> state == old(state) && fs.files == old(fs.files))
    {
      if state.None? {
        return Ok(());
      }
      var selected :- Subscript(JObj(state.value.materials), "selected");
      var present :- Contains(selected, id);
      if !present {
        var grown :- Append(selected, JStr(id));
        state := Some(state.value.(materials := Put(state.value.materials, "selected", grown)));
        Save(now);
      }
      return Ok(());
    }

    /** `add_generated_material(id, file)`: one record appended, then saved. */
    method AddGeneratedMaterial(id: string, file: string, now: string) returns (r: Result<()>)
      modifies this`state, fs`files
      ensures old(state).None? ==> r == Ok(()) && state == None && fs.files == old(fs.files)
      ensures old(state).Some? ==>
        var after := GeneratedAfter(old(state).value.materials, id, file, now);
        (r.Ok? <==> after.Ok?)
        && (after.Err? ==> r == Err(after.error) && state == old(state) && fs.files == old(fs.files))
        && (after.Ok? ==>
              r == Ok(()) && state == Some(old(state).value.(materials := after.value, updatedAt := now))
              && fs.files == old(fs.files)[stateFile := codec.dumps(Dump(state.value))])
    {
      if state.None? {
        return Ok(());
      }
      var generated :- Subscript(JObj(state.value.materials), "generated");
      var grown :- Append(generated, GeneratedRecord(id, file, now));
      state := Some(state.value.(materials := Put(state.value.materials, "generated", grown)));
      Save(now);
      return Ok(());
    }

    /** `get(path, default)`: the loop over the dotted path. */
    method Get(path: string, default: Json) returns (r: Json)
      ensures r == if state.None? then default else GetPath(Dump(state.value), Text.Split(path, '.'), default)
    {
      if state.None? {
        return default;
      }
      var keys := Text.Split(path, '.');
      var obj := Dump(state.value);
      var i := 0;
      while i < |keys|
        invariant 0 <= i <= |keys|
        invariant GetPath(obj, keys[i..], default) == GetPath(Dump(state.value), keys, default)
      {
        assert keys[i..][1..] == keys[i + 1..];
        if obj.JObj? && HasKey(obj.fields, keys[i]) {
          obj := Lookup(obj.fields, keys[i]).value;
        } else {
          return default;
        }
        i := i + 1;
      }
      return obj;
    }

    /** `set(path, value)`: on success the rebuilt record replaces the state
        and is saved; a walk or validation error leaves the state alone. */
    method Set(path: string, value: Json, now: string) returns (r: Result<()>)
      modifies this`state, fs`files
      ensures old(state).None? ==> r == Ok(()) && state == None && fs.files == old(fs.files)
      ensures old(state).Some? ==>
        var after := SetPath(old(state).value, path, value);
        (r.Ok? <==> after.Ok?)
        && (after.Err? ==> r == Err(after.error) && state == old(state) && fs.files == old(fs.files))
        && (after.Ok? ==>
              state == Some(after.value.(updatedAt := now))
              && fs.files == old(fs.files)[stateFile := codec.dumps(Dump(state.value))])
    {
      if state.None? {
        return Ok(());
      }
      var tree :- PutPath(Dump(state.value), Text.Split(path, '.'), value);
      var rebuilt :- FromTree(tree);
      state := Some(rebuilt);
      Save(now);
      return Ok(());
    }
  }
}
