/** Stage 10, `GenerateStage`: one marketing material per selected id,
    each from the article and its analysis, each with the prompt its
    catalog entry names. */
module Generate {
  import opened Wrappers
  import opened Json
  import opened Py
  import opened Storage
  import Text
  import Prompts
  import Llm
  import StateStore
  import Base
  import Select
  import opened Runs

  const ArticleFile := "07_edited.md"
  const AnalysisFile := "08_analysis.md"

  /** The stage's declared attributes. */
  const Info := Base.StageInfo(10, "10_generate", "Генерация материалов", [ArticleFile, AnalysisFile], "output/materials/")

  /** Where the materials go, under the project's output directory. */
  const MaterialsDir := "materials"

  const ArticleHeading := "## Исходная статья\n\n"
  const AnalysisHeading := "\n\n## Результаты маркетингового анализа\n\n"

  /** The request text, the same for every material: the article under its
      heading, then the analysis under its own. */
  function Content(article: string, analysis: string): string {
    ArticleHeading + article + AnalysisHeading + analysis + "\n"
  }

  /** The request starts with the article's heading and the article; the
      analysis's heading follows, then the analysis up to the final
      newline. */
  lemma ContentLayout(article: string, analysis: string)
    ensures var c := Content(article, analysis);
      var i := |ArticleHeading| + |article|;
      && |c| == i + |AnalysisHeading| + |analysis| + 1
      && c[..|ArticleHeading|] == ArticleHeading && c[|ArticleHeading|..i] == article
      && c[i..i + |AnalysisHeading|] == AnalysisHeading
      && c[i + |AnalysisHeading|..|c| - 1] == analysis && c[|c| - 1] == '\n'
  {
    var c := Content(article, analysis);
    assert c == ArticleHeading + article + AnalysisHeading + analysis + "\n";
  }

  /** `MATERIAL_TYPES[material_id]` for an item of the selection: a string
      the catalog lacks raises KeyError with its repr; a list or a dict is
      not hashable; any other value is no key of the catalog. */
  function MaterialOf(codec: Codec, item: Json): (r: Result<Select.Material>)
    ensures r.Ok? <==> item.JStr? && Select.Known(item.s)
    ensures r.Ok? ==> r == Ok(Select.Find(item.s).value)
    ensures item.JStr? && !Select.Known(item.s) ==> r == Err(Error(KeyError, QuoteKey(item.s)))
  {
    match item
    case JStr(id) =>
      (match Select.Find(id)
       case None => Err(Error(KeyError, QuoteKey(id)))
       case Some(m) => Ok(m))
    case JList(_) => Err(Error(TypeError, "unhashable type: '" + TypeName(item) + "'"))
    case JObj(_) => Err(Error(TypeError, "unhashable type: '" + TypeName(item) + "'"))
    case _ => Err(Error(KeyError, Str(codec, item)))
  }

  /** The path recorded for a material: relative to the project. */
  function RecordedFile(m: Select.Material): string {
    "output/" + MaterialsDir + "/" + m.outputFile
  }

  /** `add_generated_material(id, file)` on the store's current state. */
  function Recorded(st: Option<StateStore.ProjectState>, id: string, file: string, now: string)
    : (r: (Option<StateStore.ProjectState>, Result<()>))
    ensures st.None? ==> r == (None, Ok(()))
    ensures st.Some? ==>
      var after := StateStore.GeneratedAfter(st.value.materials, id, file, now);
      && (after.Err? ==> r == (st, Err(after.error)))
      && (after.Ok? ==> r == (Some(st.value.(materials := after.value, updatedAt := now)), Ok(())))
  {
    if st.None? then (None, Ok(()))
    else match StateStore.GeneratedAfter(st.value.materials, id, file, now)
      case Err(e) => (st, Err(e))
      case Ok(materials) => (Some(st.value.(materials := materials, updatedAt := now)), Ok(()))
  }

  // ---------------------------------------------------------------------
  // The material loop

  /** What stays fixed while the loop runs: the stage's key and original
      name, the paths, the codecs, what each prompt name resolves to, the
      model service, the clock reading, the number of materials and the
      request text. */
  datatype Setting = Setting(key: string, stageName: string, stateFile: string, codec: Codec, llmCodec: Codec,
                             materialsDir: string, resolve: string -> Result<Prompts.PromptInfo>,
                             service: Llm.Service, now: string, total: int, content: string)

  /** What the prompt manager answers for any name, given its cache, its
      tiers and its files. */
  function Resolver(cache: map<string, Prompts.PromptInfo>, t: Prompts.Tiers, files: map<string, string>,
                    dirs: set<string>): string -> Result<Prompts.PromptInfo>
  {
    (q: string) => Prompts.Consult(cache, t, files, dirs, q)
  }

  /** `call_llm(content)` under the world's current stage name: the
      request for the prompt that name resolves to, and its answer; none
      and the prompt's error when it does not resolve. */
  function Called(c: Setting, w: World): (r: (World, Result<Llm.LlmResult>))
    ensures c.resolve(w.stageName).Err? ==> r == (w, Err(c.resolve(w.stageName).error))
    ensures c.resolve(w.stageName).Ok? ==>
      var info := c.resolve(w.stageName).value;
      var req := Llm.RequestFor(c.llmCodec, info, c.content, None);
      && r.0.requests == w.requests + [req]
      && r.1 == Llm.Answered(c.service(req, |w.requests|), w.lastCount, w.stageName, info)
      && r.0 == w.(requests := r.0.requests, lastCount := if r.1.Ok? then r.1.value.tokensUsed else w.lastCount)
  {
    match c.resolve(w.stageName)
    case Err(e) => (w, Err(e))
    case Ok(info) =>
      var req := Llm.RequestFor(c.llmCodec, info, c.content, None);
      var ans := Llm.Answered(c.service(req, |w.requests|), w.lastCount, w.stageName, info);
      (w.(requests := w.requests + [req], lastCount := if ans.Ok? then ans.value.tokensUsed else w.lastCount), ans)
  }

  /** One material once it is known: the stage takes the material's prompt
      name for the call and its own name back after it; the answer is
      written to the material's file and recorded in the state. A call
      that raises leaves the prompt name in place. */
  function Made(c: Setting, m: Select.Material, w: World, answers: seq<Llm.LlmResult>): Run {
    var (w1, ans) := Called(c, w.(stageName := m.promptFile));
    if ans.Err? then Run(w1, answers, Some(ans.error))
    else
      var w2 := w1.(stageName := c.stageName, files := w1.files[PathJoin(c.materialsDir, m.outputFile) := ans.value.content]);
      var (st, u) := Recorded(w2.state, m.id, RecordedFile(m), c.now);
      var w3 := w2.(state := st, files := Base.Saved(w2.files, c.stateFile, c.codec, st, u));
      if u.Err? then Run(w3, answers, Some(u.error)) else Run(w3, answers + [ans.value], None)
  }

  /** `update_progress(i + 1, total)` in the world. */
  function Progressed(c: Setting, i: nat, w: World): (World, Result<()>) {
    Progress(w, c.key, c.stateFile, c.codec, i + 1, c.total, c.now)
  }

  /** The turn of the item at index i: progress (i + 1, total) is recorded,
      the item is looked up in the catalog, and the material is made. */
  function Turn(c: Setting, item: Json, i: nat, w: World, answers: seq<Llm.LlmResult>): Run {
    var (w1, u) := Progressed(c, i, w);
    if u.Err? then Run(w1, answers, Some(u.error))
    else match MaterialOf(c.codec, item)
      case Err(e) => Run(w1, answers, Some(e))
      case Ok(m) => Made(c, m, w1, answers)
  }

  /** The loop from the item at index i on, stopping at the first error. */
  function Loop(c: Setting, items: seq<Json>, i: nat, w: World, answers: seq<Llm.LlmResult>): Run
    requires i <= |items|
    decreases |items| - i
  {
    if i == |items| then Run(w, answers, None)
    else
      var r := Turn(c, items[i], i, w, answers);
      if r.raised.Some? then r else Loop(c, items, i + 1, r.world, r.answers)
  }

  // ---------------------------------------------------------------------
  // What a turn does

  /** An id the catalog lacks raises KeyError after the progress update,
      before any request. */
  lemma UnknownIdRaises(c: Setting, id: string, i: nat, w: World, answers: seq<Llm.LlmResult>)
    requires Progressed(c, i, w).1.Ok? && !Select.Known(id)
    ensures var t := Turn(c, JStr(id), i, w, answers);
      && t.raised == Some(Error(KeyError, QuoteKey(id)))
      && t.world == Progressed(c, i, w).0 && t.answers == answers
  {}

  /** A call that raises leaves the stage under the material's prompt name,
      so the error is recorded under the key that name gives. */
  lemma FailedCallKeepsPromptName(c: Setting, item: Json, i: nat, w: World, answers: seq<Llm.LlmResult>)
    requires Progressed(c, i, w).1.Ok? && MaterialOf(c.codec, item).Ok?
    requires Called(c, Progressed(c, i, w).0.(stageName := MaterialOf(c.codec, item).value.promptFile)).1.Err?
    ensures var t := Turn(c, item, i, w, answers);
      t.raised.Some? && t.world.stageName == MaterialOf(c.codec, item).value.promptFile
  {}

  /** The key an error in a material's call is recorded under is not the
      stage's own "10_generate" but the stage number and the part of the
      prompt name after its first '_': "10_vk_post" for the prompt
      "materials/tg_vk_post". */
  lemma PromptNameKey(head: string, rest: string)
    requires '_' !in head
    ensures Base.StageKey(Info.id, head + "_" + rest) == Text.IntToString(10) + "_" + rest
  {
    Base.KeyNameOfJoin(head, rest);
  }

  // ---------------------------------------------------------------------
  // What a completed loop did

  /** The request for an item and its answer: the item is a catalog id, the
      request carries the request text under the prompt its entry names,
      the answer is the service's text, and the result is marked with the
      prompt name. */
  predicate Served(c: Setting, item: Json, req: Llm.Request, index: nat, answer: Llm.LlmResult) {
    && MaterialOf(c.codec, item).Ok?
    && var m := MaterialOf(c.codec, item).value;
       && c.resolve(m.promptFile).Ok?
       && req == Llm.RequestFor(c.llmCodec, c.resolve(m.promptFile).value, c.content, None)
       && c.service(req, index).Reply? && answer.content == c.service(req, index).text
       && answer.stage == m.promptFile
  }

  /** The record `add_generated_material` appends for an item. */
  function Record(c: Setting, item: Json): Json {
    match MaterialOf(c.codec, item)
    case Ok(m) => StateStore.GeneratedRecord(m.id, RecordedFile(m), c.now)
    case Err(_) => JNull
  }

  /** The records for the items from index i on, in order. */
  function Records(c: Setting, items: seq<Json>, i: nat): (r: seq<Json>)
    requires i <= |items|
    ensures |r| == |items| - i
    decreases |items| - i
  {
    if i == |items| then [] else [Record(c, items[i])] + Records(c, items, i + 1)
  }

  /** The records from index i are that item's, then the rest. */
  lemma RecordsStep(c: Setting, items: seq<Json>, i: nat, g: seq<Json>)
    requires i < |items|
    ensures g + [Record(c, items[i])] + Records(c, items, i + 1) == g + Records(c, items, i)
  {}

  /** The generated list of a state, if it is a list. */
  function GeneratedOf(st: Option<StateStore.ProjectState>): Option<seq<Json>> {
    if st.Some? && Lookup(st.value.materials, "generated").Some? && Lookup(st.value.materials, "generated").value.JList?
    then Some(Lookup(st.value.materials, "generated").value.items)
    else None
  }

  /** The progress update leaves the materials alone. */
  lemma ProgressKeepsMaterials(c: Setting, i: nat, w: World)
    ensures var w1 := Progressed(c, i, w).0;
      (w.state.None? <==> w1.state.None?) && (w.state.Some? ==> w1.state.value.materials == w.state.value.materials)
  {
    if w.state.Some? {
      var st := w.state.value;
      var key := c.key;
      var extra := Base.ProgressExtra(i + 1, c.total);
      var step := StateStore.UpdateStageStep(st, key, "in_progress", extra, c.now);
      assert step.state.materials == st.materials;
    }
  }

  /** A turn that raises nothing: one request, served, one answer, and
      the stage's own name again. */
  lemma TurnFacts(c: Setting, item: Json, i: nat, w: World, answers: seq<Llm.LlmResult>)
    requires Turn(c, item, i, w, answers).raised.None?
    ensures var t := Turn(c, item, i, w, answers);
      && |t.answers| == |answers| + 1 && t.answers[..|answers|] == answers
      && |t.world.requests| == |w.requests| + 1 && t.world.requests[..|w.requests|] == w.requests
      && Served(c, item, t.world.requests[|w.requests|], |w.requests|, t.answers[|answers|])
      && t.world.stageName == c.stageName
  {
    var t := Turn(c, item, i, w, answers);
    var m := MaterialOf(c.codec, item).value;
    var info := c.resolve(m.promptFile).value;
    var req := Llm.RequestFor(c.llmCodec, info, c.content, None);
    assert t.world.requests == w.requests + [req];
    assert t.answers[..|answers|] == answers;
  }

  /** A turn that raises nothing appends the item's record to the
      generated list and keeps the earlier ones. */
  lemma TurnRecords(c: Setting, item: Json, i: nat, w: World, answers: seq<Llm.LlmResult>)
    requires Turn(c, item, i, w, answers).raised.None?
    ensures var t := Turn(c, item, i, w, answers);
      && (w.state.None? <==> t.world.state.None?)
      && (w.state.Some? && GeneratedOf(w.state).Some? ==>
            GeneratedOf(t.world.state) == Some(GeneratedOf(w.state).value + [Record(c, item)]))
  {
    ProgressKeepsMaterials(c, i, w);
    if w.state.Some? && GeneratedOf(w.state).Some? {
      var m := MaterialOf(c.codec, item).value;
      StateStore.GeneratedAppends(w.state.value.materials, GeneratedOf(w.state).value, m.id, RecordedFile(m), c.now);
    }
  }

  /** A loop that raises nothing, seen after its first turn: what that
      turn did, by the two lemmas above. */
  lemma LoopStep(c: Setting, items: seq<Json>, i: nat, w: World, answers: seq<Llm.LlmResult>)
    returns (w': World, answers': seq<Llm.LlmResult>)
    requires i < |items| && Loop(c, items, i, w, answers).raised.None?
    ensures Loop(c, items, i, w, answers) == Loop(c, items, i + 1, w', answers')
    ensures Loop(c, items, i + 1, w', answers').raised.None?
    ensures |answers'| == |answers| + 1 && answers'[..|answers|] == answers
    ensures |w'.requests| == |w.requests| + 1 && w'.requests[..|w.requests|] == w.requests
    ensures Served(c, items[i], w'.requests[|w.requests|], |w.requests|, answers'[|answers|])
    ensures w'.stageName == c.stageName
    ensures w.state.None? <==> w'.state.None?
    ensures w.state.Some? && GeneratedOf(w.state).Some? ==>
      GeneratedOf(w'.state) == Some(GeneratedOf(w.state).value + [Record(c, items[i])])
  {
    var t := Turn(c, items[i], i, w, answers);
    w', answers' := t.world, t.answers;
    TurnFacts(c, items[i], i, w, answers);
    TurnRecords(c, items[i], i, w, answers);
  }

  /** A completed loop from index i, i answers and base + i requests in:
      one request and one answer per item after the earlier ones, each
      item served with its own prompt, and the stage's own name at the
      end. */
  lemma {:induction false} LoopFacts(c: Setting, items: seq<Json>, i: nat, w: World, answers: seq<Llm.LlmResult>, base: nat)
    requires i <= |items| && Loop(c, items, i, w, answers).raised.None?
    requires |answers| == i && |w.requests| == base + i
    ensures var r := Loop(c, items, i, w, answers);
      && |r.answers| == |items| && r.answers[..i] == answers
      && |r.world.requests| == base + |items| && r.world.requests[..base + i] == w.requests
      && (forall k :: i <= k < |items| ==> Served(c, items[k], r.world.requests[base + k], base + k, r.answers[k]))
      && (i < |items| ==> r.world.stageName == c.stageName)
    decreases |items| - i
  {
    var r := Loop(c, items, i, w, answers);
    if i < |items| {
      var w', answers' := LoopStep(c, items, i, w, answers);
      LoopFacts(c, items, i + 1, w', answers', base);
      PrefixOfPrefix(r.answers, answers', answers);
      PrefixOfPrefix(r.world.requests, w'.requests, w.requests);
      forall k | i <= k < |items|
        ensures Served(c, items[k], r.world.requests[base + k], base + k, r.answers[k])
      {
        if k == i {
          assert r.world.requests[base + k] == w'.requests[|w.requests|] && r.answers[k] == answers'[|answers|];
        }
      }
    }
  }

  /** A completed loop from index i appends one record per item, in order,
      to the generated list, and keeps the earlier records. */
  lemma {:induction false} LoopRecords(c: Setting, items: seq<Json>, i: nat, w: World, answers: seq<Llm.LlmResult>)
    requires i <= |items| && Loop(c, items, i, w, answers).raised.None?
    requires w.state.Some? ==> GeneratedOf(w.state).Some?
    ensures var r := Loop(c, items, i, w, answers);
      && (w.state.None? <==> r.world.state.None?)
      && (w.state.Some? ==> GeneratedOf(r.world.state) == Some(GeneratedOf(w.state).value + Records(c, items, i)))
    decreases |items| - i
  {
    if i < |items| {
      var w', answers' := LoopStep(c, items, i, w, answers);
      LoopRecords(c, items, i + 1, w', answers');
      if w.state.Some? && GeneratedOf(w.state).Some? {
        RecordsStep(c, items, i, GeneratedOf(w.state).value);
      }
    } else if w.state.Some? {
      assert GeneratedOf(w.state).value + [] == GeneratedOf(w.state).value;
    }
  }

  // ---------------------------------------------------------------------
  // execute

  /** The inputs `execute` loads before the loop: the two texts and the
      selection, `[]` when the materials have none. */
  datatype Inputs = Inputs(article: string, analysis: string, selected: Json)

  /** The article, the analysis and the selection; the first error
      otherwise, including the one raised without a loaded state. */
  function Load(s: Base.Stage): Result<Inputs>
    reads s.state, s.state.fs
  {
    var article :- s.ReadInput(Some(ArticleFile));
    var analysis :- s.ReadInput(Some(AnalysisFile));
    if s.state.state.None? then Err(Error(AttributeError, "'NoneType' object has no attribute 'materials'"))
    else Ok(Inputs(article, analysis, Lookup(s.state.state.value.materials, "selected").GetOr(JList([]))))
  }

  /** The fixed part of the loop for a stage, its inputs and the number of
      items. */
  function SettingOf(s: Base.Stage, now: string, inputs: Inputs, total: int): Setting
    reads s, s.llm.prompts, s.llm.prompts.fs
  {
    Setting(s.Key(), s.stageName, s.state.stateFile, s.state.codec, s.llm.codec, PathJoin(s.outputDir, MaterialsDir),
            Resolver(s.llm.prompts.cache, s.llm.prompts.Where(), s.llm.prompts.fs.files, s.llm.prompts.fs.dirs),
            s.llm.client.service, now, total, Content(inputs.article, inputs.analysis))
  }

  /** What `execute` returns once the loop is done. */
  function Outcome(run: Run, total: nat): Result<Base.StageResult> {
    if run.raised.Some? then Err(run.raised.value)
    else Ok(Base.StageResult(true, Some(Info.outputFile), TokenSum(run.answers), None,
                             Some(Single("materials_generated", JInt(total)))))
  }

  /** The stage's parts that no turn changes are those of the setting. */
  ghost predicate Fixed(s: Base.Stage, c: Setting)
    reads s.llm.prompts, s.llm.prompts.fs
  {
    && c.stateFile == s.state.stateFile && c.codec == s.state.codec && c.llmCodec == s.llm.codec
    && c.materialsDir == PathJoin(s.outputDir, MaterialsDir) && c.service == s.llm.client.service
    && forall q :: c.resolve(q) == s.llm.prompts.Current(q)
  }

  /** Between turns the stage also has the setting's name and key. */
  ghost predicate Fits(s: Base.Stage, c: Setting)
    reads s, s.llm.prompts, s.llm.prompts.fs
  {
    Fixed(s, c) && c.stageName == s.stageName && c.key == s.Key()
  }

  /** `call_llm(content)` with the stage named `name` for the call, as
      `Called` says; the name stays in place. */
  method CallAs(s: Base.Stage, ghost c: Setting, name: string, content: string) returns (r: Result<Llm.LlmResult>)
    requires Fixed(s, c) && content == c.content
    modifies s`stageName, s.llm.prompts`cache, s.llm.client`requests, s.llm.client`lastTokenCount
    ensures Fixed(s, c)
    ensures (WorldOf(s), r) == Called(c, old(WorldOf(s)).(stageName := name))
  {
    s.stageName := name;
    ghost var w := WorldOf(s);
    assert w == old(WorldOf(s)).(stageName := name);
    assert s.Prompt() == c.resolve(name);
    ghost var asked := s.Asked(content, None);
    ghost var answer := s.Answer(content, None);
    r := s.CallLlm(content, None);
    if c.resolve(name).Ok? {
      var req := Llm.RequestFor(c.llmCodec, c.resolve(name).value, c.content, None);
      assert asked == [req];
      assert answer == Llm.Answered(c.service(req, |w.requests|), w.lastCount, name, c.resolve(name).value);
      assert WorldOf(s).requests == w.requests + [req];
      assert WorldOf(s).lastCount == (if r.Ok? then r.value.tokensUsed else w.lastCount);
      assert WorldOf(s) == w.(requests := w.requests + [req], lastCount := if r.Ok? then r.value.tokensUsed else w.lastCount);
      assert (WorldOf(s), r) == Called(c, w);
    } else {
      assert WorldOf(s) == w;
      assert (WorldOf(s), r) == Called(c, w);
    }
  }

  /** After the call: the stage's own name back, the material's file
      written and the material recorded in the state. */
  method Keep(s: Base.Stage, ghost c: Setting, original: string, m: Select.Material, text: string, now: string)
    returns (r: Result<()>)
    requires s.llm.prompts.fs != s.state.fs && Fixed(s, c) && now == c.now && original == c.stageName
    modifies s`stageName, s.state`state, s.state.fs`files
    ensures Fixed(s, c)
    ensures var w := old(WorldOf(s)).(stageName := c.stageName, files := old(s.state.fs.files)[PathJoin(c.materialsDir, m.outputFile) := text]);
      var (st, u) := Recorded(w.state, m.id, RecordedFile(m), c.now);
      WorldOf(s) == w.(state := st, files := Base.Saved(w.files, c.stateFile, c.codec, st, u)) && r == u
  {
    s.stageName := original;
    s.state.fs.WriteText(PathJoin(PathJoin(s.outputDir, MaterialsDir), m.outputFile), text);
    r := s.state.AddGeneratedMaterial(m.id, RecordedFile(m), now);
  }

  /** One known material: the call under the material's prompt name, then
      the stage's own name again, the file and the record, as `Made`
      says. */
  method MakeMaterial(s: Base.Stage, ghost c: Setting, m: Select.Material, content: string, now: string,
                      ghost answers: seq<Llm.LlmResult>) returns (r: Result<Llm.LlmResult>)
    requires s.llm.prompts.fs != s.state.fs && Fits(s, c) && content == c.content && now == c.now
    modifies s`stageName, s.state`state, s.state.fs`files, s.llm.prompts`cache, s.llm.client`requests,
             s.llm.client`lastTokenCount
    ensures Fixed(s, c)
    ensures var run := Made(c, m, old(WorldOf(s)), answers);
      && WorldOf(s) == run.world
      && (r.Err? ==> run.raised == Some(r.error))
      && (r.Ok? ==> run.raised.None? && run.answers == answers + [r.value])
  {
    var original := s.stageName;
    r := CallAs(s, c, m.promptFile, content);
    if r.Err? {
      return;
    }
    var u := Keep(s, c, original, m, r.value.content, now);
    if u.Err? {
      return Err(u.error);
    }
  }

  /** A turn whose progress update fails stops there. */
  lemma TurnUnsaved(c: Setting, item: Json, i: nat, w: World, answers: seq<Llm.LlmResult>)
    requires Progressed(c, i, w).1.Err?
    ensures Turn(c, item, i, w, answers) == Run(Progressed(c, i, w).0, answers, Some(Progressed(c, i, w).1.error))
  {
  }

  /** A turn whose item is in the catalog goes on as `Made` says; one whose
      item is not stops with the lookup's error. */
  lemma TurnLooked(c: Setting, item: Json, i: nat, w: World, answers: seq<Llm.LlmResult>)
    requires Progressed(c, i, w).1.Ok?
    ensures var w1 := Progressed(c, i, w).0;
      match MaterialOf(c.codec, item)
      case Err(e) => Turn(c, item, i, w, answers) == Run(w1, answers, Some(e))
      case Ok(m) => Turn(c, item, i, w, answers) == Made(c, m, w1, answers)
  {
  }

  /** A material made without an error leaves the stage's own name. */
  lemma MadeRestoresName(c: Setting, m: Select.Material, w: World, answers: seq<Llm.LlmResult>)
    requires Made(c, m, w, answers).raised.None?
    ensures Made(c, m, w, answers).world.stageName == c.stageName
  {
  }

  /** The turn of the item at index i, as `Turn` says. */
  method MakeTurn(s: Base.Stage, ghost c: Setting, item: Json, i: nat, total: int, content: string, now: string,
                  ghost answers: seq<Llm.LlmResult>) returns (r: Result<Llm.LlmResult>)
    requires s.llm.prompts.fs != s.state.fs && Fits(s, c)
    requires content == c.content && now == c.now && total == c.total
    modifies s`stageName, s.state`state, s.state.fs`files, s.llm.prompts`cache, s.llm.client`requests,
             s.llm.client`lastTokenCount
    ensures Fixed(s, c) && (r.Ok? ==> Fits(s, c))
    ensures var t := Turn(c, item, i, old(WorldOf(s)), answers);
      && WorldOf(s) == t.world
      && (r.Err? ==> t.raised == Some(r.error))
      && (r.Ok? ==> t.raised.None? && t.answers == answers + [r.value])
  {
    ghost var w := WorldOf(s);
    var u := s.UpdateProgress(i + 1, total, now);
    assert (WorldOf(s), u) == Progressed(c, i, w);
    if u.Err? {
      TurnUnsaved(c, item, i, w, answers);
      return Err(u.error);
    }
    TurnLooked(c, item, i, w, answers);
    var m := MaterialOf(s.state.codec, item);
    if m.Err? {
      return Err(m.error);
    }
    ghost var w1 := WorldOf(s);
    r := MakeMaterial(s, c, m.value, content, now, answers);
    if r.Ok? {
      MadeRestoresName(c, m.value, w1, answers);
    }
  }

  /** The loop over the selection: each turn records the progress, looks
      the item up and makes the material; the first error stops the loop.
      The token counts of the answers are summed. */
  method MakeAll(s: Base.Stage, ghost c: Setting, items: seq<Json>, content: string, now: string)
    returns (r: Result<int>)
    requires s.llm.prompts.fs != s.state.fs && Fits(s, c)
    requires content == c.content && now == c.now && c.total == |items|
    modifies s`stageName, s.state`state, s.state.fs`files, s.llm.prompts`cache, s.llm.client`requests,
             s.llm.client`lastTokenCount
    ensures var run := Loop(c, items, 0, old(WorldOf(s)), []);
      && WorldOf(s) == run.world
      && (r.Err? ==> run.raised == Some(r.error))
      && (r.Ok? ==> run.raised.None? && r.value == TokenSum(run.answers))
  {
    ghost var run := Loop(c, items, 0, WorldOf(s), []);
    var totalTokens := 0;
    ghost var answers: seq<Llm.LlmResult> := [];
    var i := 0;
    while i < |items|
      invariant 0 <= i <= |items|
      invariant run == Loop(c, items, i, WorldOf(s), answers)
      invariant totalTokens == TokenSum(answers)
      invariant Fits(s, c)
    {
      var result := MakeTurn(s, c, items[i], i, |items|, content, now, answers);
      if result.Err? {
        return Err(result.error);
      }
      AnswerAdded(answers, result.value);
      totalTokens := totalTokens + result.value.tokensUsed;
      answers := answers + [result.value];
      i := i + 1;
    }
    return Ok(totalTokens);
  }

  /** `execute`: the article, the analysis and the selection are loaded;
      an empty or false selection fails the stage before anything else
      happens; otherwise the materials directory is made and the loop runs
      over the selection. An error raised in a turn leaves what the
      earlier turns and that turn did so far. */
  method Execute(s: Base.Stage, now: string) returns (r: Result<Base.StageResult>)
    requires s.info == Info && s.llm.prompts.fs != s.state.fs
    modifies s`stageName, s.state`state, s.state.fs, s.llm.prompts`cache, s.llm.client`requests,
             s.llm.client`lastTokenCount
    ensures var inputs := old(Load(s));
      && (inputs.Err? ==> r == Err(inputs.error) && WorldOf(s) == old(WorldOf(s)))
      && (inputs.Ok? && !Truthy(inputs.value.selected) ==>
            r == Ok(Base.Failed("No materials selected")) && WorldOf(s) == old(WorldOf(s)))
      && (inputs.Ok? && Truthy(inputs.value.selected) ==>
            var items := Iterate(inputs.value.selected);
            && (items.Err? ==> r == Err(items.error) && WorldOf(s) == old(WorldOf(s)))
            && (items.Ok? ==>
                  var run := Loop(old(SettingOf(s, now, inputs.value, |items.value|)), items.value, 0, old(WorldOf(s)), []);
                  WorldOf(s) == run.world && r == Outcome(run, |items.value|)))
  {
    var article :- s.ReadInput(Some(ArticleFile));
    var analysis :- s.ReadInput(Some(AnalysisFile));
    if s.state.state.None? {
      return Err(Error(AttributeError, "'NoneType' object has no attribute 'materials'"));
    }
    var selected := Lookup(s.state.state.value.materials, "selected").GetOr(JList([]));
    ghost var inputs := Inputs(article, analysis, selected);
    assert Load(s) == Ok(inputs);
    if !Truthy(selected) {
      return Ok(Base.Failed("No materials selected"));
    }
    s.state.fs.Mkdir(PathJoin(s.outputDir, MaterialsDir));
    var items :- Iterate(selected);
    var content := Content(article, analysis);
    ghost var c := SettingOf(s, now, inputs, |items|);
    var totalTokens :- MakeAll(s, c, items, content, now);
    return Ok(Base.StageResult(true, Some(Info.outputFile), totalTokens, None,
                               Some(Single("materials_generated", JInt(|items|)))));
  }
}
