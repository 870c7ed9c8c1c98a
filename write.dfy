/** Stage 5, `WriteStage`: the sections of the plan are written one after
    the other, and the request for each carries every section written
    before it in the same run. */
module Write {
  import opened Wrappers
  import opened Json
  import opened Py
  import opened Storage
  import Text
  import Prompts
  import Llm
  import StateStore
  import Base
  import opened Runs

  /** The stage's declared attributes. */
  const Info := Base.StageInfo(5, "05_write_section", "Написание секций", ["03_corrected.md", "04_plan.json"], "05_sections/")

  const TranscriptFile := "03_corrected.md"
  const PlanFile := "04_plan.json"
  const SectionsDir := "05_sections"

  // ---------------------------------------------------------------------
  // _build_section_prompt

  /** What the first section's request says in place of earlier sections. */
  const FirstSection := "(Это первая секция статьи)"
  const SectionSeparator := "\n\n---\n\n"

  /** An earlier section under its heading, numbered from 1. */
  function Label(i: nat, text: string): string {
    "## Секция " + Text.NatToString(i + 1) + "\n" + text
  }

  function Labelled(previous: seq<string>): (r: seq<string>)
    ensures |r| == |previous| && forall i :: 0 <= i < |previous| ==> r[i] == Label(i, previous[i])
  {
    seq(|previous|, i requires 0 <= i < |previous| => Label(i, previous[i]))
  }

  /** `prev_text`: the earlier sections under their headings joined by a
      rule, or the first-section note when there are none. */
  function PreviousText(previous: seq<string>): string {
    if |previous| > 0 then Text.Join(SectionSeparator, Labelled(previous)) else FirstSection
  }

  /** `key_points_text`: a `- ` line per key point; a section that is not
      a dict has no `get`, and key points that cannot be iterated raise. */
  function KeyPointsText(codec: Codec, section: Json): Result<string> {
    var points :- DictGet(section, "key_points", JList([]));
    var items :- Iterate(points);
    Ok(Text.Join("\n", seq(|items|, k requires 0 <= k < |items| => "- " + Str(codec, items[k]))))
  }

  const PlanHeading := "## Полный план статьи\n\n```json\n"
  const TranscriptHeading := "\n```\n\n## Полная транскрипция интервью\n\n"
  const WrittenHeading := "\n\n## Уже написанные секции статьи\n\n"
  const TaskHeading := "\n\n## Текущая задача\n\nНапиши секцию "
  const PointsHeading := "\"\n\n### Ключевые тезисы для раскрытия в этой секции:\n\n"
  const Requirements := "\n\n## Требования\n\n"
    + "- Используй релевантные цитаты и факты из транскрипции\n"
    + "- Обеспечь плавный переход от предыдущей секции (если она есть)\n"
    + "- Сохраняй единый стиль повествования\n"
    + "- НЕ повторяй то, что уже было сказано в предыдущих секциях\n"
    + "- Пиши только текст секции, без заголовка (заголовок уже есть в плане)\n"

  /** The part of the request before the earlier sections. */
  function PromptHead(codec: Codec, plan: Json, transcript: string): string {
    PlanHeading + codec.dumps(plan) + TranscriptHeading + transcript + WrittenHeading
  }

  /** The part after them: the task and the key points. */
  function PromptTail(codec: Codec, num: int, total: int, title: Json, points: string): string {
    TaskHeading + Text.IntToString(num) + " из " + Text.IntToString(total) + ": \"" + Str(codec, title)
    + PointsHeading + points + Requirements
  }

  /** `_build_section_prompt(section, section_num, total, transcript, plan,
      previous_sections)`. */
  function SectionPrompt(codec: Codec, section: Json, num: int, total: int, transcript: string, plan: Json,
                         previous: seq<string>): (r: Result<string>)
    ensures r.Ok? ==> Subscript(section, "title").Ok? && KeyPointsText(codec, section).Ok?
  {
    var points :- KeyPointsText(codec, section);
    var title :- Subscript(section, "title");
    Ok(PromptHead(codec, plan, transcript) + PreviousText(previous) + PromptTail(codec, num, total, title, points))
  }

  /** What occurs in the middle part occurs in the whole. */
  lemma InfixOfMiddle(t: string, a: string, b: string, c: string)
    requires Text.IsInfix(t, b)
    ensures Text.IsInfix(t, a + b + c)
  {
    Text.InfixOfConcat(t, a, b);
    Text.InfixOfConcat(t, a + b, c);
  }

  /** The head carries the plan's JSON and the transcript. */
  lemma HeadContents(codec: Codec, plan: Json, transcript: string)
    ensures var head := PromptHead(codec, plan, transcript);
      Text.IsInfix(codec.dumps(plan), head) && Text.IsInfix(transcript, head)
  {
    var j := codec.dumps(plan);
    assert Text.OccursAt(j, j, 0);
    assert Text.OccursAt(transcript, transcript, 0);
    InfixOfMiddle(j, PlanHeading, j, TranscriptHeading + transcript + WrittenHeading);
    assert PromptHead(codec, plan, transcript) == PlanHeading + j + (TranscriptHeading + transcript + WrittenHeading);
    InfixOfMiddle(transcript, PlanHeading + j + TranscriptHeading, transcript, WrittenHeading);
  }

  /** The earlier sections' part carries each of them under its heading,
      or the first-section note when there are none. */
  lemma PreviousContents(previous: seq<string>)
    ensures |previous| == 0 ==> PreviousText(previous) == FirstSection
    ensures forall i :: 0 <= i < |previous| ==> Text.IsInfix(Label(i, previous[i]), PreviousText(previous))
  {
    forall i | 0 <= i < |previous| ensures Text.IsInfix(Label(i, previous[i]), PreviousText(previous)) {
      Text.JoinHasPart(SectionSeparator, Labelled(previous), i);
    }
  }

  /** The request for a section carries the whole plan as JSON, the whole
      transcript, the section's number out of the total, its title and its
      key points, and every earlier section under its numbered heading, or
      the first-section note when there is none. */
  lemma PromptContents(codec: Codec, section: Json, num: int, total: int, transcript: string, plan: Json,
                       previous: seq<string>)
    requires SectionPrompt(codec, section, num, total, transcript, plan, previous).Ok?
    ensures var p := SectionPrompt(codec, section, num, total, transcript, plan, previous).value;
      && Text.IsInfix(codec.dumps(plan), p) && Text.IsInfix(transcript, p)
      && Text.IsInfix(PromptTail(codec, num, total, Subscript(section, "title").value, KeyPointsText(codec, section).value), p)
      && (|previous| == 0 ==> Text.IsInfix(FirstSection, p))
      && forall i :: 0 <= i < |previous| ==> Text.IsInfix(Label(i, previous[i]), p)
  {
    var head := PromptHead(codec, plan, transcript);
    var tail := PromptTail(codec, num, total, Subscript(section, "title").value, KeyPointsText(codec, section).value);
    assert SectionPrompt(codec, section, num, total, transcript, plan, previous).value == head + PreviousText(previous) + tail;
    HeadContents(codec, plan, transcript);
    PreviousContents(previous);
    PartsContents(codec.dumps(plan), transcript, head, previous, tail);
  }

  /** The three parts of a request, each found in the whole. */
  lemma PartsContents(json: string, transcript: string, head: string, previous: seq<string>, tail: string)
    requires Text.IsInfix(json, head) && Text.IsInfix(transcript, head)
    requires |previous| == 0 ==> PreviousText(previous) == FirstSection
    requires forall i :: 0 <= i < |previous| ==> Text.IsInfix(Label(i, previous[i]), PreviousText(previous))
    ensures var p := head + PreviousText(previous) + tail;
      && Text.IsInfix(json, p) && Text.IsInfix(transcript, p) && Text.IsInfix(tail, p)
      && (|previous| == 0 ==> Text.IsInfix(FirstSection, p))
      && forall i :: 0 <= i < |previous| ==> Text.IsInfix(Label(i, previous[i]), p)
  {
    var prev := PreviousText(previous);
    var p := head + prev + tail;
    assert Text.OccursAt(tail, tail, 0) && Text.OccursAt(prev, prev, 0);
    Text.InfixOfConcat(tail, head + prev, tail);
    Text.InfixOfConcat(json, head, prev + tail);
    Text.InfixOfConcat(transcript, head, prev + tail);
    assert p == head + (prev + tail);
    forall i | 0 <= i < |previous| ensures Text.IsInfix(Label(i, previous[i]), p) {
      InfixOfMiddle(Label(i, previous[i]), head, prev, tail);
    }
    if |previous| == 0 {
      InfixOfMiddle(FirstSection, head, prev, tail);
    }
  }

  // ---------------------------------------------------------------------
  // The section loop

  /** `_slugify(section['title'])`: a title that is not a string has no
      `lower`. */
  function SlugOf(title: Json): (r: Result<string>)
    ensures title.JStr? <==> r.Ok?
  {
    if title.JStr? then Ok(Base.Slugify(title.s, Base.SlugLength))
    else Err(Error(AttributeError, "'" + TypeName(title) + "' object has no attribute 'lower'"))
  }

  /** `f"{i+1:02d}_{slug}.md"` for the section at index i. */
  function SectionFile(i: nat, slug: string): string {
    Text.ZeroPad2(i + 1) + "_" + slug + ".md"
  }

  /** The number a section file name starts with. */
  function FileNumber(name: string): nat {
    Text.DigitsValue(Text.LeadingDigits(name))
  }

  /** The file of the section at index i carries its number i + 1. */
  lemma FileNumberOfSection(i: nat, slug: string)
    ensures FileNumber(SectionFile(i, slug)) == i + 1
  {
    var p := Text.ZeroPad2(i + 1);
    assert SectionFile(i, slug) == p + ("_" + slug + ".md");
    Text.LeadingDigitsOf(p, "_" + slug + ".md");
    Text.ZeroPad2Value(i + 1);
  }

  /** Sections with different numbers go to different files, whatever
      their slugs. */
  lemma SectionFilesDiffer(i: nat, j: nat, a: string, b: string)
    requires i != j
    ensures SectionFile(i, a) != SectionFile(j, b)
  {
    FileNumberOfSection(i, a);
    FileNumberOfSection(j, b);
  }

  /** What stays fixed while the loop runs: the stage's key and paths, the
      store's codec, the resolved prompt, the model service, the clock
      reading, the number of sections, and how the request text of the
      section at index i is built from the earlier answers. */
  datatype Setting = Setting(key: string, stateFile: string, codec: Codec, llmCodec: Codec, stagesDir: string,
                             prompt: Result<Prompts.PromptInfo>, service: Llm.Service, stageName: string,
                             now: string, total: int, compose: (Json, nat, seq<string>) -> Result<string>)

  /** `_build_section_prompt` for the loaded transcript and plan, the
      section at index i being number i + 1. */
  function Composer(codec: Codec, total: int, transcript: string, plan: Json): (Json, nat, seq<string>) -> Result<string> {
    (section: Json, i: nat, previous: seq<string>) => SectionPrompt(codec, section, i + 1, total, transcript, plan, previous)
  }

  /** The request for a section and what it is answered with: none and the
      prompt's error when the prompt does not resolve. */
  function Called(c: Setting, w: World, content: string): (r: (World, Result<Llm.LlmResult>))
    ensures c.prompt.Err? ==> r == (w, Err(c.prompt.error))
    ensures c.prompt.Ok? ==>
      var req := Llm.RequestFor(c.llmCodec, c.prompt.value, content, None);
      && r.0.requests == w.requests + [req]
      && r.1 == Llm.Answered(c.service(req, |w.requests|), w.lastCount, c.stageName, c.prompt.value)
      && r.0 == w.(requests := r.0.requests, lastCount := if r.1.Ok? then r.1.value.tokensUsed else w.lastCount)
  {
    match c.prompt
    case Err(e) => (w, Err(e))
    case Ok(info) =>
      var req := Llm.RequestFor(c.llmCodec, info, content, None);
      var ans := Llm.Answered(c.service(req, |w.requests|), w.lastCount, c.stageName, info);
      (w.(requests := w.requests + [req], lastCount := if ans.Ok? then ans.value.tokensUsed else w.lastCount), ans)
  }

  /** The turn of the section at index i once its request text is built:
      the call, then the slug of its title and the write of its file. */
  function Written(c: Setting, section: Json, i: nat, w: World, answers: seq<Llm.LlmResult>, content: string): Run {
    var (w1, ans) := Called(c, w, content);
    if ans.Err? then Run(w1, answers, Some(ans.error))
    else match Subscript(section, "title")
      case Err(e) => Run(w1, answers, Some(e))
      case Ok(title) =>
      match SlugOf(title)
      case Err(e) => Run(w1, answers, Some(e))
      case Ok(slug) =>
        var path := PathJoin(c.stagesDir, SectionsDir + "/" + SectionFile(i, slug));
        Run(w1.(files := w1.files[path := ans.value.content]), answers + [ans.value], None)
  }

  /** `update_progress(i + 1, total)` in the world: the state and the
      state file change as the store's update does. */
  function Progressed(c: Setting, i: nat, w: World): (World, Result<()>) {
    Progress(w, c.key, c.stateFile, c.codec, i + 1, c.total, c.now)
  }

  /** The turn of the section at index i: progress (i + 1, total) is
      recorded, the request text is built from every earlier answer, and
      the section is written. */
  function Turn(c: Setting, section: Json, i: nat, w: World, answers: seq<Llm.LlmResult>): Run {
    var (w1, u) := Progressed(c, i, w);
    if u.Err? then Run(w1, answers, Some(u.error))
    else match c.compose(section, i, Contents(answers))
      case Err(e) => Run(w1, answers, Some(e))
      case Ok(content) => Written(c, section, i, w1, answers, content)
  }

  /** The loop from the section at index i on, stopping at the first
      error. */
  function Loop(c: Setting, items: seq<Json>, i: nat, w: World, answers: seq<Llm.LlmResult>): Run
    requires i <= |items|
    decreases |items| - i
  {
    if i == |items| then Run(w, answers, None)
    else
      var r := Turn(c, items[i], i, w, answers);
      if r.raised.Some? then r else Loop(c, items, i + 1, r.world, r.answers)
  }

  /** What a turn that raises nothing does: one request, built from the
      earlier answers, and its answer. */
  predicate TurnAnswered(c: Setting, section: Json, i: nat, w: World, answers: seq<Llm.LlmResult>,
                         w': World, answers': seq<Llm.LlmResult>)
  {
    && c.prompt.Ok? && |answers'| == |answers| + 1 && answers'[..|answers|] == answers
    && |w'.requests| == |w.requests| + 1 && w'.requests[..|w.requests|] == w.requests
    && var req := w'.requests[|w.requests|];
       && c.compose(section, i, Contents(answers)) == Ok(req.prompt)
       && req.systemInstruction == c.prompt.value.content && req.temperature == Llm.DefaultTemperature
       && Llm.Answered(c.service(req, |w.requests|), w.lastCount, c.stageName, c.prompt.value) == Ok(answers'[|answers|])
       && w'.lastCount == answers'[|answers|].tokensUsed
  }

  lemma TurnFacts(c: Setting, section: Json, i: nat, w: World, answers: seq<Llm.LlmResult>)
    requires Turn(c, section, i, w, answers).raised.None?
    ensures var t := Turn(c, section, i, w, answers);
      TurnAnswered(c, section, i, w, answers, t.world, t.answers)
  {
    var t := Turn(c, section, i, w, answers);
    var content := c.compose(section, i, Contents(answers)).value;
    var req := Llm.RequestFor(c.llmCodec, c.prompt.value, content, None);
    assert t.world.requests == w.requests + [req];
    assert t.answers[..|answers|] == answers;
  }

  /** A completed loop from index i on: one answer and one request per
      section, after the earlier ones; and the prompt resolved. */
  lemma {:induction false} LoopShape(c: Setting, items: seq<Json>, i: nat, w: World, answers: seq<Llm.LlmResult>)
    requires i <= |items| && Loop(c, items, i, w, answers).raised.None?
    ensures var r := Loop(c, items, i, w, answers);
      && |r.answers| == |answers| + (|items| - i) && r.answers[..|answers|] == answers
      && |r.world.requests| == |w.requests| + (|items| - i) && r.world.requests[..|w.requests|] == w.requests
      && (i < |items| ==> c.prompt.Ok?)
    decreases |items| - i
  {
    if i < |items| {
      var t := Turn(c, items[i], i, w, answers);
      var r := Loop(c, items, i + 1, t.world, t.answers);
      TurnFacts(c, items[i], i, w, answers);
      LoopShape(c, items, i + 1, t.world, t.answers);
      assert r.answers[..|answers|] == r.answers[..|t.answers|][..|answers|];
      assert r.world.requests[..|w.requests|] == r.world.requests[..|t.world.requests|][..|w.requests|];
    } else {
      assert answers[..|answers|] == answers && w.requests[..|w.requests|] == w.requests;
    }
  }

  /** The request for the section at index k, the base-th request of the
      loop being the first, was built from exactly the answers before it,
      was sent with the resolved prompt and got the k-th answer. */
  predicate TracedAt(c: Setting, items: seq<Json>, base: nat, start: int, r: Run, k: nat) {
    && k < |items| && base + k < |r.world.requests| && k < |r.answers|
    && Traced(c, items[k], k, Contents(r.answers[..k]), r.world.requests[base + k], base + k,
              if k == 0 then start else r.answers[k - 1].tokensUsed, r.answers[k])
  }

  /** The request for the section at index j was built from `previous`
      and sent with the resolved prompt, as the index-th request, and was
      answered with `answer`. */
  predicate Traced(c: Setting, section: Json, j: nat, previous: seq<string>, req: Llm.Request, index: nat,
                   last: int, answer: Llm.LlmResult)
  {
    && c.prompt.Ok?
    && c.compose(section, j, previous) == Ok(req.prompt)
    && req.systemInstruction == c.prompt.value.content && req.temperature == Llm.DefaultTemperature
    && Llm.Answered(c.service(req, index), last, c.stageName, c.prompt.value) == Ok(answer)
  }

  /** A completed loop from index i, i answers and base + i requests in,
      with the token count of the last answer (start before the first):
      the request for each later section is built from exactly the
      answers before it, is sent with the resolved prompt's text and the
      default temperature, and gets the next answer of the service, so
      the sections are written in plan order, each after all those before
      it. */
  lemma {:induction false} LoopTrace(c: Setting, items: seq<Json>, i: nat, w: World, answers: seq<Llm.LlmResult>,
                                     base: nat, start: int, k: nat)
    requires i <= k < |items| && Loop(c, items, i, w, answers).raised.None?
    requires |answers| == i && |w.requests| == base + i
    requires w.lastCount == if i == 0 then start else answers[i - 1].tokensUsed
    ensures TracedAt(c, items, base, start, Loop(c, items, i, w, answers), k)
    decreases k - i
  {
    var w', answers' := LoopStep(c, items, i, w, answers);
    var r := Loop(c, items, i + 1, w', answers');
    if k == i {
      TracedFirst(c, items, i, w, answers, w', answers', r, base, start);
    } else {
      LoopTrace(c, items, i + 1, w', answers', base, start, k);
    }
  }

  /** A loop that raises nothing, seen after its first turn. */
  lemma LoopStep(c: Setting, items: seq<Json>, i: nat, w: World, answers: seq<Llm.LlmResult>)
    returns (w': World, answers': seq<Llm.LlmResult>)
    requires i < |items| && Loop(c, items, i, w, answers).raised.None?
    ensures var r := Loop(c, items, i + 1, w', answers');
      && Loop(c, items, i, w, answers) == r && r.raised.None?
      && TurnAnswered(c, items[i], i, w, answers, w', answers')
      && |answers'| <= |r.answers| && r.answers[..|answers'|] == answers'
      && |w'.requests| <= |r.world.requests| && r.world.requests[..|w'.requests|] == w'.requests
  {
    var t := Turn(c, items[i], i, w, answers);
    w', answers' := t.world, t.answers;
    TurnFacts(c, items[i], i, w, answers);
    LoopShape(c, items, i + 1, t.world, t.answers);
  }

  /** The first turn's request and answer, seen in the whole loop. */
  lemma TracedFirst(c: Setting, items: seq<Json>, i: nat, w: World, answers: seq<Llm.LlmResult>,
                    w': World, answers': seq<Llm.LlmResult>, r: Run, base: nat, start: int)
    requires i < |items| && TurnAnswered(c, items[i], i, w, answers, w', answers')
    requires |answers| == i && |w.requests| == base + i
    requires w.lastCount == if i == 0 then start else answers[i - 1].tokensUsed
    requires |answers'| <= |r.answers| && r.answers[..|answers'|] == answers'
    requires |w'.requests| <= |r.world.requests| && r.world.requests[..|w'.requests|] == w'.requests
    ensures TracedAt(c, items, base, start, r, i)
  {
    assert r.answers[i] == answers'[i];
    assert r.answers[..i] == answers by {
      assert r.answers[..i] == r.answers[..|answers'|][..i];
    }
    assert r.world.requests[base + i] == w'.requests[base + i];
    if i > 0 {
      assert r.answers[i - 1] == answers[i - 1];
    }
  }

  /** A completed loop from index 0: one answer and one request per
      section, and the request for the section at index k is built from
      exactly the first k answers of the run. */
  lemma SectionRequests(c: Setting, items: seq<Json>, w: World, k: nat)
    requires k < |items| && Loop(c, items, 0, w, []).raised.None?
    ensures var r := Loop(c, items, 0, w, []);
      && |r.answers| == |items| && |r.world.requests| == |w.requests| + |items|
      && c.compose(items[k], k, Contents(r.answers[..k])) == Ok(r.world.requests[|w.requests| + k].prompt)
  {
    LoopShape(c, items, 0, w, []);
    LoopTrace(c, items, 0, w, [], |w.requests|, w.lastCount, k);
  }

  /** A request text built by `_build_section_prompt` for the section at
      index k carries the plan, the transcript and each earlier text under
      its heading, or the first-section note for the first section. */
  lemma ComposedContents(codec: Codec, total: int, transcript: string, plan: Json, section: Json, k: nat,
                         previous: seq<string>, p: string)
    requires Composer(codec, total, transcript, plan)(section, k, previous) == Ok(p)
    ensures Text.IsInfix(codec.dumps(plan), p) && Text.IsInfix(transcript, p)
    ensures |previous| == 0 ==> Text.IsInfix(FirstSection, p)
    ensures forall j :: 0 <= j < |previous| ==> Text.IsInfix(Label(j, previous[j]), p)
  {
    assert SectionPrompt(codec, section, k + 1, total, transcript, plan, previous) == Ok(p);
    PromptContents(codec, section, k + 1, total, transcript, plan, previous);
  }

  /** So in a completed run of `execute`'s loop, the request for the
      section at index k carries the plan, the transcript, and the text
      of every earlier section of the run under its numbered heading, or
      the first-section note for the first section. */
  lemma EarlierSectionsInRequest(codec: Codec, transcript: string, plan: Json, c: Setting, items: seq<Json>, w: World, k: nat)
    requires c.compose == Composer(codec, |items|, transcript, plan)
    requires k < |items| && Loop(c, items, 0, w, []).raised.None?
    ensures var r := Loop(c, items, 0, w, []);
      && |r.answers| == |items| && |r.world.requests| == |w.requests| + |items|
      && var p := r.world.requests[|w.requests| + k].prompt;
         && Text.IsInfix(codec.dumps(plan), p) && Text.IsInfix(transcript, p)
         && (k == 0 ==> Text.IsInfix(FirstSection, p))
         && forall j :: 0 <= j < k ==> Text.IsInfix(Label(j, r.answers[j].content), p)
  {
    var r := Loop(c, items, 0, w, []);
    SectionRequests(c, items, w, k);
    var previous := Contents(r.answers[..k]);
    ComposedContents(codec, |items|, transcript, plan, items[k], k, previous, r.world.requests[|w.requests| + k].prompt);
    assert forall j :: 0 <= j < k ==> previous[j] == r.answers[j].content;
  }

  // ---------------------------------------------------------------------
  // execute

  // ---------------------------------------------------------------------
  // THE FILES AND THE PROGRESS A COMPLETED LOOP LEAVES

  /** Where the section at index i is written, when its title makes a slug. */
  function SectionPath(c: Setting, section: Json, i: nat): (r: Option<string>)
    ensures r.Some? ==> EndsInMd(r.value)
  {
    match Subscript(section, "title")
    case Err(_) => None
    case Ok(title) =>
      match SlugOf(title)
      case Err(_) => None
      case Ok(slug) =>
        var name := SectionsDir + "/" + Text.ZeroPad2(i + 1) + "_" + slug;
        assert SectionsDir + "/" + SectionFile(i, slug) == name + ".md";
        assert PathJoin(c.stagesDir, SectionsDir + "/" + SectionFile(i, slug)) == (c.stagesDir + "/" + name) + ".md";
        Some(PathJoin(c.stagesDir, SectionsDir + "/" + SectionFile(i, slug)))
  }

  predicate EndsInMd(p: string) {
    |p| >= 3 && p[|p| - 3..] == ".md"
  }

  /** Two sections with different indexes are written to different paths. */
  lemma SectionPathsDiffer(c: Setting, a: Json, b: Json, i: nat, j: nat)
    requires i != j && SectionPath(c, a, i).Some? && SectionPath(c, b, j).Some?
    ensures SectionPath(c, a, i) != SectionPath(c, b, j)
  {
    SectionOutputsDiffer(c.stagesDir, i, j, SlugOf(Subscript(a, "title").value).value, SlugOf(Subscript(b, "title").value).value);
  }

  lemma SectionOutputsDiffer(dir: string, i: nat, j: nat, sa: string, sb: string)
    requires i != j
    ensures PathJoin(dir, SectionsDir + "/" + SectionFile(i, sa)) != PathJoin(dir, SectionsDir + "/" + SectionFile(j, sb))
  {
    var head := dir + "/" + SectionsDir + "/";
    var pa, pb := PathJoin(dir, SectionsDir + "/" + SectionFile(i, sa)), PathJoin(dir, SectionsDir + "/" + SectionFile(j, sb));
    assert pa == head + SectionFile(i, sa) && pb == head + SectionFile(j, sb);
    assert pa[|head|..] == SectionFile(i, sa) && pb[|head|..] == SectionFile(j, sb);
    SectionFilesDiffer(i, j, sa, sb);
  }

  /** A turn that raises nothing writes the section's answer to its path
      and, besides, changes the state file at most. */
  lemma TurnWrites(c: Setting, section: Json, i: nat, w: World, answers: seq<Llm.LlmResult>)
    requires Turn(c, section, i, w, answers).raised.None?
    ensures var t := Turn(c, section, i, w, answers);
      && SectionPath(c, section, i).Some? && |t.answers| == |answers| + 1
      && var path := SectionPath(c, section, i).value;
      && path in t.world.files && t.world.files[path] == t.answers[|answers|].content
      && forall p :: p != c.stateFile && p != path ==>
           (p in t.world.files <==> p in w.files) && (p in w.files ==> t.world.files[p] == w.files[p])
  {
  }

  /** A completed loop leaves alone every file that is not the state file
      and not the path of a section it writes. */
  lemma {:induction false} LoopKeepsFile(c: Setting, items: seq<Json>, i: nat, w: World, answers: seq<Llm.LlmResult>, p: string)
    requires i <= |items| && Loop(c, items, i, w, answers).raised.None?
    requires p != c.stateFile && forall j :: i <= j < |items| ==> SectionPath(c, items[j], j) != Some(p)
    ensures var r := Loop(c, items, i, w, answers);
      (p in r.world.files <==> p in w.files) && (p in w.files ==> r.world.files[p] == w.files[p])
    decreases |items| - i
  {
    if i < |items| {
      var t := Turn(c, items[i], i, w, answers);
      TurnWrites(c, items[i], i, w, answers);
      LoopKeepsFile(c, items, i + 1, t.world, t.answers, p);
    }
  }

  /** `(sections_dir / f"{i+1:02d}_{slug}.md").write_text(content)` for
      every section: after a completed loop each section's file holds its
      own answer, none being overwritten by a later one, provided the
      state file is not a Markdown file. */
  lemma {:induction false} LoopFiles(c: Setting, items: seq<Json>, i: nat, w: World, answers: seq<Llm.LlmResult>, k: nat)
    requires i <= k < |items| && |answers| == i && Loop(c, items, i, w, answers).raised.None?
    requires !EndsInMd(c.stateFile)
    ensures var r := Loop(c, items, i, w, answers);
      && SectionPath(c, items[k], k).Some? && k < |r.answers|
      && SectionPath(c, items[k], k).value in r.world.files
      && r.world.files[SectionPath(c, items[k], k).value] == r.answers[k].content
    decreases k - i
  {
    var t := Turn(c, items[i], i, w, answers);
    TurnWrites(c, items[i], i, w, answers);
    if k == i {
      var path := SectionPath(c, items[i], i).value;
      forall j | i + 1 <= j < |items| ensures SectionPath(c, items[j], j) != Some(path) {
        if SectionPath(c, items[j], j).Some? {
          SectionPathsDiffer(c, items[i], items[j], i, j);
        }
      }
      assert path != c.stateFile;
      LoopKeepsFile(c, items, i + 1, t.world, t.answers, path);
      LoopShape(c, items, i + 1, t.world, t.answers);
      var r := Loop(c, items, i + 1, t.world, t.answers);
      assert r.answers[i] == r.answers[..|t.answers|][i];
    } else {
      LoopFiles(c, items, i + 1, t.world, t.answers, k);
    }
  }

  /** The record's progress after the store's update for (current, total). */
  function ProgressValue(current: int, total: int): Json {
    JObj(Field("current", JInt(current), Single("total", JInt(total))))
  }

  /** A turn that raises nothing leaves the stage's record with progress
      (i + 1, total), and the state well formed. */
  lemma TurnProgress(c: Setting, section: Json, i: nat, w: World, answers: seq<Llm.LlmResult>)
    requires Turn(c, section, i, w, answers).raised.None?
    requires w.state.Some? && StateStore.WellFormed(w.state.value) && StateStore.KeyNumber(c.key).Ok?
    ensures var st := Turn(c, section, i, w, answers).world.state;
      && st.Some? && StateStore.WellFormed(st.value)
      && Base.RecordField(st.value, c.key, "progress") == Some(ProgressValue(i + 1, c.total))
  {
    TurnState(c, section, i, w, answers);
    ProgressedRecord(c, i, w);
  }

  /** Only the progress update of a turn changes the state. */
  lemma TurnState(c: Setting, section: Json, i: nat, w: World, answers: seq<Llm.LlmResult>)
    requires Turn(c, section, i, w, answers).raised.None?
    ensures Turn(c, section, i, w, answers).world.state == Progressed(c, i, w).0.state
  {
    var w1 := Progressed(c, i, w).0;
    WrittenKeepsState(c, section, i, w1, answers, c.compose(section, i, Contents(answers)).value);
  }

  /** The call and the write of a section leave the state alone. */
  lemma WrittenKeepsState(c: Setting, section: Json, i: nat, w: World, answers: seq<Llm.LlmResult>, content: string)
    ensures Written(c, section, i, w, answers, content).world.state == w.state
  {
    assert Called(c, w, content).0.state == w.state;
  }

  /** The store's update for (i + 1, total) stores that progress. */
  lemma ProgressedRecord(c: Setting, i: nat, w: World)
    requires w.state.Some? && StateStore.WellFormed(w.state.value) && StateStore.KeyNumber(c.key).Ok?
    ensures var st := Progressed(c, i, w).0.state;
      && st.Some? && StateStore.WellFormed(st.value)
      && Base.RecordField(st.value, c.key, "progress") == Some(ProgressValue(i + 1, c.total))
  {
    var extra := Base.ProgressExtra(i + 1, c.total);
    Base.UpdatedRest(w.state.value, c.key, "in_progress", extra, c.now);
    assert HasKey(extra, "progress") && !HasKey(extra, "status");
    Base.UpdatedRecord(w.state.value, c.key, "in_progress", extra, c.now);
  }

  /** `update_progress(i + 1, total)` before each section: after a
      completed loop over at least one section the record's progress is
      (number of sections, total). */
  lemma {:induction false} LoopProgress(c: Setting, items: seq<Json>, i: nat, w: World, answers: seq<Llm.LlmResult>)
    requires i < |items| && Loop(c, items, i, w, answers).raised.None?
    requires w.state.Some? && StateStore.WellFormed(w.state.value) && StateStore.KeyNumber(c.key).Ok?
    ensures var st := Loop(c, items, i, w, answers).world.state;
      && st.Some? && StateStore.WellFormed(st.value)
      && Base.RecordField(st.value, c.key, "progress") == Some(ProgressValue(|items|, c.total))
    decreases |items| - i
  {
    var t := Turn(c, items[i], i, w, answers);
    TurnProgress(c, items[i], i, w, answers);
    if i + 1 < |items| {
      LoopProgress(c, items, i + 1, t.world, t.answers);
    }
  }

  /** The inputs `execute` loads before the loop. */
  datatype Inputs = Inputs(transcript: string, plan: Json, sections: seq<Json>, total: nat)

  /** The corrected transcript, the plan, its sections and their number;
      the first of their errors otherwise. */
  function Load(s: Base.Stage): (r: Result<Inputs>)
    reads s.state.fs
    ensures r.Ok? ==> |r.value.sections| == r.value.total
  {
    var transcript :- s.ReadInput(Some(TranscriptFile));
    var plan :- s.ReadJson(PlanFile);
    var sections :- Subscript(plan, "sections");
    var total :- Len(sections);
    Ok(Inputs(transcript, plan, Iterate(sections).value, total))
  }

  /** The fixed part of the loop for a stage and its inputs. */
  function SettingOf(s: Base.Stage, now: string, inputs: Inputs): Setting
    reads s, s.llm.prompts, s.llm.prompts.fs
  {
    Setting(s.Key(), s.state.stateFile, s.state.codec, s.llm.codec, s.stagesDir, s.Prompt(), s.llm.client.service,
            s.stageName, now, inputs.total, Composer(s.state.codec, inputs.total, inputs.transcript, inputs.plan))
  }

  /** What `execute` returns once the loop is done. */
  function Outcome(run: Run, total: nat): Result<Base.StageResult> {
    if run.raised.Some? then Err(run.raised.value)
    else Ok(Base.StageResult(true, Some(Info.outputFile), TokenSum(run.answers), None,
                             Some(Single("sections_count", JInt(total)))))
  }

  /** The stage's fixed parts are those of the setting. */
  ghost predicate Fits(s: Base.Stage, c: Setting)
    reads s, s.llm.prompts, s.llm.prompts.fs
  {
    && c.key == s.Key() && c.stateFile == s.state.stateFile && c.codec == s.state.codec
    && c.llmCodec == s.llm.codec && c.stagesDir == s.stagesDir && c.service == s.llm.client.service
    && c.stageName == s.stageName && c.prompt == s.Prompt()
  }

  /** One section once its request text is built: the call, the slug of
      its title, and the write of its file, as `Written` says. */
  method WriteSection(s: Base.Stage, ghost c: Setting, section: Json, i: nat, content: string,
                      ghost answers: seq<Llm.LlmResult>) returns (r: Result<Llm.LlmResult>)
    requires s.llm.prompts.fs != s.state.fs && Fits(s, c)
    modifies s.state.fs, s.llm.prompts`cache, s.llm.client`requests, s.llm.client`lastTokenCount
    ensures Fits(s, c) && s.state.state == old(s.state.state)
    ensures var run := Written(c, section, i, old(WorldOf(s)), answers, content);
      && WorldOf(s) == run.world
      && (r.Err? ==> run.raised == Some(r.error))
      && (r.Ok? ==> run.raised.None? && run.answers == answers + [r.value])
  {
    r := s.CallLlm(content, None);
    assert s.Prompt() == old(s.Prompt());
    if r.Err? {
      return;
    }
    var title := Subscript(section, "title");
    if title.Err? {
      return Err(title.error);
    }
    var slug := SlugOf(title.value);
    if slug.Err? {
      return Err(slug.error);
    }
    var _ := s.SaveOutput(r.value.content, Some(SectionsDir + "/" + SectionFile(i, slug.value)));
  }

  /** A turn whose progress update fails stops there. */
  lemma TurnUnsaved(c: Setting, section: Json, i: nat, w: World, answers: seq<Llm.LlmResult>)
    requires Progressed(c, i, w).1.Err?
    ensures Turn(c, section, i, w, answers) == Run(Progressed(c, i, w).0, answers, Some(Progressed(c, i, w).1.error))
  {
  }

  /** A turn whose request text is built goes on as `Written` says; one
      whose text fails stops with its error. */
  lemma TurnComposed(c: Setting, section: Json, i: nat, w: World, answers: seq<Llm.LlmResult>)
    requires Progressed(c, i, w).1.Ok?
    ensures var w1 := Progressed(c, i, w).0;
      match c.compose(section, i, Contents(answers))
      case Err(e) => Turn(c, section, i, w, answers) == Run(w1, answers, Some(e))
      case Ok(content) => Turn(c, section, i, w, answers) == Written(c, section, i, w1, answers, content)
  {
  }

  /** The turn of the section at index i, as `Turn` says. */
  method WriteTurn(s: Base.Stage, ghost c: Setting, compose: (Json, nat, seq<string>) -> Result<string>,
                   section: Json, i: nat, total: int, now: string, written: seq<string>,
                   ghost answers: seq<Llm.LlmResult>) returns (r: Result<Llm.LlmResult>)
    requires s.llm.prompts.fs != s.state.fs && Fits(s, c) && compose == c.compose
    requires c.now == now && c.total == total && written == Contents(answers)
    modifies s.state`state, s.state.fs, s.llm.prompts`cache, s.llm.client`requests, s.llm.client`lastTokenCount
    ensures Fits(s, c)
    ensures var t := Turn(c, section, i, old(WorldOf(s)), answers);
      && WorldOf(s) == t.world
      && (r.Err? ==> t.raised == Some(r.error))
      && (r.Ok? ==> t.raised.None? && t.answers == answers + [r.value])
  {
    ghost var w := WorldOf(s);
    var u := s.UpdateProgress(i + 1, total, now);
    assert (WorldOf(s), u) == Progressed(c, i, w);
    if u.Err? {
      TurnUnsaved(c, section, i, w, answers);
      return Err(u.error);
    }
    TurnComposed(c, section, i, w, answers);
    var content := compose(section, i, written);
    if content.Err? {
      return Err(content.error);
    }
    r := WriteSection(s, c, section, i, content.value, answers);
  }

  /** The loop over the plan's sections: each turn records the progress,
      builds the request text from the answers so far and writes the
      section; the first error stops the loop. The token counts of the
      answers are summed. */
  method WriteSections(s: Base.Stage, ghost c: Setting, compose: (Json, nat, seq<string>) -> Result<string>,
                       items: seq<Json>, now: string) returns (r: Result<int>)
    requires s.llm.prompts.fs != s.state.fs && Fits(s, c) && compose == c.compose
    requires c.now == now && c.total == |items|
    modifies s.state`state, s.state.fs, s.llm.prompts`cache, s.llm.client`requests, s.llm.client`lastTokenCount
    ensures var run := Loop(c, items, 0, old(WorldOf(s)), []);
      && WorldOf(s) == run.world
      && (r.Err? ==> run.raised == Some(r.error))
      && (r.Ok? ==> run.raised.None? && r.value == TokenSum(run.answers))
  {
    ghost var run := Loop(c, items, 0, WorldOf(s), []);
    var written: seq<string> := [];
    var totalTokens := 0;
    ghost var answers: seq<Llm.LlmResult> := [];
    var i := 0;
    while i < |items|
      invariant 0 <= i <= |items|
      invariant run == Loop(c, items, i, WorldOf(s), answers)
      invariant written == Contents(answers) && totalTokens == TokenSum(answers)
      invariant Fits(s, c)
    {
      var result := WriteTurn(s, c, compose, items[i], i, |items|, now, written, answers);
      if result.Err? {
        return Err(result.error);
      }
      AnswerAdded(answers, result.value);
      written := written + [result.value.content];
      totalTokens := totalTokens + result.value.tokensUsed;
      answers := answers + [result.value];
      i := i + 1;
    }
    return Ok(totalTokens);
  }

  /** `execute`: the inputs are loaded, the sections directory is made and
      the loop runs over the plan's sections; an error raised in a turn
      leaves what the earlier turns and that turn did so far. The prompts
      are read from a file system of their own, which the stage's writes
      do not touch. */
  method Execute(s: Base.Stage, now: string) returns (r: Result<Base.StageResult>)
    requires s.info == Info && s.llm.prompts.fs != s.state.fs
    modifies s.state`state, s.state.fs, s.llm.prompts`cache, s.llm.client`requests, s.llm.client`lastTokenCount
    ensures var inputs := old(Load(s));
      && (inputs.Err? ==> r == Err(inputs.error) && WorldOf(s) == old(WorldOf(s)))
      && (inputs.Ok? ==>
            var run := Loop(old(SettingOf(s, now, inputs.value)), inputs.value.sections, 0, old(WorldOf(s)), []);
            WorldOf(s) == run.world && r == Outcome(run, inputs.value.total))
  {
    var transcript :- s.ReadInput(Some(TranscriptFile));
    var plan :- s.ReadJson(PlanFile);
    var sections :- Subscript(plan, "sections");
    var total :- Len(sections);
    var items := Iterate(sections).value;
    ghost var inputs := Inputs(transcript, plan, items, total);
    assert Load(s) == Ok(inputs);
    ghost var c := SettingOf(s, now, inputs);
    ghost var run := Loop(c, items, 0, WorldOf(s), []);
    s.state.fs.Mkdir(PathJoin(s.stagesDir, SectionsDir));
    var totalTokens :- WriteSections(s, c, Composer(s.state.codec, total, transcript, plan), items, now);
    return Ok(Base.StageResult(true, Some(Info.outputFile), totalTokens, None, Some(Single("sections_count", JInt(total)))));
  }
}
