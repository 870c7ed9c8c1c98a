/** Stage 4, `PlanStage`: the model's answer is searched for a JSON
    plan, which is checked, saved as JSON and rendered as readable
    markdown. */
module Plan {
  import opened Wrappers
  import opened Json
  import opened Py
  import opened Storage
  import Text
  import Llm
  import Base

  /** The stage's declared attributes. */
  const Info := Base.StageInfo(4, "04_plan", "План статьи", ["03_corrected.md"], "04_plan.json")

  const ReadableFile := "04_plan_readable.md"
  const InvalidPlanMessage := "Invalid plan structure returned by LLM"

  // ---------------------------------------------------------------------
  // _extract_json

  const Fence := "```"

  /** The index after an optional `json` tag at `i`. */
  function AfterTag(text: string, i: nat): (j: nat)
    ensures j == i || j == i + 4
  {
    if Text.OccursAt(text, "json", i) then i + 4 else i
  }

  /** The first index at or after `i` that is not whitespace (`\s*`). */
  function SkipSpace(text: string, i: nat): (j: nat)
    ensures i <= j && (i <= |text| ==> j <= |text|)
    ensures forall k :: i <= k < j ==> k < |text| && Text.IsSpace(text[k])
    ensures j < |text| ==> !Text.IsSpace(text[j])
    decreases |text| - i
  {
    if i < |text| && Text.IsSpace(text[i]) then SkipSpace(text, i + 1) else i
  }

  /** Group 1 of the search for ```` ```(?:json)?\s*\n?(.*?)\n?``` ````:
      the text after the first fence, its optional tag and the whitespace
      that follows, up to the next fence, less one newline right before
      it; None when no fence follows the first one. The first fence is
      the only opening that can match: every later opening needs a
      closing fence further on, which the first one would use too. */
  function FencedBody(text: string): (r: Option<string>)
    ensures r.Some? ==> !Text.IsInfix(Fence, r.value)
  {
    match Text.FindFrom(text, Fence, 0)
    case None => None
    case Some(p) => FencedFrom(text, SkipSpace(text, AfterTag(text, p + 3)))
  }

  /** The lazy body from `start` up to the next fence, less one newline
      right before it. */
  function FencedFrom(text: string, start: nat): (r: Option<string>)
    ensures r.Some? ==> !Text.IsInfix(Fence, r.value)
  {
    if start > |text| then None
    else match Text.FindFrom(text, Fence, start)
      case None => None
      case Some(q) =>
        var e := if q > start && text[q - 1] == '\n' then q - 1 else q;
        NoFenceBefore(text, start, q, e);
        Some(text[start..e])
  }

  /** `\s*` stops at the first character that is not whitespace. */
  lemma SkipSpaceTo(text: string, i: nat, j: nat)
    requires i <= j < |text| && !Text.IsSpace(text[j])
    requires forall k :: i <= k < j ==> Text.IsSpace(text[k])
    ensures SkipSpace(text, i) == j
  {
  }

  /** The search captures the body of a fenced block: an answer made of a
      text without a fence, the opening fence, an optional `json` tag,
      whitespace, the body, an optional newline, the closing fence and
      anything after it gives back exactly the body. The body must not
      start with whitespace, which `\s*` would take, nor hold a fence;
      when no newline comes before the closing fence, it must not end with
      a newline, which the optional `\n` would take, nor with a backtick,
      with which the closing fence would start one character earlier. */
  lemma FencedBodyOfBlock(text: string, pre: string, tag: string, ws: string, body: string, nl: string, post: string)
    requires text == pre + Fence + tag + ws + body + nl + Fence + post
    requires forall k: nat :: k < |pre| ==> !Text.OccursAt(text, Fence, k)
    requires tag == "json" || (tag == "" && !Text.OccursAt(text, "json", |pre| + 3))
    requires forall k :: 0 <= k < |ws| ==> Text.IsSpace(ws[k])
    requires nl == "" || nl == "\n"
    requires body == [] || !Text.IsSpace(body[0])
    requires !Text.IsInfix(Fence, body)
    requires nl == "" && body != [] ==> body[|body| - 1] != '\n' && body[|body| - 1] != '`'
    ensures FencedBody(text) == Some(body)
  {
    BlockLayout(text, pre, tag, ws, body, nl, post);
    FencedBodyAt(text, |pre|, |tag|, |pre| + 3 + |tag| + |ws|, body, nl);
  }

  /** The same, by positions: a fence at p and none before, the optional
      tag, whitespace up to b, the body from b, the optional newline and
      the closing fence. */
  lemma FencedBodyAt(text: string, p: nat, tagLength: nat, b: nat, body: string, nl: string)
    requires Text.OccursAt(text, Fence, p) && forall k: nat :: k < p ==> !Text.OccursAt(text, Fence, k)
    requires (tagLength == 4 && Text.OccursAt(text, "json", p + 3)) || (tagLength == 0 && !Text.OccursAt(text, "json", p + 3))
    requires p + 3 + tagLength <= b && b + |body| + |nl| + 3 <= |text|
    requires forall k :: p + 3 + tagLength <= k < b ==> Text.IsSpace(text[k])
    requires text[b..b + |body|] == body
    requires Text.OccursAt(text, Fence, b + |body| + |nl|)
    requires nl == "" || (nl == "\n" && text[b + |body|] == '\n')
    requires body == [] || !Text.IsSpace(body[0])
    requires !Text.IsInfix(Fence, body)
    requires nl == "" && body != [] ==> body[|body| - 1] != '\n' && body[|body| - 1] != '`'
    ensures FencedBody(text) == Some(body)
  {
    if body == [] {
      Text.FindFromAt(text, Fence, 0, p);
      EmptyBodyAt(text, p, tagLength, b, b + |nl|);
    } else {
      BodyAt(text, p, tagLength, b, body, nl);
    }
  }

  /** A body that is not empty starts at b, right after the whitespace. */
  lemma BodyAt(text: string, p: nat, tagLength: nat, b: nat, body: string, nl: string)
    requires Text.OccursAt(text, Fence, p) && forall k: nat :: k < p ==> !Text.OccursAt(text, Fence, k)
    requires (tagLength == 4 && Text.OccursAt(text, "json", p + 3)) || (tagLength == 0 && !Text.OccursAt(text, "json", p + 3))
    requires p + 3 + tagLength <= b && b + |body| + |nl| + 3 <= |text|
    requires forall k :: p + 3 + tagLength <= k < b ==> Text.IsSpace(text[k])
    requires body != [] && text[b..b + |body|] == body
    requires Text.OccursAt(text, Fence, b + |body| + |nl|)
    requires nl == "" || (nl == "\n" && text[b + |body|] == '\n')
    requires !Text.IsSpace(body[0]) && !Text.IsInfix(Fence, body)
    requires nl == "" ==> body[|body| - 1] != '\n' && body[|body| - 1] != '`'
    ensures FencedBody(text) == Some(body)
  {
    var q := b + |body| + |nl|;
    BodyHasNoFence(text, b, body, nl, q);
    ClosedAt(text, b, body, nl, q);
    assert text[b] == body[0];
    OpeningSkipped(text, p, tagLength, b, b);
    Text.FindFromAt(text, Fence, 0, p);
    FoundBody(text, p, b, q, b + |body|, body);
  }

  /** An empty body: the closing fence follows the whitespace and the
      optional newline. */
  lemma EmptyBodyAt(text: string, p: nat, tagLength: nat, b: nat, q: nat)
    requires Text.FindFrom(text, Fence, 0) == Some(p)
    requires (tagLength == 4 && Text.OccursAt(text, "json", p + 3)) || (tagLength == 0 && !Text.OccursAt(text, "json", p + 3))
    requires p + 3 + tagLength <= b <= q && Text.OccursAt(text, Fence, q)
    requires forall k :: p + 3 + tagLength <= k < b ==> Text.IsSpace(text[k])
    requires b < q ==> q == b + 1 && text[b] == '\n'
    ensures FencedBody(text) == Some([])
  {
    assert text[q] == text[q..q + 3][0];
    OpeningSkipped(text, p, tagLength, b, q);
    Text.FindFromAt(text, Fence, q, q);
    FoundBody(text, p, q, q, q, []);
  }

  /** The tag and the whitespace after the opening fence at p are skipped
      up to `start`. */
  lemma OpeningSkipped(text: string, p: nat, tagLength: nat, b: nat, start: nat)
    requires (tagLength == 4 && Text.OccursAt(text, "json", p + 3)) || (tagLength == 0 && !Text.OccursAt(text, "json", p + 3))
    requires p + 3 + tagLength <= b <= start < |text| && !Text.IsSpace(text[start])
    requires forall k :: p + 3 + tagLength <= k < b ==> Text.IsSpace(text[k])
    requires b < start ==> start == b + 1 && text[b] == '\n'
    ensures SkipSpace(text, AfterTag(text, p + 3)) == start
  {
    SkipSpaceTo(text, p + 3 + tagLength, start);
  }

  /** The optional newline before the closing fence at q is dropped. */
  lemma ClosedAt(text: string, b: nat, body: string, nl: string, q: nat)
    requires body != [] && q == b + |body| + |nl| && q <= |text| && text[b..b + |body|] == body
    requires nl == "" || (nl == "\n" && text[b + |body|] == '\n')
    requires nl == "" ==> body[|body| - 1] != '\n'
    ensures (if q > b && text[q - 1] == '\n' then q - 1 else q) == b + |body|
  {
    if nl == "" {
      assert text[q - 1] == body[|body| - 1];
    }
  }

  /** The body the search captures, from the positions of its steps. */
  lemma FoundBody(text: string, p: nat, start: nat, q: nat, e: nat, body: string)
    requires Text.FindFrom(text, Fence, 0) == Some(p) && SkipSpace(text, AfterTag(text, p + 3)) == start
    requires Text.FindFrom(text, Fence, start) == Some(q) && e == (if q > start && text[q - 1] == '\n' then q - 1 else q)
    requires start <= e <= |text| && text[start..e] == body
    ensures FencedBody(text) == Some(body)
  {
    FoundFrom(text, start, q, e);
  }

  /** The body from `start`, given the closing fence at q. */
  lemma FoundFrom(text: string, start: nat, q: nat, e: nat)
    requires Text.FindFrom(text, Fence, start) == Some(q) && e == (if q > start && text[q - 1] == '\n' then q - 1 else q)
    ensures start <= e <= |text| && FencedFrom(text, start) == Some(text[start..e])
  {
    assert Text.OccursAt(text, Fence, q);
  }

  /** Where the parts of a fenced block lie in the answer. */
  lemma BlockLayout(text: string, pre: string, tag: string, ws: string, body: string, nl: string, post: string)
    requires text == pre + Fence + tag + ws + body + nl + Fence + post
    ensures var p, a := |pre|, |pre| + 3 + |tag|;
      var b := a + |ws|;
      var q := b + |body| + |nl|;
      && |text| == q + 3 + |post|
      && Text.OccursAt(text, Fence, p) && Text.OccursAt(text, Fence, q)
      && (tag == "json" ==> Text.OccursAt(text, "json", p + 3))
      && (forall k :: a <= k < b ==> text[k] == ws[k - a])
      && text[b..b + |body|] == body
      && (nl == "\n" ==> text[b + |body|] == '\n')
  {
    var h1 := pre + Fence;
    var h2 := h1 + tag;
    var h3 := h2 + ws;
    var h4 := h3 + body;
    var h5 := h4 + nl;
    var h6 := h5 + Fence;
    BlockPrefixes(text, h1, h2, h3, h4, h5, h6, tag, ws, body, nl, post);
    assert Text.OccursAt(text, Fence, |pre|) by {
      Text.AppendedPart(pre, Fence);
      Text.PrefixSlice(h1, text, |pre|, |h1|);
    }
    assert tag == "json" ==> Text.OccursAt(text, "json", |h1|) by {
      Text.AppendedPart(h1, tag);
      Text.PrefixSlice(h2, text, |h1|, |h2|);
    }
    assert forall k :: |h2| <= k < |h3| ==> text[k] == ws[k - |h2|] by {
      Text.AppendedPart(h2, ws);
      Text.PrefixSlice(h3, text, |h2|, |h3|);
      assert forall k :: |h2| <= k < |h3| ==> text[k] == text[|h2|..|h3|][k - |h2|];
    }
    assert text[|h3|..|h4|] == body by {
      Text.AppendedPart(h3, body);
      Text.PrefixSlice(h4, text, |h3|, |h4|);
    }
    assert nl == "\n" ==> text[|h4|] == '\n' by {
      Text.AppendedPart(h4, nl);
      Text.PrefixSlice(h5, text, |h4|, |h5|);
      assert nl == "\n" ==> text[|h4|] == text[|h4|..|h5|][0];
    }
    assert Text.OccursAt(text, Fence, |h5|) by {
      Text.AppendedPart(h5, Fence);
      Text.PrefixSlice(h6, text, |h5|, |h6|);
    }
  }

  /** Each part of the block, with the parts before it, starts the answer. */
  lemma BlockPrefixes(text: string, h1: string, h2: string, h3: string, h4: string, h5: string, h6: string,
                      tag: string, ws: string, body: string, nl: string, post: string)
    requires h2 == h1 + tag && h3 == h2 + ws && h4 == h3 + body && h5 == h4 + nl && h6 == h5 + Fence
    requires text == h6 + post
    ensures Text.PrefixOf(h1, text) && Text.PrefixOf(h2, text) && Text.PrefixOf(h3, text)
    ensures Text.PrefixOf(h4, text) && Text.PrefixOf(h5, text) && Text.PrefixOf(h6, text)
  {
    Text.PrefixOfAppend(h6, post);
    Text.PrefixOfAppend(h5, Fence);
    Text.PrefixTrans(h5, h6, text);
    Text.PrefixOfAppend(h4, nl);
    Text.PrefixTrans(h4, h5, text);
    Text.PrefixOfAppend(h3, body);
    Text.PrefixTrans(h3, h4, text);
    Text.PrefixOfAppend(h2, ws);
    Text.PrefixTrans(h2, h3, text);
    Text.PrefixOfAppend(h1, tag);
    Text.PrefixTrans(h1, h2, text);
  }

  /** No fence starts inside the body or across its end, so the search
      for the closing fence from the body's start finds the one at q. */
  lemma BodyHasNoFence(text: string, b: nat, body: string, nl: string, q: nat)
    requires body != [] && q == b + |body| + |nl| && q <= |text|
    requires text[b..b + |body|] == body && !Text.IsInfix(Fence, body)
    requires nl == "" || (nl == "\n" && text[b + |body|] == '\n')
    requires nl == "" ==> body[|body| - 1] != '`'
    requires Text.OccursAt(text, Fence, q)
    ensures Text.FindFrom(text, Fence, b) == Some(q)
  {
    forall k: nat | b <= k < q ensures !Text.OccursAt(text, Fence, k) {
      if k + 3 > |text| {
      } else if k + 3 <= b + |body| {
        assert body[k - b..k - b + 3] == text[k..k + 3] by {
          assert forall m :: k <= m < k + 3 ==> text[m] == text[b..b + |body|][m - b];
        }
        assert !Text.OccursAt(body, Fence, k - b);
      } else if nl == "\n" {
        assert text[k..k + 3][b + |body| - k] == '\n';
      } else {
        assert text[b + |body| - 1] == body[|body| - 1];
        assert text[k..k + 3][b + |body| - 1 - k] != '`';
      }
    }
    Text.FindFromAt(text, Fence, b, q);
  }

  /** A slice ending before the first fence at or after its start holds no
      fence. */
  lemma NoFenceBefore(text: string, start: nat, q: nat, e: nat)
    requires Text.FindFrom(text, Fence, start) == Some(q) && start <= e <= q
    ensures !Text.IsInfix(Fence, text[start..e])
  {
    var body := text[start..e];
    assert Text.OccursAt(text, Fence, q);
    forall k: nat | k <= |body| ensures !Text.OccursAt(body, Fence, k) {
      if Text.OccursAt(body, Fence, k) {
        assert start + k < q;
        assert k + |Fence| <= |body| == e - start;
        assert forall m :: k <= m < k + |Fence| ==> body[m] == text[start + m];
        assert text[start + k..start + k + |Fence|] == body[k..k + |Fence|];
        assert Text.OccursAt(text, Fence, start + k);
      }
    }
  }

  /** The first index of `c` at or after `i`. */
  function FirstOf(text: string, c: char, i: nat): (r: Option<nat>)
    ensures r.Some? ==> i <= r.value < |text| && text[r.value] == c && forall k :: i <= k < r.value ==> text[k] != c
    ensures r.None? ==> forall k :: i <= k < |text| ==> text[k] != c
    decreases |text| - i
  {
    if i >= |text| then None else if text[i] == c then Some(i) else FirstOf(text, c, i + 1)
  }

  /** The last index of `c` before `j`. */
  function LastOf(text: string, c: char, j: nat): (r: Option<nat>)
    requires j <= |text|
    ensures r.Some? ==> r.value < j && text[r.value] == c && forall k :: r.value < k < j ==> text[k] != c
    ensures r.None? ==> forall k :: 0 <= k < j ==> text[k] != c
  {
    if j == 0 then None else if text[j - 1] == c then Some(j - 1) else LastOf(text, c, j - 1)
  }

  /** Group 0 of the search for `\{.*\}` with `.` matching newlines: from
      the first '{' to the last '}', when that one comes after it. */
  function BraceSpan(text: string): (r: Option<string>)
  {
    match (FirstOf(text, '{', 0), LastOf(text, '}', |text|))
    case (Some(i), Some(j)) => if i < j then Some(text[i..j + 1]) else None
    case _ => None
  }

  /** The span opens with '{' and closes with '}'; no '{' comes before it
      and no '}' after it, and there is none only when no '}' follows the
      first '{'. */
  lemma BraceSpanBounds(text: string)
    ensures match BraceSpan(text)
      case Some(span) =>
        exists i: nat :: Text.OccursAt(text, span, i)
          && |span| >= 2 && span[0] == '{' && span[|span| - 1] == '}'
          && (forall k :: 0 <= k < i ==> text[k] != '{')
          && (forall k :: i + |span| <= k < |text| ==> text[k] != '}')
      case None => forall i, j :: 0 <= i < j < |text| && text[i] == '{' ==> text[j] != '}'
  {
    var fi := FirstOf(text, '{', 0);
    var lj := LastOf(text, '}', |text|);
    if fi.Some? && lj.Some? && fi.value < lj.value {
      var i := fi.value;
      var span := text[i..lj.value + 1];
      assert Text.OccursAt(text, span, i);
    }
  }

  /** The text `json.loads` is given: the fenced body, else the brace
      span, else the whole answer. */
  function JsonText(text: string): (r: string)
    ensures FencedBody(text).Some? ==> r == FencedBody(text).value && !Text.IsInfix(Fence, r)
    ensures FencedBody(text).None? && BraceSpan(text).Some? ==>
      r == BraceSpan(text).value && |r| >= 2 && r[0] == '{' && r[|r| - 1] == '}'
    ensures FencedBody(text).None? && BraceSpan(text).None? ==> r == text
  {
    match FencedBody(text)
    case Some(body) => body
    case None =>
      match BraceSpan(text)
      case Some(span) => span
      case None => text
  }

  /** `json.loads(text)`: text that is not JSON raises. */
  function Parse(codec: Codec, text: string): (r: Result<Json>)
    ensures r.Ok? <==> codec.loads(text).Some?
    ensures r.Ok? ==> r.value == codec.loads(text).value
  {
    match codec.loads(text)
    case Some(j) => Ok(j)
    case None => Err(Error(JsonDecodeError, "Expecting value: line 1 column 1 (char 0)"))
  }

  // ---------------------------------------------------------------------
  // _validate_plan

  /** The section loop of `_validate_plan` from the i-th section on: false
      at the first section that lacks "title" or "key_points"; `in` raises
      on a section that is no container. */
  function SectionsValid(items: seq<Json>, i: nat): (r: Result<bool>)
    requires i <= |items|
    decreases |items| - i
  {
    if i == |items| then Ok(true)
    else
      var hasTitle :- Contains(items[i], "title");
      if !hasTitle then Ok(false)
      else
        var hasPoints := Contains(items[i], "key_points").value;
        if !hasPoints then Ok(false) else SectionsValid(items, i + 1)
  }

  /** `_validate_plan(plan)`. `in` asks a dict for its keys, a list for
      its elements and a string for its substrings, and raises on anything
      else; `plan["sections"]` raises on a list or a string. */
  function ValidatePlan(plan: Json): Result<bool> {
    var hasTitle :- Contains(plan, "title");
    if !hasTitle then Ok(false)
    else
      var hasSections := Contains(plan, "sections").value;
      if !hasSections then Ok(false)
      else
        var sections :- Subscript(plan, "sections");
        if !sections.JList? || |sections.items| == 0 then Ok(false)
        else SectionsValid(sections.items, 0)
  }

  /** `key in section` holds, in Python's sense. */
  predicate Holds(section: Json, key: string) {
    Contains(section, key) == Ok(true)
  }

  /** The plans that pass: a dict with "title" and "sections", whose
      sections form a non-empty list, each holding "title" and
      "key_points". Nothing is asked of the values themselves. */
  predicate WellShapedPlan(plan: Json) {
    && plan.JObj? && HasKey(plan.fields, "title") && HasKey(plan.fields, "sections")
    && var sections := Lookup(plan.fields, "sections").value;
       && sections.JList? && |sections.items| > 0
       && forall k :: 0 <= k < |sections.items| ==>
            Holds(sections.items[k], "title") && Holds(sections.items[k], "key_points")
  }

  lemma {:induction false} SectionsValidIff(items: seq<Json>, i: nat)
    requires i <= |items|
    ensures SectionsValid(items, i) == Ok(true) <==>
      forall k :: i <= k < |items| ==> Holds(items[k], "title") && Holds(items[k], "key_points")
    decreases |items| - i
  {
    if i < |items| {
      SectionsValidIff(items, i + 1);
      var x := items[i];
      if Holds(x, "title") && Holds(x, "key_points") {
        assert SectionsValid(items, i) == SectionsValid(items, i + 1);
        assert (forall k :: i <= k < |items| ==> Holds(items[k], "title") && Holds(items[k], "key_points")) <==>
               (forall k :: i + 1 <= k < |items| ==> Holds(items[k], "title") && Holds(items[k], "key_points"));
      } else {
        assert SectionsValid(items, i) != Ok(true);
      }
    }
  }

  /** `_validate_plan` is true exactly on well-shaped plans. */
  lemma ValidatePlanIff(plan: Json)
    ensures ValidatePlan(plan) == Ok(true) <==> WellShapedPlan(plan)
  {
    if plan.JObj? && HasKey(plan.fields, "title") && HasKey(plan.fields, "sections") {
      var sections := Lookup(plan.fields, "sections").value;
      if sections.JList? && |sections.items| > 0 {
        SectionsValidIff(sections.items, 0);
      }
    }
  }

  /** A plan that is not a dict, a list or a string makes the check raise,
      as do a list or a string holding both "title" and "sections". */
  lemma ValidatePlanRaises(plan: Json)
    ensures !(plan.JObj? || plan.JList? || plan.JStr?) ==> ValidatePlan(plan).Err?
    ensures plan.JList? && JStr("title") in plan.items && JStr("sections") in plan.items ==>
      ValidatePlan(plan).Err?
  {}

  // ---------------------------------------------------------------------
  // _save_plan_markdown

  const StructureHeading := "\n## Структура статьи\n"
  const PointsHeading := "\n**Ключевые тезисы:**\n"
  const SectionMark := "\n### "

  function Bullet(codec: Codec, point: Json): string {
    "- " + Str(codec, point) + "\n"
  }

  /** The bullets of the key points, in order. */
  function Bullets(codec: Codec, points: seq<Json>): (r: seq<string>)
    ensures |r| == |points| && forall k :: 0 <= k < |points| ==> r[k] == Bullet(codec, points[k])
  {
    if |points| == 0 then [] else Bullets(codec, points[..|points| - 1]) + [Bullet(codec, points[|points| - 1])]
  }

  function SectionHeading(codec: Codec, n: nat, title: Json): string {
    SectionMark + Text.NatToString(n) + ". " + Str(codec, title) + "\n"
  }

  /** The lines of the n-th section: its numbered heading and, when its key
      points are truthy, the points heading and a bullet per point. */
  function SectionBlock(codec: Codec, section: Json, n: nat): Result<seq<string>> {
    var title :- Subscript(section, "title");
    var points := DictGet(section, "key_points", JNull).value;
    if !Truthy(points) then Ok([SectionHeading(codec, n, title)])
    else
      var items :- Iterate(points);
      Ok([SectionHeading(codec, n, title), PointsHeading] + Bullets(codec, items))
  }

  /** The lines of the sections from the i-th on, numbered from i + 1. */
  function SectionLines(codec: Codec, items: seq<Json>, i: nat): Result<seq<string>>
    requires i <= |items|
    decreases |items| - i
  {
    if i == |items| then Ok([])
    else
      var block :- SectionBlock(codec, items[i], i + 1);
      var rest :- SectionLines(codec, items, i + 1);
      Ok(block + rest)
  }

  /** The lines before the sections: the title, then the subtitle and the
      tags when they are truthy. */
  function HeaderLines(codec: Codec, plan: Json): Result<seq<string>> {
    var title :- Subscript(plan, "title");
    var subtitle := DictGet(plan, "subtitle", JNull).value;
    var first := ["# " + Str(codec, title) + "\n"];
    var lines := if Truthy(subtitle) then first + ["*" + Str(codec, subtitle) + "*\n"] else first;
    var tags := DictGet(plan, "tags", JNull).value;
    if Truthy(tags) then
      var joined :- JoinStrs(", ", tags);
      Ok(lines + ["**Теги:** " + joined + "\n"])
    else Ok(lines)
  }

  /** The `lines` list `_save_plan_markdown` builds. */
  function PlanLines(codec: Codec, plan: Json): Result<seq<string>> {
    var header :- HeaderLines(codec, plan);
    var sections :- Subscript(plan, "sections");
    var items :- Iterate(sections);
    var body :- SectionLines(codec, items, 0);
    Ok(header + [StructureHeading] + body)
  }

  /** The title comes first; the subtitle line is there exactly when the
      subtitle is truthy, and the tags line, joined by ", ", exactly when
      the tags are. */
  lemma HeaderShape(codec: Codec, plan: Json, title: Json, subtitle: Json, tags: Json, joined: string)
    requires plan.JObj? && Lookup(plan.fields, "title") == Some(title)
    requires Lookup(plan.fields, "subtitle").GetOr(JNull) == subtitle && Lookup(plan.fields, "tags").GetOr(JNull) == tags
    requires Truthy(tags) ==> JoinStrs(", ", tags) == Ok(joined)
    ensures var h := HeaderLines(codec, plan);
      && h.Ok? && |h.value| == 1 + (if Truthy(subtitle) then 1 else 0) + (if Truthy(tags) then 1 else 0)
      && h.value[0] == "# " + Str(codec, title) + "\n"
      && (Truthy(subtitle) ==> h.value[1] == "*" + Str(codec, subtitle) + "*\n")
      && (Truthy(tags) ==> h.value[|h.value| - 1] == "**Теги:** " + joined + "\n")
  {}

  /** Whether a line is a section heading. */
  predicate IsHeading(line: string) {
    |line| >= |SectionMark| && line[..|SectionMark|] == SectionMark
  }

  /** The section headings among some lines, in order. */
  function Headings(lines: seq<string>): (r: seq<string>)
    ensures |r| <= |lines|
  {
    if |lines| == 0 then []
    else (if IsHeading(lines[0]) then [lines[0]] else []) + Headings(lines[1..])
  }

  lemma {:induction false} HeadingsAppend(a: seq<string>, b: seq<string>)
    ensures Headings(a + b) == Headings(a) + Headings(b)
    decreases |a|
  {
    if |a| > 0 {
      assert (a + b)[0] == a[0];
      assert (a + b)[1..] == a[1..] + b;
      HeadingsAppend(a[1..], b);
      var h := if IsHeading(a[0]) then [a[0]] else [];
      assert Headings(a + b) == h + Headings(a[1..] + b);
      assert Headings(a) == h + Headings(a[1..]);
    } else {
      assert a + b == b;
    }
  }

  /** Lines none of which is a heading have no headings. */
  lemma {:induction false} NoHeadings(lines: seq<string>)
    requires forall k :: 0 <= k < |lines| ==> !IsHeading(lines[k])
    ensures Headings(lines) == []
    decreases |lines|
  {
    if |lines| > 0 {
      NoHeadings(lines[1..]);
    }
  }

  /** Bullets are not headings. */
  lemma BulletsHaveNoHeading(codec: Codec, points: seq<Json>)
    ensures Headings(Bullets(codec, points)) == []
  {
    var bullets := Bullets(codec, points);
    forall k | 0 <= k < |bullets| ensures !IsHeading(bullets[k]) {
      assert bullets[k][0] == '-';
    }
    NoHeadings(bullets);
  }

  /** A section's block has exactly one heading: its own, numbered n. */
  lemma BlockHeading(codec: Codec, section: Json, n: nat)
    requires SectionBlock(codec, section, n).Ok?
    ensures Headings(SectionBlock(codec, section, n).value) == [SectionHeading(codec, n, Subscript(section, "title").value)]
  {
    var title := Subscript(section, "title").value;
    var head := SectionHeading(codec, n, title);
    var block := SectionBlock(codec, section, n).value;
    assert IsHeading(head) by {
      assert head[..|SectionMark|] == SectionMark;
    }
    assert Headings([head]) == [head] by {
      assert [head][1..] == [];
    }
    if block != [head] {
      var points := DictGet(section, "key_points", JNull).value;
      var items := Iterate(points).value;
      assert block == [head] + ([PointsHeading] + Bullets(codec, items));
      assert !IsHeading(PointsHeading) by {
        assert PointsHeading[1] != SectionMark[1];
      }
      BulletsHaveNoHeading(codec, items);
      HeadingsAppend([PointsHeading], Bullets(codec, items));
      assert Headings([PointsHeading]) == [] by {
        assert [PointsHeading][1..] == [];
      }
      HeadingsAppend([head], [PointsHeading] + Bullets(codec, items));
    }
  }

  /** The rendered sections carry one heading each, in plan order,
      numbered from i + 1. */
  lemma {:induction false} SectionHeadings(codec: Codec, items: seq<Json>, i: nat)
    requires i <= |items| && SectionLines(codec, items, i).Ok?
    ensures var hs := Headings(SectionLines(codec, items, i).value);
      && |hs| == |items| - i
      && forall k :: i <= k < |items| ==>
           Subscript(items[k], "title").Ok? && hs[k - i] == SectionHeading(codec, k + 1, Subscript(items[k], "title").value)
    decreases |items| - i
  {
    if i < |items| {
      var block := SectionBlock(codec, items[i], i + 1).value;
      var rest := SectionLines(codec, items, i + 1).value;
      assert SectionLines(codec, items, i).value == block + rest;
      SectionHeadings(codec, items, i + 1);
      BlockHeading(codec, items[i], i + 1);
      HeadingsAppend(block, rest);
      var hs := Headings(block + rest);
      var title := Subscript(items[i], "title").value;
      assert hs == [SectionHeading(codec, i + 1, title)] + Headings(rest);
      forall k | i <= k < |items|
        ensures Subscript(items[k], "title").Ok? && hs[k - i] == SectionHeading(codec, k + 1, Subscript(items[k], "title").value)
      {
        if k > i {
          assert hs[k - i] == Headings(rest)[k - (i + 1)];
        }
      }
    }
  }

  /** A section whose key points are falsy gets its heading alone; one
      whose points are truthy gets every point as a bullet, in order. */
  lemma BlockBullets(codec: Codec, section: Json, n: nat)
    requires SectionBlock(codec, section, n).Ok?
    ensures var block := SectionBlock(codec, section, n).value;
      var points := Lookup(section.fields, "key_points").GetOr(JNull);
      && section.JObj?
      && (!Truthy(points) ==> |block| == 1)
      && (Truthy(points) ==>
            var items := Iterate(points).value;
            && |block| == 2 + |items| && block[1] == PointsHeading
            && forall k :: 0 <= k < |items| ==> block[2 + k] == Bullet(codec, items[k]))
  {}


  /** Once the header and the sections are at hand, the plan's lines are
      the sections' lines after them. */
  lemma PlanLinesSplit(codec: Codec, plan: Json, header: seq<string>, items: seq<Json>)
    requires HeaderLines(codec, plan) == Ok(header)
    requires Subscript(plan, "sections").Ok? && Iterate(Subscript(plan, "sections").value) == Ok(items)
    ensures PlanLines(codec, plan) == Prefixed(header + [StructureHeading], SectionLines(codec, items, 0))
  {}

  /** One section further: its block joins the prefix, or its error is
      the result. */
  lemma SectionStep(codec: Codec, items: seq<Json>, i: nat, lines: seq<string>)
    requires i < |items|
    ensures SectionBlock(codec, items[i], i + 1).Err? ==>
      Prefixed(lines, SectionLines(codec, items, i)) == Err(SectionBlock(codec, items[i], i + 1).error)
    ensures SectionBlock(codec, items[i], i + 1).Ok? ==>
      Prefixed(lines, SectionLines(codec, items, i)) ==
        Prefixed(lines + SectionBlock(codec, items[i], i + 1).value, SectionLines(codec, items, i + 1))
  {
    var block := SectionBlock(codec, items[i], i + 1);
    var rest := SectionLines(codec, items, i + 1);
    if block.Ok? && rest.Ok? {
      assert lines + (block.value + rest.value) == lines + block.value + rest.value;
    }
  }

  /** The first appends of `_save_plan_markdown`: the title, then the
      subtitle and the tags when they are truthy. */
  method RenderHeader(codec: Codec, plan: Json) returns (r: Result<seq<string>>)
    ensures r == HeaderLines(codec, plan)
  {
    var title :- Subscript(plan, "title");
    var lines := ["# " + Str(codec, title) + "\n"];
    var subtitle := DictGet(plan, "subtitle", JNull).value;
    if Truthy(subtitle) {
      lines := lines + ["*" + Str(codec, subtitle) + "*\n"];
    }
    var tags := DictGet(plan, "tags", JNull).value;
    if Truthy(tags) {
      var joined :- JoinStrs(", ", tags);
      lines := lines + ["**Теги:** " + joined + "\n"];
    }
    return Ok(lines);
  }

  /** The appends for the n-th section: its heading and, when its key
      points are truthy, the points heading and a bullet per point. */
  method RenderSection(codec: Codec, section: Json, n: nat) returns (r: Result<seq<string>>)
    ensures r == SectionBlock(codec, section, n)
  {
    var title :- Subscript(section, "title");
    var lines := [SectionHeading(codec, n, title)];
    var points := DictGet(section, "key_points", JNull).value;
    if Truthy(points) {
      lines := lines + [PointsHeading];
      var items :- Iterate(points);
      var j := 0;
      while j < |items|
        invariant 0 <= j <= |items|
        invariant lines == [SectionHeading(codec, n, title), PointsHeading] + Bullets(codec, items[..j])
        decreases |items| - j
      {
        assert items[..j + 1][..j] == items[..j];
        lines := lines + [Bullet(codec, items[j])];
        j := j + 1;
      }
      assert items[..j] == items;
    }
    return Ok(lines);
  }

  /** `_save_plan_markdown`'s list building: the header lines, the
      structure heading, then each section's heading and its bullets, the
      sections numbered from 1. The lookups raise as the program's do. */
  method RenderPlan(codec: Codec, plan: Json) returns (r: Result<seq<string>>)
    ensures r == PlanLines(codec, plan)
  {
    var header :- RenderHeader(codec, plan);
    var lines := header + [StructureHeading];
    var sections :- Subscript(plan, "sections");
    var items :- Iterate(sections);
    PlanLinesSplit(codec, plan, header, items);
    var i := 0;
    while i < |items|
      invariant 0 <= i <= |items|
      invariant PlanLines(codec, plan) == Prefixed(lines, SectionLines(codec, items, i))
      decreases |items| - i
    {
      SectionStep(codec, items, i, lines);
      var block :- RenderSection(codec, items[i], i + 1);
      lines := lines + block;
      i := i + 1;
    }
    assert lines + [] == lines;
    return Ok(lines);
  }

  // ---------------------------------------------------------------------
  // execute

  /** The failed result of a plan that does not pass the check. */
  const InvalidPlan := Base.StageResult(false, None, 0, Some(InvalidPlanMessage), None)

  /** The successful result: the plan's section count, and the call's tokens. */
  function PlanResult(plan: Json, tokens: int): Base.StageResult {
    var count := if plan.JObj? && Lookup(plan.fields, "sections").Some? && Len(Lookup(plan.fields, "sections").value).Ok?
      then Len(Lookup(plan.fields, "sections").value).value else 0;
    Base.StageResult(true, Some(Info.outputFile), tokens, None, Some(Single("sections_count", JInt(count))))
  }

  /** On a plan that passed the check, `sections_count` is the number of
      sections in the plan. */
  lemma SectionsCount(plan: Json, tokens: int)
    requires WellShapedPlan(plan)
    ensures PlanResult(plan, tokens).metadata == Some(Single("sections_count", JInt(|Lookup(plan.fields, "sections").value.items|)))
  {}

  /** `execute`: the corrected transcript is sent; the plan found in the
      answer is checked; a plan that fails the check gives a failed result
      and writes nothing; one that passes is saved as JSON and then
      rendered to the readable file. A parse error, like the errors of the
      check and of the rendering, is raised. */
  method Execute(s: Base.Stage) returns (r: Result<Base.StageResult>)
    requires s.info == Info
    modifies s.state.fs, s.llm.prompts`cache, s.llm.client`requests, s.llm.client`lastTokenCount
    ensures var t := old(s.ReadInput(None));
      && (t.Err? ==> r == Err(t.error) && s.state.fs.files == old(s.state.fs.files) && s.state.fs.dirs == old(s.state.fs.dirs)
                     && s.llm.client.requests == old(s.llm.client.requests))
      && (t.Ok? ==>
            var a := old(s.Answer(t.value, None));
            && s.llm.client.requests == old(s.llm.client.requests) + old(s.Asked(t.value, None))
            && (a.Err? ==> r == Err(a.error) && s.state.fs.files == old(s.state.fs.files) && s.state.fs.dirs == old(s.state.fs.dirs))
            && (a.Ok? ==> PlanWritten(s, a.value, r, old(s.state.fs.files), s.state.fs.files, old(s.state.fs.dirs), s.state.fs.dirs)))
  {
    var transcript :- s.ReadInput(None);
    var result :- s.CallLlm(transcript, None);
    var plan :- Parse(s.state.codec, JsonText(result.content));
    var valid :- ValidatePlan(plan);
    if !valid {
      return Ok(InvalidPlan);
    }
    var _ := s.SaveJson(plan, None);
    var lines :- RenderPlan(s.state.codec, plan);
    var _ := s.SaveOutput(Text.Join("\n", lines), Some(ReadableFile));
    return Ok(PlanResult(plan, result.tokensUsed));
  }

  /** What `execute` returns and writes once the call has answered. */
  ghost predicate PlanWritten(s: Base.Stage, answer: Llm.LlmResult, r: Result<Base.StageResult>,
                              before: map<string, string>, after: map<string, string>,
                              beforeDirs: set<string>, afterDirs: set<string>)
    reads s, s.state
  {
    var codec := s.state.codec;
    var parsed := Parse(codec, JsonText(answer.content));
    var jsonPath := PathJoin(s.stagesDir, Info.outputFile);
    var readablePath := PathJoin(s.stagesDir, ReadableFile);
    if parsed.Err? then r == Err(parsed.error) && after == before && afterDirs == beforeDirs
    else
      var plan := parsed.value;
      match ValidatePlan(plan)
      case Err(e) => r == Err(e) && after == before && afterDirs == beforeDirs
      case Ok(false) => r == Ok(InvalidPlan) && after == before && afterDirs == beforeDirs
      case Ok(true) =>
        match PlanLines(codec, plan)
        case Err(e) =>
          r == Err(e) && after == before[jsonPath := codec.dumps(plan)] && afterDirs == beforeDirs + {Parent(jsonPath)}
        case Ok(lines) =>
          && r == Ok(PlanResult(plan, answer.tokensUsed))
          && after == before[jsonPath := codec.dumps(plan)][readablePath := Text.Join("\n", lines)]
          && afterDirs == beforeDirs + {Parent(jsonPath), Parent(readablePath)}
  }
}
