/** Stage 6, `MergeStage`: the section files are put together into one
    article under the plan's title, without the model. */
module Merge {
  import opened Wrappers
  import opened Json
  import opened Py
  import opened Storage
  import Text
  import Base

  /** The stage's declared attributes; it declares no input files. */
  const Info := Base.StageInfo(6, "06_merge", "Сведение секций", [], "06_merged.md")

  const PlanFile := "04_plan.json"
  const SectionsDir := "05_sections"

  /** The failure when the files and the plan disagree on the count. */
  function MismatchMessage(files: nat, sections: nat): string {
    "Section count mismatch: " + Text.NatToString(files) + " files, " + Text.NatToString(sections) + " in plan"
  }

  /** `sorted(sections_dir.glob("*.md"))`, by name: every ".md" entry of
      the directory once, in increasing order. */
  function SectionNames(fs: FileSystem, dir: string): (names: seq<string>)
    reads fs
    ensures Text.StrictlySorted(names)
    ensures forall n :: n in names <==> n in MdEntries(fs.files, fs.dirs, dir)
  {
    Text.Sorted(MdEntries(fs.files, fs.dirs, dir))
  }

  /** The parts before the sections: the title, then the subtitle when it
      is truthy. */
  function Header(codec: Codec, plan: Json): Result<seq<string>> {
    var title :- Subscript(plan, "title");
    var subtitle := DictGet(plan, "subtitle", JNull).value;
    var first := ["# " + Str(codec, title) + "\n"];
    if Truthy(subtitle) then Ok(first + ["*" + Str(codec, subtitle) + "*\n"]) else Ok(first)
  }

  /** The heading a section gets in the article. */
  function Heading(codec: Codec, title: Json): string {
    "\n## " + Str(codec, title) + "\n"
  }

  /** The parts for the pairs from index i on: for each, the heading from
      the plan's section and the text of the file; the first read or
      title error otherwise. */
  function Body(codec: Codec, fs: FileSystem, dir: string, names: seq<string>, items: seq<Json>, i: nat): Result<seq<string>>
    reads fs
    requires i <= |names| == |items|
    decreases |names| - i
  {
    if i == |names| then Ok([])
    else
      var text :- fs.ReadText(PathJoin(dir, names[i]));
      var title :- Subscript(items[i], "title");
      var rest :- Body(codec, fs, dir, names, items, i + 1);
      Ok([Heading(codec, title), text] + rest)
  }

  /** The article's parts: the header, then the sections. */
  function Parts(codec: Codec, fs: FileSystem, dir: string, plan: Json, names: seq<string>, items: seq<Json>): Result<seq<string>>
    reads fs
    requires |names| == |items|
  {
    var header :- Header(codec, plan);
    Prefixed(header, Body(codec, fs, dir, names, items, 0))
  }

  /** The header is the title line, and the subtitle line exactly when the
      subtitle is truthy; it fails exactly when the plan has no title. */
  lemma HeaderShape(codec: Codec, plan: Json)
    ensures Header(codec, plan).Ok? <==> Subscript(plan, "title").Ok?
    ensures Header(codec, plan).Ok? ==>
      var h := Header(codec, plan).value;
      var subtitle := DictGet(plan, "subtitle", JNull).value;
      && |h| == (if Truthy(subtitle) then 2 else 1)
      && h[0] == "# " + Str(codec, Subscript(plan, "title").value) + "\n"
      && (Truthy(subtitle) ==> h[1] == "*" + Str(codec, subtitle) + "*\n")
  {}

  /** The sections' parts are there exactly when every file reads and
      every section has a title. */
  lemma {:induction false} BodyOk(codec: Codec, fs: FileSystem, dir: string, names: seq<string>, items: seq<Json>, i: nat)
    requires i <= |names| == |items|
    ensures Body(codec, fs, dir, names, items, i).Ok? <==>
      forall k :: i <= k < |names| ==> PathJoin(dir, names[k]) in fs.files && Subscript(items[k], "title").Ok?
    decreases |names| - i
  {
    if i < |names| {
      BodyOk(codec, fs, dir, names, items, i + 1);
    }
  }

  /** The sections' parts pair the k-th file with the k-th plan section:
      the k-th heading is the k-th section's title and the k-th text is
      the k-th file's. */
  lemma {:induction false} BodyPairs(codec: Codec, fs: FileSystem, dir: string, names: seq<string>, items: seq<Json>, i: nat)
    requires i <= |names| == |items| && Body(codec, fs, dir, names, items, i).Ok?
    ensures var b := Body(codec, fs, dir, names, items, i).value;
      && |b| == 2 * (|names| - i)
      && forall k :: i <= k < |names| ==>
           && Subscript(items[k], "title").Ok? && PathJoin(dir, names[k]) in fs.files
           && b[2 * (k - i)] == Heading(codec, Subscript(items[k], "title").value)
           && b[2 * (k - i) + 1] == fs.files[PathJoin(dir, names[k])]
    decreases |names| - i
  {
    if i < |names| {
      BodyPairs(codec, fs, dir, names, items, i + 1);
      var r := Body(codec, fs, dir, names, items, i).value;
      var rest := Body(codec, fs, dir, names, items, i + 1).value;
      assert |r| == 2 + |rest|;
      forall k | i <= k < |names|
        ensures && Subscript(items[k], "title").Ok? && PathJoin(dir, names[k]) in fs.files
                && r[2 * (k - i)] == Heading(codec, Subscript(items[k], "title").value)
                && r[2 * (k - i) + 1] == fs.files[PathJoin(dir, names[k])]
      {
        if k > i {
          assert r[2 * (k - i)] == rest[2 * (k - (i + 1))];
          assert r[2 * (k - i) + 1] == rest[2 * (k - (i + 1)) + 1];
        }
      }
    }
  }

  /** One pair further: its two parts join the prefix, or its error is the
      result. */
  lemma BodyStep(codec: Codec, fs: FileSystem, dir: string, names: seq<string>, items: seq<Json>, i: nat, parts: seq<string>)
    requires i < |names| == |items|
    ensures var text := fs.ReadText(PathJoin(dir, names[i]));
      var title := Subscript(items[i], "title");
      var whole := Prefixed(parts, Body(codec, fs, dir, names, items, i));
      && (text.Err? ==> whole == Err(text.error))
      && (text.Ok? && title.Err? ==> whole == Err(title.error))
      && (text.Ok? && title.Ok? ==>
            whole == Prefixed(parts + [Heading(codec, title.value), text.value], Body(codec, fs, dir, names, items, i + 1)))
  {
    var text := fs.ReadText(PathJoin(dir, names[i]));
    var title := Subscript(items[i], "title");
    var rest := Body(codec, fs, dir, names, items, i + 1);
    if text.Ok? && title.Ok? && rest.Ok? {
      assert parts + ([Heading(codec, title.value), text.value] + rest.value)
          == parts + [Heading(codec, title.value), text.value] + rest.value;
    }
  }

  /** The loop over `zip(section_files, plan["sections"])`: for each pair
      the file is read, then the heading and the text are appended. */
  method MergeSections(codec: Codec, fs: FileSystem, dir: string, header: seq<string>, names: seq<string>, items: seq<Json>)
    returns (r: Result<seq<string>>)
    requires |names| == |items|
    ensures r == Prefixed(header, Body(codec, fs, dir, names, items, 0))
  {
    var parts := header;
    var i := 0;
    while i < |names|
      invariant 0 <= i <= |names|
      invariant Prefixed(header, Body(codec, fs, dir, names, items, 0)) == Prefixed(parts, Body(codec, fs, dir, names, items, i))
      decreases |names| - i
    {
      BodyStep(codec, fs, dir, names, items, i, parts);
      var text :- fs.ReadText(PathJoin(dir, names[i]));
      var title :- Subscript(items[i], "title");
      parts := parts + [Heading(codec, title), text];
      i := i + 1;
    }
    assert parts + [] == parts;
    return Ok(parts);
  }

  /** `execute`: the plan is read, the section files are counted against
      its sections, and the article is written as its parts joined by
      newlines. A count mismatch is a failed result and writes nothing;
      an error raised on the way writes nothing either. */
  method Execute(s: Base.Stage) returns (r: Result<Base.StageResult>)
    requires s.info == Info
    modifies s.state.fs
    ensures var plan := old(s.ReadJson(PlanFile));
      var dir := PathJoin(s.stagesDir, SectionsDir);
      var names := old(SectionNames(s.state.fs, dir));
      && (plan.Err? ==> r == Err(plan.error))
      && (plan.Ok? ==>
            var sections := Subscript(plan.value, "sections");
            && (sections.Err? ==> r == Err(sections.error))
            && (sections.Ok? && Len(sections.value).Err? ==> r == Err(Len(sections.value).error))
            && (sections.Ok? && Len(sections.value).Ok? && |names| != Len(sections.value).value ==>
                  r == Ok(Base.Failed(MismatchMessage(|names|, Len(sections.value).value))))
            && (sections.Ok? && Len(sections.value).Ok? && |names| == Len(sections.value).value ==>
                  var parts := old(Parts(s.state.codec, s.state.fs, dir, plan.value, names, Iterate(sections.value).value));
                  && (parts.Err? ==> r == Err(parts.error))
                  && (parts.Ok? ==>
                        && r == Ok(Base.StageResult(true, Some(Info.outputFile), 0, None,
                                                    Some(Single("sections_merged", JInt(|names|)))))
                        && s.state.fs.files == old(s.state.fs.files)[PathJoin(s.stagesDir, Info.outputFile) := Text.Join("\n", parts.value)])))
      && (r.Err? || !r.value.success ==> s.state.fs.files == old(s.state.fs.files))
    ensures s.state.fs.dirs == old(s.state.fs.dirs) +
      (if r.Ok? && r.value.success then {Parent(PathJoin(s.stagesDir, Info.outputFile))} else {})
  {
    var plan :- s.ReadJson(PlanFile);
    var dir := PathJoin(s.stagesDir, SectionsDir);
    var names := SectionNames(s.state.fs, dir);
    var sections :- Subscript(plan, "sections");
    var count :- Len(sections);
    if |names| != count {
      return Ok(Base.Failed(MismatchMessage(|names|, count)));
    }
    var header :- Header(s.state.codec, plan);
    var items := Iterate(sections).value;
    var parts :- MergeSections(s.state.codec, s.state.fs, dir, header, names, items);
    var merged := Text.Join("\n", parts);
    var _ := s.SaveOutput(merged, None);
    return Ok(Base.StageResult(true, Some(Info.outputFile), 0, None, Some(Single("sections_merged", JInt(|names|)))));
  }
}
