/** Stage 3, `CompareStage`: the model compares the formatted transcript
    with the original, and the corrected text is what comes before the
    report separator of its answer. */
module Compare {
  import opened Wrappers
  import opened Json
  import opened Py
  import opened Storage
  import Text
  import Llm
  import Base

  const OriginalFile := "01_loaded.md"
  const FormattedFile := "02_formatted.md"
  const ReportFile := "03_corrected_with_report.md"

  /** The stage's declared attributes. */
  const Info := Base.StageInfo(3, "03_compare", "Сравнение и коррекция", [OriginalFile, FormattedFile], "03_corrected.md")

  /** The line the model puts between the corrected text and its report. */
  const Separator := "---ОТЧЁТ---"

  const OriginalHeading := "## Оригинальная транскрипция\n"
  const FormattedHeading := "\n\n## Обработанная версия\n"

  /** The request text: the original under its heading, then the formatted
      version under its own. */
  function Content(original: string, formatted: string): string {
    OriginalHeading + original + FormattedHeading + formatted + "\n"
  }

  /** The request starts with the original's heading; the original follows
      it and comes before the formatted version's heading, which the
      formatted version follows up to the final newline. */
  lemma ContentLayout(original: string, formatted: string)
    ensures var c := Content(original, formatted);
      var i := |OriginalHeading| + |original|;
      && |c| == i + |FormattedHeading| + |formatted| + 1
      && c[..|OriginalHeading|] == OriginalHeading && c[|OriginalHeading|..i] == original
      && c[i..i + |FormattedHeading|] == FormattedHeading
      && c[i + |FormattedHeading|..|c| - 1] == formatted && c[|c| - 1] == '\n'
  {
    var c := Content(original, formatted);
    var i := |OriginalHeading| + |original|;
    assert c == OriginalHeading + original + FormattedHeading + formatted + "\n";
  }

  /** `content.split(SEP)[0].strip()` when the separator occurs, the whole
      answer otherwise. */
  function Artifact(text: string): (a: string)
    ensures !Text.IsInfix(Separator, a)
    ensures !Text.IsInfix(Separator, text) ==> a == text
  {
    match Text.FindFrom(text, Separator, 0)
    case None => text
    case Some(i) =>
      Text.FirstLeavesHeadFree(text, Separator, i);
      StrippedHasNoSeparator(text[..i]);
      Text.Strip(text[..i])
  }

  /** Stripping keeps a text free of the separator: what it keeps is a
      slice. */
  lemma StrippedHasNoSeparator(head: string)
    requires !Text.IsInfix(Separator, head)
    ensures !Text.IsInfix(Separator, Text.Strip(head))
  {
    var l := Text.StripLeft(head);
    Text.SliceKeepsNoInfix(head, Separator, |head| - |l|, |head|);
    assert head[|head| - |l|..|head|] == l;
    Text.SliceKeepsNoInfix(l, Separator, 0, |Text.StripRight(l)|);
  }

  /** When the separator occurs and its first occurrence starts right
      after `head`, the artifact is `head` stripped, whatever follows. */
  lemma ArtifactIsStrippedHead(head: string, tail: string)
    requires forall k :: 0 <= k < |head| ==> !Text.OccursAt(head + Separator + tail, Separator, k)
    ensures Artifact(head + Separator + tail) == Text.Strip(head)
  {
    var text := head + Separator + tail;
    assert Text.OccursAt(text, Separator, |head|) by {
      assert text[|head|..|head| + |Separator|] == Separator;
    }
    assert text[..|head|] == head;
  }

  /** `execute`: both inputs are read, one call is made, and two files are
      written: the corrected text to the output file and the whole answer
      to the report file. A missing input raises before any call; a failed
      call raises before any write. */
  method Execute(s: Base.Stage) returns (r: Result<Base.StageResult>)
    requires s.info == Info
    modifies s.state.fs, s.llm.prompts`cache, s.llm.client`requests, s.llm.client`lastTokenCount
    ensures var o := old(s.ReadInput(Some(OriginalFile)));
      var f := old(s.ReadInput(Some(FormattedFile)));
      && (o.Err? ==> r == Err(o.error))
      && (o.Ok? && f.Err? ==> r == Err(f.error))
      && (o.Err? || f.Err? ==> s.state.fs.files == old(s.state.fs.files) && s.llm.client.requests == old(s.llm.client.requests))
      && (o.Ok? && f.Ok? ==>
            var c := Content(o.value, f.value);
            var a := old(s.Answer(c, None));
            && s.llm.client.requests == old(s.llm.client.requests) + old(s.Asked(c, None))
            && (a.Err? ==> r == Err(a.error) && s.state.fs.files == old(s.state.fs.files))
            && (a.Ok? ==>
                  && r == Ok(Base.StageResult(true, Some(Info.outputFile), a.value.tokensUsed, None, None))
                  && s.state.fs.files == old(s.state.fs.files)
                       [PathJoin(s.stagesDir, Info.outputFile) := Artifact(a.value.content)]
                       [PathJoin(s.stagesDir, ReportFile) := a.value.content]))
    ensures s.state.fs.dirs == old(s.state.fs.dirs) +
      (if r.Ok? then {Parent(PathJoin(s.stagesDir, Info.outputFile)), Parent(PathJoin(s.stagesDir, ReportFile))} else {})
  {
    var original :- s.ReadInput(Some(OriginalFile));
    var formatted :- s.ReadInput(Some(FormattedFile));
    var content := Content(original, formatted);
    var result :- s.CallLlm(content, None);
    var textPart := Artifact(result.content);
    var _ := s.SaveOutput(textPart, None);
    var _ := s.SaveOutput(result.content, Some(ReportFile));
    return Ok(Base.StageResult(true, Some(Info.outputFile), result.tokensUsed, None, None));
  }
}
