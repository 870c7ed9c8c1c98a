/** Text normalisation applied to every loaded or saved document, and the
    choice of reader by file extension. */
module FileHandlers {
  import opened Wrappers
  import opened Py
  import opened Storage
  import Text

  // ---------------------------------------------------------------------
  // normalize_text

  /** `text.replace('\r\n', '\n')`: left to right, without overlaps. */
  function ReplaceCrLf(s: string): (r: string)
    ensures |r| <= |s|
  {
    if |s| >= 2 && s[0] == '\r' && s[1] == '\n' then "\n" + ReplaceCrLf(s[2..])
    else if |s| == 0 then ""
    else [s[0]] + ReplaceCrLf(s[1..])
  }

  /** The line-ending step: `\r\n` first, then every remaining `\r`. */
  function UnifyLineEnds(s: string): (r: string)
    ensures '\r' !in r
  {
    Text.ReplaceChar(ReplaceCrLf(s), '\r', '\n')
  }

  /** The number of newlines `s` starts with. */
  function NewlineRun(s: string): (n: nat)
    ensures n <= |s| && (forall k :: 0 <= k < n ==> s[k] == '\n') && (n < |s| ==> s[n] != '\n')
  {
    if |s| > 0 && s[0] == '\n' then 1 + NewlineRun(s[1..]) else 0
  }

  /** `re.sub(r'\n{3,}', '\n\n', text)`: every maximal run of three or more
      newlines becomes exactly two; shorter runs and all other characters
      are kept. */
  function CollapseBlankLines(s: string): (r: string)
    ensures |s| > 0 ==> |r| > 0 && r[0] == s[0]
    ensures forall c :: c in r ==> c in s
    decreases |s|
  {
    if |s| == 0 then ""
    else
      var n := NewlineRun(s);
      if n >= 3 then "\n\n" + CollapseBlankLines(s[n..])
      else if n > 0 then s[..n] + CollapseBlankLines(s[n..])
      else [s[0]] + CollapseBlankLines(s[1..])
  }


  /** No three newlines in a row. */
  predicate NoTripleNewline(s: string) {
    forall i :: 0 <= i < |s| - 2 ==> !(s[i] == '\n' && s[i + 1] == '\n' && s[i + 2] == '\n')
  }

  /** After collapsing, no run of three newlines is left. */
  lemma {:induction false} CollapseLeavesNoTriple(s: string)
    ensures NoTripleNewline(CollapseBlankLines(s))
    decreases |s|
  {
    if |s| > 0 {
      var n := NewlineRun(s);
      var r := CollapseBlankLines(s);
      if n >= 3 {
        var rest := CollapseBlankLines(s[n..]);
        CollapseLeavesNoTriple(s[n..]);
        assert r == "\n\n" + rest;
        assert rest != [] ==> rest[0] == s[n] && s[n] != '\n';
        forall i | 0 <= i < |r| - 2 ensures !(r[i] == '\n' && r[i + 1] == '\n' && r[i + 2] == '\n') {
          if i >= 2 {
            assert r[i] == rest[i - 2] && r[i + 1] == rest[i - 1] && r[i + 2] == rest[i];
          }
        }
      } else if n > 0 {
        var rest := CollapseBlankLines(s[n..]);
        CollapseLeavesNoTriple(s[n..]);
        assert r == s[..n] + rest;
        assert rest != [] ==> rest[0] == s[n] && s[n] != '\n';
        forall i | 0 <= i < |r| - 2 ensures !(r[i] == '\n' && r[i + 1] == '\n' && r[i + 2] == '\n') {
          if i >= n {
            assert r[i] == rest[i - n] && r[i + 1] == rest[i - n + 1] && r[i + 2] == rest[i - n + 2];
          } else {
            assert i + 2 >= n;
            assert r[n] == rest[0];
          }
        }
      } else {
        var rest := CollapseBlankLines(s[1..]);
        CollapseLeavesNoTriple(s[1..]);
        assert r == [s[0]] + rest;
        forall i | 0 <= i < |r| - 2 ensures !(r[i] == '\n' && r[i + 1] == '\n' && r[i + 2] == '\n') {
          if i >= 1 {
            assert r[i] == rest[i - 1] && r[i + 1] == rest[i] && r[i + 2] == rest[i + 1];
          }
        }
      }
    }
  }

  /** Text without a run of three newlines is left as it is. */
  lemma {:induction false} CollapseKeepsTripleFree(s: string)
    requires NoTripleNewline(s)
    ensures CollapseBlankLines(s) == s
    decreases |s|
  {
    if |s| > 0 {
      var n := NewlineRun(s);
      if |s| >= 3 {
        assert !(s[0] == '\n' && s[1] == '\n' && s[2] == '\n');
      }
      assert n < 3;
      if n == 0 {
        SliceKeepsTripleFree(s, 1, |s|);
        CollapseKeepsTripleFree(s[1..]);
        assert CollapseBlankLines(s) == [s[0]] + s[1..];
      } else {
        SliceKeepsTripleFree(s, n, |s|);
        CollapseKeepsTripleFree(s[n..]);
        assert CollapseBlankLines(s) == s[..n] + s[n..];
      }
    }
  }

  /** Text without `\r` is left as it is by the line-ending step. */
  lemma {:induction false} UnifyKeepsCrFree(s: string)
    requires '\r' !in s
    ensures UnifyLineEnds(s) == s
  {
    ReplaceCrLfKeepsCrFree(s);
  }

  lemma {:induction false} ReplaceCrLfKeepsCrFree(s: string)
    requires '\r' !in s
    ensures ReplaceCrLf(s) == s
  {
    if |s| > 0 {
      assert s[0] != '\r';
      SliceKeepsCharFree(s, 1, |s|, '\r');
      ReplaceCrLfKeepsCrFree(s[1..]);
      assert s == [s[0]] + s[1..];
    }
  }

  /** A slice of text without three newlines in a row has none either. */
  lemma SliceKeepsTripleFree(s: string, i: nat, j: nat)
    requires i <= j <= |s| && NoTripleNewline(s)
    ensures NoTripleNewline(s[i..j])
  {
    forall k | 0 <= k < |s[i..j]| - 2 ensures !(s[i..j][k] == '\n' && s[i..j][k + 1] == '\n' && s[i..j][k + 2] == '\n') {
      assert s[i..j][k] == s[i + k] && s[i..j][k + 1] == s[i + k + 1] && s[i..j][k + 2] == s[i + k + 2];
    }
  }

  /** A slice of text without a character has none either. */
  lemma SliceKeepsCharFree(s: string, i: nat, j: nat, c: char)
    requires i <= j <= |s| && c !in s
    ensures c !in s[i..j]
  {
    assert forall k :: 0 <= k < j - i ==> s[i..j][k] == s[i + k];
  }

  /** `normalize_text(text)`: line ends unified, runs of blank lines cut
      down to one, and the ends stripped. What it promises: no `\r`, no run
      of three newlines, and no whitespace at either end. */
  function Normalize(s: string): (r: string)
    ensures '\r' !in r && NoTripleNewline(r)
    ensures r == [] || (!Text.IsSpace(r[0]) && !Text.IsSpace(r[|r| - 1]))
  {
    NormalizeShape(s);
    Text.Strip(CollapseBlankLines(UnifyLineEnds(s)))
  }

  lemma NormalizeShape(s: string)
    ensures var r := Text.Strip(CollapseBlankLines(UnifyLineEnds(s)));
      '\r' !in r && NoTripleNewline(r) && (r == [] || (!Text.IsSpace(r[0]) && !Text.IsSpace(r[|r| - 1])))
  {
    var c := CollapseBlankLines(UnifyLineEnds(s));
    CollapseLeavesNoTriple(UnifyLineEnds(s));
    StripKeepsShape(c);
    Text.StripEnds(c);
  }

  /** Stripping keeps text free of `\r` and of runs of three newlines. */
  lemma StripKeepsShape(c: string)
    requires '\r' !in c && NoTripleNewline(c)
    ensures '\r' !in Text.Strip(c) && NoTripleNewline(Text.Strip(c))
  {
    var l := Text.StripLeft(c);
    var i := |c| - |l|;
    assert l == c[i..|c|];
    SliceKeepsTripleFree(c, i, |c|);
    SliceKeepsCharFree(c, i, |c|, '\r');
    var r := Text.StripRight(l);
    assert r == l[0..|r|];
    SliceKeepsTripleFree(l, 0, |r|);
    SliceKeepsCharFree(l, 0, |r|, '\r');
    assert Text.Strip(c) == r;
  }

  /** Normalising twice gives what normalising once gave. */
  lemma NormalizeIdempotent(s: string)
    ensures Normalize(Normalize(s)) == Normalize(s)
  {
    var t := Normalize(s);
    UnifyKeepsCrFree(t);
    CollapseKeepsTripleFree(t);
    if t != [] {
      assert Text.StripLeft(t) == t;
      assert Text.StripRight(t) == t;
    }
  }

  /** `\r\n` becomes one newline because it is replaced before lone `\r`;
      the other order would give two. */
  lemma CrLfIsOneLineEnd()
    ensures UnifyLineEnds("\r\n") == "\n"
    ensures ReplaceCrLf(Text.ReplaceChar("\r\n", '\r', '\n')) == "\n\n"
  {
    assert ReplaceCrLf("") == "";
    assert ReplaceCrLf("\n") == "\n";
    assert Text.ReplaceChar("\n", '\r', '\n') == "\n";
  }

  // ---------------------------------------------------------------------
  // Readers and save_markdown

  /** The reader classes of `FileHandlerFactory.HANDLERS`. */
  datatype Handler = TxtHandler | DocxHandler | MarkdownHandler

  /** `HANDLERS.get(ext)`. */
  function HandlerFor(ext: string): (h: Option<Handler>)
    ensures h.Some? <==> ext == ".txt" || ext == ".docx" || ext == ".md" || ext == ".markdown"
    ensures h == Some(MarkdownHandler) <==> ext == ".md" || ext == ".markdown"
  {
    if ext == ".txt" then Some(TxtHandler)
    else if ext == ".docx" then Some(DocxHandler)
    else if ext == ".md" || ext == ".markdown" then Some(MarkdownHandler)
    else None
  }

  /** `FileHandlerFactory.get_handler(path)`: chosen by the lower-cased
      extension of the file name; any other extension raises ValueError. */
  function GetHandler(path: string): (r: Result<Handler>)
    ensures r.Ok? ==> Some(r.value) == HandlerFor(Text.Lower(Suffix(Name(path))))
    ensures r.Err? ==> HandlerFor(Text.Lower(Suffix(Name(path)))).None? && r.error.kind == ValueError
  {
    var ext := Text.Lower(Suffix(Name(path)));
    match HandlerFor(ext)
    case Some(h) => Ok(h)
    case None => Err(Error(ValueError, "Unsupported file format: " + ext + ". Supported: .txt, .docx, .md, .markdown"))
  }

  /** `save_markdown(content, path)`: the normalised text is written. */
  method SaveMarkdown(fs: FileSystem, content: string, path: string)
    modifies fs
    ensures fs.files == old(fs.files)[path := Normalize(content)]
    ensures fs.dirs == old(fs.dirs) + {Parent(path)}
  {
    var text := Normalize(content);
    var dir := Parent(path);
    fs.Mkdir(dir);
    fs.WriteText(path, text);
  }
}
