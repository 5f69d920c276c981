/**
 * `BlogGeneratorApp.save_content` without the dialogs and the file write:
 * which text is written, in which format, under which file name.
 */
module Export {
  import opened Wrappers
  import opened Text

  /** The three entries of the format box; anything but ".txt" and ".md" is HTML. */
  datatype Format = Txt | Md | Html

  function FormatOf(option: string): (f: Format)
    ensures f == Txt <==> option == ".txt"
    ensures f == Md <==> option == ".md"
  {
    if option == ".txt" then Txt
    else if option == ".md" then Md
    else Html
  }

  /** The file extension of a format; it names the same format in the format box. */
  function Extension(f: Format): (ext: string)
    ensures FormatOf(ext) == f
    ensures ext == ".txt" || ext == ".md" || ext == ".html"
    ensures StartsWith(ext, ".")
  {
    match f
    case Txt => ".txt"
    case Md => ".md"
    case Html => ".html"
  }

  // ------------------------------------------------------ HTML line breaks

  const LineBreak := "<br>\n"

  /** The number of newlines in `s`. */
  function Newlines(s: string): nat {
    if s == [] then 0 else (if s[0] == '\n' then 1 else 0) + Newlines(s[1..])
  }

  /** `s.replace("\n", "<br>\n")`: every newline becomes a break tag and a newline. */
  function BreakLines(s: string): string
  {
    if s == [] then []
    else (if s[0] == '\n' then LineBreak else [s[0]]) + BreakLines(s[1..])
  }

  /** Each newline adds the four characters of the tag; a text without newlines is unchanged. */
  lemma {:induction false} BreakLinesShape(s: string)
    ensures |BreakLines(s)| == |s| + 4 * Newlines(s)
    ensures (forall i :: 0 <= i < |s| ==> s[i] != '\n') ==> BreakLines(s) == s
  {
    if s != [] {
      assert forall i :: 1 <= i < |s| ==> s[1..][i - 1] == s[i];
      BreakLinesShape(s[1..]);
    }
  }

  /** The inverse reading: every break tag followed by a newline becomes a newline again. */
  function UnbreakLines(s: string): string
  {
    if s == [] then []
    else if StartsWith(s, LineBreak) then "\n" + UnbreakLines(s[|LineBreak|..])
    else [s[0]] + UnbreakLines(s[1..])
  }

  /** The first four characters of a converted text are never a newline. */
  lemma {:induction false} NoEarlyNewline(s: string)
    ensures forall k :: 0 <= k < 4 && k < |BreakLines(s)| ==> BreakLines(s)[k] != '\n'
  {
    if s != [] && s[0] != '\n' {
      NoEarlyNewline(s[1..]);
    }
  }

  /** Converting line breaks loses nothing: the conversion can be undone. */
  lemma {:induction false} UnbreakBreak(s: string)
    ensures UnbreakLines(BreakLines(s)) == s
  {
    if s != [] {
      var b := BreakLines(s);
      var rest := BreakLines(s[1..]);
      UnbreakBreak(s[1..]);
      if s[0] == '\n' {
        assert b == LineBreak + rest;
        assert b[|LineBreak|..] == rest;
      } else {
        assert b == [s[0]] + rest;
        NoEarlyNewline(s[1..]);
        assert !StartsWith(b, LineBreak) by {
          if |b| >= |LineBreak| {
            assert b[4] == rest[3];
          }
        }
        assert b[1..] == rest;
      }
    }
  }

  /** In a converted text every newline directly follows a break tag. */
  lemma {:induction false} EveryNewlineTagged(s: string)
    ensures forall i :: 0 <= i < |BreakLines(s)| && BreakLines(s)[i] == '\n' ==>
              4 <= i && BreakLines(s)[i - 4..i] == "<br>"
  {
    if s != [] {
      EveryNewlineTagged(s[1..]);
      var head := if s[0] == '\n' then LineBreak else [s[0]];
      var rest := BreakLines(s[1..]);
      var b := BreakLines(s);
      assert b == head + rest;
      forall i | 0 <= i < |b| && b[i] == '\n'
        ensures 4 <= i && b[i - 4..i] == "<br>"
      {
        if i < |head| {
          assert s[0] == '\n' && i == 4;
        } else {
          var j := i - |head|;
          assert rest[j] == '\n';
          assert b[i - 4..i] == rest[j - 4..j];
        }
      }
    }
  }

  // ------------------------------------------------------- HTML document

  const HtmlHead := "<!DOCTYPE html>\n<html>\n<head>\n    <meta charset=\"UTF-8\">\n    <title>블로그 글</title>\n</head>\n<body>\n"
  const HtmlTail := "\n</body>\n</html>"

  /** Reads the text back out of an exported HTML page. */
  function HtmlBodyText(page: string): Option<string> {
    if |HtmlHead| + |HtmlTail| <= |page| && StartsWith(page, HtmlHead) && EndsWith(page, HtmlTail)
    then Some(UnbreakLines(page[|HtmlHead|..|page| - |HtmlTail|]))
    else None
  }

  /** The text reads back out of the page written around its converted form. */
  lemma HtmlRoundTrip(content: string)
    ensures HtmlBodyText(HtmlHead + BreakLines(content) + HtmlTail) == Some(content)
  {
    var page := HtmlHead + BreakLines(content) + HtmlTail;
    assert page[..|HtmlHead|] == HtmlHead;
    assert page[|page| - |HtmlTail|..] == HtmlTail;
    assert page[|HtmlHead|..|page| - |HtmlTail|] == BreakLines(content);
    UnbreakBreak(content);
  }

  /**
   * The text written for a format: plain text and Markdown as they are, HTML
   * as the minimal page around the text with its newlines converted.
   */
  function Render(f: Format, content: string): (r: string)
    ensures f != Html ==> r == content
    ensures f == Html ==> r == HtmlHead + BreakLines(content) + HtmlTail
    ensures f == Html ==> HtmlBodyText(r) == Some(content) && StartsWith(r, HtmlHead) && EndsWith(r, HtmlTail)
  {
    if f == Html then
      var page := HtmlHead + BreakLines(content) + HtmlTail;
      HtmlRoundTrip(content);
      page
    else content
  }

  // ---------------------------------------------------------- file name

  /** The chosen path, with the extension appended only when it does not already end with it. */
  function WithExtension(path: string, ext: string): (r: string)
    ensures EndsWith(r, ext)
    ensures StartsWith(r, path) && |r| <= |path| + |ext|
    ensures EndsWith(path, ext) ==> r == path
    ensures !EndsWith(path, ext) ==> r == path + ext
  {
    if EndsWith(path, ext) then path
    else
      assert (path + ext)[..|path|] == path;
      assert (path + ext)[|path + ext| - |ext|..] == ext;
      path + ext
  }

  lemma WithExtensionIdempotent(path: string, ext: string)
    ensures WithExtension(WithExtension(path, ext), ext) == WithExtension(path, ext)
  {
  }

  // --------------------------------------------------------------- plan

  datatype ExportFile = ExportFile(path: string, contents: string)

  datatype ExportError = NothingToSave

  /**
   * What saving does with the generated text, the selected format entry and
   * the path the save dialog returned (empty when the dialog is cancelled):
   * refuse blank text, otherwise write nothing or one file.
   */
  function Plan(generated: string, option: string, chosenPath: string): (r: Result<Option<ExportFile>, ExportError>)
    ensures r.Failure? <==> IsBlank(generated)
    ensures r.Success? ==> (r.value.Some? <==> chosenPath != "")
    ensures r.Success? && r.value.Some? ==>
              r.value.value.path == WithExtension(chosenPath, Extension(FormatOf(option)))
              && r.value.value.contents == Render(FormatOf(option), Strip(generated))
    ensures r.Success? && r.value.Some? ==>
              EndsWith(r.value.value.path, Extension(FormatOf(option)))
              && StartsWith(r.value.value.path, chosenPath)
    ensures r.Success? && r.value.Some? && FormatOf(option) != Html ==>
              r.value.value.contents == Strip(generated)
    ensures r.Success? && r.value.Some? && FormatOf(option) == Html ==>
              HtmlBodyText(r.value.value.contents) == Some(Strip(generated))
  {
    var content := Strip(generated);
    if content == "" then Failure(NothingToSave)
    else
      var format := FormatOf(option);
      if chosenPath == "" then Success(None)
      else Success(Some(ExportFile(WithExtension(chosenPath, Extension(format)), Render(format, content))))
  }
}
