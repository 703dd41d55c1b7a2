/**
 * The Markdown editor page: inserting a template from the toolbar, and the
 * guard and busy flag around exporting the preview to PDF.
 *
 * The PDF rendering itself (canvas capture, page slicing, the file save) is
 * not modelled; its outcome is a parameter.
 */
module MarkdownEditor {
  import opened Text
  import opened Model

  /**
   * `handleInsertTemplate`: the template goes at the end on a line of its own,
   * after a blank line when there was text before; an empty editor gets just
   * the template.
   */
  function InsertTemplate(prev: string, template: string): (r: string)
    ensures IsPrefix(prev, r) && |r| >= |prev| + |template| + 1
    ensures r[|r| - |template| - 1..] == template + "\n"
    ensures prev == [] ==> r == template + "\n"
    ensures prev != [] ==> r[|prev|..] == "\n\n" + template + "\n"
  {
    if prev == [] then template + "\n" else prev + "\n\n" + template + "\n"
  }

  /**
   * Inserting several templates keeps all of them, each after a blank line:
   * the second insertion only appends to what the first produced.
   */
  lemma InsertionsAccumulate(prev: string, a: string, b: string)
    ensures InsertTemplate(InsertTemplate(prev, a), b) == InsertTemplate(prev, a) + "\n\n" + b + "\n"
  {
    var first := InsertTemplate(prev, a);
    assert first != [] by { assert |first| >= |a| + 1; }
  }

  /** The message shown when there is nothing to export. */
  const NothingToExport := "请先输入一些内容再导出"
  /** The message shown after a successful export. */
  const ExportSucceeded := "PDF 导出成功！"
  /** The prefix of the message shown when the export fails. */
  const ExportFailedPrefix := "导出 PDF 失败: "

  class MarkdownEditorPage {
    var markdown: string
    var isExporting: bool
    var toast: Option<Toast>

    constructor ()
      ensures markdown == [] && !isExporting && toast == None
    {
      markdown := [];
      isExporting := false;
      toast := None;
    }

    method HandleInsertTemplate(template: string)
      modifies this
      ensures markdown == InsertTemplate(old(markdown), template)
      ensures isExporting == old(isExporting) && toast == old(toast)
    {
      markdown := InsertTemplate(markdown, template);
    }

    /**
     * The synchronous start of `handleExportPDF`: without a preview or with
     * blank text it warns and leaves `isExporting` as it was; otherwise the
     * export begins and `isExporting` is set.
     */
    method BeginExport(previewPresent: bool) returns (started: bool)
      modifies this
      ensures started <==> previewPresent && !Blank(markdown)
      ensures started ==> isExporting && toast == old(toast)
      ensures !started ==> isExporting == old(isExporting) && toast == Some(Toast(NothingToExport, Warning))
      ensures markdown == old(markdown)
    {
      TrimEmptyIffBlank(markdown);
      if !previewPresent || Trim(markdown) == [] {
        toast := Some(Toast(NothingToExport, Warning));
        return false;
      }
      isExporting := true;
      return true;
    }

    /**
     * The end of an export that was begun: a success or an error toast, and
     * `isExporting` cleared in every case.
     */
    method FinishExport(outcome: Result<(), string>)
      modifies this
      ensures !isExporting
      ensures outcome.Ok? ==> toast == Some(Toast(ExportSucceeded, Success))
      ensures outcome.Err? ==> toast == Some(Toast(ExportFailedPrefix + outcome.error, Error))
      ensures markdown == old(markdown)
    {
      match outcome {
        case Ok(_) =>
          toast := Some(Toast(ExportSucceeded, Success));
        case Err(message) =>
          toast := Some(Toast(ExportFailedPrefix + message, Error));
      }
      isExporting := false;
    }
  }
}
