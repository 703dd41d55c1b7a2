/**
 * The diagram editor page: it opens one diagram by its route id, keeps the
 * code, layout and theme being edited, saves them (the diagram row is
 * updated and a manual-save version is recorded in the history), refines
 * the code with the generator (the new code is persisted and recorded as a
 * new version), restores an older version into the editor, and exports the
 * code as a `.mmd` file.
 *
 * Backend outcomes, the generator and the clock are parameters; the writes
 * the page sends are returned in order.
 */
module DiagramEditorPage {
  import opened Text
  import opened Model
  import Ai

  const DefaultLayout := "dagre"
  const DefaultTheme := "default"
  /** The layouts and themes the renderer's menus offer. */
  const Layouts: seq<string> := ["dagre", "elk"]
  const Themes: seq<string> := ["default", "neutral", "dark", "forest", "base"]

  /** The prompt recorded with a manual save. */
  const ManualSaveNote := "手动保存"
  /** The note recorded with a refined version. */
  const RefinedNote := "已生成新版本"
  const SaveFailedAlert := "保存失败"

  /** `layout || 'dagre'` */
  function LayoutOrDefault(layout: string): (r: string)
    ensures r != []
    ensures layout != [] ==> r == layout
    ensures layout == [] ==> r == DefaultLayout
  {
    if layout == [] then DefaultLayout else layout
  }

  /** `theme || 'default'` */
  function ThemeOrDefault(theme: string): (r: string)
    ensures r != []
    ensures theme != [] ==> r == theme
    ensures theme == [] ==> r == DefaultTheme
  {
    if theme == [] then DefaultTheme else theme
  }

  /** What the editor shows for a stored diagram: its code, and its layout and theme with defaults. */
  datatype Editing = Editing(code: string, layout: string, theme: string)

  function Opened(d: Diagram): (e: Editing)
    ensures e.code == d.mermaidCode && e.layout != [] && e.theme != []
  {
    Editing(d.mermaidCode, LayoutOrDefault(d.layout), ThemeOrDefault(d.theme))
  }

  /** The local record after a save or a refinement: the diagram with the edited content merged in. */
  function Saved(d: Diagram, e: Editing, now: string): (r: Diagram)
    ensures r.id == d.id && r.projectId == d.projectId && r.name == d.name
    ensures r.createdAt == d.createdAt && r.direction == d.direction
    ensures r.mermaidCode == e.code && r.layout == e.layout && r.theme == e.theme && r.updatedAt == now
  {
    MergeDiagram(d, ContentPatch(e.code, e.layout, e.theme, now))
  }

  /**
   * Saving and opening again give back what was being edited: the layout and
   * theme the editor holds are never empty, so the defaults do not apply.
   */
  lemma SaveThenOpen(d: Diagram, e: Editing, now: string)
    requires e.layout != [] && e.theme != []
    ensures Opened(Saved(d, e, now)) == e
  {
  }

  /** `${name || 'diagram'}.mmd` */
  function ExportFileName(name: Option<string>): (fileName: string)
    ensures |fileName| > 4 && fileName[|fileName| - 4..] == ".mmd"
    ensures name.Some? && name.value != [] ==> fileName[..|fileName| - 4] == name.value
    ensures !(name.Some? && name.value != []) ==> fileName == "diagram.mmd"
  {
    (if name.Some? && name.value != [] then name.value else "diagram") + ".mmd"
  }

  class EditorPage {
    /** The route's diagram id; empty when absent. */
    const diagramId: string
    var diagram: Option<Diagram>
    var code: string
    var isSaving: bool
    var currentLayout: string
    var currentTheme: string

    /** The layout and theme held are never empty. */
    predicate Valid()
      reads this
    {
      currentLayout != [] && currentTheme != []
    }

    /** What the editor holds, in the form `Opened` gives for a stored diagram. */
    function Current(): Editing
      reads this
    {
      Editing(code, currentLayout, currentTheme)
    }

    constructor (diagramId: string)
      ensures Valid()
      ensures this.diagramId == diagramId && diagram == None && code == [] && !isSaving
      ensures currentLayout == DefaultLayout && currentTheme == DefaultTheme
    {
      this.diagramId := diagramId;
      diagram := None;
      code := [];
      isSaving := false;
      currentLayout := DefaultLayout;
      currentTheme := DefaultTheme;
    }

    /**
     * `loadDiagram` with the reply of the single-row query: nothing without
     * an id, on an error or without a row; otherwise the diagram is kept and
     * the editor opens it.
     */
    method LoadDiagram(reply: Reply<Diagram>)
      requires Valid()
      modifies this
      ensures Valid()
      ensures diagramId != [] && reply.Answered? && reply.data.Some? ==>
        diagram == reply.data && Current() == Opened(reply.data.value)
      ensures !(diagramId != [] && reply.Answered? && reply.data.Some?) ==>
        diagram == old(diagram) && Current() == old(Current())
      ensures isSaving == old(isSaving)
    {
      if diagramId == [] {
        return;
      }
      match reply {
        case Failed(_) =>
        case Answered(data) =>
          if data.Some? {
            var d := data.value;
            diagram := Some(d);
            code := d.mermaidCode;
            currentLayout := LayoutOrDefault(d.layout);
            currentTheme := ThemeOrDefault(d.theme);
          }
      }
    }

    /** The renderer's layout menu. */
    method SetLayout(layout: string)
      requires Valid() && layout in Layouts
      modifies this
      ensures Valid() && currentLayout == layout
      ensures code == old(code) && currentTheme == old(currentTheme) && diagram == old(diagram)
      ensures isSaving == old(isSaving)
    {
      currentLayout := layout;
    }

    /** The renderer's theme menu. */
    method SetTheme(theme: string)
      requires Valid() && theme in Themes
      modifies this
      ensures Valid() && currentTheme == theme
      ensures code == old(code) && currentLayout == old(currentLayout) && diagram == old(diagram)
      ensures isSaving == old(isSaving)
    {
      currentTheme := theme;
    }

    /**
     * `handleSave` with the outcome of the update and the time: nothing
     * without a diagram. The row is updated with the code, layout and theme;
     * when that fails an alert is raised, no history row is written and the
     * record stays. Otherwise a manual-save version is recorded with the same
     * content (its own failure is only logged) and the record takes the
     * saved content. `isSaving` ends false.
     */
    method HandleSave(updateError: Option<string>, now: string) returns (writes: seq<Write>, alert: Option<string>)
      requires Valid()
      modifies this
      ensures Valid()
      ensures old(diagram).None? ==> writes == [] && alert == None && isSaving == old(isSaving)
      ensures old(diagram).Some? ==> !isSaving
      ensures old(diagram).Some? && updateError.Some? ==>
        writes == [UpdateDiagramRow(old(diagram).value.id, code, currentLayout, currentTheme, now)] &&
        alert == Some(SaveFailedAlert) && diagram == old(diagram)
      ensures old(diagram).Some? && updateError.None? ==>
        var id := old(diagram).value.id;
        writes == [UpdateDiagramRow(id, code, currentLayout, currentTheme, now),
                   InsertHistoryRow(id, code, ManualSaveNote, None, Some(Style(currentLayout, currentTheme)))] &&
        alert == None && diagram == Some(Saved(old(diagram).value, Current(), now))
      ensures old(diagram).None? ==> diagram == None
      ensures Current() == old(Current())
    {
      if diagram.None? {
        return [], None;
      }
      var d := diagram.value;
      isSaving := true;
      writes := [UpdateDiagramRow(d.id, code, currentLayout, currentTheme, now)];
      alert := None;
      if updateError.Some? {
        alert := Some(SaveFailedAlert);
      } else {
        writes := writes + [InsertHistoryRow(d.id, code, ManualSaveNote, None, Some(Style(currentLayout, currentTheme)))];
        diagram := Some(Saved(d, Current(), now));
      }
      isSaving := false;
    }

    /** `handleExport`: the code unchanged, named after the diagram. */
    method HandleExport() returns (file: Download)
      ensures file.contents == code
      ensures file.fileName == ExportFileName(if diagram.Some? then Some(diagram.value.name) else None)
    {
      var name := if diagram.Some? then Some(diagram.value.name) else None;
      file := Download(ExportFileName(name), code);
    }

    /**
     * `handleAIRefine(prompt)`: nothing without a diagram. The current code
     * is refined with the prompt; a generation failure is passed on and
     * nothing changes. Otherwise the editor takes the new code, the row is
     * updated and a version is recorded with the prompt, neither outcome
     * being checked, and the record takes the new content.
     */
    method HandleAIRefine(prompt: string, apiKeyConfigured: bool, model: Ai.Prompt -> Result<string, string>,
                          now: string)
      returns (writes: seq<Write>, outcome: Result<(), Ai.GenError>)
      requires Valid()
      modifies this
      ensures Valid()
      ensures old(diagram).None? ==> writes == [] && outcome.Ok? && diagram == None && code == old(code)
      ensures old(diagram).Some? ==>
        outcome.Ok? == Ai.Generated(apiKeyConfigured, prompt, Some(old(code)), model).Ok?
      ensures old(diagram).Some? && outcome.Err? ==>
        writes == [] && diagram == old(diagram) && code == old(code) &&
        outcome.error == Ai.Generated(apiKeyConfigured, prompt, Some(old(code)), model).error
      ensures old(diagram).Some? && outcome.Ok? ==>
        var id := old(diagram).value.id;
        code == Ai.Generated(apiKeyConfigured, prompt, Some(old(code)), model).value &&
        Ai.HasDiagramType(Trim(Split(code, '\n')[0])) &&
        writes == [UpdateDiagramRow(id, code, currentLayout, currentTheme, now),
                   InsertHistoryRow(id, code, prompt, Some(RefinedNote), Some(Style(currentLayout, currentTheme)))] &&
        diagram == Some(Saved(old(diagram).value, Current(), now))
      ensures currentLayout == old(currentLayout) && currentTheme == old(currentTheme)
      ensures isSaving == old(isSaving)
    {
      if diagram.None? {
        return [], Ok(());
      }
      var d := diagram.value;
      var generated := Ai.RefineMermaidCode(apiKeyConfigured, code, prompt, model);
      if generated.Err? {
        return [], Err(generated.error);
      }
      code := generated.value;
      writes := [UpdateDiagramRow(d.id, code, currentLayout, currentTheme, now),
                 InsertHistoryRow(d.id, code, prompt, Some(RefinedNote), Some(Style(currentLayout, currentTheme)))];
      diagram := Some(Saved(d, Current(), now));
      outcome := Ok(());
    }

    /** `handleRestoreHistory`: only the code changes; nothing is written. */
    method HandleRestoreHistory(restoredCode: string)
      requires Valid()
      modifies this
      ensures Valid()
      ensures Current() == Editing(restoredCode, old(currentLayout), old(currentTheme))
      ensures diagram == old(diagram) && isSaving == old(isSaving)
    {
      code := restoredCode;
    }
  }
}
