/**
 * The editor panel driven by the application store: it opens whatever
 * diagram the store holds as current, and its save and refine actions write
 * to the backend and then update the store's diagram list, current diagram
 * and history.
 *
 * Backend outcomes, the generator and the clock are parameters; the writes
 * the panel sends are returned in order.
 */
module DiagramEditor {
  import opened Text
  import opened Model
  import Store
  import Ai
  import opened DiagramEditorPage

  class EditorPanel {
    /** The application store the panel reads and updates. */
    const store: Store.AppStore
    var code: string
    var isSaving: bool
    var currentLayout: string
    var currentTheme: string

    /** The layout and theme held are never empty. */
    predicate Valid()
      reads this
    {
      currentLayout != [] && currentTheme != []
    }

    /** What the editor holds, in the form `Opened` gives for a stored diagram. */
    function Current(): Editing
      reads this
    {
      Editing(code, currentLayout, currentTheme)
    }

    constructor (store: Store.AppStore)
      ensures Valid() && this.store == store
      ensures code == [] && !isSaving && currentLayout == DefaultLayout && currentTheme == DefaultTheme
    {
      this.store := store;
      code := [];
      isSaving := false;
      currentLayout := DefaultLayout;
      currentTheme := DefaultTheme;
    }

    /** The effect on a change of the current diagram: the panel opens it; without one nothing changes. */
    method SyncFromStore()
      requires Valid()
      modifies this
      ensures Valid()
      ensures store.currentDiagram.Some? ==> Current() == Opened(store.currentDiagram.value)
      ensures store.currentDiagram.None? ==> Current() == old(Current())
      ensures isSaving == old(isSaving)
    {
      if store.currentDiagram.Some? {
        var d := store.currentDiagram.value;
        code := d.mermaidCode;
        currentLayout := LayoutOrDefault(d.layout);
        currentTheme := ThemeOrDefault(d.theme);
      }
    }

    /**
     * `handleSave` with the outcome of the update, the reply of the history
     * insert and the time: nothing without a current diagram. When the update
     * fails an alert is raised and neither the store nor the history is
     * touched. Otherwise the store's diagram takes the saved content (so the
     * panel, opening it again, shows what it showed), a manual-save version
     * is inserted, and it joins the store's history only when the backend
     * returned it. `isSaving` ends false.
     */
    method HandleSave(updateError: Option<string>, historyReply: Reply<DiagramHistory>, now: string)
      returns (writes: seq<Write>, alert: Option<string>)
      requires Valid()
      modifies this, store
      ensures Valid() && Current() == old(Current())
      ensures old(store.currentDiagram).None? ==>
        writes == [] && alert == None && isSaving == old(isSaving) &&
        store.diagrams == old(store.diagrams) && store.currentDiagram == old(store.currentDiagram) &&
        store.history == old(store.history)
      ensures old(store.currentDiagram).Some? ==> !isSaving
      ensures old(store.currentDiagram).Some? && updateError.Some? ==>
        writes == [UpdateDiagramRow(old(store.currentDiagram).value.id, code, currentLayout, currentTheme, now)] &&
        alert == Some(SaveFailedAlert) && store.diagrams == old(store.diagrams) &&
        store.currentDiagram == old(store.currentDiagram) && store.history == old(store.history)
      ensures old(store.currentDiagram).Some? && updateError.None? ==>
        var d := old(store.currentDiagram).value;
        writes == [UpdateDiagramRow(d.id, code, currentLayout, currentTheme, now),
                   InsertHistoryRow(d.id, code, ManualSaveNote, None, Some(Style(currentLayout, currentTheme)))] &&
        alert == None &&
        store.diagrams == Store.UpdatedDiagrams(old(store.diagrams), d.id, ContentPatch(code, currentLayout, currentTheme, now)) &&
        store.currentDiagram == Some(Saved(d, Current(), now)) &&
        Opened(store.currentDiagram.value) == Current() &&
        store.history == old(store.history) + (if historyReply.Answered? && historyReply.data.Some?
                                               then [historyReply.data.value] else [])
      ensures store.projects == old(store.projects) && store.currentProject == old(store.currentProject)
      ensures store.isGenerating == old(store.isGenerating)
    {
      if store.currentDiagram.None? {
        return [], None;
      }
      var d := store.currentDiagram.value;
      isSaving := true;
      writes := [UpdateDiagramRow(d.id, code, currentLayout, currentTheme, now)];
      alert := None;
      if updateError.Some? {
        alert := Some(SaveFailedAlert);
      } else {
        store.UpdateDiagram(d.id, ContentPatch(code, currentLayout, currentTheme, now));
        SaveThenOpen(d, Current(), now);
        writes := writes + [InsertHistoryRow(d.id, code, ManualSaveNote, None, Some(Style(currentLayout, currentTheme)))];
        if historyReply.Answered? && historyReply.data.Some? {
          store.AddHistory(historyReply.data.value);
        }
      }
      isSaving := false;
    }

    /**
     * `handleAIRefine(prompt)`: nothing without a current diagram. The code
     * is refined with the prompt; a generation failure is passed on and
     * nothing changes. Otherwise the panel takes the new code, the row is
     * updated and a version inserted (their errors are not checked), the
     * version joins the store's history when the backend returned it, and
     * then the store's diagram takes the new content.
     */
    method HandleAIRefine(prompt: string, apiKeyConfigured: bool, model: Ai.Prompt -> Result<string, string>,
                          historyReply: Reply<DiagramHistory>, now: string)
      returns (writes: seq<Write>, outcome: Result<(), Ai.GenError>)
      requires Valid()
      modifies this, store
      ensures Valid()
      ensures currentLayout == old(currentLayout) && currentTheme == old(currentTheme)
      ensures isSaving == old(isSaving)
      ensures old(store.currentDiagram).None? ==>
        writes == [] && outcome.Ok? && code == old(code) &&
        store.diagrams == old(store.diagrams) && store.currentDiagram == old(store.currentDiagram) &&
        store.history == old(store.history)
      ensures old(store.currentDiagram).Some? ==>
        outcome.Ok? == Ai.Generated(apiKeyConfigured, prompt, Some(old(code)), model).Ok?
      ensures old(store.currentDiagram).Some? && outcome.Err? ==>
        writes == [] && code == old(code) && store.diagrams == old(store.diagrams) &&
        store.currentDiagram == old(store.currentDiagram) && store.history == old(store.history) &&
        outcome.error == Ai.Generated(apiKeyConfigured, prompt, Some(old(code)), model).error
      ensures old(store.currentDiagram).Some? && outcome.Ok? ==>
        var d := old(store.currentDiagram).value;
        code == Ai.Generated(apiKeyConfigured, prompt, Some(old(code)), model).value &&
        writes == [UpdateDiagramRow(d.id, code, currentLayout, currentTheme, now),
                   InsertHistoryRow(d.id, code, prompt, Some(RefinedNote), Some(Style(currentLayout, currentTheme)))] &&
        store.diagrams == Store.UpdatedDiagrams(old(store.diagrams), d.id, ContentPatch(code, currentLayout, currentTheme, now)) &&
        store.currentDiagram == Some(Saved(d, Current(), now)) &&
        Opened(store.currentDiagram.value) == Current() &&
        store.history == old(store.history) + (if historyReply.Answered? && historyReply.data.Some?
                                               then [historyReply.data.value] else [])
      ensures store.projects == old(store.projects) && store.currentProject == old(store.currentProject)
      ensures store.isGenerating == old(store.isGenerating)
    {
      if store.currentDiagram.None? {
        return [], Ok(());
      }
      var d := store.currentDiagram.value;
      var generated := Ai.RefineMermaidCode(apiKeyConfigured, code, prompt, model);
      if generated.Err? {
        return [], Err(generated.error);
      }
      code := generated.value;
      writes := [UpdateDiagramRow(d.id, code, currentLayout, currentTheme, now),
                 InsertHistoryRow(d.id, code, prompt, Some(RefinedNote), Some(Style(currentLayout, currentTheme)))];
      if historyReply.Answered? && historyReply.data.Some? {
        store.AddHistory(historyReply.data.value);
      }
      store.UpdateDiagram(d.id, ContentPatch(code, currentLayout, currentTheme, now));
      SaveThenOpen(d, Current(), now);
      outcome := Ok(());
    }

    /** `handleRestoreHistory`: only the code changes; nothing is written and the store is untouched. */
    method HandleRestoreHistory(restoredCode: string)
      requires Valid()
      modifies this
      ensures Valid()
      ensures Current() == Editing(restoredCode, old(currentLayout), old(currentTheme))
      ensures isSaving == old(isSaving)
    {
      code := restoredCode;
    }

    /** `handleExport`: the code unchanged, named after the current diagram. */
    method HandleExport() returns (file: Download)
      ensures file.contents == code
      ensures file.fileName ==
        ExportFileName(if store.currentDiagram.Some? then Some(store.currentDiagram.value.name) else None)
    {
      var name := if store.currentDiagram.Some? then Some(store.currentDiagram.value.name) else None;
      file := Download(ExportFileName(name), code);
    }
  }
}
