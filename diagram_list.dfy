/**
 * The page listing the diagrams of one project: paged loading with infinite
 * scroll, creating a diagram from a prompt (generated, stored, recorded in
 * the history, then opened), deleting one after confirmation, and the curve
 * style of each thumbnail.
 *
 * Backend replies and the generator are parameters; the writes the page
 * sends are returned in order.
 */
module DiagramList {
  import opened Text
  import opened Model
  import opened Paging
  import Store
  import Ai

  /** The note stored with the first version of a generated diagram. */
  const InitialVersionNote := "AI 生成初始版本"
  const CreateFailedAlert := "AI 生成失败,请检查配置"
  const DeleteFailedAlert := "删除流程图失败"

  /** The confirmation dialog: closed, or open for one diagram. */
  datatype DeleteDialog = DeleteDialog(isOpen: bool, diagramId: Option<string>, diagramName: string)

  const ClosedDialog := DeleteDialog(false, None, "")

  /** The thumbnail's edge curve: straight for vertical layouts (`TB` when unset), smooth otherwise. */
  function ThumbnailCurve(layout: string): (curve: string)
    ensures curve == "linear" <==> layout == [] || layout == "TB" || layout == "BT"
    ensures curve != "linear" ==> curve == "basis"
  {
    var l := if layout == [] then "TB" else layout;
    if l == "TB" || l == "BT" then "linear" else "basis"
  }

  /** The thumbnail's theme: the diagram's, `default` when unset. */
  function ThumbnailTheme(theme: string): (t: string)
    ensures theme != [] ==> t == theme
    ensures theme == [] ==> t == "default"
  {
    if theme == [] then "default" else theme
  }

  /** The editor route of a diagram. */
  function EditorRoute(projectId: string, diagramId: string): string {
    "/project/" + projectId + "/diagram/" + diagramId
  }

  class DiagramListPage {
    /** The route parameter; empty when absent. */
    const projectId: string
    var project: Option<Project>
    var diagrams: seq<Diagram>
    var page: nat
    var hasMore: bool
    var isLoading: bool
    var isLoadingMore: bool
    var isCreating: bool
    var isGenerating: bool
    var newDiagramPrompt: string
    var deleteConfirm: DeleteDialog

    constructor (projectId: string)
      ensures this.projectId == projectId
      ensures project == None && diagrams == [] && page == 0 && hasMore && isLoading
      ensures !isLoadingMore && !isCreating && !isGenerating
      ensures newDiagramPrompt == [] && deleteConfirm == ClosedDialog
    {
      this.projectId := projectId;
      project := None;
      diagrams := [];
      page := 0;
      hasMore := true;
      isLoading := true;
      isLoadingMore := false;
      isCreating := false;
      isGenerating := false;
      newDiagramPrompt := [];
      deleteConfirm := ClosedDialog;
    }

    /** `loadProject` with the reply of the single-row query. */
    method LoadProject(reply: Reply<Project>)
      modifies this
      ensures projectId != [] && reply.Answered? ==> project == reply.data
      ensures projectId == [] || reply.Failed? ==> project == old(project)
      ensures diagrams == old(diagrams) && page == old(page) && hasMore == old(hasMore)
      ensures isLoading == old(isLoading) && isLoadingMore == old(isLoadingMore)
      ensures isCreating == old(isCreating) && isGenerating == old(isGenerating)
      ensures newDiagramPrompt == old(newDiagramPrompt) && deleteConfirm == old(deleteConfirm)
    {
      if projectId == [] {
        return;
      }
      match reply {
        case Failed(_) =>
        case Answered(data) =>
          project := data;
      }
    }

    /**
     * `loadDiagrams(pageNum, append)`: asks for the page's rows (returned as
     * `request`); an error or an empty reply changes nothing; rows are appended
     * or replace the list, and there is more exactly when the page was full.
     */
    method LoadDiagrams(pageNum: nat, append: bool, reply: Reply<seq<Diagram>>) returns (request: Option<Range>)
      modifies this
      ensures request == if projectId == [] then None else Some(PageRange(pageNum))
      ensures projectId != [] && reply.Answered? && reply.data.Some? ==>
        diagrams == Loaded(old(diagrams), reply.data.value, append) && hasMore == HasMore(reply.data.value)
      ensures !(projectId != [] && reply.Answered? && reply.data.Some?) ==>
        diagrams == old(diagrams) && hasMore == old(hasMore)
      ensures project == old(project) && page == old(page)
      ensures isLoading == old(isLoading) && isLoadingMore == old(isLoadingMore)
      ensures isCreating == old(isCreating) && isGenerating == old(isGenerating)
      ensures newDiagramPrompt == old(newDiagramPrompt) && deleteConfirm == old(deleteConfirm)
    {
      if projectId == [] {
        return None;
      }
      request := Some(PageRange(pageNum));
      match reply {
        case Failed(_) =>
        case Answered(data) =>
          if data.Some? {
            diagrams := Loaded(diagrams, data.value, append);
            hasMore := HasMore(data.value);
          }
      }
    }

    /** `loadData`: the project and the first page afresh, `isLoading` around both. */
    method LoadData(projectReply: Reply<Project>, diagramsReply: Reply<seq<Diagram>>)
      returns (request: Option<Range>)
      modifies this
      ensures !isLoading && page == 0
      ensures request == if projectId == [] then None else Some(PageRange(0))
      ensures projectId != [] && projectReply.Answered? ==> project == projectReply.data
      ensures projectId != [] && diagramsReply.Answered? && diagramsReply.data.Some? ==>
        diagrams == diagramsReply.data.value && hasMore == HasMore(diagramsReply.data.value)
      ensures !(projectId != [] && diagramsReply.Answered? && diagramsReply.data.Some?) ==>
        diagrams == old(diagrams) && hasMore == old(hasMore)
      ensures projectId == [] || projectReply.Failed? ==> project == old(project)
      ensures isLoadingMore == old(isLoadingMore) && deleteConfirm == old(deleteConfirm)
      ensures isCreating == old(isCreating) && isGenerating == old(isGenerating)
      ensures newDiagramPrompt == old(newDiagramPrompt)
    {
      isLoading := true;
      page := 0;
      LoadProject(projectReply);
      request := LoadDiagrams(0, false, diagramsReply);
      isLoading := false;
    }

    /**
     * `loadMore`: nothing while a page is loading or when there is no more;
     * otherwise the page number moves on, whatever the reply, and the next
     * page is appended.
     */
    method LoadMore(reply: Reply<seq<Diagram>>) returns (request: Option<Range>)
      modifies this
      ensures old(isLoadingMore) || !old(hasMore) ==>
        request == None && page == old(page) && diagrams == old(diagrams) &&
        hasMore == old(hasMore) && isLoadingMore == old(isLoadingMore)
      ensures !old(isLoadingMore) && old(hasMore) ==>
        page == old(page) + 1 && !isLoadingMore &&
        request == (if projectId == [] then None else Some(PageRange(old(page) + 1)))
      ensures !old(isLoadingMore) && old(hasMore) && projectId != [] && reply.Answered? && reply.data.Some? ==>
        diagrams == old(diagrams) + reply.data.value && hasMore == HasMore(reply.data.value)
      ensures !(projectId != [] && reply.Answered? && reply.data.Some?) ==>
        diagrams == old(diagrams) && hasMore == old(hasMore)
      ensures project == old(project) && deleteConfirm == old(deleteConfirm) && isLoading == old(isLoading)
      ensures isCreating == old(isCreating) && isGenerating == old(isGenerating)
      ensures newDiagramPrompt == old(newDiagramPrompt)
    {
      if isLoadingMore || !hasMore {
        return None;
      }
      isLoadingMore := true;
      var nextPage := page + 1;
      page := nextPage;
      request := LoadDiagrams(nextPage, true, reply);
      isLoadingMore := false;
    }

    /**
     * `handleCreateDiagram`: nothing for a blank prompt or without a project.
     * Otherwise the diagram is generated, stored under the prompt's first 50
     * characters, and on success recorded in the history with the same code,
     * put first in the list and opened; any failure raises one alert.
     */
    method HandleCreateDiagram(apiKeyConfigured: bool, model: Ai.Prompt -> Result<string, string>,
                               insertReply: Reply<Diagram>)
      returns (writes: seq<Write>, navigateTo: Option<string>, alert: Option<string>)
      modifies this
      ensures Blank(old(newDiagramPrompt)) || projectId == [] ==>
        writes == [] && navigateTo == None && alert == None && diagrams == old(diagrams) &&
        newDiagramPrompt == old(newDiagramPrompt) && isGenerating == old(isGenerating) &&
        isCreating == old(isCreating)
      ensures !Blank(old(newDiagramPrompt)) && projectId != [] ==> !isGenerating
      ensures navigateTo.Some? <==>
        (!Blank(old(newDiagramPrompt)) && projectId != [] &&
         Ai.Generated(apiKeyConfigured, old(newDiagramPrompt), None, model).Ok? &&
         insertReply.Answered? && insertReply.data.Some?)
      ensures navigateTo.Some? ==>
        var d := insertReply.data.value;
        var code := Ai.Generated(apiKeyConfigured, old(newDiagramPrompt), None, model).value;
        writes == [InsertDiagramRow(projectId, Take(old(newDiagramPrompt), 50), code),
                   InsertHistoryRow(d.id, code, old(newDiagramPrompt), Some(InitialVersionNote), None)] &&
        diagrams == [d] + old(diagrams) && newDiagramPrompt == [] && !isCreating &&
        navigateTo.value == EditorRoute(projectId, d.id) && alert == None
      ensures navigateTo.None? ==>
        diagrams == old(diagrams) && newDiagramPrompt == old(newDiagramPrompt) && isCreating == old(isCreating)
      ensures (!Blank(old(newDiagramPrompt)) && projectId != [] &&
               Ai.Generated(apiKeyConfigured, old(newDiagramPrompt), None, model).Ok? && navigateTo.None?) ==>
        writes == [InsertDiagramRow(projectId, Take(old(newDiagramPrompt), 50),
                                    Ai.Generated(apiKeyConfigured, old(newDiagramPrompt), None, model).value)] &&
        alert == (if insertReply.Failed? then Some(CreateFailedAlert) else None)
      ensures (!Blank(old(newDiagramPrompt)) && projectId != [] &&
               Ai.Generated(apiKeyConfigured, old(newDiagramPrompt), None, model).Err?) ==>
        writes == [] && alert == Some(CreateFailedAlert)
      ensures alert.Some? ==> alert.value == CreateFailedAlert
      ensures project == old(project) && page == old(page) && hasMore == old(hasMore)
      ensures deleteConfirm == old(deleteConfirm) && isLoading == old(isLoading) && isLoadingMore == old(isLoadingMore)
    {
      writes, navigateTo, alert := [], None, None;
      TrimEmptyIffBlank(newDiagramPrompt);
      if Trim(newDiagramPrompt) == [] || projectId == [] {
        return;
      }
      isGenerating := true;
      var generated := Ai.GenerateMermaidCode(apiKeyConfigured, newDiagramPrompt, None, model);
      if generated.Err? {
        alert := Some(CreateFailedAlert);
      } else {
        writes, navigateTo, alert := RecordGenerated(generated.value, insertReply);
      }
      isGenerating := false;
    }

    /**
     * The part of `handleCreateDiagram` after a successful generation: the
     * diagram row is inserted under the prompt's first 50 characters; when the
     * backend returns it, the first history version is recorded with the same
     * code, the diagram is put first in the list and opened.
     */
    method RecordGenerated(code: string, insertReply: Reply<Diagram>)
      returns (writes: seq<Write>, navigateTo: Option<string>, alert: Option<string>)
      modifies this
      ensures navigateTo.Some? <==> insertReply.Answered? && insertReply.data.Some?
      ensures navigateTo.Some? ==>
        var d := insertReply.data.value;
        writes == [InsertDiagramRow(projectId, Take(old(newDiagramPrompt), 50), code),
                   InsertHistoryRow(d.id, code, old(newDiagramPrompt), Some(InitialVersionNote), None)] &&
        diagrams == [d] + old(diagrams) && newDiagramPrompt == [] && !isCreating &&
        navigateTo.value == EditorRoute(projectId, d.id) && alert == None
      ensures navigateTo.None? ==>
        writes == [InsertDiagramRow(projectId, Take(old(newDiagramPrompt), 50), code)] &&
        alert == (if insertReply.Failed? then Some(CreateFailedAlert) else None) && diagrams == old(diagrams) &&
        newDiagramPrompt == old(newDiagramPrompt) && isCreating == old(isCreating)
      ensures project == old(project) && page == old(page) && hasMore == old(hasMore)
      ensures deleteConfirm == old(deleteConfirm) && isGenerating == old(isGenerating)
      ensures isLoading == old(isLoading) && isLoadingMore == old(isLoadingMore)
    {
      writes := [InsertDiagramRow(projectId, Take(newDiagramPrompt, 50), code)];
      navigateTo, alert := None, None;
      match insertReply {
        case Failed(_) =>
          alert := Some(CreateFailedAlert);
        case Answered(data) =>
          if data.Some? {
            var d := data.value;
            writes := writes + [InsertHistoryRow(d.id, code, newDiagramPrompt, Some(InitialVersionNote), None)];
            diagrams := [d] + diagrams;
            newDiagramPrompt := [];
            isCreating := false;
            navigateTo, alert := Some(EditorRoute(projectId, d.id)), None;
          }
      }
    }

    /** `handleDeleteDiagram`: opens the confirmation dialog for one diagram. */
    method HandleDeleteDiagram(diagramId: string, diagramName: string)
      modifies this
      ensures deleteConfirm == DeleteDialog(true, Some(diagramId), diagramName)
      ensures diagrams == old(diagrams) && page == old(page) && hasMore == old(hasMore)
      ensures project == old(project) && isLoading == old(isLoading) && isLoadingMore == old(isLoadingMore)
      ensures isCreating == old(isCreating) && isGenerating == old(isGenerating)
      ensures newDiagramPrompt == old(newDiagramPrompt)
    {
      deleteConfirm := DeleteDialog(true, Some(diagramId), diagramName);
    }

    /**
     * `confirmDelete` with the outcome of the delete request: nothing without a
     * pending id; on success exactly the rows with that id leave the list and
     * the dialog closes; on error the list and dialog stay and an alert is raised.
     */
    method ConfirmDelete(deleteError: Option<string>) returns (writes: seq<Write>, alert: Option<string>)
      modifies this
      ensures old(deleteConfirm).diagramId.None? || old(deleteConfirm).diagramId.value == [] ==>
        writes == [] && alert == None && diagrams == old(diagrams) && deleteConfirm == old(deleteConfirm)
      ensures old(deleteConfirm).diagramId.Some? && old(deleteConfirm).diagramId.value != [] ==>
        var id := old(deleteConfirm).diagramId.value;
        writes == [DeleteDiagramRow(id)] &&
        (deleteError.None? ==> diagrams == Store.DiagramsWithout(old(diagrams), id) &&
                               deleteConfirm == ClosedDialog && alert == None) &&
        (deleteError.Some? ==> diagrams == old(diagrams) && deleteConfirm == old(deleteConfirm) &&
                               alert == Some(DeleteFailedAlert))
      ensures page == old(page) && hasMore == old(hasMore) && project == old(project)
      ensures isLoading == old(isLoading) && isLoadingMore == old(isLoadingMore)
      ensures isCreating == old(isCreating) && isGenerating == old(isGenerating)
      ensures newDiagramPrompt == old(newDiagramPrompt)
    {
      if deleteConfirm.diagramId.None? || deleteConfirm.diagramId.value == [] {
        return [], None;
      }
      var id := deleteConfirm.diagramId.value;
      writes := [DeleteDiagramRow(id)];
      if deleteError.Some? {
        return writes, Some(DeleteFailedAlert);
      }
      diagrams := Store.DiagramsWithout(diagrams, id);
      deleteConfirm := ClosedDialog;
      alert := None;
    }
  }
}
