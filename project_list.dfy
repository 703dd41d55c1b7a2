/**
 * The home page listing the signed-in user's projects: paged loading with
 * infinite scroll, creating a project from a name, and deleting one after
 * confirmation, which reloads the first page.
 *
 * The signed-in user is a constant of the page (absent when signed out);
 * backend replies are parameters and the writes the page sends are
 * returned in order. The translated text of the delete-failure message is a
 * parameter of the page.
 */
module ProjectList {
  import opened Text
  import opened Model
  import opened Paging

  const CreateFailedMessage := "创建项目失败"

  /** The confirmation dialog: closed, or open for one project. */
  datatype DeleteDialog = DeleteDialog(isOpen: bool, projectId: Option<string>, projectName: string)

  const ClosedDialog := DeleteDialog(false, None, "")

  /** A pending id is one that is present and non-empty (`!deleteConfirm.projectId` otherwise). */
  predicate Pending(d: DeleteDialog) {
    d.projectId.Some? && d.projectId.value != []
  }

  class ProjectListPage {
    /** The signed-in user's id; `None` when nobody is signed in. */
    const user: Option<string>
    /** `t('project.deleteProjectError')` in the current language. */
    const deleteProjectError: string
    var projects: seq<Project>
    var page: nat
    var hasMore: bool
    var isLoading: bool
    var isLoadingMore: bool
    var isCreating: bool
    var newProjectName: string
    var deleteConfirm: DeleteDialog
    var isDeleting: bool
    var toast: Option<Toast>

    constructor (user: Option<string>, deleteProjectError: string)
      ensures this.user == user && this.deleteProjectError == deleteProjectError
      ensures projects == [] && page == 0 && hasMore && isLoading && !isLoadingMore
      ensures !isCreating && newProjectName == [] && deleteConfirm == ClosedDialog
      ensures !isDeleting && toast == None
    {
      this.user := user;
      this.deleteProjectError := deleteProjectError;
      projects := [];
      page := 0;
      hasMore := true;
      isLoading := true;
      isLoadingMore := false;
      isCreating := false;
      newProjectName := [];
      deleteConfirm := ClosedDialog;
      isDeleting := false;
      toast := None;
    }

    /**
     * `loadProjects(pageNum, append)`: nothing without a user. A fresh load
     * (not appending) goes back to page 0 and shows the loading state until
     * the reply is in. The request is the page's row range; an error or an
     * empty reply leaves the list and `hasMore`; rows are appended or replace
     * the list, and there is more exactly when the page came back full.
     */
    method LoadProjects(pageNum: nat, append: bool, reply: Reply<seq<Project>>) returns (request: Option<Range>)
      modifies this
      ensures user.None? ==>
        request == None && projects == old(projects) && hasMore == old(hasMore) &&
        page == old(page) && isLoading == old(isLoading)
      ensures user.Some? ==> request == Some(PageRange(pageNum))
      ensures user.Some? && !append ==> page == 0 && !isLoading
      ensures append ==> page == old(page) && isLoading == old(isLoading)
      ensures user.Some? && reply.Answered? && reply.data.Some? ==>
        projects == Loaded(old(projects), reply.data.value, append) && hasMore == HasMore(reply.data.value)
      ensures !(user.Some? && reply.Answered? && reply.data.Some?) ==>
        projects == old(projects) && hasMore == old(hasMore)
      ensures isLoadingMore == old(isLoadingMore) && isCreating == old(isCreating)
      ensures newProjectName == old(newProjectName) && deleteConfirm == old(deleteConfirm)
      ensures isDeleting == old(isDeleting) && toast == old(toast)
    {
      if user.None? {
        return None;
      }
      if !append {
        isLoading := true;
        page := 0;
      }
      request := Some(PageRange(pageNum));
      match reply {
        case Failed(_) =>
        case Answered(data) =>
          if data.Some? {
            projects := Loaded(projects, data.value, append);
            hasMore := HasMore(data.value);
          }
      }
      if !append {
        isLoading := false;
      }
    }

    /**
     * `loadMore`: nothing while a page is loading or when there is no more;
     * otherwise the page number moves on, whatever the reply, and the next
     * page is appended.
     */
    method LoadMore(reply: Reply<seq<Project>>) returns (request: Option<Range>)
      modifies this
      ensures old(isLoadingMore) || !old(hasMore) ==>
        request == None && page == old(page) && projects == old(projects) &&
        hasMore == old(hasMore) && isLoadingMore == old(isLoadingMore)
      ensures !old(isLoadingMore) && old(hasMore) ==>
        page == old(page) + 1 && !isLoadingMore &&
        request == (if user.None? then None else Some(PageRange(old(page) + 1)))
      ensures !old(isLoadingMore) && old(hasMore) && user.Some? && reply.Answered? && reply.data.Some? ==>
        projects == old(projects) + reply.data.value && hasMore == HasMore(reply.data.value)
      ensures !(user.Some? && reply.Answered? && reply.data.Some?) ==>
        projects == old(projects) && hasMore == old(hasMore)
      ensures isLoading == old(isLoading) && deleteConfirm == old(deleteConfirm) && toast == old(toast)
      ensures isCreating == old(isCreating) && newProjectName == old(newProjectName) && isDeleting == old(isDeleting)
    {
      if isLoadingMore || !hasMore {
        return None;
      }
      isLoadingMore := true;
      var nextPage := page + 1;
      page := nextPage;
      request := LoadProjects(nextPage, true, reply);
      isLoadingMore := false;
    }

    /**
     * `handleCreateProject` with the reply of the insert: nothing for a blank
     * name or without a user; otherwise one project row is inserted under the
     * name as typed, with an empty description. The returned project goes
     * first in the list and the form is cleared and closed; an error leaves
     * the list and sets an error toast.
     */
    method HandleCreateProject(insertReply: Reply<Project>) returns (writes: seq<Write>)
      modifies this
      ensures Blank(old(newProjectName)) || user.None? ==>
        writes == [] && projects == old(projects) && newProjectName == old(newProjectName) &&
        isCreating == old(isCreating) && toast == old(toast)
      ensures !Blank(old(newProjectName)) && user.Some? ==>
        writes == [InsertProjectRow(user.value, old(newProjectName), "")]
      ensures !Blank(old(newProjectName)) && user.Some? && insertReply.Answered? && insertReply.data.Some? ==>
        projects == [insertReply.data.value] + old(projects) && newProjectName == [] && !isCreating &&
        toast == old(toast)
      ensures !Blank(old(newProjectName)) && user.Some? && insertReply.Failed? ==>
        projects == old(projects) && newProjectName == old(newProjectName) &&
        isCreating == old(isCreating) && toast == Some(Toast(CreateFailedMessage, Error))
      ensures insertReply == Answered(None) ==>
        projects == old(projects) && newProjectName == old(newProjectName) && toast == old(toast) &&
        isCreating == old(isCreating)
      ensures page == old(page) && hasMore == old(hasMore) && deleteConfirm == old(deleteConfirm)
      ensures isLoading == old(isLoading) && isLoadingMore == old(isLoadingMore) && isDeleting == old(isDeleting)
    {
      TrimEmptyIffBlank(newProjectName);
      if Trim(newProjectName) == [] || user.None? {
        return [];
      }
      writes := [InsertProjectRow(user.value, newProjectName, "")];
      match insertReply {
        case Failed(_) =>
          toast := Some(Toast(CreateFailedMessage, Error));
        case Answered(data) =>
          if data.Some? {
            projects := [data.value] + projects;
            newProjectName := [];
            isCreating := false;
          }
      }
    }

    /** `handleDeleteProject`: opens the confirmation dialog for one project. */
    method HandleDeleteProject(projectId: string, projectName: string)
      modifies this
      ensures deleteConfirm == DeleteDialog(true, Some(projectId), projectName)
      ensures projects == old(projects) && page == old(page) && hasMore == old(hasMore)
      ensures isDeleting == old(isDeleting) && toast == old(toast)
      ensures isLoading == old(isLoading) && isLoadingMore == old(isLoadingMore)
      ensures isCreating == old(isCreating) && newProjectName == old(newProjectName)
    {
      deleteConfirm := DeleteDialog(true, Some(projectId), projectName);
    }

    /**
     * `confirmDelete` with the outcome of the delete and the reply of the
     * reload: nothing without a pending id. On success the paging starts over
     * (page 0, more to load), the first page is loaded afresh and the dialog
     * closes; on error the list, paging and dialog stay and an error toast is
     * set. `isDeleting` is false afterwards in every case.
     */
    method ConfirmDelete(deleteError: Option<string>, reloadReply: Reply<seq<Project>>)
      returns (writes: seq<Write>, request: Option<Range>)
      modifies this
      ensures !Pending(old(deleteConfirm)) ==>
        writes == [] && request == None && projects == old(projects) && page == old(page) &&
        hasMore == old(hasMore) && deleteConfirm == old(deleteConfirm) &&
        isDeleting == old(isDeleting) && toast == old(toast)
      ensures Pending(old(deleteConfirm)) ==>
        writes == [DeleteProjectRow(old(deleteConfirm).projectId.value)] && !isDeleting
      ensures Pending(old(deleteConfirm)) && deleteError.Some? ==>
        request == None && projects == old(projects) && page == old(page) && hasMore == old(hasMore) &&
        deleteConfirm == old(deleteConfirm) && toast == Some(Toast(deleteProjectError, Error))
      ensures Pending(old(deleteConfirm)) && deleteError.None? ==>
        page == 0 && deleteConfirm == ClosedDialog && toast == old(toast) &&
        request == (if user.None? then None else Some(PageRange(0)))
      ensures Pending(old(deleteConfirm)) && deleteError.None? && user.Some? &&
              reloadReply.Answered? && reloadReply.data.Some? ==>
        projects == reloadReply.data.value && hasMore == HasMore(reloadReply.data.value)
      ensures Pending(old(deleteConfirm)) && deleteError.None? &&
              !(user.Some? && reloadReply.Answered? && reloadReply.data.Some?) ==>
        projects == old(projects) && hasMore
      ensures Pending(old(deleteConfirm)) && deleteError.None? && user.Some? ==> !isLoading
      ensures !(Pending(old(deleteConfirm)) && deleteError.None? && user.Some?) ==> isLoading == old(isLoading)
      ensures isLoadingMore == old(isLoadingMore) && isCreating == old(isCreating)
      ensures newProjectName == old(newProjectName)
    {
      if !Pending(deleteConfirm) {
        return [], None;
      }
      isDeleting := true;
      writes := [DeleteProjectRow(deleteConfirm.projectId.value)];
      if deleteError.Some? {
        toast := Some(Toast(deleteProjectError, Error));
        request := None;
      } else {
        page := 0;
        hasMore := true;
        request := LoadProjects(0, false, reloadReply);
        deleteConfirm := ClosedDialog;
      }
      isDeleting := false;
    }
  }
}
