/**
 * The application store: the loaded projects, diagrams and history records,
 * the project and diagram currently open, and the "generating" flag. Every
 * action replaces some of these fields with values computed from the old
 * ones; the current project and diagram follow updates and deletes of the
 * record they point at.
 */
module Store {
  import opened Model
  import opened Lists

  // ------------------------------------------------------------ the new values

  /** `projects.map(p => p.id === id ? { ...p, ...updates } : p)` */
  function UpdatedProjects(ps: seq<Project>, id: string, u: ProjectPatch): (qs: seq<Project>)
    ensures |qs| == |ps|
    ensures forall i :: 0 <= i < |ps| && ps[i].id != id ==> qs[i] == ps[i]
  {
    MapWhere(ps, (p: Project) => p.id == id, (p: Project) => MergeProject(p, u))
  }

  /** `diagrams.map(d => d.id === id ? { ...d, ...updates } : d)` */
  function UpdatedDiagrams(ds: seq<Diagram>, id: string, u: DiagramPatch): (es: seq<Diagram>)
    ensures |es| == |ds|
    ensures forall i :: 0 <= i < |ds| && ds[i].id != id ==> es[i] == ds[i]
  {
    MapWhere(ds, (d: Diagram) => d.id == id, (d: Diagram) => MergeDiagram(d, u))
  }

  /** `projects.filter(p => p.id !== id)` */
  function ProjectsWithout(ps: seq<Project>, id: string): (qs: seq<Project>)
    ensures |qs| <= |ps|
    ensures forall p :: p in qs ==> p in ps && p.id != id
  {
    Filter(ps, (p: Project) => p.id != id)
  }

  /** `diagrams.filter(d => d.id !== id)` */
  function DiagramsWithout(ds: seq<Diagram>, id: string): (es: seq<Diagram>)
    ensures |es| <= |ds|
    ensures forall d :: d in es ==> d in ds && d.id != id
  {
    Filter(ds, (d: Diagram) => d.id != id)
  }

  /** The current project after `updateProject(id, u)`: merged iff it is the one updated. */
  function CurrentProjectAfterUpdate(cur: Option<Project>, id: string, u: ProjectPatch): (r: Option<Project>)
    ensures r.Some? == cur.Some?
    ensures cur.Some? && cur.value.id != id ==> r == cur
  {
    if cur.Some? && cur.value.id == id then Some(MergeProject(cur.value, u)) else cur
  }

  /** The current diagram after `updateDiagram(id, u)`: merged iff it is the one updated. */
  function CurrentDiagramAfterUpdate(cur: Option<Diagram>, id: string, u: DiagramPatch): (r: Option<Diagram>)
    ensures r.Some? == cur.Some?
    ensures cur.Some? && cur.value.id != id ==> r == cur
  {
    if cur.Some? && cur.value.id == id then Some(MergeDiagram(cur.value, u)) else cur
  }

  // ------------------------------------------------------------ what they mean

  /**
   * `updateProject` rewrites exactly the projects with the id, each merged
   * with the patch, and keeps every other one where it was.
   */
  lemma ProjectUpdateIsPointwise(ps: seq<Project>, id: string, u: ProjectPatch)
    ensures var qs := UpdatedProjects(ps, id, u);
      |qs| == |ps| &&
      forall i :: 0 <= i < |ps| ==>
        (ps[i].id == id ==> qs[i] == MergeProject(ps[i], u)) && (ps[i].id != id ==> qs[i] == ps[i])
  {
  }

  /** Updating an id that no project has changes nothing. */
  lemma ProjectUpdateOfUnknownId(ps: seq<Project>, id: string, u: ProjectPatch)
    requires forall i :: 0 <= i < |ps| ==> ps[i].id != id
    ensures UpdatedProjects(ps, id, u) == ps
  {
    MapWhereNoHit(ps, (p: Project) => p.id == id, (p: Project) => MergeProject(p, u));
  }

  /** Updating an id that no diagram has changes nothing. */
  lemma DiagramUpdateOfUnknownId(ds: seq<Diagram>, id: string, u: DiagramPatch)
    requires forall i :: 0 <= i < |ds| ==> ds[i].id != id
    ensures UpdatedDiagrams(ds, id, u) == ds
  {
    MapWhereNoHit(ds, (d: Diagram) => d.id == id, (d: Diagram) => MergeDiagram(d, u));
  }

  /**
   * `deleteProject` leaves no project with the id, keeps every other one,
   * and keeps them in order: deleting from a concatenation deletes from both parts.
   */
  lemma ProjectDeleteRemovesExactlyTheId(ps: seq<Project>, more: seq<Project>, id: string)
    ensures forall i :: 0 <= i < |ProjectsWithout(ps, id)| ==> ProjectsWithout(ps, id)[i].id != id
    ensures forall p :: p in ps && p.id != id ==> p in ProjectsWithout(ps, id)
    ensures ProjectsWithout(ps + more, id) == ProjectsWithout(ps, id) + ProjectsWithout(more, id)
  {
    FilterAppend(ps, more, (p: Project) => p.id != id);
  }

  /** The same for `deleteDiagram`. */
  lemma DiagramDeleteRemovesExactlyTheId(ds: seq<Diagram>, more: seq<Diagram>, id: string)
    ensures forall i :: 0 <= i < |DiagramsWithout(ds, id)| ==> DiagramsWithout(ds, id)[i].id != id
    ensures forall d :: d in ds && d.id != id ==> d in DiagramsWithout(ds, id)
    ensures DiagramsWithout(ds + more, id) == DiagramsWithout(ds, id) + DiagramsWithout(more, id)
  {
    FilterAppend(ds, more, (d: Diagram) => d.id != id);
  }

  /** Deleting an id a second time removes nothing more. */
  lemma DiagramDeleteIdempotent(ds: seq<Diagram>, id: string)
    ensures DiagramsWithout(DiagramsWithout(ds, id), id) == DiagramsWithout(ds, id)
  {
    FilterIdempotent(ds, (d: Diagram) => d.id != id);
  }

  /**
   * A diagram just added and then deleted by its id leaves the list as the
   * delete alone would have: the new record is gone, the rest untouched.
   */
  lemma DeleteAfterAddDiagram(ds: seq<Diagram>, d: Diagram)
    ensures DiagramsWithout(ds + [d], d.id) == DiagramsWithout(ds, d.id)
  {
    FilterAppend(ds, [d], (x: Diagram) => x.id != d.id);
    assert DiagramsWithout([d], d.id) == [];
  }

  // ------------------------------------------------------------ the store

  class AppStore {
    var projects: seq<Project>
    var currentProject: Option<Project>
    var diagrams: seq<Diagram>
    var currentDiagram: Option<Diagram>
    var history: seq<DiagramHistory>
    var isGenerating: bool

    /** Everything starts empty, nothing open, not generating. */
    constructor ()
      ensures projects == [] && currentProject == None
      ensures diagrams == [] && currentDiagram == None
      ensures history == [] && !isGenerating
    {
      projects := [];
      currentProject := None;
      diagrams := [];
      currentDiagram := None;
      history := [];
      isGenerating := false;
    }

    method SetProjects(ps: seq<Project>)
      modifies this
      ensures projects == ps
      ensures currentProject == old(currentProject) && diagrams == old(diagrams)
      ensures currentDiagram == old(currentDiagram) && history == old(history)
      ensures isGenerating == old(isGenerating)
    {
      projects := ps;
    }

    method SetCurrentProject(p: Option<Project>)
      modifies this
      ensures currentProject == p
      ensures projects == old(projects) && diagrams == old(diagrams)
      ensures currentDiagram == old(currentDiagram) && history == old(history)
      ensures isGenerating == old(isGenerating)
    {
      currentProject := p;
    }

    /** Appends one project at the end. */
    method AddProject(p: Project)
      modifies this
      ensures projects == old(projects) + [p]
      ensures currentProject == old(currentProject) && diagrams == old(diagrams)
      ensures currentDiagram == old(currentDiagram) && history == old(history)
      ensures isGenerating == old(isGenerating)
    {
      projects := projects + [p];
    }

    method UpdateProject(id: string, u: ProjectPatch)
      modifies this
      ensures projects == UpdatedProjects(old(projects), id, u)
      ensures currentProject == CurrentProjectAfterUpdate(old(currentProject), id, u)
      ensures diagrams == old(diagrams) && currentDiagram == old(currentDiagram)
      ensures history == old(history) && isGenerating == old(isGenerating)
    {
      projects := UpdatedProjects(projects, id, u);
      currentProject := CurrentProjectAfterUpdate(currentProject, id, u);
    }

    /** Removes the project and clears the current one iff it is that project; diagrams are left alone. */
    method DeleteProject(id: string)
      modifies this
      ensures projects == ProjectsWithout(old(projects), id)
      ensures currentProject == if old(currentProject).Some? && old(currentProject).value.id == id
                                then None else old(currentProject)
      ensures diagrams == old(diagrams) && currentDiagram == old(currentDiagram)
      ensures history == old(history) && isGenerating == old(isGenerating)
    {
      projects := ProjectsWithout(projects, id);
      if currentProject.Some? && currentProject.value.id == id {
        currentProject := None;
      }
    }

    method SetDiagrams(ds: seq<Diagram>)
      modifies this
      ensures diagrams == ds
      ensures projects == old(projects) && currentProject == old(currentProject)
      ensures currentDiagram == old(currentDiagram) && history == old(history)
      ensures isGenerating == old(isGenerating)
    {
      diagrams := ds;
    }

    method SetCurrentDiagram(d: Option<Diagram>)
      modifies this
      ensures currentDiagram == d
      ensures projects == old(projects) && currentProject == old(currentProject)
      ensures diagrams == old(diagrams) && history == old(history)
      ensures isGenerating == old(isGenerating)
    {
      currentDiagram := d;
    }

    /** Appends one diagram at the end. */
    method AddDiagram(d: Diagram)
      modifies this
      ensures diagrams == old(diagrams) + [d]
      ensures projects == old(projects) && currentProject == old(currentProject)
      ensures currentDiagram == old(currentDiagram) && history == old(history)
      ensures isGenerating == old(isGenerating)
    {
      diagrams := diagrams + [d];
    }

    method UpdateDiagram(id: string, u: DiagramPatch)
      modifies this
      ensures diagrams == UpdatedDiagrams(old(diagrams), id, u)
      ensures currentDiagram == CurrentDiagramAfterUpdate(old(currentDiagram), id, u)
      ensures projects == old(projects) && currentProject == old(currentProject)
      ensures history == old(history) && isGenerating == old(isGenerating)
    {
      diagrams := UpdatedDiagrams(diagrams, id, u);
      currentDiagram := CurrentDiagramAfterUpdate(currentDiagram, id, u);
    }

    /** Removes the diagram and clears the current one iff it is that diagram. */
    method DeleteDiagram(id: string)
      modifies this
      ensures diagrams == DiagramsWithout(old(diagrams), id)
      ensures currentDiagram == if old(currentDiagram).Some? && old(currentDiagram).value.id == id
                                then None else old(currentDiagram)
      ensures projects == old(projects) && currentProject == old(currentProject)
      ensures history == old(history) && isGenerating == old(isGenerating)
    {
      diagrams := DiagramsWithout(diagrams, id);
      if currentDiagram.Some? && currentDiagram.value.id == id {
        currentDiagram := None;
      }
    }

    method SetHistory(h: seq<DiagramHistory>)
      modifies this
      ensures history == h
      ensures projects == old(projects) && currentProject == old(currentProject)
      ensures diagrams == old(diagrams) && currentDiagram == old(currentDiagram)
      ensures isGenerating == old(isGenerating)
    {
      history := h;
    }

    /** Appends one history record at the end. */
    method AddHistory(r: DiagramHistory)
      modifies this
      ensures history == old(history) + [r]
      ensures projects == old(projects) && currentProject == old(currentProject)
      ensures diagrams == old(diagrams) && currentDiagram == old(currentDiagram)
      ensures isGenerating == old(isGenerating)
    {
      history := history + [r];
    }

    method SetIsGenerating(b: bool)
      modifies this
      ensures isGenerating == b
      ensures projects == old(projects) && currentProject == old(currentProject)
      ensures diagrams == old(diagrams) && currentDiagram == old(currentDiagram)
      ensures history == old(history)
    {
      isGenerating := b;
    }
  }
}
