/**
 * The records the application keeps (one row of each backend table), the
 * partial updates the store merges into them, the replies of the hosted
 * backend, and the writes the application sends to it.
 */
module Model {

  datatype Option<+T> = None | Some(value: T)

  datatype Result<+T, +E> = Ok(value: T) | Err(error: E)

  /**
   * What a backend query resolves to: `{ data, error }` with `error` set, or
   * with `error` null and `data` possibly null.
   */
  datatype Reply<+T> = Failed(message: string) | Answered(data: Option<T>)

  datatype Project = Project(
    id: string,
    userId: string,
    name: string,
    description: Option<string>,
    createdAt: string,
    updatedAt: string)

  datatype Diagram = Diagram(
    id: string,
    projectId: string,
    name: string,
    mermaidCode: string,
    layout: string,
    theme: string,
    direction: string,
    createdAt: string,
    updatedAt: string)

  datatype DiagramHistory = DiagramHistory(
    id: string,
    diagramId: string,
    mermaidCode: string,
    userPrompt: Option<string>,
    aiResponse: Option<string>,
    layout: string,
    theme: string,
    direction: string,
    createdAt: string)

  /** `Partial<Project>`: each present field overrides the record's. */
  datatype ProjectPatch = ProjectPatch(
    id: Option<string>,
    userId: Option<string>,
    name: Option<string>,
    description: Option<Option<string>>,
    createdAt: Option<string>,
    updatedAt: Option<string>)

  /** `Partial<Diagram>`: each present field overrides the record's. */
  datatype DiagramPatch = DiagramPatch(
    id: Option<string>,
    projectId: Option<string>,
    name: Option<string>,
    mermaidCode: Option<string>,
    layout: Option<string>,
    theme: Option<string>,
    direction: Option<string>,
    createdAt: Option<string>,
    updatedAt: Option<string>)

  function Or<T>(o: Option<T>, d: T): T {
    match o
    case Some(v) => v
    case None => d
  }

  /** `{ ...p, ...updates }` */
  function MergeProject(p: Project, u: ProjectPatch): Project {
    Project(Or(u.id, p.id), Or(u.userId, p.userId), Or(u.name, p.name),
            Or(u.description, p.description), Or(u.createdAt, p.createdAt), Or(u.updatedAt, p.updatedAt))
  }

  /** `{ ...d, ...updates }` */
  function MergeDiagram(d: Diagram, u: DiagramPatch): Diagram {
    Diagram(Or(u.id, d.id), Or(u.projectId, d.projectId), Or(u.name, d.name),
            Or(u.mermaidCode, d.mermaidCode), Or(u.layout, d.layout), Or(u.theme, d.theme),
            Or(u.direction, d.direction), Or(u.createdAt, d.createdAt), Or(u.updatedAt, d.updatedAt))
  }

  /** The patch that sets code, layout, theme and the update time, as save and refine send it. */
  function ContentPatch(code: string, layout: string, theme: string, updatedAt: string): DiagramPatch {
    DiagramPatch(None, None, None, Some(code), Some(layout), Some(theme), None, None, Some(updatedAt))
  }

  /** The layout and theme columns a history row may carry. */
  datatype Style = Style(layout: string, theme: string)

  /** A write request sent to the hosted backend, with the columns it sets. */
  datatype Write =
    | UpdateDiagramRow(id: string, mermaidCode: string, layout: string, theme: string, updatedAt: string)
    | InsertDiagramRow(projectId: string, name: string, mermaidCode: string)
    | InsertHistoryRow(diagramId: string, mermaidCode: string, userPrompt: string,
                       aiResponse: Option<string>, style: Option<Style>)
    | InsertProjectRow(userId: string, name: string, description: string)
    | DeleteDiagramRow(id: string)
    | DeleteProjectRow(id: string)

  /** A file handed to the browser for download. */
  datatype Download = Download(fileName: string, contents: string)

  /** A transient notification. */
  datatype ToastKind = Success | Warning | Error
  datatype Toast = Toast(message: string, kind: ToastKind)
}
