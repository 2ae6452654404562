/**
 * The project detail page: where its project comes from (the store first,
 * the `fetchProjectById` thunk otherwise) and the edit button. The status
 * and priority maps are those of `ProjectLabels`.
 */
module ProjectDetail {
  import opened Wrappers
  import opened Types
  import opened Strings
  import ProjectSlice

  const ProjectsPath := "/projects"

  /** One step of the page's loader. */
  datatype LoadStep =
    | Show(project: Project)
    | Fetch(id: string)
    | Leave(message: string)

  const MissingIdMessage := "项目ID不存在"
  const NotFoundMessage := "项目不存在"

  /** The first step: no id leaves the page; a project already in the store is shown without fetching. */
  function LoadStart(id: Option<string>, storeProjects: seq<Project>): (step: LoadStep)
    ensures !Truthy(id) <==> step == Leave(MissingIdMessage)
    ensures Truthy(id) && ProjectSlice.FirstWithId(storeProjects, id.value).Some? ==>
      step == Show(ProjectSlice.FirstWithId(storeProjects, id.value).value)
    ensures Truthy(id) && ProjectSlice.FirstWithId(storeProjects, id.value).None? ==> step == Fetch(id.value)
  {
    if !Truthy(id) then Leave(MissingIdMessage)
    else match ProjectSlice.FirstWithId(storeProjects, id.value)
      case Some(p) => Show(p)
      case None => Fetch(id.value)
  }

  /** `result.payload` of a settled thunk: a rejected one has none. */
  function Payload(outcome: Outcome<Project>): (r: Option<Project>)
    ensures r.Some? <==> outcome.Fulfilled?
    ensures r.Some? ==> r.value == outcome.value
  {
    match outcome
    case Fulfilled(p) => Some(p)
    case Rejected(_) => None
  }

  /** The step after the fetch settles. */
  function AfterFetch(outcome: Outcome<Project>): (step: LoadStep)
    ensures outcome.Fulfilled? <==> step.Show?
    ensures outcome.Fulfilled? ==> step == Show(outcome.value)
    ensures outcome.Rejected? ==> step == Leave(NotFoundMessage)
  {
    match Payload(outcome)
    case Some(p) => Show(p)
    case None => Leave(NotFoundMessage)
  }

  /**
   * A project in the store is shown as it is there; otherwise the page asks
   * the thunk, which searches the stored list just as the store would.
   */
  lemma StoreFirst(id: string, storeProjects: seq<Project>, i: nat)
    requires id != "" && i < |storeProjects| && storeProjects[i].id == id
    requires forall j :: 0 <= j < i ==> storeProjects[j].id != id
    ensures LoadStart(Some(id), storeProjects) == Show(storeProjects[i])
  {
    ProjectSlice.FirstWithIdIsFirst(storeProjects, id, i);
  }

  /** `handleEdit`: the edit route of the loaded project, or nowhere. */
  function EditTarget(project: Option<Project>): (path: Option<string>)
    ensures path.Some? <==> project.Some?
    ensures path.Some? ==> path.value == ProjectsPath + "/" + project.value.id + "/edit"
  {
    match project
    case Some(p) => Some(ProjectsPath + "/" + p.id + "/edit")
    case None => None
  }
}
