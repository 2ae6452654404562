/**
 * The project store: four asynchronous thunks that read and write the
 * browser's `projects` storage slot (falling back to a built-in mock list),
 * and the slice whose reducers fold the thunks' pending, fulfilled and
 * rejected actions into `{projects, loading, error, currentProject}`.
 */
module ProjectSlice {
  import opened Wrappers
  import opened Types
  import opened Strings
  import ListOps

  const NotFoundMessage := "项目不存在"
  const FetchListDefaultError := "获取项目列表失败"
  const FetchOneDefaultError := "获取项目详情失败"

  /**
   * The two built-in projects. The second one's `updatedAt` is the current
   * time when the module loads, given as `loadedAt`.
   */
  function MockProjects(loadedAt: string): (ps: seq<Project>)
    ensures |ps| == 2 && ps[0].id == "1" && ps[1].id == "2"
  {
    [ Project("1", "个人简历管理系统", "基于React和Ant Design的个人简历管理系统，支持项目管理和技能展示",
              ["React", "TypeScript", "Ant Design"], "2024-01-01T00:00:00.000Z",
              Some("2024-03-01T00:00:00.000Z"), "completed", "high", ["前端", "管理系统"], Some([]),
              "2024-01-01T00:00:00.000Z", "2024-03-01T00:00:00.000Z"),
      Project("2", "AI营销实验室", "AI驱动的营销工具平台，包含内容生成、数据分析等功能",
              ["Python", "FastAPI", "React"], "2024-02-01T00:00:00.000Z",
              None, "in-progress", "high", ["AI", "营销", "数据分析"], Some([]),
              "2024-02-01T00:00:00.000Z", loadedAt) ]
  }

  // -------------------------------------------------------------- thunks

  /** The browser's `localStorage`, reduced to the `projects` key; JSON is an identity round trip. */
  class Storage {
    var projects: Option<seq<Project>>

    constructor (initial: Option<seq<Project>>)
      ensures projects == initial
    {
      projects := initial;
    }

    /** The list the thunks work on: the stored one, or the mock list. */
    function Current(mock: seq<Project>): (ps: seq<Project>)
      reads this
      ensures projects.Some? ==> ps == projects.value
      ensures projects.None? ==> ps == mock
    {
      projects.GetOr(mock)
    }

    /** `fetchProjects`: the stored list unchanged, or else the mock list, which is then stored. */
    method FetchProjects(mock: seq<Project>) returns (ps: seq<Project>)
      modifies this
      ensures ps == old(Current(mock))
      ensures projects == Some(ps)
      ensures old(projects).Some? ==> projects == old(projects)
    {
      if projects.Some? {
        ps := projects.value;
      } else {
        projects := Some(mock);
        ps := mock;
      }
    }

    /**
     * `createProject`: the draft receives the id and the two timestamps and is
     * appended to the current list, which is stored.
     */
    method CreateProject(draft: ProjectDraft, mock: seq<Project>, id: string, createdAt: string, updatedAt: string)
      returns (created: Project)
      modifies this
      ensures created == Complete(draft, id, createdAt, updatedAt)
      ensures projects == Some(old(Current(mock)) + [created])
    {
      created := Complete(draft, id, createdAt, updatedAt);
      var existing := Current(mock);
      projects := Some(existing + [created]);
    }

    /** `fetchProjectById`: reads only. */
    function FetchProjectById(mock: seq<Project>, id: string): (r: Outcome<Project>)
      reads this
      ensures r.Fulfilled? <==> exists i :: 0 <= i < |Current(mock)| && Current(mock)[i].id == id
      ensures r.Fulfilled? ==> r.value == FirstWithId(Current(mock), id).value
      ensures r.Rejected? ==> r.message == Some(NotFoundMessage)
    {
      match FirstWithId(Current(mock), id)
      case Some(p) => Fulfilled(p)
      case None => Rejected(Some(NotFoundMessage))
    }

    /**
     * `updateProject`: every stored project with the payload's id becomes the
     * payload stamped with `storedAt`; the thunk resolves with the payload
     * stamped with `returnedAt`, a second reading of the clock.
     */
    method UpdateProject(project: Project, mock: seq<Project>, storedAt: string, returnedAt: string)
      returns (payload: Project)
      modifies this
      ensures payload == project.(updatedAt := returnedAt)
      ensures projects.Some?
      ensures projects.value == ReplaceById(old(Current(mock)), project.(updatedAt := storedAt))
    {
      var ps := Current(mock);
      projects := Some(ReplaceById(ps, project.(updatedAt := storedAt)));
      payload := project.(updatedAt := returnedAt);
    }
  }

  /** The first project with the id, as `find` returns it. */
  function FirstWithId(ps: seq<Project>, id: string): (r: Option<Project>)
    ensures r.None? <==> forall p :: p in ps ==> p.id != id
    ensures r.Some? ==>
      exists i :: 0 <= i < |ps| && ps[i] == r.value && r.value.id == id && forall j :: 0 <= j < i ==> ps[j].id != id
  {
    ListOps.Find(ps, (p: Project) => p.id == id)
  }

  /** `ps.map(p => p.id === updated.id ? updated : p)` */
  function ReplaceById(ps: seq<Project>, updated: Project): (r: seq<Project>)
    ensures |r| == |ps|
    ensures forall i :: 0 <= i < |ps| ==> r[i] == (if ps[i].id == updated.id then updated else ps[i])
  {
    ListOps.ReplaceWhere(ps, (p: Project) => p.id == updated.id, updated)
  }

  /** The id of a project is all that decides whether `find` reaches it: the first match wins. */
  lemma FirstWithIdIsFirst(ps: seq<Project>, id: string, i: nat)
    requires i < |ps| && ps[i].id == id
    requires forall j :: 0 <= j < i ==> ps[j].id != id
    ensures FirstWithId(ps, id) == Some(ps[i])
  {
    var r := ListOps.FindIndex(ps, (p: Project) => p.id == id);
    assert r == Some(i);
  }

  /** Creating a project and then fetching its id finds it, unless an earlier project already used that id. */
  lemma CreateThenFetch(current: seq<Project>, created: Project)
    requires forall j :: 0 <= j < |current| ==> current[j].id != created.id
    ensures FirstWithId(current + [created], created.id) == Some(created)
  {
    FirstWithIdIsFirst(current + [created], created.id, |current|);
  }

  // ---------------------------------------------------------------- slice

  class ProjectState {
    var projects: seq<Project>
    var loading: bool
    var error: Option<string>
    var currentProject: Option<Project>

    /** The initial state: no projects, idle, no error, nothing selected. */
    constructor ()
      ensures projects == [] && !loading && error == None && currentProject == None
    {
      projects := [];
      loading := false;
      error := None;
      currentProject := None;
    }

    method SetCurrentProject(p: Option<Project>)
      modifies this`currentProject
      ensures currentProject == p
    {
      currentProject := p;
    }

    method ClearError()
      modifies this`error
      ensures error == None
    {
      error := None;
    }

    /** `fetchProjects.pending` and `fetchProjectById.pending` */
    method Pending()
      modifies this`loading
      ensures loading
    {
      loading := true;
    }

    method FetchProjectsFulfilled(payload: seq<Project>)
      modifies this`loading, this`projects
      ensures !loading && projects == payload
    {
      loading := false;
      projects := payload;
    }

    method FetchProjectsRejected(message: Option<string>)
      modifies this`loading, this`error
      ensures !loading && error == Some(ErrorText(message, FetchListDefaultError))
    {
      loading := false;
      error := Some(ErrorText(message, FetchListDefaultError));
    }

    /** `createProject.fulfilled`: the payload is pushed; nothing else changes, `loading` included. */
    method CreateProjectFulfilled(payload: Project)
      modifies this`projects
      ensures projects == old(projects) + [payload]
    {
      projects := projects + [payload];
    }

    method FetchProjectByIdFulfilled(payload: Project)
      modifies this`loading, this`currentProject
      ensures !loading && currentProject == Some(payload)
    {
      loading := false;
      currentProject := Some(payload);
    }

    method FetchProjectByIdRejected(message: Option<string>)
      modifies this`loading, this`error
      ensures !loading && error == Some(ErrorText(message, FetchOneDefaultError))
    {
      loading := false;
      error := Some(ErrorText(message, FetchOneDefaultError));
    }

    /**
     * `updateProject.fulfilled`: only the FIRST project with the payload's id
     * is replaced (none if there is none), and the payload becomes current.
     */
    method UpdateProjectFulfilled(payload: Project)
      modifies this`projects, this`currentProject
      ensures |projects| == |old(projects)|
      ensures forall i :: 0 <= i < |projects| ==>
        projects[i] == (if i == FirstIndexOfId(old(projects), payload.id) then payload else old(projects)[i])
      ensures currentProject == Some(payload)
    {
      var index := ListOps.FindIndex(projects, (p: Project) => p.id == payload.id);
      if index.Some? {
        projects := projects[index.value := payload];
      }
      currentProject := Some(payload);
    }
  }

  /** `findIndex` on ids, -1 when absent. */
  function FirstIndexOfId(ps: seq<Project>, id: string): (r: int)
    ensures -1 <= r < |ps|
    ensures r >= 0 ==> ps[r].id == id && forall j :: 0 <= j < r ==> ps[j].id != id
    ensures r == -1 <==> forall j :: 0 <= j < |ps| ==> ps[j].id != id
  {
    match ListOps.FindIndex(ps, (p: Project) => p.id == id)
    case None => -1
    case Some(k) => k
  }

  /**
   * The thunk and the reducer disagree when ids repeat: the thunk rewrites
   * every stored copy, the reducer only the first one in memory.
   */
  lemma UpdateDivergesOnDuplicateIds(p: Project, q: Project, u: Project)
    requires p.id == q.id == u.id && p != u && q != u
    ensures ReplaceById([p, q], u) == [u, u]
    ensures FirstIndexOfId([p, q], u.id) == 0
  {
  }
}
