/**
 * The project list page: the spinner while loading, otherwise the list or
 * the empty state, and the technology summary on each row. Its status
 * colour and text switches are those of `ProjectLabels`.
 */
module ProjectsPage {
  import opened Types
  import opened Strings

  const NoTechnologies := "无"

  /** `project.technologies?.join(', ') || '无'` */
  function TechnologySummary(technologies: seq<string>): (r: string)
    ensures r == NoTechnologies <==> (Join(technologies, ", ") == "" || Join(technologies, ", ") == NoTechnologies)
    ensures r != NoTechnologies ==> r == Join(technologies, ", ")
  {
    var joined := Join(technologies, ", ");
    if joined == "" then NoTechnologies else joined
  }

  /** The placeholder replaces the join exactly for an empty list or a single empty name. */
  lemma TechnologySummaryPlaceholder(technologies: seq<string>)
    ensures (|technologies| == 0 || technologies == [""]) ==> TechnologySummary(technologies) == NoTechnologies
    ensures !(|technologies| == 0 || technologies == [""]) ==>
      TechnologySummary(technologies) == Join(technologies, ", ") != ""
  {
    JoinEmptyIff(technologies, ", ");
    if |technologies| == 1 && technologies[0] == "" {
      assert technologies == [""];
    }
  }

  datatype PageView = Spinner | ProjectList(projects: seq<Project>) | EmptyList

  /** The loading view wins; otherwise the list is shown exactly when there are projects. */
  function View(loading: bool, projects: seq<Project>): (v: PageView)
    ensures loading <==> v.Spinner?
    ensures !loading ==> (v.ProjectList? <==> |projects| > 0)
    ensures v.ProjectList? ==> v.projects == projects
  {
    if loading then Spinner
    else if |projects| > 0 then ProjectList(projects)
    else EmptyList
  }
}
