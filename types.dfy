/**
 * The records the front end passes around: projects with their documents,
 * and resumes with personal information, experiences, education, skills and
 * project references. Optional fields are `Option`s; timestamps and ids are
 * opaque strings.
 */
module Types {
  import opened Wrappers

  datatype Document = Document(
    id: string,
    name: string,
    docType: string,
    url: string,
    size: int,
    uploadedAt: string)

  /**
   * A project. `status` and `priority` are kept as strings because several
   * pages handle values outside the declared unions (for example a priority
   * of 'urgent'); `documents` may be missing on rows read from the server.
   */
  datatype Project = Project(
    id: string,
    title: string,
    description: string,
    technologies: seq<string>,
    startDate: string,
    endDate: Option<string>,
    status: string,
    priority: string,
    tags: seq<string>,
    documents: Option<seq<Document>>,
    createdAt: string,
    updatedAt: string)

  /** A project before the store assigns its id and timestamps (`Omit<Project, 'id' | 'createdAt' | 'updatedAt'>`). */
  datatype ProjectDraft = ProjectDraft(
    title: string,
    description: string,
    technologies: seq<string>,
    startDate: string,
    endDate: Option<string>,
    status: string,
    priority: string,
    tags: seq<string>,
    documents: Option<seq<Document>>)

  /** `{...draft, id, createdAt, updatedAt}` */
  function Complete(d: ProjectDraft, id: string, createdAt: string, updatedAt: string): (p: Project)
    ensures p.id == id && p.createdAt == createdAt && p.updatedAt == updatedAt
    ensures p.title == d.title && p.description == d.description && p.technologies == d.technologies
    ensures p.startDate == d.startDate && p.endDate == d.endDate && p.status == d.status
    ensures p.priority == d.priority && p.tags == d.tags && p.documents == d.documents
  {
    Project(id, d.title, d.description, d.technologies, d.startDate, d.endDate, d.status,
            d.priority, d.tags, d.documents, createdAt, updatedAt)
  }

  /**
   * The value unions of the front-end types. They are also the CHECK
   * domains of the `status`, `priority`, `level` and `template` columns.
   * The statuses are in the order the chart lists them.
   */
  const ProjectStatuses: seq<string> := ["planning", "in-progress", "completed", "on-hold"]

  const ProjectPriorities: seq<string> := ["low", "medium", "high"]

  const SkillLevels: seq<string> := ["beginner", "intermediate", "advanced", "expert"]

  const ResumeTemplates: seq<string> := ["modern", "classic", "creative", "minimal"]

  datatype PersonalInfo = PersonalInfo(
    name: string,
    title: string,
    email: string,
    phone: string,
    location: string,
    website: Option<string>,
    github: Option<string>,
    linkedin: Option<string>,
    bio: string,
    photo: Option<string>,
    gender: Option<string>,
    age: Option<string>,
    hometown: Option<string>,
    height: Option<string>,
    marriageStatus: Option<string>,
    politicalStatus: Option<string>)

  datatype Experience = Experience(
    id: string,
    company: string,
    position: string,
    startDate: string,
    endDate: Option<string>,
    description: string,
    achievements: seq<string>,
    technologies: seq<string>)

  /**
   * An education entry. `gpa` is a number in the source; it is kept here as
   * the text `${gpa}` renders, which is all the templates use.
   */
  datatype Education = Education(
    id: string,
    institution: string,
    degree: string,
    field: string,
    startDate: string,
    endDate: string,
    gpa: Option<string>,
    description: Option<string>)

  /** JavaScript truthiness of a number, given its decimal rendering. */
  predicate NumberTruthy(n: Option<string>)
  {
    n.Some? && n.value != "0" && n.value != "-0" && n.value != "NaN"
  }

  datatype Skill = Skill(
    id: string,
    name: string,
    category: string,
    level: string,
    years: int,
    description: Option<string>)

  datatype ProjectReference = ProjectReference(
    projectId: string,
    role: string,
    contribution: string,
    highlights: seq<string>)

  datatype Resume = Resume(
    id: string,
    personalInfo: PersonalInfo,
    experiences: seq<Experience>,
    education: seq<Education>,
    skills: seq<Skill>,
    projects: seq<ProjectReference>,
    summary: Option<string>,
    template: string,
    createdAt: string,
    updatedAt: string)

  /** The number of projects whose status is `status`. */
  function CountStatus(ps: seq<Project>, status: string): (n: nat)
    ensures n <= |ps|
    ensures n == 0 <==> forall i :: 0 <= i < |ps| ==> ps[i].status != status
    decreases |ps|
  {
    if |ps| == 0 then 0
    else (if ps[0].status == status then 1 else 0) + CountStatus(ps[1..], status)
  }

  lemma {:induction false} CountStatusAppend(ps: seq<Project>, p: Project, status: string)
    ensures CountStatus(ps + [p], status) == CountStatus(ps, status) + (if p.status == status then 1 else 0)
    decreases |ps|
  {
    if |ps| == 0 {
      assert ([] + [p])[1..] == [];
    } else {
      assert (ps + [p])[1..] == ps[1..] + [p];
      CountStatusAppend(ps[1..], p, status);
    }
  }

  /** Projects whose statuses differ from each of two distinct values: the counts of both fit in the list. */
  lemma {:induction false} CountStatusPair(ps: seq<Project>, a: string, b: string)
    requires a != b
    ensures CountStatus(ps, a) + CountStatus(ps, b) <= |ps|
    decreases |ps|
  {
    if |ps| > 0 {
      CountStatusPair(ps[1..], a, b);
    }
  }
}
