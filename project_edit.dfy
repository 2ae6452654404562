/**
 * The project edit page: the store-first loader, `populateForm` (project to
 * form values and file list), and `onFinish` (form values and file list back
 * to a project handed to the `updateProject` thunk). The page's state fields
 * are the fields of `EditPage`.
 */
module ProjectEdit {
  import opened Wrappers
  import opened Types
  import opened Strings
  import opened ProjectCreate
  import ProjectDetail

  /**
   * The form's fields. The priority select is always filled by
   * `populateForm` and cannot be cleared, so it always holds a value.
   */
  datatype EditValues = EditValues(
    title: string,
    description: string,
    status: string,
    priority: string,
    technologies: Option<seq<string>>,
    tags: Option<seq<string>>,
    period: Period)

  /** `endDate ? [start || null, end] : startDate ? [start, null] : null` */
  function PeriodOf(p: Project): (r: Period)
    ensures Truthy(p.endDate) ==> r == Range(if p.startDate != "" then Some(p.startDate) else None, p.endDate)
    ensures !Truthy(p.endDate) && p.startDate != "" ==> r == Range(Some(p.startDate), None)
    ensures !Truthy(p.endDate) && p.startDate == "" ==> r == NoPeriod
  {
    if Truthy(p.endDate) then Range(if p.startDate != "" then Some(p.startDate) else None, p.endDate)
    else if p.startDate != "" then Range(Some(p.startDate), None)
    else NoPeriod
  }

  function FormOf(p: Project): EditValues
  {
    EditValues(p.title, p.description, p.status, p.priority, Some(p.technologies), Some(p.tags), PeriodOf(p))
  }

  /** The upload entries for a project's documents: id as `uid`, and the name, url and size. */
  function FilesOf(docs: seq<Document>): (files: seq<FileEntry>)
    ensures |files| == |docs|
    ensures forall i :: 0 <= i < |docs| ==>
      files[i] == FileEntry(docs[i].id, docs[i].name, Some(docs[i].url), docs[i].size)
  {
    seq(|docs|, i requires 0 <= i < |docs| => FileEntry(docs[i].id, docs[i].name, Some(docs[i].url), docs[i].size))
  }

  /**
   * The saved project: the loaded one with the form's fields, dates and
   * documents written over it, or `None` when a `null` period start makes
   * `toISOString` throw. Unlike the create page a `null` end is allowed.
   */
  function Saved(project: Project, values: EditValues, files: seq<FileEntry>, now: string): (r: Option<Project>)
    ensures r.None? <==> values.period.Range? && values.period.start.None?
    ensures r.Some? ==>
      var q := r.value;
      q.id == project.id && q.createdAt == project.createdAt
      && q.title == values.title && q.description == values.description
      && q.status == values.status && q.priority == values.priority
      && q.technologies == values.technologies.GetOr([]) && q.tags == values.tags.GetOr([])
      && q.startDate == (if values.period.Range? then values.period.start.value else now)
      && q.endDate == (if values.period.Range? then values.period.end else None)
      && q.documents == Some(DocumentsOf(files, now)) && q.updatedAt == now
  {
    match values.period
    case Range(start, end) =>
      if start.None? then None
      else Some(Overwrite(project, values, start.value, end, files, now))
    case NoPeriod =>
      Some(Overwrite(project, values, now, None, files, now))
  }

  function Overwrite(project: Project, values: EditValues, startDate: string, endDate: Option<string>,
                     files: seq<FileEntry>, now: string): Project
  {
    project.(title := values.title, description := values.description, status := values.status,
             priority := values.priority, technologies := values.technologies.GetOr([]),
             tags := values.tags.GetOr([]), startDate := startDate, endDate := endDate,
             documents := Some(DocumentsOf(files, now)), updatedAt := now)
  }

  /**
   * Saving an untouched form gives back the loaded project, except that the
   * documents are re-stamped as type `other`, a falsy end date reads back
   * as none, and `updatedAt` is the save time.
   */
  lemma UntouchedSaveRoundTrip(p: Project, now: string)
    requires p.startDate != ""
    ensures var q := Saved(p, FormOf(p), FilesOf(p.documents.GetOr([])), now);
      q.Some?
      && q.value.(documents := p.documents, endDate := p.endDate, updatedAt := p.updatedAt) == p
      && q.value.endDate == (if Truthy(p.endDate) then p.endDate else None)
  {
  }

  /** Documents to files and back keep id, name, url and size; the type becomes `other`. */
  lemma DocumentsRoundTrip(docs: seq<Document>, now: string)
    ensures var back := DocumentsOf(FilesOf(docs), now);
      |back| == |docs|
      && forall i :: 0 <= i < |docs| ==>
        back[i].id == docs[i].id && back[i].name == docs[i].name && back[i].url == docs[i].url
        && back[i].size == docs[i].size && back[i].docType == UploadedDocType && back[i].uploadedAt == now
  {
  }

  /** The upload list after a load: the stored documents when there are any, else the list as it was. */
  function ShownFiles(p: Project, fileList: seq<FileEntry>): seq<FileEntry>
  {
    if p.documents.Some? && |p.documents.value| > 0 then FilesOf(p.documents.value) else fileList
  }

  class EditPage {
    var loading: bool
    var submitting: bool
    var fileList: seq<FileEntry>
    var project: Option<Project>
    var form: Option<EditValues>
    /** Where the page last navigated, if anywhere. */
    var location: Option<string>

    constructor ()
      ensures loading && !submitting && fileList == [] && project == None && form == None && location == None
    {
      loading := true;
      submitting := false;
      fileList := [];
      project := None;
      form := None;
      location := None;
    }

    /** `populateForm`: the form always, the file list only for a non-empty document list. */
    method PopulateForm(p: Project)
      modifies this`form, this`fileList
      ensures form == Some(FormOf(p))
      ensures fileList == ShownFiles(p, old(fileList))
    {
      form := Some(FormOf(p));
      if p.documents.Some? && |p.documents.value| > 0 {
        fileList := FilesOf(p.documents.value);
      }
    }

    /** Showing a project: it becomes the page's project and fills the form and the file list. */
    method Show(p: Project)
      modifies this`project, this`form, this`fileList
      ensures project == Some(p) && form == Some(FormOf(p)) && fileList == ShownFiles(p, old(fileList))
    {
      project := Some(p);
      PopulateForm(p);
    }

    /**
     * The loader's first step. It answers whether the thunk must be asked;
     * a project already in the store is shown without it.
     */
    method LoadStart(id: Option<string>, storeProjects: seq<Project>) returns (fetch: Option<string>)
      modifies this`loading, this`project, this`form, this`fileList, this`location
      ensures var step := ProjectDetail.LoadStart(id, storeProjects);
        (step.Show? ==>
          fetch.None? && project == Some(step.project) && form == Some(FormOf(step.project)) && !loading
          && fileList == ShownFiles(step.project, old(fileList)) && location == old(location))
        && (step.Fetch? ==>
          fetch == Some(step.id) && loading && project == old(project) && form == old(form)
          && fileList == old(fileList) && location == old(location))
        && (step.Leave? ==>
          fetch.None? && location == Some(ProjectDetail.ProjectsPath) && loading == old(loading)
          && project == old(project) && form == old(form) && fileList == old(fileList))
    {
      var step := ProjectDetail.LoadStart(id, storeProjects);
      fetch := None;
      match step
      case Leave(_) =>
        location := Some(ProjectDetail.ProjectsPath);
      case Show(p) =>
        loading := true;
        Show(p);
        loading := false;
      case Fetch(i) =>
        loading := true;
        fetch := Some(i);
    }

    /** The loader's second step, once the thunk settles: show its payload or leave. */
    method LoadFetched(outcome: Outcome<Project>)
      modifies this`loading, this`project, this`form, this`fileList, this`location
      ensures !loading
      ensures outcome.Fulfilled? ==>
        project == Some(outcome.value) && form == Some(FormOf(outcome.value))
        && fileList == ShownFiles(outcome.value, old(fileList)) && location == old(location)
      ensures outcome.Rejected? ==>
        project == old(project) && form == old(form) && fileList == old(fileList)
        && location == Some(ProjectDetail.ProjectsPath)
    {
      var step := ProjectDetail.AfterFetch(outcome);
      if step.Show? {
        Show(step.project);
      } else {
        location := Some(ProjectDetail.ProjectsPath);
      }
      loading := false;
    }

    /**
     * `onFinish`: nothing without a loaded project; otherwise the saved
     * project for `updateProject`, and then the detail route.
     */
    method OnFinish(values: EditValues, now: string) returns (update: Option<Project>)
      modifies this`submitting, this`location
      ensures project.None? ==> update.None? && submitting == old(submitting) && location == old(location)
      ensures project.Some? ==> update == Saved(project.value, values, fileList, now) && !submitting
      ensures project.Some? && update.Some? ==> location == Some(ProjectDetail.ProjectsPath + "/" + project.value.id)
      ensures project.Some? && update.None? ==> location == old(location)
    {
      if project.None? {
        return None;
      }
      submitting := true;
      update := Saved(project.value, values, fileList, now);
      if update.Some? {
        location := Some(ProjectDetail.ProjectsPath + "/" + project.value.id);
      }
      submitting := false;
    }

    /** The upload widget's `onChange` stores the list it is given. */
    method OnFilesChange(files: seq<FileEntry>)
      modifies this`fileList
      ensures fileList == files
    {
      fileList := files;
    }
  }
}
