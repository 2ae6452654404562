/**
 * The project creation page: the upload guard, the file list the upload
 * widget keeps, and `onFinish`, which assembles the form values and the
 * file list into the draft handed to the `createProject` thunk.
 */
module ProjectCreate {
  import opened Wrappers
  import opened Types
  import opened Strings
  import FileLimits

  /** The upload limit of both project pages, in MiB. */
  const UploadLimitMiB: real := 10.0
  const DefaultPriority := "medium"
  const UploadedDocType := "other"

  /** An entry of the upload widget's file list. */
  datatype FileEntry = FileEntry(uid: string, name: string, url: Option<string>, size: int)

  /**
   * The range picker's value: `null`, or a pair whose bounds may each be
   * `null`. A bound is kept as its ISO text.
   */
  datatype Period = NoPeriod | Range(start: Option<string>, end: Option<string>)

  /** The fields `onFinish` reads; title, description and status are required by the form. */
  datatype CreateValues = CreateValues(
    title: string,
    description: string,
    status: string,
    priority: Option<string>,
    technologies: Option<seq<string>>,
    tags: Option<seq<string>>,
    period: Period)

  /** `beforeUpload`: the strict 10 MiB guard. */
  function BeforeUpload(size: int): (accepted: bool)
    ensures accepted <==> (size as real) < UploadLimitMiB * FileLimits.BytesPerMiB
  {
    FileLimits.SizeBelow(size, UploadLimitMiB)
  }

  /**
   * The file list after a file is picked. The guard's `false` only stops the
   * upload; the widget still adds the file, and `onChange` stores that list.
   */
  function AfterPick(fileList: seq<FileEntry>, file: FileEntry): (r: seq<FileEntry>)
    ensures r == fileList + [file]
  {
    fileList + [file]
  }

  /** The file list after a pick when the guard answers `LIST_IGNORE` for a refused file. */
  function AfterPickIgnoring(fileList: seq<FileEntry>, file: FileEntry): (r: seq<FileEntry>)
    ensures BeforeUpload(file.size) ==> r == fileList + [file]
    ensures !BeforeUpload(file.size) ==> r == fileList
  {
    if BeforeUpload(file.size) then fileList + [file] else fileList
  }

  predicate AllWithinLimit(fileList: seq<FileEntry>)
  {
    forall i :: 0 <= i < |fileList| ==> BeforeUpload(fileList[i].size)
  }

  /** One document per file, in order: id from `uid`, type `other`, url or `''`, stamped with `now`. */
  function DocumentsOf(files: seq<FileEntry>, now: string): (docs: seq<Document>)
    ensures |docs| == |files|
    ensures forall i :: 0 <= i < |files| ==>
      docs[i] == Document(files[i].uid, files[i].name, UploadedDocType, files[i].url.GetOr(""), files[i].size, now)
  {
    seq(|files|, i requires 0 <= i < |files| =>
      Document(files[i].uid, files[i].name, UploadedDocType, files[i].url.GetOr(""), files[i].size, now))
  }

  /**
   * `onFinish`: the draft, or `None` when a `null` bound of the period makes
   * `toISOString` throw (the page then only reports the failure).
   */
  function OnFinish(values: CreateValues, files: seq<FileEntry>, now: string): (r: Option<ProjectDraft>)
    ensures r.None? <==> values.period.Range? && (values.period.start.None? || values.period.end.None?)
    ensures r.Some? ==>
      var d := r.value;
      d.title == values.title && d.description == values.description && d.status == values.status
      && d.priority == (if Truthy(values.priority) then values.priority.value else DefaultPriority)
      && d.technologies == values.technologies.GetOr([]) && d.tags == values.tags.GetOr([])
      && d.startDate == (if values.period.Range? then values.period.start.value else now)
      && d.endDate == (if values.period.Range? then values.period.end else None)
      && d.documents == Some(DocumentsOf(files, now))
  {
    match values.period
    case Range(start, end) =>
      if start.None? || end.None? then None
      else Some(Draft(values, start.value, end, files, now))
    case NoPeriod =>
      Some(Draft(values, now, None, files, now))
  }

  function Draft(values: CreateValues, startDate: string, endDate: Option<string>, files: seq<FileEntry>, now: string): ProjectDraft
  {
    ProjectDraft(values.title, values.description, values.technologies.GetOr([]), startDate, endDate, values.status,
                 if Truthy(values.priority) then values.priority.value else DefaultPriority,
                 values.tags.GetOr([]), Some(DocumentsOf(files, now)))
  }

  /**
   * As written, a file over the limit is refused with a message but stays in
   * the list, so the saved draft lists it among its documents.
   */
  lemma OversizeFileSaved(values: CreateValues, file: FileEntry, now: string)
    requires values.period.NoPeriod?
    requires !BeforeUpload(file.size)
    ensures var d := OnFinish(values, AfterPick([], file), now);
      d.Some? && d.value.documents.Some? && |d.value.documents.value| == 1
      && d.value.documents.value[0].id == file.uid && d.value.documents.value[0].size == file.size
  {
    assert AfterPick([], file)[0] == file;
  }

  /** With refused files ignored, every file in the list, and so every saved document, is under the limit. */
  lemma IgnoringKeepsLimit(fileList: seq<FileEntry>, file: FileEntry, now: string)
    requires AllWithinLimit(fileList)
    ensures AllWithinLimit(AfterPickIgnoring(fileList, file))
    ensures forall i :: 0 <= i < |AfterPickIgnoring(fileList, file)| ==>
      BeforeUpload(DocumentsOf(AfterPickIgnoring(fileList, file), now)[i].size)
  {
    var r := AfterPickIgnoring(fileList, file);
    forall i | 0 <= i < |r|
      ensures BeforeUpload(r[i].size)
    {
      if i < |fileList| {
        assert r[i] == fileList[i];
      }
    }
  }
}
