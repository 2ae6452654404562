/**
 * The `/api/projects` handlers over the `projects` table. A row keeps the
 * JSON list columns as lists (stringify/parse is an identity round trip);
 * a NULL column is `None`.
 */
module ProjectRoutes {
  import opened Wrappers
  import opened Strings
  import opened Db
  import Types
  import Sorting
  import ListOps


  const RequiredMessage := "Title and start date are required"
  const NotFoundMessage := "Project not found"
  const CreateFailed := "Failed to create project"
  const UpdateFailed := "Failed to update project"

  datatype ProjectRow = ProjectRow(
    title: string,
    description: Option<string>,
    technologies: Option<seq<string>>,
    startDate: string,
    endDate: Option<string>,
    status: string,
    priority: string,
    tags: Option<seq<string>>,
    createdAt: string,
    updatedAt: string)

  /** A row of the `documents` table, keyed by its own id. */
  datatype DocumentRow = DocumentRow(projectId: Option<string>, name: string, docType: string,
                                     url: string, size: Option<int>, uploadedAt: string)

  /** A request body; an omitted property is `None`. */
  datatype ProjectRequest = ProjectRequest(
    title: Option<string>,
    description: Option<string>,
    technologies: Option<seq<string>>,
    startDate: Option<string>,
    endDate: Option<string>,
    status: Option<string>,
    priority: Option<string>,
    tags: Option<seq<string>>)

  /** The JSON a handler answers with: the row, its id, its lists parsed, and on `GET /:id` its documents. */
  datatype ProjectJson = ProjectJson(
    id: string,
    title: string,
    description: Option<string>,
    technologies: seq<string>,
    startDate: string,
    endDate: Option<string>,
    status: string,
    priority: string,
    tags: seq<string>,
    createdAt: string,
    updatedAt: string,
    documents: Option<seq<(string, DocumentRow)>>)

  /** The table's CHECK constraints; an INSERT or UPDATE that breaks them fails. */
  predicate RowChecks(row: ProjectRow)
  {
    row.status in Types.ProjectStatuses && row.priority in Types.ProjectPriorities
  }

  /** `{...row, technologies: JSON.parse(row.technologies || '[]'), tags: …}` */
  function Parsed(id: string, row: ProjectRow, documents: Option<seq<(string, DocumentRow)>>): (j: ProjectJson)
    ensures j.id == id && j.createdAt == row.createdAt && j.documents == documents
    ensures row.technologies.None? ==> j.technologies == []
    ensures row.tags.None? ==> j.tags == []
  {
    ProjectJson(id, row.title, row.description, row.technologies.GetOr([]), row.startDate, row.endDate,
                row.status, row.priority, row.tags.GetOr([]), row.createdAt, row.updatedAt, documents)
  }

  /** The row POST inserts: the destructuring defaults, and one clock reading for both timestamps. */
  function NewRow(req: ProjectRequest, now: string): ProjectRow
    requires req.title.Some? && req.startDate.Some?
  {
    ProjectRow(req.title.value, req.description, Some(req.technologies.GetOr([])), req.startDate.value,
               req.endDate, req.status.GetOr("planning"), req.priority.GetOr("medium"),
               Some(req.tags.GetOr([])), now, now)
  }

  /** The row PUT leaves behind: `COALESCE(?, column)` everywhere but `end_date`, which is always written. */
  function Merged(row: ProjectRow, req: ProjectRequest, now: string): ProjectRow
  {
    ProjectRow(req.title.GetOr(row.title), if req.description.Some? then req.description else row.description,
               if req.technologies.Some? then req.technologies else row.technologies,
               req.startDate.GetOr(row.startDate), req.endDate, req.status.GetOr(row.status),
               req.priority.GetOr(row.priority), if req.tags.Some? then req.tags else row.tags,
               row.createdAt, now)
  }

  /** A request that leaves out a column keeps it; one that supplies it replaces it. */
  lemma MergedColumns(row: ProjectRow, req: ProjectRequest, now: string)
    ensures var r := Merged(row, req, now);
      (req.title.None? ==> r.title == row.title) && (req.title.Some? ==> r.title == req.title.value)
      && (req.status.None? ==> r.status == row.status) && (req.status.Some? ==> r.status == req.status.value)
      && (req.tags.None? ==> r.tags == row.tags) && (req.tags.Some? ==> r.tags == req.tags)
      && r.endDate == req.endDate && r.createdAt == row.createdAt && r.updatedAt == now
  {
  }

  /** An empty body only clears `end_date` and bumps `updated_at`. */
  lemma MergedEmptyRequest(row: ProjectRow, now: string)
    ensures Merged(row, ProjectRequest(None, None, None, None, None, None, None, None), now)
         == row.(endDate := None, updatedAt := now)
  {
  }

  /** Sending the same PUT twice leaves what sending it once leaves, up to the timestamp. */
  lemma MergedIdempotent(row: ProjectRow, req: ProjectRequest, t1: string, t2: string)
    ensures Merged(Merged(row, req, t1), req, t2) == Merged(row, req, t2)
  {
  }

  /** The defaults lie in the CHECK domains, so only an explicit bad value makes POST fail them. */
  lemma NewRowDefaultsPassChecks(req: ProjectRequest, now: string)
    requires req.title.Some? && req.startDate.Some?
    requires req.status.None? || req.status.value in Types.ProjectStatuses
    requires req.priority.None? || req.priority.value in Types.ProjectPriorities
    ensures RowChecks(NewRow(req, now))
  {
  }

  /**
   * A status or priority outside the CHECK domains, such as the front end's
   * `urgent`, makes the INSERT fail.
   */
  lemma NewRowOutsideDomainFails(req: ProjectRequest, now: string)
    requires req.title.Some? && req.startDate.Some?
    requires (req.status.Some? && req.status.value !in Types.ProjectStatuses)
      || (req.priority.Some? && req.priority.value !in Types.ProjectPriorities)
    ensures !RowChecks(NewRow(req, now))
  {
  }

  /** A PUT that names neither status nor priority keeps a valid row valid. */
  lemma MergedKeepsChecks(row: ProjectRow, req: ProjectRequest, now: string)
    requires RowChecks(row) && req.status.None? && req.priority.None?
    ensures RowChecks(Merged(row, req, now))
  {
  }

  /** `projects.map(...)` over the selected rows. */
  function ParsedAll(entries: seq<(string, ProjectRow)>): (r: seq<ProjectJson>)
    ensures |r| == |entries|
    ensures forall i :: 0 <= i < |r| ==> r[i] == Parsed(entries[i].0, entries[i].1, None)
  {
    seq(|entries|, i requires 0 <= i < |entries| => Parsed(entries[i].0, entries[i].1, None))
  }

  function CreatedAt(e: (string, ProjectRow)): string
  {
    e.1.createdAt
  }

  lemma ParsedAllMembers(rows: map<string, ProjectRow>, sorted: seq<(string, ProjectRow)>)
    requires forall i :: 0 <= i < |sorted| ==> sorted[i].0 in rows && rows[sorted[i].0] == sorted[i].1
    requires forall k :: k in rows ==> (k, rows[k]) in sorted
    ensures forall i :: 0 <= i < |ParsedAll(sorted)| ==>
      ParsedAll(sorted)[i].id in rows && ParsedAll(sorted)[i] == Parsed(ParsedAll(sorted)[i].id, rows[ParsedAll(sorted)[i].id], None)
    ensures forall k :: k in rows ==> Parsed(k, rows[k], None) in ParsedAll(sorted)
  {
    var body := ParsedAll(sorted);
    forall k | k in rows
      ensures Parsed(k, rows[k], None) in body
    {
      var i :| 0 <= i < |sorted| && sorted[i] == (k, rows[k]);
      assert body[i] == Parsed(k, rows[k], None);
    }
  }

  lemma ParsedAllNewestFirst(sorted: seq<(string, ProjectRow)>)
    requires Sorting.Sorted(sorted, Sorting.KeyDesc(CreatedAt))
    ensures forall i, j :: 0 <= i < j < |ParsedAll(sorted)| ==>
      StrLe(ParsedAll(sorted)[j].createdAt, ParsedAll(sorted)[i].createdAt)
  {
    var body := ParsedAll(sorted);
    forall i, j | 0 <= i < j < |body|
      ensures StrLe(body[j].createdAt, body[i].createdAt)
    {
      assert Sorting.KeyDesc(CreatedAt)(sorted[i], sorted[j]);
      assert StrLe(CreatedAt(sorted[j]), CreatedAt(sorted[i]));
      assert body[i].createdAt == CreatedAt(sorted[i]) && body[j].createdAt == CreatedAt(sorted[j]);
    }
  }

  class ProjectTable {
    var rows: map<string, ProjectRow>
    var documents: map<string, DocumentRow>

    /** Every stored row satisfies the CHECK constraints. */
    ghost predicate Valid()
      reads this
    {
      forall k :: k in rows ==> RowChecks(rows[k])
    }

    constructor (documents: map<string, DocumentRow>)
      ensures rows == map[] && this.documents == documents && Valid()
    {
      rows := map[];
      this.documents := documents;
    }

    /** `GET /`: every row once, newest first, lists defaulted. */
    method List() returns (resp: Response<seq<ProjectJson>>)
      ensures resp.Ok?
      ensures |resp.body| == |rows|
      ensures forall i :: 0 <= i < |resp.body| ==>
        resp.body[i].id in rows && resp.body[i] == Parsed(resp.body[i].id, rows[resp.body[i].id], None)
      ensures forall k :: k in rows ==> Parsed(k, rows[k], None) in resp.body
      ensures forall i, j :: 0 <= i < j < |resp.body| ==> resp.body[i].id != resp.body[j].id
      ensures forall i, j :: 0 <= i < j < |resp.body| ==> StrLe(resp.body[j].createdAt, resp.body[i].createdAt)
    {
      Sorting.KeyDescOrder(CreatedAt);
      var sorted := Db.SelectOrderBy(rows, Sorting.KeyDesc(CreatedAt));
      var body := ParsedAll(sorted);
      ParsedAllMembers(rows, sorted);
      ParsedAllNewestFirst(sorted);
      resp := Ok(body);
    }

    /** `GET /:id`: the row with its documents, or 404. */
    method Get(id: string) returns (resp: Response<ProjectJson>)
      ensures id !in rows <==> resp == NotFound(NotFoundMessage)
      ensures id in rows ==> resp.Ok? && resp.body == Parsed(id, rows[id], resp.body.documents)
      ensures resp.Ok? ==> resp.body.documents.Some?
      ensures resp.Ok? ==> forall i :: 0 <= i < |resp.body.documents.value| ==>
        var (dk, d) := resp.body.documents.value[i];
        dk in documents && documents[dk] == d && d.projectId == Some(id)
      ensures resp.Ok? ==> forall dk :: dk in documents && documents[dk].projectId == Some(id) ==>
        (dk, documents[dk]) in resp.body.documents.value
    {
      if id !in rows {
        return NotFound(NotFoundMessage);
      }
      var scanned := Db.Scan(documents);
      var keep := (e: (string, DocumentRow)) => e.1.projectId == Some(id);
      var docs := ListOps.Filter(scanned, keep);
      forall i | 0 <= i < |docs|
        ensures docs[i].0 in documents && documents[docs[i].0] == docs[i].1
      {
        Db.ScanMembers(documents, scanned, docs[i].0, docs[i].1);
        assert docs[i] in multiset(scanned);
      }
      forall dk | dk in documents && documents[dk].projectId == Some(id)
        ensures (dk, documents[dk]) in docs
      {
        Db.ScanMembers(documents, scanned, dk, documents[dk]);
        assert (dk, documents[dk]) in multiset(scanned);
        var m :| 0 <= m < |scanned| && scanned[m] == (dk, documents[dk]);
        assert keep(scanned[m]);
      }
      resp := Ok(Parsed(id, rows[id], Some(docs)));
    }

    /**
     * `POST /`: 400 without a truthy title and start date; otherwise the
     * defaulted row under the fresh id, unless the id is taken or a CHECK
     * fails, which answers 500 and inserts nothing.
     */
    method Post(req: ProjectRequest, id: string, now: string) returns (resp: Response<ProjectJson>)
      requires Valid()
      modifies this`rows
      ensures Valid()
      ensures !(Truthy(req.title) && Truthy(req.startDate)) ==>
        resp == BadRequest(RequiredMessage) && rows == old(rows)
      ensures Truthy(req.title) && Truthy(req.startDate) && (id in old(rows) || !RowChecks(NewRow(req, now))) ==>
        resp == ServerError(CreateFailed) && rows == old(rows)
      ensures Truthy(req.title) && Truthy(req.startDate) && id !in old(rows) && RowChecks(NewRow(req, now)) ==>
        rows == old(rows)[id := NewRow(req, now)] && resp == Created(Parsed(id, NewRow(req, now), None))
      ensures resp.Created? ==> resp.body.createdAt == resp.body.updatedAt
    {
      if !(Truthy(req.title) && Truthy(req.startDate)) {
        return BadRequest(RequiredMessage);
      }
      var row := NewRow(req, now);
      if id in rows || !RowChecks(row) {
        return ServerError(CreateFailed);
      }
      rows := rows[id := row];
      resp := Created(Parsed(id, row, None));
    }

    /**
     * `PUT /:id`: an unknown id changes nothing and answers 404; otherwise
     * the merged row replaces the old one unless it breaks a CHECK (500).
     */
    method Put(id: string, req: ProjectRequest, now: string) returns (resp: Response<ProjectJson>)
      requires Valid()
      modifies this`rows
      ensures Valid()
      ensures id !in old(rows) ==> resp == NotFound(NotFoundMessage) && rows == old(rows)
      ensures id in old(rows) && !RowChecks(Merged(old(rows)[id], req, now)) ==>
        resp == ServerError(UpdateFailed) && rows == old(rows)
      ensures id in old(rows) && RowChecks(Merged(old(rows)[id], req, now)) ==>
        rows == old(rows)[id := Merged(old(rows)[id], req, now)]
        && resp == Ok(Parsed(id, Merged(old(rows)[id], req, now), None))
    {
      if id !in rows {
        return NotFound(NotFoundMessage);
      }
      var row := Merged(rows[id], req, now);
      if !RowChecks(row) {
        return ServerError(UpdateFailed);
      }
      rows := rows[id := row];
      resp := Ok(Parsed(id, row, None));
    }

    /** `DELETE /:id`: 204 whether or not the row existed. */
    method Delete(id: string) returns (resp: Response<ProjectJson>)
      requires Valid()
      modifies this`rows
      ensures Valid()
      ensures resp == NoContent
      ensures rows == old(rows) - {id}
    {
      rows := rows - {id};
      resp := NoContent;
    }
  }
}
