/**
 * The `/api/resume` handlers over the `resumes` table: POST always inserts
 * a new version, PUT coalesces into an existing one, `/latest` picks the
 * newest and `/history` lists them all, newest first.
 */
module ResumeRoutes {
  import opened Wrappers
  import opened Strings
  import opened Types
  import opened Db
  import Sorting


  const RequiredMessage := "Personal info is required"
  const NotFoundMessage := "Resume not found"
  const NoResumeMessage := "No resume found"
  const CreateFailed := "Failed to create resume"
  const UpdateFailed := "Failed to update resume"

  /** A stored row; the JSON columns hold their parsed values, NULL is `None`. */
  datatype ResumeRow = ResumeRow(
    personalInfo: PersonalInfo,
    experiences: Option<seq<Experience>>,
    education: Option<seq<Education>>,
    skills: Option<seq<Skill>>,
    projects: Option<seq<ProjectReference>>,
    summary: string,
    template: string,
    createdAt: string,
    updatedAt: string)

  /** A request body; an omitted property is `None`. */
  datatype ResumeRequest = ResumeRequest(
    personalInfo: Option<PersonalInfo>,
    experiences: Option<seq<Experience>>,
    education: Option<seq<Education>>,
    skills: Option<seq<Skill>>,
    projects: Option<seq<ProjectReference>>,
    summary: Option<string>,
    template: Option<string>)

  /** One `/history` row: `SELECT id, template, summary, created_at, updated_at`. */
  datatype HistoryEntry = HistoryEntry(id: string, template: string, summary: string, createdAt: string, updatedAt: string)

  predicate RowChecks(row: ResumeRow)
  {
    row.template in ResumeTemplates
  }

  /** A row read back with every JSON list parsed, a NULL list reading as `[]`. */
  function Parsed(id: string, row: ResumeRow): (r: Resume)
    ensures r.id == id && r.createdAt == row.createdAt
  {
    Resume(id, row.personalInfo, row.experiences.GetOr([]), row.education.GetOr([]), row.skills.GetOr([]),
           row.projects.GetOr([]), Some(row.summary), row.template, row.createdAt, row.updatedAt)
  }

  /** The row POST inserts: lists default to `[]`, summary to `''`, template to `modern`. */
  function NewRow(req: ResumeRequest, now: string): ResumeRow
    requires req.personalInfo.Some?
  {
    ResumeRow(req.personalInfo.value, Some(req.experiences.GetOr([])), Some(req.education.GetOr([])),
              Some(req.skills.GetOr([])), Some(req.projects.GetOr([])), req.summary.GetOr(""),
              req.template.GetOr("modern"), now, now)
  }

  /** The row PUT leaves behind: every column coalesced, `updated_at` always set. */
  function Merged(row: ResumeRow, req: ResumeRequest, now: string): ResumeRow
  {
    ResumeRow(req.personalInfo.GetOr(row.personalInfo),
              if req.experiences.Some? then req.experiences else row.experiences,
              if req.education.Some? then req.education else row.education,
              if req.skills.Some? then req.skills else row.skills,
              if req.projects.Some? then req.projects else row.projects,
              req.summary.GetOr(row.summary), req.template.GetOr(row.template), row.createdAt, now)
  }

  /**
   * What POST answers is what the request asked to store: the lists it
   * sent (or `[]`), its summary (or `''`) and its template (or `modern`).
   */
  lemma CreatedRoundTrip(req: ResumeRequest, id: string, now: string)
    requires req.personalInfo.Some?
    ensures var r := Parsed(id, NewRow(req, now));
      r.personalInfo == req.personalInfo.value
      && r.experiences == req.experiences.GetOr([]) && r.education == req.education.GetOr([])
      && r.skills == req.skills.GetOr([]) && r.projects == req.projects.GetOr([])
      && r.summary == Some(req.summary.GetOr("")) && r.template == req.template.GetOr("modern")
      && r.createdAt == now && r.updatedAt == now
  {
  }

  /** A PUT that supplies nothing changes only `updated_at`. */
  lemma MergedEmptyRequest(row: ResumeRow, now: string)
    ensures Merged(row, ResumeRequest(None, None, None, None, None, None, None), now) == row.(updatedAt := now)
  {
  }

  lemma MergedIdempotent(row: ResumeRow, req: ResumeRequest, t1: string, t2: string)
    ensures Merged(Merged(row, req, t1), req, t2) == Merged(row, req, t2)
  {
  }

  function CreatedAt(e: (string, ResumeRow)): string
  {
    e.1.createdAt
  }

  function HistoryOf(entries: seq<(string, ResumeRow)>): (h: seq<HistoryEntry>)
    ensures |h| == |entries|
    ensures forall i :: 0 <= i < |h| ==>
      h[i] == HistoryEntry(entries[i].0, entries[i].1.template, entries[i].1.summary,
                           entries[i].1.createdAt, entries[i].1.updatedAt)
  {
    seq(|entries|, i requires 0 <= i < |entries| =>
      HistoryEntry(entries[i].0, entries[i].1.template, entries[i].1.summary,
                   entries[i].1.createdAt, entries[i].1.updatedAt))
  }

  lemma NewestFirst(sorted: seq<(string, ResumeRow)>)
    requires Sorting.Sorted(sorted, Sorting.KeyDesc(CreatedAt))
    ensures forall i, j :: 0 <= i < j < |sorted| ==> StrLe(sorted[j].1.createdAt, sorted[i].1.createdAt)
  {
    forall i, j | 0 <= i < j < |sorted|
      ensures StrLe(sorted[j].1.createdAt, sorted[i].1.createdAt)
    {
      assert Sorting.KeyDesc(CreatedAt)(sorted[i], sorted[j]);
      assert StrLe(CreatedAt(sorted[j]), CreatedAt(sorted[i]));
    }
  }

  class ResumeTable {
    var rows: map<string, ResumeRow>

    ghost predicate Valid()
      reads this
    {
      forall k :: k in rows ==> RowChecks(rows[k])
    }

    constructor ()
      ensures rows == map[] && Valid()
    {
      rows := map[];
    }

    /** `GET /latest`: the row no other row is newer than, or 404 on an empty table. */
    method Latest() returns (resp: Response<Resume>)
      ensures |rows| == 0 <==> resp == NotFound(NoResumeMessage)
      ensures resp.NotFound? || resp.Ok?
      ensures resp.Ok? ==> resp.body.id in rows && resp.body == Parsed(resp.body.id, rows[resp.body.id])
      ensures resp.Ok? ==> forall k :: k in rows ==> StrLe(rows[k].createdAt, resp.body.createdAt)
    {
      Sorting.KeyDescOrder(CreatedAt);
      var sorted := Db.SelectOrderBy(rows, Sorting.KeyDesc(CreatedAt));
      if |sorted| == 0 {
        return NotFound(NoResumeMessage);
      }
      NewestFirst(sorted);
      forall k | k in rows
        ensures StrLe(rows[k].createdAt, sorted[0].1.createdAt)
      {
        var i :| 0 <= i < |sorted| && sorted[i] == (k, rows[k]);
        if i == 0 {
          StrLeRefl(rows[k].createdAt);
        }
      }
      resp := Ok(Parsed(sorted[0].0, sorted[0].1));
    }

    /** `GET /history`: one entry per row, newest first. */
    method History() returns (resp: Response<seq<HistoryEntry>>)
      ensures resp.Ok? && |resp.body| == |rows|
      ensures forall i :: 0 <= i < |resp.body| ==> var h := resp.body[i];
        h.id in rows && h == HistoryEntry(h.id, rows[h.id].template, rows[h.id].summary, rows[h.id].createdAt, rows[h.id].updatedAt)
      ensures forall k :: k in rows ==> exists i :: 0 <= i < |resp.body| && resp.body[i].id == k
      ensures forall i, j :: 0 <= i < j < |resp.body| ==> resp.body[i].id != resp.body[j].id
      ensures forall i, j :: 0 <= i < j < |resp.body| ==> StrLe(resp.body[j].createdAt, resp.body[i].createdAt)
    {
      Sorting.KeyDescOrder(CreatedAt);
      var sorted := Db.SelectOrderBy(rows, Sorting.KeyDesc(CreatedAt));
      NewestFirst(sorted);
      var h := HistoryOf(sorted);
      forall k | k in rows
        ensures exists i :: 0 <= i < |h| && h[i].id == k
      {
        var i :| 0 <= i < |sorted| && sorted[i] == (k, rows[k]);
        assert h[i].id == k;
      }
      resp := Ok(h);
    }

    /**
     * `POST /`: 400 without personal information; otherwise a new row under
     * the fresh id. An id already in use or a template outside the CHECK
     * domain answers 500; an existing row is never updated.
     */
    method Post(req: ResumeRequest, id: string, now: string) returns (resp: Response<Resume>)
      requires Valid()
      modifies this
      ensures Valid()
      ensures req.personalInfo.None? ==> resp == BadRequest(RequiredMessage) && rows == old(rows)
      ensures req.personalInfo.Some? && (id in old(rows) || !RowChecks(NewRow(req, now))) ==>
        resp == ServerError(CreateFailed) && rows == old(rows)
      ensures req.personalInfo.Some? && id !in old(rows) && RowChecks(NewRow(req, now)) ==>
        rows == old(rows)[id := NewRow(req, now)] && resp == Created(Parsed(id, NewRow(req, now)))
      ensures forall k :: k in old(rows) ==> k in rows && rows[k] == old(rows)[k]
    {
      if req.personalInfo.None? {
        return BadRequest(RequiredMessage);
      }
      var row := NewRow(req, now);
      if id in rows || !RowChecks(row) {
        return ServerError(CreateFailed);
      }
      rows := rows[id := row];
      resp := Created(Parsed(id, row));
    }

    /** `PUT /:id`: 404 for an unknown id; otherwise the coalesced row, unless its template breaks the CHECK. */
    method Put(id: string, req: ResumeRequest, now: string) returns (resp: Response<Resume>)
      requires Valid()
      modifies this
      ensures Valid()
      ensures id !in old(rows) ==> resp == NotFound(NotFoundMessage) && rows == old(rows)
      ensures id in old(rows) && !RowChecks(Merged(old(rows)[id], req, now)) ==>
        resp == ServerError(UpdateFailed) && rows == old(rows)
      ensures id in old(rows) && RowChecks(Merged(old(rows)[id], req, now)) ==>
        rows == old(rows)[id := Merged(old(rows)[id], req, now)] && resp == Ok(Parsed(id, Merged(old(rows)[id], req, now)))
    {
      if id !in rows {
        return NotFound(NotFoundMessage);
      }
      var row := Merged(rows[id], req, now);
      if !RowChecks(row) {
        return ServerError(UpdateFailed);
      }
      rows := rows[id := row];
      resp := Ok(Parsed(id, row));
    }
  }
}
