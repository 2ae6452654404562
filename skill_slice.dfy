/**
 * The skill store: the `fetchSkills`, `createSkill` and `fetchCategories`
 * thunks and the slice whose reducers fold their actions into
 * `{skills, loading, error, categories}`.
 */
module SkillSlice {
  import opened Wrappers
  import opened Strings
  import opened Db
  import SkillRoutes

  const FetchDefaultError := "获取技能列表失败"
  const CreateFailedMessage := "Failed to create skill"

  /**
   * What `response.json()` yields for one skill reply: the stored row with
   * its id, or the `{ error }` object a failing route sends.
   */
  datatype SkillJson = Stored(id: string, row: SkillRoutes.SkillRow) | ErrorObject(error: string)

  predicate AllStored(skills: seq<SkillJson>)
  {
    forall i :: 0 <= i < |skills| ==> skills[i].Stored?
  }

  /** The list a successful `GET /api/skills` parses to. */
  function FromRows(rows: seq<(string, SkillRoutes.SkillRow)>): (r: seq<SkillJson>)
    ensures |r| == |rows| && AllStored(r)
    ensures forall i :: 0 <= i < |r| ==> r[i].id == rows[i].0 && r[i].row == rows[i].1
  {
    seq(|rows|, i requires 0 <= i < |rows| => Stored(rows[i].0, rows[i].1))
  }

  /**
   * `createSkill` as written: it never looks at `response.ok`, so every
   * reply with a body fulfils, an error reply fulfilling with its error
   * object. Only a reply without a body (204) makes `response.json()` throw.
   */
  function CreateSkillOutcome(reply: Response<(string, SkillRoutes.SkillRow)>): (r: Outcome<SkillJson>)
    ensures r.Fulfilled? <==> !reply.NoContent?
    ensures (reply.Ok? || reply.Created?) ==> r == Fulfilled(Stored(reply.body.0, reply.body.1))
    ensures (reply.BadRequest? || reply.NotFound? || reply.ServerError?) ==> r == Fulfilled(ErrorObject(reply.error))
  {
    match reply
    case Ok(body) => Fulfilled(Stored(body.0, body.1))
    case Created(body) => Fulfilled(Stored(body.0, body.1))
    case NoContent => Rejected(None)
    case BadRequest(m) => Fulfilled(ErrorObject(m))
    case NotFound(m) => Fulfilled(ErrorObject(m))
    case ServerError(m) => Fulfilled(ErrorObject(m))
  }

  /**
   * `createSkill` as the resume thunks are written: a non-2xx reply throws,
   * so only a stored row can fulfil.
   */
  function CreateSkillChecked(reply: Response<(string, SkillRoutes.SkillRow)>): (r: Outcome<SkillJson>)
    ensures r.Fulfilled? <==> (reply.Ok? || reply.Created?)
    ensures r.Fulfilled? ==> r.value == Stored(reply.body.0, reply.body.1)
    ensures r.Rejected? ==> r.message == Some(CreateFailedMessage)
  {
    match reply
    case Ok(body) => Fulfilled(Stored(body.0, body.1))
    case Created(body) => Fulfilled(Stored(body.0, body.1))
    case _ => Rejected(Some(CreateFailedMessage))
  }

  class SkillState {
    var skills: seq<SkillJson>
    var loading: bool
    var error: Option<string>
    var categories: seq<SkillRoutes.CategoryCount>

    /** The initial state: no skills, idle, no error, no categories. */
    constructor ()
      ensures skills == [] && !loading && error == None && categories == []
    {
      skills := [];
      loading := false;
      error := None;
      categories := [];
    }

    method ClearError()
      modifies this`error
      ensures error == None
    {
      error := None;
    }

    method FetchSkillsPending()
      modifies this`loading
      ensures loading
    {
      loading := true;
    }

    method FetchSkillsFulfilled(payload: seq<SkillJson>)
      modifies this`loading, this`skills
      ensures !loading && skills == payload
    {
      loading := false;
      skills := payload;
    }

    method FetchSkillsRejected(message: Option<string>)
      modifies this`loading, this`error
      ensures !loading && error == Some(ErrorText(message, FetchDefaultError))
    {
      loading := false;
      error := Some(ErrorText(message, FetchDefaultError));
    }

    /** `createSkill.fulfilled`: the payload is pushed; `loading` and `error` are left alone. */
    method CreateSkillFulfilled(payload: SkillJson)
      modifies this`skills
      ensures skills == old(skills) + [payload]
    {
      skills := skills + [payload];
    }

    method FetchCategoriesFulfilled(payload: seq<SkillRoutes.CategoryCount>)
      modifies this`categories
      ensures categories == payload
    {
      categories := payload;
    }
  }

  /**
   * As written, a create the route refuses (400 for a missing name or
   * category, 500 for a bad level) still fulfils, and the reducer pushes the
   * error object into `skills`.
   */
  lemma RefusedCreateIsPushed(skills: seq<SkillJson>, reply: Response<(string, SkillRoutes.SkillRow)>)
    requires reply.BadRequest? || reply.ServerError?
    ensures var outcome := CreateSkillOutcome(reply);
      outcome.Fulfilled? && outcome.value == ErrorObject(reply.error) && !AllStored(skills + [outcome.value])
  {
    var outcome := CreateSkillOutcome(reply);
    assert (skills + [outcome.value])[|skills|] == ErrorObject(reply.error);
  }

  /** With the checked thunk, a fulfilled create keeps every entry of `skills` a stored row. */
  lemma CheckedCreateKeepsRows(skills: seq<SkillJson>, reply: Response<(string, SkillRoutes.SkillRow)>)
    requires AllStored(skills)
    ensures CreateSkillChecked(reply).Fulfilled? ==> AllStored(skills + [CreateSkillChecked(reply).value])
  {
    if CreateSkillChecked(reply).Fulfilled? {
      var s := skills + [CreateSkillChecked(reply).value];
      forall i | 0 <= i < |s|
        ensures s[i].Stored?
      {
        if i < |skills| {
          assert s[i] == skills[i];
        }
      }
    }
  }
}
