/**
 * The resume store: the `fetchLatestResume` and `generateResume` thunks and
 * the slice whose reducers fold their actions into
 * `{resume, loading, error, generating}`.
 */
module ResumeSlice {
  import opened Wrappers
  import opened Types
  import opened Strings
  import opened Db

  const FetchFailedMessage := "Failed to fetch resume"
  const GenerateFailedMessage := "Failed to generate resume"
  const FetchDefaultError := "获取简历失败"
  const GenerateDefaultError := "生成简历失败"

  /**
   * `fetchLatestResume` settled against the reply of `GET /api/resume/latest`:
   * every non-2xx reply throws the thunk's own error.
   */
  function FetchLatestOutcome(reply: Response<Resume>): (r: Outcome<Resume>)
    ensures r.Fulfilled? <==> (reply.Ok? || reply.Created?)
    ensures reply.Ok? ==> r == Fulfilled(reply.body)
    ensures r.Rejected? ==> r.message == Some(FetchFailedMessage)
  {
    match reply
    case Ok(body) => Fulfilled(body)
    case Created(body) => Fulfilled(body)
    case _ => Rejected(Some(FetchFailedMessage))
  }

  /**
   * `generateResume` settled against the status of the AI endpoint; the
   * fulfilled payload is ignored by the reducer, so only success matters here.
   */
  function GenerateOutcome(ok: bool): (r: Outcome<()>)
    ensures r.Fulfilled? <==> ok
    ensures r.Rejected? ==> r.message == Some(GenerateFailedMessage)
  {
    if ok then Fulfilled(()) else Rejected(Some(GenerateFailedMessage))
  }

  class ResumeState {
    var resume: Option<Resume>
    var loading: bool
    var error: Option<string>
    var generating: bool

    /** The initial state: no resume, idle, no error, not generating. */
    constructor ()
      ensures resume == None && !loading && error == None && !generating
    {
      resume := None;
      loading := false;
      error := None;
      generating := false;
    }

    method ClearError()
      modifies this`error
      ensures error == None
    {
      error := None;
    }

    method SetGenerating(value: bool)
      modifies this`generating
      ensures generating == value
    {
      generating := value;
    }

    method FetchLatestPending()
      modifies this`loading
      ensures loading
    {
      loading := true;
    }

    /** A settled fetch clears `loading` and either stores the resume or records the error. */
    method FetchLatestSettled(outcome: Outcome<Resume>)
      modifies this`loading, this`resume, this`error
      ensures !loading
      ensures outcome.Fulfilled? ==> resume == Some(outcome.value) && error == old(error)
      ensures outcome.Rejected? ==> resume == old(resume) && error == Some(ErrorText(outcome.message, FetchDefaultError))
    {
      loading := false;
      match outcome
      case Fulfilled(r) =>
        resume := Some(r);
      case Rejected(message) =>
        error := Some(ErrorText(message, FetchDefaultError));
    }

    method GeneratePending()
      modifies this`generating
      ensures generating
    {
      generating := true;
    }

    /** A settled generation clears `generating`; only a failure touches `error`, and the resume is never replaced. */
    method GenerateSettled(outcome: Outcome<()>)
      modifies this`generating, this`error
      ensures !generating
      ensures outcome.Fulfilled? ==> error == old(error)
      ensures outcome.Rejected? ==> error == Some(ErrorText(outcome.message, GenerateDefaultError))
    {
      generating := false;
      if outcome.Rejected? {
        error := Some(ErrorText(outcome.message, GenerateDefaultError));
      }
    }
  }

  /**
   * An empty table makes the fetch fail with the thunk's own message, so the
   * slice's fallback text is never what the user sees for this thunk.
   */
  lemma EmptyTableShowsThunkMessage(reply: Response<Resume>)
    requires reply.NotFound?
    ensures FetchLatestOutcome(reply).Rejected?
    ensures ErrorText(FetchLatestOutcome(reply).message, FetchDefaultError) == FetchFailedMessage
    ensures FetchFailedMessage != FetchDefaultError
  {
  }

  /** Every rejection of either thunk carries a non-empty message, so the fallbacks are unreachable. */
  lemma ThunkMessagesTruthy(reply: Response<Resume>, ok: bool)
    ensures FetchLatestOutcome(reply).Rejected? ==> Truthy(FetchLatestOutcome(reply).message)
    ensures GenerateOutcome(ok).Rejected? ==> Truthy(GenerateOutcome(ok).message)
  {
  }
}
