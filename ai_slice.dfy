/**
 * The AI store: the slice reducer over `{usage, loading, error}`. It handles
 * `clearError` and the three actions of `fetchAIUsage`; the actions of the
 * `analyzeSkills` thunk reach the reducer but match no case.
 */
module AiSlice {
  import opened Wrappers
  import opened Strings

  const FetchDefaultError := "获取AI使用统计失败"

  datatype MonthlyUsage = MonthlyUsage(totalRequests: int, totalInputTokens: int, totalOutputTokens: int, totalCost: real)
  datatype UsageEntry = UsageEntry(kind: string, inputTokens: int, outputTokens: int, cost: real, timestamp: string)
  datatype AiUsage = AiUsage(monthly: MonthlyUsage, recent: seq<UsageEntry>)

  /** Every action the store dispatches into this slice. */
  datatype AiAction =
    | ClearError
    | FetchUsagePending
    | FetchUsageFulfilled(usage: AiUsage)
    | FetchUsageRejected(message: Option<string>)
    | AnalyzeSkillsPending
    | AnalyzeSkillsFulfilled
    | AnalyzeSkillsRejected(message: Option<string>)

  /** True for the actions some case of the reducer handles. */
  predicate Handled(action: AiAction)
  {
    !(action.AnalyzeSkillsPending? || action.AnalyzeSkillsFulfilled? || action.AnalyzeSkillsRejected?)
  }

  class AiState {
    var usage: Option<AiUsage>
    var loading: bool
    var error: Option<string>

    /** The initial state: no usage, idle, no error. */
    constructor ()
      ensures usage == None && !loading && error == None
    {
      usage := None;
      loading := false;
      error := None;
    }

    /** The slice reducer applied to one action. */
    method Reduce(action: AiAction)
      modifies this
      ensures !Handled(action) ==> usage == old(usage) && loading == old(loading) && error == old(error)
      ensures action.ClearError? ==> usage == old(usage) && loading == old(loading) && error == None
      ensures action.FetchUsagePending? ==> usage == old(usage) && loading && error == old(error)
      ensures action.FetchUsageFulfilled? ==> usage == Some(action.usage) && !loading && error == old(error)
      ensures action.FetchUsageRejected? ==>
        usage == old(usage) && !loading && error == Some(ErrorText(action.message, FetchDefaultError))
    {
      match action
      case ClearError =>
        error := None;
      case FetchUsagePending =>
        loading := true;
      case FetchUsageFulfilled(u) =>
        loading := false;
        usage := Some(u);
      case FetchUsageRejected(message) =>
        loading := false;
        error := Some(ErrorText(message, FetchDefaultError));
      case _ =>
    }
  }
}
