/** What a dispatcher hands back to `AgentRuntime.execute`: `src/hermes_agent_runtime/runtime.py`. */
module Execution {
  import opened Payloads

  /** One observed event, before persistence. */
  datatype Entry = Entry(kind: Kind, payload: Payload)

  /** `fields` holds exactly the non-None result attributes. */
  datatype ExecutionResult = ExecutionResult(fields: map<Field, string>, events: seq<Entry>)

  /** `ExecutionBlocked`, `ExecutionEventError`, or any other exception by type name. */
  datatype Exception = BlockedError | EventError(errorType: string, events: seq<Entry>) | OtherError(name: string)

  datatype DispatchOutcome = Finished(result: ExecutionResult) | Failing(exc: Exception)

  const RESULT_FIELDS := {CommitSha, PullRequestUrl, RailwayDeploymentId, TestsStatus, ReviewStatus}

  function EventsOf(outcome: DispatchOutcome): seq<Entry> {
    match outcome
    case Finished(result) => result.events
    case Failing(EventError(_, events)) => events
    case Failing(_) => []
  }
}
