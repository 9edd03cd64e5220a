/** The closed payload contract of audit events: `src/hermes_agent_runtime/payloads.py`.

    Event types and field names are enumerations with an escape case for every name the table does
    not list. The sensitive-word scan and the URL parser are parameters (`Policy`), so every
    statement holds for all of them. */
module Payloads {
  import opened Options

  /** A payload value. `Stamp` is the JSON text of a timestamp written by the database: a non-empty
      string of digits and punctuation. `Nested` is any list or object. */
  datatype Value = Null | Bool(b: bool) | Int(n: int) | Real(x: real) | Text(s: string) | Stamp(t: int) | Nested

  datatype Field =
    | TtlSeconds | ExpiresAt | LinearStatusTo | Risk | ExecutionMode | Environment
    | KanbanTaskId | DispatchBackend | TaskStatus | Assignee | RunIdField | LinearIssueId | AgentField
    | KanbanOutcome | CommitSha | PullRequestUrl | RailwayDeploymentId | TestsStatus | ReviewStatus
    | Command | ExitCode | Total | Passed | FailedCount | Skipped | DurationMs | ArtifactPath
    | Reviewer | RequestedBy | DeployStatus | DeploymentUrl
    | Error | ErrorCode | BlockedReason | CanceledBy | Reason | FinishedStatus
    | AttemptedRunId | ExpiredAt | LastHeartbeatAt | RecoveredBy | PreviousRunId
    | OtherField(name: string)

  datatype Kind =
    | RunCreated | LockAcquired | RunStarted | AgentDispatched
    | KanbanDispatched | KanbanStatusChanged | KanbanCompleted | KanbanBlocked | KanbanFailed | KanbanTimeout
    | TestsCompleted | ReviewCompleted | DeployRequested | DeployCompleted
    | RunCompleted | RunFailed | RunBlocked | RunCanceled
    | LockReleased | LockRejected | LockExpired | LockRecovered
    | OtherKind(name: string)

  type Payload = map<Field, Value>

  /** What the caller passes: nothing, a mapping, or some other object. */
  datatype Argument = Missing | Mapping(entries: Payload) | NotMapping

  datatype Policy = Policy(sensitive: string -> bool, httpsUrl: string -> bool)

  function Required(kind: Kind): set<Field> {
    match kind
    case LockAcquired => {TtlSeconds, ExpiresAt}
    case KanbanDispatched | KanbanStatusChanged | KanbanCompleted | KanbanBlocked | KanbanTimeout =>
      {KanbanTaskId, TaskStatus}
    case KanbanFailed => {KanbanTaskId, TaskStatus, KanbanOutcome}
    case TestsCompleted => {TestsStatus}
    case ReviewCompleted => {ReviewStatus}
    case DeployRequested => {Environment}
    case DeployCompleted => {RailwayDeploymentId, Environment, DeployStatus}
    case RunFailed | RunBlocked => {Error}
    case LockRejected => {Reason}
    case LockExpired => {ExpiredAt}
    case _ => {}
  }

  function Optional(kind: Kind): set<Field> {
    match kind
    case RunStarted => {LinearStatusTo, Risk, ExecutionMode, Environment}
    case AgentDispatched => {KanbanTaskId, DispatchBackend, TaskStatus, Assignee}
    case KanbanDispatched | KanbanFailed | KanbanTimeout => {Assignee, RunIdField, LinearIssueId, AgentField}
    case KanbanStatusChanged => {Assignee, KanbanOutcome, RunIdField, LinearIssueId, AgentField}
    case KanbanCompleted =>
      {CommitSha, PullRequestUrl, RailwayDeploymentId, TestsStatus, ReviewStatus,
       Assignee, KanbanOutcome, RunIdField, LinearIssueId, AgentField}
    case KanbanBlocked =>
      {TestsStatus, ReviewStatus, Assignee, KanbanOutcome, RunIdField, LinearIssueId, AgentField}
    case TestsCompleted => {Command, ExitCode, Total, Passed, FailedCount, Skipped, DurationMs, ArtifactPath}
    case ReviewCompleted => {Reviewer, ArtifactPath, PullRequestUrl}
    case DeployRequested => {RequestedBy, PullRequestUrl, CommitSha}
    case DeployCompleted => {DeploymentUrl, CommitSha, DurationMs}
    case RunCompleted => {CommitSha, PullRequestUrl, RailwayDeploymentId, TestsStatus, ReviewStatus}
    case RunFailed => {ErrorCode, KanbanTaskId, KanbanOutcome}
    case RunBlocked => {BlockedReason, KanbanTaskId, TestsStatus, ReviewStatus}
    case RunCanceled => {CanceledBy, Reason}
    case LockReleased => {FinishedStatus}
    case LockRejected => {AttemptedRunId}
    case LockExpired => {LastHeartbeatAt, TtlSeconds}
    case LockRecovered => {RecoveredBy, PreviousRunId}
    case _ => {}
  }

  predicate Counter(key: Field) {
    key in {TtlSeconds, Total, Passed, FailedCount, Skipped, DurationMs, ExitCode}
  }

  function Enumeration(key: Field): Option<set<string>> {
    match key
    case TestsStatus => Some({"passed", "failed", "skipped"})
    case ReviewStatus => Some({"approved", "changes_requested", "blocked"})
    case DeployStatus => Some({"succeeded", "failed", "canceled"})
    case Environment => Some({"local", "preview", "staging", "production"})
    case Reason => Some({"RunConflict"})
    case _ => None
  }

  predicate Digit(c: char) { '0' <= c <= '9' }

  predicate Letter(c: char) { 'A' <= c <= 'Z' || 'a' <= c <= 'z' }

  predicate RunIdChar(c: char) {
    Digit(c) || 'A' <= c <= 'H' || c == 'J' || c == 'K' || c == 'M' || c == 'N' || 'P' <= c <= 'T' || 'V' <= c <= 'Z'
  }

  predicate RunIdText(s: string) {
    |s| == 30 && s[..4] == "run_" && forall i :: 4 <= i < 30 ==> RunIdChar(s[i])
  }

  predicate TaskIdText(s: string) {
    |s| > 2 && s[..2] == "t_" && forall i :: 2 <= i < |s| ==> Digit(s[i]) || Letter(s[i]) || s[i] == '_' || s[i] == '-'
  }

  predicate CommitText(s: string) {
    |s| == 40 && forall i :: 0 <= i < 40 ==> Digit(s[i]) || 'a' <= s[i] <= 'f' || 'A' <= s[i] <= 'F'
  }

  predicate Patterned(key: Field, s: string) {
    match key
    case RunIdField => RunIdText(s)
    case KanbanTaskId => TaskIdText(s)
    case CommitSha => CommitText(s)
    case _ => true
  }

  predicate HasPattern(key: Field) { key in {RunIdField, KanbanTaskId, CommitSha} }

  predicate UrlField(key: Field) { key in {PullRequestUrl, DeploymentUrl} }

  /** The checks of `_validate_value` on one non-null value. */
  predicate ValueOk(policy: Policy, kind: Kind, key: Field, value: Value) {
    && !value.Nested?
    && (value.Text? ==> value.s != "" && !policy.sensitive(value.s))
    && (Counter(key) ==> value.Int? && (key == ExitCode || value.n >= 0))
    && (Enumeration(key).Some? && (key == Reason ==> kind == LockRejected) ==>
          value.Text? && value.s in Enumeration(key).value)
    && (key == Environment && (kind == DeployRequested || kind == DeployCompleted) ==>
          value.Text? && value.s in {"preview", "staging", "production"})
    && (HasPattern(key) ==> value.Text? && Patterned(key, value.s))
    && (UrlField(key) ==> value.Text? && policy.httpsUrl(value.s))
  }

  function Entries(arg: Argument): Payload {
    if arg.Mapping? then arg.entries else map[]
  }

  /** The payload without its null entries. */
  function Normalized(payload: Payload): Payload {
    map key | key in payload && payload[key] != Null :: payload[key]
  }

  /** The contract, stated on the payload as a whole. */
  predicate Accepts(policy: Policy, kind: Kind, payload: Payload) {
    && !kind.OtherKind?
    && payload.Keys <= Required(kind) + Optional(kind)
    && (forall key :: key in payload && payload[key] != Null ==> ValueOk(policy, kind, key, payload[key]))
    && Required(kind) <= Normalized(payload).Keys
    && (kind == AgentDispatched && Normalized(payload) != map[] ==> KanbanTaskId in Normalized(payload))
  }

  /** `validate_event_payload`: the loop over the items, key by key. */
  method ValidateEventPayload(policy: Policy, kind: Kind, arg: Argument) returns (result: Option<Payload>)
    ensures result.Some? <==> !arg.NotMapping? && Accepts(policy, kind, Entries(arg))
    ensures result.Some? ==> result.value == Normalized(Entries(arg))
  {
    hide ValueOk, Required, Optional;
    if kind.OtherKind? {
      return None;
    }
    if arg.NotMapping? {
      return None;
    }
    var candidate := Entries(arg);
    if !(candidate.Keys <= Required(kind) + Optional(kind)) {
      return None;
    }
    var normalized: Payload := map[];
    var todo := candidate.Keys;
    while todo != {}
      invariant todo <= candidate.Keys
      invariant normalized == map key | key in candidate && key !in todo && candidate[key] != Null :: candidate[key]
      invariant forall key :: key in normalized ==> ValueOk(policy, kind, key, candidate[key])
      decreases todo
    {
      var key :| key in todo;
      todo := todo - {key};
      if candidate[key] != Null {
        if !ValueOk(policy, kind, key, candidate[key]) {
          return None;
        }
        normalized := normalized[key := candidate[key]];
      }
    }
    assert normalized == Normalized(candidate);
    if !(Required(kind) <= normalized.Keys) {
      return None;
    }
    if kind == AgentDispatched && normalized != map[] && KanbanTaskId !in normalized {
      return None;
    }
    return Some(normalized);
  }

  /** Validating again, as the store does before posting, accepts and changes nothing. */
  lemma ValidationIsIdempotent(policy: Policy, kind: Kind, payload: Payload)
    ensures Normalized(Normalized(payload)) == Normalized(payload)
    ensures Accepts(policy, kind, payload) ==> Accepts(policy, kind, Normalized(payload))
  {
    assert Normalized(Normalized(payload)) == Normalized(payload);
    assert Normalized(payload).Keys <= payload.Keys;
  }
}
