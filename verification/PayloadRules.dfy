/** The payload contract read field by field: in which events a field may and must occur, and which values it
    takes there. The table of `Payloads` lists the fields of each event and the checks one by one; here each
    field is described as a whole. */
module PayloadRules {
  import opened Payloads

  /** The six events of a task. */
  predicate TaskEvent(kind: Kind) {
    kind == KanbanDispatched || kind == KanbanStatusChanged || kind == KanbanCompleted || kind == KanbanBlocked ||
    kind == KanbanFailed || kind == KanbanTimeout
  }

  /** The field must occur in events of the kind exactly if `needed`, and may exactly if `allowed`. */
  predicate Occurs(kind: Kind, key: Field, needed: bool, allowed: bool) {
    (key in Required(kind) <==> needed) && (key in Required(kind) || key in Optional(kind) <==> allowed)
  }

  predicate CleanText(policy: Policy, value: Value) { value.Text? && value.s != "" && !policy.sensitive(value.s) }

  predicate OneOf(policy: Policy, value: Value, words: set<string>) { CleanText(policy, value) && value.s in words }

  predicate UpperOrDigit(c: char) { '0' <= c <= '9' || 'A' <= c <= 'Z' }

  /** The values a field takes in an event that may have it. */
  predicate TakesValue(policy: Policy, kind: Kind, key: Field, value: Value) {
    match key
    case TtlSeconds | Total | Passed | FailedCount | Skipped | DurationMs => value.Int? && value.n >= 0
    case ExitCode => value.Int?
    case TestsStatus => OneOf(policy, value, {"passed", "failed", "skipped"})
    case ReviewStatus => OneOf(policy, value, {"approved", "changes_requested", "blocked"})
    case DeployStatus => OneOf(policy, value, {"succeeded", "failed", "canceled"})
    case Environment =>
      OneOf(policy, value, if kind == RunStarted then {"local", "preview", "staging", "production"}
                           else {"preview", "staging", "production"})
    case Reason => if kind == LockRejected then OneOf(policy, value, {"RunConflict"}) else Scalar(policy, value)
    case PullRequestUrl | DeploymentUrl => CleanText(policy, value) && policy.httpsUrl(value.s)
    case RunIdField =>
      CleanText(policy, value) && |value.s| == 30 && value.s[..4] == "run_" &&
      forall i :: 4 <= i < 30 ==> UpperOrDigit(value.s[i]) && value.s[i] !in "ILOU"
    case KanbanTaskId =>
      CleanText(policy, value) && |value.s| >= 3 && value.s[0] == 't' && value.s[1] == '_' &&
      forall i :: 2 <= i < |value.s| ==> UpperOrDigit(value.s[i]) || 'a' <= value.s[i] <= 'z' || value.s[i] in "_-"
    case CommitSha =>
      CleanText(policy, value) && |value.s| == 40 &&
      forall i :: 0 <= i < 40 ==>
        '0' <= value.s[i] <= '9' || 'a' <= value.s[i] <= 'f' || 'A' <= value.s[i] <= 'F'
    case _ => Scalar(policy, value)
  }

  /** Any scalar, except an empty text and one with a prohibited word. */
  predicate Scalar(policy: Policy, value: Value) {
    !value.Nested? && value != Null && (value.Text? ==> CleanText(policy, value))
  }

  /** Where the identity of a run's work may and must be told. */
  lemma IdentityFields(kind: Kind)
    ensures Occurs(kind, RunIdField, false, TaskEvent(kind))
    ensures Occurs(kind, LinearIssueId, false, TaskEvent(kind))
    ensures Occurs(kind, AgentField, false, TaskEvent(kind))
  {
  }

  /** Where the state of a task may and must be told. */
  lemma TaskFields(kind: Kind)
    ensures Occurs(kind, Assignee, false, TaskEvent(kind) || kind == AgentDispatched)
    ensures Occurs(kind, TaskStatus, TaskEvent(kind), TaskEvent(kind) || kind == AgentDispatched)
    ensures Occurs(kind, DispatchBackend, false, kind == AgentDispatched)
  {
  }

  /** Where the name of a task and its outcome may and must be told. */
  lemma TaskReferences(kind: Kind)
    ensures Occurs(kind, KanbanTaskId, TaskEvent(kind),
      TaskEvent(kind) || kind == AgentDispatched || kind == RunFailed || kind == RunBlocked)
    ensures Occurs(kind, KanbanOutcome, kind == KanbanFailed,
      kind == KanbanStatusChanged || kind == KanbanCompleted || kind == KanbanBlocked ||
      kind == KanbanFailed || kind == RunFailed)
  {
  }

  /** Where the two gates may and must be told. */
  lemma GateFields(kind: Kind)
    ensures Occurs(kind, TestsStatus, kind == TestsCompleted,
      kind == KanbanCompleted || kind == KanbanBlocked || kind == TestsCompleted ||
      kind == RunCompleted || kind == RunBlocked)
    ensures Occurs(kind, ReviewStatus, kind == ReviewCompleted,
      kind == KanbanCompleted || kind == KanbanBlocked || kind == ReviewCompleted ||
      kind == RunCompleted || kind == RunBlocked)
  {
  }

  /** Where the products of a task may and must be told. */
  lemma ProductFields(kind: Kind)
    ensures Occurs(kind, CommitSha, false,
      kind == KanbanCompleted || kind == DeployRequested || kind == DeployCompleted || kind == RunCompleted)
    ensures Occurs(kind, PullRequestUrl, false,
      kind == KanbanCompleted || kind == ReviewCompleted || kind == DeployRequested || kind == RunCompleted)
    ensures Occurs(kind, RailwayDeploymentId, kind == DeployCompleted,
      kind == KanbanCompleted || kind == DeployCompleted || kind == RunCompleted)
  {
  }

  /** Where the report of tests may and must be told. */
  lemma TestFields(kind: Kind)
    ensures Occurs(kind, Command, false, kind == TestsCompleted)
    ensures Occurs(kind, ExitCode, false, kind == TestsCompleted)
    ensures Occurs(kind, Total, false, kind == TestsCompleted)
  {
  }

  /** Where the counts of a test report may and must be told. */
  lemma CountFields(kind: Kind)
    ensures Occurs(kind, Passed, false, kind == TestsCompleted)
    ensures Occurs(kind, FailedCount, false, kind == TestsCompleted)
    ensures Occurs(kind, Skipped, false, kind == TestsCompleted)
  {
  }

  /** Where a review and its artifacts may and must be told. */
  lemma ReviewFields(kind: Kind)
    ensures Occurs(kind, DurationMs, false, kind == TestsCompleted || kind == DeployCompleted)
    ensures Occurs(kind, ArtifactPath, false, kind == TestsCompleted || kind == ReviewCompleted)
    ensures Occurs(kind, Reviewer, false, kind == ReviewCompleted)
  {
  }

  /** Where a deployment may and must be told. */
  lemma DeployFields(kind: Kind)
    ensures Occurs(kind, RequestedBy, false, kind == DeployRequested)
    ensures Occurs(kind, DeployStatus, kind == DeployCompleted, kind == DeployCompleted)
    ensures Occurs(kind, DeploymentUrl, false, kind == DeployCompleted)
  {
  }

  /** Where the classification of a run may and must be told. */
  lemma ClassFields(kind: Kind)
    ensures Occurs(kind, Environment, kind == DeployRequested || kind == DeployCompleted,
      kind == RunStarted || kind == DeployRequested || kind == DeployCompleted)
    ensures Occurs(kind, LinearStatusTo, false, kind == RunStarted)
    ensures Occurs(kind, Risk, false, kind == RunStarted)
    ensures Occurs(kind, ExecutionMode, false, kind == RunStarted)
  {
  }

  /** Where a new lease may and must be told. */
  lemma LeaseFields(kind: Kind)
    ensures Occurs(kind, TtlSeconds, kind == LockAcquired, kind == LockAcquired || kind == LockExpired)
    ensures Occurs(kind, ExpiresAt, kind == LockAcquired, kind == LockAcquired)
  {
  }

  /** Where the failure of a run may and must be told. */
  lemma FailureFields(kind: Kind)
    ensures Occurs(kind, Error, kind == RunFailed || kind == RunBlocked, kind == RunFailed || kind == RunBlocked)
    ensures Occurs(kind, ErrorCode, false, kind == RunFailed)
    ensures Occurs(kind, BlockedReason, false, kind == RunBlocked)
  {
  }

  /** Where other ends of a run may and must be told. */
  lemma EndFields(kind: Kind)
    ensures Occurs(kind, CanceledBy, false, kind == RunCanceled)
    ensures Occurs(kind, Reason, kind == LockRejected, kind == RunCanceled || kind == LockRejected)
    ensures Occurs(kind, FinishedStatus, false, kind == LockReleased)
  {
  }

  /** Where a rejection and an expiry may and must be told. */
  lemma LockFields(kind: Kind)
    ensures Occurs(kind, AttemptedRunId, false, kind == LockRejected)
    ensures Occurs(kind, ExpiredAt, kind == LockExpired, kind == LockExpired)
    ensures Occurs(kind, LastHeartbeatAt, false, kind == LockExpired)
  {
  }

  /** Where a recovery may and must be told. */
  lemma RecoveryFields(kind: Kind)
    ensures Occurs(kind, RecoveredBy, false, kind == LockRecovered)
    ensures Occurs(kind, PreviousRunId, false, kind == LockRecovered)
  {
  }

  /** Fields of no entry are told nowhere. */
  lemma OtherFields(kind: Kind, name: string)
    ensures Occurs(kind, OtherField(name), false, false)
  {
  }

  lemma RunIdsInFull(s: string)
    ensures RunIdText(s) <==>
      |s| == 30 && s[..4] == "run_" && forall i :: 4 <= i < 30 ==> UpperOrDigit(s[i]) && s[i] !in "ILOU"
  {
    forall c: char ensures RunIdChar(c) <==> UpperOrDigit(c) && c !in "ILOU" { RunIdCharInFull(c); }
  }

  lemma RunIdCharInFull(c: char)
    ensures RunIdChar(c) <==> UpperOrDigit(c) && c !in "ILOU"
  {
    assert c in "ILOU" <==> c == 'I' || c == 'L' || c == 'O' || c == 'U';
  }

  lemma TaskIdsInFull(s: string)
    ensures TaskIdText(s) <==>
      |s| >= 3 && s[0] == 't' && s[1] == '_' &&
      forall i :: 2 <= i < |s| ==> UpperOrDigit(s[i]) || 'a' <= s[i] <= 'z' || s[i] in "_-"
  {
    assert |s| >= 3 ==> (s[..2] == "t_" <==> s[0] == 't' && s[1] == '_');
    forall c: char ensures c in "_-" <==> c == '_' || c == '-' { }
  }

  lemma NumberExactly(policy: Policy, kind: Kind, key: Field, value: Value)
    ensures key in {TtlSeconds, Total, Passed, FailedCount, Skipped, DurationMs, ExitCode} && value != Null ==>
      (ValueOk(policy, kind, key, value) <==> TakesValue(policy, kind, key, value))
  {
  }

  lemma WordExactly(policy: Policy, kind: Kind, key: Field, value: Value)
    ensures key in {TestsStatus, ReviewStatus, DeployStatus, Reason} && value != Null ==>
      (ValueOk(policy, kind, key, value) <==> TakesValue(policy, kind, key, value))
  {
  }

  lemma EnvironmentExactly(policy: Policy, kind: Kind, value: Value)
    ensures (kind == RunStarted || kind == DeployRequested || kind == DeployCompleted) ==>
      (ValueOk(policy, kind, Environment, value) <==> TakesValue(policy, kind, Environment, value))
  {
  }

  lemma IdentifierExactly(policy: Policy, kind: Kind, key: Field, value: Value)
    requires key in {RunIdField, KanbanTaskId, CommitSha, PullRequestUrl, DeploymentUrl} && value != Null
    ensures ValueOk(policy, kind, key, value) <==> TakesValue(policy, kind, key, value)
  {
    hide RunIdText, TaskIdText;
    if value.Text? {
      RunIdsInFull(value.s);
      TaskIdsInFull(value.s);
    }
  }

  predicate FreeField(key: Field) {
    key !in {TtlSeconds, Total, Passed, FailedCount, Skipped, DurationMs, ExitCode} &&
    key !in {TestsStatus, ReviewStatus, DeployStatus, Reason, Environment} &&
    key !in {RunIdField, KanbanTaskId, CommitSha, PullRequestUrl, DeploymentUrl}
  }

  lemma FreeExactly(policy: Policy, kind: Kind, key: Field, value: Value)
    ensures FreeField(key) && value != Null ==>
      (ValueOk(policy, kind, key, value) <==> TakesValue(policy, kind, key, value))
  {
    hide Patterned;
  }

  lemma ValueExactly(policy: Policy, kind: Kind, key: Field, value: Value)
    requires key in Required(kind) + Optional(kind) && value != Null
    ensures ValueOk(policy, kind, key, value) <==> TakesValue(policy, kind, key, value)
  {
    hide ValueOk, TakesValue;
    match key
    case TtlSeconds | Total | Passed | FailedCount | Skipped | DurationMs | ExitCode =>
      NumberExactly(policy, kind, key, value);
    case TestsStatus | ReviewStatus | DeployStatus | Reason => WordExactly(policy, kind, key, value);
    case Environment => EnvironmentExactly(policy, kind, value);
    case RunIdField | KanbanTaskId | CommitSha | PullRequestUrl | DeploymentUrl =>
      IdentifierExactly(policy, kind, key, value);
    case _ => FreeExactly(policy, kind, key, value);
  }

  /** The contract, field by field: the event type is known, each field may occur in it and takes one of its
      values or null, each field that must occur has a value, and an `agent.dispatched` that tells anything
      names its task. */
  lemma AcceptsFieldByField(policy: Policy, kind: Kind, payload: Payload)
    ensures Accepts(policy, kind, payload) <==>
      && !kind.OtherKind?
      && (forall key :: key in payload ==> key in Required(kind) || key in Optional(kind))
      && (forall key :: key in payload && payload[key] != Null ==> TakesValue(policy, kind, key, payload[key]))
      && (forall key :: key in Required(kind) ==> key in payload && payload[key] != Null)
      && (kind == AgentDispatched ==> forall key :: key in payload && payload[key] != Null ==>
            KanbanTaskId in payload && payload[KanbanTaskId] != Null)
  {
    hide ValueOk, TakesValue, Required, Optional;
    forall key | key in payload && key in Required(kind) + Optional(kind) && payload[key] != Null
      ensures ValueOk(policy, kind, key, payload[key]) <==> TakesValue(policy, kind, key, payload[key])
    {
      ValueExactly(policy, kind, key, payload[key]);
    }
    var n := Normalized(payload);
    assert forall key :: key in n <==> key in payload && payload[key] != Null;
    if n != map[] {
      assert exists key :: key in n;
    }
  }
}
