/** The SQL functions and the Python validator agree on audit payloads: every event the RPCs or the
    workers write is one that `validate_event_payload` accepts, over whole histories of calls that keep
    the contract. `SystemAudit` shows which calls the workers make. */
module AuditContract {
  import opened Options
  import opened Payloads
  import opened Execution
  import opened Kanban
  import opened KanbanContract
  import opened Lease
  import opened LeaseHistory

  /** The fixed words the runtime itself writes contain no sensitive text. */
  predicate PlainWords(policy: Policy) {
    forall word :: word in FIXED_WORDS ==> !policy.sensitive(word)
  }

  const FIXED_WORDS := {"RunConflict", "completed", "failed", "blocked", "RuntimeError",
                        "TimeoutError", "PayloadValidationError", "ExecutionBlocked"}

  /** The label values a claim writes into `run.started`. */
  predicate LabelsClean(policy: Policy, c: Context) {
    Clean(policy, c.risk) && Clean(policy, c.mode) && Clean(policy, c.environment) &&
    c.environment in {"local", "preview", "staging", "production"}
  }

  function ErrorFields(error: string): map<Field, string> { map[Error := error, ErrorCode := error] }

  /** The arguments `execute` gives the RPCs, and the rows the store posts. Only a `strict` caller makes
      sure of what `execute` never looks at: that its random run id and its error names pass the scan, and
      that the fields of a completed run meet their rules. */
  ghost predicate ContractOp(policy: Policy, strict: bool, op: Op) {
    match op
    case Claim(c, _) => LabelsClean(policy, c) && (strict ==> Clean(policy, c.run))
    case Finish(_, _, Completed, ObjectFields(fields)) =>
      fields.Keys <= RESULT_FIELDS && (strict ==> FieldsOk(policy, fields))
    case Finish(_, _, Failed, ObjectFields(fields)) =>
      exists error :: fields == ErrorFields(error) && (strict ==> Clean(policy, error))
    case Finish(_, _, Blocked, ObjectFields(fields)) =>
      exists error :: fields == ErrorFields(error) && Clean(policy, error)
    case Finish(_, _, _, _) => false
    case Post(event) => Accepts(policy, event.kind, event.payload)
    case _ => true
  }

  predicate EventAccepted(policy: Policy, e: Event) { Accepts(policy, e.kind, e.payload) }

  ghost predicate LogAccepted(policy: Policy, log: seq<Event>) {
    forall i :: 0 <= i < |log| ==> EventAccepted(policy, log[i])
  }

  function TextAt(payload: Payload, key: Field): Option<string> {
    if key in payload && payload[key].Text? then Some(payload[key].s) else None
  }

  /** The text a row cites that nobody scanned before: a run id or the name of an error. */
  function Cited(e: Event): Option<string> {
    match e.kind
    case LockRejected => TextAt(e.payload, AttemptedRunId)
    case LockRecovered => TextAt(e.payload, PreviousRunId)
    case RunFailed => TextAt(e.payload, ErrorCode)
    case _ => None
  }

  predicate CitesClean(policy: Policy, e: Event) { Cited(e).Some? ==> Clean(policy, Cited(e).value) }

  /** Row by row: `run.completed` is accepted or not, the three kinds that cite a text are accepted exactly
      when the text is clean, and every other row is accepted. */
  predicate RowRule(policy: Policy, e: Event) {
    e.kind == RunCompleted || (EventAccepted(policy, e) <==> CitesClean(policy, e))
  }

  ghost predicate LogRuled(policy: Policy, strict: bool, log: seq<Event>) {
    forall i :: 0 <= i < |log| ==> RowRule(policy, log[i]) && (strict ==> EventAccepted(policy, log[i]))
  }

  predicate LocksClean(policy: Policy, strict: bool, t: Tables) {
    strict ==> forall issue :: issue in t.locks ==> Clean(policy, t.locks[issue].run)
  }

  // ---------------------------------------------------------------- each RPC event against the table

  lemma AcquisitionAccepted(policy: Policy, ttl: int, expiresAt: int)
    requires TtlOk(ttl)
    ensures Accepts(policy, LockAcquired, map[TtlSeconds := Int(ttl), ExpiresAt := Stamp(expiresAt)])
    ensures Accepts(policy, RunCreated, map[])
  {
    var p: Payload := map[TtlSeconds := Int(ttl), ExpiresAt := Stamp(expiresAt)];
    assert Normalized(p) == p && Normalized(map[]) == map[];
    AcceptedByValues(policy, LockAcquired, p);
    AcceptedByValues(policy, RunCreated, map[]);
  }

  lemma StartValues(policy: Policy, c: Context)
    requires LabelsClean(policy, c)
    ensures ValueOk(policy, RunStarted, Risk, Text(c.risk)) && ValueOk(policy, RunStarted, ExecutionMode, Text(c.mode))
    ensures ValueOk(policy, RunStarted, Environment, Text(c.environment))
  {
  }

  lemma StartAccepted(policy: Policy, c: Context)
    requires LabelsClean(policy, c)
    ensures Accepts(policy, RunStarted,
      map[Risk := Text(c.risk), ExecutionMode := Text(c.mode), Environment := Text(c.environment)])
  {
    hide ValueOk, LabelsClean;
    var p: Payload := map[Risk := Text(c.risk), ExecutionMode := Text(c.mode), Environment := Text(c.environment)];
    StartValues(policy, c);
    assert Normalized(p) == p;
    AcceptedByValues(policy, RunStarted, p);
  }

  lemma ClaimEventsAccepted(policy: Policy, c: Context, ttl: int, expiresAt: int)
    requires LabelsClean(policy, c) && TtlOk(ttl)
    ensures LogAccepted(policy, ClaimEvents(c, ttl, expiresAt))
  {
    hide Accepts, LabelsClean;
    AcquisitionAccepted(policy, ttl, expiresAt);
    StartAccepted(policy, c);
  }

  lemma ReasonValue(policy: Policy)
    requires PlainWords(policy)
    ensures ValueOk(policy, LockRejected, Reason, Text("RunConflict"))
  {
    assert !policy.sensitive("RunConflict");
  }

  lemma RunReferenceValue(policy: Policy, kind: Kind, key: Field, run: string)
    ensures (key == AttemptedRunId || key == PreviousRunId) ==>
      (ValueOk(policy, kind, key, Text(run)) <==> Clean(policy, run))
  {
  }

  lemma StampValue(policy: Policy, key: Field, at: int)
    ensures (key == ExpiredAt || key == LastHeartbeatAt) ==> ValueOk(policy, LockExpired, key, Stamp(at))
  {
  }

  /** `lock.rejected` cites the attempted run id, so it is accepted exactly when that id passes the scan. */
  lemma RejectionAccepted(policy: Policy, issue: string, holder: (string, string), attempted: string)
    requires PlainWords(policy)
    ensures var e := RejectedEvent(issue, holder, attempted);
      Cited(e) == Some(attempted) && (EventAccepted(policy, e) <==> Clean(policy, attempted))
  {
    hide ValueOk, PlainWords, Clean;
    var p: Payload := map[Reason := Text("RunConflict"), AttemptedRunId := Text(attempted)];
    ReasonValue(policy);
    RunReferenceValue(policy, LockRejected, AttemptedRunId, attempted);
    assert Normalized(p) == p && p[AttemptedRunId] == Text(attempted);
    AcceptedByValues(policy, LockRejected, p);
  }

  lemma ExpiryAccepted(policy: Policy, at: int, beat: Option<int>)
    ensures Accepts(policy, LockExpired,
      if beat.Some? then map[ExpiredAt := Stamp(at)][LastHeartbeatAt := Stamp(beat.value)]
      else map[ExpiredAt := Stamp(at)])
  {
    hide ValueOk;
    var p: Payload :=
      if beat.Some? then map[ExpiredAt := Stamp(at), LastHeartbeatAt := Stamp(beat.value)]
      else map[ExpiredAt := Stamp(at)];
    assert Normalized(p) == p;
    StampValue(policy, ExpiredAt, at);
    if beat.Some? { StampValue(policy, LastHeartbeatAt, beat.value); }
    AcceptedByValues(policy, LockExpired, p);
  }

  lemma ReferenceAccepted(policy: Policy, run: string)
    ensures Accepts(policy, LockRecovered, map[PreviousRunId := Text(run)]) <==> Clean(policy, run)
  {
    hide ValueOk, Clean;
    var p: Payload := map[PreviousRunId := Text(run)];
    assert Normalized(p) == p && p[PreviousRunId] == Text(run);
    RunReferenceValue(policy, LockRecovered, PreviousRunId, run);
    AcceptedByValues(policy, LockRecovered, p);
  }

  /** `lock.recovered` cites the run id of the expired lock, so it is accepted exactly when that id passes
      the scan; `lock.expired` always is. */
  lemma RecoveryAccepted(policy: Policy, issue: string, lock: Lock)
    ensures var rows := RecoverEvents(issue, lock);
      |rows| == 2 && EventAccepted(policy, rows[0]) && Cited(rows[0]) == None && Cited(rows[1]) == Some(lock.run) &&
      (EventAccepted(policy, rows[1]) <==> Clean(policy, lock.run))
  {
    hide Accepts, Clean;
    ExpiryAccepted(policy, lock.expiresAt, lock.heartbeatAt);
    ReferenceAccepted(policy, lock.run);
  }

  lemma RecoveryRuled(policy: Policy, strict: bool, issue: string, lock: Lock)
    requires strict ==> Clean(policy, lock.run)
    ensures LogRuled(policy, strict, RecoverEvents(issue, lock))
  {
    hide EventAccepted, Clean, RecoverEvents, Cited;
    RecoveryAccepted(policy, issue, lock);
  }

  /** `run.completed` carries the result fields, so the validator accepts it exactly when the fields
      meet the rules of `kanban.completed`. */
  lemma RunCompletedAccepted(policy: Policy, fields: map<Field, string>)
    requires fields.Keys <= RESULT_FIELDS
    ensures Accepts(policy, RunCompleted, FinalPayload(Completed, fields)) <==> FieldsOk(policy, fields)
  {
    hide ValueOk, FieldsOk;
    var p := FinalPayload(Completed, fields);
    assert p == AsPayload(fields);
    assert Normalized(p) == p;
    FieldValues(policy, RunCompleted, fields);
    AcceptedByValues(policy, RunCompleted, p);
  }

  lemma ErrorValue(policy: Policy, kind: Kind, key: Field, text: string)
    ensures (key == Error || key == ErrorCode) ==> (ValueOk(policy, kind, key, Text(text)) <==> Clean(policy, text))
  {
  }

  lemma FailedPayload(error: string)
    ensures FinalPayload(Failed, ErrorFields(error)) ==
      map[ErrorCode := Text(error), Error := Text(if error != "" then error else "RuntimeError")]
    ensures error != "" ==> FinalPayload(Blocked, ErrorFields(error)) == map[Error := Text(error)]
  {
  }

  /** `run.failed` repeats the error name, so it is accepted exactly for clean names. */
  lemma RunFailedAccepted(policy: Policy, error: string)
    requires PlainWords(policy)
    ensures Accepts(policy, RunFailed, FinalPayload(Failed, ErrorFields(error))) <==> Clean(policy, error)
    ensures TextAt(FinalPayload(Failed, ErrorFields(error)), ErrorCode) == Some(error)
  {
    hide ValueOk, FinalPayload;
    FailedPayload(error);
    var shown := if error != "" then error else "RuntimeError";
    var p: Payload := map[ErrorCode := Text(error), Error := Text(shown)];
    assert Normalized(p) == p && p[ErrorCode] == Text(error) && p[Error] == Text(shown);
    ErrorValue(policy, RunFailed, Error, shown);
    ErrorValue(policy, RunFailed, ErrorCode, error);
    assert !policy.sensitive("RuntimeError") by { assert "RuntimeError" in FIXED_WORDS; }
    AcceptedByValues(policy, RunFailed, p);
  }

  lemma RunBlockedAccepted(policy: Policy, error: string)
    requires Clean(policy, error)
    ensures Accepts(policy, RunBlocked, FinalPayload(Blocked, ErrorFields(error)))
  {
    hide ValueOk, FinalPayload;
    FailedPayload(error);
    var p: Payload := map[Error := Text(error)];
    assert Normalized(p) == p;
    ErrorValue(policy, RunBlocked, Error, error);
    AcceptedByValues(policy, RunBlocked, p);
  }

  lemma FinishedValue(policy: Policy, status: Status)
    requires PlainWords(policy) && (status == Completed || status == Failed || status == Blocked)
    ensures ValueOk(policy, LockReleased, FinishedStatus, Text(StatusName(status)))
  {
    assert StatusName(status) in {"completed", "failed", "blocked"};
  }

  lemma ReleasedAccepted(policy: Policy, run: string, issue: string, agent: string, status: Status)
    requires PlainWords(policy) && (status == Completed || status == Failed || status == Blocked)
    ensures EventAccepted(policy,
      Event(run, issue, agent, LockReleased, map[FinishedStatus := Text(StatusName(status))]))
  {
    hide ValueOk, PlainWords;
    var p: Payload := map[FinishedStatus := Text(StatusName(status))];
    assert ValueOk(policy, LockReleased, FinishedStatus, Text(StatusName(status))) by { FinishedValue(policy, status); }
    assert Normalized(p) == p;
    AcceptedByValues(policy, LockReleased, p);
  }

  lemma FinishEventsRuled(policy: Policy, strict: bool, run: string, issue: string, agent: string, status: Status,
                          fields: map<Field, string>)
    requires PlainWords(policy) && ContractOp(policy, strict, Finish(run, issue, status, ObjectFields(fields)))
    ensures LogRuled(policy, strict, FinishEvents(run, issue, agent, status, fields))
  {
    hide Accepts, FinalPayload, StatusName, FieldsOk, TextAt, Clean;
    ReleasedAccepted(policy, run, issue, agent, status);
    if status == Completed {
      RunCompletedAccepted(policy, fields);
    } else if status == Failed {
      var error :| fields == ErrorFields(error) && (strict ==> Clean(policy, error));
      RunFailedAccepted(policy, error);
    } else {
      var error :| fields == ErrorFields(error) && Clean(policy, error);
      RunBlockedAccepted(policy, error);
    }
  }

  lemma RuledLogs(policy: Policy, strict: bool, a: seq<Event>, b: seq<Event>)
    ensures LogRuled(policy, strict, a) && LogRuled(policy, strict, b) ==> LogRuled(policy, strict, a + b)
  {
    hide EventAccepted, RowRule;
  }

  // ---------------------------------------------------------------- whole histories

  ghost predicate AuditOk(policy: Policy, strict: bool, t: Tables) {
    LogRuled(policy, strict, t.log) && LocksClean(policy, strict, t)
  }

  lemma ClaimKeepsAudit(policy: Policy, strict: bool, t: Tables, c: Context, ttl: int)
    requires PlainWords(policy) && AuditOk(policy, strict, t) && ContractOp(policy, strict, Claim(c, ttl))
    ensures AuditOk(policy, strict, ClaimEffect(t, c, ttl).after)
  {
    hide RowRule, EventAccepted, Holder, ClaimConflicts, ClaimEvents, RejectedEvent, Clean;
    if TtlOk(ttl) {
      if ClaimConflicts(t, c) {
        if Holder(t, c.issue).Some? {
          RejectionRuled(policy, strict, c.issue, Holder(t, c.issue).value, c.run);
          RuledLogs(policy, strict, t.log, [RejectedEvent(c.issue, Holder(t, c.issue).value, c.run)]);
        }
      } else {
        ClaimRuled(policy, strict, c, ttl, t.now + ttl * SECOND);
        RuledLogs(policy, strict, t.log, ClaimEvents(c, ttl, t.now + ttl * SECOND));
      }
    }
  }

  lemma RejectionRuled(policy: Policy, strict: bool, issue: string, holder: (string, string), attempted: string)
    requires PlainWords(policy) && (strict ==> Clean(policy, attempted))
    ensures LogRuled(policy, strict, [RejectedEvent(issue, holder, attempted)])
  {
    hide EventAccepted, Clean, RejectedEvent, Cited;
    RejectionAccepted(policy, issue, holder, attempted);
  }

  lemma ClaimRuled(policy: Policy, strict: bool, c: Context, ttl: int, expiresAt: int)
    requires LabelsClean(policy, c) && TtlOk(ttl)
    ensures LogRuled(policy, strict, ClaimEvents(c, ttl, expiresAt))
  {
    hide EventAccepted, LabelsClean;
    ClaimEventsAccepted(policy, c, ttl, expiresAt);
  }

  lemma FinishKeepsAudit(policy: Policy, strict: bool, t: Tables, run: string, issue: string, status: Status,
                         fields: map<Field, string>)
    requires PlainWords(policy) && AuditOk(policy, strict, t)
    requires ContractOp(policy, strict, Finish(run, issue, status, ObjectFields(fields)))
    ensures AuditOk(policy, strict, FinishEffect(t, run, issue, status, ObjectFields(fields)).after)
  {
    hide RowRule, EventAccepted, FinishEvents, StoredColumns, ContractOp;
    var outcome := FinishEffect(t, run, issue, status, ObjectFields(fields));
    if outcome.reply == Yes {
      FinishEventsRuled(policy, strict, run, issue, t.locks[issue].agent, status, fields);
      RuledLogs(policy, strict, t.log, FinishEvents(run, issue, t.locks[issue].agent, status, fields));
    }
  }

  /** A row a client may post is accepted, and then what it cites is clean. */
  lemma PostRuled(policy: Policy, strict: bool, e: Event)
    requires EventAccepted(policy, e)
    ensures LogRuled(policy, strict, [e])
  {
    hide Required, Optional;
    if Cited(e).Some? {
      var key := match e.kind
        case LockRejected => AttemptedRunId
        case LockRecovered => PreviousRunId
        case _ => ErrorCode;
      assert ValueOk(policy, e.kind, key, e.payload[key]);
    }
  }

  lemma ApplyKeepsAudit(policy: Policy, strict: bool, t: Tables, op: Op)
    requires PlainWords(policy) && AuditOk(policy, strict, t) && ContractOp(policy, strict, op)
    ensures AuditOk(policy, strict, Apply(t, op).after)
  {
    hide ClaimEffect, FinishEffect, Accepts, RecoverEvents, RowRule, Clean;
    match op
    case Claim(c, ttl) => ClaimKeepsAudit(policy, strict, t, c, ttl);
    case Finish(run, issue, status, arg) => FinishKeepsAudit(policy, strict, t, run, issue, status, arg.fields);
    case Recover(issue) =>
      if RecoverEffect(t, issue).reply == Yes {
        RecoveryRuled(policy, strict, issue, t.locks[issue]);
        RuledLogs(policy, strict, t.log, RecoverEvents(issue, t.locks[issue]));
      }
    case Post(event) =>
      PostRuled(policy, strict, event);
      RuledLogs(policy, strict, t.log, [event]);
    case _ =>
  }

  ghost predicate AllContract(policy: Policy, strict: bool, ops: seq<Op>) {
    forall i :: 0 <= i < |ops| ==> ContractOp(policy, strict, ops[i])
  }

  /** In every history whose calls keep the contract the event log obeys the rule row by row, and with
      strict callers every row is accepted. */
  lemma {:induction false} HistoryIsAccepted(policy: Policy, strict: bool, ops: seq<Op>)
    requires PlainWords(policy) && AllContract(policy, strict, ops)
    ensures AuditOk(policy, strict, Play(ops))
    ensures strict ==> LogAccepted(policy, Play(ops).log)
  {
    hide Apply, ContractOp, PlainWords, RowRule, EventAccepted;
    if ops != [] {
      HistoryIsAccepted(policy, strict, ops[..|ops| - 1]);
      ApplyKeepsAudit(policy, strict, Play(ops[..|ops| - 1]), ops[|ops| - 1]);
    }
  }
}
