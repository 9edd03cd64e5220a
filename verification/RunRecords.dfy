/** What the tables and the log remember of each worker: which result completed its run, which call
    closed it, and where the rows it posted stand. */
module RunRecords {
  import opened Options
  import opened Payloads
  import opened Execution
  import opened Lease
  import opened LeaseHistory
  import opened EventPipeline
  import opened KanbanContract
  import opened AuditContract
  import opened Workers
  import opened WorkerSafety

  // ---------------------------------------------------------------- the result behind a completed run

  predicate Validated(policy: Policy, w: Worker, result: ExecutionResult) {
    w.outcome == Some(Finished(result)) && AllAccepted(policy, result.events)
  }

  /** A result on its way through `execute` is the dispatcher's, and is vetted step by step. */
  predicate CarriesResult(policy: Policy, w: Worker) {
    match w.main
    case Joining(WithResult(result)) => w.outcome == Some(Finished(result))
    case Persisting(_, WithResult(result)) => Validated(policy, w, result)
    case Checking(result) => Validated(policy, w, result)
    case EnteringReview(result) => Validated(policy, w, result) && GatesOk(w.context.agent, result.fields)
    case Completing(result) => Validated(policy, w, result) && GatesOk(w.context.agent, result.fields)
    case _ => true
  }

  predicate HasResult(w: Worker) { w.outcome.Some? && w.outcome.value.Finished? }

  /** The result that completed the row passed validation and gates, and its fields are stored. */
  predicate Earned(policy: Policy, row: Run, w: Worker) {
    HasResult(w) &&
    var result := w.outcome.value.result;
    AllAccepted(policy, result.events) && GatesOk(w.context.agent, result.fields) &&
    row.columns == StoredColumns(result.fields)
  }

  predicate IsCompleted(row: Option<Run>) { row.Some? && row.value.status == Completed }

  predicate ResultOk(policy: Policy, row: Option<Run>, w: Worker) {
    CarriesResult(policy, w) && (IsCompleted(row) ==> Earned(policy, row.value, w))
  }

  // ---------------------------------------------------------------- the rows of a run in the log

  predicate Logged(log: seq<Event>, run: string, kind: Kind) {
    exists e :: e in log && e.run == run && e.kind == kind
  }

  /** Rows inserted by a client, not by an RPC. */
  predicate ClientKind(kind: Kind) { kind == AgentDispatched || KanbanKind(kind) }

  predicate FollowsClosing(closing: Event, client: Event, run: string) {
    closing.run == run && client.run == run && ClosingKind(closing.kind) && ClientKind(client.kind)
  }

  /** A client row of the run follows a closing row of the run only after a recovery. */
  ghost predicate PostsFollowRecovery(log: seq<Event>, run: string) {
    forall i, j :: 0 <= i < j < |log| && FollowsClosing(log[i], log[j], run) ==> log[i].kind == LockRecovered
  }

  predicate Accepted(main: MainPc) {
    main.Ended? && (main.how.Returned? || (main.how.Concluded? && main.how.answer == Some(Yes)))
  }

  /** Every `run.completed` row of the run repeats the fields of the result that completed it. */
  predicate CompletionsOk(log: seq<Event>, row: Option<Run>, w: Worker) {
    forall e :: e in log && e.run == w.context.run && e.kind == RunCompleted ==>
      IsCompleted(row) && HasResult(w) && e.payload == FinalPayload(Completed, w.outcome.value.result.fields)
  }

  /** A released lock was released by a finish of the worker; a failed run that released it, by the
      finish that concluded it. */
  predicate ReleasedOk(row: Option<Run>, w: Worker) {
    w.finishes != [] && row.Some? && row.value.status != Running &&
    (row.value.status == Failed ==> FailedByItself(w))
  }

  /** The worker's own last finish asked for `failed` and may have been accepted. */
  predicate FailedByItself(w: Worker) {
    w.main.Ended? && w.main.how.Concluded? && w.main.how.answer != Some(No) && Failed in w.finishes
  }

  ghost predicate LogOk(log: seq<Event>, row: Option<Run>, w: Worker) {
    && (Logged(log, w.context.run, LockReleased) ==> ReleasedOk(row, w))
    && (Accepted(w.main) ==> Logged(log, w.context.run, LockReleased))
    && (IsCompleted(row) ==> Logged(log, w.context.run, RunCompleted))
    && CompletionsOk(log, row, w)
    && PostsFollowRecovery(log, w.context.run)
  }

  ghost predicate RecordOk(policy: Policy, t: Tables, w: Worker) {
    ResultOk(policy, RowOf(t, w.context.run), w) && LogOk(t.log, RowOf(t, w.context.run), w)
  }

  // ---------------------------------------------------------------- rows appended by one transaction

  /** Rows of `run` that only tell about its lock: rejections of others and its recovery. */
  predicate QuietKind(kind: Kind) {
    kind == RunCreated || kind == LockAcquired || kind == RunStarted || kind == LockRejected ||
    kind == LockExpired || kind == LockRecovered
  }

  predicate QuietFor(more: seq<Event>, run: string) {
    forall e :: e in more && e.run == run ==> QuietKind(e.kind)
  }

  /** What `op` appends to the log. */
  ghost predicate Appends(t: Tables, op: Op, more: seq<Event>) {
    && Apply(t, op).after.log == t.log + more
    && (op.Claim? || op.Recover? ==> forall e :: e in more ==> QuietKind(e.kind))
    && (op.Post? ==> more == [op.event])
    && (op.Heartbeat? || op.Release? || op.Tick? ==> more == [])
    && (op.Finish? ==> forall e :: e in more ==> e.run == op.run && !ClientKind(e.kind))
  }

  predicate EndsFinally(op: Op) { op.Finish? ==> FinalStatus(op.status) }

  lemma ClaimRowsAppended(t: Tables, c: Context, ttl: int) returns (more: seq<Event>)
    ensures ClaimEffect(t, c, ttl).after.log == t.log + more && forall e :: e in more ==> QuietKind(e.kind)
  {
    hide Holder, ClaimConflicts;
    more := if !TtlOk(ttl) then []
            else if ClaimConflicts(t, c) then
              if Holder(t, c.issue).Some? then [RejectedEvent(c.issue, Holder(t, c.issue).value, c.run)] else []
            else ClaimEvents(c, ttl, t.now + ttl * SECOND);
  }

  lemma FinishRowsAppended(t: Tables, run: string, issue: string, status: Status, arg: FieldsArgument)
    returns (more: seq<Event>)
    requires FinalStatus(status)
    ensures FinishEffect(t, run, issue, status, arg).after.log == t.log + more
    ensures forall e :: e in more ==> e.run == run && !ClientKind(e.kind)
  {
    hide FinalPayload, StoredColumns, StatusName;
    more := if FinishEffect(t, run, issue, status, arg).reply != Yes then []
            else FinishEvents(run, issue, t.locks[issue].agent, status,
              if arg.ObjectFields? then arg.fields else map[]);
  }

  lemma RowsAppended(t: Tables, op: Op) returns (more: seq<Event>)
    requires EndsFinally(op)
    ensures Appends(t, op, more)
  {
    hide ClaimEffect, FinishEffect;
    match op
    case Claim(c, ttl) => more := ClaimRowsAppended(t, c, ttl);
    case Finish(run, issue, status, arg) => more := FinishRowsAppended(t, run, issue, status, arg);
    case Recover(issue) =>
      more := if RecoverEffect(t, issue).reply == Yes then RecoverEvents(issue, t.locks[issue]) else [];
    case Post(event) => more := [event];
    case _ => more := [];
  }

  /** Posts of a worker are client rows of its own run. */
  predicate OwnPost(op: Op, run: string) { op.Post? ==> op.event.run == run && ClientKind(op.event.kind) }

  /** The transactions of others append only quiet rows to the log of `run`. */
  lemma ForeignRowsAreQuiet(t: Tables, op: Op, run: string, actor: string) returns (more: seq<Event>)
    requires Foreign(op, run) && (By(op, actor) || op.Recover? || op.Release? || op.Tick?)
    requires OwnPost(op, actor) && actor != run && EndsFinally(op)
    ensures Apply(t, op).after.log == t.log + more && QuietFor(more, run)
  {
    hide Apply;
    more := RowsAppended(t, op);
  }

  // ---------------------------------------------------------------- steps of others

  lemma LoggedStays(log: seq<Event>, more: seq<Event>, run: string, kind: Kind)
    ensures Logged(log, run, kind) ==> Logged(log + more, run, kind)
    ensures QuietFor(more, run) && !QuietKind(kind) ==> (Logged(log + more, run, kind) <==> Logged(log, run, kind))
  {
    if Logged(log, run, kind) {
      var e :| e in log && e.run == run && e.kind == kind;
      assert e in log + more;
    }
  }

  lemma QuietKeepsOrder(log: seq<Event>, more: seq<Event>, run: string)
    requires PostsFollowRecovery(log, run) && forall e :: e in more && e.run == run ==> !ClientKind(e.kind)
    ensures PostsFollowRecovery(log + more, run)
  {
    hide ClientKind, ClosingKind;
    var all := log + more;
    assert forall k :: |log| <= k < |all| ==> all[k] in more;
    forall i, j | 0 <= i < j < |all| && FollowsClosing(all[i], all[j], run)
      ensures all[i].kind == LockRecovered
    {
      assert j < |log|;
    }
  }

  lemma ForeignKeepsRecord(policy: Policy, before: Option<Run>, after: Option<Run>, log: seq<Event>,
                           more: seq<Event>, w: Worker)
    requires ResultOk(policy, before, w) && LogOk(log, before, w)
    requires EnvironmentStep(before, after) && QuietFor(more, w.context.run)
    ensures ResultOk(policy, after, w) && LogOk(log + more, after, w)
  {
    hide PostsFollowRecovery, Earned, CarriesResult, FinalPayload;
    LoggedStays(log, more, w.context.run, LockReleased);
    LoggedStays(log, more, w.context.run, RunCompleted);
    QuietKeepsOrder(log, more, w.context.run);
  }

  // ---------------------------------------------------------------- steps of the worker itself

  /** A step without a transaction: the row and the log stay. */
  predicate StepsQuietly(w: Worker, v: Worker) {
    v.context == w.context && (w.finishes != [] ==> v.finishes != []) && !w.main.Ended? && !Accepted(v.main) &&
    (v.outcome == w.outcome || w.finishes == [])
  }

  lemma QuietStepKeepsLog(log: seq<Event>, row: Option<Run>, w: Worker, v: Worker)
    requires WorkerOk(row, w) && LogOk(log, row, w) && StepsQuietly(w, v)
    ensures LogOk(log, row, v)
  {
    hide PostsFollowRecovery, Logged, FinalPayload, ThreadsOk, FinishesOk, CallsOk, GatesHeld, ReportsOk, RaisesOk;
  }

  /** The claim's row. */
  lemma NewRowKeepsLog(log: seq<Event>, before: Option<Run>, after: Option<Run>, w: Worker)
    requires LogOk(log, before, w) && before == None && !IsCompleted(after)
    ensures LogOk(log, after, w)
  {
    hide PostsFollowRecovery, Logged;
  }

  lemma PostKeepsLog(log: seq<Event>, row: Option<Run>, w: Worker, v: Worker, e: Event)
    requires WorkerOk(row, w) && LogOk(log, row, w) && StepsQuietly(w, v)
    requires w.finishes == [] && e.run == w.context.run && ClientKind(e.kind)
    ensures LogOk(log + [e], row, v)
  {
    hide FinalPayload, WorkerOk;
    QuietStepKeepsLog(log, row, w, v);
    assert Logged(log + [e], e.run, LockReleased) ==> Logged(log, e.run, LockReleased);
    LoggedStays(log, [e], e.run, RunCompleted);
    var all := log + [e];
    forall i, j | 0 <= i < j < |all| && FollowsClosing(all[i], all[j], e.run)
      ensures all[i].kind == LockRecovered
    {
      assert i < |log| && all[i] in log;
    }
  }

  lemma FinishRows(log: seq<Event>, run: string, issue: string, agent: string, status: Status,
                   fields: map<Field, string>)
    requires status == Completed || status == Failed || status == Blocked
    ensures var more := FinishEvents(run, issue, agent, status, fields);
      Logged(log + more, run, LockReleased) &&
      (status == Completed ==> Logged(log + more, run, RunCompleted)) &&
      (forall e :: e in more ==> e.run == run && !ClientKind(e.kind)) &&
      (forall e :: e in more && e.kind == RunCompleted ==>
        status == Completed && e.payload == FinalPayload(Completed, fields))
  {
    hide FinalPayload;
    var more := FinishEvents(run, issue, agent, status, fields);
    assert more[1] in log + more && more[0] in log + more;
    assert forall e :: e in more ==> e == more[0] || e == more[1];
  }

  /** An accepted finish: the row gets its status and the log its two rows, whether or not the answer
      arrives. */
  lemma FinishKeepsLog(log: seq<Event>, before: Option<Run>, after: Run, w: Worker, v: Worker, agent: string,
                       fields: map<Field, string>)
    requires LogOk(log, before, w) && !IsCompleted(before) && v.context == w.context && v.outcome == w.outcome
    requires v.finishes != [] && (after.status == Completed || after.status == Failed || after.status == Blocked)
    requires after.status == Failed ==> FailedByItself(v)
    requires after.status == Completed ==> HasResult(w) && w.outcome.value.result.fields == fields
    ensures LogOk(log + FinishEvents(w.context.run, w.context.issue, agent, after.status, fields), Some(after), v)
  {
    hide FinalPayload, PostsFollowRecovery, FinishEvents, Logged, ClientKind;
    var run := w.context.run;
    var more := FinishEvents(run, w.context.issue, agent, after.status, fields);
    FinishRows(log, run, w.context.issue, agent, after.status, fields);
    QuietKeepsOrder(log, more, run);
  }

  lemma NotCompletedYet(row: Option<Run>, w: Worker)
    ensures WorkerOk(row, w) && w.finishes == [] ==> !IsCompleted(row)
  {
    hide ThreadsOk, FinishesOk, CallsOk, GatesHeld, ReportsOk, RaisesOk;
  }

  /** What `finish` leaves of the record, whatever its answer. */
  lemma FinishStepKeepsLog(t: Tables, w: Worker, v: Worker, status: Status, fields: map<Field, string>)
    requires TablesOk(t) && v.context == w.context && v.outcome == w.outcome && v.finishes != []
    requires LogOk(t.log, RowOf(t, w.context.run), w)
    requires status == Completed || status == Failed || status == Blocked
    requires status == Completed ==> HasResult(w) && w.outcome.value.result.fields == fields
    requires !w.main.Ended?
    requires
      (status == Failed && FinishEffect(t, w.context.run, w.context.issue, status, ObjectFields(fields)).reply == Yes
       ==> FailedByItself(v))
    ensures var u := FinishEffect(t, w.context.run, w.context.issue, status, ObjectFields(fields));
      (u.reply == Yes || !Accepted(v.main) ==> LogOk(u.after.log, RowOf(u.after, w.context.run), v))
  {
    hide LogOk, FinishEvents, StoredColumns, FinalPayload;
    var run, issue := w.context.run, w.context.issue;
    var u := FinishEffect(t, run, issue, status, ObjectFields(fields));
    if u.reply == Yes {
      FinishKeepsLog(t.log, RowOf(t, run), u.after.runs[run], w, v, t.locks[issue].agent, fields);
    } else if !Accepted(v.main) {
      RefusedFinishKeepsLog(t.log, RowOf(t, run), w, v);
    }
  }

  lemma RefusedFinishKeepsLog(log: seq<Event>, row: Option<Run>, w: Worker, v: Worker)
    requires LogOk(log, row, w) && v.context == w.context && v.outcome == w.outcome && v.finishes != []
    requires !w.main.Ended? && !Accepted(v.main)
    ensures LogOk(log, row, v)
  {
    hide PostsFollowRecovery, Logged, FinalPayload;
  }

  lemma CompleteStepKeepsLog(t: Tables, w: Worker, fault: Fault, policy: Policy)
    requires TablesOk(t) && w.main.Completing? && CarriesResult(policy, w)
    requires LogOk(t.log, RowOf(t, w.context.run), w)
    ensures var move := CompleteStep(t, w, w.main.result, fault);
      LogOk(After(t, move.op).log, RowOf(After(t, move.op), w.context.run), move.worker)
  {
    hide LogOk, FinishEffect, GatesOk, AllAccepted;
    var v := CompleteStep(t, w, w.main.result, fault).worker;
    FinishStepKeepsLog(t, w, v, Completed, w.main.result.fields);
    if fault.LostBefore? { RefusedFinishKeepsLog(t.log, RowOf(t, w.context.run), w, v); }
  }

  lemma ConcludeStepKeepsLog(t: Tables, w: Worker, fault: Fault)
    requires TablesOk(t) && w.main.Concluding? && FinishesOk(w)
    requires LogOk(t.log, RowOf(t, w.context.run), w)
    ensures var move := ConcludeStep(t, w, w.main.status, w.main.error, w.main.exc, fault);
      LogOk(After(t, move.op).log, RowOf(After(t, move.op), w.context.run), move.worker)
  {
    hide LogOk, FinishEffect;
    var v := ConcludeStep(t, w, w.main.status, w.main.error, w.main.exc, fault).worker;
    FinishStepKeepsLog(t, w, v, w.main.status, map[Error := w.main.error, ErrorCode := w.main.error]);
    if fault.LostBefore? { RefusedFinishKeepsLog(t.log, RowOf(t, w.context.run), w, v); }
  }

  lemma ClaimStepKeepsLog(cfg: Config, t: Tables, w: Worker, fault: Fault)
    requires TablesOk(t) && w.main == Claiming && WorkerOk(RowOf(t, w.context.run), w)
    requires LogOk(t.log, RowOf(t, w.context.run), w)
    ensures var move := ClaimStep(cfg, t, w, fault);
      LogOk(After(t, move.op).log, RowOf(After(t, move.op), w.context.run), move.worker)
  {
    hide LogOk, Apply, WorkerOk;
    var move := ClaimStep(cfg, t, w, fault);
    var row, run := RowOf(t, w.context.run), w.context.run;
    ClaimingHasNoRow(row, w);
    QuietStepKeepsLog(t.log, row, w, move.worker);
    if move.op.Some? {
      OwnRow(t, move.op.value, run);
      var more := RowsAppended(t, move.op.value);
      QuietKeepsLog(t.log, more, row, move.worker);
      NewRowKeepsLog(t.log + more, row, RowOf(After(t, move.op), run), move.worker);
    }
  }

  lemma ClaimingHasNoRow(row: Option<Run>, w: Worker)
    ensures w.main == Claiming && WorkerOk(row, w) ==> row == None && w.finishes == []
  {
  }

  lemma QuietKeepsLog(log: seq<Event>, more: seq<Event>, row: Option<Run>, w: Worker)
    requires LogOk(log, row, w) && QuietFor(more, w.context.run)
    ensures LogOk(log + more, row, w)
  {
    hide PostsFollowRecovery, FinalPayload;
    LoggedStays(log, more, w.context.run, LockReleased);
    LoggedStays(log, more, w.context.run, RunCompleted);
    QuietKeepsOrder(log, more, w.context.run);
  }

  /** Steps that post, or that run without a transaction. */
  lemma PostOrQuietKeepsLog(t: Tables, w: Worker, move: Move)
    requires WorkerOk(RowOf(t, w.context.run), w) && LogOk(t.log, RowOf(t, w.context.run), w)
    requires StepsQuietly(w, move.worker)
    requires move.op.Some? ==> move.op.value.Post? && OwnPost(move.op.value, w.context.run) && w.finishes == []
    ensures LogOk(After(t, move.op).log, RowOf(After(t, move.op), w.context.run), move.worker)
  {
    hide LogOk, WorkerOk, StepsQuietly;
    if move.op.Some? {
      PostKeepsLog(t.log, RowOf(t, w.context.run), w, move.worker, move.op.value.event);
    } else {
      QuietStepKeepsLog(t.log, RowOf(t, w.context.run), w, move.worker);
    }
  }

  predicate Transacts(main: MainPc) { main == Claiming || main.Completing? || main.Concluding? }

  lemma OtherStepsAreQuiet(cfg: Config, t: Tables, w: Worker, input: Input)
    requires FinishesOk(w) && ReportsOk(w) && MainStep(cfg, t, w, input).Some? && !Transacts(w.main)
    ensures var move := MainStep(cfg, t, w, input).value;
      StepsQuietly(w, move.worker) &&
      (move.op.Some? ==> move.op.value.Post? && OwnPost(move.op.value, w.context.run) && w.finishes == [])
  {
    hide Apply, Plan, ClaimStep, CompleteStep, ConcludeStep, GatesOk;
  }

  lemma MainStepKeepsLog(cfg: Config, t: Tables, w: Worker, input: Input)
    requires TablesOk(t) && WorkerOk(RowOf(t, w.context.run), w) && MainStep(cfg, t, w, input).Some?
    requires LogOk(t.log, RowOf(t, w.context.run), w) && CarriesResult(cfg.policy, w)
    ensures var move := MainStep(cfg, t, w, input).value;
      LogOk(After(t, move.op).log, RowOf(After(t, move.op), w.context.run), move.worker)
  {
    hide LogOk, TablesOk, Apply, ClaimStep, CompleteStep, ConcludeStep, WorkerOk, StepsQuietly;
    if Transacts(w.main) {
      assert FinishesOk(w) by { OkParts(RowOf(t, w.context.run), w); }
      match w.main
      case Claiming => ClaimStepKeepsLog(cfg, t, w, input.fault);
      case Completing(result) => CompleteStepKeepsLog(t, w, input.fault, cfg.policy);
      case Concluding(status, error, exc) => ConcludeStepKeepsLog(t, w, input.fault);
    } else {
      hide MainStep;
      OkParts(RowOf(t, w.context.run), w);
      OtherStepsAreQuiet(cfg, t, w, input);
      PostOrQuietKeepsLog(t, w, MainStep(cfg, t, w, input).value);
    }
  }

  /** The row as far as records go. */
  predicate SameOutcome(before: Option<Run>, after: Option<Run>) {
    (before.Some? <==> after.Some?) &&
    (before.Some? ==> before.value.status == after.value.status && before.value.columns == after.value.columns)
  }

  lemma BeatKeepsRow(t: Tables, run: string, issue: string, ttl: int)
    ensures SameOutcome(RowOf(t, run), RowOf(HeartbeatEffect(t, run, issue, ttl).after, run))
  {
    hide HeartbeatEffect;
    OwnHeartbeatRow(t, run, issue, ttl);
  }

  lemma BeatKeepsRecord(policy: Policy, log: seq<Event>, before: Option<Run>, after: Option<Run>, w: Worker, v: Worker)
    requires ResultOk(policy, before, w) && LogOk(log, before, w) && SameOutcome(before, after)
    requires v == w.(pulse := v.pulse, beatFailed := v.beatFailed, leasedAt := v.leasedAt, calls := v.calls)
    ensures ResultOk(policy, after, v) && LogOk(log, after, v)
  {
    hide PostsFollowRecovery, AllAccepted, FinalPayload, Logged, GatesOk, StoredColumns;
  }

  lemma PulseStepKeepsRecord(cfg: Config, t: Tables, w: Worker, fault: Fault)
    requires RecordOk(cfg.policy, t, w) && PulseStep(cfg, t, w, fault).Some?
    ensures var move := PulseStep(cfg, t, w, fault).value;
      move.worker.context == w.context && RecordOk(cfg.policy, After(t, move.op), move.worker)
  {
    hide HeartbeatEffect, LogOk, ResultOk, SameOutcome;
    var move := PulseStep(cfg, t, w, fault).value;
    var before, after := RowOf(t, w.context.run), RowOf(After(t, move.op), w.context.run);
    BeatKeepsRow(t, w.context.run, w.context.issue, cfg.ttl);
    HeartbeatKeepsLog(t, w.context.run, w.context.issue, cfg.ttl);
    assert SameOutcome(before, before) by { UntouchedRow(before); }
    BeatKeepsRecord(cfg.policy, t.log, before, after, w, move.worker);
  }

  lemma UntouchedRow(row: Option<Run>)
    ensures SameOutcome(row, row)
  {
  }

  lemma HeartbeatKeepsLog(t: Tables, run: string, issue: string, ttl: int)
    ensures HeartbeatEffect(t, run, issue, ttl).after.log == t.log
  {
  }

  // ---------------------------------------------------------------- results on their way

  lemma JoinStepCarriesResult(cfg: Config, w: Worker)
    requires CarriesResult(cfg.policy, w) && w.main.Joining?
    ensures CarriesResult(cfg.policy, JoinStep(cfg, w, w.main.next))
  {
    hide AllAccepted, Dedup, Normalize, GatesOk;
  }

  lemma MainStepCarriesResult(cfg: Config, t: Tables, w: Worker, input: Input)
    requires CarriesResult(cfg.policy, w) && MainStep(cfg, t, w, input).Some?
    ensures CarriesResult(cfg.policy, MainStep(cfg, t, w, input).value.worker)
  {
    hide Apply, AllAccepted, GatesOk, JoinStep, AllKanban;
    if w.main.Joining? { JoinStepCarriesResult(cfg, w); }
  }

  /** A main step completes the row only with the result it carries, and keeps a completed row. */
  lemma MainStepKeepsEarned(cfg: Config, t: Tables, w: Worker, input: Input)
    requires TablesOk(t) && WorkerOk(RowOf(t, w.context.run), w) && MainStep(cfg, t, w, input).Some?
    requires ResultOk(cfg.policy, RowOf(t, w.context.run), w)
    ensures var move := MainStep(cfg, t, w, input).value; var row := RowOf(After(t, move.op), w.context.run);
      IsCompleted(row) ==> Earned(cfg.policy, row.value, move.worker)
  {
    hide TablesOk, Apply, ClaimStep, CompleteStep, ConcludeStep, WorkerOk, StepsQuietly, AllAccepted, GatesOk;
    var run := w.context.run;
    OkParts(RowOf(t, run), w);
    if w.finishes == [] { NotCompletedYet(RowOf(t, run), w); }
    if Transacts(w.main) {
      match w.main
      case Claiming => ClaimDoesNotComplete(cfg, t, w, input.fault);
      case Completing(result) => CompleteStepIsEarned(t, w, input.fault, cfg.policy);
      case Concluding(status, error, exc) => ConcludeStepKeepsEarned(t, w, input.fault, cfg.policy);
    } else {
      hide MainStep;
      OtherStepsAreQuiet(cfg, t, w, input);
      OtherStepsKeepEarned(cfg.policy, t, w, MainStep(cfg, t, w, input).value);
    }
  }

  lemma OtherStepsKeepEarned(policy: Policy, t: Tables, w: Worker, move: Move)
    requires TablesOk(t) && StepsQuietly(w, move.worker) && (move.op.Some? ==> move.op.value.Post?)
    requires ResultOk(policy, RowOf(t, w.context.run), w)
    requires w.finishes == [] ==> !IsCompleted(RowOf(t, w.context.run))
    ensures var row := RowOf(After(t, move.op), w.context.run);
      IsCompleted(row) ==> Earned(policy, row.value, move.worker)
  {
    hide TablesOk, CarriesResult, AllAccepted, GatesOk, StoredColumns;
  }

  lemma ClaimDoesNotComplete(cfg: Config, t: Tables, w: Worker, fault: Fault)
    requires TablesOk(t) && w.main == Claiming && WorkerOk(RowOf(t, w.context.run), w)
    ensures !IsCompleted(RowOf(After(t, ClaimStep(cfg, t, w, fault).op), w.context.run))
  {
    hide Apply, WorkerOk;
    ClaimingHasNoRow(RowOf(t, w.context.run), w);
    OwnRow(t, Claim(w.context, cfg.ttl), w.context.run);
  }

  lemma CompleteStepIsEarned(t: Tables, w: Worker, fault: Fault, policy: Policy)
    requires TablesOk(t) && w.main.Completing? && ResultOk(policy, RowOf(t, w.context.run), w)
    ensures var move := CompleteStep(t, w, w.main.result, fault); var row := RowOf(After(t, move.op), w.context.run);
      IsCompleted(row) ==> Earned(policy, row.value, move.worker)
  {
    hide FinishEffect, TablesOk, StoredColumns, AllAccepted, GatesOk;
    OwnFinishRow(t, w.context.run, w.context.issue, Completed, w.main.result.fields);
  }

  lemma ConcludeStepKeepsEarned(t: Tables, w: Worker, fault: Fault, policy: Policy)
    requires TablesOk(t) && w.main.Concluding? && FinishesOk(w) && ResultOk(policy, RowOf(t, w.context.run), w)
    ensures var move := ConcludeStep(t, w, w.main.status, w.main.error, w.main.exc, fault);
      var row := RowOf(After(t, move.op), w.context.run);
      IsCompleted(row) ==> Earned(policy, row.value, move.worker)
  {
    hide FinishEffect, TablesOk, StoredColumns, AllAccepted, GatesOk;
    var fields := map[Error := w.main.error, ErrorCode := w.main.error];
    OwnFinishRow(t, w.context.run, w.context.issue, w.main.status, fields);
  }

  lemma MainStepKeepsRecord(cfg: Config, t: Tables, w: Worker, input: Input)
    requires TablesOk(t) && WorkerOk(RowOf(t, w.context.run), w) && MainStep(cfg, t, w, input).Some?
    requires RecordOk(cfg.policy, t, w)
    ensures var move := MainStep(cfg, t, w, input).value;
      move.worker.context == w.context && RecordOk(cfg.policy, After(t, move.op), move.worker)
  {
    hide TablesOk, MainStep, WorkerOk, LogOk, CarriesResult, Earned;
    OkParts(RowOf(t, w.context.run), w);
    MainStepIsOwn(cfg, t, w, input);
    MainStepKeepsLog(cfg, t, w, input);
    MainStepCarriesResult(cfg, t, w, input);
    MainStepKeepsEarned(cfg, t, w, input);
  }

  // ---------------------------------------------------------------- the whole system

  ghost predicate RecordsOk(policy: Policy, s: System) {
    (forall run :: run in s.workers ==> RecordOk(policy, s.tables, s.workers[run])) &&
    NamesKnown(s.tables.log, s.workers.Keys)
  }

  /** Every row is charged to a known run, and so is every run id a row cites. */
  predicate NamesKnown(log: seq<Event>, known: set<string>) {
    forall e :: e in log ==> e.run in known && CitesKnown(e, known)
  }

  predicate CitesKnown(e: Event, known: set<string>) {
    e.kind == LockRejected || e.kind == LockRecovered ==> Cited(e).Some? && Cited(e).value in known
  }

  predicate ActorKnown(op: Op, known: set<string>) {
    match op
    case Claim(c, _) => c.run in known
    case Finish(run, _, _, _) => run in known
    case Post(event) => event.run in known && ClientKind(event.kind)
    case _ => true
  }

  lemma ClaimNamesKnown(t: Tables, c: Context, ttl: int, known: set<string>)
    requires t.runs.Keys <= known && TablesOk(t) && NamesKnown(t.log, known) && c.run in known
    ensures NamesKnown(ClaimEffect(t, c, ttl).after.log, known)
  {
    hide TablesOk, ClaimConflicts, Holder;
    if TtlOk(ttl) && ClaimConflicts(t, c) && Holder(t, c.issue).Some? {
      HolderIsKnown(t, c.issue);
    }
  }

  lemma HolderIsKnown(t: Tables, issue: string)
    ensures TablesOk(t) && Holder(t, issue).Some? ==> Holder(t, issue).value.0 in t.runs
  {
  }

  lemma RecoveryNamesKnown(t: Tables, issue: string, known: set<string>)
    requires t.runs.Keys <= known && TablesOk(t) && NamesKnown(t.log, known)
    ensures NamesKnown(RecoverEffect(t, issue).after.log, known)
  {
  }

  lemma FinishNamesKnown(t: Tables, run: string, issue: string, status: Status, arg: FieldsArgument, known: set<string>)
    requires NamesKnown(t.log, known) && run in known
    ensures NamesKnown(FinishEffect(t, run, issue, status, arg).after.log, known)
  {
    hide FinalPayload, StoredColumns, StatusName, Cited;
  }

  /** Every row names a run somebody works on: the actor's, a holder's, or a recovered one. */
  lemma NamesStayKnown(t: Tables, op: Op, known: set<string>)
    requires TablesOk(t) && t.runs.Keys <= known && NamesKnown(t.log, known) && ActorKnown(op, known)
    ensures NamesKnown(Apply(t, op).after.log, known)
  {
    hide TablesOk, ClaimEffect, FinishEffect, RecoverEffect;
    match op
    case Claim(c, ttl) => ClaimNamesKnown(t, c, ttl, known);
    case Finish(run, issue, status, arg) => FinishNamesKnown(t, run, issue, status, arg, known);
    case Recover(issue) => RecoveryNamesKnown(t, issue, known);
    case _ =>
  }

  lemma ForeignStepKeepsRecord(policy: Policy, t: Tables, op: Op, w: Worker, actor: string)
    requires TablesOk(t) && RecordOk(policy, t, w) && actor != w.context.run && Foreign(op, w.context.run)
    requires By(op, actor) || op.Recover? || op.Release? || op.Tick?
    requires OwnPost(op, actor) && EndsFinally(op)
    ensures RecordOk(policy, Apply(t, op).after, w)
  {
    hide TablesOk, Apply, LogOk, ResultOk;
    ForeignRow(t, op, w.context.run);
    var more := ForeignRowsAreQuiet(t, op, w.context.run, actor);
    ForeignKeepsRecord(policy, RowOf(t, w.context.run), RowOf(Apply(t, op).after, w.context.run), t.log, more, w);
  }

  lemma TransactKeepsRecords(policy: Policy, s: System, op: Op)
    requires SystemOk(s) && RecordsOk(policy, s) && (op.Recover? || op.Release? || op.Tick?)
    ensures RecordsOk(policy, Transact(s, op))
  {
    hide Apply, TablesOk, WorkerOk, Play, RecordOk, NamesKnown;
    NamesStayKnown(s.tables, op, s.workers.Keys);
    forall run | run in s.workers
      ensures RecordOk(policy, Transact(s, op).tables, s.workers[run])
    {
      assert run + "+" != run;
      ForeignStepKeepsRecord(policy, s.tables, op, s.workers[run], run + "+");
    }
  }

  lemma TakeKeepsRecords(policy: Policy, s: System, run: string, move: Move)
    requires SystemOk(s) && RecordsOk(policy, s) && run in s.workers && move.worker.context.run == run
    requires move.op.Some? ==> By(move.op.value, run) && OwnPost(move.op.value, run) && EndsFinally(move.op.value)
    requires RecordOk(policy, After(s.tables, move.op), move.worker)
    ensures RecordsOk(policy, Take(s, run, Some(move)))
  {
    hide Apply, TablesOk, WorkerOk, Play, RecordOk, NamesKnown;
    var u := Take(s, run, Some(move));
    assert u.workers.Keys == s.workers.Keys;
    if move.op.Some? {
      NamesStayKnown(s.tables, move.op.value, s.workers.Keys);
    }
    forall other | other in u.workers
      ensures RecordOk(policy, u.tables, u.workers[other])
    {
      if other != run && move.op.Some? {
        ForeignStepKeepsRecord(policy, s.tables, move.op.value, s.workers[other], run);
      }
    }
  }

  lemma MainStepPostsOwn(cfg: Config, t: Tables, w: Worker, input: Input)
    requires FinishesOk(w) && ReportsOk(w) && MainStep(cfg, t, w, input).Some?
    ensures var move := MainStep(cfg, t, w, input).value;
      move.op.Some? ==> OwnPost(move.op.value, w.context.run) && EndsFinally(move.op.value)
  {
    hide Apply, Plan;
  }

  lemma CrashKeepsRecord(policy: Policy, t: Tables, w: Worker)
    requires RecordOk(policy, t, w) && CrashStep(w).Some?
    ensures RecordOk(policy, t, CrashStep(w).value.worker)
  {
    hide PostsFollowRecovery, AllAccepted, FinalPayload, Logged;
  }

  lemma NewWorkerIsRecorded(policy: Policy, s: System, c: Context)
    requires SystemOk(s) && RecordsOk(policy, s) && c.run !in s.workers
    ensures RecordsOk(policy, s.(workers := s.workers[c.run := NewWorker(c)]))
  {
    hide RecordOk, WorkerOk, TablesOk, Play;
    FreshIsRecorded(policy, s.tables, c);
  }

  lemma FreshIsRecorded(policy: Policy, t: Tables, c: Context)
    ensures (c.run !in t.runs && forall e :: e in t.log ==> e.run != c.run) ==> RecordOk(policy, t, NewWorker(c))
  {
  }

  lemma DoKeepsRecords(cfg: Config, s: System, a: Action)
    requires SystemOk(s) && RecordsOk(cfg.policy, s)
    ensures RecordsOk(cfg.policy, Do(cfg, s, a))
  {
    hide WorkerOk, TablesOk, Apply, MainStep, PulseStep, Hear, Beat, Play, AllFaithful, RecordOk, NamesKnown;
    match a
    case Spawn(c) => if c.run !in s.workers { NewWorkerIsRecorded(cfg.policy, s, c); }
    case MainMove(run, input) =>
      if run in s.workers && MainStep(cfg, s.tables, s.workers[run], input).Some? {
        OkParts(RowOf(s.tables, run), s.workers[run]);
        MainStepKeepsRecord(cfg, s.tables, s.workers[run], input);
        MainStepIsOwn(cfg, s.tables, s.workers[run], input);
        MainStepPostsOwn(cfg, s.tables, s.workers[run], input);
        TakeKeepsRecords(cfg.policy, s, run, MainStep(cfg, s.tables, s.workers[run], input).value);
      }
    case PulseMove(run, fault) =>
      if run in s.workers && PulseStep(cfg, s.tables, s.workers[run], fault).Some? {
        PulseStepKeepsRecord(cfg, s.tables, s.workers[run], fault);
        PulseStepIsHeartbeat(cfg, s.tables, s.workers[run], fault);
        TakeKeepsRecords(cfg.policy, s, run, PulseStep(cfg, s.tables, s.workers[run], fault).value);
      }
    case Crash(run) =>
      if run in s.workers && CrashStep(s.workers[run]).Some? {
        CrashKeepsRecord(cfg.policy, s.tables, s.workers[run]);
        TakeKeepsRecords(cfg.policy, s, run, CrashStep(s.workers[run]).value);
      }
    case RecoverIssue(issue) => TransactKeepsRecords(cfg.policy, s, Recover(issue));
    case OperatorRelease(issue) => TransactKeepsRecords(cfg.policy, s, Release(issue));
    case Pass(elapsed) => TransactKeepsRecords(cfg.policy, s, Tick(elapsed));
  }

  lemma PulseStepIsHeartbeat(cfg: Config, t: Tables, w: Worker, fault: Fault)
    ensures PulseStep(cfg, t, w, fault).Some? ==>
      var move := PulseStep(cfg, t, w, fault).value;
      move.op.Some? ==> move.op.value.Heartbeat? && move.op.value.run == w.context.run
  {
    hide Apply;
  }

  /** In every reachable system the record of every worker is right. */
  lemma {:induction false} ExecIsRecorded(cfg: Config, actions: seq<Action>)
    ensures RecordsOk(cfg.policy, Exec(cfg, actions))
  {
    hide RecordOk, Do, SystemOk;
    if actions != [] {
      ExecIsRecorded(cfg, actions[..|actions| - 1]);
      ExecIsOk(cfg, actions[..|actions| - 1]);
      DoKeepsRecords(cfg, Exec(cfg, actions[..|actions| - 1]), actions[|actions| - 1]);
    }
  }
}
