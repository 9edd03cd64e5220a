/** The audit log of the whole system against the payload contract: what the workers write when they are
    fed by classification, `new_run_id` and the Kanban adapter. */
module SystemAudit {
  import opened Options
  import opened Payloads
  import opened Execution
  import opened Kanban
  import opened EventPipeline
  import opened KanbanContract
  import opened Lease
  import opened LeaseHistory
  import opened Workers
  import opened WorkerSafety
  import opened RunRecords
  import opened RunOutcomes
  import opened RunIds
  import opened AuditContract
  import Admission

  /** Nor do the agents and label values a classification can yield. */
  predicate PlainLabels(policy: Policy) {
    forall word :: word in Admission.AGENTS.Values + Admission.RISKS + Admission.MODES + Admission.ENVIRONMENTS ==>
      !policy.sensitive(word)
  }

  // ---------------------------------------------------------------- the worker keeps the contract

  predicate ThenClean(next: Then) { next.WithResult? ==> next.result.fields.Keys <= RESULT_FIELDS }

  predicate MainClean(policy: Policy, main: MainPc) {
    match main
    case Joining(next) => ThenClean(next)
    case Persisting(queue, next) => AllAccepted(policy, queue) && ThenClean(next)
    case Checking(result) => result.fields.Keys <= RESULT_FIELDS
    case EnteringReview(result) => result.fields.Keys <= RESULT_FIELDS
    case Completing(result) => result.fields.Keys <= RESULT_FIELDS
    case Concluding(status, error, _) => status == Failed || (status == Blocked && error == "ExecutionBlocked")
    case _ => true
  }

  predicate WorkerClean(policy: Policy, w: Worker) { LabelsClean(policy, w.context) && MainClean(policy, w.main) }

  /** Results carry result fields only; errors may have any name. */
  predicate InputClean(input: Input) {
    input.Dispatched? && input.outcome.Finished? ==> input.outcome.result.fields.Keys <= RESULT_FIELDS
  }

  lemma {:induction false} DedupKeepsAcceptance(policy: Policy, entries: seq<Entry>)
    requires AllAccepted(policy, entries)
    ensures AllAccepted(policy, Dedup(entries))
  {
    hide Accepts, FirstOfItsKey;
    if entries != [] {
      DedupKeepsAcceptance(policy, entries[..|entries| - 1]);
    }
  }

  lemma PlanIsAccepted(policy: Policy, entries: seq<Entry>)
    ensures Plan(policy, entries).Some? ==>
      AllAccepted(policy, entries) && AllAccepted(policy, Plan(policy, entries).value)
  {
    hide Accepts;
    if AllAccepted(policy, entries) {
      forall i | 0 <= i < |entries|
        ensures Accepts(policy, Normalize(entries)[i].kind, Normalize(entries)[i].payload)
      {
        ValidationIsIdempotent(policy, entries[i].kind, entries[i].payload);
      }
      DedupKeepsAcceptance(policy, Normalize(entries));
    }
  }

  lemma JoinStepIsClean(cfg: Config, w: Worker, next: Then)
    requires PlainWords(cfg.policy) && WorkerClean(cfg.policy, w) && w.main == Joining(next)
    ensures WorkerClean(cfg.policy, JoinStep(cfg, w, next))
  {
    hide AllAccepted, Plan, FieldsOk, LabelsClean;
    PlanIsAccepted(cfg.policy, ThenEvents(next));
  }

  lemma PersistStepIsClean(policy: Policy, w: Worker, queue: seq<Entry>, next: Then, fault: Fault)
    requires WorkerClean(policy, w) && w.main == Persisting(queue, next)
    ensures var move := PersistStep(w, queue, next, fault);
      WorkerClean(policy, move.worker) && (move.op.Some? ==> ContractOp(policy, false, move.op.value))
  {
    hide Accepts, FieldsOk, LabelsClean;
  }

  lemma AnnounceStepIsClean(policy: Policy, w: Worker, fault: Fault)
    requires WorkerClean(policy, w)
    ensures var move := AnnounceStep(w, fault);
      WorkerClean(policy, move.worker) && (move.op.Some? ==> ContractOp(policy, false, move.op.value))
  {
    hide LabelsClean;
    assert Normalized(map[]) == map[];
  }

  lemma ConcludeIsContract(policy: Policy, c: Context, status: Status, error: string)
    requires PlainWords(policy) && (status == Failed || (status == Blocked && error == "ExecutionBlocked"))
    ensures ContractOp(policy, false, ConcludeOp(c, status, error))
  {
    assert "ExecutionBlocked" in FIXED_WORDS;
    assert map[Error := error, ErrorCode := error] == ErrorFields(error);
  }

  lemma MainStepIsClean(cfg: Config, t: Tables, w: Worker, input: Input)
    requires PlainWords(cfg.policy) && WorkerClean(cfg.policy, w) && InputClean(input)
    requires MainStep(cfg, t, w, input).Some?
    ensures var move := MainStep(cfg, t, w, input).value;
      WorkerClean(cfg.policy, move.worker) && (move.op.Some? ==> ContractOp(cfg.policy, false, move.op.value))
  {
    hide Apply, JoinStep, PersistStep, AnnounceStep, AllAccepted, FieldsOk, LabelsClean, ConcludeOp, GatesOk, AllKanban;
    match w.main
    case Joining(next) => JoinStepIsClean(cfg, w, next);
    case Persisting(queue, next) => PersistStepIsClean(cfg.policy, w, queue, next, input.fault);
    case Announcing => AnnounceStepIsClean(cfg.policy, w, input.fault);
    case Concluding(status, error, exc) => ConcludeIsContract(cfg.policy, w.context, status, error);
    case _ =>
  }

  lemma PulseStepIsClean(cfg: Config, t: Tables, w: Worker, fault: Fault)
    ensures WorkerClean(cfg.policy, w) && PulseStep(cfg, t, w, fault).Some? ==>
      var move := PulseStep(cfg, t, w, fault).value;
      WorkerClean(cfg.policy, move.worker) && (move.op.Some? ==> ContractOp(cfg.policy, false, move.op.value))
  {
    hide Apply, LabelsClean, MainClean;
  }

  // ---------------------------------------------------------------- what the workers are really fed

  /** A context as `execute` builds it for a Todo issue: classified labels and a new run id. */
  ghost predicate ClassifiedContext(c: Context) {
    exists labels: set<string>, millis: nat, random: nat :: BuiltFrom(c, labels, millis, random)
  }

  predicate BuiltFrom(c: Context, labels: set<string>, millis: nat, random: nat) {
    millis < TIME_SPACE && random < RANDOM_SPACE && c.run == NewRunId(millis, random) &&
    Admission.Classify(labels, "Todo") == Admission.Classified(c.agent, c.risk, c.mode, c.environment)
  }

  /** Classification yields labels every event can carry, and `new_run_id` ids of the right form; the whole
      context is well formed exactly when the random id and the identifier also pass the scan. */
  lemma ClassifiedIsClean(policy: Policy, c: Context)
    ensures PlainLabels(policy) && ClassifiedContext(c) ==>
      LabelsClean(policy, c) && (ContextOk(policy, c) <==> !policy.sensitive(c.run) && Clean(policy, c.issue))
  {
    hide RunIdText, NewRunId, Admission.Classify, Admission.AGENTS;
    if PlainLabels(policy) && ClassifiedContext(c) {
      var labels: set<string>, millis: nat, random: nat :| BuiltFrom(c, labels, millis, random);
      RunIdRoundTrip(millis, random);
      assert c.run != "" by { RunIdNotEmpty(c.run); }
      Admission.ClassifiedWords(labels);
      Admission.AgentsAreNamed(c.agent);
    }
  }

  lemma RunIdNotEmpty(run: string)
    ensures RunIdText(run) ==> run != ""
  {
  }

  /** What the Kanban adapter can hand back for `c`; a read that fails may raise anything. */
  ghost predicate FromAdapter(c: Context, outcome: DispatchOutcome) {
    exists polls: nat -> Read, n: nat :: AdapterRun(c, polls, n, outcome)
  }

  ghost predicate AdapterRun(c: Context, polls: nat -> Read, n: nat, outcome: DispatchOutcome) {
    (forall k: nat :: k < n ==> polls(k).Seen?) && outcome == Verdict(c, polls, n)
  }

  /** The adapter's own errors have clean names, and its results carry result fields only. */
  lemma VerdictIsClean(policy: Policy, c: Context, polls: nat -> Read, n: nat)
    requires PlainWords(policy) && SeenUpTo(polls, n)
    ensures match Verdict(c, polls, n)
      case Finished(result) => result.fields.Keys <= RESULT_FIELDS
      case Failing(exc) => exc.EventError? && Clean(policy, exc.errorType)
  {
    hide TraceBefore, ClosingEvent, FailedOutcome;
    assert "TimeoutError" in FIXED_WORDS && "RuntimeError" in FIXED_WORDS;
    MergedFieldsAreResultFields(polls(n).snapshot);
  }

  lemma AdapterInputIsClean(c: Context, outcome: DispatchOutcome)
    requires FromAdapter(c, outcome)
    ensures InputClean(Dispatched(outcome))
  {
    hide TraceBefore, ClosingEvent, FailedOutcome;
    var polls: nat -> Read, n: nat :| AdapterRun(c, polls, n, outcome);
    if polls(n).Seen? { MergedFieldsAreResultFields(polls(n).snapshot); }
  }

  /** What may happen in `s`: new workers get classified contexts, and dispatchers are the adapter. Nothing is
      assumed of callbacks and calls, nor of the names of the errors they raise. */
  ghost predicate SourceAction(s: System, a: Action) {
    match a
    case Spawn(c) => ClassifiedContext(c)
    case MainMove(run, Dispatched(outcome)) => run in s.workers ==> FromAdapter(s.workers[run].context, outcome)
    case _ => true
  }

  ghost predicate FromSources(cfg: Config, actions: seq<Action>) {
    forall k :: 0 <= k < |actions| ==> SourceAction(Exec(cfg, actions[..k]), actions[k])
  }

  ghost predicate OutcomeOk(w: Worker) {
    w.outcome.Some? ==> FromAdapter(w.context, w.outcome.value)
  }

  ghost predicate SystemClean(policy: Policy, s: System) {
    AllContract(policy, false, s.ops) &&
    forall run :: run in s.workers ==> WorkerClean(policy, s.workers[run]) && OutcomeOk(s.workers[run])
  }

  lemma MainStepOutcome(cfg: Config, t: Tables, w: Worker, input: Input)
    ensures MainStep(cfg, t, w, input).Some? ==>
      var v := MainStep(cfg, t, w, input).value.worker;
      v.context == w.context && v.outcome == if input.Dispatched? then Some(input.outcome) else w.outcome
  {
    hide ClaimStep, AnnounceStep, JoinStep, PersistStep, CheckStep, CompleteStep, SettleStep, ConcludeStep;
  }

  lemma MainStepKeepsOutcome(cfg: Config, t: Tables, w: Worker, input: Input)
    requires OutcomeOk(w) && MainStep(cfg, t, w, input).Some?
    requires input.Dispatched? ==> FromAdapter(w.context, input.outcome)
    ensures OutcomeOk(MainStep(cfg, t, w, input).value.worker)
  {
    hide MainStep, FromAdapter;
    MainStepOutcome(cfg, t, w, input);
  }

  lemma PulseStepKeepsOutcome(cfg: Config, t: Tables, w: Worker, fault: Fault)
    ensures PulseStep(cfg, t, w, fault).Some? ==>
      var v := PulseStep(cfg, t, w, fault).value.worker; v.outcome == w.outcome && v.context == w.context
  {
    hide Apply;
  }

  lemma MainMoveIsClean(cfg: Config, s: System, run: string, input: Input)
    requires PlainWords(cfg.policy) && PlainLabels(cfg.policy) && SystemClean(cfg.policy, s)
    requires SourceAction(s, MainMove(run, input))
    ensures SystemClean(cfg.policy, Do(cfg, s, MainMove(run, input)))
  {
    hide Apply, MainStep, Hear, LabelsClean, MainClean, FromAdapter, ClassifiedContext;
    if run in s.workers && MainStep(cfg, s.tables, s.workers[run], input).Some? {
      if input.Dispatched? { AdapterInputIsClean(s.workers[run].context, input.outcome); }
      MainStepIsClean(cfg, s.tables, s.workers[run], input);
      MainStepKeepsOutcome(cfg, s.tables, s.workers[run], input);
    }
  }

  lemma DoIsClean(cfg: Config, s: System, a: Action)
    requires PlainWords(cfg.policy) && PlainLabels(cfg.policy)
    requires SystemClean(cfg.policy, s)
    ensures SourceAction(s, a) ==> SystemClean(cfg.policy, Do(cfg, s, a))
  {
    hide Apply, MainStep, PulseStep, Hear, Beat, LabelsClean, MainClean, FromAdapter, ClassifiedContext;
    if !SourceAction(s, a) { return; }
    match a
    case MainMove(run, input) => MainMoveIsClean(cfg, s, run, input);
    case PulseMove(run, fault) =>
      if run in s.workers && PulseStep(cfg, s.tables, s.workers[run], fault).Some? {
        PulseStepIsClean(cfg, s.tables, s.workers[run], fault);
        PulseStepKeepsOutcome(cfg, s.tables, s.workers[run], fault);
      }
    case Spawn(c) =>
      ClassifiedIsClean(cfg.policy, c);
      assert MainClean(cfg.policy, Claiming) by { StartsClean(cfg.policy); }
    case Crash(run) => CrashesClean(cfg.policy);
    case _ =>
  }

  lemma StartsClean(policy: Policy)
    ensures MainClean(policy, Claiming)
  {
  }

  lemma CrashesClean(policy: Policy)
    ensures MainClean(policy, Ended(Crashed))
  {
  }

  lemma {:induction false} SystemStaysClean(cfg: Config, actions: seq<Action>)
    requires PlainWords(cfg.policy) && PlainLabels(cfg.policy) && FromSources(cfg, actions)
    ensures SystemClean(cfg.policy, Exec(cfg, actions))
  {
    hide Do, SourceAction, PlainWords, PlainLabels, WorkerClean, OutcomeOk;
    if actions != [] {
      var before := actions[..|actions| - 1];
      assert FromSources(cfg, before) by {
        forall k | 0 <= k < |before|
          ensures SourceAction(Exec(cfg, before[..k]), before[k])
        {
          assert before[..k] == actions[..k];
        }
      }
      SystemStaysClean(cfg, before);
      DoIsClean(cfg, Exec(cfg, before), actions[|actions| - 1]);
    }
  }

  // ---------------------------------------------------------------- which adapter results are clean

  /** The trace ends with `kanban.blocked`: the result of a blocked task. */
  predicate EndsBlocked(result: ExecutionResult) {
    result.events != [] && result.events[|result.events| - 1].kind == KanbanBlocked
  }

  lemma VerdictEnds(c: Context, polls: nat -> Read, n: nat)
    requires SeenUpTo(polls, n) && Verdict(c, polls, n).Finished?
    ensures var result := Verdict(c, polls, n).result;
      result.fields == MergedFields(polls(n).snapshot) &&
      (EndsBlocked(result) <==> polls(n).snapshot.status == "blocked") &&
      (!EndsBlocked(result) ==> polls(n).snapshot.status == "done")
  {
    hide EventPayload, TraceBefore;
  }

  /** A done task yields a clean result: its fields were validated inside `kanban.completed`. */
  lemma DonePathIsClean(policy: Policy, c: Context, polls: nat -> Read, n: nat)
    requires SeenUpTo(polls, n) && polls(n).snapshot.status == "done"
    ensures var outcome := Verdict(c, polls, n);
      outcome.Finished? && (AllAccepted(policy, outcome.result.events) ==> FieldsOk(policy, outcome.result.fields))
  {
    hide FieldsOk, SnapshotOk, AllAccepted, ChangesOk;
    TraceAcceptedExactly(policy, c, polls, n);
  }

  /** A completed run whose result was not that of a blocked task has valid fields. */
  lemma AdapterResultIsClean(policy: Policy, c: Context, result: ExecutionResult)
    requires FromAdapter(c, Finished(result)) && AllAccepted(policy, result.events)
    ensures result.fields.Keys <= RESULT_FIELDS && (!EndsBlocked(result) ==> FieldsOk(policy, result.fields))
  {
    hide Verdict, ContextOk, AllAccepted, FieldsOk, EndsBlocked;
    var polls: nat -> Read, n: nat :| AdapterRun(c, polls, n, Finished(result));
    FinishedIsSeen(c, polls, n);
    VerdictEnds(c, polls, n);
    MergedFieldsAreResultFields(polls(n).snapshot);
    if polls(n).snapshot.status == "done" { DonePathIsClean(policy, c, polls, n); }
  }

  lemma FinishedIsSeen(c: Context, polls: nat -> Read, n: nat)
    requires forall k: nat :: k < n ==> polls(k).Seen?
    requires Verdict(c, polls, n).Finished?
    ensures SeenUpTo(polls, n)
  {
  }

  // ---------------------------------------------------------------- the log of the system

  /** The result of a completed run is acceptable: its `run.completed` row is. */
  ghost predicate CompletionOk(policy: Policy, s: System, run: string) {
    run in s.workers && run in s.tables.runs && s.tables.runs[run].status == Completed && HasResult(s.workers[run]) ==>
      (EndsBlocked(s.workers[run].outcome.value.result) ==>
        FieldsOk(policy, s.workers[run].outcome.value.result.fields))
  }

  lemma CompletedResult(cfg: Config, actions: seq<Action>, run: string)
    requires SystemClean(cfg.policy, Exec(cfg, actions))
    requires run in Exec(cfg, actions).tables.runs && Exec(cfg, actions).tables.runs[run].status == Completed
    ensures var s := Exec(cfg, actions);
      run in s.workers && HasResult(s.workers[run]) &&
      var result := s.workers[run].outcome.value.result;
      (Accepts(cfg.policy, RunCompleted, FinalPayload(Completed, result.fields)) <==>
        FieldsOk(cfg.policy, result.fields)) &&
      (CompletionOk(cfg.policy, s, run) <==> FieldsOk(cfg.policy, result.fields))
  {
    hide Exec, Accepts, AllAccepted, FieldsOk, FinalPayload, FromAdapter, ContextOk, MainClean, AllContract;
    hide EndsBlocked;
    hide CompletionsOk, Logged, StoredColumns, GatesOk;
    var s := Exec(cfg, actions);
    CompletedRunsWereEarned(cfg, actions, run);
    var w := s.workers[run];
    assert WorkerClean(cfg.policy, w) && OutcomeOk(w);
    var result := w.outcome.value.result;
    AdapterResultIsClean(cfg.policy, w.context, result);
    RunCompletedAccepted(cfg.policy, result.fields);
  }

  /** The row `run.completed` of a completed run is accepted exactly when the fields of the result that
      completed it meet the rules. */
  lemma CompletionRows(cfg: Config, actions: seq<Action>, e: Event)
    requires SystemClean(cfg.policy, Exec(cfg, actions))
    requires e in Exec(cfg, actions).tables.log && e.kind == RunCompleted
    ensures var s := Exec(cfg, actions);
      e.run in s.tables.runs && s.tables.runs[e.run].status == Completed &&
      (EventAccepted(cfg.policy, e) <==> CompletionOk(cfg.policy, s, e.run))
  {
    hide Exec, Accepts, FieldsOk, FinalPayload, SystemClean, EndsBlocked, Earned, PostsFollowRecovery, WorkerOk;
    hide TablesOk, CountsMatch;
    var s := Exec(cfg, actions);
    ExecIsRecorded(cfg, actions);
    assert e.run in s.workers;
    ReachedWorker(cfg, actions, e.run);
    CompletedResult(cfg, actions, e.run);
  }

  /** What keeps the whole log acceptable: clean citations, and valid fields of runs completed by blocked
      tasks. */
  ghost predicate NothingToReject(policy: Policy, s: System) {
    (forall e :: e in s.tables.log ==> CitesClean(policy, e)) &&
    forall run :: run in s.tables.runs ==> CompletionOk(policy, s, run)
  }

  /** Over every run of the system fed by classification and the adapter. Row by row: `lock.rejected` and
      `lock.recovered` are accepted exactly when the run id they cite passes the scan, `run.failed` exactly
      when the name of the error does, `run.completed` exactly when its fields meet the rules, which only
      those of a blocked task may break, and every other row is accepted. */
  lemma SystemLogIsAccepted(cfg: Config, actions: seq<Action>)
    requires PlainWords(cfg.policy) && PlainLabels(cfg.policy) && FromSources(cfg, actions)
    ensures var s := Exec(cfg, actions);
      LogRuled(cfg.policy, false, s.tables.log) &&
      (forall e :: e in s.tables.log && e.kind == RunCompleted ==>
         (EventAccepted(cfg.policy, e) <==> CompletionOk(cfg.policy, s, e.run))) &&
      (LogAccepted(cfg.policy, s.tables.log) <==> NothingToReject(cfg.policy, s))
  {
    hide Exec, PlainWords, PlainLabels, FromSources, SystemClean, EventAccepted, CompletionOk, WorkerOk, CitesClean;
    var s := Exec(cfg, actions);
    SystemStaysClean(cfg, actions);
    KeptSystemLog(cfg, actions);
    forall e | e in s.tables.log && e.kind == RunCompleted
      ensures EventAccepted(cfg.policy, e) <==> CompletionOk(cfg.policy, s, e.run)
      ensures e.run in s.tables.runs && CitesClean(cfg.policy, e)
    {
      CompletionRows(cfg, actions, e);
      CompletionsCiteNothing(cfg.policy, e);
    }
    if LogAccepted(cfg.policy, s.tables.log) {
      forall run | run in s.tables.runs
        ensures CompletionOk(cfg.policy, s, run)
      {
        AcceptedLogCompletes(cfg, actions, run);
      }
    }
  }

  lemma CompletionsCiteNothing(policy: Policy, e: Event)
    ensures e.kind == RunCompleted ==> CitesClean(policy, e)
  {
  }

  /** The run ids the log cites are ids of workers, so with ids that pass the scan only error names and the
      fields of blocked tasks can make a row unacceptable. */
  lemma CitedIdsAreWorkers(cfg: Config, actions: seq<Action>, e: Event)
    requires e in Exec(cfg, actions).tables.log && (e.kind == LockRejected || e.kind == LockRecovered)
    ensures Cited(e).Some? && Cited(e).value in Exec(cfg, actions).workers
    ensures (forall run :: run in Exec(cfg, actions).workers ==> Clean(cfg.policy, run)) ==> CitesClean(cfg.policy, e)
  {
    hide Exec, RecordOk, Cited, Clean;
    ExecIsRecorded(cfg, actions);
  }

  lemma KeptSystemLog(cfg: Config, actions: seq<Action>)
    requires PlainWords(cfg.policy) && SystemClean(cfg.policy, Exec(cfg, actions))
    ensures LogRuled(cfg.policy, false, Exec(cfg, actions).tables.log)
  {
    hide Exec, SystemOk, PlainWords, WorkerClean, LogRuled;
    ExecIsOk(cfg, actions);
    var s := Exec(cfg, actions);
    assert s.tables == Play(s.ops) by { OkIsPlayed(s); }
    HistoryIsAccepted(cfg.policy, false, s.ops);
  }

  lemma OkIsPlayed(s: System)
    ensures SystemOk(s) ==> s.tables == Play(s.ops)
  {
  }

  lemma AcceptedLogCompletes(cfg: Config, actions: seq<Action>, run: string)
    requires SystemClean(cfg.policy, Exec(cfg, actions)) && LogAccepted(cfg.policy, Exec(cfg, actions).tables.log)
    requires run in Exec(cfg, actions).tables.runs
    ensures CompletionOk(cfg.policy, Exec(cfg, actions), run)
  {
    hide Exec, SystemClean, EventAccepted, Earned, CompletionsOk;
    var s := Exec(cfg, actions);
    if s.tables.runs[run].status == Completed {
      CompletedRunsWereEarned(cfg, actions, run);
      var e :| e in s.tables.log && e.run == run && e.kind == RunCompleted;
      assert EventAccepted(cfg.policy, e) by {
        var i :| 0 <= i < |s.tables.log| && s.tables.log[i] == e;
      }
      CompletionRows(cfg, actions, e);
    }
  }

  /** The row of a run that a blocked task completed: it is written with fields nobody validated, and the
      validator rejects it exactly when they break the rules. */
  lemma BlockedTaskRow(cfg: Config, actions: seq<Action>, c: Context, polls: nat -> Read, n: nat)
    requires SeenUpTo(polls, n) && polls(n).snapshot.status == "blocked"
    requires c.run in Exec(cfg, actions).workers &&
      Exec(cfg, actions).workers[c.run].outcome == Some(Verdict(c, polls, n))
    requires c.run in Exec(cfg, actions).tables.runs && Exec(cfg, actions).tables.runs[c.run].status == Completed
    ensures exists e :: (
      e in Exec(cfg, actions).tables.log && e.run == c.run && e.kind == RunCompleted &&
      (EventAccepted(cfg.policy, e) <==> FieldsOk(cfg.policy, MergedFields(polls(n).snapshot))))
  {
    hide Exec, Accepts, FieldsOk, FinalPayload, Earned, TraceBefore, MergedFields, ClosingEvent;
    var s := Exec(cfg, actions);
    CompletedRunsWereEarned(cfg, actions, c.run);
    var e :| e in s.tables.log && e.run == c.run && e.kind == RunCompleted;
    MergedFieldsAreResultFields(polls(n).snapshot);
    RunCompletedAccepted(cfg.policy, MergedFields(polls(n).snapshot));
  }
}
