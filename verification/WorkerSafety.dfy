/** What every interleaving of workers, heartbeats, recoveries, releases and lost answers keeps. */
module WorkerSafety {
  import opened Options
  import opened Payloads
  import opened Execution
  import opened Lease
  import opened LeaseHistory
  import opened EventPipeline
  import opened KanbanContract
  import opened Workers

  function RowOf(t: Tables, run: string): Option<Run> { if run in t.runs then Some(t.runs[run]) else None }

  // ---------------------------------------------------------------- the invariant of one worker

  predicate BeforeStop(main: MainPc) { main == EnteringProgress || main == Announcing || main == Dispatching }

  predicate NotYetPulsing(main: MainPc) { main == Claiming || main == Starting }

  /** Before the join the pulse may live; after it the thread is gone. */
  predicate ThreadsOk(w: Worker) {
    if NotYetPulsing(w.main) then w.pulse == NotStarted && !w.stop
    else if BeforeStop(w.main) then w.pulse != NotStarted && !w.stop
    else if w.main.Joining? then w.pulse != NotStarted && w.stop
    else if w.main.Ended? then w.pulse == NotStarted || w.pulse == Exited
    else w.pulse == Exited && w.stop
  }

  predicate GoesToFailure(main: MainPc) {
    match main
    case Joining(WithException(OtherError(_))) => true
    case Settling(_, OtherError(_)) => true
    case Concluding(Failed, _, _) => true
    case _ => false
  }

  /** Which finishes can have been requested at each point of `execute`. */
  predicate FinishesOk(w: Worker) {
    match w.main
    case Ended(Returned) => w.finishes == [Completed]
    case Ended(Concluded(_, _)) => w.finishes == [Failed] || w.finishes == [Blocked] ||
      w.finishes == [Completed, Failed]
    case Ended(Crashed) => w.finishes == [] || w.finishes == [Completed]
    case Concluding(status, _, _) =>
      (status == Failed || status == Blocked) && (w.finishes == [] || (status == Failed && w.finishes == [Completed]))
    case _ => w.finishes == [] || (GoesToFailure(w.main) && w.finishes == [Completed])
  }

  /** No heartbeat and no post is started once a finish was requested. */
  predicate Ordered(calls: seq<Call>) {
    forall i, j :: 0 <= i < j < |calls| && calls[i] == FinishCall ==> calls[j] == FinishCall
  }

  predicate CallsOk(w: Worker) {
    Ordered(w.calls) && (w.finishes == [] <==> FinishCall !in w.calls) && (w.finishes != [] ==> w.pulse == Exited)
  }

  predicate GatesHeld(w: Worker) {
    match w.main
    case EnteringReview(result) => !w.beatFailed && GatesOk(w.context.agent, result.fields)
    case Completing(result) => !w.beatFailed && GatesOk(w.context.agent, result.fields)
    case _ => true
  }

  function ThenEvents(next: Then): seq<Entry> {
    match next
    case WithResult(result) => result.events
    case WithException(EventError(_, events)) => events
    case _ => []
  }

  /** What the failure path blames, asks for and raises; only `ExecutionBlocked` ends as blocked. */
  predicate RaisesOk(w: Worker) {
    match w.main
    case Persisting(_, WithException(exc)) => exc.EventError?
    case Settling(exc, blamed) => blamed == exc || (exc.EventError? && blamed.OtherError?)
    case Concluding(status, _, exc) => status == Blocked <==> exc == BlockedError
    case Ended(Concluded(Some(Yes), raised)) => w.finishes == [Blocked] <==> raised == BlockedError
    case Ended(Concluded(Some(answer), raised)) => answer == No && raised == OtherError("RuntimeError")
    case Ended(Concluded(None, raised)) => raised.OtherError?
    case _ => true
  }

  /** Everything still to be posted is a Kanban event. */
  predicate ReportsOk(w: Worker) {
    match w.main
    case Joining(next) => AllKanban(ThenEvents(next))
    case Persisting(queue, _) => AllKanban(queue)
    case _ => true
  }

  /** The run row of the worker, when it has one. */
  predicate RowOk(row: Run, w: Worker) {
    && row.issue == w.context.issue && row.agent == w.context.agent
    && (row.status == Completed ==>
      w.finishes != [] && w.finishes[0] == Completed && !w.beatFailed && GatesOk(row.agent, row.columns))
    && (row.status == Blocked || row.status == Canceled ==> w.finishes == [Blocked])
    && (w.main == Ended(Returned) ==> row.status == Completed)
    && (w.main.Ended? && w.main.how.Concluded? ==> ConclusionOk(row.status, w.finishes, w.main.how.answer))
  }

  /** An answered conclusion leaves no running run; an accepted one leaves the status it asked for, and a
      refused one never a blocked run. */
  predicate ConclusionOk(status: Status, finishes: seq<Status>, answer: Option<Reply>) {
    && (answer.Some? ==> status != Running)
    && (answer == Some(Yes) ==>
          if finishes == [Blocked] then status == Blocked || status == Canceled else status == Failed)
    && (answer == Some(No) ==> status != Blocked && status != Canceled)
  }

  /** Points before which no claim was granted, and points after one was. */
  predicate Unclaimed(main: MainPc) { main == Claiming || main == Ended(Conflict) || main == Ended(ClaimRefused) }

  predicate Committing(main: MainPc) {
    !Unclaimed(main) && !(main.Ended? && (main.how.ClaimUnanswered? || main.how.Crashed?))
  }

  predicate RowPresence(row: Option<Run>, w: Worker) {
    && (Unclaimed(w.main) ==> row.None?)
    && (Committing(w.main) ==> row.Some?)
    && (row.Some? ==> RowOk(row.value, w))
  }

  predicate ControlOk(w: Worker) { ThreadsOk(w) && FinishesOk(w) && CallsOk(w) }

  predicate DataOk(row: Option<Run>, w: Worker) { GatesHeld(w) && RaisesOk(w) && ReportsOk(w) && RowPresence(row, w) }

  predicate WorkerOk(row: Option<Run>, w: Worker) { ControlOk(w) && DataOk(row, w) }

  // ---------------------------------------------------------------- steps of the worker itself

  lemma OrderedAfter(calls: seq<Call>, call: Call)
    requires Ordered(calls) && (call != FinishCall ==> FinishCall !in calls)
    ensures Ordered(calls + [call]) && (FinishCall in calls + [call] <==> FinishCall in calls || call == FinishCall)
  {
  }

  lemma AppendedIsNotEmpty(s: seq<Status>, x: Status)
    ensures s + [x] != [] && (s == [] ==> s + [x] == [x]) && (s == [Completed] ==> s + [x] == [Completed, x])
  {
  }

  /** How the row of `run` changes when its own worker's transaction commits. */
  lemma OwnRow(t: Tables, op: Op, run: string)
    requires TablesOk(t)
    ensures op.Post? ==> RowOf(Apply(t, op).after, run) == RowOf(t, run)
    ensures op.Claim? && op.context.run == run && Apply(t, op).reply != Yes ==>
      RowOf(Apply(t, op).after, run) == RowOf(t, run)
    ensures op.Claim? && op.context.run == run && Apply(t, op).reply == Yes ==>
      RowOf(t, run) == None && RowOf(Apply(t, op).after, run) == Some(ClaimedRun(t, op.context))
  {
    hide TablesOk, Holder, ClaimEvents;
  }

  lemma OwnFinishRow(t: Tables, run: string, issue: string, status: Status, fields: map<Field, string>)
    requires TablesOk(t) && FinalStatus(status)
    ensures FinishEffect(t, run, issue, status, ObjectFields(fields)).reply != Raised
    ensures var outcome := FinishEffect(t, run, issue, status, ObjectFields(fields));
      if outcome.reply == Yes
      then run in t.runs && RowOf(outcome.after, run) ==
        Some(t.runs[run].(status := status, finishedAt := Some(t.now), columns := StoredColumns(fields)))
      else RowOf(outcome.after, run) == RowOf(t, run) &&
           (run in t.runs && t.runs[run].issue == issue ==> t.runs[run].status != Running)
  {
    hide StoredColumns, FinalPayload;
  }

  lemma OwnHeartbeatRow(t: Tables, run: string, issue: string, ttl: int)
    ensures var outcome := HeartbeatEffect(t, run, issue, ttl);
      run in outcome.after.runs <==> run in t.runs
    ensures run in t.runs ==> exists beat ::
      HeartbeatEffect(t, run, issue, ttl).after.runs[run] == t.runs[run].(heartbeatAt := beat)
  {
    if run in t.runs {
      var after := HeartbeatEffect(t, run, issue, ttl).after.runs[run];
      assert after == t.runs[run].(heartbeatAt := after.heartbeatAt);
    }
  }

  ghost function After(t: Tables, op: Option<Op>): Tables { if op.None? then t else Apply(t, op.value).after }

  lemma ClaimStepKeeps(cfg: Config, t: Tables, w: Worker, fault: Fault)
    requires TablesOk(t) && w.main == Claiming && WorkerOk(RowOf(t, w.context.run), w)
    ensures var move := ClaimStep(cfg, t, w, fault);
      WorkerOk(RowOf(After(t, move.op), w.context.run), move.worker)
  {
    hide Apply, TablesOk, Ordered;
    OwnRow(t, Claim(w.context, cfg.ttl), w.context.run);
  }

  lemma AnnounceStepKeeps(t: Tables, w: Worker, fault: Fault)
    requires TablesOk(t) && w.main == Announcing && WorkerOk(RowOf(t, w.context.run), w)
    ensures var move := AnnounceStep(w, fault);
      WorkerOk(RowOf(After(t, move.op), w.context.run), move.worker)
  {
    hide Apply, TablesOk, Ordered;
    OrderedAfter(w.calls, PostCall);
    OwnRow(t, Post(Announcement(w.context)), w.context.run);
  }

  lemma PostingKeepsControl(w: Worker, fault: Fault)
    requires w.main.Persisting? && ControlOk(w)
    ensures ControlOk(PersistStep(w, w.main.queue, w.main.then_, fault).worker)
  {
    hide Ordered, Row;
    OrderedAfter(w.calls, PostCall);
  }

  lemma PostingKeepsData(row: Option<Run>, w: Worker, fault: Fault)
    requires w.main.Persisting? && DataOk(row, w)
    ensures DataOk(row, PersistStep(w, w.main.queue, w.main.then_, fault).worker)
  {
    hide Row, GatesOk;
  }

  lemma PersistStepKeeps(t: Tables, w: Worker, fault: Fault)
    requires TablesOk(t) && w.main.Persisting? && WorkerOk(RowOf(t, w.context.run), w)
    ensures var move := PersistStep(w, w.main.queue, w.main.then_, fault);
      WorkerOk(RowOf(After(t, move.op), w.context.run), move.worker)
  {
    hide Apply, TablesOk, Row, ThreadsOk, FinishesOk, CallsOk, GatesHeld, RaisesOk, ReportsOk, RowPresence;
    PostingKeepsControl(w, fault);
    PostingKeepsData(RowOf(t, w.context.run), w, fault);
    if w.main.queue != [] {
      OwnRow(t, Post(Row(w.context, w.main.queue[0])), w.context.run);
    }
  }

  lemma CompleteKeepsControl(t: Tables, w: Worker, fault: Fault)
    requires w.main.Completing? && ControlOk(w)
    ensures ControlOk(CompleteStep(t, w, w.main.result, fault).worker)
  {
    hide Apply, Ordered, CompleteOp;
    OrderedAfter(w.calls, FinishCall);
    AppendedIsNotEmpty(w.finishes, Completed);
  }

  lemma CompleteStepKeeps(t: Tables, w: Worker, fault: Fault)
    requires TablesOk(t) && w.main.Completing? && WorkerOk(RowOf(t, w.context.run), w)
    ensures var move := CompleteStep(t, w, w.main.result, fault);
      WorkerOk(RowOf(After(t, move.op), w.context.run), move.worker)
  {
    hide FinishEffect, TablesOk, ThreadsOk, CallsOk, StoredColumns;
    var c, fields := w.context, w.main.result.fields;
    AppendedIsNotEmpty(w.finishes, Completed);
    CompleteKeepsControl(t, w, fault);
    OwnFinishRow(t, c.run, c.issue, Completed, fields);
    StoredGates(c.agent, fields);
  }

  lemma StoredGates(agent: string, fields: map<Field, string>)
    ensures GatesOk(agent, fields) ==> GatesOk(agent, StoredColumns(fields))
  {
  }

  lemma ConcludeKeepsControl(t: Tables, w: Worker, fault: Fault)
    requires w.main.Concluding? && ControlOk(w)
    ensures ControlOk(ConcludeStep(t, w, w.main.status, w.main.error, w.main.exc, fault).worker)
  {
    hide Apply, Ordered, ConcludeOp;
    OrderedAfter(w.calls, FinishCall);
    AppendedIsNotEmpty(w.finishes, w.main.status);
  }

  /** What the row looks like after the last finish, whatever became of it. */
  lemma ConcludeKeepsRow(t: Tables, w: Worker, fault: Fault)
    requires TablesOk(t) && w.main.Concluding? && FinishesOk(w) && RowPresence(RowOf(t, w.context.run), w)
    ensures var move := ConcludeStep(t, w, w.main.status, w.main.error, w.main.exc, fault);
      RowPresence(RowOf(After(t, move.op), w.context.run), move.worker)
  {
    hide FinishEffect, TablesOk, StoredColumns, GatesOk;
    var c, status := w.context, w.main.status;
    AppendedIsNotEmpty(w.finishes, status);
    OwnFinishRow(t, c.run, c.issue, status, map[Error := w.main.error, ErrorCode := w.main.error]);
  }

  lemma ConcludeKeepsRaises(t: Tables, w: Worker, fault: Fault)
    requires TablesOk(t) && w.main.Concluding? && FinishesOk(w) && RaisesOk(w)
    ensures var v := ConcludeStep(t, w, w.main.status, w.main.error, w.main.exc, fault).worker;
      RaisesOk(v) && GatesHeld(v) && ReportsOk(v)
  {
    hide FinishEffect, TablesOk, StoredColumns;
    var c, status := w.context, w.main.status;
    AppendedIsNotEmpty(w.finishes, status);
    OwnFinishRow(t, c.run, c.issue, status, map[Error := w.main.error, ErrorCode := w.main.error]);
  }

  lemma ConcludeStepKeeps(t: Tables, w: Worker, fault: Fault)
    requires TablesOk(t) && w.main.Concluding? && WorkerOk(RowOf(t, w.context.run), w)
    ensures var move := ConcludeStep(t, w, w.main.status, w.main.error, w.main.exc, fault);
      WorkerOk(RowOf(After(t, move.op), w.context.run), move.worker)
  {
    hide ConcludeStep, Apply, TablesOk, ThreadsOk, FinishesOk, CallsOk, GatesHeld, RaisesOk, ReportsOk, RowPresence;
    ConcludeKeepsControl(t, w, fault);
    ConcludeKeepsRow(t, w, fault);
    ConcludeKeepsRaises(t, w, fault);
  }

  lemma {:induction false} DedupKeepsKanban(entries: seq<Entry>)
    requires AllKanban(entries)
    ensures AllKanban(Dedup(entries))
  {
    hide FirstOfItsKey;
    if entries != [] {
      DedupKeepsKanban(entries[..|entries| - 1]);
    }
  }

  lemma JoinStepKeeps(cfg: Config, t: Tables, w: Worker)
    requires w.main.Joining? && w.pulse == Exited && WorkerOk(RowOf(t, w.context.run), w)
    ensures WorkerOk(RowOf(t, w.context.run), JoinStep(cfg, w, w.main.next))
  {
    hide Ordered, AllAccepted, Normalize, GatesOk;
    var events := ThenEvents(w.main.next);
    NormalizeKeepsKanban(events);
    DedupKeepsKanban(Normalize(events));
  }

  lemma NormalizeKeepsKanban(entries: seq<Entry>)
    ensures AllKanban(entries) ==> AllKanban(Normalize(entries))
  {
  }

  /** Steps that neither call the database nor wait for the heartbeat thread. */
  predicate PlainPoint(main: MainPc) {
    !main.Claiming? && !main.Joining? && !main.Announcing? && !main.Persisting? && !main.Completing? &&
      !main.Concluding?
  }

  lemma PlainStepKeepsControl(cfg: Config, t: Tables, w: Worker, input: Input)
    requires PlainPoint(w.main) && ControlOk(w) && MainStep(cfg, t, w, input).Some?
    ensures ControlOk(MainStep(cfg, t, w, input).value.worker)
  {
    hide Ordered, GatesOk, AllKanban;
    hide ClaimStep, AnnounceStep, JoinStep, PersistStep, CompleteStep, ConcludeStep;
  }

  lemma PlainStepKeepsReports(cfg: Config, t: Tables, w: Worker, input: Input)
    requires PlainPoint(w.main) && GatesHeld(w) && RaisesOk(w) && ReportsOk(w) && MainStep(cfg, t, w, input).Some?
    ensures var v := MainStep(cfg, t, w, input).value.worker; GatesHeld(v) && RaisesOk(v) && ReportsOk(v)
  {
    hide GatesOk, ClaimStep, AnnounceStep, JoinStep, PersistStep, CompleteStep, ConcludeStep;
  }

  lemma PlainStepKeepsRow(cfg: Config, t: Tables, w: Worker, input: Input, row: Option<Run>)
    requires PlainPoint(w.main) && RowPresence(row, w) && MainStep(cfg, t, w, input).Some?
    ensures var move := MainStep(cfg, t, w, input).value; move.op == None && RowPresence(row, move.worker)
  {
    hide GatesOk, AllKanban;
    hide ClaimStep, AnnounceStep, JoinStep, PersistStep, CompleteStep, ConcludeStep;
  }

  lemma PlainStepKeepsData(cfg: Config, t: Tables, w: Worker, input: Input)
    requires PlainPoint(w.main) && DataOk(RowOf(t, w.context.run), w) && MainStep(cfg, t, w, input).Some?
    ensures var move := MainStep(cfg, t, w, input).value;
      move.op == None && DataOk(RowOf(t, w.context.run), move.worker)
  {
    hide MainStep, GatesHeld, RaisesOk, ReportsOk, RowPresence;
    PlainStepKeepsReports(cfg, t, w, input);
    PlainStepKeepsRow(cfg, t, w, input, RowOf(t, w.context.run));
  }

  lemma MainStepKeeps(cfg: Config, t: Tables, w: Worker, input: Input)
    requires TablesOk(t) && WorkerOk(RowOf(t, w.context.run), w) && MainStep(cfg, t, w, input).Some?
    ensures var move := MainStep(cfg, t, w, input).value;
      WorkerOk(RowOf(After(t, move.op), w.context.run), move.worker)
  {
    hide TablesOk, Apply, Plan, ClaimStep, AnnounceStep, PersistStep, CompleteStep, ConcludeStep, JoinStep, DataOk;
    hide FinishesOk, CallsOk;
    if PlainPoint(w.main) {
      hide MainStep;
      PlainStepKeepsControl(cfg, t, w, input);
      PlainStepKeepsData(cfg, t, w, input);
    } else {
      hide ControlOk;
      match w.main
      case Claiming => ClaimStepKeeps(cfg, t, w, input.fault);
      case Joining(next) => assert w.pulse == Exited; JoinStepKeeps(cfg, t, w);
      case Announcing => AnnounceStepKeeps(t, w, input.fault);
      case Persisting(queue, next) => PersistStepKeeps(t, w, input.fault);
      case Completing(result) => CompleteStepKeeps(t, w, input.fault);
      case Concluding(status, error, exc) => ConcludeStepKeeps(t, w, input.fault);
    }
  }

  lemma PulseKeepsControl(cfg: Config, t: Tables, w: Worker, fault: Fault)
    requires ControlOk(w) && PulseStep(cfg, t, w, fault).Some?
    ensures ControlOk(PulseStep(cfg, t, w, fault).value.worker)
  {
    hide Ordered, HeartbeatEffect;
    if w.pulse.Waiting? && !w.stop {
      OrderedAfter(w.calls, BeatCall);
    }
  }

  lemma LivePulseHasNotFinished(w: Worker)
    ensures ControlOk(w) ==>
      w.pulse != Exited && w.pulse != NotStarted ==> w.finishes == [] && (BeforeStop(w.main) || w.main.Joining?)
  {
  }

  /** The heartbeat thread touches nothing of the row but its heartbeat column. */
  lemma BeatKeepsData(before: Option<Run>, after: Option<Run>, w: Worker, v: Worker)
    requires DataOk(before, w) &&
      (v.beatFailed == w.beatFailed || (w.finishes == [] && (BeforeStop(w.main) || w.main.Joining?)))
    requires v == w.(pulse := v.pulse, beatFailed := v.beatFailed, leasedAt := v.leasedAt, calls := v.calls)
    requires before.Some? <==> after.Some?
    requires before.Some? ==> exists beat :: after.value == before.value.(heartbeatAt := beat)
    ensures DataOk(after, v)
  {
    hide GatesOk, AllKanban;
  }

  lemma PulseStepKeeps(cfg: Config, t: Tables, w: Worker, fault: Fault)
    requires TablesOk(t) && WorkerOk(RowOf(t, w.context.run), w) && PulseStep(cfg, t, w, fault).Some?
    ensures var move := PulseStep(cfg, t, w, fault).value;
      WorkerOk(RowOf(After(t, move.op), w.context.run), move.worker)
  {
    hide TablesOk, HeartbeatEffect, ControlOk, DataOk;
    OwnHeartbeatRow(t, w.context.run, w.context.issue, cfg.ttl);
    PulseKeepsControl(cfg, t, w, fault);
    LivePulseHasNotFinished(w);
    var move := PulseStep(cfg, t, w, fault).value;
    BeatKeepsData(RowOf(t, w.context.run), RowOf(After(t, move.op), w.context.run), w, move.worker);
  }

  // ---------------------------------------------------------------- steps of everybody else

  /** Transactions that carry the run id of nobody but `run`. */
  predicate By(op: Op, run: string) {
    match op
    case Claim(c, _) => c.run == run
    case Heartbeat(r, _, _) => r == run
    case Finish(r, _, _, _) => r == run
    case Post(_) => true
    case _ => false
  }

  predicate Foreign(op: Op, run: string) {
    match op
    case Claim(c, _) => c.run != run
    case Heartbeat(r, _, _) => r != run
    case Finish(r, _, _, _) => r != run
    case _ => true
  }

  /** All that others can do to a run row: expire it, or release it when blocked. */
  predicate EnvironmentStep(before: Option<Run>, after: Option<Run>) {
    before == after ||
    (before.Some? && after.Some? && after.value.issue == before.value.issue &&
      after.value.agent == before.value.agent &&
     ((before.value.status == Running && after.value.status == Failed) ||
      (before.value.status == Blocked && after.value.status == Canceled)))
  }

  lemma ForeignRow(t: Tables, op: Op, run: string)
    requires TablesOk(t) && Foreign(op, run)
    ensures EnvironmentStep(RowOf(t, run), RowOf(Apply(t, op).after, run))
  {
    hide Holder, ClaimEvents, StoredColumns, FinalPayload, FinishEvents, RecoverEvents;
  }

  lemma EnvironmentKeeps(before: Option<Run>, after: Option<Run>, w: Worker)
    requires WorkerOk(before, w) && EnvironmentStep(before, after)
    ensures WorkerOk(after, w)
  {
    hide ThreadsOk, CallsOk, GatesHeld, ReportsOk;
  }

  // ---------------------------------------------------------------- the whole system

  ghost predicate SystemOk(s: System) {
    && TablesOk(s.tables)
    && (forall run :: run in s.workers ==>
          s.workers[run].context.run == run && WorkerOk(RowOf(s.tables, run), s.workers[run]))
    && s.tables.runs.Keys <= s.workers.Keys
    && s.tables == Play(s.ops) && AllFaithful(s.ops)
  }

  lemma PlayAppends(ops: seq<Op>, op: Op)
    requires AllFaithful(ops) && Faithful(op)
    ensures Play(ops + [op]) == Apply(Play(ops), op).after && AllFaithful(ops + [op])
  {
    assert (ops + [op])[..|ops|] == ops;
  }

  /** A transaction of nobody's main or heartbeat thread. */
  lemma TransactKeeps(s: System, op: Op)
    requires SystemOk(s) && Faithful(op) && (op.Recover? || op.Release? || op.Tick?)
    ensures SystemOk(Transact(s, op))
  {
    hide WorkerOk, TablesOk, Apply, Play, AllFaithful, Faithful;
    var u := Transact(s, op);
    ApplyKeepsTables(s.tables, op);
    PlayAppends(s.ops, op);
    forall run | run in u.workers
      ensures u.workers[run].context.run == run && WorkerOk(RowOf(u.tables, run), u.workers[run])
    {
      ForeignRow(s.tables, op, run);
      EnvironmentKeeps(RowOf(s.tables, run), RowOf(u.tables, run), s.workers[run]);
    }
    forall run | run in u.tables.runs
      ensures run in u.workers
    {
      ForeignRow(s.tables, op, run);
      assert run in s.tables.runs;
    }
  }

  /** A step of worker `run` that keeps its own invariant keeps everybody's. */
  lemma TakeKeeps(s: System, run: string, move: Move)
    requires SystemOk(s) && run in s.workers && move.worker.context.run == run
    requires move.op.Some? ==> By(move.op.value, run) && Faithful(move.op.value)
    requires WorkerOk(RowOf(After(s.tables, move.op), run), move.worker)
    ensures SystemOk(Take(s, run, Some(move)))
  {
    hide WorkerOk, TablesOk, Apply, Play, AllFaithful, Faithful;
    var u := Take(s, run, Some(move));
    if move.op.Some? {
      ApplyKeepsTables(s.tables, move.op.value);
      PlayAppends(s.ops, move.op.value);
    }
    forall other | other in u.workers
      ensures u.workers[other].context.run == other && WorkerOk(RowOf(u.tables, other), u.workers[other])
    {
      if other != run && move.op.Some? {
        ForeignRow(s.tables, move.op.value, other);
        EnvironmentKeeps(RowOf(s.tables, other), RowOf(u.tables, other), s.workers[other]);
      }
    }
    forall other | other in u.tables.runs
      ensures other in u.workers
    {
      if other != run && move.op.Some? {
        ForeignRow(s.tables, move.op.value, other);
        assert other in s.tables.runs;
      }
    }
  }

  lemma MainStepIsOwn(cfg: Config, t: Tables, w: Worker, input: Input)
    requires ReportsOk(w) && MainStep(cfg, t, w, input).Some?
    ensures var move := MainStep(cfg, t, w, input).value;
      move.worker.context == w.context &&
      (move.op.Some? ==> By(move.op.value, w.context.run) && Faithful(move.op.value))
  {
    hide Apply, Plan;
  }

  lemma DoKeeps(cfg: Config, s: System, a: Action)
    requires SystemOk(s)
    ensures SystemOk(Do(cfg, s, a))
  {
    hide WorkerOk, TablesOk, Apply, MainStep, PulseStep, Hear, Beat, Play, AllFaithful;
    match a
    case Spawn(c) =>
      if c.run !in s.workers {
        SpawnedIsOk(c);
        assert RowOf(s.tables, c.run) == None;
      }
    case MainMove(run, input) =>
      if run in s.workers && MainStep(cfg, s.tables, s.workers[run], input).Some? {
        assert ReportsOk(s.workers[run]) by { OkParts(RowOf(s.tables, run), s.workers[run]); }
        MainStepKeeps(cfg, s.tables, s.workers[run], input);
        MainStepIsOwn(cfg, s.tables, s.workers[run], input);
        TakeKeeps(s, run, MainStep(cfg, s.tables, s.workers[run], input).value);
      }
    case PulseMove(run, fault) =>
      if run in s.workers && PulseStep(cfg, s.tables, s.workers[run], fault).Some? {
        PulseStepKeeps(cfg, s.tables, s.workers[run], fault);
        PulseStepIsOwn(cfg, s.tables, s.workers[run], fault);
        TakeKeeps(s, run, PulseStep(cfg, s.tables, s.workers[run], fault).value);
      }
    case Crash(run) =>
      if run in s.workers && CrashStep(s.workers[run]).Some? {
        CrashStepKeeps(RowOf(s.tables, run), s.workers[run]);
        TakeKeeps(s, run, CrashStep(s.workers[run]).value);
      }
    case RecoverIssue(issue) => TransactKeeps(s, Recover(issue));
    case OperatorRelease(issue) => TransactKeeps(s, Release(issue));
    case Pass(elapsed) => TransactKeeps(s, Tick(elapsed));
  }

  /** What the invariant of a worker says of its own state. */
  lemma OkParts(row: Option<Run>, w: Worker)
    ensures WorkerOk(row, w) ==> ControlOk(w) && ThreadsOk(w) && FinishesOk(w) && RaisesOk(w) && ReportsOk(w)
  {
  }

  lemma SpawnedIsOk(c: Context)
    ensures WorkerOk(None, NewWorker(c))
  {
  }

  lemma PulseStepIsOwn(cfg: Config, t: Tables, w: Worker, fault: Fault)
    requires PulseStep(cfg, t, w, fault).Some?
    ensures var move := PulseStep(cfg, t, w, fault).value;
      move.worker.context == w.context &&
      (move.op.Some? ==> By(move.op.value, w.context.run) && Faithful(move.op.value))
  {
    hide Apply;
  }

  lemma CrashStepKeeps(row: Option<Run>, w: Worker)
    requires WorkerOk(row, w) && CrashStep(w).Some?
    ensures var move := CrashStep(w).value;
      move.op == None && move.worker.context == w.context && WorkerOk(row, move.worker)
  {
    hide Ordered;
  }

  /** Every reachable state satisfies the invariant, and its tables are a faithful history, so the
      theorems of `LeaseHistory` hold of every reachable system. */
  lemma {:induction false} ExecIsOk(cfg: Config, actions: seq<Action>)
    ensures SystemOk(Exec(cfg, actions))
  {
    hide Do;
    if actions != [] {
      ExecIsOk(cfg, actions[..|actions| - 1]);
      DoKeeps(cfg, Exec(cfg, actions[..|actions| - 1]), actions[|actions| - 1]);
    }
  }

  // ---------------------------------------------------------------- theorems over every run

  /** No heartbeat and no event post of a run is started after its first finish request, and by then
      its heartbeat thread is gone for good. */
  lemma ThreadsFinishInOrder(cfg: Config, actions: seq<Action>, run: string)
    requires run in Exec(cfg, actions).workers
    ensures var w := Exec(cfg, actions).workers[run];
      (forall i, j :: 0 <= i < j < |w.calls| && w.calls[i] == FinishCall ==> w.calls[j] == FinishCall) &&
      (FinishCall in w.calls ==> w.pulse == Exited) &&
      (w.finishes == [] || w.finishes == [Completed] || w.finishes == [Failed] || w.finishes == [Blocked] ||
       w.finishes == [Completed, Failed])
  {
    hide Exec, TablesOk, Play, AllFaithful;
    ExecIsOk(cfg, actions);
    assert WorkerOk(RowOf(Exec(cfg, actions).tables, run), Exec(cfg, actions).workers[run]);
  }

  /** A completed run of a gated agent has both gates stored, and its worker saw no heartbeat failure. */
  lemma CompletedRunsPassedTheirGates(cfg: Config, actions: seq<Action>, run: string)
    requires run in Exec(cfg, actions).tables.runs && Exec(cfg, actions).tables.runs[run].status == Completed
    ensures var s := Exec(cfg, actions); var row := s.tables.runs[run];
      run in s.workers && !s.workers[run].beatFailed && s.workers[run].context.agent == row.agent &&
      (Gated(row.agent) ==>
        TestsStatus in row.columns && row.columns[TestsStatus] == "passed" &&
        ReviewStatus in row.columns && row.columns[ReviewStatus] == "approved")
  {
    hide Exec, TablesOk;
    ExecIsOk(cfg, actions);
    var s := Exec(cfg, actions);
    assert run in s.workers;
    assert RowOk(s.tables.runs[run], s.workers[run]) by {
      assert WorkerOk(RowOf(s.tables, run), s.workers[run]);
    }
  }

  /** A run is stored as blocked only because its worker concluded so, after its events were posted and
      the issue was moved; and only a blocked run is ever canceled. */
  lemma BlockedRunsWereConcluded(cfg: Config, actions: seq<Action>, run: string)
    requires run in Exec(cfg, actions).tables.runs
    requires var status := Exec(cfg, actions).tables.runs[run].status; status == Blocked || status == Canceled
    ensures var s := Exec(cfg, actions);
      run in s.workers && s.workers[run].finishes == [Blocked] && s.workers[run].main.Ended? &&
        s.workers[run].pulse == Exited
  {
    hide Exec, TablesOk;
    ExecIsOk(cfg, actions);
    var s := Exec(cfg, actions);
    assert run in s.workers;
    assert WorkerOk(RowOf(s.tables, run), s.workers[run]);
  }

  predicate MayLeaveOrphan(how: Ending) {
    match how
    case ClaimUnanswered(_) | PulseFailed(_) | CallbackRaised(_) | Crashed => true
    case Concluded(None, raised) => raised.OtherError?
    case _ => false
  }

  /** A worker whose `execute` has ended leaves a running run or a lock behind only if the answer of its
      claim or of its last finish was lost, its heartbeat thread could not be started, the `Blocked`
      callback raised, or the process died. `Limits.OrphanIsReachable` shows that each of them can. */
  lemma NoOrphanAfterExecute(cfg: Config, actions: seq<Action>, run: string)
    requires run in Exec(cfg, actions).workers && Exec(cfg, actions).workers[run].main.Ended?
    ensures var s := Exec(cfg, actions); var w := s.workers[run];
      !MayLeaveOrphan(w.main.how) ==>
        (run in s.tables.runs ==> s.tables.runs[run].status != Running) &&
        (forall issue :: !Owns(s.tables, run, issue))
    ensures var s := Exec(cfg, actions);
      s.workers[run].main.how == Returned ==> run in s.tables.runs && s.tables.runs[run].status == Completed
  {
    hide Exec, TablesOk, Owns;
    ExecIsOk(cfg, actions);
    var s := Exec(cfg, actions);
    assert RowPresence(RowOf(s.tables, run), s.workers[run]) by {
      assert WorkerOk(RowOf(s.tables, run), s.workers[run]);
    }
    forall issue | Owns(s.tables, run, issue)
      ensures run in s.tables.runs && s.tables.runs[run].status == Running
    {
      OwnerRuns(s.tables, run, issue);
    }
  }

  /** Mutual exclusion for the whole system, read from its log: per issue, acquire and close events
      alternate, and a bracket is open exactly while the issue has a lock row. The log tells who owns
      what, and every run's status except of exactly the runs the operator released. */
  lemma SystemLogIsWellBracketed(cfg: Config, actions: seq<Action>, issue: string, run: string)
    ensures var s := Exec(cfg, actions);
      WellBracketed(s.tables, issue) && Mirrors(s.tables, true) &&
      (LogDiffers(s.tables, run) <==> WasReleased(s.ops, run))
  {
    hide Mirrors, WellBracketed, LogDiffers, WasReleased, Exec;
    ExecIsOk(cfg, actions);
    LogIsWellBracketed(Exec(cfg, actions).ops, issue);
    LogReplaysToTables(Exec(cfg, actions).ops);
    LogDiffersIffReleased(Exec(cfg, actions).ops, run);
  }
}
