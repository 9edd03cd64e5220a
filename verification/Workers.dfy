/** Many workers over one lease database: `AgentRuntime.execute` in
    `src/hermes_agent_runtime/runtime.py`.

    Every worker has a main thread and a heartbeat thread with their own program counters. A step is one
    action of one thread, of the orchestrator's recovery, of the operator or of the clock; an action
    that is not enabled does nothing, so `Exec` ranges over every interleaving. A call to the database
    may be answered, be lost before it commits, or commit and lose its answer. */
module Workers {
  import opened Options
  import opened Payloads
  import opened Execution
  import opened Lease
  import opened EventPipeline
  import opened KanbanContract

  datatype Config = Config(policy: Policy, ttl: int, heartbeat: int)

  /** The constructor check of `AgentRuntime`. */
  predicate ConfigOk(cfg: Config) { cfg.ttl >= 10 && cfg.heartbeat >= 1 && cfg.heartbeat * 2 < cfg.ttl }

  /** How a call ends for its caller: with the database's answer, or with an exception instead of it.
      The store turns every HTTP status 409 into `RunConflict`, whatever the call. A call that commits
      does so before its caller goes on. */
  datatype Fault = Answered | LostBefore(error: string) | LostAfter(error: string)

  const CONFLICT := "RunConflict"

  datatype Then = WithResult(result: ExecutionResult) | WithException(exc: Exception)

  /** How `execute` ends, with the exception it raises. `Concluded` is the failure path up to its
      `finish`, whose answer is None when it was lost. */
  datatype Ending =
    | Conflict
    | ClaimRefused
    | ClaimUnanswered(error: string)
    | PulseFailed(error: string)
    | Returned
    | Concluded(answer: Option<Reply>, raised: Exception)
    | CallbackRaised(exc: Exception)
    | Crashed

  /** The exception `execute` raises, if it ends by raising one. */
  function RaisedBy(how: Ending): Option<Exception> {
    match how
    case Conflict => Some(OtherError(CONFLICT))
    case ClaimRefused => Some(OtherError("RuntimeError"))
    case ClaimUnanswered(error) => Some(OtherError(error))
    case PulseFailed(error) => Some(OtherError(error))
    case Concluded(_, raised) => Some(raised)
    case CallbackRaised(exc) => Some(exc)
    case Returned => None
    case Crashed => None
  }

  /** The main thread: where it is in `execute`. */
  datatype MainPc =
    | Claiming
    | Starting
    | EnteringProgress
    | Announcing
    | Dispatching
    | Joining(next: Then)
    | Persisting(queue: seq<Entry>, then_: Then)
    | Checking(result: ExecutionResult)
    | EnteringReview(result: ExecutionResult)
    | Completing(result: ExecutionResult)
    | Settling(exc: Exception, blamed: Exception)
    | MarkingBlocked
    | Concluding(status: Status, error: string, exc: Exception)
    | Ended(how: Ending)

  /** The heartbeat thread: waiting on the stop event, inside a call, or between answer and next wait. */
  datatype PulsePc = NotStarted | Waiting(since: int) | Calling(since: int) | Replied(since: int) | Exited

  datatype Call = BeatCall | PostCall | FinishCall

  /** `leasedAt` is when the last claim or heartbeat committed; `calls` and `finishes` record, in order,
      the database calls the worker started and the statuses it asked for; `outcome` is what the
      dispatcher handed back. */
  datatype Worker = Worker(context: Context, main: MainPc, pulse: PulsePc, stop: bool, beatFailed: bool,
                           leasedAt: int, calls: seq<Call>, finishes: seq<Status>, outcome: Option<DispatchOutcome>)

  function NewWorker(c: Context): Worker { Worker(c, Claiming, NotStarted, false, false, 0, [], [], None) }

  /** `heard` records, for each run, the inputs its main thread took, and `beats` what its heartbeat calls were
      answered, None for an exception. */
  datatype System = System(tables: Tables, workers: map<string, Worker>, ops: seq<Op>,
                           heard: map<string, seq<Input>>, beats: map<string, seq<Option<Reply>>>)

  function HeardBy(s: System, run: string): seq<Input> { if run in s.heard then s.heard[run] else [] }

  function BeatsOf(s: System, run: string): seq<Option<Reply>> { if run in s.beats then s.beats[run] else [] }

  /** `Launch` starts the heartbeat thread, which may raise before the `try` of `execute`. */
  datatype Input =
    | Go(fault: Fault)
    | Launch(failure: Option<string>)
    | Callback(moved: string, raised: Option<Exception>)
    | Dispatched(outcome: DispatchOutcome)

  datatype Action =
    | Spawn(context: Context)
    | MainMove(run: string, input: Input)
    | PulseMove(run: string, fault: Fault)
    | Crash(run: string)
    | RecoverIssue(issue: string)
    | OperatorRelease(issue: string)
    | Pass(elapsed: nat)

  /** The worker after a step and the transaction the step committed, if any. */
  datatype Move = Move(worker: Worker, op: Option<Op>)

  predicate Gated(agent: string) { agent in {"dev-backend", "dev-frontend", "devops"} }

  predicate Passes(fields: map<Field, string>) {
    TestsStatus in fields && fields[TestsStatus] == "passed" &&
    ReviewStatus in fields && fields[ReviewStatus] == "approved"
  }

  predicate GatesOk(agent: string, fields: map<Field, string>) { Gated(agent) ==> Passes(fields) }

  function Committed(op: Op, fault: Fault): Option<Op> { if fault.LostBefore? then None else Some(op) }

  /** The answer the caller sees: the database's, or the name of the exception raised instead. */
  ghost function Answer(t: Tables, op: Op, fault: Fault): Option<Reply> {
    if fault.Answered? then Some(Apply(t, op).reply) else None
  }

  function ErrorName(fault: Fault): string { if fault.Answered? then "RuntimeError" else fault.error }

  /** Entering the `except` branch: stop the pulse and wait for it. */
  function Fails(w: Worker, exc: Exception): Worker { w.(stop := true, main := Joining(WithException(exc))) }

  function Posted(w: Worker): Worker { w.(calls := w.calls + [PostCall]) }

  function Finishing(w: Worker, status: Status): Worker {
    w.(calls := w.calls + [FinishCall], finishes := w.finishes + [status])
  }

  function Announcement(c: Context): Event { Event(c.run, c.issue, c.agent, AgentDispatched, map[]) }

  function CompleteOp(c: Context, result: ExecutionResult): Op {
    Finish(c.run, c.issue, Completed, ObjectFields(result.fields))
  }

  function ConcludeOp(c: Context, status: Status, error: string): Op {
    Finish(c.run, c.issue, status, ObjectFields(map[Error := error, ErrorCode := error]))
  }

  /** A step that neither is nor becomes another worker's and leaves the dispatcher's outcome alone. */
  predicate Keeps(w: Worker, v: Worker) { v.context == w.context && v.outcome == w.outcome }

  ghost function ClaimStep(cfg: Config, t: Tables, w: Worker, fault: Fault): (move: Move)
    ensures Keeps(w, move.worker)
  {
    var op := Claim(w.context, cfg.ttl);
    match Answer(t, op, fault)
    case Some(Yes) => Move(w.(main := Starting, leasedAt := t.now), Some(op))
    case Some(No) => Move(w.(main := Ended(Conflict)), Some(op))
    case Some(Raised) => Move(w.(main := Ended(ClaimRefused)), Some(op))
    case None => Move(w.(main := Ended(ClaimUnanswered(fault.error))), Committed(op, fault))
  }

  ghost function AnnounceStep(w: Worker, fault: Fault): (move: Move)
    ensures Keeps(w, move.worker)
  {
    var op := Post(Announcement(w.context));
    Move(if fault.Answered? then Posted(w).(main := Dispatching) else Fails(Posted(w), OtherError(ErrorName(fault))),
         Committed(op, fault))
  }

  function DispatchStep(w: Worker, outcome: DispatchOutcome): Worker {
    match outcome
    case Finished(result) => w.(outcome := Some(outcome), stop := true, main := Joining(WithResult(result)))
    case Failing(exc) => Fails(w.(outcome := Some(outcome)), exc)
  }

  /** After the join: validate and deduplicate the observed events, or go on without any. A failure to
      report the events of an exception is blamed in its place, but the exception itself is raised. */
  ghost function JoinStep(cfg: Config, w: Worker, next: Then): (v: Worker)
    ensures Keeps(w, v)
  {
    match next
    case WithResult(result) =>
      (match Plan(cfg.policy, result.events)
       case None => Fails(w, OtherError("PayloadValidationError"))
       case Some(queue) => w.(main := Persisting(queue, next)))
    case WithException(EventError(_, events)) =>
      (match Plan(cfg.policy, events)
       case None => w.(main := Settling(next.exc, OtherError("PayloadValidationError")))
       case Some(queue) => w.(main := Persisting(queue, next)))
    case WithException(exc) => w.(main := Settling(exc, exc))
  }

  function PersistStep(w: Worker, queue: seq<Entry>, next: Then, fault: Fault): (move: Move)
    ensures Keeps(w, move.worker)
  {
    if queue == [] then
      Move(w.(main := match next
              case WithResult(result) => Checking(result)
              case WithException(exc) => Settling(exc, exc)), None)
    else
      var op := Post(Row(w.context, queue[0]));
      if fault.Answered? then Move(Posted(w).(main := Persisting(queue[1..], next)), Some(op))
      else
        var exc := OtherError(ErrorName(fault));
        Move(if next.WithResult? then Fails(Posted(w), exc) else Posted(w).(main := Settling(next.exc, exc)),
             Committed(op, fault))
  }

  function CheckStep(w: Worker, result: ExecutionResult): (v: Worker)
    ensures Keeps(w, v)
  {
    if w.beatFailed then Fails(w, OtherError("RuntimeError"))
    else if !GatesOk(w.context.agent, result.fields) then Fails(w, BlockedError)
    else w.(main := EnteringReview(result))
  }

  ghost function CompleteStep(t: Tables, w: Worker, result: ExecutionResult, fault: Fault): (move: Move)
    ensures Keeps(w, move.worker)
  {
    var op := CompleteOp(w.context, result);
    Move(if Answer(t, op, fault) == Some(Yes) then Finishing(w, Completed).(main := Ended(Returned))
         else Fails(Finishing(w, Completed), OtherError(ErrorName(fault))),
         Committed(op, fault))
  }

  function SettleStep(w: Worker, exc: Exception, blamed: Exception): (v: Worker)
    ensures Keeps(w, v)
  {
    match blamed
    case BlockedError => w.(main := MarkingBlocked)
    case EventError(errorType, _) => w.(main := Concluding(Failed, errorType, exc))
    case OtherError(name) => w.(main := Concluding(Failed, name, exc))
  }

  /** The last `finish`: the exception that led here is raised again, unless the call itself raises. */
  ghost function ConcludeStep(t: Tables, w: Worker, status: Status, error: string, exc: Exception, fault: Fault):
    (move: Move)
    ensures Keeps(w, move.worker)
  {
    var op := ConcludeOp(w.context, status, error);
    var answer := Answer(t, op, fault);
    Move(Finishing(w, status).(main := Ended(Concluded(answer,
           if answer == Some(Yes) then exc else OtherError(ErrorName(fault))))),
         Committed(op, fault))
  }

  /** One step of the main thread, or None when the thread cannot take this input now. */
  ghost function MainStep(cfg: Config, t: Tables, w: Worker, input: Input): Option<Move> {
    match (w.main, input)
    case (Claiming, Go(fault)) => Some(ClaimStep(cfg, t, w, fault))
    case (Starting, Launch(None)) => Some(Move(w.(main := EnteringProgress, pulse := Waiting(t.now)), None))
    case (Starting, Launch(Some(error))) => Some(Move(w.(main := Ended(PulseFailed(error))), None))
    case (EnteringProgress, Callback("In Progress", None)) => Some(Move(w.(main := Announcing), None))
    case (EnteringProgress, Callback("In Progress", Some(exc))) =>
      if Admissible(exc) then Some(Move(Fails(w, exc), None)) else None
    case (Announcing, Go(fault)) => Some(AnnounceStep(w, fault))
    case (Dispatching, Dispatched(outcome)) =>
      if AllKanban(EventsOf(outcome)) then Some(Move(DispatchStep(w, outcome), None)) else None
    case (Joining(next), Go(Answered)) => if w.pulse == Exited then Some(Move(JoinStep(cfg, w, next), None)) else None
    case (Persisting(queue, next), Go(fault)) =>
      if queue != [] || fault.Answered? then Some(PersistStep(w, queue, next, fault)) else None
    case (Checking(result), Go(Answered)) => Some(Move(CheckStep(w, result), None))
    case (EnteringReview(result), Callback("In Review", None)) => Some(Move(w.(main := Completing(result)), None))
    case (EnteringReview(_), Callback("In Review", Some(exc))) =>
      if Admissible(exc) then Some(Move(Fails(w, exc), None)) else None
    case (Completing(result), Go(fault)) => Some(CompleteStep(t, w, result, fault))
    case (Settling(exc, blamed), Go(Answered)) => Some(Move(SettleStep(w, exc, blamed), None))
    case (MarkingBlocked, Callback("Blocked", None)) =>
      Some(Move(w.(main := Concluding(Blocked, "ExecutionBlocked", BlockedError)), None))
    case (MarkingBlocked, Callback("Blocked", Some(exc))) => Some(Move(w.(main := Ended(CallbackRaised(exc))), None))
    case (Concluding(status, error, exc), Go(fault)) => Some(ConcludeStep(t, w, status, error, exc, fault))
    case _ => None
  }

  /** Dispatchers and callbacks report Kanban events only, as the adapter does. */
  predicate Admissible(exc: Exception) { exc.EventError? ==> AllKanban(exc.events) }

  /** One step of the heartbeat thread. */
  ghost function PulseStep(cfg: Config, t: Tables, w: Worker, fault: Fault): Option<Move> {
    match w.pulse
    case Waiting(since) =>
      if w.stop then Some(Move(w.(pulse := Exited), None))
      else if t.now >= since + cfg.heartbeat * SECOND
      then Some(Move(w.(pulse := Calling(t.now), calls := w.calls + [BeatCall]), None))
      else None
    case Calling(since) =>
      var op := Heartbeat(w.context.run, w.context.issue, cfg.ttl);
      if Answer(t, op, fault) == Some(Yes)
      then Some(Move(w.(pulse := Replied(since), leasedAt := t.now), Some(op)))
      else Some(Move(w.(pulse := Exited, beatFailed := true), Committed(op, fault)))
    case Replied(_) => Some(Move(w.(pulse := Waiting(t.now)), None))
    case _ => None
  }

  /** The process is killed or interrupted: both threads are gone and nothing more is written. */
  function CrashStep(w: Worker): Option<Move> {
    if w.main.Ended? then None
    else Some(Move(w.(main := Ended(Crashed), pulse := if w.pulse.NotStarted? then NotStarted else Exited), None))
  }

  ghost function Transact(s: System, op: Op): System {
    s.(tables := Apply(s.tables, op).after, ops := s.ops + [op])
  }

  ghost function Take(s: System, run: string, move: Option<Move>): System {
    if move.None? then s
    else
      var stepped := s.(workers := s.workers[run := move.value.worker]);
      if move.value.op.None? then stepped else Transact(stepped, move.value.op.value)
  }

  function Hear(s: System, run: string, input: Input): (u: System)
    ensures u.tables == s.tables && u.workers == s.workers && u.ops == s.ops
  {
    s.(heard := s.heard[run := HeardBy(s, run) + [input]])
  }

  /** The answer of a heartbeat call that was under way in `before`. */
  ghost function Beat(cfg: Config, before: System, s: System, run: string, fault: Fault): (u: System)
    requires run in before.workers
    ensures u.tables == s.tables && u.workers == s.workers && u.ops == s.ops
  {
    var w := before.workers[run];
    if !w.pulse.Calling? then s
    else
      var op := Heartbeat(w.context.run, w.context.issue, cfg.ttl);
      s.(beats := s.beats[run := BeatsOf(s, run) + [Answer(before.tables, op, fault)]])
  }

  ghost function Do(cfg: Config, s: System, a: Action): System {
    match a
    case Spawn(c) =>
      if c.run in s.workers then s
      else s.(workers := s.workers[c.run := NewWorker(c)])
    case MainMove(run, input) =>
      if run in s.workers && MainStep(cfg, s.tables, s.workers[run], input).Some?
      then Hear(Take(s, run, MainStep(cfg, s.tables, s.workers[run], input)), run, input) else s
    case PulseMove(run, fault) =>
      if run in s.workers && PulseStep(cfg, s.tables, s.workers[run], fault).Some?
      then Beat(cfg, s, Take(s, run, PulseStep(cfg, s.tables, s.workers[run], fault)), run, fault) else s
    case Crash(run) => if run in s.workers then Take(s, run, CrashStep(s.workers[run])) else s
    case RecoverIssue(issue) => Transact(s, Recover(issue))
    case OperatorRelease(issue) => Transact(s, Release(issue))
    case Pass(elapsed) => Transact(s, Tick(elapsed))
  }

  const Initial := System(Empty, map[], [], map[], map[])

  ghost function Exec(cfg: Config, actions: seq<Action>): System {
    if actions == [] then Initial
    else Do(cfg, Exec(cfg, actions[..|actions| - 1]), actions[|actions| - 1])
  }
}
