/** Why a live heartbeat thread never loses its lease: the arithmetic behind the constructor check of
    `AgentRuntime`, for every worker that is timely itself, among others that may not be.

    A worker is timely for `delay` and `pause` (both in microseconds) when in every state none of its store
    calls has been pending for more than `delay` and no heartbeat wait has lasted more than `pause`. */
module LeaseTiming {
  import opened Options
  import opened Execution
  import opened Lease
  import opened LeaseHistory
  import opened Workers
  import opened WorkerSafety

  predicate Live(w: Worker) { w.main == Starting || w.pulse.Waiting? || w.pulse.Calling? || w.pulse.Replied? }

  predicate TimelyWorker(w: Worker, now: int, delay: int, pause: int) {
    && (w.main == Starting ==> now - w.leasedAt <= delay)
    && (w.pulse.Waiting? ==> now - w.pulse.since <= pause)
    && (w.pulse.Calling? || w.pulse.Replied? ==> now - w.pulse.since <= delay)
  }

  predicate TimelyIn(s: System, run: string, delay: int, pause: int) {
    run in s.workers ==> TimelyWorker(s.workers[run], s.tables.now, delay, pause)
  }

  /** One worker is timely in every state on the way, however the others hang or stall. */
  ghost predicate TimelyFor(cfg: Config, actions: seq<Action>, run: string, delay: int, pause: int) {
    forall k :: 0 <= k <= |actions| ==> TimelyIn(Exec(cfg, actions[..k]), run, delay, pause)
  }

  /** Every worker is timely in this state, or in every state on the way. */
  ghost predicate Timely(s: System, delay: int, pause: int) { forall run :: TimelyIn(s, run, delay, pause) }

  ghost predicate TimelyRun(cfg: Config, actions: seq<Action>, delay: int, pause: int) {
    forall run :: TimelyFor(cfg, actions, run, delay, pause)
  }

  /** How long ago the last lease of a live pulse can have been granted, phase by phase. */
  predicate LeaseFresh(w: Worker, now: int, delay: int, pause: int) {
    && w.leasedAt <= now
    && (w.pulse.Waiting? ==> w.pulse.since - w.leasedAt <= delay && w.pulse.since <= now)
    && (w.pulse.Calling? ==> w.pulse.since - w.leasedAt <= delay + pause && w.pulse.since <= now)
    && (w.pulse.Replied? ==> w.pulse.since <= w.leasedAt)
  }

  predicate HoldsLease(cfg: Config, t: Tables, w: Worker) {
    Owns(t, w.context.run, w.context.issue) && TtlOk(cfg.ttl) &&
    t.locks[w.context.issue].expiresAt == w.leasedAt + cfg.ttl * SECOND
  }

  predicate LeaseOk(cfg: Config, t: Tables, w: Worker, delay: int, pause: int) {
    Live(w) ==> LeaseFresh(w, t.now, delay, pause) && HoldsLease(cfg, t, w)
  }

  predicate LeaseIn(cfg: Config, s: System, run: string, delay: int, pause: int) {
    run in s.workers ==> LeaseOk(cfg, s.tables, s.workers[run], delay, pause)
  }

  predicate DelaysFit(cfg: Config, delay: int, pause: int) {
    0 <= delay && 0 <= pause && delay + pause + delay < cfg.ttl * SECOND
  }

  /** In a timely state a live lease has not expired. */
  lemma LiveLeaseUnexpired(cfg: Config, t: Tables, w: Worker, delay: int, pause: int)
    requires DelaysFit(cfg, delay, pause) && Live(w)
    requires LeaseOk(cfg, t, w, delay, pause) && TimelyWorker(w, t.now, delay, pause)
    ensures t.locks[w.context.issue].expiresAt > t.now
  {
  }

  /** What others can do to an unexpired lock: nothing. */
  lemma ForeignLock(cfg: Config, t: Tables, op: Op, w: Worker)
    requires TablesOk(t) && HoldsLease(cfg, t, w) && t.locks[w.context.issue].expiresAt > t.now
    requires Foreign(op, w.context.run)
    ensures HoldsLease(cfg, Apply(t, op).after, w)
    ensures Apply(t, op).after.now == if op.Tick? then t.now + op.elapsed else t.now
  {
    hide Holder, ClaimEvents, StoredColumns, FinalPayload, FinishEvents, RecoverEvents;
  }

  /** Starting the heartbeat thread carries the lease of the claim over to it; no other plain step of the main
      thread wakes it. */
  lemma PlainLease(cfg: Config, t: Tables, w: Worker, input: Input, delay: int, pause: int)
    requires PlainPoint(w.main) && ThreadsOk(w) && MainStep(cfg, t, w, input).Some?
    requires LeaseOk(cfg, t, w, delay, pause) && TimelyWorker(w, t.now, delay, pause)
    ensures var move := MainStep(cfg, t, w, input).value;
      move.op == None && LeaseOk(cfg, t, move.worker, delay, pause)
  {
    hide GatesOk, Admissible, HoldsLease, ClaimStep, AnnounceStep, JoinStep, PersistStep, CompleteStep, ConcludeStep;
    assert HoldsLease(cfg, t, w) ==> HoldsLease(cfg, t, MainStep(cfg, t, w, input).value.worker) by {
      SameLease(cfg, t, w, MainStep(cfg, t, w, input).value.worker);
    }
  }

  lemma SameLease(cfg: Config, t: Tables, w: Worker, v: Worker)
    ensures v.context == w.context && v.leasedAt == w.leasedAt ==> HoldsLease(cfg, t, w) ==> HoldsLease(cfg, t, v)
  {
  }

  lemma OwnMainLease(cfg: Config, t: Tables, w: Worker, input: Input, delay: int, pause: int)
    requires TablesOk(t) && WorkerOk(RowOf(t, w.context.run), w) && MainStep(cfg, t, w, input).Some?
    requires LeaseOk(cfg, t, w, delay, pause) && TimelyWorker(w, t.now, delay, pause)
    ensures var move := MainStep(cfg, t, w, input).value;
      LeaseOk(cfg, After(t, move.op), move.worker, delay, pause)
  {
    hide TablesOk, CallsOk, FinishesOk, DataOk, Apply, HoldsLease, LeaseFresh;
    hide JoinStep, AnnounceStep, PersistStep, CompleteStep, ConcludeStep, ClaimStep;
    if PlainPoint(w.main) {
      hide MainStep;
      PlainLease(cfg, t, w, input, delay, pause);
    } else {
      match w.main
      case Claiming => ClaimLease(cfg, t, w, input.fault, delay, pause);
      case Joining(next) => JoinedIsDead(cfg, w, next);
      case Announcing => AnnouncedLease(cfg, t, w, input.fault, delay, pause);
      case Persisting(queue, next) => PersistedIsDead(w, queue, next, input.fault);
      case Completing(result) => CompletedIsDead(t, w, result, input.fault);
      case Concluding(status, error, exc) => ConcludedIsDead(t, w, status, error, exc, input.fault);
    }
  }

  lemma ClaimLease(cfg: Config, t: Tables, w: Worker, fault: Fault, delay: int, pause: int)
    requires ThreadsOk(w) && w.main == Claiming
    ensures var move := ClaimStep(cfg, t, w, fault);
      LeaseOk(cfg, After(t, move.op), move.worker, delay, pause)
  {
    hide Holder, ClaimEvents, ClaimConflicts;
  }

  lemma JoinedIsDead(cfg: Config, w: Worker, next: Then)
    ensures w.main == Joining(next) && w.pulse == Exited ==> !Live(JoinStep(cfg, w, next))
  {
  }

  lemma AnnouncedLease(cfg: Config, t: Tables, w: Worker, fault: Fault, delay: int, pause: int)
    requires LeaseOk(cfg, t, w, delay, pause) && w.main == Announcing
    ensures var move := AnnounceStep(w, fault);
      LeaseOk(cfg, After(t, move.op), move.worker, delay, pause)
  {
  }

  lemma PersistedIsDead(w: Worker, queue: seq<Entry>, next: Then, fault: Fault)
    ensures w.main == Persisting(queue, next) && w.pulse == Exited ==>
      !Live(PersistStep(w, queue, next, fault).worker)
  {
  }

  lemma CompletedIsDead(t: Tables, w: Worker, result: ExecutionResult, fault: Fault)
    ensures w.pulse == Exited ==> !Live(CompleteStep(t, w, result, fault).worker)
  {
    hide Apply;
  }

  lemma ConcludedIsDead(t: Tables, w: Worker, status: Status, error: string, exc: Exception, fault: Fault)
    ensures w.pulse == Exited ==> !Live(ConcludeStep(t, w, status, error, exc, fault).worker)
  {
    hide Apply;
  }

  lemma OwnPulseLease(cfg: Config, t: Tables, w: Worker, fault: Fault, delay: int, pause: int)
    requires TablesOk(t) && ThreadsOk(w) && PulseStep(cfg, t, w, fault).Some?
    requires LeaseOk(cfg, t, w, delay, pause) && TimelyWorker(w, t.now, delay, pause)
    ensures var move := PulseStep(cfg, t, w, fault).value;
      LeaseOk(cfg, After(t, move.op), move.worker, delay, pause)
  {
  }

  lemma ForeignLease(cfg: Config, t: Tables, op: Op, w: Worker, delay: int, pause: int)
    requires TablesOk(t) && DelaysFit(cfg, delay, pause) && Foreign(op, w.context.run)
    requires LeaseOk(cfg, t, w, delay, pause) && TimelyWorker(w, t.now, delay, pause)
    ensures LeaseOk(cfg, Apply(t, op).after, w, delay, pause)
  {
    hide Apply, TablesOk;
    if Live(w) {
      LiveLeaseUnexpired(cfg, t, w, delay, pause);
      ForeignLock(cfg, t, op, w);
    }
  }

  lemma TransactLease(cfg: Config, s: System, op: Op, run: string, delay: int, pause: int)
    requires SystemOk(s) && DelaysFit(cfg, delay, pause) && (op.Recover? || op.Release? || op.Tick?)
    requires LeaseIn(cfg, s, run, delay, pause) && TimelyIn(s, run, delay, pause)
    ensures LeaseIn(cfg, Transact(s, op), run, delay, pause)
  {
    hide Apply, TablesOk, WorkerOk, Play, LeaseOk;
    if run in s.workers {
      ForeignLease(cfg, s.tables, op, s.workers[run], delay, pause);
    }
  }

  /** A step of `actor` keeps the lease of `run`, its own or that of another worker. */
  lemma TakeLease(cfg: Config, s: System, actor: string, move: Move, run: string, delay: int, pause: int)
    requires SystemOk(s) && DelaysFit(cfg, delay, pause) && actor in s.workers
    requires LeaseIn(cfg, s, run, delay, pause) && TimelyIn(s, run, delay, pause)
    requires move.op.Some? ==> By(move.op.value, actor)
    requires actor == run ==> LeaseOk(cfg, After(s.tables, move.op), move.worker, delay, pause)
    ensures LeaseIn(cfg, Take(s, actor, Some(move)), run, delay, pause)
  {
    hide Apply, TablesOk, WorkerOk, Play, LeaseOk;
    if actor != run && run in s.workers && move.op.Some? {
      ForeignLease(cfg, s.tables, move.op.value, s.workers[run], delay, pause);
    }
  }

  lemma DoLease(cfg: Config, s: System, a: Action, run: string, delay: int, pause: int)
    requires SystemOk(s) && DelaysFit(cfg, delay, pause)
    requires LeaseIn(cfg, s, run, delay, pause) && TimelyIn(s, run, delay, pause)
    ensures LeaseIn(cfg, Do(cfg, s, a), run, delay, pause)
  {
    hide Apply, TablesOk, WorkerOk, Play, MainStep, PulseStep, Hear, Beat, HoldsLease, LeaseFresh;
    match a
    case Spawn(c) =>
    case MainMove(actor, input) =>
      if actor in s.workers && MainStep(cfg, s.tables, s.workers[actor], input).Some? {
        assert ReportsOk(s.workers[actor]) by { OkParts(RowOf(s.tables, actor), s.workers[actor]); }
        MainStepIsOwn(cfg, s.tables, s.workers[actor], input);
        if actor == run { OwnMainLease(cfg, s.tables, s.workers[run], input, delay, pause); }
        TakeLease(cfg, s, actor, MainStep(cfg, s.tables, s.workers[actor], input).value, run, delay, pause);
      }
    case PulseMove(actor, fault) =>
      if actor in s.workers && PulseStep(cfg, s.tables, s.workers[actor], fault).Some? {
        PulseStepIsOwn(cfg, s.tables, s.workers[actor], fault);
        assert ThreadsOk(s.workers[actor]) by { OkParts(RowOf(s.tables, actor), s.workers[actor]); }
        if actor == run { OwnPulseLease(cfg, s.tables, s.workers[run], fault, delay, pause); }
        TakeLease(cfg, s, actor, PulseStep(cfg, s.tables, s.workers[actor], fault).value, run, delay, pause);
      }
    case Crash(actor) =>
      if actor in s.workers && CrashStep(s.workers[actor]).Some? {
        TakeLease(cfg, s, actor, CrashStep(s.workers[actor]).value, run, delay, pause);
      }
    case RecoverIssue(issue) => TransactLease(cfg, s, Recover(issue), run, delay, pause);
    case OperatorRelease(issue) => TransactLease(cfg, s, Release(issue), run, delay, pause);
    case Pass(elapsed) => TransactLease(cfg, s, Tick(elapsed), run, delay, pause);
  }

  lemma {:induction false} TimelyWorkerKeepsLease(cfg: Config, actions: seq<Action>, run: string, delay: int,
                                                  pause: int)
    requires DelaysFit(cfg, delay, pause) && TimelyFor(cfg, actions, run, delay, pause)
    ensures LeaseIn(cfg, Exec(cfg, actions), run, delay, pause)
  {
    hide Do, SystemOk, LeaseIn, TimelyIn;
    if actions != [] {
      var before := actions[..|actions| - 1];
      assert forall k :: 0 <= k <= |before| ==> before[..k] == actions[..k];
      TimelyWorkerKeepsLease(cfg, before, run, delay, pause);
      ExecIsOk(cfg, before);
      assert before == actions[..|before|];
      DoLease(cfg, Exec(cfg, before), actions[|actions| - 1], run, delay, pause);
    } else {
      NobodyYet(cfg, run, delay, pause);
    }
  }

  lemma NobodyYet(cfg: Config, run: string, delay: int, pause: int)
    ensures LeaseIn(cfg, Initial, run, delay, pause)
  {
  }

  /** While the pulse thread of a timely worker lives, its lock is its own and unexpired: no recovery
      removes it, no claim enters, and its next heartbeat is accepted, after any number of beats and
      whatever becomes of the other workers. */
  lemma LivePulseKeepsItsLease(cfg: Config, actions: seq<Action>, run: string, delay: int, pause: int)
    requires DelaysFit(cfg, delay, pause) && TimelyFor(cfg, actions, run, delay, pause)
    requires run in Exec(cfg, actions).workers && Live(Exec(cfg, actions).workers[run])
    ensures var s := Exec(cfg, actions); var c := s.workers[run].context;
      Owns(s.tables, run, c.issue) && s.tables.locks[c.issue].expiresAt > s.tables.now &&
      RecoverEffect(s.tables, c.issue) == Outcome(No, s.tables) &&
      HeartbeatEffect(s.tables, run, c.issue, cfg.ttl).reply == Yes
  {
    hide Exec, WorkerOk;
    TimelyWorkerKeepsLease(cfg, actions, run, delay, pause);
    ExecIsOk(cfg, actions);
    var s := Exec(cfg, actions);
    assert actions == actions[..|actions|];
    LiveLeaseUnexpired(cfg, s.tables, s.workers[run], delay, pause);
  }

  /** The constructor's check is enough when a store call takes at most half a heartbeat interval: every
      wait may then overrun the interval by any jitter below what the check leaves free. */
  lemma HalfIntervalCallsFit(cfg: Config, delay: int, jitter: int)
    requires ConfigOk(cfg) && 0 <= delay && delay + delay <= cfg.heartbeat * SECOND
    requires 0 <= jitter < (cfg.ttl - 2 * cfg.heartbeat) * SECOND
    ensures DelaysFit(cfg, delay, cfg.heartbeat * SECOND + jitter)
    ensures (cfg.ttl - 2 * cfg.heartbeat) * SECOND >= SECOND
  {
  }

  /** The heartbeat thread, step by step: it leaves at a wait once the stop event is set, starts a call only when
      the interval has passed and no stop is set, renews with the configured TTL, waits again from the moment of
      an accepted answer, and leaves for good, marking the failure, after any other. */
  lemma PulseDecides(cfg: Config, t: Tables, w: Worker, fault: Fault)
    ensures var step := PulseStep(cfg, t, w, fault);
      match w.pulse
      case Waiting(since) =>
        if w.stop then step == Some(Move(w.(pulse := Exited), None))
        else if t.now - since >= cfg.heartbeat * 1_000_000
        then step == Some(Move(w.(pulse := Calling(t.now), calls := w.calls + [BeatCall]), None))
        else step == None
      case Calling(since) =>
        var beat := Heartbeat(w.context.run, w.context.issue, cfg.ttl);
        step.Some? && step.value.op == (if fault.LostBefore? then None else Some(beat)) &&
        step.value.worker ==
          (if fault == Answered && Apply(t, beat).reply == Yes then w.(pulse := Replied(since), leasedAt := t.now)
           else w.(pulse := Exited, beatFailed := true))
      case Replied(_) => step == Some(Move(w.(pulse := Waiting(t.now)), None))
      case _ => step == None
  {
    hide Apply;
  }
}
