/** Where a tempting stronger claim is false: concrete runs and inputs, or the exact condition. */
module Limits {
  import opened Options
  import opened Payloads
  import opened Execution
  import opened Kanban
  import opened EventPipeline
  import opened KanbanContract
  import opened Lease
  import opened Workers
  import opened WorkerSafety
  import opened LeaseTiming
  import opened RunOutcomes
  import opened AuditContract
  import opened SystemAudit
  import opened Orchestrator
  import opened RunIds

  /** A first worker whose claim was just answered. */
  lemma StartingWorker(cfg: Config, c: Context, delay: nat, pause: nat) returns (actions: seq<Action>)
    requires TtlOk(cfg.ttl)
    ensures TimelyRun(cfg, actions, delay, pause)
    ensures var s := Exec(cfg, actions);
      s.tables.runs == map[c.run := ClaimedRun(Empty, c)] && s.tables.now == 0 &&
      s.tables.locks == map[c.issue := Lock(c.run, c.agent, cfg.ttl * SECOND, None)] &&
      s.workers == map[c.run := NewWorker(c).(main := Starting)]
  {
    hide ClaimEffect, ClaimedRun, Exec;
    var go := MainMove(c.run, Go(Answered));
    actions := [];
    assert Exec(cfg, []) == Initial by { NothingDone(cfg); }
    NothingIsTimely(cfg, delay, pause);
    TimelyAppends(cfg, actions, Spawn(c), delay, pause);
    ExecAppends(cfg, actions, Spawn(c));
    actions := actions + [Spawn(c)];
    assert ClaimEffect(Empty, c, cfg.ttl) == FirstClaim(c, cfg.ttl) by { FirstClaimSucceeds(c, cfg.ttl); }
    TimelyAppends(cfg, actions, go, delay, pause);
    ExecAppends(cfg, actions, go);
    actions := actions + [go];
  }

  /** One step of the main thread. */
  lemma MainMoved(cfg: Config, actions: seq<Action>, run: string, input: Input) returns (more: seq<Action>)
    requires var s := Exec(cfg, actions); run in s.workers && MainStep(cfg, s.tables, s.workers[run], input).Some?
    ensures var s, u := Exec(cfg, actions), Exec(cfg, more);
      var move := MainStep(cfg, s.tables, s.workers[run], input).value;
      u.workers == s.workers[run := move.worker] && u.tables == After(s.tables, move.op)
  {
    hide Exec, MainStep, Apply, Hear;
    ExecAppends(cfg, actions, MainMove(run, input));
    more := actions + [MainMove(run, input)];
  }

  /** One step of the heartbeat thread. */
  lemma PulseMoved(cfg: Config, actions: seq<Action>, run: string) returns (more: seq<Action>)
    requires var s := Exec(cfg, actions); run in s.workers && PulseStep(cfg, s.tables, s.workers[run], Answered).Some?
    ensures var s, u := Exec(cfg, actions), Exec(cfg, more);
      var move := PulseStep(cfg, s.tables, s.workers[run], Answered).value;
      u.workers == s.workers[run := move.worker] && u.tables == After(s.tables, move.op)
  {
    hide Exec, PulseStep, Apply, Beat;
    ExecAppends(cfg, actions, PulseMove(run, Answered));
    more := actions + [PulseMove(run, Answered)];
  }

  /** A worker whose claim was answered, with its heartbeat thread started. */
  lemma ClaimedWorker(cfg: Config, c: Context) returns (actions: seq<Action>)
    requires TtlOk(cfg.ttl)
    ensures var s := Exec(cfg, actions);
      s.tables.runs == map[c.run := ClaimedRun(Empty, c)] && s.tables.now == 0 &&
      s.tables.locks == map[c.issue := Lock(c.run, c.agent, cfg.ttl * SECOND, None)] &&
      s.workers == map[c.run := NewWorker(c).(main := EnteringProgress, pulse := Waiting(0))]
  {
    hide ClaimedRun, Exec, Do;
    actions := StartingWorker(cfg, c, 0, 0);
    actions := MainMoved(cfg, actions, c.run, Launch(None));
  }

  /** A worker about to post whose lock was recovered. */
  lemma RecoveredWorker(cfg: Config, c: Context) returns (actions: seq<Action>)
    requires TtlOk(cfg.ttl)
    ensures var s := Exec(cfg, actions); var t := s.tables;
      t.log != [] && t.log[|t.log| - 1].kind == LockRecovered && t.log[|t.log| - 1].run == c.run &&
      !Owns(t, c.run, c.issue) && s.workers == map[c.run := NewWorker(c).(main := Announcing, pulse := Waiting(0))]
  {
    hide ClaimEffect, Exec;
    actions := ClaimedWorker(cfg, c);
    var expire, recover := Pass(cfg.ttl * SECOND), RecoverIssue(c.issue);
    actions := MainMoved(cfg, actions, c.run, Callback("In Progress", None));
    ExecAppends(cfg, actions, expire);
    actions := actions + [expire];
    ExecAppends(cfg, actions, recover);
    actions := actions + [recover];
  }

  /** Posts are not lock-checked, so a worker whose lock was recovered still appends events of its run
      after the `lock.recovered` that closed it. */
  lemma ZombiePostsAfterItsRunIsClosed(cfg: Config, c: Context) returns (actions: seq<Action>)
    requires TtlOk(cfg.ttl)
    ensures var t := Exec(cfg, actions).tables;
      |t.log| >= 2 && !Owns(t, c.run, c.issue) &&
      t.log[|t.log| - 2].kind == LockRecovered && t.log[|t.log| - 2].run == c.run &&
      t.log[|t.log| - 1] == Announcement(c)
  {
    hide Exec, Do;
    actions := RecoveredWorker(cfg, c);
    actions := MainMoved(cfg, actions, c.run, Go(Answered));
  }

  /** A worker whose first status callback raised and whose heartbeat thread was joined. */
  lemma FailingWorker(cfg: Config, c: Context, exc: Exception) returns (actions: seq<Action>)
    requires TtlOk(cfg.ttl) && Admissible(exc)
    ensures var s := Exec(cfg, actions);
      s.tables.runs == map[c.run := ClaimedRun(Empty, c)] &&
      s.tables.locks == map[c.issue := Lock(c.run, c.agent, cfg.ttl * SECOND, None)] &&
      s.workers == map[c.run := NewWorker(c).(main := Joining(WithException(exc)), pulse := Exited, stop := true)]
  {
    hide ClaimEffect, ClaimedRun, Exec, Do, AllKanban;
    actions := ClaimedWorker(cfg, c);
    actions := MainMoved(cfg, actions, c.run, Callback("In Progress", Some(exc)));
    actions := PulseMoved(cfg, actions, c.run);
  }

  /** Two steps later the worker blames the exception itself. */
  lemma SettledWorker(cfg: Config, c: Context, exc: Exception) returns (actions: seq<Action>)
    requires TtlOk(cfg.ttl) && !exc.EventError?
    ensures var s := Exec(cfg, actions);
      s.tables.runs == map[c.run := ClaimedRun(Empty, c)] && Owns(s.tables, c.run, c.issue) &&
      s.workers == map[c.run := SettleStep(NewWorker(c).(pulse := Exited, stop := true), exc, exc)]
  {
    hide ClaimEffect, ClaimedRun, JoinStep, SettleStep, Exec, Do;
    actions := FailingWorker(cfg, c, exc);
    FailureGoesOn(cfg, c, exc);
    actions := MainMoved(cfg, actions, c.run, Go(Answered));
    assert Exec(cfg, actions).workers ==
      map[c.run := NewWorker(c).(main := Settling(exc, exc), pulse := Exited, stop := true)];
    actions := MainMoved(cfg, actions, c.run, Go(Answered));
  }

  lemma FailureGoesOn(cfg: Config, c: Context, exc: Exception)
    requires !exc.EventError?
    ensures var w := NewWorker(c).(pulse := Exited, stop := true);
      JoinStep(cfg, w.(main := Joining(WithException(exc))), WithException(exc)) == w.(main := Settling(exc, exc)) &&
      SettleStep(w.(main := Settling(exc, exc)), exc, exc) == SettleStep(w, exc, exc)
  {
  }

  // ---------------------------------------------------------------- orphans

  /** A run of the worker of `c` ends as `how` and leaves its own run running under its lock. */
  ghost predicate OrphanedBy(cfg: Config, actions: seq<Action>, c: Context, how: Ending) {
    var s := Exec(cfg, actions);
    c.run in s.workers && s.workers[c.run].context == c && s.workers[c.run].main == Ended(how) && LeftOpen(s.tables, c)
  }

  /** Each of the endings that may leave an orphan does, in some run. */
  lemma OrphanIsReachable(cfg: Config, c: Context, how: Ending) returns (actions: seq<Action>)
    requires TtlOk(cfg.ttl) && MayLeaveOrphan(how)
    ensures OrphanedBy(cfg, actions, c, how)
  {
    hide Exec, MayLeaveOrphan, OrphanedBy;
    if how.ClaimUnanswered? || how.PulseFailed? || how.Crashed? {
      actions := EarlyOrphan(cfg, c, how);
    } else if how.CallbackRaised? {
      actions := CallbackOrphan(cfg, c, how.exc);
    } else {
      EndingsThatOrphan(how);
      actions := UnansweredOrphan(cfg, c, how.raised.name);
    }
  }

  lemma EndingsThatOrphan(how: Ending)
    requires MayLeaveOrphan(how) && !how.ClaimUnanswered? && !how.PulseFailed? && !how.Crashed? && !how.CallbackRaised?
    ensures how.Concluded? && how.answer == None && how.raised.OtherError?
  {
  }

  /** The claim's answer is lost, the heartbeat thread cannot be started, or the process dies. */
  lemma EarlyOrphan(cfg: Config, c: Context, how: Ending) returns (actions: seq<Action>)
    requires TtlOk(cfg.ttl) && (how.ClaimUnanswered? || how.PulseFailed? || how.Crashed?)
    ensures OrphanedBy(cfg, actions, c, how)
  {
    hide ClaimEffect, ClaimedRun, Exec;
    assert ClaimedRun(Empty, c).status == Running by { ClaimedRuns(c); }
    if how.ClaimUnanswered? {
      hide OrphanedBy;
      actions := UnclaimedOrphan(cfg, c, how.error);
    } else {
      actions := StartingWorker(cfg, c, 0, 0);
      var last := if how.PulseFailed? then MainMove(c.run, Launch(Some(how.error))) else Crash(c.run);
      ExecAppends(cfg, actions, last);
      actions := actions + [last];
    }
  }

  lemma UnclaimedOrphan(cfg: Config, c: Context, error: string) returns (actions: seq<Action>)
    requires TtlOk(cfg.ttl)
    ensures OrphanedBy(cfg, actions, c, ClaimUnanswered(error))
  {
    hide ClaimEffect, ClaimedRun, Exec;
    assert ClaimedRun(Empty, c).status == Running by { ClaimedRuns(c); }
    var lost := MainMove(c.run, Go(LostAfter(error)));
    assert Exec(cfg, []) == Initial by { NothingDone(cfg); }
    ExecAppends(cfg, [], Spawn(c));
    assert [] + [Spawn(c)] == [Spawn(c)];
    ExecAppends(cfg, [Spawn(c)], lost);
    assert ClaimEffect(Empty, c, cfg.ttl) == FirstClaim(c, cfg.ttl) by { FirstClaimSucceeds(c, cfg.ttl); }
    actions := [Spawn(c)] + [lost];
  }

  lemma ClaimedRuns(c: Context)
    ensures ClaimedRun(Empty, c).status == Running
  {
  }

  /** Moving the issue to `Blocked` raises, so `finish` is never called. */
  lemma CallbackOrphan(cfg: Config, c: Context, exc: Exception) returns (actions: seq<Action>)
    requires TtlOk(cfg.ttl)
    ensures OrphanedBy(cfg, actions, c, CallbackRaised(exc))
  {
    hide ClaimEffect, ClaimedRun, Exec, Do;
    ClaimedRuns(c);
    actions := SettledWorker(cfg, c, BlockedError);
    actions := MainMoved(cfg, actions, c.run, Callback("Blocked", Some(exc)));
  }

  /** The last finish is lost before it commits. */
  lemma UnansweredOrphan(cfg: Config, c: Context, error: string) returns (actions: seq<Action>)
    requires TtlOk(cfg.ttl)
    ensures OrphanedBy(cfg, actions, c, Concluded(None, OtherError(error)))
  {
    hide ClaimEffect, ClaimedRun, Exec, Do;
    ClaimedRuns(c);
    actions := SettledWorker(cfg, c, OtherError(error));
    actions := MainMoved(cfg, actions, c.run, Go(LostBefore(error)));
  }

  /** The endings that can leave an orphan are exactly these, so `NoOrphanAfterExecute` names every cause
      and no other. */
  lemma OrphanedExactly(cfg: Config, c: Context, how: Ending)
    requires TtlOk(cfg.ttl)
    ensures (exists actions :: OrphanedBy(cfg, actions, c, how)) <==> MayLeaveOrphan(how)
  {
    hide Exec, OrphanedBy, MayLeaveOrphan;
    if MayLeaveOrphan(how) {
      var actions := OrphanIsReachable(cfg, c, how);
    }
    if actions :| OrphanedBy(cfg, actions, c, how) {
      OrphanedEnding(cfg, actions, c, how);
    }
  }

  lemma OrphanedEnding(cfg: Config, actions: seq<Action>, c: Context, how: Ending)
    requires OrphanedBy(cfg, actions, c, how)
    ensures MayLeaveOrphan(how)
  {
    hide Exec;
    EndedWorkersTell(cfg, actions, c.run);
  }

  // ---------------------------------------------------------------- which results complete a run

  /** Answered posts empty the queue and touch nothing but the log. */
  lemma {:induction false} QueueDrains(cfg: Config, actions: seq<Action>, run: string) returns (more: seq<Action>)
    requires var s := Exec(cfg, actions); run in s.workers && s.workers[run].main.Persisting?
    ensures var s, u := Exec(cfg, actions), Exec(cfg, more); var w := s.workers[run];
      u.tables == s.tables.(log := u.tables.log) && run in u.workers &&
      u.workers[run] == w.(main := Persisting([], w.main.then_), calls := u.workers[run].calls)
    decreases |Exec(cfg, actions).workers[run].main.queue|
  {
    hide Exec, Do, Row;
    var s := Exec(cfg, actions);
    more := actions;
    if s.workers[run].main.queue != [] {
      more := MainMoved(cfg, actions, run, Go(Answered));
      more := QueueDrains(cfg, more, run);
    }
  }

  /** A worker that dispatched a result and joined its heartbeat thread. */
  lemma JoinedWorker(cfg: Config, c: Context, result: ExecutionResult) returns (actions: seq<Action>)
    requires TtlOk(cfg.ttl) && AllKanban(result.events)
    ensures var s := Exec(cfg, actions);
      s.tables.runs == map[c.run := ClaimedRun(Empty, c)] &&
      s.tables.locks == map[c.issue := Lock(c.run, c.agent, cfg.ttl * SECOND, None)] &&
      s.workers == map[c.run := NewWorker(c).(main := Joining(WithResult(result)), pulse := Exited, stop := true,
                                              calls := [PostCall], outcome := Some(Finished(result)))]
  {
    hide Exec, Do, ClaimedRun, AllKanban;
    actions := ClaimedWorker(cfg, c);
    var w := NewWorker(c).(pulse := Waiting(0));
    actions := MainMoved(cfg, actions, c.run, Callback("In Progress", None));
    assert Exec(cfg, actions).workers == map[c.run := w.(main := Announcing)];
    actions := MainMoved(cfg, actions, c.run, Go(Answered));
    assert Exec(cfg, actions).workers[c.run].calls == [PostCall];
    assert Exec(cfg, actions).workers == map[c.run := w.(main := Dispatching, calls := [PostCall])];
    actions := MainMoved(cfg, actions, c.run, Dispatched(Finished(result)));
    actions := PulseMoved(cfg, actions, c.run);
  }

  /** The worker of `c` holds its lock and stands at `main` with nothing failed so far. */
  ghost predicate Proceeds(cfg: Config, actions: seq<Action>, c: Context, main: MainPc, result: ExecutionResult) {
    var s := Exec(cfg, actions);
    s.tables.runs == map[c.run := ClaimedRun(Empty, c)] && Owns(s.tables, c.run, c.issue) && c.run in s.workers &&
    var w := s.workers[c.run];
    w.main == main && w.context == c && !w.beatFailed && w.outcome == Some(Finished(result))
  }

  /** All events posted and the gates passed: the worker goes on to its review. */
  lemma WorkerPassesGates(cfg: Config, posted: seq<Action>, c: Context, result: ExecutionResult)
    returns (actions: seq<Action>)
    requires Proceeds(cfg, posted, c, Persisting([], WithResult(result)), result) && GatesOk(c.agent, result.fields)
    ensures Proceeds(cfg, actions, c, EnteringReview(result), result)
  {
    hide Exec, Do, GatesOk, ClaimedRun;
    actions := MainMoved(cfg, posted, c.run, Go(Answered));
    actions := MainMoved(cfg, actions, c.run, Go(Answered));
  }

  /** The reviewed worker finishes and returns. */
  lemma WorkerReturns(cfg: Config, reviewed: seq<Action>, c: Context, result: ExecutionResult)
    returns (actions: seq<Action>)
    requires Proceeds(cfg, reviewed, c, EnteringReview(result), result)
    ensures CompletesWith(cfg, actions, c, Finished(result))
  {
    hide Exec, Do, FinishEffect, ClaimedRun;
    actions := MainMoved(cfg, reviewed, c.run, Callback("In Review", None));
    FirstFinishSucceeds(Exec(cfg, actions).tables, c, Completed, result.fields);
    actions := MainMoved(cfg, actions, c.run, Go(Answered));
  }

  /** A run in which the dispatcher of `c` handed back `outcome` and the run is stored as completed. */
  ghost predicate CompletesWith(cfg: Config, actions: seq<Action>, c: Context, outcome: DispatchOutcome) {
    var s := Exec(cfg, actions);
    c.run in s.workers && s.workers[c.run].context == c && s.workers[c.run].outcome == Some(outcome) &&
    c.run in s.tables.runs && s.tables.runs[c.run].status == Completed
  }

  lemma ResultCompletes(cfg: Config, c: Context, result: ExecutionResult) returns (actions: seq<Action>)
    requires TtlOk(cfg.ttl) && AllKanban(result.events)
    requires AllAccepted(cfg.policy, result.events) && GatesOk(c.agent, result.fields)
    ensures CompletesWith(cfg, actions, c, Finished(result))
  {
    hide Exec, Do, AllAccepted, GatesOk, ClaimedRun, AllKanban, Dedup, Normalize, CompletesWith;
    actions := JoinedWorker(cfg, c, result);
    actions := MainMoved(cfg, actions, c.run, Go(Answered));
    actions := QueueDrains(cfg, actions, c.run);
    actions := WorkerPassesGates(cfg, actions, c, result);
    actions := WorkerReturns(cfg, actions, c, result);
  }

  /** A result completes the run, in some interleaving, exactly when all its events validate and the gates
      of its agent pass; nothing else about the task is asked. */
  lemma ResultCompletesExactly(cfg: Config, c: Context, result: ExecutionResult)
    requires TtlOk(cfg.ttl) && AllKanban(result.events)
    ensures (exists actions :: CompletesWith(cfg, actions, c, Finished(result))) <==>
      AllAccepted(cfg.policy, result.events) && GatesOk(c.agent, result.fields)
  {
    hide Exec, AllAccepted, GatesOk, AllKanban;
    if AllAccepted(cfg.policy, result.events) && GatesOk(c.agent, result.fields) {
      var actions := ResultCompletes(cfg, c, result);
    }
    if actions :| CompletesWith(cfg, actions, c, Finished(result)) {
      CompletedRunsWereEarned(cfg, actions, c.run);
    }
  }

  /** A blocked task is meant to block its run. It completes the run instead exactly when its trace
      validates and the gates of its agent pass: always for an agent without gates, and for a gated one
      when the task reports both gates as passed. */
  lemma BlockedTaskCompletesExactly(cfg: Config, c: Context, polls: nat -> Read, n: nat)
    requires TtlOk(cfg.ttl) && SeenUpTo(polls, n) && polls(n).snapshot.status == "blocked"
    ensures (exists actions :: CompletesWith(cfg, actions, c, Verdict(c, polls, n))) <==>
      AllAccepted(cfg.policy, EventsOf(Verdict(c, polls, n))) && GatesOk(c.agent, MergedFields(polls(n).snapshot))
  {
    hide AllAccepted, GatesOk, CompletesWith, AllKanban, ClosingEvent, MergedFields;
    TraceShape(c, polls, n);
    ResultCompletesExactly(cfg, c, Verdict(c, polls, n).result);
  }

  const PASSING := map[TestsStatus := Text("passed"), ReviewStatus := Text("approved")]

  /** A concrete blocked task of a gated agent that completes its run. */
  lemma GatedBlockedTaskCompletes(cfg: Config, c: Context) returns (actions: seq<Action>)
    requires TtlOk(cfg.ttl) && ContextOk(cfg.policy, c) && c.agent == "dev-backend"
    requires !cfg.policy.sensitive("t_1") && !cfg.policy.sensitive("blocked")
    ensures var polls: nat -> Read := k => Seen(Snapshot("t_1", "blocked", None, PASSING, None));
      CompletesWith(cfg, actions, c, Verdict(c, polls, 0))
  {
    hide AllAccepted, CompletesWith, AllKanban, ClosingEvent, ContextOk, EventPayload, Changes, Exec;
    var polls: nat -> Read := k => Seen(Snapshot("t_1", "blocked", None, PASSING, None));
    TraceShape(c, polls, 0);
    TraceAcceptedExactly(cfg.policy, c, polls, 0);
    PassingReported(polls(0).snapshot);
    actions := ResultCompletes(cfg, c, Verdict(c, polls, 0).result);
  }

  lemma PassingReported(s: Snapshot)
    requires s.metadata == PASSING && s.latestRun == None
    ensures Passes(MergedFields(s))
  {
    MergePrecedence(s, TestsStatus);
    MergePrecedence(s, ReviewStatus);
  }

  lemma FirstFinishSucceeds(t: Tables, c: Context, status: Status, fields: map<Field, string>)
    requires t.runs == map[c.run := ClaimedRun(Empty, c)] && Owns(t, c.run, c.issue) && FinalStatus(status)
    ensures var outcome := FinishEffect(t, c.run, c.issue, status, ObjectFields(fields));
      outcome.reply == Yes && c.run in outcome.after.runs && outcome.after.runs[c.run].status == status
  {
    hide StoredColumns;
  }

  /** A done task without any test or review metadata is reported as a result with no fields, and completes
      the run of an agent without gates. */
  lemma UntestedTaskCompletes(cfg: Config, c: Context) returns (actions: seq<Action>)
    requires TtlOk(cfg.ttl) && ContextOk(cfg.policy, c) && !Gated(c.agent)
    requires !cfg.policy.sensitive("t_1") && !cfg.policy.sensitive("done")
    ensures var polls: nat -> Read := k => Seen(Snapshot("t_1", "done", None, map[], None));
      Verdict(c, polls, 0).Finished? && Verdict(c, polls, 0).result.fields == map[] &&
      CompletesWith(cfg, actions, c, Verdict(c, polls, 0))
  {
    hide AllAccepted, CompletesWith, AllKanban, ClosingEvent, ContextOk, EventPayload, Changes, Exec;
    var polls: nat -> Read := k => Seen(Snapshot("t_1", "done", None, map[], None));
    TraceShape(c, polls, 0);
    TraceAcceptedExactly(cfg.policy, c, polls, 0);
    NothingReported(polls(0).snapshot);
    actions := ResultCompletes(cfg, c, Verdict(c, polls, 0).result);
  }

  lemma NothingReported(s: Snapshot)
    ensures s.metadata == map[] && s.latestRun == None ==> MergedFields(s) == map[]
  {
  }

  const BOGUS := map[TestsStatus := Text("bogus")]

  /** A concrete blocked task whose completed run leaves a row the validator rejects: nobody checks the
      fields that a blocked task reports. */
  lemma BlockedTaskRowIsRejected(cfg: Config, c: Context) returns (actions: seq<Action>)
    requires TtlOk(cfg.ttl) && ContextOk(cfg.policy, c) && !Gated(c.agent)
    requires !cfg.policy.sensitive("t_1") && !cfg.policy.sensitive("blocked")
    ensures exists e :: e in Exec(cfg, actions).tables.log && e.kind == RunCompleted && !EventAccepted(cfg.policy, e)
  {
    hide AllAccepted, AllKanban, ClosingEvent, ContextOk, EventPayload, Changes, Exec, EventAccepted, FieldsOk;
    hide MergedFields;
    var polls: nat -> Read := k => Seen(Snapshot("t_1", "blocked", None, BOGUS, None));
    TraceShape(c, polls, 0);
    TraceAcceptedExactly(cfg.policy, c, polls, 0);
    actions := ResultCompletes(cfg, c, Verdict(c, polls, 0).result);
    BlockedTaskRow(cfg, actions, c, polls, 0);
    BogusIsReported(cfg.policy, polls(0).snapshot);
  }

  lemma BogusIsReported(policy: Policy, s: Snapshot)
    requires s.metadata == BOGUS && s.latestRun == None
    ensures !FieldsOk(policy, MergedFields(s))
  {
    MergePrecedence(s, TestsStatus);
  }

  // ---------------------------------------------------------------- run ids and the scan

  /** The scan ignores case, so it finds the word "secret" in these capitals wherever they stand. */
  ghost predicate ScansSecret(policy: Policy) {
    forall pre: string, post: string :: policy.sensitive(pre + "SECRET" + post)
  }

  const SECRET_BITS: nat := ((((25 * 32 + 14) * 32 + 12) * 32 + 24) * 32 + 14) * 32 + 26

  lemma LastDigit(value: nat, d: nat, width: nat)
    requires d < 32 && width > 0
    ensures Digits(value * 32 + d, width) == Digits(value, width - 1) + [ALPHABET[d]]
  {
    hide Digits;
    DigitsSplit(value * 32 + d, width);
    assert (value * 32 + d) / 32 == value && (value * 32 + d) % 32 == d;
    var s := Digits(value * 32 + d, width);
    assert s == s[..width - 1] + [s[width - 1]];
  }

  /** Random bits whose run id ends in a word of the scan. */
  lemma RunIdMaySpellSecret(policy: Policy)
    ensures SECRET_BITS < RANDOM_SPACE && NewRunId(0, SECRET_BITS)[24..] == "SECRET"
    ensures ScansSecret(policy) ==> policy.sensitive(NewRunId(0, SECRET_BITS))
  {
    hide Digits;
    LastDigit(0, 25, 21);
    LastDigit(25, 14, 22);
    LastDigit(25 * 32 + 14, 12, 23);
    LastDigit((25 * 32 + 14) * 32 + 12, 24, 24);
    LastDigit(((25 * 32 + 14) * 32 + 12) * 32 + 24, 14, 25);
    LastDigit((((25 * 32 + 14) * 32 + 12) * 32 + 24) * 32 + 14, 26, 26);
    var zeros := Digits(0, 20);
    assert Digits(SECRET_BITS, 26) == zeros + "SECRET";
    var id := NewRunId(0, SECRET_BITS);
    assert id == ("run_" + zeros) + "SECRET" + "";
  }

  /** Whatever the reason a run id fails the scan: when its lock expires and is recovered, the log holds a row
      the validator rejects. */
  lemma SensitiveRunIdIsLogged(cfg: Config, c: Context) returns (actions: seq<Action>)
    requires TtlOk(cfg.ttl) && cfg.policy.sensitive(c.run)
    ensures exists e :: (
      e in Exec(cfg, actions).tables.log && e.kind == LockRecovered && e.run == c.run && !EventAccepted(cfg.policy, e))
  {
    hide ClaimEffect, Exec, EventAccepted;
    actions := StartingWorker(cfg, c, 0, 0);
    var expire, recover := Pass(cfg.ttl * SECOND), RecoverIssue(c.issue);
    ExecAppends(cfg, actions, expire);
    actions := actions + [expire];
    ghost var t := Exec(cfg, actions).tables;
    ExecAppends(cfg, actions, recover);
    actions := actions + [recover];
    RecoveryAccepted(cfg.policy, c.issue, t.locks[c.issue]);
    var rows := RecoverEvents(c.issue, t.locks[c.issue]);
    assert Exec(cfg, actions).tables.log == t.log + rows;
    assert rows[1] in t.log + rows;
  }

  // ---------------------------------------------------------------- passes of the orchestrator

  lemma PassAppends(cfg: Config, c: Context, steps: seq<Step>, step: Step)
    ensures RunPass(cfg, [c], steps + [step]) == Advance(cfg, [c], RunPass(cfg, [c], steps), step)
  {
    assert (steps + [step])[..|steps|] == steps;
  }

  /** A pass over one decision that waits for its worker, which stands at `w`. */
  ghost predicate PassWaits(cfg: Config, c: Context, steps: seq<Step>, w: Worker) {
    var p := RunPass(cfg, [c], steps);
    p.phase == Executing && p.results == [] && p.done == [] && p.system.tables.now == 0 &&
    p.system.tables.runs == map[c.run := ClaimedRun(Empty, c)] &&
    p.system.tables.locks == map[c.issue := Lock(c.run, c.agent, cfg.ttl * SECOND, None)] &&
    p.system.workers == map[c.run := w]
  }

  /** The waiting pass while its worker takes one step that commits nothing. */
  lemma PassMoved(cfg: Config, c: Context, steps: seq<Step>, w: Worker, input: Input) returns (more: seq<Step>)
    requires PassWaits(cfg, c, steps, w)
    requires var move := MainStep(cfg, RunPass(cfg, [c], steps).system.tables, w, input);
      move.Some? && move.value.op == None
    ensures var move := MainStep(cfg, RunPass(cfg, [c], steps).system.tables, w, input);
      PassWaits(cfg, c, more, move.value.worker) &&
      RunPass(cfg, [c], more).system.tables == RunPass(cfg, [c], steps).system.tables
  {
    hide RunPass, MainStep, ClaimedRun;
    var step := Elsewhere(MainMove(c.run, input));
    PassAppends(cfg, c, steps, step);
    more := steps + [step];
  }

  lemma PassClaims(cfg: Config, c: Context) returns (steps: seq<Step>)
    requires TtlOk(cfg.ttl)
    ensures PassWaits(cfg, c, steps, NewWorker(c).(main := Starting))
  {
    hide ClaimEffect, ClaimedRun, RunPass;
    steps := [];
    assert RunPass(cfg, [c], []) == PassState(Initial, [], [], Recovering) by { NoSteps(cfg, c); }
    PassAppends(cfg, c, steps, Recovery(Answered));
    steps := steps + [Recovery(Answered)];
    PassAppends(cfg, c, steps, Enter);
    steps := steps + [Enter];
    var claim := Elsewhere(MainMove(c.run, Go(Answered)));
    assert RunPass(cfg, [c], steps).system.tables == Empty;
    assert ClaimEffect(Empty, c, cfg.ttl) == FirstClaim(c, cfg.ttl) by { FirstClaimSucceeds(c, cfg.ttl); }
    PassAppends(cfg, c, steps, claim);
    steps := steps + [claim];
  }

  lemma NoSteps(cfg: Config, c: Context)
    ensures RunPass(cfg, [c], []) == PassState(Initial, [], [], Recovering)
  {
  }

  /** The post of `agent.dispatched` is answered with status 409. */
  lemma PassMeetsConflict(cfg: Config, c: Context) returns (steps: seq<Step>)
    requires TtlOk(cfg.ttl)
    ensures PassWaits(cfg, c, steps,
      NewWorker(c).(main := Joining(WithException(OtherError(CONFLICT))), pulse := Exited, stop := true,
                    calls := [PostCall]))
  {
    hide ClaimedRun, RunPass;
    steps := PassClaims(cfg, c);
    var w := NewWorker(c).(pulse := Waiting(0));
    steps := PassMoved(cfg, c, steps, NewWorker(c).(main := Starting), Launch(None));
    steps := PassMoved(cfg, c, steps, w.(main := EnteringProgress), Callback("In Progress", None));
    assert [] + [PostCall] == [PostCall];
    steps := PassMoved(cfg, c, steps, w.(main := Announcing), Go(LostBefore(CONFLICT)));
    var leave := Elsewhere(PulseMove(c.run, Answered));
    PassAppends(cfg, c, steps, leave);
    steps := steps + [leave];
  }

  const CONFLICTED := OtherError(CONFLICT)

  function ConcludingWorker(c: Context): Worker {
    NewWorker(c).(main := Concluding(Failed, CONFLICT, CONFLICTED), pulse := Exited, stop := true, calls := [PostCall])
  }

  lemma PassConcludes(cfg: Config, c: Context) returns (steps: seq<Step>)
    requires TtlOk(cfg.ttl)
    ensures PassWaits(cfg, c, steps, ConcludingWorker(c))
  {
    hide ClaimedRun, RunPass;
    steps := PassMeetsConflict(cfg, c);
    var w := ConcludingWorker(c);
    steps := PassMoved(cfg, c, steps, w.(main := Joining(WithException(CONFLICTED))), Go(Answered));
    steps := PassMoved(cfg, c, steps, w.(main := Settling(CONFLICTED, CONFLICTED)), Go(Answered));
  }

  /** The last `finish` is accepted and the conflict raised again. */
  lemma PassFinishes(cfg: Config, c: Context) returns (steps: seq<Step>)
    requires TtlOk(cfg.ttl)
    ensures var p := RunPass(cfg, [c], steps);
      Waits([c], p, Concluded(Some(Yes), CONFLICTED)) && p.results == [] &&
      c.run in p.system.tables.runs && p.system.tables.runs[c.run].status == Failed
  {
    hide ClaimedRun, RunPass, FinishEffect;
    steps := PassConcludes(cfg, c);
    var go := Elsewhere(MainMove(c.run, Go(Answered)));
    var fields := map[Error := CONFLICT, ErrorCode := CONFLICT];
    FirstFinishSucceeds(RunPass(cfg, [c], steps).system.tables, c, Failed, fields);
    PassAppends(cfg, c, steps, go);
    steps := steps + [go];
  }

  /** A conflict is also reported of a run that exists: any call answered with 409 after the claim raises
      `RunConflict`, the run is finished as failed, and the pass goes on. */
  lemma LateConflictIsReported(cfg: Config, c: Context) returns (steps: seq<Step>)
    requires TtlOk(cfg.ttl)
    ensures var p := RunPass(cfg, [c], steps);
      p.phase == Recovering && p.results == [RunResult(c.issue, ConflictRun, None)] &&
      c.run in p.system.tables.runs && p.system.tables.runs[c.run].status == Failed
  {
    hide RunPass, Advance;
    steps := PassFinishes(cfg, c);
    CollectDecides(cfg, [c], RunPass(cfg, [c], steps), Concluded(Some(Yes), CONFLICTED), false);
    PassAppends(cfg, c, steps, Collect(false));
    steps := steps + [Collect(false)];
  }

  /** The lease expires and somebody recovers the issue just before the worker finishes. */
  lemma PassLosesLock(cfg: Config, c: Context) returns (steps: seq<Step>)
    requires TtlOk(cfg.ttl)
    ensures var p := RunPass(cfg, [c], steps);
      p.phase == Executing && p.results == [] && c.run in p.system.tables.runs &&
      p.system.tables.runs[c.run].status == Failed && c.issue !in p.system.tables.locks &&
      p.system.workers == map[c.run := ConcludingWorker(c)]
  {
    hide RunPass, ConcludingWorker;
    steps := PassConcludes(cfg, c);
    var expire, recover := Elsewhere(Pass(cfg.ttl * SECOND)), Elsewhere(RecoverIssue(c.issue));
    PassAppends(cfg, c, steps, expire);
    steps := steps + [expire];
    PassAppends(cfg, c, steps, recover);
    steps := steps + [recover];
  }

  /** Recovered in the middle of its run, the worker's finish is refused and the whole pass is aborted. */
  lemma RecoveredRunAborts(cfg: Config, c: Context) returns (steps: seq<Step>)
    requires TtlOk(cfg.ttl)
    ensures var p := RunPass(cfg, [c], steps);
      p.phase == Aborted && p.results == [] &&
      c.run in p.system.tables.runs && p.system.tables.runs[c.run].status == Failed
  {
    hide RunPass;
    steps := PassLosesLock(cfg, c);
    var go := Elsewhere(MainMove(c.run, Go(Answered)));
    PassAppends(cfg, c, steps, go);
    steps := steps + [go];
    PassAppends(cfg, c, steps, Collect(false));
    steps := steps + [Collect(false)];
  }

  lemma TimelyAppends(cfg: Config, actions: seq<Action>, a: Action, delay: int, pause: int)
    requires TimelyRun(cfg, actions, delay, pause) && Timely(Do(cfg, Exec(cfg, actions), a), delay, pause)
    ensures TimelyRun(cfg, actions + [a], delay, pause)
  {
    hide TimelyIn, Do;
    ExecAppends(cfg, actions, a);
    forall run
      ensures TimelyFor(cfg, actions + [a], run, delay, pause)
    {
      assert TimelyFor(cfg, actions, run, delay, pause);
      forall k | 0 <= k <= |actions + [a]|
        ensures TimelyIn(Exec(cfg, (actions + [a])[..k]), run, delay, pause)
      {
        if k <= |actions| {
          assert (actions + [a])[..k] == actions[..k];
        } else {
          assert (actions + [a])[..k] == actions + [a];
        }
      }
    }
  }

  /** A timely start in which the claim's answer takes `delay` to arrive. */
  lemma SlowStart(cfg: Config, c: Context, delay: nat, pause: nat) returns (actions: seq<Action>)
    requires TtlOk(cfg.ttl)
    ensures TimelyRun(cfg, actions, delay, pause)
    ensures var s := Exec(cfg, actions);
      s.tables.now == delay && s.tables.locks == map[c.issue := Lock(c.run, c.agent, cfg.ttl * SECOND, None)] &&
      s.workers == map[c.run := NewWorker(c).(main := EnteringProgress, pulse := Waiting(delay))]
  {
    hide ClaimedRun, Exec;
    var launch := MainMove(c.run, Launch(None));
    actions := StartingWorker(cfg, c, delay, pause);
    TimelyAppends(cfg, actions, Pass(delay), delay, pause);
    ExecAppends(cfg, actions, Pass(delay));
    actions := actions + [Pass(delay)];
    TimelyAppends(cfg, actions, launch, delay, pause);
    ExecAppends(cfg, actions, launch);
    actions := actions + [launch];
  }

  /** The bound of `LeaseTiming` is exact: when the delays do not fit the lease, there is a timely run
      in which a recovery takes the lock of a worker whose heartbeat thread is alive and calling. */
  lemma TooSlowCallsLoseTheLease(cfg: Config, c: Context, delay: nat, pause: nat) returns (actions: seq<Action>)
    requires TtlOk(cfg.ttl) && 0 <= cfg.heartbeat * SECOND <= pause && !DelaysFit(cfg, delay, pause)
    ensures TimelyRun(cfg, actions, delay, pause)
    ensures var s := Exec(cfg, actions);
      c.run in s.workers && s.workers[c.run].pulse.Calling? && RecoverEffect(s.tables, c.issue).reply == Yes
  {
    hide RecoverEffect, Exec, DelaysFit, MainStep;
    actions := SlowStart(cfg, c, delay, pause);
    TimelyAppends(cfg, actions, Pass(pause), delay, pause);
    ExecAppends(cfg, actions, Pass(pause));
    actions := actions + [Pass(pause)];
    TimelyAppends(cfg, actions, PulseMove(c.run, Answered), delay, pause);
    ExecAppends(cfg, actions, PulseMove(c.run, Answered));
    actions := actions + [PulseMove(c.run, Answered)];
    TimelyAppends(cfg, actions, Pass(delay), delay, pause);
    ExecAppends(cfg, actions, Pass(delay));
    actions := actions + [Pass(delay)];
    ExpiredIsRecovered(cfg, Exec(cfg, actions).tables, c.issue, delay, pause);
  }

  lemma ExpiredIsRecovered(cfg: Config, t: Tables, issue: string, delay: nat, pause: nat)
    requires issue in t.locks && t.locks[issue].expiresAt == cfg.ttl * SECOND && t.now == delay + pause + delay
    requires !DelaysFit(cfg, delay, pause)
    ensures RecoverEffect(t, issue).reply == Yes
  {
  }

  lemma NothingIsTimely(cfg: Config, delay: int, pause: int)
    ensures TimelyRun(cfg, [], delay, pause)
  {
  }

  function FirstClaim(c: Context, ttl: int): Outcome {
    Outcome(Yes, Tables(map[c.run := ClaimedRun(Empty, c)], map[c.issue := Lock(c.run, c.agent, ttl * SECOND, None)],
                        ClaimEvents(c, ttl, ttl * SECOND), 0))
  }

  lemma FirstClaimSucceeds(c: Context, ttl: int)
    requires TtlOk(ttl)
    ensures ClaimEffect(Empty, c, ttl) == FirstClaim(c, ttl)
  {
    hide ClaimEvents;
    assert [] + ClaimEvents(c, ttl, ttl * SECOND) == ClaimEvents(c, ttl, ttl * SECOND);
  }

  /** The constructor accepts lease times the database refuses: above a day no claim ever succeeds. */
  lemma LongLeasesNeverClaim(cfg: Config, t: Tables, c: Context)
    requires ConfigOk(cfg)
    ensures ClaimEffect(t, c, cfg.ttl).reply == Raised <==> cfg.ttl > 86400
  {
    hide Holder;
  }

  /** A finish may come after expiry: the worker still owns the lock as long as nobody recovered it. */
  lemma LateFinishIsAccepted(t: Tables, run: string, issue: string, later: nat, fields: map<Field, string>)
    requires TablesOk(t) && Owns(t, run, issue) && t.locks[issue].expiresAt <= t.now + later
    ensures var u := t.(now := t.now + later);
      u.locks[issue].expiresAt <= u.now && FinishEffect(u, run, issue, Completed, ObjectFields(fields)).reply == Yes
  {
    hide StoredColumns;
  }

  /** A task that already has an outcome when it is dispatched makes the whole trace unpostable, however
      it ends: `kanban.dispatched` has no field for the outcome. */
  lemma OutcomeAtDispatchRejectsTrace(policy: Policy, c: Context, polls: nat -> Read, n: nat)
    requires SeenUpTo(polls, n) && OutcomeOf(polls(0).snapshot).Some?
    ensures Plan(policy, EventsOf(Verdict(c, polls, n))) == None
  {
    hide AllAccepted, Verdict, OutcomeOf;
    TraceAcceptedExactly(policy, c, polls, n);
  }

  /** A status that is left and revisited with the same outcome is reported once. */
  lemma RevisitedStatusIsDropped(c: Context, a: Snapshot, b: Snapshot)
    requires a.status != b.status
    ensures var first, second := Plain(c, KanbanStatusChanged, a), Plain(c, KanbanStatusChanged, b);
      Dedup([first, second, first]) == [first, second]
  {
    hide EventPayload;
    var first, second := Plain(c, KanbanStatusChanged, a), Plain(c, KanbanStatusChanged, b);
    StatusInPayload(c, a);
    StatusInPayload(c, b);
    assert KeyOf(first) != KeyOf(second);
    var all := [first, second, first];
    assert all[..2] == [first, second] && all[..1] == [first] && [first, second][..1] == [first];
    assert FirstOfItsKey([first], 0) && [first][..0] == [];
    assert Dedup([first]) == [first];
    assert FirstOfItsKey([first, second], 1);
    assert Dedup([first, second]) == [first] + [second];
    assert !FirstOfItsKey(all, 2) by { assert KeyOf(all[0]) == KeyOf(all[2]); }
  }

  lemma StatusInPayload(c: Context, s: Snapshot)
    ensures var p := EventPayload(c, s, map[]);
      KanbanTaskId in p && TaskStatus in p && p[TaskStatus] == Text(s.status)
  {
  }
}
