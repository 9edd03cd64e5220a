/** One pass of `RuntimeOrchestrator.run_once` in `src/hermes_agent_runtime/orchestrator.py`, over the
    workers of the whole system: while it recovers, enters and waits, everybody else goes on. */
module Orchestrator {
  import opened Options
  import opened Payloads
  import opened Execution
  import opened Lease
  import opened LeaseHistory
  import opened Workers
  import opened WorkerSafety
  import opened RunRecords
  import opened RunOutcomes

  datatype RunStatus = CompletedRun | ConflictRun | BlockedRun

  datatype RunResult = RunResult(issue: string, status: RunStatus, run: Option<string>)

  /** What one iteration meets: whether recovery was answered, how `execute` ended, and whether the
      injected recorder of conflicts and blocks raised. */
  datatype Attempt = Attempt(recovered: bool, ending: Ending, recorderRaised: bool)

  /** What is reported of a decision; None when the exception is neither of the two that are caught. */
  function ResultOf(c: Context, how: Ending): Option<RunResult> {
    match RaisedBy(how)
    case Some(BlockedError) => Some(RunResult(c.issue, BlockedRun, None))
    case Some(OtherError(name)) => if name == CONFLICT then Some(RunResult(c.issue, ConflictRun, None)) else None
    case Some(EventError(_, _)) => None
    case None => if how.Returned? then Some(RunResult(c.issue, CompletedRun, Some(c.run))) else None
  }

  /** The result an iteration appends; None when an exception leaves the pass. */
  function Reported(c: Context, attempt: Attempt): Option<RunResult> {
    if !attempt.recovered then None
    else
      var result := ResultOf(c, attempt.ending);
      if result.Some? && result.value.status != CompletedRun && attempt.recorderRaised then None else result
  }

  /** `execute` raised `ExecutionBlocked`: its last `finish` was answered, or a callback raised it. */
  predicate RaisesBlocked(how: Ending) {
    (how.Concluded? && how.raised == BlockedError) || how == CallbackRaised(BlockedError)
  }

  /** `execute` raised `RunConflict`, wherever it arose. */
  predicate RaisesConflict(how: Ending) {
    how == Conflict || how == ClaimUnanswered("RunConflict") || how == PulseFailed("RunConflict") ||
    (how.Concluded? && how.raised == OtherError("RunConflict")) || how == CallbackRaised(OtherError("RunConflict"))
  }

  /** The three outcomes of an iteration that the loop survives. */
  predicate Survives(attempt: Attempt) {
    attempt.recovered &&
    (attempt.ending == Returned ||
     ((RaisesBlocked(attempt.ending) || RaisesConflict(attempt.ending)) && !attempt.recorderRaised))
  }

  /** What each of them appends. */
  predicate Appended(c: Context, how: Ending, result: RunResult) {
    (how == Returned ==> result == RunResult(c.issue, CompletedRun, Some(c.run))) &&
    (RaisesBlocked(how) ==> result == RunResult(c.issue, BlockedRun, None)) &&
    (RaisesConflict(how) ==> result == RunResult(c.issue, ConflictRun, None))
  }

  lemma ReportedExactly(c: Context, attempt: Attempt)
    ensures Reported(c, attempt).Some? <==> Survives(attempt)
    ensures Reported(c, attempt).Some? ==> Appended(c, attempt.ending, Reported(c, attempt).value)
  {
    assert |"RuntimeError"| != |"RunConflict"|;
  }

  /** The loop: recover, execute, record. It reports the longest prefix of decisions none of whose
      iterations raised, and is aborted exactly when that is not all of them. */
  method RunOnce(decisions: seq<Context>, attempts: seq<Attempt>) returns (results: seq<RunResult>, aborted: bool)
    requires |attempts| == |decisions|
    ensures |results| <= |decisions| && (aborted <==> |results| < |decisions|)
    ensures forall i :: 0 <= i < |results| ==> Reported(decisions[i], attempts[i]) == Some(results[i])
    ensures aborted ==> Reported(decisions[|results|], attempts[|results|]) == None
    ensures forall i :: 0 <= i < |results| ==>
      Survives(attempts[i]) && Appended(decisions[i], attempts[i].ending, results[i])
    ensures aborted ==> !Survives(attempts[|results|])
  {
    hide ResultOf, Survives, Appended;
    forall i | 0 <= i < |decisions| { ReportedExactly(decisions[i], attempts[i]); }
    results := [];
    for i := 0 to |decisions|
      invariant |results| == i
      invariant forall j :: 0 <= j < i ==> Reported(decisions[j], attempts[j]) == Some(results[j])
    {
      if !attempts[i].recovered {
        return results, true;
      }
      var result := ResultOf(decisions[i], attempts[i].ending);
      if result.None? {
        return results, true;
      }
      if result.value.status != CompletedRun {
        if attempts[i].recorderRaised {
          return results, true;
        }
      }
      results := results + [result.value];
    }
    return results, false;
  }

  // ---------------------------------------------------------------- the pass among everybody else

  datatype Phase = Recovering | Entering | Executing | Aborted

  /** `done` lists the attempts whose result was reported; the next decision is the one after them. */
  datatype PassState = PassState(system: System, done: seq<Attempt>, results: seq<RunResult>, phase: Phase)

  /** A step of the pass, or any action of the workers (its own included), the operator or the clock. */
  datatype Step = Elsewhere(action: Action) | Recovery(fault: Fault) | Enter | Collect(recorderRaised: bool)

  predicate HasNext(decisions: seq<Context>, p: PassState) { |p.results| < |decisions| }

  ghost function RecoveryStep(cfg: Config, c: Context, p: PassState, fault: Fault): PassState {
    PassState(if fault.LostBefore? then p.system else Do(cfg, p.system, RecoverIssue(c.issue)), p.done, p.results,
         if fault.Answered? then Entering else Aborted)
  }

  function CollectStep(c: Context, p: PassState, attempt: Attempt): PassState {
    match Reported(c, attempt)
    case None => p.(phase := Aborted)
    case Some(result) => PassState(p.system, p.done + [attempt], p.results + [result], Recovering)
  }

  ghost function Advance(cfg: Config, decisions: seq<Context>, p: PassState, step: Step): PassState {
    match step
    case Elsewhere(a) => p.(system := Do(cfg, p.system, a))
    case Recovery(fault) =>
      if p.phase == Recovering && HasNext(decisions, p) then RecoveryStep(cfg, decisions[|p.results|], p, fault) else p
    case Enter =>
      if p.phase == Entering && HasNext(decisions, p) && decisions[|p.results|].run !in p.system.workers
      then p.(system := Do(cfg, p.system, Spawn(decisions[|p.results|])), phase := Executing) else p
    case Collect(raised) =>
      if p.phase == Executing && HasNext(decisions, p) then
        var c := decisions[|p.results|];
        if c.run in p.system.workers && p.system.workers[c.run].main.Ended?
        then CollectStep(c, p, Attempt(true, p.system.workers[c.run].main.how, raised)) else p
      else p
  }

  ghost function RunPass(cfg: Config, decisions: seq<Context>, steps: seq<Step>): PassState {
    if steps == [] then PassState(Initial, [], [], Recovering)
    else Advance(cfg, decisions, RunPass(cfg, decisions, steps[..|steps| - 1]), steps[|steps| - 1])
  }

  lemma ExecAppends(cfg: Config, actions: seq<Action>, a: Action)
    ensures Exec(cfg, actions + [a]) == Do(cfg, Exec(cfg, actions), a)
  {
    assert (actions + [a])[..|actions|] == actions;
  }

  /** A pass is an interleaving of the workers like any other, so every theorem about `Exec` holds of the
      system at any point of it. */
  lemma {:induction false} PassIsExec(cfg: Config, decisions: seq<Context>, steps: seq<Step>)
    returns (actions: seq<Action>)
    ensures Exec(cfg, actions) == RunPass(cfg, decisions, steps).system
  {
    hide Do, CollectStep, Exec;
    actions := [];
    if steps == [] {
      assert Exec(cfg, []) == Initial by { NothingDone(cfg); }
    } else {
      var p, step := RunPass(cfg, decisions, steps[..|steps| - 1]), steps[|steps| - 1];
      actions := PassIsExec(cfg, decisions, steps[..|steps| - 1]);
      if Advance(cfg, decisions, p, step).system != p.system {
        var a := match step
          case Elsewhere(a) => a
          case Recovery(_) => RecoverIssue(decisions[|p.results|].issue)
          case _ => Spawn(decisions[|p.results|]);
        if step.Collect? { CollectLeavesSystem(cfg, decisions, p, step); }
        ExecAppends(cfg, actions, a);
        actions := actions + [a];
      }
    }
  }

  lemma NothingDone(cfg: Config)
    ensures Exec(cfg, []) == Initial
  {
  }

  lemma CollectLeavesSystem(cfg: Config, decisions: seq<Context>, p: PassState, step: Step)
    ensures step.Collect? ==> Advance(cfg, decisions, p, step).system == p.system
  {
    hide Reported;
  }

  // ---------------------------------------------------------------- the steps of a pass

  /** The worker of the next decision ended as `how`, and the pass waits for it. */
  ghost predicate Waits(decisions: seq<Context>, p: PassState, how: Ending) {
    p.phase == Executing && |p.results| < |decisions| && decisions[|p.results|].run in p.system.workers &&
    p.system.workers[decisions[|p.results|].run].main == Ended(how)
  }

  /** What a pass makes of an ended `execute`: a returned one is reported as completed, one raising
      `ExecutionBlocked` as blocked and one raising `RunConflict` as a conflict when the recorder did not raise,
      and the pass goes on to the next decision; in all other cases it is aborted and reports nothing. */
  lemma CollectDecides(cfg: Config, decisions: seq<Context>, p: PassState, how: Ending, raised: bool)
    requires Waits(decisions, p, how)
    ensures var q := Advance(cfg, decisions, p, Collect(raised)); var c := decisions[|p.results|];
      q.system == p.system &&
      (how == Returned ==> q.results == p.results + [RunResult(c.issue, CompletedRun, Some(c.run))]) &&
      (RaisesBlocked(how) && !raised ==> q.results == p.results + [RunResult(c.issue, BlockedRun, None)]) &&
      (RaisesConflict(how) && !raised ==> q.results == p.results + [RunResult(c.issue, ConflictRun, None)])
    ensures var q := Advance(cfg, decisions, p, Collect(raised));
      if how == Returned || ((RaisesBlocked(how) || RaisesConflict(how)) && !raised)
      then q.phase == Recovering && |q.results| == |p.results| + 1 && q.done == p.done + [Attempt(true, how, raised)]
      else q.phase == Aborted && q.results == p.results && q.done == p.done
  {
    hide RaisesBlocked, RaisesConflict, Reported;
    ReportedExactly(decisions[|p.results|], Attempt(true, how, raised));
  }

  /** A decision begins with the recovery of its issue, which takes effect unless the call was lost before it
      committed, and aborts the pass unless it was answered; then its worker is spawned. A pass without a next
      decision, or aborted, does nothing. */
  lemma DecisionBegins(cfg: Config, decisions: seq<Context>, p: PassState, fault: Fault)
    ensures |p.results| < |decisions| && p.phase == Recovering ==>
      var q := Advance(cfg, decisions, p, Recovery(fault));
      q.results == p.results && q.done == p.done && q.phase == (if fault == Answered then Entering else Aborted) &&
      q.system == if fault.LostBefore? then p.system else Do(cfg, p.system, RecoverIssue(decisions[|p.results|].issue))
    ensures |p.results| < |decisions| && p.phase == Entering && decisions[|p.results|].run !in p.system.workers ==>
      var q := Advance(cfg, decisions, p, Enter);
      q.results == p.results && q.done == p.done && q.phase == Executing &&
      q.system == Do(cfg, p.system, Spawn(decisions[|p.results|]))
    ensures p.phase == Aborted || |p.results| >= |decisions| ==>
      Advance(cfg, decisions, p, Recovery(fault)) == p && Advance(cfg, decisions, p, Enter) == p &&
      forall raised :: Advance(cfg, decisions, p, Collect(raised)) == p
  {
    hide Do;
  }

  // ---------------------------------------------------------------- ended workers stay ended

  predicate EndedAs(s: System, c: Context, how: Ending) {
    c.run in s.workers && s.workers[c.run].context == c && s.workers[c.run].main == Ended(how)
  }

  /** A worker that keeps its context, and itself once it has ended. */
  predicate Persists(w: Worker, v: Worker) { v.context == w.context && (w.main.Ended? ==> v == w) }

  lemma MainMovePersists(cfg: Config, t: Tables, w: Worker, input: Input)
    requires WorkerOk(RowOf(t, w.context.run), w) && MainStep(cfg, t, w, input).Some?
    ensures Persists(w, MainStep(cfg, t, w, input).value.worker)
  {
    hide WorkerOk, MainStep;
    OkParts(RowOf(t, w.context.run), w);
    MainStepIsOwn(cfg, t, w, input);
    if w.main.Ended? {
      EndedPulse(RowOf(t, w.context.run), w);
      EndedIsStill(cfg, t, w, input, Answered);
    }
  }

  lemma PulseMovePersists(cfg: Config, t: Tables, w: Worker, fault: Fault)
    requires WorkerOk(RowOf(t, w.context.run), w) && PulseStep(cfg, t, w, fault).Some?
    ensures Persists(w, PulseStep(cfg, t, w, fault).value.worker)
  {
    hide WorkerOk, PulseStep;
    PulseStepIsOwn(cfg, t, w, fault);
    if w.main.Ended? {
      EndedPulse(RowOf(t, w.context.run), w);
      EndedIsStill(cfg, t, w, Go(Answered), fault);
    }
  }

  lemma SamePersists(w: Worker)
    ensures Persists(w, w)
  {
  }

  lemma CrashPersists(w: Worker)
    ensures CrashStep(w).Some? ==> Persists(w, CrashStep(w).value.worker) && CrashStep(w).value.op == None
  {
  }

  lemma WorkerOfSystem(s: System, run: string)
    ensures SystemOk(s) && run in s.workers ==>
      s.workers[run].context.run == run && WorkerOk(RowOf(s.tables, run), s.workers[run])
  {
    hide WorkerOk, TablesOk, Play, AllFaithful;
  }

  lemma StepKeepsWorker(cfg: Config, s: System, a: Action, run: string)
    requires SystemOk(s) && run in s.workers
    ensures run in Do(cfg, s, a).workers && Persists(s.workers[run], Do(cfg, s, a).workers[run])
  {
    hide SystemOk, WorkerOk, Persists, Apply, MainStep, PulseStep, Hear, Beat, CrashStep;
    WorkerOfSystem(s, run);
    SamePersists(s.workers[run]);
    match a
    case MainMove(r, input) =>
      if r == run && MainStep(cfg, s.tables, s.workers[run], input).Some? {
        MainMovePersists(cfg, s.tables, s.workers[run], input);
      }
    case PulseMove(r, fault) =>
      if r == run && PulseStep(cfg, s.tables, s.workers[run], fault).Some? {
        PulseMovePersists(cfg, s.tables, s.workers[run], fault);
      }
    case Crash(r) => if r == run { CrashPersists(s.workers[run]); }
    case _ =>
  }

  // ---------------------------------------------------------------- what a pass reports

  ghost predicate ReportsEndings(decisions: seq<Context>, p: PassState) {
    && |p.done| == |p.results| <= |decisions|
    && (p.phase == Entering || p.phase == Executing || p.phase == Aborted ==> HasNext(decisions, p))
    && (p.phase == Executing ==> HasNext(decisions, p) && HasWorker(p.system, decisions[|p.results|]))
    && (forall i :: 0 <= i < |p.results| ==> ReportedAs(p.system, decisions[i], p.done[i], p.results[i]))
  }

  predicate HasWorker(s: System, c: Context) { c.run in s.workers && s.workers[c.run].context == c }

  predicate ReportedAs(s: System, c: Context, attempt: Attempt, result: RunResult) {
    EndedAs(s, c, attempt.ending) && Reported(c, attempt) == Some(result)
  }

  lemma ActionKeepsReports(cfg: Config, decisions: seq<Context>, p: PassState, a: Action)
    requires SystemOk(p.system) && ReportsEndings(decisions, p)
    ensures ReportsEndings(decisions, p.(system := Do(cfg, p.system, a)))
  {
    hide SystemOk, Do, Reported;
    forall i | 0 <= i < |p.results|
      ensures ReportedAs(Do(cfg, p.system, a), decisions[i], p.done[i], p.results[i])
    {
      StepKeepsWorker(cfg, p.system, a, decisions[i].run);
    }
    if p.phase == Executing { StepKeepsWorker(cfg, p.system, a, decisions[|p.results|].run); }
  }

  lemma AdvanceKeepsReports(cfg: Config, decisions: seq<Context>, p: PassState, step: Step)
    requires SystemOk(p.system) && ReportsEndings(decisions, p)
    ensures ReportsEndings(decisions, Advance(cfg, decisions, p, step))
  {
    hide SystemOk, Do, Reported;
    match step
    case Elsewhere(a) => ActionKeepsReports(cfg, decisions, p, a);
    case Recovery(fault) =>
      if p.phase == Recovering && HasNext(decisions, p) {
        ActionKeepsReports(cfg, decisions, p, RecoverIssue(decisions[|p.results|].issue));
      }
    case Enter =>
      if p.phase == Entering && decisions[|p.results|].run !in p.system.workers {
        ActionKeepsReports(cfg, decisions, p, Spawn(decisions[|p.results|]));
        SpawnedWorker(cfg, p.system, decisions[|p.results|]);
      }
    case Collect(raised) =>
  }

  lemma SpawnedWorker(cfg: Config, s: System, c: Context)
    ensures c.run !in s.workers ==> HasWorker(Do(cfg, s, Spawn(c)), c)
  {
  }

  /** At any point of a pass, under every interleaving, its results are those of `RunOnce` on the endings
      its own workers reached: one per finished decision, in order. */
  lemma {:induction false} PassReportsEndings(cfg: Config, decisions: seq<Context>, steps: seq<Step>)
    ensures ReportsEndings(decisions, RunPass(cfg, decisions, steps))
  {
    hide ReportsEndings, Advance, SystemOk, Exec;
    if steps == [] {
      FreshPass(decisions);
    } else {
      var before := steps[..|steps| - 1];
      PassReportsEndings(cfg, decisions, before);
      var actions := PassIsExec(cfg, decisions, before);
      ExecIsOk(cfg, actions);
      AdvanceKeepsReports(cfg, decisions, RunPass(cfg, decisions, before), steps[|steps| - 1]);
    }
  }

  lemma FreshPass(decisions: seq<Context>)
    ensures ReportsEndings(decisions, PassState(Initial, [], [], Recovering))
  {
  }

  // ---------------------------------------------------------------- what a result says of the tables

  /** The claim was answered that somebody else holds the issue; the run does not exist. */
  predicate EntryRefused(t: Tables, c: Context, how: Ending) { how == Conflict && c.run !in t.runs }

  /** A conflict reported after the claim, or in place of its answer: any 409, or a raising callback. */
  predicate LateConflict(t: Tables, w: Worker)
    requires w.main.Ended?
  {
    var c := w.context;
    match w.main.how
    case ClaimUnanswered(_) => c.run !in t.runs || LeftOpen(t, c) || LeftRecovered(t, c)
    case PulseFailed(_) => LeftOpen(t, c) || LeftRecovered(t, c)
    case CallbackRaised(_) => LeftOpen(t, c) || LeftRecovered(t, c)
    case Concluded(Some(Yes), _) =>
      c.run in t.runs && t.runs[c.run].status == Failed && Logged(t.log, c.run, LockReleased)
    case Concluded(None, _) => LeftUnanswered(t, c, w.finishes)
    case _ => false
  }

  /** What each reported status says. */
  predicate ResultTells(t: Tables, w: Worker, status: RunStatus)
    requires w.main.Ended?
  {
    var c, how := w.context, w.main.how;
    match status
    case CompletedRun => how == Returned && c.run in t.runs && t.runs[c.run].status == Completed
    case BlockedRun =>
      RaisedBy(how) == Some(BlockedError) && c.run in t.runs &&
      (if how.CallbackRaised? then LeftOpen(t, c) || LeftRecovered(t, c)
       else t.runs[c.run].status == Blocked || t.runs[c.run].status == Canceled)
    case ConflictRun =>
      RaisedBy(how) == Some(OtherError(CONFLICT)) && (EntryRefused(t, c, how) || LateConflict(t, w))
  }

  lemma EndingDecidesResult(t: Tables, w: Worker)
    requires w.main.Ended? && EndingTells(t, w)
    ensures var result := ResultOf(w.context, w.main.how);
      result.Some? ==> ResultTells(t, w, result.value.status)
  {
    hide Logged, LeftUnanswered;
    var how := w.main.how;
    if how.Concluded? && how.answer.Some? && how.answer != Some(Yes) {
      assert how.raised == OtherError("RuntimeError");
    }
  }

  lemma EndedWorkerDecides(cfg: Config, actions: seq<Action>, c: Context, how: Ending)
    requires EndedAs(Exec(cfg, actions), c, how)
    ensures var s := Exec(cfg, actions); var result := ResultOf(c, how);
      (result.Some? ==> ResultTells(s.tables, s.workers[c.run], result.value.status)) &&
      (LeftOpen(s.tables, c) ==> MayLeaveOrphan(how))
  {
    hide Exec, ResultTells, ResultOf, Logged;
    EndedWorkersTell(cfg, actions, c.run);
    EndingDecidesResult(Exec(cfg, actions).tables, Exec(cfg, actions).workers[c.run]);
  }

  /** After any pass, complete or aborted, and at any later time: each result says where its run stands.
      `completed` means a completed run; `blocked` a blocked or released one, unless the callback itself
      raised `ExecutionBlocked`; `conflict` either a refused entry without a run, or a `RunConflict`
      raised later by a run that exists. A run still open under a reported result is an orphan of one of
      the known causes. */
  lemma ResultsTellTheTables(cfg: Config, decisions: seq<Context>, steps: seq<Step>, i: nat)
    requires i < |RunPass(cfg, decisions, steps).results|
    ensures var p := RunPass(cfg, decisions, steps); var t := p.system.tables;
      |p.results| <= |decisions| && |p.done| == |p.results| &&
      p.results[i].issue == decisions[i].issue &&
      p.results[i].run == (if p.results[i].status == CompletedRun then Some(decisions[i].run) else None) &&
      EndedAs(p.system, decisions[i], p.done[i].ending) &&
      Survives(p.done[i]) && Appended(decisions[i], p.done[i].ending, p.results[i]) &&
      ResultTells(t, p.system.workers[decisions[i].run], p.results[i].status) &&
      (LeftOpen(t, decisions[i]) ==> MayLeaveOrphan(p.done[i].ending))
  {
    hide RunPass, ResultTells, Exec, LeftOpen, MayLeaveOrphan, Survives, Appended;
    PassReportsEndings(cfg, decisions, steps);
    var p := RunPass(cfg, decisions, steps);
    var actions := PassIsExec(cfg, decisions, steps);
    assert ReportedAs(p.system, decisions[i], p.done[i], p.results[i]);
    ReportedExactly(decisions[i], p.done[i]);
    EndedWorkerDecides(cfg, actions, decisions[i], p.done[i].ending);
  }

  // ---------------------------------------------------------------- entering

  /** The claim of a worker is refused exactly when a lock or a blocked run stands at that moment,
      whatever happened since the recovery. */
  lemma ClaimDecides(cfg: Config, actions: seq<Action>, c: Context)
    requires TtlOk(cfg.ttl) && HasWorker(Exec(cfg, actions), c) && Exec(cfg, actions).workers[c.run].main == Claiming
    ensures var s := Exec(cfg, actions); var u := Do(cfg, s, MainMove(c.run, Go(Answered)));
      c.run in u.workers &&
      u.workers[c.run].main ==
        (if c.issue in s.tables.locks || BlockedOn(s.tables, c.issue) then Ended(Conflict) else Starting)
  {
    hide Exec, TablesOk, BlockedOn, ClaimEffect;
    ReachedWorker(cfg, actions, c.run);
    var s := Exec(cfg, actions);
    ClaimingHasNoRow(RowOf(s.tables, c.run), s.workers[c.run]);
    ClaimSucceedsExactly(s.tables, c, cfg.ttl);
  }

  /** Undisturbed between its recovery and its claim, a decision conflicts exactly when an unexpired lock
      or a blocked run stood when it began. */
  lemma DecisionEnters(cfg: Config, actions: seq<Action>, c: Context)
    requires TtlOk(cfg.ttl) && c.run !in Exec(cfg, actions).workers
    ensures var s := Exec(cfg, actions); var t := s.tables;
      var u := Do(cfg, Do(cfg, Do(cfg, s, RecoverIssue(c.issue)), Spawn(c)), MainMove(c.run, Go(Answered)));
      c.run in u.workers && u.workers[c.run].main ==
        (if (c.issue in t.locks && t.locks[c.issue].expiresAt > t.now) || BlockedOn(t, c.issue)
         then Ended(Conflict) else Starting)
  {
    hide Exec, TablesOk, BlockedOn, ClaimEffect, RecoverEffect, WorkerOk, Play, AllFaithful;
    ExecIsOk(cfg, actions);
    var s := Exec(cfg, actions);
    RecoverThenClaim(s.tables, c, cfg.ttl);
    ValidClaimIsAnswered(RecoverEffect(s.tables, c.issue).after, c, cfg.ttl);
  }

  lemma ValidClaimIsAnswered(t: Tables, c: Context, ttl: int)
    ensures TtlOk(ttl) ==> ClaimEffect(t, c, ttl).reply != Raised
  {
    hide Holder;
  }

  // ---------------------------------------------------------------- recovered in the middle of a run

  /** An exception caught by the pass took the place of the refusal: one of a lost call, of a callback, or
      of starting the heartbeat thread. */
  predicate CaughtInstead(how: Ending) {
    match how
    case ClaimUnanswered(error) => error == CONFLICT
    case PulseFailed(error) => error == CONFLICT
    case Concluded(None, raised) => raised == OtherError(CONFLICT)
    case CallbackRaised(exc) => exc == OtherError(CONFLICT) || exc == BlockedError
    case _ => false
  }

  lemma RecoveredEnding(cfg: Config, actions: seq<Action>, c: Context, how: Ending)
    requires EndedAs(Exec(cfg, actions), c, how) && Logged(Exec(cfg, actions).tables.log, c.run, LockRecovered)
    ensures MayLeaveOrphan(how) || how == Concluded(Some(No), OtherError("RuntimeError"))
  {
    hide Exec, TablesOk, RecordOk, WorkerOk, CountsMatch, Logged;
    var t := Exec(cfg, actions).tables;
    var w := Exec(cfg, actions).workers[c.run];
    ReachedWorker(cfg, actions, c.run);
    EndingOfWorker(cfg.policy, t, w);
    ClosingRows(t, c.run);
    if Accepted(w.main) { AcceptedIsReleased(cfg.policy, t, w); }
  }

  lemma UncaughtUnlessInstead(c: Context, how: Ending)
    requires MayLeaveOrphan(how) || how == Concluded(Some(No), OtherError("RuntimeError"))
    ensures ResultOf(c, how).Some? <==> CaughtInstead(how)
  {
    assert |"RuntimeError"| != |CONFLICT|;
  }

  /** A pass that collects a run recovered before its finish is aborted there, whether the finish was
      refused, the process died or anything else was raised, except when an exception the pass catches took
      the place of the refusal. */
  lemma RecoveredRunAbortsThePass(cfg: Config, decisions: seq<Context>, steps: seq<Step>, recorderRaised: bool)
    requires var p := RunPass(cfg, decisions, steps);
      p.phase == Executing && HasNext(decisions, p) &&
      var c := decisions[|p.results|];
      Logged(p.system.tables.log, c.run, LockRecovered) &&
      c.run in p.system.workers && p.system.workers[c.run].main.Ended?
    ensures var p := RunPass(cfg, decisions, steps);
      Advance(cfg, decisions, p, Collect(recorderRaised)).phase == Aborted ||
      CaughtInstead(p.system.workers[decisions[|p.results|].run].main.how)
  {
    hide RunPass, Exec, Logged, MayLeaveOrphan, CaughtInstead, ResultOf;
    PassReportsEndings(cfg, decisions, steps);
    var p := RunPass(cfg, decisions, steps);
    var actions := PassIsExec(cfg, decisions, steps);
    var c := decisions[|p.results|];
    var how := p.system.workers[c.run].main.how;
    RecoveredEnding(cfg, actions, c, how);
    UncaughtUnlessInstead(c, how);
  }
}
