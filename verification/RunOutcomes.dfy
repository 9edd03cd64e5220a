/** What becomes of a run, over every interleaving: how it was completed, where an ended `execute` leaves
    it, who frees it, and when its events arrive too late. */
module RunOutcomes {
  import opened Options
  import opened Payloads
  import opened Execution
  import opened Lease
  import opened LeaseHistory
  import opened Workers
  import opened WorkerSafety
  import opened RunRecords

  // ---------------------------------------------------------------- closing rows

  predicate Releases(e: Event, run: string) { e.run == run && e.kind == LockReleased }

  predicate Recovers(e: Event, run: string) { e.run == run && e.kind == LockRecovered }

  lemma NotClosedTwice(t: Tables, run: string)
    requires CountsMatch(t, run)
    ensures !(Logged(t.log, run, LockReleased) && Logged(t.log, run, LockRecovered))
  {
    hide Count, Statuses;
    if e, f :| e in t.log && f in t.log && Releases(e, run) && Recovers(f, run) {
      CountOfTwoRows(t.log, e, f, run, false);
    }
  }

  /** A run has one closing row, and has it exactly once it stopped running. */
  lemma ClosingRows(t: Tables, run: string)
    requires CountsMatch(t, run)
    ensures Logged(t.log, run, LockReleased) || Logged(t.log, run, LockRecovered) <==>
      run in t.runs && t.runs[run].status != Running
    ensures !(Logged(t.log, run, LockReleased) && Logged(t.log, run, LockRecovered))
  {
    hide Count, Statuses;
    NotClosedTwice(t, run);
    StatusIsStored(t, run);
    if e :| e in t.log && e.run == run && ClosingKind(e.kind) {
      CountOfRow(t.log, e, run, false);
    }
    if Count(t.log, run, false) > 0 {
      CountedRow(t.log, run, false);
    }
  }

  /** All facts about one worker of a reachable system. */
  ghost predicate Reached(policy: Policy, t: Tables, w: Worker) {
    TablesOk(t) && CountsMatch(t, w.context.run) && WorkerOk(RowOf(t, w.context.run), w) && RecordOk(policy, t, w)
  }

  lemma ReachedWorker(cfg: Config, actions: seq<Action>, run: string)
    requires run in Exec(cfg, actions).workers
    ensures var s := Exec(cfg, actions);
      s.workers[run].context.run == run && Reached(cfg.policy, s.tables, s.workers[run])
  {
    hide Exec, WorkerOk, RecordOk, TablesOk, CountsMatch, Play, AllFaithful;
    var s := Exec(cfg, actions);
    ExecIsOk(cfg, actions);
    ExecIsRecorded(cfg, actions);
    RunsOpenAndCloseOnce(s.ops, run);
  }

  // ---------------------------------------------------------------- late posts

  predicate AboutToPost(w: Worker) { w.main == Announcing || (w.main.Persisting? && w.main.queue != []) }

  lemma PosterHasNotFinished(row: Option<Run>, w: Worker)
    ensures WorkerOk(row, w) && AboutToPost(w) ==> w.finishes == [] && row.Some? && row.value.issue == w.context.issue
  {
    hide Ordered;
  }

  lemma OwnerIffRunning(t: Tables, run: string)
    requires TablesOk(t) && run in t.runs
    ensures Owns(t, run, t.runs[run].issue) <==> t.runs[run].status == Running
    ensures forall issue :: Owns(t, run, issue) ==> issue == t.runs[run].issue
  {
  }

  /** A worker about to post no longer owns its lock exactly when the log already closes its run, and
      then a recovery closed it: the guard it would have to check. */
  lemma PostIsLateIffLockLost(cfg: Config, actions: seq<Action>, run: string)
    requires run in Exec(cfg, actions).workers && AboutToPost(Exec(cfg, actions).workers[run])
    ensures var s := Exec(cfg, actions);
      (!Owns(s.tables, run, s.workers[run].context.issue) <==> Logged(s.tables.log, run, LockRecovered)) &&
      !Logged(s.tables.log, run, LockReleased)
  {
    hide Exec, WorkerOk, TablesOk, CountsMatch, Logged, PostsFollowRecovery, Owns, CompletionsOk;
    ReachedWorker(cfg, actions, run);
    var s := Exec(cfg, actions);
    PosterHasNotFinished(RowOf(s.tables, run), s.workers[run]);
    OwnerIffRunning(s.tables, run);
    ClosingRows(s.tables, run);
  }

  /** In every reachable log a client row of a run stands after a row that closes the run only when that
      row is its recovery: no worker's own finish is ever followed by its posts. */
  lemma PostsFollowOnlyRecoveries(cfg: Config, actions: seq<Action>, run: string)
    ensures PostsFollowRecovery(Exec(cfg, actions).tables.log, run)
  {
    hide Exec, RecordOk, PostsFollowRecovery;
    ExecIsRecorded(cfg, actions);
    var s := Exec(cfg, actions);
    if run in s.workers {
      ReachedWorker(cfg, actions, run);
      RecordedOrder(cfg.policy, s.tables, s.workers[run]);
    } else {
      UnknownOrder(s.tables.log, s.workers.Keys, run);
    }
  }

  lemma RecordedOrder(policy: Policy, t: Tables, w: Worker)
    ensures RecordOk(policy, t, w) ==> PostsFollowRecovery(t.log, w.context.run)
  {
  }

  lemma UnknownOrder(log: seq<Event>, known: set<string>, run: string)
    requires NamesKnown(log, known) && run !in known
    ensures PostsFollowRecovery(log, run)
  {
    assert forall i :: 0 <= i < |log| ==> log[i] in log;
  }

  // ---------------------------------------------------------------- who completes a run

  /** A run is completed only by the result its worker was handed: the result's events validated, the
      gates of its agent passed, and its fields are the ones stored and logged. */
  lemma CompletedRunsWereEarned(cfg: Config, actions: seq<Action>, run: string)
    requires run in Exec(cfg, actions).tables.runs && Exec(cfg, actions).tables.runs[run].status == Completed
    ensures var s := Exec(cfg, actions);
      run in s.workers && Earned(cfg.policy, s.tables.runs[run], s.workers[run]) &&
      s.workers[run].context.run == run && CompletionsOk(s.tables.log, RowOf(s.tables, run), s.workers[run]) &&
      Logged(s.tables.log, run, RunCompleted)
  {
    hide Exec, WorkerOk, TablesOk, Earned, CompletionsOk, PostsFollowRecovery, Logged, Play;
    ExecIsOk(cfg, actions);
    ReachedWorker(cfg, actions, run);
  }

  // ---------------------------------------------------------------- where an ended execute leaves its run

  /** The run is still running, with its lock. */
  predicate LeftOpen(t: Tables, c: Context) {
    c.run in t.runs && t.runs[c.run].status == Running && Owns(t, c.run, c.issue)
  }

  predicate LeftRecovered(t: Tables, c: Context) {
    c.run in t.runs && t.runs[c.run].status == Failed && Logged(t.log, c.run, LockRecovered)
  }

  /** After a last finish whose answer was lost: it did not commit and the run is open or recovered, or it
      committed, or the `completed` asked for before it had. */
  predicate LeftUnanswered(t: Tables, c: Context, finishes: seq<Status>) {
    c.run in t.runs &&
    match t.runs[c.run].status
    case Running => LeftOpen(t, c)
    case Failed => LeftRecovered(t, c) || (Failed in finishes && Logged(t.log, c.run, LockReleased))
    case Completed => finishes == [Completed, Failed]
    case Blocked | Canceled => finishes == [Blocked]
    case _ => false
  }

  /** Every ending, and what the tables can hold then and ever after. */
  predicate EndingTells(t: Tables, w: Worker)
    requires w.main.Ended?
  {
    var c := w.context;
    match w.main.how
    case Conflict | ClaimRefused => c.run !in t.runs
    case ClaimUnanswered(_) => w.finishes == [] && (c.run !in t.runs || LeftOpen(t, c) || LeftRecovered(t, c))
    case PulseFailed(_) => w.finishes == [] && (LeftOpen(t, c) || LeftRecovered(t, c))
    case CallbackRaised(_) => w.finishes == [] && (LeftOpen(t, c) || LeftRecovered(t, c))
    case Returned => w.finishes == [Completed] && c.run in t.runs && t.runs[c.run].status == Completed
    case Concluded(Some(Yes), raised) =>
      c.run in t.runs && Logged(t.log, c.run, LockReleased) &&
      (if raised == BlockedError then t.runs[c.run].status == Blocked || t.runs[c.run].status == Canceled
       else t.runs[c.run].status == Failed)
    case Concluded(Some(answer), raised) =>
      answer == No && raised == OtherError("RuntimeError") &&
      (LeftRecovered(t, c) ||
       (w.finishes == [Completed, Failed] && c.run in t.runs && t.runs[c.run].status == Completed))
    case Concluded(None, raised) => raised.OtherError? && LeftUnanswered(t, c, w.finishes)
    case Crashed =>
      c.run !in t.runs || LeftOpen(t, c) || LeftRecovered(t, c) ||
      (t.runs[c.run].status == Completed && w.finishes == [Completed])
  }

  lemma StatusesInUse(t: Tables, run: string)
    ensures TablesOk(t) && run in t.runs ==> t.runs[run].status != Queued && t.runs[run].status != Reviewing
  {
  }

  /** The status of an ended worker's run, from the worker's own invariant. */
  lemma EndedStatus(row: Option<Run>, w: Worker)
    requires WorkerOk(row, w) && w.main.Ended?
    ensures Unclaimed(w.main) ==> row == None
    ensures row.Some? && w.finishes == [] ==> row.value.status !in {Completed, Blocked, Canceled}
    ensures w.main.how.ClaimUnanswered? || w.main.how.PulseFailed? || w.main.how.CallbackRaised? ==> w.finishes == []
    ensures w.main.how.PulseFailed? || w.main.how.CallbackRaised? ==> row.Some? && row.value.issue == w.context.issue
    ensures row.Some? ==> row.value.issue == w.context.issue
    ensures w.main.how.Returned? ==> w.finishes == [Completed] && row.Some? && row.value.status == Completed
  {
    hide Ordered, GatesOk, CallsOk, ReportsOk;
  }

  lemma ConcludedStatus(row: Option<Run>, w: Worker)
    requires WorkerOk(row, w) && w.main.Ended? && w.main.how.Concluded?
    ensures row.Some?
    ensures var status := row.value.status;
      match w.main.how.answer
      case Some(Yes) =>
        if w.main.how.raised == BlockedError then status == Blocked || status == Canceled else status == Failed
      case Some(answer) =>
        answer == No && w.main.how.raised == OtherError("RuntimeError") && status !in {Running, Blocked, Canceled} &&
        (status == Completed ==> w.finishes == [Completed, Failed])
      case None =>
        w.main.how.raised.OtherError? && (status == Completed ==> w.finishes == [Completed, Failed]) &&
        (status == Blocked || status == Canceled ==> w.finishes == [Blocked])
  {
    hide Ordered, GatesOk, CallsOk, ReportsOk;
  }

  lemma CrashedStatus(row: Option<Run>, w: Worker)
    requires WorkerOk(row, w) && w.main == Ended(Crashed)
    ensures row.Some? ==>
      row.value.status !in {Blocked, Canceled} && (row.value.status == Completed ==> w.finishes == [Completed])
  {
    hide Ordered, GatesOk, CallsOk, ReportsOk;
  }

  /** A failed run was recovered, or failed by its own concluding finish. */
  lemma FailedHow(policy: Policy, t: Tables, w: Worker)
    requires Reached(policy, t, w) && w.context.run in t.runs && t.runs[w.context.run].status == Failed
    ensures LeftRecovered(t, w.context) || (Logged(t.log, w.context.run, LockReleased) && FailedByItself(w))
  {
    hide TablesOk, WorkerOk, CountsMatch, PostsFollowRecovery, CompletionsOk, Logged;
    ClosingRows(t, w.context.run);
  }

  lemma AcceptedIsReleased(policy: Policy, t: Tables, w: Worker)
    ensures RecordOk(policy, t, w) && Accepted(w.main) ==> Logged(t.log, w.context.run, LockReleased)
  {
  }

  lemma EndingOfWorker(policy: Policy, t: Tables, w: Worker)
    requires Reached(policy, t, w) && w.main.Ended?
    ensures EndingTells(t, w)
  {
    hide TablesOk, CountsMatch, RecordOk, WorkerOk, Logged;
    var c := w.context;
    EndedStatus(RowOf(t, c.run), w);
    if c.run in t.runs {
      OwnerIffRunning(t, c.run);
      StatusesInUse(t, c.run);
      if t.runs[c.run].status == Failed { FailedHow(policy, t, w); }
    }
    if w.main.how.Crashed? { CrashedStatus(RowOf(t, c.run), w); }
    if w.main.how.Concluded? { ConcludedStatus(RowOf(t, c.run), w); }
    if Accepted(w.main) { AcceptedIsReleased(policy, t, w); }
  }

  /** Ending by ending, exactly where `execute` leaves its run, at its end and at any later time: a
      finish is refused only after a recovery or after the same worker's `completed` had committed. */
  lemma EndedWorkersTell(cfg: Config, actions: seq<Action>, run: string)
    requires run in Exec(cfg, actions).workers && Exec(cfg, actions).workers[run].main.Ended?
    ensures EndingTells(Exec(cfg, actions).tables, Exec(cfg, actions).workers[run])
  {
    hide Exec, EndingTells, Reached;
    ReachedWorker(cfg, actions, run);
    EndingOfWorker(cfg.policy, Exec(cfg, actions).tables, Exec(cfg, actions).workers[run]);
  }

  // ---------------------------------------------------------------- orphans stay until recovered

  /** The worker is gone and its run is still running under its lock. */
  ghost predicate Orphan(s: System, run: string) {
    run in s.workers && s.workers[run].main.Ended? && LeftOpen(s.tables, s.workers[run].context)
  }

  lemma EndedPulse(row: Option<Run>, w: Worker)
    ensures WorkerOk(row, w) && w.main.Ended? ==> w.pulse == NotStarted || w.pulse == Exited
  {
  }

  /** Others cannot stop a run except by recovering its issue. */
  lemma ForeignKeepsOpen(t: Tables, op: Op, c: Context)
    requires TablesOk(t) && LeftOpen(t, c) && Foreign(op, c.run) && op != Recover(c.issue)
    ensures LeftOpen(Apply(t, op).after, c)
  {
    hide Holder, ClaimEvents, StoredColumns, FinalPayload, FinishEvents, RecoverEvents;
  }

  lemma TakeKeepsOrphan(s: System, run: string, other: string, move: Move)
    requires SystemOk(s) && other != run
    requires move.op.Some? ==> By(move.op.value, other)
    ensures Orphan(s, run) ==> Orphan(Take(s, other, Some(move)), run)
  {
    hide WorkerOk, TablesOk, Apply, Play;
    if Orphan(s, run) && move.op.Some? { ForeignKeepsOpen(s.tables, move.op.value, s.workers[run].context); }
  }

  lemma EndedIsStill(cfg: Config, t: Tables, w: Worker, input: Input, fault: Fault)
    requires w.main.Ended? && (w.pulse == NotStarted || w.pulse == Exited)
    ensures MainStep(cfg, t, w, input) == None && PulseStep(cfg, t, w, fault) == None && CrashStep(w) == None
  {
  }

  lemma DoKeepsOrphan(cfg: Config, s: System, a: Action, run: string)
    requires SystemOk(s)
    ensures Orphan(s, run) && a != RecoverIssue(s.workers[run].context.issue) ==>
      Orphan(Do(cfg, s, a), run) && Do(cfg, s, a).workers[run] == s.workers[run]
  {
    hide WorkerOk, TablesOk, Apply, MainStep, PulseStep, Hear, Beat, Play, LeftOpen;
    if !Orphan(s, run) || a == RecoverIssue(s.workers[run].context.issue) { return; }
    var c := s.workers[run].context;
    EndedPulse(RowOf(s.tables, run), s.workers[run]);
    match a
    case Spawn(d) =>
    case MainMove(r, input) =>
      EndedIsStill(cfg, s.tables, s.workers[run], input, Answered);
      if r != run && r in s.workers && MainStep(cfg, s.tables, s.workers[r], input).Some? {
        OkParts(RowOf(s.tables, r), s.workers[r]);
        MainStepIsOwn(cfg, s.tables, s.workers[r], input);
        TakeKeepsOrphan(s, run, r, MainStep(cfg, s.tables, s.workers[r], input).value);
      }
    case PulseMove(r, fault) =>
      EndedIsStill(cfg, s.tables, s.workers[run], Go(Answered), fault);
      if r != run && r in s.workers && PulseStep(cfg, s.tables, s.workers[r], fault).Some? {
        PulseStepIsOwn(cfg, s.tables, s.workers[r], fault);
        TakeKeepsOrphan(s, run, r, PulseStep(cfg, s.tables, s.workers[r], fault).value);
      }
    case Crash(r) =>
      EndedIsStill(cfg, s.tables, s.workers[run], Go(Answered), Answered);
      if r != run && r in s.workers && CrashStep(s.workers[r]).Some? {
        TakeKeepsOrphan(s, run, r, CrashStep(s.workers[r]).value);
      }
    case RecoverIssue(issue) => ForeignKeepsOpen(s.tables, Recover(issue), c);
    case OperatorRelease(issue) => ForeignKeepsOpen(s.tables, Release(issue), c);
    case Pass(elapsed) => ForeignKeepsOpen(s.tables, Tick(elapsed), c);
  }

  lemma {:induction false} OrphanStays(cfg: Config, actions: seq<Action>, more: seq<Action>, run: string)
    requires Orphan(Exec(cfg, actions), run)
    requires RecoverIssue(Exec(cfg, actions).workers[run].context.issue) !in more
    ensures Orphan(Exec(cfg, actions + more), run)
    ensures Exec(cfg, actions + more).workers[run] == Exec(cfg, actions).workers[run]
  {
    hide Orphan, Do, SystemOk;
    if more == [] {
      assert actions + more == actions;
    } else {
      var before := more[..|more| - 1];
      OrphanStays(cfg, actions, before, run);
      var all := actions + more;
      assert all[..|all| - 1] == actions + before && all[|all| - 1] == more[|more| - 1];
      ExecIsOk(cfg, actions + before);
      DoKeepsOrphan(cfg, Exec(cfg, actions + before), more[|more| - 1], run);
    }
  }

  /** Whether a recovery at this moment would free the orphan, and that otherwise it does nothing. */
  predicate FreedExactlyIfExpired(t: Tables, c: Context) {
    c.issue in t.locks &&
    var outcome := RecoverEffect(t, c.issue);
    if t.locks[c.issue].expiresAt <= t.now
    then LeftRecovered(outcome.after, c) && c.issue !in outcome.after.locks
    else outcome == Outcome(No, t)
  }

  lemma RecoveryFrees(t: Tables, c: Context)
    requires LeftOpen(t, c)
    ensures FreedExactlyIfExpired(t, c)
  {
    if t.locks[c.issue].expiresAt <= t.now {
      var u := RecoverEffect(t, c.issue).after;
      assert u.log == t.log + RecoverEvents(c.issue, t.locks[c.issue]);
      assert u.log[|t.log| + 1].kind == LockRecovered && u.log[|t.log| + 1] in u.log;
    }
  }

  /** An orphaned run keeps its status and its lock, whatever everybody does, until somebody recovers its
      issue; and a recovery frees it exactly once its lease has expired. */
  lemma OrphanStaysUntilRecovered(cfg: Config, actions: seq<Action>, more: seq<Action>, run: string)
    requires Orphan(Exec(cfg, actions), run)
    requires RecoverIssue(Exec(cfg, actions).workers[run].context.issue) !in more
    ensures Orphan(Exec(cfg, actions + more), run)
    ensures Exec(cfg, actions + more).workers[run] == Exec(cfg, actions).workers[run]
    ensures FreedExactlyIfExpired(Exec(cfg, actions + more).tables, Exec(cfg, actions).workers[run].context)
  {
    hide Exec, FreedExactlyIfExpired, LeftOpen;
    OrphanStays(cfg, actions, more, run);
    RecoveryFrees(Exec(cfg, actions + more).tables, Exec(cfg, actions).workers[run].context);
  }
}
