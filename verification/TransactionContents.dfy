/** What each transaction of `sql/001_runtime_functions.sql` writes, column by column and key by key: when it
    is accepted, the values of the row and the lock it leaves, and the audit rows it appends. */
module TransactionContents {
  import opened Options
  import opened Payloads
  import opened Lease

  /** `p` holds exactly the `names` that `fields` has, as texts, apart from the key `except`. */
  ghost predicate Copies(p: Payload, fields: map<Field, string>, names: set<Field>, except: Option<Field>) {
    (forall key :: Some(key) != except ==> (key in p <==> key in fields && key in names)) &&
    (forall key :: key in p && Some(key) != except ==> key in fields && p[key] == Text(fields[key]))
  }

  predicate ResultName(name: Field) {
    name == CommitSha || name == PullRequestUrl || name == RailwayDeploymentId || name == TestsStatus ||
    name == ReviewStatus
  }

  /** The columns a `finish` leaves: of six names exactly the given ones, and no other column. */
  ghost predicate SixColumns(columns: map<Field, string>, fields: map<Field, string>) {
    (forall name :: name in columns <==> name in fields && (ResultName(name) || name == Error)) &&
    (forall name :: name in columns ==> name in fields && columns[name] == fields[name])
  }

  lemma StoredColumnsAreSix(fields: map<Field, string>)
    ensures SixColumns(StoredColumns(fields), fields)
  {
  }

  /** The error of an outcome row: the given text unless it is missing or empty. */
  predicate ErrorIs(p: Payload, fields: map<Field, string>, fallback: string) {
    Error in p && p[Error] == Text(if Error in fields && fields[Error] != "" then fields[Error] else fallback)
  }

  /** The payload of the outcome row, by final status. */
  ghost predicate OutcomePayload(kind: Kind, p: Payload, status: Status, fields: map<Field, string>) {
    match status
    case Completed =>
      kind == RunCompleted &&
      Copies(p, fields, {CommitSha, PullRequestUrl, RailwayDeploymentId, TestsStatus, ReviewStatus}, None)
    case Failed =>
      kind == RunFailed && ErrorIs(p, fields, "RuntimeError") &&
      Copies(p, fields, {ErrorCode, KanbanTaskId, KanbanOutcome}, Some(Error))
    case Blocked =>
      kind == RunBlocked && ErrorIs(p, fields, "ExecutionBlocked") &&
      Copies(p, fields, {BlockedReason, KanbanTaskId, TestsStatus, ReviewStatus}, Some(Error))
    case Canceled => kind == RunCanceled && Copies(p, fields, {CanceledBy, Reason}, None)
    case _ => false
  }

  lemma FinalPayloadCopies(status: Status, fields: map<Field, string>)
    requires FinalStatus(status)
    ensures OutcomePayload(FinalKind(status), FinalPayload(status, fields), status, fields)
  {
  }

  /** The columns of a row that a transaction does not write. */
  predicate SameIdentity(before: Run, after: Run) {
    after.issue == before.issue && after.agent == before.agent && after.risk == before.risk &&
    after.mode == before.mode && after.environment == before.environment && after.startedAt == before.startedAt
  }

  /** The lock row of the issue names the run. */
  predicate HoldsLock(t: Tables, run: string, issue: string) { issue in t.locks && t.locks[issue].run == run }

  predicate InProgress(t: Tables, run: string) {
    run in t.runs && (t.runs[run].status == Running || t.runs[run].status == Reviewing)
  }

  /** When a `finish` raises, when it is accepted, and that otherwise it changes nothing. */
  lemma FinishDecides(t: Tables, run: string, issue: string, status: Status, arg: FieldsArgument)
    ensures var u := Apply(t, Finish(run, issue, status, arg));
      (u.reply == Raised <==>
        status == Queued || status == Running || status == Reviewing || arg.OtherFields?) &&
      (u.reply == Yes <==>
        u.reply != Raised && HoldsLock(t, run, issue) && InProgress(t, run) && t.runs[run].issue == issue) &&
      (u.reply != Yes ==> u.after == t)
  {
  }

  /** An accepted `finish`: the six columns, the status and the time of the row, the outcome row and the
      release row, and the lock gone; nothing else is touched. A null argument counts as no fields. */
  lemma FinishWrites(t: Tables, run: string, issue: string, status: Status, arg: FieldsArgument)
    requires Apply(t, Finish(run, issue, status, arg)).reply == Yes
    ensures var u := Apply(t, Finish(run, issue, status, arg)).after;
      var fields := if arg.ObjectFields? then arg.fields else map[];
      run in t.runs && u.runs.Keys == t.runs.Keys && (forall r :: r in t.runs && r != run ==> u.runs[r] == t.runs[r]) &&
      var row := u.runs[run];
      row.status == status && row.finishedAt == Some(t.now) && SixColumns(row.columns, fields) &&
      SameIdentity(t.runs[run], row) && row.heartbeatAt == t.runs[run].heartbeatAt
    ensures var u := Apply(t, Finish(run, issue, status, arg)).after;
      u.now == t.now && issue in t.locks && issue !in u.locks &&
      forall i :: i != issue ==> (i in u.locks <==> i in t.locks) && (i in u.locks ==> u.locks[i] == t.locks[i])
  {
    hide FinishEvents, StoredColumns;
    StoredColumnsAreSix(if arg.ObjectFields? then arg.fields else map[]);
  }

  lemma FinishAppends(t: Tables, run: string, issue: string, status: Status, arg: FieldsArgument)
    requires Apply(t, Finish(run, issue, status, arg)).reply == Yes
    ensures var u := Apply(t, Finish(run, issue, status, arg)).after;
      var fields := if arg.ObjectFields? then arg.fields else map[];
      issue in t.locks && |u.log| == |t.log| + 2 && u.log[..|t.log|] == t.log &&
      var outcome, release := u.log[|t.log|], u.log[|t.log| + 1];
      outcome == Event(run, issue, t.locks[issue].agent, outcome.kind, outcome.payload) &&
      OutcomePayload(outcome.kind, outcome.payload, status, fields) &&
      release == Event(run, issue, t.locks[issue].agent, LockReleased, map[FinishedStatus := Text(
        if status == Completed then "completed" else if status == Failed then "failed"
        else if status == Blocked then "blocked" else "canceled")])
  {
    hide FinalPayload, StoredColumns, OutcomePayload;
    FinalPayloadCopies(status, if arg.ObjectFields? then arg.fields else map[]);
  }

  /** The issue has a run in a status of the partial unique index. */
  ghost predicate Occupied(t: Tables, issue: string) {
    exists run :: run in t.runs && t.runs[run].issue == issue &&
      (t.runs[run].status == Queued || t.runs[run].status == Running || t.runs[run].status == Reviewing ||
       t.runs[run].status == Blocked)
  }

  lemma OccupiedIsActive(t: Tables, issue: string)
    ensures Occupied(t, issue) <==> exists run :: ActiveFor(t, issue, run)
  {
    if Occupied(t, issue) {
      var run :| run in t.runs && t.runs[run].issue == issue &&
        (t.runs[run].status == Queued || t.runs[run].status == Running || t.runs[run].status == Reviewing ||
         t.runs[run].status == Blocked);
      assert ActiveFor(t, issue, run);
    }
  }

  lemma ClaimDecides(t: Tables, c: Context, ttl: int)
    ensures var u := Apply(t, Claim(c, ttl));
      (u.reply == Raised <==> ttl < 10 || ttl > 86400) &&
      (u.reply == Yes <==>
        10 <= ttl <= 86400 && c.run !in t.runs && c.issue !in t.locks && !Occupied(t, c.issue)) &&
      (u.reply == Raised ==> u.after == t) &&
      (u.reply == No ==> u.after == t.(log := u.after.log))
  {
    hide Holder, ClaimEvents, ClaimedRun, Occupied, ActiveFor;
    OccupiedIsActive(t, c.issue);
  }

  /** A granted claim: one running row, one lock for `ttl` seconds, three audit rows. */
  lemma ClaimWrites(t: Tables, c: Context, ttl: int)
    requires Apply(t, Claim(c, ttl)).reply == Yes
    ensures var expiresAt := t.now + ttl * 1_000_000;
      Apply(t, Claim(c, ttl)).after == Tables(
        t.runs[c.run := Run(c.issue, c.agent, Running, c.risk, c.mode, c.environment, t.now, Some(t.now), None, map[])],
        t.locks[c.issue := Lock(c.run, c.agent, expiresAt, None)],
        t.log +
        [Event(c.run, c.issue, c.agent, RunCreated, map[]),
         Event(c.run, c.issue, c.agent, LockAcquired, map[TtlSeconds := Int(ttl), ExpiresAt := Stamp(expiresAt)]),
         Event(c.run, c.issue, c.agent, RunStarted,
               map[Risk := Text(c.risk), ExecutionMode := Text(c.mode), Environment := Text(c.environment)])],
        t.now)
  {
    hide ClaimConflicts, Holder;
  }

  /** A rejected claim is charged to the lock's run, else to the active run of the issue, and names the run
      that was refused; only a clash of run ids alone leaves no row. */
  lemma RejectionIsCharged(t: Tables, c: Context, ttl: int)
    requires TablesOk(t) && Apply(t, Claim(c, ttl)).reply == No
    ensures var u := Apply(t, Claim(c, ttl)).after;
      if c.issue in t.locks || Occupied(t, c.issue) then
        |u.log| == |t.log| + 1 && u.log[..|t.log|] == t.log &&
        var e := u.log[|t.log|];
        e == Event(e.run, c.issue, e.agent, LockRejected,
                   map[Reason := Text("RunConflict"), AttemptedRunId := Text(c.run)]) &&
        e.run in t.runs && e.agent == t.runs[e.run].agent && t.runs[e.run].issue == c.issue &&
        (if c.issue in t.locks then e.run == t.locks[c.issue].run else t.runs[e.run].status == Blocked)
      else u.log == t.log
  {
    hide ClaimConflicts, ClaimEvents;
    OccupiedIsActive(t, c.issue);
    if c.issue !in t.locks {
      if Occupied(t, c.issue) {
        var run :| ActiveFor(t, c.issue, run);
        HolderIsUnique(t, c.issue, run);
      } else {
        NoActiveNoHolder(t, c.issue);
      }
    }
  }

  /** A heartbeat raises outside the bounds of the TTL, renews the lock exactly when it is owned and has not
      expired, and answers true when the run is moreover in flight; it writes no audit row. */
  lemma HeartbeatWrites(t: Tables, run: string, issue: string, ttl: int)
    ensures var u := Apply(t, Heartbeat(run, issue, ttl));
      var live := 10 <= ttl <= 86400 && HoldsLock(t, run, issue) && t.locks[issue].expiresAt > t.now;
      (u.reply == Raised <==> ttl < 10 || ttl > 86400) && (u.reply == Yes <==> live && InProgress(t, run)) &&
      u.after.log == t.log && u.after.now == t.now &&
      u.after.locks ==
        (if live then t.locks[issue := Lock(run, t.locks[issue].agent, t.now + ttl * 1_000_000, Some(t.now))]
         else t.locks) &&
      u.after.runs == (if u.reply == Yes then t.runs[run := t.runs[run].(heartbeatAt := Some(t.now))] else t.runs)
  {
  }

  /** A recovery acts exactly on an expired lock: the run fails with `LockExpired`, its other columns stay, two
      audit rows tell when the lease expired and was last renewed, and the lock is gone. */
  lemma RecoverWrites(t: Tables, issue: string)
    requires TablesOk(t)
    ensures var u := Apply(t, Recover(issue));
      (u.reply == Yes <==> issue in t.locks && t.locks[issue].expiresAt <= t.now) &&
      (u.reply != Yes ==> u.reply == No && u.after == t)
    ensures var u := Apply(t, Recover(issue)); u.reply == Yes ==>
      issue in t.locks && t.locks[issue].run in t.runs &&
      var lock := t.locks[issue]; var row := t.runs[lock.run];
      u.after.runs == t.runs[lock.run := row.(status := Failed, finishedAt := Some(t.now),
                                              columns := row.columns[Error := "LockExpired"])] &&
      u.after.locks == t.locks - {issue} && u.after.now == t.now
    ensures var u := Apply(t, Recover(issue)); u.reply == Yes ==>
      |u.after.log| == |t.log| + 2 && u.after.log[..|t.log|] == t.log && issue in t.locks &&
      var lock := t.locks[issue]; var expiry, closing := u.after.log[|t.log|], u.after.log[|t.log| + 1];
      closing == Event(lock.run, issue, lock.agent, LockRecovered, map[PreviousRunId := Text(lock.run)]) &&
      expiry == Event(lock.run, issue, lock.agent, LockExpired,
        match lock.heartbeatAt
        case None => map[ExpiredAt := Stamp(lock.expiresAt)]
        case Some(beat) => map[ExpiredAt := Stamp(lock.expiresAt), LastHeartbeatAt := Stamp(beat)])
  {
  }

  /** The operator's release cancels exactly the blocked runs of the issue and writes nothing else. */
  lemma ReleaseWrites(t: Tables, issue: string, run: string)
    ensures var u := Apply(t, Release(issue)).after;
      u.locks == t.locks && u.log == t.log && u.now == t.now && u.runs.Keys == t.runs.Keys &&
      (run in t.runs ==>
        var row := t.runs[run];
        u.runs[run] == if row.issue == issue && row.status == Blocked then
          row.(status := Canceled, finishedAt := Some(t.now), columns := row.columns[Error := "ReleasedByOperator"])
        else row)
  {
  }
}
