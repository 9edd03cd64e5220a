/** The lease tables and the effect of one transaction on them: `sql/001_runtime_functions.sql`.

    `Tables` is the committed content of `agent_runs`, `agent_execution_locks` and `agent_events`
    plus the transaction clock `now()` in microseconds. Each `...Effect` function says declaratively
    what one committed call leaves behind and answers; `LeaseDatabase` runs the statements. */
module Lease {
  import opened Options
  import opened Payloads

  const SECOND := 1_000_000

  datatype Status = Queued | Running | Reviewing | Blocked | Completed | Failed | Canceled

  /** The statuses covered by the partial unique index on `linear_issue_id`. */
  predicate Active(status: Status) {
    status == Queued || status == Running || status == Reviewing || status == Blocked
  }

  datatype Run = Run(issue: string, agent: string, status: Status, risk: string, mode: string, environment: string,
                     startedAt: int, heartbeatAt: Option<int>, finishedAt: Option<int>, columns: map<Field, string>)

  datatype Lock = Lock(run: string, agent: string, expiresAt: int, heartbeatAt: Option<int>)

  datatype Event = Event(run: string, issue: string, agent: string, kind: Kind, payload: Payload)

  datatype Tables = Tables(runs: map<string, Run>, locks: map<string, Lock>, log: seq<Event>, now: int)

  /** What the caller of an RPC sees: an exception, `true` or `false`. */
  datatype Reply = Raised | Yes | No

  datatype Outcome = Outcome(reply: Reply, after: Tables)

  /** The `p_fields` argument: SQL null, a JSON object of texts, or other JSON. */
  datatype FieldsArgument = NullFields | ObjectFields(fields: map<Field, string>) | OtherFields

  datatype Context = Context(run: string, issue: string, agent: string, risk: string, mode: string, environment: string)

  const Empty := Tables(map[], map[], [], 0)

  predicate TtlOk(ttl: int) { 10 <= ttl <= 86400 }

  predicate FinalStatus(status: Status) {
    status == Completed || status == Failed || status == Blocked || status == Canceled
  }

  // ---------------------------------------------------------------- payloads written by the RPCs

  function Texts(fields: map<Field, string>, names: set<Field>): Payload {
    map name | name in fields && name in names :: Text(fields[name])
  }

  /** `coalesce(nullif(fields->>'error', ''), fallback)` */
  function ErrorText(fields: map<Field, string>, fallback: string): string {
    if Error in fields && fields[Error] != "" then fields[Error] else fallback
  }

  function StatusName(status: Status): string {
    match status
    case Queued => "queued" case Running => "running" case Reviewing => "reviewing" case Blocked => "blocked"
    case Completed => "completed" case Failed => "failed" case Canceled => "canceled"
  }

  function FinalKind(status: Status): Kind {
    match status
    case Completed => RunCompleted
    case Failed => RunFailed
    case Blocked => RunBlocked
    case Canceled => RunCanceled
    case _ => OtherKind("run." + StatusName(status))
  }

  function FinalPayload(status: Status, fields: map<Field, string>): Payload {
    match status
    case Completed =>
      Texts(fields, {CommitSha, PullRequestUrl, RailwayDeploymentId, TestsStatus, ReviewStatus})
    case Failed =>
      Texts(fields, {ErrorCode, KanbanTaskId, KanbanOutcome})[Error := Text(ErrorText(fields, "RuntimeError"))]
    case Blocked =>
      Texts(fields, {BlockedReason, KanbanTaskId, TestsStatus, ReviewStatus})
        [Error := Text(ErrorText(fields, "ExecutionBlocked"))]
    case Canceled => Texts(fields, {CanceledBy, Reason})
    case _ => map[]
  }

  /** The six columns of the run row that `hermes_finish_run` overwrites. */
  function StoredColumns(fields: map<Field, string>): map<Field, string> {
    map name | name in fields &&
      name in {CommitSha, PullRequestUrl, RailwayDeploymentId, TestsStatus, ReviewStatus, Error} :: fields[name]
  }

  function RejectedEvent(issue: string, holder: (string, string), attempted: string): Event {
    Event(holder.0, issue, holder.1, LockRejected,
          map[Reason := Text("RunConflict"), AttemptedRunId := Text(attempted)])
  }

  function ClaimEvents(c: Context, ttl: int, expiresAt: int): seq<Event> {
    [Event(c.run, c.issue, c.agent, RunCreated, map[]),
     Event(c.run, c.issue, c.agent, LockAcquired, map[TtlSeconds := Int(ttl), ExpiresAt := Stamp(expiresAt)]),
     Event(c.run, c.issue, c.agent, RunStarted,
           map[Risk := Text(c.risk), ExecutionMode := Text(c.mode), Environment := Text(c.environment)])]
  }

  function FinishEvents(run: string, issue: string, agent: string, status: Status, fields: map<Field, string>):
    seq<Event>
  {
    [Event(run, issue, agent, FinalKind(status), FinalPayload(status, fields)),
     Event(run, issue, agent, LockReleased, map[FinishedStatus := Text(StatusName(status))])]
  }

  function RecoverEvents(issue: string, lock: Lock): seq<Event> {
    var expired := map[ExpiredAt := Stamp(lock.expiresAt)];
    [Event(lock.run, issue, lock.agent, LockExpired,
           if lock.heartbeatAt.Some? then expired[LastHeartbeatAt := Stamp(lock.heartbeatAt.value)] else expired),
     Event(lock.run, issue, lock.agent, LockRecovered, map[PreviousRunId := Text(lock.run)])]
  }

  // ---------------------------------------------------------------- effects of the transactions

  predicate ActiveFor(t: Tables, issue: string, run: string) {
    run in t.runs && t.runs[run].issue == issue && Active(t.runs[run].status)
  }

  ghost predicate LatestActive(t: Tables, issue: string, run: string) {
    ActiveFor(t, issue, run) &&
    forall other :: ActiveFor(t, issue, other) ==> t.runs[other].startedAt <= t.runs[run].startedAt
  }

  /** Whom a rejected claim is charged to: the lock row, else the most recent active run. */
  ghost function Holder(t: Tables, issue: string): Option<(string, string)> {
    if issue in t.locks then Some((t.locks[issue].run, t.locks[issue].agent))
    else if run :| LatestActive(t, issue, run) then Some((run, t.runs[run].agent))
    else None
  }

  ghost predicate ClaimConflicts(t: Tables, c: Context) {
    c.run in t.runs || c.issue in t.locks || exists run :: ActiveFor(t, c.issue, run)
  }

  function ClaimedRun(t: Tables, c: Context): Run {
    Run(c.issue, c.agent, Running, c.risk, c.mode, c.environment, t.now, Some(t.now), None, map[])
  }

  ghost function ClaimEffect(t: Tables, c: Context, ttl: int): Outcome {
    if !TtlOk(ttl) then Outcome(Raised, t)
    else if ClaimConflicts(t, c) then
      match Holder(t, c.issue)
      case None => Outcome(No, t)
      case Some(holder) => Outcome(No, t.(log := t.log + [RejectedEvent(c.issue, holder, c.run)]))
    else
      var expiresAt := t.now + ttl * SECOND;
      Outcome(Yes, Tables(t.runs[c.run := ClaimedRun(t, c)],
                          t.locks[c.issue := Lock(c.run, c.agent, expiresAt, None)],
                          t.log + ClaimEvents(c, ttl, expiresAt), t.now))
  }

  predicate Owns(t: Tables, run: string, issue: string) {
    issue in t.locks && t.locks[issue].run == run
  }

  predicate InFlight(t: Tables, run: string) {
    run in t.runs && (t.runs[run].status == Running || t.runs[run].status == Reviewing)
  }

  function HeartbeatEffect(t: Tables, run: string, issue: string, ttl: int): Outcome {
    if !TtlOk(ttl) then Outcome(Raised, t)
    else if !Owns(t, run, issue) || t.locks[issue].expiresAt <= t.now then Outcome(No, t)
    else
      var renewed := t.(locks := t.locks[issue :=
        t.locks[issue].(heartbeatAt := Some(t.now), expiresAt := t.now + ttl * SECOND)]);
      if InFlight(t, run)
      then Outcome(Yes, renewed.(runs := t.runs[run := t.runs[run].(heartbeatAt := Some(t.now))]))
      else Outcome(No, renewed)
  }

  function FinishEffect(t: Tables, run: string, issue: string, status: Status, arg: FieldsArgument): Outcome {
    if !FinalStatus(status) || arg.OtherFields? then Outcome(Raised, t)
    else if !Owns(t, run, issue) || !InFlight(t, run) || t.runs[run].issue != issue then Outcome(No, t)
    else
      var fields := if arg.ObjectFields? then arg.fields else map[];
      Outcome(Yes, Tables(
        t.runs[run := t.runs[run].(status := status, finishedAt := Some(t.now), columns := StoredColumns(fields))],
        t.locks - {issue},
        t.log + FinishEvents(run, issue, t.locks[issue].agent, status, fields), t.now))
  }

  function RecoverEffect(t: Tables, issue: string): Outcome {
    if issue !in t.locks || t.locks[issue].expiresAt > t.now then Outcome(No, t)
    else
      var lock := t.locks[issue];
      var failing := InFlight(t, lock.run) || (lock.run in t.runs && t.runs[lock.run].status == Queued);
      Outcome(Yes, Tables(
        if failing then t.runs[lock.run := t.runs[lock.run].(
          status := Failed, finishedAt := Some(t.now), columns := t.runs[lock.run].columns[Error := "LockExpired"])]
        else t.runs,
        t.locks - {issue}, t.log + RecoverEvents(issue, lock), t.now))
  }

  function Released(row: Run, now: int): Run {
    row.(status := Canceled, finishedAt := Some(now), columns := row.columns[Error := "ReleasedByOperator"])
  }

  /** The operator's statement in the comment of the script; it writes no event. */
  function ReleaseEffect(t: Tables, issue: string): Tables {
    t.(runs := map run | run in t.runs :: var row := t.runs[run];
      if row.issue == issue && row.status == Blocked then Released(row, t.now) else row)
  }

  datatype Op =
    | Claim(context: Context, ttl: int)
    | Heartbeat(run: string, issue: string, ttl: int)
    | Finish(run: string, issue: string, status: Status, fields: FieldsArgument)
    | Recover(issue: string)
    | Release(issue: string)
    | Post(event: Event)
    | Tick(elapsed: nat)

  ghost function Apply(t: Tables, op: Op): Outcome {
    match op
    case Claim(c, ttl) => ClaimEffect(t, c, ttl)
    case Heartbeat(run, issue, ttl) => HeartbeatEffect(t, run, issue, ttl)
    case Finish(run, issue, status, fields) => FinishEffect(t, run, issue, status, fields)
    case Recover(issue) => RecoverEffect(t, issue)
    case Release(issue) => Outcome(Yes, ReleaseEffect(t, issue))
    case Post(event) => Outcome(Yes, t.(log := t.log + [event]))
    case Tick(elapsed) => Outcome(Yes, t.(now := t.now + elapsed))
  }

  // ---------------------------------------------------------------- the table invariant

  /** Locks and running runs are in bijection, and an issue has at most one active run. */
  ghost predicate TablesOk(t: Tables) {
    && (forall issue :: issue in t.locks ==>
          var lock := t.locks[issue];
          lock.run in t.runs && t.runs[lock.run].issue == issue &&
          t.runs[lock.run].agent == lock.agent && t.runs[lock.run].status == Running)
    && (forall run :: run in t.runs ==> t.runs[run].status != Queued && t.runs[run].status != Reviewing)
    && (forall run :: run in t.runs && t.runs[run].status == Running ==> Owns(t, run, t.runs[run].issue))
    && (forall issue, r1, r2 :: ActiveFor(t, issue, r1) && ActiveFor(t, issue, r2) ==> r1 == r2)
  }

  lemma ApplyKeepsTables(t: Tables, op: Op)
    requires TablesOk(t)
    ensures TablesOk(Apply(t, op).after)
  {
    match op
    case Claim(c, ttl) => ClaimKeepsTables(t, c, ttl);
    case Heartbeat(run, issue, ttl) => HeartbeatKeepsTables(t, run, issue, ttl);
    case Finish(run, issue, status, fields) => FinishKeepsTables(t, run, issue, status, fields);
    case Recover(issue) => RecoverKeepsTables(t, issue);
    case Release(issue) => ReleaseKeepsTables(t, issue);
    case Post(event) => KeptWithSameRows(t, Apply(t, op).after);
    case Tick(elapsed) => KeptWithSameRows(t, Apply(t, op).after);
  }

  lemma KeptWithSameRows(t: Tables, u: Tables)
    requires TablesOk(t) && u.runs == t.runs && u.locks == t.locks
    ensures TablesOk(u)
  {
    forall issue, r1, r2 | ActiveFor(u, issue, r1) && ActiveFor(u, issue, r2)
      ensures r1 == r2
    {
      assert ActiveFor(t, issue, r1) && ActiveFor(t, issue, r2);
    }
    forall run | run in u.runs && u.runs[run].status == Running
      ensures Owns(u, run, u.runs[run].issue)
    {
      assert Owns(t, run, t.runs[run].issue);
    }
  }

  /** A change of one existing run row, together with its lock, that keeps the invariant. */
  lemma KeptWhenRunStops(t: Tables, u: Tables, run: string)
    requires TablesOk(t) && run in t.runs && run in u.runs
    requires u.runs == t.runs[run := u.runs[run]]
    requires u.runs[run].issue == t.runs[run].issue && t.runs[run].status == Running
    requires FinalStatus(u.runs[run].status)
    requires u.locks == t.locks - {t.runs[run].issue}
    ensures TablesOk(u)
  {
    assert Owns(t, run, t.runs[run].issue);
    forall issue, r1, r2 | ActiveFor(u, issue, r1) && ActiveFor(u, issue, r2)
      ensures r1 == r2
    {
      assert ActiveFor(t, issue, r1) && ActiveFor(t, issue, r2);
    }
    forall r | r in u.runs && u.runs[r].status == Running
      ensures Owns(u, r, u.runs[r].issue)
    {
      assert Owns(t, r, t.runs[r].issue);
    }
  }

  lemma ClaimKeepsTables(t: Tables, c: Context, ttl: int)
    requires TablesOk(t)
    ensures TablesOk(ClaimEffect(t, c, ttl).after)
  {
    var u := ClaimEffect(t, c, ttl).after;
    if !TtlOk(ttl) || ClaimConflicts(t, c) {
      KeptWithSameRows(t, u);
    } else {
      forall issue, r1, r2 | ActiveFor(u, issue, r1) && ActiveFor(u, issue, r2)
        ensures r1 == r2
      {
        if r1 != c.run { assert ActiveFor(t, issue, r1); }
        if r2 != c.run { assert ActiveFor(t, issue, r2); }
      }
      forall r | r in u.runs && u.runs[r].status == Running
        ensures Owns(u, r, u.runs[r].issue)
      {
        if r != c.run { assert Owns(t, r, t.runs[r].issue); assert ActiveFor(t, t.runs[r].issue, r); }
      }
    }
  }

  lemma HeartbeatKeepsTables(t: Tables, run: string, issue: string, ttl: int)
    requires TablesOk(t)
    ensures TablesOk(HeartbeatEffect(t, run, issue, ttl).after)
  {
    var u := HeartbeatEffect(t, run, issue, ttl).after;
    forall i, r1, r2 | ActiveFor(u, i, r1) && ActiveFor(u, i, r2)
      ensures r1 == r2
    {
      assert ActiveFor(t, i, r1) && ActiveFor(t, i, r2);
    }
    forall r | r in u.runs && u.runs[r].status == Running
      ensures Owns(u, r, u.runs[r].issue)
    {
      assert Owns(t, r, t.runs[r].issue);
    }
  }

  lemma FinishKeepsTables(t: Tables, run: string, issue: string, status: Status, arg: FieldsArgument)
    requires TablesOk(t)
    ensures TablesOk(FinishEffect(t, run, issue, status, arg).after)
  {
    var outcome := FinishEffect(t, run, issue, status, arg);
    if outcome.reply == Yes {
      KeptWhenRunStops(t, outcome.after, run);
    }
  }

  lemma RecoverKeepsTables(t: Tables, issue: string)
    requires TablesOk(t)
    ensures TablesOk(RecoverEffect(t, issue).after)
  {
    var outcome := RecoverEffect(t, issue);
    if outcome.reply == Yes {
      KeptWhenRunStops(t, outcome.after, t.locks[issue].run);
    }
  }

  lemma ReleaseKeepsTables(t: Tables, issue: string)
    requires TablesOk(t)
    ensures TablesOk(ReleaseEffect(t, issue))
  {
    var u := ReleaseEffect(t, issue);
    forall i, r1, r2 | ActiveFor(u, i, r1) && ActiveFor(u, i, r2)
      ensures r1 == r2
    {
      assert ActiveFor(t, i, r1) && ActiveFor(t, i, r2);
    }
    forall r | r in u.runs && u.runs[r].status == Running
      ensures Owns(u, r, u.runs[r].issue)
    {
      assert Owns(t, r, t.runs[r].issue);
    }
  }

  /** From the invariant, the holder charged with a conflict is unique. */
  lemma HolderIsUnique(t: Tables, issue: string, run: string)
    requires TablesOk(t) && ActiveFor(t, issue, run)
    ensures Holder(t, issue) == Some((run, t.runs[run].agent))
  {
    if issue in t.locks {
      assert ActiveFor(t, issue, t.locks[issue].run);
    } else {
      assert LatestActive(t, issue, run);
    }
  }

  lemma NoActiveNoHolder(t: Tables, issue: string)
    requires issue !in t.locks && forall run :: !ActiveFor(t, issue, run)
    ensures Holder(t, issue) == None
  {
  }
}
