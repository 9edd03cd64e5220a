/** The four RPCs of `sql/001_runtime_functions.sql`, statement by statement, over mutable tables.

    One call is one transaction: `now` does not move during a call. `run_id` is unique in
    `agent_runs`, `linear_issue_id` is the primary key of the lock table, and a partial unique index
    keeps one active run per issue; these constraints decide when an insert fails. */
module LeaseStore {
  import opened Options
  import opened Payloads
  import opened Lease

  class LeaseDatabase {
    var runs: map<string, Run>
    var locks: map<string, Lock>
    var events: seq<Event>
    var now: int

    ghost function Contents(): Tables
      reads this
    {
      Tables(runs, locks, events, now)
    }

    ghost predicate Valid()
      reads this
    {
      TablesOk(Contents())
    }

    constructor ()
      ensures Valid() && Contents() == Empty
    {
      runs, locks, events, now := map[], map[], [], 0;
    }

    method Claim(c: Context, ttl: int) returns (reply: Reply)
      requires Valid()
      modifies this
      ensures Valid()
      ensures Outcome(reply, Contents()) == ClaimEffect(old(Contents()), c, ttl)
    {
      hide TablesOk, Holder, ClaimEvents, RejectedEvent;
      ClaimKeepsTables(Contents(), c, ttl);
      if ttl < 10 || ttl > 86400 {
        return Raised;
      }
      var expiresAt := now + ttl * SECOND;
      var runsBefore, locksBefore := runs, locks;
      var violation := InsertRun(c);
      if !violation {
        violation := InsertLock(c, expiresAt);
      }
      if violation {
        // The subtransaction rolls back both inserts before the holder is read.
        runs, locks := runsBefore, locksBefore;
        assert Contents() == old(Contents());
        RecordRejection(c);
        return No;
      }
      runs := runs[c.run := runs[c.run].(status := Running, heartbeatAt := Some(now))];
      assert runs == runsBefore[c.run := ClaimedRun(old(Contents()), c)];
      events := events + ClaimEvents(c, ttl, expiresAt);
      return Yes;
    }

    /** The conflict path: read the holder and, if there is one, audit the rejection on its run. */
    method RecordRejection(c: Context)
      requires Valid()
      modifies this`events
      ensures Contents() == match Holder(old(Contents()), c.issue)
        case None => old(Contents())
        case Some(holder) => old(Contents()).(log := old(events) + [RejectedEvent(c.issue, holder, c.run)])
    {
      var holder := FindHolder(c.issue);
      if holder.Some? {
        events := events + [RejectedEvent(c.issue, holder.value, c.run)];
      }
    }

    /** `insert into agent_runs`; the answer tells whether a unique constraint failed. */
    method InsertRun(c: Context) returns (violation: bool)
      modifies this`runs
      ensures violation <==> c.run in old(runs) || exists run :: ActiveFor(old(Contents()), c.issue, run)
      ensures violation ==> runs == old(runs)
      ensures !violation ==> runs == old(runs)[c.run :=
        Run(c.issue, c.agent, Queued, c.risk, c.mode, c.environment, now, None, None, map[])]
    {
      violation := c.run in runs || exists run :: run in runs && runs[run].issue == c.issue && Active(runs[run].status);
      if exists run :: ActiveFor(Contents(), c.issue, run) {
        ghost var run :| ActiveFor(Contents(), c.issue, run);
        assert run in runs && runs[run].issue == c.issue && Active(runs[run].status);
      }
      if violation && c.run !in runs {
        ghost var run :| run in runs && runs[run].issue == c.issue && Active(runs[run].status);
        assert ActiveFor(Contents(), c.issue, run);
      }
      if !violation {
        runs := runs[c.run := Run(c.issue, c.agent, Queued, c.risk, c.mode, c.environment, now, None, None, map[])];
      }
    }

    method InsertLock(c: Context, expiresAt: int) returns (violation: bool)
      modifies this`locks
      ensures violation <==> c.issue in old(locks)
      ensures locks == if violation then old(locks) else old(locks)[c.issue := Lock(c.run, c.agent, expiresAt, None)]
    {
      violation := c.issue in locks;
      if !violation {
        locks := locks[c.issue := Lock(c.run, c.agent, expiresAt, None)];
      }
    }

    /** The two queries of the conflict path: the lock row, else the active run started last. */
    method FindHolder(issue: string) returns (holder: Option<(string, string)>)
      requires Valid()
      ensures holder == Holder(Contents(), issue)
    {
      if issue in locks {
        return Some((locks[issue].run, locks[issue].agent));
      }
      holder := None;
      var todo := runs.Keys;
      while todo != {}
        invariant todo <= runs.Keys
        invariant holder.None? ==> forall run :: ActiveFor(Contents(), issue, run) ==> run in todo
        invariant holder.Some? ==>
          ActiveFor(Contents(), issue, holder.value.0) && holder.value.1 == runs[holder.value.0].agent
        decreases todo
      {
        var run :| run in todo;
        todo := todo - {run};
        if runs[run].issue == issue && Active(runs[run].status) &&
           (holder.None? || runs[run].startedAt > runs[holder.value.0].startedAt)
        {
          holder := Some((run, runs[run].agent));
        }
      }
      if holder.Some? {
        HolderIsUnique(Contents(), issue, holder.value.0);
      } else {
        NoActiveNoHolder(Contents(), issue);
      }
    }

    method Heartbeat(run: string, issue: string, ttl: int) returns (reply: Reply)
      requires Valid()
      modifies this
      ensures Valid()
      ensures Outcome(reply, Contents()) == HeartbeatEffect(old(Contents()), run, issue, ttl)
    {
      HeartbeatKeepsTables(Contents(), run, issue, ttl);
      if ttl < 10 || ttl > 86400 {
        return Raised;
      }
      if !(issue in locks && locks[issue].run == run && locks[issue].expiresAt > now) {
        return No;
      }
      locks := locks[issue := locks[issue].(heartbeatAt := Some(now), expiresAt := now + ttl * SECOND)];
      if !(run in runs && runs[run].status in {Running, Reviewing}) {
        return No;
      }
      runs := runs[run := runs[run].(heartbeatAt := Some(now))];
      return Yes;
    }

    method Finish(run: string, issue: string, status: Status, arg: FieldsArgument) returns (reply: Reply)
      requires Valid()
      modifies this
      ensures Valid()
      ensures Outcome(reply, Contents()) == FinishEffect(old(Contents()), run, issue, status, arg)
    {
      FinishKeepsTables(Contents(), run, issue, status, arg);
      if !(status == Completed || status == Failed || status == Blocked || status == Canceled) {
        return Raised;
      }
      var fields: map<Field, string> := map[];
      match arg {
        case NullFields =>
        case OtherFields => return Raised;
        case ObjectFields(given) => fields := given;
      }
      if !(issue in locks && locks[issue].run == run) {
        return No;
      }
      var agent := locks[issue].agent;
      if !(run in runs && runs[run].issue == issue && runs[run].status in {Running, Reviewing}) {
        return No;
      }
      runs := runs[run := runs[run].(status := status, finishedAt := Some(now), columns := StoredColumns(fields))];
      events := events + FinishEvents(run, issue, agent, status, fields);
      locks := locks - {issue};
      return Yes;
    }

    method Recover(issue: string) returns (reply: Reply)
      requires Valid()
      modifies this
      ensures Valid()
      ensures Outcome(reply, Contents()) == RecoverEffect(old(Contents()), issue)
    {
      RecoverKeepsTables(Contents(), issue);
      if issue !in locks || locks[issue].expiresAt > now {
        return No;
      }
      var lock := locks[issue];
      if lock.run in runs && runs[lock.run].status in {Running, Reviewing, Queued} {
        var row := runs[lock.run];
        runs := runs[lock.run :=
          row.(status := Failed, finishedAt := Some(now), columns := row.columns[Error := "LockExpired"])];
      }
      events := events + RecoverEvents(issue, lock);
      locks := locks - {issue};
      return Yes;
    }

    /** The operator's release statement. */
    method ReleaseBlocked(issue: string)
      requires Valid()
      modifies this
      ensures Valid()
      ensures Contents() == ReleaseEffect(old(Contents()), issue)
    {
      ReleaseKeepsTables(Contents(), issue);
      hide TablesOk, Released;
      runs := ReleasedRows(issue);
    }

    /** The rows the statement leaves: exactly the blocked ones of the issue are rewritten. */
    method ReleasedRows(issue: string) returns (updated: map<string, Run>)
      ensures updated == ReleaseEffect(Contents(), issue).runs
    {
      hide TablesOk, Released;
      updated := runs;
      var todo := runs.Keys;
      while todo != {}
        invariant todo <= runs.Keys && updated.Keys == runs.Keys
        invariant forall run :: run in todo ==> updated[run] == runs[run]
        invariant forall run :: run in runs && run !in todo ==>
          updated[run] == ReleaseEffect(Contents(), issue).runs[run]
        decreases todo
      {
        var run :| run in todo;
        todo := todo - {run};
        if runs[run].issue == issue && runs[run].status == Blocked {
          updated := updated[run := Released(runs[run], now)];
        }
      }
    }

    /** A row inserted by a client: neither lock nor run is consulted. */
    method PostEvent(event: Event)
      requires Valid()
      modifies this
      ensures Valid()
      ensures Contents() == old(Contents()).(log := old(events) + [event])
    {
      KeptWithSameRows(Contents(), Contents().(log := events + [event]));
      events := events + [event];
    }
  }
}
