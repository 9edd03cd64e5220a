/** The stories of all runs are kept by every step of the system: what a failed run stores and logs, heartbeats,
    crashes, and what everybody else does. */
module StoriesKept {
  import opened Options
  import opened Payloads
  import opened Execution
  import opened Lease
  import opened LeaseHistory
  import opened EventPipeline
  import opened KanbanContract
  import opened Workers
  import opened WorkerSafety
  import opened RunRecords
  import opened PostedRows
  import opened Stories

  // ---------------------------------------------------------------- what the row and the log keep of a failure

  predicate OutcomeRow(e: Event, run: string) { e.run == run && (e.kind == RunFailed || e.kind == RunBlocked) }

  ghost predicate NoOutcome(log: seq<Event>, run: string) { forall e :: e in log ==> !OutcomeRow(e, run) }

  /** There is an outcome row, and every one is this. */
  ghost predicate ClosedWith(log: seq<Event>, run: string, kind: Kind, payload: Payload) {
    (exists e :: e in log && OutcomeRow(e, run)) &&
    forall e :: e in log && OutcomeRow(e, run) ==> e.kind == kind && e.payload == payload
  }

  /** An empty name is replaced in the event, not in the column. */
  function FailureTold(name: string): Payload {
    map[Error := Text(if name == "" then "RuntimeError" else name), ErrorCode := Text(name)]
  }

  function StoredError(row: Option<Run>): Option<string> {
    if row.Some? && Error in row.value.columns then Some(row.value.columns[Error]) else None
  }

  predicate MayHaveConcluded(main: MainPc) { main.Ended? && main.how.Concluded? && main.how.answer != Some(No) }

  /** What an accepted last `finish` leaves, for good. */
  ghost predicate ConclusionStored(row: Run, log: seq<Event>, run: string, raised: Exception) {
    if raised == BlockedError then
      (row.status == Blocked ==> row.columns == map[Error := "ExecutionBlocked"]) &&
      ClosedWith(log, run, RunBlocked, map[Error := Text("ExecutionBlocked")])
    else row.columns.Keys == {Error} && ClosedWith(log, run, RunFailed, FailureTold(row.columns[Error]))
  }

  ghost predicate StoredOk(row: Option<Run>, log: seq<Event>, w: Worker) {
    && (MayHaveConcluded(w.main) || NoOutcome(log, w.context.run))
    && (LastAccepted(w.main) ==> row.Some? && ConclusionStored(row.value, log, w.context.run, w.main.how.raised))
  }

  /** A row that keeps its columns, except that a blocked one may be released. */
  predicate ColumnsKept(before: Option<Run>, after: Option<Run>, raised: Exception) {
    before.Some? && after.Some? &&
    if raised == BlockedError then after.value.status == Blocked ==> after == before
    else after.value.columns == before.value.columns
  }

  lemma OutcomeAppends(log: seq<Event>, more: seq<Event>, run: string)
    requires NoOutcome(more, run)
    ensures NoOutcome(log, run) ==> NoOutcome(log + more, run)
    ensures forall kind, payload :: ClosedWith(log, run, kind, payload) ==> ClosedWith(log + more, run, kind, payload)
  {
    hide OutcomeRow;
  }

  lemma StoredKept(before: Option<Run>, after: Option<Run>, log: seq<Event>, more: seq<Event>, w: Worker, v: Worker)
    requires StoredOk(before, log, w) && NoOutcome(more, w.context.run) && v.context == w.context
    requires v.main == w.main || (!MayHaveConcluded(w.main) && !LastAccepted(v.main))
    requires LastAccepted(w.main) ==> ColumnsKept(before, after, w.main.how.raised)
    ensures StoredOk(after, log + more, v)
  {
    hide NoOutcome, ClosedWith;
    OutcomeAppends(log, more, w.context.run);
  }

  lemma ConclusionPayload(status: Status, name: string)
    ensures var fields := map[Error := name, ErrorCode := name];
      FinalPayload(Failed, fields) == FailureTold(name) &&
      FinalPayload(Blocked, fields) == map[Error := Text(if name == "" then "ExecutionBlocked" else name)]
  {
  }

  /** The two rows of a conclusion. */
  lemma ConclusionRows(log: seq<Event>, run: string, issue: string, agent: string, status: Status,
                       fields: map<Field, string>)
    requires NoOutcome(log, run) && (status == Failed || status == Blocked)
    ensures ClosedWith(log + FinishEvents(run, issue, agent, status, fields), run, FinalKind(status),
                       FinalPayload(status, fields))
  {
    hide FinalPayload;
    var more := FinishEvents(run, issue, agent, status, fields);
    assert more[0] in log + more;
    assert forall e :: e in log + more ==> e in log || e == more[0] || e == more[1];
  }

  lemma ConclusionColumns(name: string)
    ensures StoredColumns(map[Error := name, ErrorCode := name]) == map[Error := name]
  {
  }

  /** The last `finish`: whatever became of it, the row and the log hold what `StoredOk` says. */
  lemma ConcludeStores(t: Tables, w: Worker, fault: Fault)
    requires TablesOk(t) && w.main.Concluding? && StoredOk(RowOf(t, w.context.run), t.log, w)
    requires (w.main.status == Failed && w.main.exc != BlockedError) ||
      (w.main.status == Blocked && w.main.exc == BlockedError && w.main.error == "ExecutionBlocked")
    ensures var move := ConcludeStep(t, w, w.main.status, w.main.error, w.main.exc, fault);
      var u := After(t, move.op); var row := RowOf(u, w.context.run);
      StoredOk(row, u.log, move.worker) &&
      (LastAccepted(move.worker.main) ==> StoredError(row) == Some(w.main.error))
  {
    hide TablesOk, FinalPayload, StoredColumns, FinishEvents, ClosedWith, NoOutcome, FailureTold;
    var c, status, name := w.context, w.main.status, w.main.error;
    var fields := map[Error := name, ErrorCode := name];
    var move := ConcludeStep(t, w, status, name, w.main.exc, fault);
    OwnFinishRow(t, c.run, c.issue, status, fields);
    if FinishEffect(t, c.run, c.issue, status, ObjectFields(fields)).reply == Yes && !fault.LostBefore? {
      ConclusionRows(t.log, c.run, c.issue, t.locks[c.issue].agent, status, fields);
      ConclusionPayload(status, name);
      ConclusionColumns(name);
    }
  }

  lemma CompletionWritesNoOutcome(t: Tables, run: string, issue: string, arg: FieldsArgument) returns (more: seq<Event>)
    ensures FinishEffect(t, run, issue, Completed, arg).after.log == t.log + more && NoOutcome(more, run)
  {
    hide FinalPayload, StoredColumns;
    more := if FinishEffect(t, run, issue, Completed, arg).reply != Yes then []
            else FinishEvents(run, issue, t.locks[issue].agent, Completed,
                              if arg.ObjectFields? then arg.fields else map[]);
  }

  /** The transactions of a worker's main thread before its last `finish` write neither `run.failed` nor
      `run.blocked`. */
  lemma OwnWritesNoOutcome(t: Tables, op: Op, run: string) returns (more: seq<Event>)
    requires OwnPost(op, run) && (op.Finish? ==> op.run == run && op.status == Completed)
    ensures Apply(t, op).after.log == t.log + more && NoOutcome(more, run)
  {
    hide ClaimEffect, HeartbeatEffect, FinishEffect, RecoverEffect, ReleaseEffect;
    if op.Finish? {
      more := CompletionWritesNoOutcome(t, op.run, op.issue, op.fields);
    } else {
      more := RowsAppended(t, op);
    }
  }

  /** The dispatcher answers third, if at all. */
  predicate HandedThird(notes: seq<Input>, w: Worker) {
    w.outcome == if |notes| >= 3 && notes[2].Dispatched? then Some(notes[2].outcome) else None
  }

  /** `completed` is asked for only with the dispatcher's result, once all its events are posted and the issue is
      in review; nothing is posted after that. */
  ghost predicate AskedFourth(notes: seq<Input>, rows: seq<Event>, w: Worker) {
    Completed in w.finishes ==>
      |notes| >= 4 && notes[..2] == STARTED && notes[2].Dispatched? && notes[2].outcome.Finished? &&
      notes[3] == Callback("In Review", None) &&
      rows == Opening(w.context) + RowsOfAll(w.context, notes[2].outcome.result.events)
  }

  /** The events of a result that was handed over and validated, if any. */
  predicate HandedEvents(policy: Policy, notes: seq<Input>, events: seq<Entry>) {
    events == [] ||
    (|notes| >= 3 && notes[2].Dispatched? && notes[2].outcome.Finished? && notes[2].outcome.result.events == events &&
     AllAccepted(policy, events))
  }

  /** The input that leads to the failure path by an exception carrying these events. */
  predicate Carries(input: Input, events: seq<Entry>) {
    match input
    case Callback(moved, Some(EventError(_, carried))) => moved != "Blocked" && carried == events
    case Dispatched(Failing(EventError(_, carried))) => carried == events
    case _ => false
  }

  predicate RaisedEvents(policy: Policy, notes: seq<Input>, events: seq<Entry>) {
    events == [] || (AllAccepted(policy, events) && exists i :: 0 <= i < |notes| && Carries(notes[i], events))
  }

  /** The first `n` rows are a prefix of the announcement and the rows of a result, the others of the rows of an
      exception. */
  ghost predicate SplitAt(policy: Policy, c: Context, notes: seq<Input>, rows: seq<Event>, result: seq<Entry>,
                          raised: seq<Entry>, n: nat) {
    HandedEvents(policy, notes, result) && RaisedEvents(policy, notes, raised) &&
    n <= |rows| && rows[..n] <= Opening(c) + RowsOfAll(c, result) && rows[n..] <= RowsOfAll(c, raised)
  }

  ghost predicate InOrder(policy: Policy, c: Context, notes: seq<Input>, rows: seq<Event>) {
    exists result, raised, n: nat :: SplitAt(policy, c, notes, rows, result, raised, n)
  }

  ghost predicate NotesOk(policy: Policy, notes: seq<Input>, rows: seq<Event>, w: Worker) {
    HandedThird(notes, w) && AskedFourth(notes, rows, w) && InOrder(policy, w.context, notes, rows)
  }

  lemma FirstRowsArePrefix(c: Context, events: seq<Entry>, n: nat)
    ensures RowsOfFirst(c, events, n) <= RowsOfAll(c, events)
  {
    hide Survivors, Row;
    var all := Survivors(events);
    assert forall i :: 0 <= i < n && n <= |all| ==> all[..n][i] == all[i];
  }

  /** At most the announcement and a prefix of the rows of a result. */
  lemma ResultInOrder(policy: Policy, c: Context, notes: seq<Input>, rows: seq<Event>, result: seq<Entry>)
    ensures HandedEvents(policy, notes, result) && rows <= Opening(c) + RowsOfAll(c, result) ==>
      InOrder(policy, c, notes, rows)
  {
    hide HandedEvents, RowsOfAll;
    if HandedEvents(policy, notes, result) && rows <= Opening(c) + RowsOfAll(c, result) {
      assert rows[..|rows|] == rows && rows[|rows|..] == [];
      assert SplitAt(policy, c, notes, rows, result, [], |rows|);
    }
  }

  lemma BeforeIsPrefix(policy: Policy, w: Worker, cause: Cause) returns (result: seq<Entry>)
    ensures Applies(policy, w.context.agent, w.beatFailed, cause) ==>
      HandedEvents(policy, HeardFor(cause), result) &&
      RowsBefore(w.context, cause) <= Opening(w.context) + RowsOfAll(w.context, result)
  {
    hide AllAccepted, GatesOk, RowsOfAll, RowsOfFirst, Survivors;
    result := [];
    if AfterJoin(cause) && !cause.EventsRejected? {
      result := cause.result.events;
      if cause.EventLost? {
        FirstRowsArePrefix(w.context, result, Through(cause.posted, cause.committed));
      }
    }
  }

  /** The rows of an exception come after those of its cause. */
  lemma LedInOrder(policy: Policy, w: Worker, notes: seq<Input>, rows: seq<Event>, more: seq<Event>, exc: Exception)
    requires Led(policy, w, notes, rows, more, exc)
    requires more == [] ||
      (exc.EventError? && AllAccepted(policy, exc.events) && more <= RowsOfAll(w.context, exc.events))
    ensures InOrder(policy, w.context, notes, rows)
  {
    hide AllAccepted, RowsOfAll, Applies, RowsBefore, HandedEvents;
    var cause :| AccountsFor(policy, w, cause, notes, rows, more, exc);
    var result := BeforeIsPrefix(policy, w, cause);
    var n := |RowsBefore(w.context, cause)|;
    assert rows[..n] == RowsBefore(w.context, cause) && rows[n..] == more;
    var raised := if more == [] then [] else exc.events;
    if more != [] {
      assert Carries(notes[|notes| - 1], raised);
    }
    assert SplitAt(policy, w.context, notes, rows, result, raised, n);
  }

  lemma InOrderExtends(policy: Policy, c: Context, notes: seq<Input>, rows: seq<Event>)
    ensures notes != [] && InOrder(policy, c, notes[..|notes| - 1], rows) ==> InOrder(policy, c, notes, rows)
  {
    hide AllAccepted, RowsOfAll;
    if notes != [] && InOrder(policy, c, notes[..|notes| - 1], rows) {
      var before := notes[..|notes| - 1];
      assert forall i :: 0 <= i < |before| ==> before[i] == notes[i];
      var result, raised, n: nat :| SplitAt(policy, c, before, rows, result, raised, n);
      assert SplitAt(policy, c, notes, rows, result, raised, n);
    }
  }

  lemma BlamedInOrder(policy: Policy, w: Worker, notes: seq<Input>, rows: seq<Event>, exc: Exception, name: string)
    ensures Blamed(policy, w, notes, rows, exc, name) ==> InOrder(policy, w.context, notes, rows)
  {
    hide Led, RowsOfAll, RowsOfFirst, Survivors, InOrder, Losing;
    if !Blamed(policy, w, notes, rows, exc, name) { return; }
    if Led(policy, w, notes, rows, [], exc) {
      LedInOrder(policy, w, notes, rows, [], exc);
    } else if Led(policy, w, notes, rows, RowsOfAll(w.context, exc.events), exc) {
      LedInOrder(policy, w, notes, rows, RowsOfAll(w.context, exc.events), exc);
    } else {
      var posted: nat, committed :| posted < |Survivors(exc.events)| &&
        LostAt(policy, w, notes, rows, exc, name, posted, committed);
      FirstRowsArePrefix(w.context, exc.events, Through(posted, committed));
      LedInOrder(policy, w, notes[..|notes| - 1], rows,
                 RowsOfFirst(w.context, exc.events, Through(posted, committed)), exc);
      InOrderExtends(policy, w.context, notes, rows);
    }
  }

  lemma SettledInOrder(policy: Policy, w: Worker, notes: seq<Input>, rows: seq<Event>, exc: Exception, name: string)
    ensures Settled(policy, w, notes, rows, exc, name) ==> InOrder(policy, w.context, notes, rows)
  {
    hide Blamed, InOrder;
    if Settled(policy, w, notes, rows, exc, name) {
      BlamedInOrder(policy, w, if exc == BlockedError then notes[..|notes| - 1] else notes, rows, exc, name);
      if exc == BlockedError { InOrderExtends(policy, w.context, notes, rows); }
    }
  }

  lemma UnfinishedInOrder(policy: Policy, w: Worker, notes: seq<Input>, rows: seq<Event>)
    ensures Unfinished(policy, w, notes, rows) ==> InOrder(policy, w.context, notes, rows)
  {
    hide Settled, InOrder;
    if exc, name :| Settled(policy, w, notes, rows, exc, name) {
      SettledInOrder(policy, w, notes, rows, exc, name);
    }
  }

  lemma EndInOrder(policy: Policy, notes: seq<Input>, rows: seq<Event>, stored: Option<string>, w: Worker)
    ensures w.main.Ended? && w.main != Ended(Crashed) && Told(policy, notes, rows, stored, w) ==>
      InOrder(policy, w.context, notes, rows)
  {
    hide Blamed, Settled, Unfinished, InOrder, RowsOfAll, GatesOk, AllAccepted, Losing;
    if w.main.Ended? && w.main != Ended(Crashed) && Told(policy, notes, rows, stored, w) {
      InOrderExtends(policy, w.context, notes, rows);
      match w.main.how
      case Returned =>
        var result :| Reviewed(policy, w, notes, rows, result);
        ResultInOrder(policy, w.context, notes, rows, result.events);
      case CallbackRaised(_) => BlamedInOrder(policy, w, notes[..|notes| - 1], rows, BlockedError, "ExecutionBlocked");
      case Concluded(Some(Yes), exc) =>
        SettledInOrder(policy, w, notes, rows, exc, if exc == BlockedError then "ExecutionBlocked" else stored.value);
      case Concluded(Some(_), _) => UnfinishedInOrder(policy, w, notes, rows);
      case Concluded(None, _) => UnfinishedInOrder(policy, w, notes[..|notes| - 1], rows);
      case _ => ResultInOrder(policy, w.context, notes, rows, []);
    }
  }

  /** The story at any point but a crash tells the order of the rows. */
  lemma ToldInOrder(policy: Policy, notes: seq<Input>, rows: seq<Event>, stored: Option<string>, w: Worker)
    ensures w.main != Ended(Crashed) && Told(policy, notes, rows, stored, w) ==> InOrder(policy, w.context, notes, rows)
  {
    hide Led, Blamed, Settled, InOrder, RowsOfAll, GatesOk, AllAccepted, StillQueued, EndTold;
    if !Told(policy, notes, rows, stored, w) { return; }
    match w.main
    case Joining(WithException(exc)) => LedInOrder(policy, w, notes, rows, [], exc);
    case Persisting(queue, WithResult(result)) =>
      var sent :| StillQueued(w.context, result.events, queue, sent) && rows == Opening(w.context) + sent;
      SentIsPrefix(w.context, result.events, queue, sent);
      ResultInOrder(policy, w.context, notes, rows, result.events);
    case Persisting(queue, WithException(exc)) =>
      var sent :| StillQueued(w.context, exc.events, queue, sent) && Led(policy, w, notes, rows, sent, exc);
      SentIsPrefix(w.context, exc.events, queue, sent);
      LedInOrder(policy, w, notes, rows, sent, exc);
    case Checking(result) => ResultInOrder(policy, w.context, notes, rows, result.events);
    case EnteringReview(result) => ResultInOrder(policy, w.context, notes, rows, result.events);
    case Completing(result) => ResultInOrder(policy, w.context, notes, rows, result.events);
    case Settling(exc, blamed) => BlamedInOrder(policy, w, notes, rows, exc, NameOf(blamed));
    case MarkingBlocked => BlamedInOrder(policy, w, notes, rows, BlockedError, "ExecutionBlocked");
    case Concluding(_, name, exc) => SettledInOrder(policy, w, notes, rows, exc, name);
    case Ended(_) => EndInOrder(policy, notes, rows, stored, w);
    case _ => ResultInOrder(policy, w.context, notes, rows, []);
  }

  lemma SentIsPrefix(c: Context, entries: seq<Entry>, queue: seq<Entry>, sent: seq<Event>)
    ensures StillQueued(c, entries, queue, sent) ==> sent <= RowsOfAll(c, entries)
  {
    hide Survivors, Row;
    if StillQueued(c, entries, queue, sent) {
      var all := Survivors(entries);
      assert forall i :: 0 <= i < |all| - |queue| ==> all[..|all| - |queue|][i] == all[i];
    }
  }

  lemma StepKeepsThird(cfg: Config, t: Tables, notes: seq<Input>, rows: seq<Event>, stored: Option<string>, w: Worker,
                       input: Input)
    requires MainStep(cfg, t, w, input).Some? && Told(cfg.policy, notes, rows, stored, w) && HandedThird(notes, w)
    ensures HandedThird(notes + Note(input), MainStep(cfg, t, w, input).value.worker)
  {
    hide Led, Blamed, Settled, ReportUnderWay, StillQueued, RowsOfAll, AllAccepted, GatesOk, EndTold, Carried, Reviewed;
    hide ClaimStep, AnnounceStep, JoinStep, PersistStep, CheckStep, CompleteStep, SettleStep, ConcludeStep, AllKanban;
    var all := notes + Note(input);
    assert forall i :: 0 <= i < |notes| ==> all[i] == notes[i];
    assert input.Dispatched? ==> all[2] == input;
  }

  lemma StepKeepsFourth(cfg: Config, t: Tables, notes: seq<Input>, rows: seq<Event>, stored: Option<string>, w: Worker,
                        input: Input)
    requires FinishesOk(w) && MainStep(cfg, t, w, input).Some?
    requires Told(cfg.policy, notes, rows, stored, w) && AskedFourth(notes, rows, w)
    ensures var move := MainStep(cfg, t, w, input).value;
      AskedFourth(notes + Note(input), RowsWith(rows, move.op), move.worker)
  {
    hide Told, MainStep, RowsOfAll;
    var all, v := notes + Note(input), MainStep(cfg, t, w, input).value.worker;
    assert forall i :: 0 <= i < |notes| ==> all[i] == notes[i];
    assert |notes| >= 2 ==> all[..2] == notes[..2];
    StepAsks(cfg, t, w, input);
    if w.main.Completing? {
      ReviewedNotes(cfg.policy, notes, rows, stored, w);
    }
  }

  lemma StepAsks(cfg: Config, t: Tables, w: Worker, input: Input)
    requires FinishesOk(w) && MainStep(cfg, t, w, input).Some?
    ensures var move := MainStep(cfg, t, w, input).value; var v := move.worker;
      v.context == w.context &&
      (Completed in v.finishes ==>
        (Completed in w.finishes || w.main.Completing?) && RowsWith([], move.op) == [])
  {
    hide Apply, Plan, AllAccepted, GatesOk, AllKanban;
  }

  lemma ReviewedNotes(policy: Policy, notes: seq<Input>, rows: seq<Event>, stored: Option<string>, w: Worker)
    ensures w.main.Completing? && Told(policy, notes, rows, stored, w) ==>
      notes == Handed(w.main.result) + [Callback("In Review", None)]
    ensures w.main.Completing? && Told(policy, notes, rows, stored, w) ==>
      rows == Opening(w.context) + RowsOfAll(w.context, w.main.result.events)
  {
  }

  // ---------------------------------------------------------------- heartbeats, crashes and everybody else

  lemma PulseTells(policy: Policy, notes: seq<Input>, rows: seq<Event>, stored: Option<string>, w: Worker, v: Worker)
    requires ControlOk(w) && w.pulse != Exited && w.pulse != NotStarted && Told(policy, notes, rows, stored, w)
    requires v == w.(pulse := v.pulse, beatFailed := v.beatFailed, leasedAt := v.leasedAt, calls := v.calls)
    ensures Told(policy, notes, rows, stored, v)
  {
    hide Ordered, HeardFor, Raising, RowsBefore;
    LivePulseHasNotFinished(w);
    if w.main.Joining? && w.main.next.WithException? {
      var exc := w.main.next.exc;
      var cause :| AccountsFor(policy, w, cause, notes, rows, [], exc);
      assert AccountsFor(policy, v, cause, notes, rows, [], exc);
    }
  }

  ghost predicate Refused(beats: seq<Option<Reply>>) { exists i :: 0 <= i < |beats| && beats[i] != Some(Yes) }

  lemma RefusedAppends(beats: seq<Option<Reply>>, reply: Option<Reply>)
    ensures Refused(beats + [reply]) <==> Refused(beats) || reply != Some(Yes)
  {
    var all := beats + [reply];
    assert all[|beats|] == reply && forall i :: 0 <= i < |beats| ==> all[i] == beats[i];
    if i :| 0 <= i < |beats| && beats[i] != Some(Yes) { assert all[i] != Some(Yes); }
  }

  /** The heartbeat thread stops at the first call that is not answered with yes. */
  ghost predicate BeatsOk(beats: seq<Option<Reply>>, w: Worker) {
    (w.beatFailed <==> Refused(beats)) && (w.beatFailed ==> w.pulse == Exited) &&
    forall i :: 0 <= i < |beats| - 1 ==> beats[i] == Some(Yes)
  }

  /** Everything known of one run. */
  ghost predicate RunTold(policy: Policy, s: System, run: string)
    requires run in s.workers
  {
    var w, row := s.workers[run], RowOf(s.tables, run);
    var notes, rows := Notable(HeardBy(s, run)), ClientRows(s.tables.log, run);
    Told(policy, notes, rows, StoredError(row), w) && NotesOk(policy, notes, rows, w) &&
    StoredOk(row, s.tables.log, w) && BeatsOk(BeatsOf(s, run), w)
  }

  ghost predicate StoriesOk(policy: Policy, s: System) {
    (forall run :: run in s.workers ==> RunTold(policy, s, run)) &&
    s.heard.Keys <= s.workers.Keys && s.beats.Keys <= s.workers.Keys
  }

  /** Where an accepted conclusion leaves the row, from the worker's invariant. */
  lemma AcceptedStatus(row: Option<Run>, w: Worker)
    requires WorkerOk(row, w) && LastAccepted(w.main)
    ensures row.Some? &&
      if w.main.how.raised == BlockedError then row.value.status == Blocked || row.value.status == Canceled
      else row.value.status == Failed
  {
    hide ThreadsOk, CallsOk, GatesHeld, ReportsOk;
  }

  /** What others do to a run leaves its story. */
  lemma ForeignTells(policy: Policy, t: Tables, op: Op, heard: seq<Input>, w: Worker, actor: string)
    requires TablesOk(t) && WorkerOk(RowOf(t, w.context.run), w) && actor != w.context.run && Foreign(op, w.context.run)
    requires By(op, actor) || op.Recover? || op.Release? || op.Tick?
    requires OwnPost(op, actor) && EndsFinally(op)
    requires var row := RowOf(t, w.context.run);
      Told(policy, heard, ClientRows(t.log, w.context.run), StoredError(row), w) && StoredOk(row, t.log, w)
    ensures ClientRows(Apply(t, op).after.log, w.context.run) == ClientRows(t.log, w.context.run)
    ensures var u := Apply(t, op).after; var row := RowOf(u, w.context.run);
      Told(policy, heard, ClientRows(u.log, w.context.run), StoredError(row), w) && StoredOk(row, u.log, w)
  {
    hide TablesOk, WorkerOk, Apply, Told, StoredOk, ClientRows;
    var run := w.context.run;
    var u := Apply(t, op).after;
    ForeignRow(t, op, run);
    ForeignClientRows(t, op, run, actor);
    var more := ForeignRowsAreQuiet(t, op, run, actor);
    if LastAccepted(w.main) { AcceptedStatus(RowOf(t, run), w); }
    ToldElsewhere(policy, heard, ClientRows(t.log, run), StoredError(RowOf(t, run)), StoredError(RowOf(u, run)), w);
    StoredKept(RowOf(t, run), RowOf(u, run), t.log, more, w, w);
  }

  lemma ConclusionKnown(policy: Policy, notes: seq<Input>, rows: seq<Event>, stored: Option<string>, w: Worker)
    requires w.main.Concluding? && FinishesOk(w) && RaisesOk(w) && Told(policy, notes, rows, stored, w)
    ensures (w.main.status == Failed && w.main.exc != BlockedError) ||
      (w.main.status == Blocked && w.main.exc == BlockedError && w.main.error == "ExecutionBlocked")
  {
    hide Settled;
    BlockedName(policy, w, notes, rows, w.main.exc, w.main.error);
  }

  lemma EarlierStores(cfg: Config, t: Tables, w: Worker, input: Input)
    requires TablesOk(t) && WorkerOk(RowOf(t, w.context.run), w) && !w.main.Concluding?
    requires MainStep(cfg, t, w, input).Some? && StoredOk(RowOf(t, w.context.run), t.log, w)
    ensures var move := MainStep(cfg, t, w, input).value; var u := After(t, move.op);
      !LastAccepted(move.worker.main) && StoredOk(RowOf(u, w.context.run), u.log, move.worker)
  {
    hide TablesOk, WorkerOk, Apply, StoredOk, MainStep;
    var run, move := w.context.run, MainStep(cfg, t, w, input).value;
    OkParts(RowOf(t, run), w);
    EarlierStep(cfg, t, w, input);
    var u := After(t, move.op);
    var more := [];
    if move.op.Some? {
      more := OwnWritesNoOutcome(t, move.op.value, run);
    } else {
      assert t.log + [] == t.log;
    }
    StoredKept(RowOf(t, run), RowOf(u, run), t.log, more, w, move.worker);
  }

  lemma EarlierStep(cfg: Config, t: Tables, w: Worker, input: Input)
    requires FinishesOk(w) && ReportsOk(w) && !w.main.Concluding? && MainStep(cfg, t, w, input).Some?
    ensures var move := MainStep(cfg, t, w, input).value; var op := move.op;
      !w.main.Ended? && !LastAccepted(move.worker.main) && move.worker.context == w.context &&
      (op.Some? ==> OwnPost(op.value, w.context.run)) &&
      (op.Some? && op.value.Finish? ==> op.value.run == w.context.run && op.value.status == Completed)
  {
    hide Apply, Plan;
  }

  /** A step of the run's own main thread. */
  lemma OwnStepTells(cfg: Config, t: Tables, notes: seq<Input>, w: Worker, input: Input)
    requires TablesOk(t) && WorkerOk(RowOf(t, w.context.run), w) && MainStep(cfg, t, w, input).Some?
    requires var row := RowOf(t, w.context.run);
      Told(cfg.policy, notes, ClientRows(t.log, w.context.run), StoredError(row), w) && StoredOk(row, t.log, w)
    ensures var move := MainStep(cfg, t, w, input).value;
      ClientRows(After(t, move.op).log, w.context.run) == RowsWith(ClientRows(t.log, w.context.run), move.op)
    ensures var move := MainStep(cfg, t, w, input).value;
      var u := After(t, move.op); var row := RowOf(u, w.context.run);
      Told(cfg.policy, notes + Note(input), ClientRows(u.log, w.context.run), StoredError(row), move.worker) &&
      StoredOk(row, u.log, move.worker)
  {
    hide TablesOk, WorkerOk, Told, StoredOk, ClientRows, MainStep, Apply, Note;
    var run, row, rows := w.context.run, RowOf(t, w.context.run), ClientRows(t.log, w.context.run);
    var move := MainStep(cfg, t, w, input).value;
    var u := After(t, move.op);
    OkParts(row, w);
    MainStepPostsOwn(cfg, t, w, input);
    if move.op.Some? { OwnClientRows(t, move.op.value, run); }
    OkParts(row, w);
    if w.main.Concluding? {
      ConclusionKnown(cfg.policy, notes, rows, StoredError(row), w);
      LastStepTells(cfg, t, notes, rows, w, input);
    } else {
      EarlierTells(cfg, t, notes, rows, StoredError(row), w, input);
      EarlierStores(cfg, t, w, input);
      ToldElsewhere(cfg.policy, notes + Note(input), RowsWith(rows, move.op), StoredError(row),
                    StoredError(RowOf(u, run)), move.worker);
    }
  }

  lemma LastStepTells(cfg: Config, t: Tables, notes: seq<Input>, rows: seq<Event>, w: Worker, input: Input)
    requires TablesOk(t) && WorkerOk(RowOf(t, w.context.run), w) && MainStep(cfg, t, w, input).Some?
    requires w.main.Concluding? && StoredOk(RowOf(t, w.context.run), t.log, w)
    requires Told(cfg.policy, notes, rows, StoredError(RowOf(t, w.context.run)), w)
    requires (w.main.status == Failed && w.main.exc != BlockedError) ||
      (w.main.status == Blocked && w.main.exc == BlockedError && w.main.error == "ExecutionBlocked")
    ensures var move := MainStep(cfg, t, w, input).value;
      var u := After(t, move.op); var row := RowOf(u, w.context.run);
      Told(cfg.policy, notes + Note(input), RowsWith(rows, move.op), StoredError(row), move.worker) &&
      StoredOk(row, u.log, move.worker)
  {
    hide TablesOk, WorkerOk, Told, StoredOk, ConcludeStep, Apply, Note;
    ConcludeStores(t, w, input.fault);
    MainStepKeeps(cfg, t, w, input);
    var move := MainStep(cfg, t, w, input).value;
    OkParts(RowOf(After(t, move.op), w.context.run), move.worker);
    ConcludeTells(cfg.policy, t, notes, rows, StoredError(RowOf(t, w.context.run)),
                  StoredError(RowOf(After(t, move.op), w.context.run)), w, input.fault);
  }

  // ---------------------------------------------------------------- the whole system

  /** The histories of everybody but `run` are those of `s`. */
  ghost predicate HistoriesOfOthers(s: System, u: System, run: string) {
    u.heard.Keys <= s.heard.Keys + {run} && u.beats.Keys <= s.beats.Keys + {run} &&
    forall other :: other != run ==> HeardBy(u, other) == HeardBy(s, other) && BeatsOf(u, other) == BeatsOf(s, other)
  }

  lemma HearKeepsOthers(s: System, run: string, input: Input)
    ensures var u := Hear(s, run, input);
      u.tables == s.tables && u.workers == s.workers && HistoriesOfOthers(s, u, run) &&
      HeardBy(u, run) == HeardBy(s, run) + [input] && BeatsOf(u, run) == BeatsOf(s, run)
  {
  }

  lemma BeatKeepsOthers(cfg: Config, before: System, s: System, run: string, fault: Fault)
    requires run in before.workers
    ensures var u := Beat(cfg, before, s, run, fault); var w := before.workers[run];
      u.tables == s.tables && u.workers == s.workers && HistoriesOfOthers(s, u, run) &&
      HeardBy(u, run) == HeardBy(s, run) &&
      BeatsOf(u, run) == BeatsOf(s, run) +
        if w.pulse.Calling?
        then [Answer(before.tables, Heartbeat(w.context.run, w.context.issue, cfg.ttl), fault)] else []
  {
    hide Answer;
  }

  lemma TakeTells(policy: Policy, s: System, run: string, move: Move, u: System)
    requires SystemOk(s) && StoriesOk(policy, s) && run in s.workers
    requires move.op.Some? ==> By(move.op.value, run) && OwnPost(move.op.value, run) && EndsFinally(move.op.value)
    requires u.tables == After(s.tables, move.op) && u.workers == s.workers[run := move.worker]
    requires RunTold(policy, u, run)
    requires HistoriesOfOthers(s, u, run)
    ensures StoriesOk(policy, u)
  {
    hide TablesOk, WorkerOk, Told, NotesOk, StoredOk, BeatsOk, Apply, ClientRows, Play, AllFaithful;
    forall other | other in u.workers
      ensures RunTold(policy, u, other)
    {
      if other == run {
        assert RunTold(policy, u, run);
      } else {
        assert RunTold(policy, s, other);
        if move.op.Some? {
          ForeignTells(policy, s.tables, move.op.value, Notable(HeardBy(s, other)), s.workers[other], run);
        }
      }
    }
  }

  lemma TransactTells(policy: Policy, s: System, op: Op)
    requires SystemOk(s) && StoriesOk(policy, s) && (op.Recover? || op.Release? || op.Tick?)
    ensures StoriesOk(policy, Transact(s, op))
  {
    hide TablesOk, WorkerOk, Told, NotesOk, StoredOk, BeatsOk, Apply, ClientRows, Play, AllFaithful;
    forall run | run in s.workers
      ensures RunTold(policy, Transact(s, op), run)
    {
      assert RunTold(policy, s, run) && run + "+" != run;
      ForeignTells(policy, s.tables, op, Notable(HeardBy(s, run)), s.workers[run], run + "+");
    }
  }

  lemma SpawnTells(policy: Policy, s: System, c: Context)
    requires SystemOk(s) && StoriesOk(policy, s) && NamesKnown(s.tables.log, s.workers.Keys) && c.run !in s.workers
    ensures StoriesOk(policy, s.(workers := s.workers[c.run := NewWorker(c)]))
  {
    hide TablesOk, WorkerOk, Told, NotesOk, StoredOk, BeatsOk, ClientRows, Play, AllFaithful;
    NoClientRows(s.tables.log, c.run);
    NewTells(policy, s.tables.log, c);
    var u := s.(workers := s.workers[c.run := NewWorker(c)]);
    forall run | run in u.workers
      ensures RunTold(policy, u, run)
    {
      if run != c.run { assert RunTold(policy, s, run); }
    }
  }

  lemma NewTells(policy: Policy, log: seq<Event>, c: Context)
    requires forall e :: e in log ==> e.run != c.run
    ensures var w := NewWorker(c);
      Told(policy, [], [], None, w) && NotesOk(policy, [], [], w) && StoredOk(None, log, w) && BeatsOk([], w)
  {
    hide InOrder, RowsOfAll;
    ResultInOrder(policy, c, [], [], []);
  }

  lemma MainMoveTells(cfg: Config, s: System, run: string, input: Input)
    requires SystemOk(s) && StoriesOk(cfg.policy, s) && run in s.workers
    requires MainStep(cfg, s.tables, s.workers[run], input).Some?
    ensures StoriesOk(cfg.policy, Do(cfg, s, MainMove(run, input)))
  {
    hide TablesOk, WorkerOk, Told, StoredOk, Apply, ClientRows, Play, AllFaithful, MainStep, Hear, Note, Notable,
      HistoriesOfOthers, BeatsOk, HandedThird, AskedFourth, InOrder, RowsWith;
    var w, move := s.workers[run], MainStep(cfg, s.tables, s.workers[run], input).value;
    var u := Do(cfg, s, MainMove(run, input));
    assert RunTold(cfg.policy, s, run);
    OkParts(RowOf(s.tables, run), w);
    MainStepIsOwn(cfg, s.tables, w, input);
    MainStepPostsOwn(cfg, s.tables, w, input);
    OwnStepTells(cfg, s.tables, Notable(HeardBy(s, run)), w, input);
    StepKeepsThird(cfg, s.tables, Notable(HeardBy(s, run)), ClientRows(s.tables.log, run),
                   StoredError(RowOf(s.tables, run)), w, input);
    StepKeepsFourth(cfg, s.tables, Notable(HeardBy(s, run)), ClientRows(s.tables.log, run),
                    StoredError(RowOf(s.tables, run)), w, input);
    NotableAppends(HeardBy(s, run), input);
    HearKeepsOthers(Take(s, run, Some(move)), run, input);
    OkParts(RowOf(s.tables, run), w);
    MainKeepsBeat(cfg, s.tables, w, input, BeatsOf(s, run));
    ToldInOrder(cfg.policy, Notable(HeardBy(u, run)), ClientRows(u.tables.log, run),
                StoredError(RowOf(u.tables, run)), move.worker);
    TakenHistories(s, run, move, u);
    TakeTells(cfg.policy, s, run, move, u);
  }

  lemma TakenHistories(s: System, run: string, move: Move, u: System)
    ensures HistoriesOfOthers(Take(s, run, Some(move)), u, run) ==> HistoriesOfOthers(s, u, run)
  {
    hide Apply;
  }

  lemma MainKeepsBeat(cfg: Config, t: Tables, w: Worker, input: Input, beats: seq<Option<Reply>>)
    requires ThreadsOk(w) && MainStep(cfg, t, w, input).Some? && BeatsOk(beats, w)
    ensures var v := MainStep(cfg, t, w, input).value.worker;
      BeatsOk(beats, v) && v.context == w.context && v.main != Ended(Crashed)
  {
    hide Apply, Plan, AllKanban, AllAccepted, GatesOk, Refused;
  }

  lemma PulseMoveTells(cfg: Config, s: System, run: string, fault: Fault)
    requires SystemOk(s) && StoriesOk(cfg.policy, s) && run in s.workers
    requires PulseStep(cfg, s.tables, s.workers[run], fault).Some?
    ensures StoriesOk(cfg.policy, Do(cfg, s, PulseMove(run, fault)))
  {
    hide TablesOk, WorkerOk, Told, StoredOk, Apply, ClientRows, Play, AllFaithful, PulseStep, Beat, Notable,
      HistoriesOfOthers, Answer, BeatsOk, InOrder, RowsOfAll;
    var w, move := s.workers[run], PulseStep(cfg, s.tables, s.workers[run], fault).value;
    var u := Do(cfg, s, PulseMove(run, fault));
    assert RunTold(cfg.policy, s, run);
    PulseStepIsHeartbeat(cfg, s.tables, w, fault);
    PulseStepIsOwn(cfg, s.tables, w, fault);
    OwnPulseTells(cfg, s.tables, Notable(HeardBy(s, run)), w, fault);
    PulseRefuses(cfg, s.tables, w, fault, BeatsOf(s, run));
    BeatKeepsOthers(cfg, s, Take(s, run, Some(move)), run, fault);
    TakenHistories(s, run, move, u);
    TakeTells(cfg.policy, s, run, move, u);
  }

  lemma PulseRefuses(cfg: Config, t: Tables, w: Worker, fault: Fault, beats: seq<Option<Reply>>)
    requires PulseStep(cfg, t, w, fault).Some? && BeatsOk(beats, w)
    ensures BeatsOk(beats +
      if w.pulse.Calling? then [Answer(t, Heartbeat(w.context.run, w.context.issue, cfg.ttl), fault)] else [],
      PulseStep(cfg, t, w, fault).value.worker)
  {
    hide Apply, Refused;
    if w.pulse.Calling? {
      assert forall i :: 0 <= i < |beats| ==> beats[i] == Some(Yes) by { AllYes(beats); }
      RefusedAppends(beats, Answer(t, Heartbeat(w.context.run, w.context.issue, cfg.ttl), fault));
    } else {
      assert beats + [] == beats;
    }
  }

  lemma AllYes(beats: seq<Option<Reply>>)
    ensures !Refused(beats) ==> forall i :: 0 <= i < |beats| ==> beats[i] == Some(Yes)
  {
  }

  lemma OwnPulseTells(cfg: Config, t: Tables, notes: seq<Input>, w: Worker, fault: Fault)
    requires WorkerOk(RowOf(t, w.context.run), w) && PulseStep(cfg, t, w, fault).Some?
    requires var row := RowOf(t, w.context.run);
      Told(cfg.policy, notes, ClientRows(t.log, w.context.run), StoredError(row), w) && StoredOk(row, t.log, w)
    ensures var move := PulseStep(cfg, t, w, fault).value;
      var u := After(t, move.op); var row := RowOf(u, w.context.run);
      Told(cfg.policy, notes, ClientRows(u.log, w.context.run), StoredError(row), move.worker) &&
      StoredOk(row, u.log, move.worker) && ClientRows(u.log, w.context.run) == ClientRows(t.log, w.context.run) &&
      move.worker.outcome == w.outcome && move.worker.finishes == w.finishes
  {
    hide WorkerOk, HeartbeatEffect, ClientRows, Told, StoredOk;
    var run, move := w.context.run, PulseStep(cfg, t, w, fault).value;
    var row, u := RowOf(t, run), After(t, move.op);
    OkParts(row, w);
    HeartbeatKeepsLog(t, run, w.context.issue, cfg.ttl);
    BeatKeepsRow(t, run, w.context.issue, cfg.ttl);
    if LastAccepted(w.main) { AcceptedStatus(row, w); }
    PulseTells(cfg.policy, notes, ClientRows(t.log, run), StoredError(row), w, move.worker);
    assert u.log == t.log + [];
    StoredKept(row, RowOf(u, run), t.log, [], w, move.worker);
  }

  lemma CrashTells(policy: Policy, s: System, run: string)
    requires SystemOk(s) && StoriesOk(policy, s) && run in s.workers && CrashStep(s.workers[run]).Some?
    ensures StoriesOk(policy, Take(s, run, CrashStep(s.workers[run])))
  {
    hide TablesOk, WorkerOk, Play, AllFaithful, ClientRows, Notable, Told, NotesOk, StoredOk, BeatsOk;
    var w, move := s.workers[run], CrashStep(s.workers[run]).value;
    assert RunTold(policy, s, run);
    OkParts(RowOf(s.tables, run), w);
    CrashedTold(policy, Notable(HeardBy(s, run)), ClientRows(s.tables.log, run), RowOf(s.tables, run), s.tables.log, w,
                BeatsOf(s, run));
    TakeTells(policy, s, run, move, Take(s, run, Some(move)));
  }

  lemma CrashedTold(policy: Policy, notes: seq<Input>, rows: seq<Event>, row: Option<Run>, log: seq<Event>, w: Worker,
                    beats: seq<Option<Reply>>)
    requires ThreadsOk(w) && CrashStep(w).Some? && NotesOk(policy, notes, rows, w) && StoredOk(row, log, w)
    requires BeatsOk(beats, w)
    ensures var v := CrashStep(w).value.worker;
      v.context == w.context && BeatsOk(beats, v) &&
      Told(policy, notes, rows, StoredError(row), v) && NotesOk(policy, notes, rows, v) && StoredOk(row, log, v)
  {
    hide NoOutcome, InOrder, Refused, RowsOfAll;
  }

  lemma DoTells(cfg: Config, s: System, a: Action)
    requires SystemOk(s) && RecordsOk(cfg.policy, s) && StoriesOk(cfg.policy, s)
    ensures StoriesOk(cfg.policy, Do(cfg, s, a))
  {
    hide SystemOk, StoriesOk, MainStep, PulseStep, Apply, RecordOk, NamesKnown;
    match a
    case Spawn(c) => if c.run !in s.workers { SpawnTells(cfg.policy, s, c); }
    case MainMove(run, input) =>
      if run in s.workers && MainStep(cfg, s.tables, s.workers[run], input).Some? {
        MainMoveTells(cfg, s, run, input);
      }
    case PulseMove(run, fault) =>
      if run in s.workers && PulseStep(cfg, s.tables, s.workers[run], fault).Some? {
        PulseMoveTells(cfg, s, run, fault);
      }
    case Crash(run) =>
      if run in s.workers && CrashStep(s.workers[run]).Some? { CrashTells(cfg.policy, s, run); }
    case RecoverIssue(issue) => TransactTells(cfg.policy, s, Recover(issue));
    case OperatorRelease(issue) => TransactTells(cfg.policy, s, Release(issue));
    case Pass(elapsed) => TransactTells(cfg.policy, s, Tick(elapsed));
  }

  lemma {:induction false} ExecTells(cfg: Config, actions: seq<Action>)
    ensures StoriesOk(cfg.policy, Exec(cfg, actions))
  {
    hide RunTold, Do, SystemOk, RecordsOk;
    if actions != [] {
      var before := actions[..|actions| - 1];
      ExecTells(cfg, before);
      ExecIsOk(cfg, before);
      ExecIsRecorded(cfg, before);
      DoTells(cfg, Exec(cfg, before), actions[|actions| - 1]);
    }
  }
}
