/** How a run ends, told from what its worker met: which exception is raised, which client rows stand in the log
    and what the row and its outcome event store, over every interleaving. */
module StoryEndings {
  import opened Options
  import opened Payloads
  import opened Execution
  import opened Lease
  import opened LeaseHistory
  import opened EventPipeline
  import opened Workers
  import opened WorkerSafety
  import opened RunRecords
  import opened RunOutcomes
  import opened PostedRows
  import opened TransactionContents
  import opened Kanban
  import opened KanbanContract
  import opened Stories
  import opened StoriesKept

  // ---------------------------------------------------------------- theorems over every run

  /** No call of the main thread was lost. */
  predicate AllAnswered(heard: seq<Input>) {
    forall input :: input in heard && input.Go? ==> input == Go(Answered)
  }

  lemma {:induction false} NotableHolds(heard: seq<Input>, input: Input)
    requires input != Go(Answered)
    ensures input in Notable(heard) <==> input in heard
  {
    if heard != [] {
      var last := |heard| - 1;
      NotableHolds(heard[..last], input);
      assert heard == heard[..last] + [heard[last]];
    }
  }

  lemma ToldOf(cfg: Config, actions: seq<Action>, run: string)
    requires run in Exec(cfg, actions).workers
    ensures var s := Exec(cfg, actions); var w := s.workers[run];
      w.context.run == run && WorkerOk(RowOf(s.tables, run), w) && RunTold(cfg.policy, s, run)
  {
    hide Exec, RunTold, WorkerOk, TablesOk, Play, AllFaithful;
    ExecTells(cfg, actions);
    ExecIsOk(cfg, actions);
  }

  /** The tale of an exception: its cause, the rows of its own events, and what was met after it. */
  datatype Tale = Tale(cause: Cause, report: seq<Event>, tail: seq<Input>)

  ghost predicate Tells(policy: Policy, w: Worker, notes: seq<Input>, rows: seq<Event>, tale: Tale, exc: Exception) {
    && Applies(policy, w.context.agent, w.beatFailed, tale.cause) && exc == Raising(tale.cause)
    && notes == HeardFor(tale.cause) + tale.tail && rows == RowsBefore(w.context, tale.cause) + tale.report
  }

  /** Under which name an exception is stored, and what became of its events. */
  ghost predicate StoredAs(policy: Policy, c: Context, exc: Exception, name: string, tale: Tale) {
    match exc
    case BlockedError => name == "ExecutionBlocked" && tale.report == [] && tale.tail == []
    case OtherError(own) => name == own && tale.report == [] && tale.tail == []
    case EventError(own, events) =>
      if !AllAccepted(policy, events) then name == "PayloadValidationError" && tale.report == [] && tale.tail == []
      else
        (name == own && tale.report == RowsOfAll(c, events) && tale.tail == []) ||
        (exists posted: nat, committed :: posted < |Survivors(events)| && tale.tail == [Losing(name, committed)] &&
           tale.report == RowsOfFirst(c, events, Through(posted, committed)))
  }

  lemma LedTale(policy: Policy, w: Worker, notes: seq<Input>, rows: seq<Event>, more: seq<Event>, exc: Exception)
    returns (cause: Cause)
    requires Led(policy, w, notes, rows, more, exc)
    ensures Tells(policy, w, notes, rows, Tale(cause, more, []), exc)
  {
    hide Applies, HeardFor, Raising, RowsBefore;
    cause :| AccountsFor(policy, w, cause, notes, rows, more, exc);
    assert HeardFor(cause) + [] == HeardFor(cause);
  }

  lemma BlamedTale(policy: Policy, w: Worker, notes: seq<Input>, rows: seq<Event>, exc: Exception, name: string)
    returns (tale: Tale)
    requires Blamed(policy, w, notes, rows, exc, name)
    ensures Tells(policy, w, notes, rows, tale, exc) && StoredAs(policy, w.context, exc, name, tale)
  {
    hide Led, RowsOfAll, RowsOfFirst, Survivors, AllAccepted, Tells, Losing;
    if exc.EventError? && AllAccepted(policy, exc.events) {
      if name == exc.errorType && Led(policy, w, notes, rows, RowsOfAll(w.context, exc.events), exc) {
        var cause := LedTale(policy, w, notes, rows, RowsOfAll(w.context, exc.events), exc);
        tale := Tale(cause, RowsOfAll(w.context, exc.events), []);
      } else {
        tale := LostTale(policy, w, notes, rows, exc, name);
      }
    } else {
      var cause := LedTale(policy, w, notes, rows, [], exc);
      tale := Tale(cause, [], []);
    }
  }

  lemma LostTale(policy: Policy, w: Worker, notes: seq<Input>, rows: seq<Event>, exc: Exception, name: string)
    returns (tale: Tale)
    requires exc.EventError? && AllAccepted(policy, exc.events) && ReportLost(policy, w, notes, rows, exc, name)
    ensures Tells(policy, w, notes, rows, tale, exc) && StoredAs(policy, w.context, exc, name, tale)
  {
    hide Led, RowsOfFirst, Survivors, Losing, AllAccepted, Applies, HeardFor, Raising, RowsBefore;
    var posted: nat, committed :| posted < |Survivors(exc.events)| &&
      LostAt(policy, w, notes, rows, exc, name, posted, committed);
    var report := RowsOfFirst(w.context, exc.events, Through(posted, committed));
    var cause := LedTale(policy, w, notes[..|notes| - 1], rows, report, exc);
    tale := TailAdded(policy, w, notes, rows, Tale(cause, report, []), exc);
  }

  lemma TailAdded(policy: Policy, w: Worker, notes: seq<Input>, rows: seq<Event>, before: Tale, exc: Exception)
    returns (tale: Tale)
    requires notes != [] && Tells(policy, w, notes[..|notes| - 1], rows, before, exc)
    ensures tale == before.(tail := before.tail + [notes[|notes| - 1]]) && Tells(policy, w, notes, rows, tale, exc)
  {
    hide Applies, HeardFor, Raising, RowsBefore;
    tale := before.(tail := before.tail + [notes[|notes| - 1]]);
    var all := HeardFor(before.cause);
    assert notes == notes[..|notes| - 1] + [notes[|notes| - 1]];
    assert all + before.tail + [notes[|notes| - 1]] == all + tale.tail;
  }

  /** An `execute` whose last `finish` was accepted: the exception it raises has a cause in what the worker met,
      the client rows are those of that cause and of the exception's own events, and the row and its one
      outcome event hold the name it is stored under, for good. */
  lemma ConclusionsTell(cfg: Config, actions: seq<Action>, run: string) returns (tale: Tale)
    requires run in Exec(cfg, actions).workers && LastAccepted(Exec(cfg, actions).workers[run].main)
    ensures var s := Exec(cfg, actions); var w := s.workers[run]; var exc := w.main.how.raised;
      Applies(cfg.policy, w.context.agent, Refused(BeatsOf(s, run)), tale.cause) && exc == Raising(tale.cause) &&
      ClientRows(s.tables.log, run) == RowsBefore(w.context, tale.cause) + tale.report &&
      Notable(HeardBy(s, run)) == HeardFor(tale.cause) + tale.tail &&
      run in s.tables.runs &&
      var row := s.tables.runs[run];
      if exc == BlockedError then
        tale.tail == [Callback("Blocked", None)] && tale.report == [] &&
        (row.status == Canceled || (row.status == Blocked && row.columns == map[Error := "ExecutionBlocked"])) &&
        ClosedWith(s.tables.log, run, RunBlocked, map[Error := Text("ExecutionBlocked")])
      else
        row.status == Failed && row.columns.Keys == {Error} &&
        StoredAs(cfg.policy, w.context, exc, row.columns[Error], tale) &&
        ClosedWith(s.tables.log, run, RunFailed, FailureTold(row.columns[Error]))
  {
    hide Exec, WorkerOk, Blamed, Applies, HeardFor, Raising, RowsBefore, StoredAs, ClosedWith, ClientRows, Notable,
      Refused;
    ToldOf(cfg, actions, run);
    var s := Exec(cfg, actions);
    var w, row := s.workers[run], RowOf(s.tables, run);
    AcceptedStatus(row, w);
    tale := AcceptedTale(cfg.policy, Notable(HeardBy(s, run)), ClientRows(s.tables.log, run), StoredError(row), w);
  }

  lemma AcceptedTale(policy: Policy, notes: seq<Input>, rows: seq<Event>, stored: Option<string>, w: Worker)
    returns (tale: Tale)
    requires LastAccepted(w.main) && Told(policy, notes, rows, stored, w)
    ensures var exc := w.main.how.raised;
      Tells(policy, w, notes, rows, tale, exc) &&
      if exc == BlockedError then tale.tail == [Callback("Blocked", None)] && tale.report == []
      else stored.Some? && StoredAs(policy, w.context, exc, stored.value, tale)
  {
    hide Blamed, Tells;
    var exc := w.main.how.raised;
    if exc == BlockedError {
      var before := BlamedTale(policy, w, notes[..|notes| - 1], rows, exc, "ExecutionBlocked");
      tale := TailAdded(policy, w, notes, rows, before, exc);
    } else {
      tale := BlamedTale(policy, w, notes, rows, exc, stored.value);
    }
  }

  lemma AnsweredNotes(heard: seq<Input>)
    ensures AllAnswered(heard) <==> AllAnswered(Notable(heard))
  {
    forall input | input != Go(Answered)
      ensures input in Notable(heard) <==> input in heard
    {
      NotableHolds(heard, input);
    }
  }

  /** Who raised an exception that carries events, and the client rows that stood before it. */
  ghost predicate RaisedAfter(c: Context, heard: seq<Input>, exc: Exception, before: seq<Event>) {
    (Callback("In Progress", Some(exc)) in heard && before == []) ||
    (Dispatched(Failing(exc)) in heard && before == Opening(c)) ||
    (exists result :: Dispatched(Finished(result)) in heard && Callback("In Review", Some(exc)) in heard &&
       before == Opening(c) + RowsOfAll(c, result.events))
  }

  lemma RaiserOfEvents(c: Context, heard: seq<Input>, cause: Cause, tail: seq<Input>)
    requires Raising(cause).EventError? && Notable(heard) == HeardFor(cause) + tail
    ensures RaisedAfter(c, heard, Raising(cause), RowsBefore(c, cause)) && AllAnswered(HeardFor(cause))
  {
    hide Notable, RowsOfAll;
    var notes := Notable(heard);
    assert forall input :: input in HeardFor(cause) ==> input in notes;
    match cause
    case ProgressRaised(exc) =>
      assert HeardFor(cause)[1] in notes;
      NotableHolds(heard, Callback("In Progress", Some(exc)));
    case DispatcherRaised(exc) =>
      assert HeardFor(cause)[2] in notes;
      NotableHolds(heard, Dispatched(Failing(exc)));
    case ReviewRaised(result, exc) =>
      assert HeardFor(cause)[2] in notes && HeardFor(cause)[3] in notes;
      NotableHolds(heard, Dispatched(Finished(result)));
      NotableHolds(heard, Callback("In Review", Some(exc)));
  }

  /** The posts of `all` stopped at a lost one, whose error is `name`. */
  predicate StoppedAt(c: Context, heard: seq<Input>, name: string, all: seq<Entry>, before: seq<Event>,
                      rows: seq<Event>, posted: nat, committed: bool) {
    posted < |all| && Losing(name, committed) in heard &&
    rows == before + Rows(c, all[..if committed then posted + 1 else posted])
  }

  /** An `execute` that ended by an accepted `finish` and raises an exception carrying events: if the events
      validate and no call was lost, they are all posted, deduplicated, after the rows that stood before, and
      the row stores the exception's own name. If they do not validate, none is posted and the name is
      `PayloadValidationError`. Otherwise the posts stop at the one that was lost, and its error is stored. */
  lemma ReportedEventsArePosted(cfg: Config, actions: seq<Action>, c: Context, own: string, events: seq<Entry>)
    returns (before: seq<Event>)
    requires c.run in Exec(cfg, actions).workers && Exec(cfg, actions).workers[c.run].context == c
    requires Exec(cfg, actions).workers[c.run].main == Ended(Concluded(Some(Yes), EventError(own, events)))
    ensures var s := Exec(cfg, actions);
      c.run in s.tables.runs && s.tables.runs[c.run].status == Failed &&
      s.tables.runs[c.run].columns.Keys == {Error} &&
      ClosedWith(s.tables.log, c.run, RunFailed, FailureTold(s.tables.runs[c.run].columns[Error])) &&
      RaisedAfter(c, HeardBy(s, c.run), EventError(own, events), before)
    ensures var s := Exec(cfg, actions); var rows := ClientRows(s.tables.log, c.run);
      var name := s.tables.runs[c.run].columns[Error]; var all := Dedup(Normalize(events));
      if !AllAccepted(cfg.policy, events) then name == "PayloadValidationError" && rows == before
      else if AllAnswered(HeardBy(s, c.run)) then name == own && rows == before + Rows(c, all)
      else exists posted: nat, committed :: StoppedAt(c, HeardBy(s, c.run), name, all, before, rows, posted, committed)
  {
    hide Exec, ClosedWith, ClientRows, Notable, Refused, Applies, AllAccepted, Normalize, Dedup, Rows, AllAnswered,
      RaisedAfter, HeardFor, Raising, RowsBefore, Losing;
    var s, run, exc := Exec(cfg, actions), c.run, EventError(own, events);
    var tale := ConclusionsTell(cfg, actions, run);
    before := RowsBefore(c, tale.cause);
    RaiserOfEvents(c, HeardBy(s, run), tale.cause, tale.tail);
    AnsweredNotes(HeardBy(s, run));
    if AllAccepted(cfg.policy, events) {
      if tale.tail == [] {
        AnsweredTail(tale.cause);
        assert AllAnswered(HeardBy(s, run));
      } else {
        var name := s.tables.runs[run].columns[Error];
        var posted: nat, committed :| posted < |Survivors(events)| && tale.tail == [Losing(name, committed)] &&
          tale.report == RowsOfFirst(c, events, Through(posted, committed));
        LostTail(HeardBy(s, run), tale.cause, name, committed);
        assert StoppedAt(c, HeardBy(s, c.run), name, Dedup(Normalize(events)), before, ClientRows(s.tables.log, c.run),
                         posted, committed);
      }
    }
  }

  lemma AnsweredTail(cause: Cause)
    requires AllAnswered(HeardFor(cause))
    ensures AllAnswered(HeardFor(cause) + [])
  {
    assert HeardFor(cause) + [] == HeardFor(cause);
  }

  lemma LostTail(heard: seq<Input>, cause: Cause, name: string, committed: bool)
    requires Notable(heard) == HeardFor(cause) + [Losing(name, committed)]
    ensures Losing(name, committed) in heard && !AllAnswered(Notable(heard))
  {
    hide Notable, HeardFor;
    var notes := Notable(heard);
    assert notes[|notes| - 1] == Losing(name, committed) && Losing(name, committed) in notes;
    NotableHolds(heard, Losing(name, committed));
  }

  /** The heartbeat thread of a run makes no call after the first that is not answered with yes, and the worker
      knows of it exactly then. */
  lemma BeatsStopAtRefusal(cfg: Config, actions: seq<Action>, run: string)
    requires run in Exec(cfg, actions).workers
    ensures var s := Exec(cfg, actions); var w, beats := s.workers[run], BeatsOf(s, run);
      (forall i :: 0 <= i < |beats| - 1 ==> beats[i] == Some(Yes)) &&
      (w.beatFailed <==> beats != [] && beats[|beats| - 1] != Some(Yes)) && (w.beatFailed ==> w.pulse == Exited)
  {
    hide Exec, WorkerOk, Told, StoredOk, NotesOk, ClientRows, Notable;
    ToldOf(cfg, actions, run);
    AllYes(BeatsOf(Exec(cfg, actions), run));
  }

  // ---------------------------------------------------------------- completed runs

  /** The gates, written out. */
  predicate BothGates(agent: string, fields: map<Field, string>) {
    agent == "dev-backend" || agent == "dev-frontend" || agent == "devops" ==>
      TestsStatus in fields && fields[TestsStatus] == "passed" &&
      ReviewStatus in fields && fields[ReviewStatus] == "approved"
  }

  lemma GatesInFull(agent: string, fields: map<Field, string>)
    ensures GatesOk(agent, fields) <==> BothGates(agent, fields)
  {
  }

  lemma CompletedWasAsked(cfg: Config, actions: seq<Action>, run: string)
    requires run in Exec(cfg, actions).tables.runs && Exec(cfg, actions).tables.runs[run].status == Completed
    ensures run in Exec(cfg, actions).workers && Completed in Exec(cfg, actions).workers[run].finishes
  {
    hide Exec, TablesOk;
    ExecIsOk(cfg, actions);
    var s := Exec(cfg, actions);
    assert run in s.workers;
    assert RowOk(s.tables.runs[run], s.workers[run]) by {
      assert WorkerOk(RowOf(s.tables, run), s.workers[run]);
    }
  }

  /** A completed run: the worker started its thread, moved the issue to `In Progress`, was handed a result and
      moved the issue to `In Review`, in this order; every heartbeat was accepted, the events of the result
      validated and its gates passed; the row stores each of the result's fields, the event `run.completed`
      repeats the five it may carry, and the client rows are the announcement and the deduplicated events. */
  lemma CompletedRunsTell(cfg: Config, actions: seq<Action>, run: string) returns (result: ExecutionResult)
    requires run in Exec(cfg, actions).tables.runs && Exec(cfg, actions).tables.runs[run].status == Completed
    ensures var s := Exec(cfg, actions); var notes := Notable(HeardBy(s, run));
      |notes| >= 4 && notes[..4] == [Launch(None), Callback("In Progress", None), Dispatched(Finished(result)),
                                     Callback("In Review", None)] &&
      AllAccepted(cfg.policy, result.events) && BothGates(s.tables.runs[run].agent, result.fields) &&
      forall i :: 0 <= i < |BeatsOf(s, run)| ==> BeatsOf(s, run)[i] == Some(Yes)
    ensures var s := Exec(cfg, actions); var row := s.tables.runs[run];
      SixColumns(row.columns, result.fields) && Logged(s.tables.log, run, RunCompleted) &&
      (forall e :: e in s.tables.log && e.run == run && e.kind == RunCompleted ==>
        OutcomePayload(RunCompleted, e.payload, Completed, result.fields))
    ensures var s := Exec(cfg, actions);
      run in s.workers && var c := s.workers[run].context;
      c.run == run && ClientRows(s.tables.log, run) ==
        [Event(c.run, c.issue, c.agent, AgentDispatched, map[])] + Rows(c, Dedup(Normalize(result.events)))
  {
    hide Exec, WorkerOk, Told, StoredOk, InOrder, ClientRows, Notable, StoredColumns, FinalPayload, OutcomePayload;
    hide GatesOk, BothGates, AllAccepted, Normalize, Dedup, Rows, Logged, SixColumns;
    var s := Exec(cfg, actions);
    CompletedRunsWereEarned(cfg, actions, run);
    CompletedRunsPassedTheirGates(cfg, actions, run);
    CompletedWasAsked(cfg, actions, run);
    ToldOf(cfg, actions, run);
    var notes := Notable(HeardBy(s, run));
    result := notes[2].outcome.result;
    assert notes[..4] == notes[..2] + [notes[2], notes[3]];
    GatesInFull(s.workers[run].context.agent, result.fields);
    StoredColumnsAreSix(result.fields);
    FinalPayloadCopies(Completed, result.fields);
  }

  /** In every reachable system the client rows of a run are, in order, a prefix of its announcement and of the
      deduplicated events of the result it was handed, then a prefix of those of an exception it met: no lost
      answer and no crash reorders, repeats or skips one. */
  lemma RowsArePostedInOrder(cfg: Config, actions: seq<Action>, run: string)
    returns (result: seq<Entry>, raised: seq<Entry>, n: nat)
    requires run in Exec(cfg, actions).workers
    ensures var s := Exec(cfg, actions);
      SplitAt(cfg.policy, s.workers[run].context, Notable(HeardBy(s, run)), ClientRows(s.tables.log, run),
              result, raised, n)
  {
    hide Exec, WorkerOk, Told, StoredOk, HandedThird, AskedFourth, BeatsOk, SplitAt, ClientRows, Notable;
    ToldOf(cfg, actions, run);
    var s := Exec(cfg, actions);
    result, raised, n :| SplitAt(cfg.policy, s.workers[run].context, Notable(HeardBy(s, run)),
                                 ClientRows(s.tables.log, run), result, raised, n);
  }

  /** With the Kanban adapter: the announcement and the first occurrence of every event of its trace. */
  lemma CompletedRunsReportTheirTask(cfg: Config, actions: seq<Action>, c: Context, polls: nat -> Read, n: nat)
    requires c.run in Exec(cfg, actions).tables.runs && Exec(cfg, actions).tables.runs[c.run].status == Completed
    requires SeenUpTo(polls, n) && c.run in Exec(cfg, actions).workers
    requires Exec(cfg, actions).workers[c.run].context == c
    requires Exec(cfg, actions).workers[c.run].outcome == Some(Verdict(c, polls, n))
    ensures ClientRows(Exec(cfg, actions).tables.log, c.run) ==
      [Announcement(c)] + Rows(c, Dedup(EventsOf(Verdict(c, polls, n))))
  {
    hide Exec, WorkerOk, Told, StoredOk, InOrder, ClientRows, Notable, BeatsOk, Rows, Dedup, Normalize, Verdict;
    CompletedWasAsked(cfg, actions, c.run);
    ToldOf(cfg, actions, c.run);
    TraceIsNormal(c, polls, n);
  }

  // ---------------------------------------------------------------- what the dispatcher's answer leads to

  /** Nothing after the cause is a dispatch. */
  lemma DispatchOfCause(heard: seq<Input>, cause: Cause, tail: seq<Input>, outcome: DispatchOutcome)
    requires Notable(heard) == HeardFor(cause) + tail && Dispatched(outcome) in heard
    requires forall input :: input in tail ==> !input.Dispatched?
    ensures Dispatched(outcome) in HeardFor(cause)
    ensures AllAnswered(heard) ==> AllAnswered(HeardFor(cause))
  {
    hide Notable, HeardFor;
    NotableHolds(heard, Dispatched(outcome));
    AnsweredNotes(heard);
    assert forall input :: input in HeardFor(cause) ==> input in Notable(heard);
    assert forall input :: input in Notable(heard) ==> input in HeardFor(cause) || input in tail;
  }

  /** The exception that the dispatcher's answer leads to, in the order of the checks. */
  ghost predicate Decided(policy: Policy, agent: string, heard: seq<Input>, refused: bool, outcome: DispatchOutcome,
                          raised: Exception) {
    match outcome
    case Failing(exc) => raised == exc
    case Finished(result) =>
      if !AllAccepted(policy, result.events) then raised == OtherError("PayloadValidationError")
      else if !AllAnswered(heard) then true
      else if refused then raised == OtherError("RuntimeError")
      else if !BothGates(agent, result.fields) then raised == BlockedError
      else Callback("In Review", Some(raised)) in heard || raised == OtherError("RuntimeError")
  }

  lemma CauseDecides(policy: Policy, agent: string, heard: seq<Input>, refused: bool, outcome: DispatchOutcome,
                     cause: Cause, tail: seq<Input>)
    requires Applies(policy, agent, refused, cause) && Notable(heard) == HeardFor(cause) + tail
    requires Dispatched(outcome) in HeardFor(cause) && (AllAnswered(heard) ==> AllAnswered(HeardFor(cause)))
    ensures Decided(policy, agent, heard, refused, outcome, Raising(cause))
  {
    hide Notable, AllAccepted, GatesOk, BothGates, AllAnswered;
    if outcome.Finished? {
      GatesInFull(agent, outcome.result.fields);
    }
    match cause
    case ReviewRaised(result, exc) =>
      assert HeardFor(cause)[3] in Notable(heard);
      NotableHolds(heard, Callback("In Review", Some(exc)));
    case EventLost(_, _, _, _) => LostIsNotAnswered(cause, 3);
    case CompletionLost(_, _, _) => LostIsNotAnswered(cause, 4);
    case _ =>
  }

  lemma LostIsNotAnswered(cause: Cause, i: nat)
    requires i < |HeardFor(cause)| && HeardFor(cause)[i].Go? && HeardFor(cause)[i] != Go(Answered)
    ensures !AllAnswered(HeardFor(cause))
  {
    hide HeardFor;
    assert HeardFor(cause)[i] in HeardFor(cause);
  }

  /** An `execute` whose last `finish` was accepted raises what the dispatcher raised; or, handed a result, the
      rejection of its events; or, when no call was lost, a heartbeat failure before a missing gate before what
      the callback raised before a refused completion. */
  lemma DispatchDecides(cfg: Config, actions: seq<Action>, run: string, outcome: DispatchOutcome)
    requires run in Exec(cfg, actions).workers && LastAccepted(Exec(cfg, actions).workers[run].main)
    requires Dispatched(outcome) in HeardBy(Exec(cfg, actions), run)
    ensures var s := Exec(cfg, actions); var w := s.workers[run];
      Decided(cfg.policy, w.context.agent, HeardBy(s, run), Refused(BeatsOf(s, run)), outcome, w.main.how.raised)
  {
    hide Exec, Applies, HeardFor, Raising, RowsBefore, ClosedWith, ClientRows, Notable, Refused, AllAccepted;
    hide AllAnswered, RowsOfAll, RowsOfFirst, Survivors, Decided;
    var s := Exec(cfg, actions);
    var tale := ConclusionsTell(cfg, actions, run);
    DispatchOfCause(HeardBy(s, run), tale.cause, tale.tail, outcome);
    CauseDecides(cfg.policy, s.workers[run].context.agent, HeardBy(s, run), Refused(BeatsOf(s, run)), outcome,
                 tale.cause, tale.tail);
  }

  // ---------------------------------------------------------------- the other endings

  /** A tale whose exception reached its last `finish`, under some name. */
  ghost predicate ReachedFinish(policy: Policy, c: Context, tale: Tale) {
    if Raising(tale.cause) == BlockedError then tale.tail == [Callback("Blocked", None)] && tale.report == []
    else exists name :: StoredAs(policy, c, Raising(tale.cause), name, tale)
  }

  lemma UnfinishedTale(policy: Policy, w: Worker, notes: seq<Input>, rows: seq<Event>) returns (tale: Tale)
    requires Unfinished(policy, w, notes, rows)
    ensures Tells(policy, w, notes, rows, tale, Raising(tale.cause)) && ReachedFinish(policy, w.context, tale)
  {
    hide Blamed, StoredAs, Applies, HeardFor, Raising, RowsBefore;
    var exc, name :| Settled(policy, w, notes, rows, exc, name);
    if exc == BlockedError {
      tale := BlamedTale(policy, w, notes[..|notes| - 1], rows, exc, name);
      EmptyTale(policy, w.context, exc, name, tale);
      tale := TailAdded(policy, w, notes, rows, tale, exc);
    } else {
      tale := BlamedTale(policy, w, notes, rows, exc, name);
    }
  }

  lemma EmptyTale(policy: Policy, c: Context, exc: Exception, name: string, tale: Tale)
    requires exc == BlockedError && StoredAs(policy, c, exc, name, tale)
    ensures tale.tail == [] && tale.report == []
  {
  }

  /** What the worker met and posted when no last `finish` was accepted, ending by ending. */
  ghost predicate OtherEnding(policy: Policy, w: Worker, how: Ending, notes: seq<Input>, rows: seq<Event>, tale: Tale,
                              committed: bool) {
    match how
    case Conflict => notes == [] && rows == []
    case ClaimRefused => notes == [] && rows == []
    case ClaimUnanswered(error) => notes == [Losing(error, committed)] && rows == []
    case PulseFailed(error) => notes == [Launch(Some(error))] && rows == []
    case CallbackRaised(exc) =>
      Tells(policy, w, notes, rows, tale, BlockedError) && tale.tail == [Callback("Blocked", Some(exc))] &&
      tale.report == []
    case Concluded(Some(answer), raised) =>
      answer != Yes && raised == OtherError("RuntimeError") && ReachedFinish(policy, w.context, tale) &&
      Tells(policy, w, notes, rows, tale, Raising(tale.cause))
    case Concluded(None, raised) =>
      raised.OtherError? && ReachedFinish(policy, w.context, tale) &&
      Tells(policy, w, notes, rows, tale.(tail := tale.tail + [Losing(raised.name, committed)]), Raising(tale.cause))
    case _ => false
  }

  lemma OtherEndingHasTale(policy: Policy, notes: seq<Input>, rows: seq<Event>, stored: Option<string>, w: Worker)
    returns (tale: Tale, committed: bool)
    requires w.main.Ended? && w.main != Ended(Crashed) && w.main != Ended(Returned) && !LastAccepted(w.main)
    requires Told(policy, notes, rows, stored, w)
    ensures OtherEnding(policy, w, w.main.how, notes, rows, tale, committed)
  {
    hide Blamed, Tells, Unfinished, ReachedFinish, Losing, StoredAs;
    committed := false;
    tale := Tale(BeatRefused(ExecutionResult(map[], [])), [], []);
    match w.main.how
    case ClaimUnanswered(error) => committed :| notes == [Losing(error, committed)];
    case CallbackRaised(exc) =>
      tale := BlamedTale(policy, w, notes[..|notes| - 1], rows, BlockedError, "ExecutionBlocked");
      EmptyTale(policy, w.context, BlockedError, "ExecutionBlocked", tale);
      tale := TailAdded(policy, w, notes, rows, tale, BlockedError);
    case Concluded(Some(_), _) => tale := UnfinishedTale(policy, w, notes, rows);
    case Concluded(None, raised) =>
      committed :| notes[|notes| - 1] == Losing(raised.name, committed);
      tale := UnfinishedTale(policy, w, notes[..|notes| - 1], rows);
      var longer := TailAdded(policy, w, notes, rows, tale, Raising(tale.cause));
    case _ =>
  }

  /** Every other ending of `execute` but a crash: a refused claim, a lost one and a thread that did not start
      leave no client row; a raising `Blocked` callback, a refused and a lost last `finish` come after a tale
      like that of an accepted one. */
  lemma OtherEndingsTell(cfg: Config, actions: seq<Action>, run: string) returns (tale: Tale, committed: bool)
    requires run in Exec(cfg, actions).workers && Exec(cfg, actions).workers[run].main.Ended?
    requires var main := Exec(cfg, actions).workers[run].main;
      main != Ended(Crashed) && main != Ended(Returned) && !LastAccepted(main)
    ensures var s := Exec(cfg, actions); var w := s.workers[run];
      (w.beatFailed <==> Refused(BeatsOf(s, run))) &&
      OtherEnding(cfg.policy, w, w.main.how, Notable(HeardBy(s, run)), ClientRows(s.tables.log, run), tale, committed)
  {
    hide Exec, WorkerOk, Told, StoredOk, ClientRows, Notable, Refused, OtherEnding;
    ToldOf(cfg, actions, run);
    var s := Exec(cfg, actions);
    tale, committed := OtherEndingHasTale(cfg.policy, Notable(HeardBy(s, run)), ClientRows(s.tables.log, run),
                                          StoredError(RowOf(s.tables, run)), s.workers[run]);
  }

  /** A returned `execute` met exactly this, apart from answered calls. */
  lemma ReturnedRunsTell(cfg: Config, actions: seq<Action>, run: string) returns (result: ExecutionResult)
    requires run in Exec(cfg, actions).workers && Exec(cfg, actions).workers[run].main == Ended(Returned)
    ensures var s := Exec(cfg, actions); var c := s.workers[run].context;
      Notable(HeardBy(s, run)) == [Launch(None), Callback("In Progress", None), Dispatched(Finished(result)),
                                   Callback("In Review", None)] &&
      AllAccepted(cfg.policy, result.events) && !Refused(BeatsOf(s, run)) && BothGates(c.agent, result.fields) &&
      ClientRows(s.tables.log, run) ==
        [Event(c.run, c.issue, c.agent, AgentDispatched, map[])] + Rows(c, Dedup(Normalize(result.events)))
  {
    hide Exec, WorkerOk, StoredOk, ClientRows, Notable, Refused, GatesOk, BothGates, AllAccepted;
    hide Normalize, Dedup, Rows;
    ToldOf(cfg, actions, run);
    var s := Exec(cfg, actions);
    var w := s.workers[run];
    result :| Reviewed(cfg.policy, w, Notable(HeardBy(s, run)), ClientRows(s.tables.log, run), result);
    GatesInFull(w.context.agent, result.fields);
  }
}
