/** The whole story of a run: what its main thread met, in order, decides how `execute` ended, which client
    rows stand in the log and what the row stores. `Cause` is a table of everything that can send `execute`
    into its `except` branch; the theorems read the story off the inputs the worker took, not off its steps. */
module Stories {
  import opened Options
  import opened Payloads
  import opened Execution
  import opened Lease
  import opened EventPipeline
  import opened KanbanContract
  import opened Workers
  import opened WorkerSafety
  import opened PostedRows

  const REJECTED := "PayloadValidationError"

  const STARTED: seq<Input> := [Launch(None), Callback("In Progress", None)]

  function Note(input: Input): seq<Input> { if input == Go(Answered) then [] else [input] }

  /** What the main thread met, apart from answered calls and internal steps. */
  function Notable(heard: seq<Input>): seq<Input> {
    if heard == [] then [] else Notable(heard[..|heard| - 1]) + Note(heard[|heard| - 1])
  }

  function Losing(error: string, committed: bool): Input {
    Go(if committed then LostAfter(error) else LostBefore(error))
  }

  /** What makes `execute` raise; `posted` counts the posts answered before the lost one. */
  datatype Cause =
    | ProgressRaised(exc: Exception)
    | AnnouncementLost(error: string, committed: bool)
    | DispatcherRaised(exc: Exception)
    | EventsRejected(result: ExecutionResult)
    | EventLost(result: ExecutionResult, posted: nat, error: string, committed: bool)
    | BeatRefused(result: ExecutionResult)
    | GatesMissing(result: ExecutionResult)
    | ReviewRaised(result: ExecutionResult, exc: Exception)
    | CompletionLost(result: ExecutionResult, error: string, committed: bool)
    | CompletionRefused(result: ExecutionResult)

  function Handed(result: ExecutionResult): seq<Input> { STARTED + [Dispatched(Finished(result))] }

  function HeardFor(cause: Cause): seq<Input> {
    match cause
    case ProgressRaised(exc) => [Launch(None), Callback("In Progress", Some(exc))]
    case AnnouncementLost(error, committed) => STARTED + [Losing(error, committed)]
    case DispatcherRaised(exc) => STARTED + [Dispatched(Failing(exc))]
    case EventsRejected(result) => Handed(result)
    case EventLost(result, _, error, committed) => Handed(result) + [Losing(error, committed)]
    case BeatRefused(result) => Handed(result)
    case GatesMissing(result) => Handed(result)
    case ReviewRaised(result, exc) => Handed(result) + [Callback("In Review", Some(exc))]
    case CompletionLost(result, error, committed) =>
      Handed(result) + [Callback("In Review", None), Losing(error, committed)]
    case CompletionRefused(result) => Handed(result) + [Callback("In Review", None)]
  }

  function Raising(cause: Cause): Exception {
    match cause
    case ProgressRaised(exc) => exc
    case AnnouncementLost(error, _) => OtherError(error)
    case DispatcherRaised(exc) => exc
    case EventsRejected(_) => OtherError(REJECTED)
    case EventLost(_, _, error, _) => OtherError(error)
    case BeatRefused(_) => OtherError("RuntimeError")
    case GatesMissing(_) => BlockedError
    case ReviewRaised(_, exc) => exc
    case CompletionLost(_, error, _) => OtherError(error)
    case CompletionRefused(_) => OtherError("RuntimeError")
  }

  ghost function Survivors(entries: seq<Entry>): seq<Entry> { Dedup(Normalize(entries)) }

  /** When each cause applies: the checks come in the order events, heartbeats, gates. */
  ghost predicate Applies(policy: Policy, agent: string, beatFailed: bool, cause: Cause) {
    match cause
    case ProgressRaised(_) => true
    case AnnouncementLost(_, _) => true
    case DispatcherRaised(_) => true
    case EventsRejected(result) => !AllAccepted(policy, result.events)
    case EventLost(result, posted, _, _) => AllAccepted(policy, result.events) && posted < |Survivors(result.events)|
    case BeatRefused(result) => AllAccepted(policy, result.events) && beatFailed
    case GatesMissing(result) =>
      AllAccepted(policy, result.events) && !beatFailed && !GatesOk(agent, result.fields)
    case ReviewRaised(result, _) => Vetted(policy, agent, beatFailed, result)
    case CompletionLost(result, _, _) => Vetted(policy, agent, beatFailed, result)
    case CompletionRefused(result) => Vetted(policy, agent, beatFailed, result)
  }

  predicate Vetted(policy: Policy, agent: string, beatFailed: bool, result: ExecutionResult) {
    AllAccepted(policy, result.events) && !beatFailed && GatesOk(agent, result.fields)
  }

  function Opening(c: Context): seq<Event> { [Event(c.run, c.issue, c.agent, AgentDispatched, map[])] }

  /** The rows of the first `n` survivors. */
  ghost function RowsOfFirst(c: Context, entries: seq<Entry>, n: nat): seq<Event> {
    var all := Survivors(entries);
    Rows(c, if n <= |all| then all[..n] else all)
  }

  ghost function RowsOfAll(c: Context, entries: seq<Entry>): seq<Event> { Rows(c, Survivors(entries)) }

  function Through(posted: nat, committed: bool): nat { if committed then posted + 1 else posted }

  /** The client rows that stood in the log when the exception arose. */
  ghost function RowsBefore(c: Context, cause: Cause): seq<Event> {
    match cause
    case ProgressRaised(_) => []
    case AnnouncementLost(_, committed) => if committed then Opening(c) else []
    case DispatcherRaised(_) => Opening(c)
    case EventsRejected(_) => Opening(c)
    case EventLost(result, posted, _, committed) =>
      Opening(c) + RowsOfFirst(c, result.events, Through(posted, committed))
    case _ => Opening(c) + RowsOfAll(c, cause.result.events)
  }

  // ---------------------------------------------------------------- the story at each point of `execute`

  predicate AfterJoin(cause: Cause) {
    !cause.ProgressRaised? && !cause.AnnouncementLost? && !cause.DispatcherRaised?
  }

  /** Some cause explains the notable inputs, the exception and the rows before `more`. */
  ghost predicate Led(policy: Policy, w: Worker, notes: seq<Input>, rows: seq<Event>, more: seq<Event>, exc: Exception)
  {
    exists cause :: AccountsFor(policy, w, cause, notes, rows, more, exc)
  }

  ghost predicate AccountsFor(policy: Policy, w: Worker, cause: Cause, notes: seq<Input>, rows: seq<Event>,
                           more: seq<Event>, exc: Exception) {
    && Applies(policy, w.context.agent, w.beatFailed, cause) && (AfterJoin(cause) ==> w.pulse == Exited)
    && notes == HeardFor(cause) && exc == Raising(cause) && rows == RowsBefore(w.context, cause) + more
  }

  /** The exception and the name it is stored under: its own, unless it came with events that were rejected
      or could not all be posted. */
  ghost predicate Blamed(policy: Policy, w: Worker, notes: seq<Input>, rows: seq<Event>, exc: Exception, name: string)
  {
    match exc
    case BlockedError => name == "ExecutionBlocked" && Led(policy, w, notes, rows, [], exc)
    case OtherError(own) => name == own && Led(policy, w, notes, rows, [], exc)
    case EventError(own, events) =>
      if !AllAccepted(policy, events) then name == REJECTED && Led(policy, w, notes, rows, [], exc)
      else (name == own && Led(policy, w, notes, rows, RowsOfAll(w.context, events), exc)) ||
           ReportLost(policy, w, notes, rows, exc, name)
  }

  ghost predicate ReportLost(policy: Policy, w: Worker, notes: seq<Input>, rows: seq<Event>, exc: Exception,
                             name: string)
    requires exc.EventError?
  {
    exists posted: nat, committed ::
      posted < |Survivors(exc.events)| && LostAt(policy, w, notes, rows, exc, name, posted, committed)
  }

  ghost predicate LostAt(policy: Policy, w: Worker, notes: seq<Input>, rows: seq<Event>, exc: Exception, name: string,
                         posted: nat, committed: bool)
    requires exc.EventError?
  {
    notes != [] && notes[|notes| - 1] == Losing(name, committed) &&
    Led(policy, w, notes[..|notes| - 1], rows, RowsOfFirst(w.context, exc.events, Through(posted, committed)), exc)
  }

  function NameOf(blamed: Exception): string {
    match blamed
    case BlockedError => "ExecutionBlocked"
    case EventError(errorType, _) => errorType
    case OtherError(name) => name
  }

  /** The `Blocked` callback has been made if the exception calls for it. */
  ghost predicate Settled(policy: Policy, w: Worker, notes: seq<Input>, rows: seq<Event>, exc: Exception, name: string)
  {
    if exc == BlockedError then
      notes != [] && notes[|notes| - 1] == Callback("Blocked", None) &&
      Blamed(policy, w, notes[..|notes| - 1], rows, exc, name)
    else Blamed(policy, w, notes, rows, exc, name)
  }

  /** The queue is what is left of the survivors, and the rows are `prior` and those already sent. */
  ghost predicate StillQueued(c: Context, entries: seq<Entry>, queue: seq<Entry>, sent: seq<Event>) {
    var all := Survivors(entries);
    |queue| <= |all| && queue == all[|all| - |queue|..] && sent == Rows(c, all[..|all| - |queue|])
  }

  ghost predicate ReportUnderWay(policy: Policy, w: Worker, notes: seq<Input>, rows: seq<Event>, exc: Exception,
                                 queue: seq<Entry>) {
    exc.EventError? && AllAccepted(policy, exc.events) &&
    exists sent :: StillQueued(w.context, exc.events, queue, sent) && Led(policy, w, notes, rows, sent, exc)
  }

  ghost predicate Carried(policy: Policy, w: Worker, notes: seq<Input>, rows: seq<Event>, result: ExecutionResult) {
    AllAccepted(policy, result.events) && notes == Handed(result) &&
    rows == Opening(w.context) + RowsOfAll(w.context, result.events)
  }

  ghost predicate Reviewed(policy: Policy, w: Worker, notes: seq<Input>, rows: seq<Event>, result: ExecutionResult) {
    Vetted(policy, w.context.agent, w.beatFailed, result) && w.pulse == Exited &&
    notes == Handed(result) + [Callback("In Review", None)] &&
    rows == Opening(w.context) + RowsOfAll(w.context, result.events)
  }

  /** An exception was settled under some name, but its `finish` was refused or not answered. */
  ghost predicate Unfinished(policy: Policy, w: Worker, notes: seq<Input>, rows: seq<Event>) {
    exists exc, name :: Settled(policy, w, notes, rows, exc, name)
  }

  /** What is known at each point, from the notable inputs, the client rows and the stored error. */
  ghost predicate Told(policy: Policy, notes: seq<Input>, rows: seq<Event>, stored: Option<string>, w: Worker) {
    var c := w.context;
    match w.main
    case Claiming => notes == [] && rows == []
    case Starting => notes == [] && rows == []
    case EnteringProgress => notes == [Launch(None)] && rows == []
    case Announcing => notes == STARTED && rows == []
    case Dispatching => notes == STARTED && rows == Opening(c)
    case Joining(WithResult(result)) => notes == Handed(result) && rows == Opening(c)
    case Joining(WithException(exc)) => Led(policy, w, notes, rows, [], exc)
    case Persisting(queue, WithResult(result)) =>
      AllAccepted(policy, result.events) && notes == Handed(result) &&
      exists sent :: StillQueued(c, result.events, queue, sent) && rows == Opening(c) + sent
    case Persisting(queue, WithException(exc)) => ReportUnderWay(policy, w, notes, rows, exc, queue)
    case Checking(result) => Carried(policy, w, notes, rows, result)
    case EnteringReview(result) =>
      Carried(policy, w, notes, rows, result) && Vetted(policy, c.agent, w.beatFailed, result)
    case Completing(result) => Reviewed(policy, w, notes, rows, result)
    case Settling(exc, blamed) =>
      Blamed(policy, w, notes, rows, exc, NameOf(blamed)) && (blamed == BlockedError <==> exc == BlockedError)
    case MarkingBlocked => Blamed(policy, w, notes, rows, BlockedError, "ExecutionBlocked")
    case Concluding(status, name, exc) => Settled(policy, w, notes, rows, exc, name)
    case Ended(how) => EndTold(policy, notes, rows, stored, w, how)
  }

  ghost predicate EndTold(policy: Policy, notes: seq<Input>, rows: seq<Event>, stored: Option<string>, w: Worker,
                          how: Ending) {
    match how
    case Conflict => notes == [] && rows == []
    case ClaimRefused => notes == [] && rows == []
    case ClaimUnanswered(error) => rows == [] && exists committed :: notes == [Losing(error, committed)]
    case PulseFailed(error) => rows == [] && notes == [Launch(Some(error))]
    case Returned => exists result :: Reviewed(policy, w, notes, rows, result)
    case CallbackRaised(exc) =>
      notes != [] && notes[|notes| - 1] == Callback("Blocked", Some(exc)) &&
      Blamed(policy, w, notes[..|notes| - 1], rows, BlockedError, "ExecutionBlocked")
    case Concluded(Some(Yes), exc) =>
      if exc == BlockedError then Settled(policy, w, notes, rows, exc, "ExecutionBlocked")
      else stored.Some? && Settled(policy, w, notes, rows, exc, stored.value)
    case Concluded(Some(_), raised) => raised == OtherError("RuntimeError") && Unfinished(policy, w, notes, rows)
    case Concluded(None, raised) =>
      raised.OtherError? && notes != [] && (exists committed :: notes[|notes| - 1] == Losing(raised.name, committed)) &&
      Unfinished(policy, w, notes[..|notes| - 1], rows)
    case Crashed => true
  }

  // ---------------------------------------------------------------- steps of the main thread

  lemma NotableAppends(heard: seq<Input>, input: Input)
    ensures Notable(heard + [input]) == Notable(heard) + Note(input)
  {
    assert (heard + [input])[..|heard|] == heard;
  }

  /** A lost call is one of two inputs. */
  lemma LostInput(fault: Fault)
    requires !fault.Answered?
    ensures Go(fault) == Losing(ErrorName(fault), fault.LostAfter?) && Note(Go(fault)) == [Go(fault)]
  {
  }

  /** The explanation depends on the worker only through these. */
  predicate Alike(w: Worker, v: Worker) {
    v.context == w.context && v.beatFailed == w.beatFailed && (w.pulse == Exited ==> v.pulse == Exited)
  }

  lemma LedAlike(policy: Policy, w: Worker, v: Worker, notes: seq<Input>, rows: seq<Event>, more: seq<Event>,
                 exc: Exception)
    requires Led(policy, w, notes, rows, more, exc) && Alike(w, v)
    ensures Led(policy, v, notes, rows, more, exc)
  {
    hide Applies, HeardFor, Raising, RowsBefore;
    var cause :| AccountsFor(policy, w, cause, notes, rows, more, exc);
    assert AccountsFor(policy, v, cause, notes, rows, more, exc);
  }

  lemma LedBy(policy: Policy, w: Worker, cause: Cause, notes: seq<Input>, rows: seq<Event>)
    requires Applies(policy, w.context.agent, w.beatFailed, cause) && (AfterJoin(cause) ==> w.pulse == Exited)
    requires notes == HeardFor(cause) && rows == RowsBefore(w.context, cause)
    ensures Led(policy, w, notes, rows, [], Raising(cause))
  {
    hide Applies, HeardFor, Raising, RowsBefore, AfterJoin;
    assert AccountsFor(policy, w, cause, notes, rows, [], Raising(cause));
  }

  lemma BlamedAlike(policy: Policy, w: Worker, v: Worker, notes: seq<Input>, rows: seq<Event>, exc: Exception,
                    name: string)
    requires Blamed(policy, w, notes, rows, exc, name) && Alike(w, v)
    ensures Blamed(policy, v, notes, rows, exc, name)
  {
    hide Led, RowsOfAll, RowsOfFirst, AllAccepted, Survivors;
    match exc
    case BlockedError => LedAlike(policy, w, v, notes, rows, [], exc);
    case OtherError(_) => LedAlike(policy, w, v, notes, rows, [], exc);
    case EventError(own, events) =>
      if !AllAccepted(policy, events) {
        LedAlike(policy, w, v, notes, rows, [], exc);
      } else if name == own && Led(policy, w, notes, rows, RowsOfAll(w.context, events), exc) {
        LedAlike(policy, w, v, notes, rows, RowsOfAll(w.context, events), exc);
      } else {
        LostAlike(policy, w, v, notes, rows, exc, name);
      }
  }

  lemma LostAlike(policy: Policy, w: Worker, v: Worker, notes: seq<Input>, rows: seq<Event>, exc: Exception,
                  name: string)
    requires exc.EventError? && ReportLost(policy, w, notes, rows, exc, name) && Alike(w, v)
    ensures ReportLost(policy, v, notes, rows, exc, name)
  {
    hide Led, RowsOfFirst, Survivors, Losing;
    var posted: nat, committed :| posted < |Survivors(exc.events)| &&
      LostAt(policy, w, notes, rows, exc, name, posted, committed);
    LedAlike(policy, w, v, notes[..|notes| - 1], rows, RowsOfFirst(w.context, exc.events, Through(posted, committed)),
             exc);
    assert LostAt(policy, v, notes, rows, exc, name, posted, committed);
  }

  lemma SettledAlike(policy: Policy, w: Worker, v: Worker, notes: seq<Input>, rows: seq<Event>, exc: Exception,
                     name: string)
    requires Settled(policy, w, notes, rows, exc, name) && Alike(w, v)
    ensures Settled(policy, v, notes, rows, exc, name)
  {
    hide Blamed;
    if exc == BlockedError {
      BlamedAlike(policy, w, v, notes[..|notes| - 1], rows, exc, name);
    } else {
      BlamedAlike(policy, w, v, notes, rows, exc, name);
    }
  }

  lemma ClaimTells(cfg: Config, t: Tables, notes: seq<Input>, rows: seq<Event>, stored: Option<string>, w: Worker,
                   fault: Fault)
    requires w.main == Claiming && Told(cfg.policy, notes, rows, stored, w)
    ensures var move := ClaimStep(cfg, t, w, fault);
      Told(cfg.policy, notes + Note(Go(fault)), RowsWith(rows, move.op), stored, move.worker)
  {
    hide Apply;
    if !fault.Answered? {
      LostInput(fault);
      assert [] + [Go(fault)] == [Losing(fault.error, fault.LostAfter?)];
    }
  }

  lemma AnnounceTells(policy: Policy, notes: seq<Input>, rows: seq<Event>, stored: Option<string>, w: Worker,
                      fault: Fault)
    requires w.main == Announcing && Told(policy, notes, rows, stored, w)
    ensures var move := AnnounceStep(w, fault);
      Told(policy, notes + Note(Go(fault)), RowsWith(rows, move.op), stored, move.worker)
  {
    hide Led;
    var move := AnnounceStep(w, fault);
    assert [] + Opening(w.context) == Opening(w.context);
    if !fault.Answered? {
      LostInput(fault);
      var cause := AnnouncementLost(ErrorName(fault), fault.LostAfter?);
      LedBy(policy, move.worker, cause, notes + Note(Go(fault)), RowsWith(rows, move.op));
    } else {
      assert notes + [] == notes;
    }
  }

  lemma DispatchTells(policy: Policy, notes: seq<Input>, rows: seq<Event>, stored: Option<string>, w: Worker,
                      outcome: DispatchOutcome)
    requires w.main == Dispatching && Told(policy, notes, rows, stored, w)
    ensures Told(policy, notes + Note(Dispatched(outcome)), rows, stored, DispatchStep(w, outcome))
  {
    hide Led;
    if outcome.Failing? {
      LedBy(policy, DispatchStep(w, outcome), DispatcherRaised(outcome.exc), notes + Note(Dispatched(outcome)), rows);
    }
  }

  lemma WholeQueue(c: Context, entries: seq<Entry>)
    ensures StillQueued(c, entries, Survivors(entries), [])
  {
    hide Survivors, Row;
    var all := Survivors(entries);
    assert all[0..] == all && Rows(c, all[..0]) == [];
  }

  lemma JoinedResultTells(cfg: Config, notes: seq<Input>, rows: seq<Event>, stored: Option<string>, w: Worker,
                          result: ExecutionResult)
    requires w.main == Joining(WithResult(result)) && w.pulse == Exited && Told(cfg.policy, notes, rows, stored, w)
    ensures Told(cfg.policy, notes, rows, stored, JoinStep(cfg, w, w.main.next))
  {
    hide Led, StillQueued, AllAccepted, Normalize, Dedup, Rows;
    var v := JoinStep(cfg, w, w.main.next);
    if !AllAccepted(cfg.policy, result.events) {
      LedBy(cfg.policy, v, EventsRejected(result), notes, rows);
    } else {
      WholeQueue(w.context, result.events);
      assert rows == Opening(w.context) + [];
    }
  }

  lemma JoinedExceptionTells(cfg: Config, notes: seq<Input>, rows: seq<Event>, stored: Option<string>, w: Worker,
                             exc: Exception)
    requires w.main == Joining(WithException(exc)) && Told(cfg.policy, notes, rows, stored, w)
    ensures Told(cfg.policy, notes, rows, stored, JoinStep(cfg, w, w.main.next))
  {
    hide Led, StillQueued, AllAccepted, Normalize, Dedup, Rows, ReportLost;
    var v := JoinStep(cfg, w, w.main.next);
    LedAlike(cfg.policy, w, v, notes, rows, [], exc);
    if exc.EventError? && AllAccepted(cfg.policy, exc.events) {
      WholeQueue(w.context, exc.events);
    }
  }

  /** One more row sent. */
  lemma QueueAdvances(c: Context, entries: seq<Entry>, queue: seq<Entry>, sent: seq<Event>)
    requires queue != [] && StillQueued(c, entries, queue, sent)
    ensures StillQueued(c, entries, queue[1..], sent + [Row(c, queue[0])])
    ensures var posted := |Survivors(entries)| - |queue|;
      0 <= posted < |Survivors(entries)| && sent == RowsOfFirst(c, entries, posted) &&
      sent + [Row(c, queue[0])] == RowsOfFirst(c, entries, posted + 1)
  {
    hide Survivors, Row;
    var all := Survivors(entries);
    var posted := |all| - |queue|;
    assert all[posted + 1..] == queue[1..];
    assert Rows(c, all[..posted + 1]) == Rows(c, all[..posted]) + [Row(c, all[posted])];
  }

  lemma QueueEmptied(c: Context, entries: seq<Entry>, sent: seq<Event>)
    requires StillQueued(c, entries, [], sent)
    ensures sent == RowsOfAll(c, entries)
  {
    hide Survivors, Rows;
    var all := Survivors(entries);
    assert all[..|all|] == all;
  }

  lemma ResultTells(policy: Policy, notes: seq<Input>, rows: seq<Event>, stored: Option<string>, w: Worker,
                    fault: Fault)
    requires w.main.Persisting? && w.main.then_.WithResult? && w.pulse == Exited
    requires w.main.queue != [] || fault.Answered?
    requires Told(policy, notes, rows, stored, w)
    ensures var move := PersistStep(w, w.main.queue, w.main.then_, fault);
      Told(policy, notes + Note(Go(fault)), RowsWith(rows, move.op), stored, move.worker)
  {
    hide Led, StillQueued, AllAccepted, Rows, Row, Survivors, RowsOfAll, RowsOfFirst;
    var move := PersistStep(w, w.main.queue, w.main.then_, fault);
    var c, queue, result := w.context, w.main.queue, w.main.then_.result;
    var sent :| StillQueued(c, result.events, queue, sent) && rows == Opening(c) + sent;
    if queue == [] {
      QueueEmptied(c, result.events, sent);
      assert notes + [] == notes;
    } else {
      QueueAdvances(c, result.events, queue, sent);
      assert Opening(c) + sent + [Row(c, queue[0])] == Opening(c) + (sent + [Row(c, queue[0])]);
      if fault.Answered? {
        assert notes + [] == notes;
      } else {
        LostInput(fault);
        var posted := |Survivors(result.events)| - |queue|;
        LedBy(policy, move.worker, EventLost(result, posted, ErrorName(fault), fault.LostAfter?),
              notes + Note(Go(fault)), RowsWith(rows, move.op));
      }
    }
  }

  lemma LedFurther(policy: Policy, w: Worker, v: Worker, notes: seq<Input>, rows: seq<Event>, more: seq<Event>,
                   e: Event, exc: Exception)
    requires Led(policy, w, notes, rows, more, exc) && Alike(w, v)
    ensures Led(policy, v, notes, rows + [e], more + [e], exc)
  {
    hide Applies, HeardFor, Raising, RowsBefore;
    var cause :| AccountsFor(policy, w, cause, notes, rows, more, exc);
    assert RowsBefore(w.context, cause) + more + [e] == RowsBefore(w.context, cause) + (more + [e]);
    assert AccountsFor(policy, v, cause, notes, rows + [e], more + [e], exc);
  }

  lemma ReportTells(policy: Policy, notes: seq<Input>, rows: seq<Event>, stored: Option<string>, w: Worker,
                    fault: Fault)
    requires w.main.Persisting? && w.main.then_.WithException? && w.pulse == Exited
    requires w.main.queue != [] || fault.Answered?
    requires Told(policy, notes, rows, stored, w)
    ensures var move := PersistStep(w, w.main.queue, w.main.then_, fault);
      Told(policy, notes + Note(Go(fault)), RowsWith(rows, move.op), stored, move.worker)
  {
    hide Led, StillQueued, AllAccepted, Rows, Row, Survivors, RowsOfAll, RowsOfFirst, ReportLost;
    var move := PersistStep(w, w.main.queue, w.main.then_, fault);
    var v, c, queue, exc := move.worker, w.context, w.main.queue, w.main.then_.exc;
    var sent :| StillQueued(c, exc.events, queue, sent) && Led(policy, w, notes, rows, sent, exc);
    if queue == [] {
      QueueEmptied(c, exc.events, sent);
      LedAlike(policy, w, v, notes, rows, sent, exc);
      assert notes + [] == notes;
    } else {
      var row := Row(c, queue[0]);
      QueueAdvances(c, exc.events, queue, sent);
      LedFurther(policy, w, v, notes, rows, sent, row, exc);
      LedAlike(policy, w, v, notes, rows, sent, exc);
      if fault.Answered? {
        assert notes + [] == notes;
        assert ReportUnderWay(policy, v, notes, rows + [row], exc, queue[1..]);
      } else {
        LostReportTells(policy, notes, RowsWith(rows, move.op), v, fault, exc, |Survivors(exc.events)| - |queue|);
      }
    }
  }

  lemma LostReportTells(policy: Policy, notes: seq<Input>, rows: seq<Event>, v: Worker, fault: Fault, exc: Exception,
                        posted: nat)
    requires exc.EventError? && !fault.Answered? && posted < |Survivors(exc.events)|
    requires Led(policy, v, notes, rows,
                 RowsOfFirst(v.context, exc.events, if fault.LostAfter? then posted + 1 else posted), exc)
    ensures ReportLost(policy, v, notes + Note(Go(fault)), rows, exc, ErrorName(fault))
  {
    hide Led, Survivors, RowsOfFirst, Losing;
    LostInput(fault);
    var all := notes + Note(Go(fault));
    assert all[..|all| - 1] == notes;
    assert LostAt(policy, v, all, rows, exc, ErrorName(fault), posted, fault.LostAfter?);
  }

  lemma CheckTells(policy: Policy, notes: seq<Input>, rows: seq<Event>, stored: Option<string>, w: Worker,
                   result: ExecutionResult)
    requires w.main == Checking(result) && w.pulse == Exited && Told(policy, notes, rows, stored, w)
    ensures Told(policy, notes, rows, stored, CheckStep(w, result))
  {
    hide Led, AllAccepted, GatesOk, RowsOfAll;
    var v := CheckStep(w, result);
    if w.beatFailed {
      LedBy(policy, v, BeatRefused(result), notes, rows);
    } else if !GatesOk(w.context.agent, result.fields) {
      LedBy(policy, v, GatesMissing(result), notes, rows);
    }
  }

  lemma ReviewTells(policy: Policy, notes: seq<Input>, rows: seq<Event>, stored: Option<string>, w: Worker,
                    exc: Exception)
    requires w.main.EnteringReview? && w.pulse == Exited && Told(policy, notes, rows, stored, w)
    ensures Told(policy, notes + [Callback("In Review", Some(exc))], rows, stored, Fails(w, exc))
  {
    hide Led, AllAccepted, GatesOk, RowsOfAll;
    LedBy(policy, Fails(w, exc), ReviewRaised(w.main.result, exc), notes + [Callback("In Review", Some(exc))], rows);
  }

  lemma CompleteTells(policy: Policy, t: Tables, notes: seq<Input>, rows: seq<Event>, stored: Option<string>,
                      w: Worker, fault: Fault)
    requires w.main.Completing? && w.pulse == Exited && Told(policy, notes, rows, stored, w)
    ensures var move := CompleteStep(t, w, w.main.result, fault);
      Told(policy, notes + Note(Go(fault)), RowsWith(rows, move.op), stored, move.worker)
  {
    hide Led, AllAccepted, GatesOk, RowsOfAll, Apply;
    var v, result := CompleteStep(t, w, w.main.result, fault).worker, w.main.result;
    if !fault.Answered? {
      LostInput(fault);
      LedBy(policy, v, CompletionLost(result, ErrorName(fault), fault.LostAfter?), notes + Note(Go(fault)), rows);
    } else {
      assert notes + [] == notes;
      if v.main == Ended(Returned) {
        assert Reviewed(policy, v, notes, rows, result);
      } else {
        LedBy(policy, v, CompletionRefused(result), notes, rows);
      }
    }
  }

  lemma SettleTells(policy: Policy, notes: seq<Input>, rows: seq<Event>, stored: Option<string>, w: Worker,
                    exc: Exception, blamed: Exception)
    requires w.main == Settling(exc, blamed) && Told(policy, notes, rows, stored, w)
    ensures Told(policy, notes, rows, stored, SettleStep(w, exc, blamed))
  {
    hide Blamed;
    BlamedAlike(policy, w, SettleStep(w, exc, blamed), notes, rows, exc, NameOf(blamed));
  }

  lemma MarkedTells(policy: Policy, notes: seq<Input>, rows: seq<Event>, stored: Option<string>, w: Worker,
                    raised: Option<Exception>, v: Worker)
    requires w.main == MarkingBlocked && Told(policy, notes, rows, stored, w)
    requires v == w.(main := if raised.None? then Concluding(Blocked, "ExecutionBlocked", BlockedError)
                             else Ended(CallbackRaised(raised.value)))
    ensures Told(policy, notes + [Callback("Blocked", raised)], rows, stored, v)
  {
    hide Blamed;
    var all := notes + [Callback("Blocked", raised)];
    assert all[..|all| - 1] == notes;
    BlamedAlike(policy, w, v, notes, rows, BlockedError, "ExecutionBlocked");
  }

  /** The last `finish` of the failure path was accepted. */
  predicate LastAccepted(main: MainPc) { main.Ended? && main.how.Concluded? && main.how.answer == Some(Yes) }

  lemma ConcludeTells(policy: Policy, t: Tables, notes: seq<Input>, rows: seq<Event>, before: Option<string>,
                      after: Option<string>, w: Worker, fault: Fault)
    requires w.main.Concluding? && Told(policy, notes, rows, before, w)
    requires var move := ConcludeStep(t, w, w.main.status, w.main.error, w.main.exc, fault);
      (LastAccepted(move.worker.main) ==> after == Some(w.main.error)) && RaisesOk(move.worker)
    ensures var move := ConcludeStep(t, w, w.main.status, w.main.error, w.main.exc, fault);
      Told(policy, notes + Note(Go(fault)), RowsWith(rows, move.op), after, move.worker)
  {
    hide Settled, Apply;
    var exc, name := w.main.exc, w.main.error;
    var v := ConcludeStep(t, w, w.main.status, name, exc, fault).worker;
    SettledAlike(policy, w, v, notes, rows, exc, name);
    assert exc == BlockedError ==> name == "ExecutionBlocked" by { BlockedName(policy, v, notes, rows, exc, name); }
    assert Unfinished(policy, v, notes, rows);
    if fault.Answered? {
      assert notes + [] == notes;
    } else {
      LostInput(fault);
      var all := notes + Note(Go(fault));
      assert all[..|all| - 1] == notes && all[|all| - 1] == Losing(fault.error, fault.LostAfter?);
    }
  }

  lemma BlockedName(policy: Policy, w: Worker, notes: seq<Input>, rows: seq<Event>, exc: Exception, name: string)
    ensures Settled(policy, w, notes, rows, exc, name) ==> exc == BlockedError ==> name == "ExecutionBlocked"
  {
    hide Led, ReportLost;
  }

  /** The plain steps: starting the thread, callbacks, checks. */
  lemma PlainTells(cfg: Config, t: Tables, notes: seq<Input>, rows: seq<Event>, stored: Option<string>, w: Worker,
                   input: Input)
    requires PlainPoint(w.main) && ThreadsOk(w) && MainStep(cfg, t, w, input).Some?
    requires Told(cfg.policy, notes, rows, stored, w)
    ensures var move := MainStep(cfg, t, w, input).value;
      move.op == None && Told(cfg.policy, notes + Note(input), rows, stored, move.worker)
  {
    hide AllKanban, AllAccepted, GatesOk, Led, Blamed, RowsOfAll;
    hide ClaimStep, AnnounceStep, JoinStep, PersistStep, CompleteStep, ConcludeStep;
    hide DispatchStep, CheckStep, SettleStep;
    var v := MainStep(cfg, t, w, input).value.worker;
    assert input == Go(Answered) ==> notes + Note(input) == notes;
    match w.main
    case Dispatching => DispatchTells(cfg.policy, notes, rows, stored, w, input.outcome);
    case EnteringProgress =>
      if input.raised.Some? {
        LedBy(cfg.policy, v, ProgressRaised(input.raised.value), notes + Note(input), rows);
      }
    case Checking(result) => CheckTells(cfg.policy, notes, rows, stored, w, result);
    case EnteringReview(result) =>
      if input.raised.Some? { ReviewTells(cfg.policy, notes, rows, stored, w, input.raised.value); }
    case Settling(exc, blamed) => SettleTells(cfg.policy, notes, rows, stored, w, exc, blamed);
    case MarkingBlocked => MarkedTells(cfg.policy, notes, rows, stored, w, input.raised, v);
    case _ =>
  }

  lemma QuietNote(notes: seq<Input>)
    ensures notes + Note(Go(Answered)) == notes
  {
  }

  /** Every step but the last `finish`. */
  lemma EarlierTells(cfg: Config, t: Tables, notes: seq<Input>, rows: seq<Event>, stored: Option<string>, w: Worker,
                     input: Input)
    requires ThreadsOk(w) && !w.main.Concluding? && MainStep(cfg, t, w, input).Some?
    requires Told(cfg.policy, notes, rows, stored, w)
    ensures var move := MainStep(cfg, t, w, input).value;
      Told(cfg.policy, notes + Note(input), RowsWith(rows, move.op), stored, move.worker)
  {
    hide Told, Apply, ClaimStep, AnnounceStep, JoinStep, PersistStep, CompleteStep, Note;
    if PlainPoint(w.main) {
      PlainTells(cfg, t, notes, rows, stored, w, input);
    } else {
      QuietNote(notes);
      match w.main
      case Claiming => ClaimTells(cfg, t, notes, rows, stored, w, input.fault);
      case Announcing => AnnounceTells(cfg.policy, notes, rows, stored, w, input.fault);
      case Joining(WithResult(result)) => JoinedResultTells(cfg, notes, rows, stored, w, result);
      case Joining(WithException(exc)) => JoinedExceptionTells(cfg, notes, rows, stored, w, exc);
      case Persisting(_, WithResult(_)) => ResultTells(cfg.policy, notes, rows, stored, w, input.fault);
      case Persisting(_, WithException(_)) => ReportTells(cfg.policy, notes, rows, stored, w, input.fault);
      case Completing(result) => CompleteTells(cfg.policy, t, notes, rows, stored, w, input.fault);
    }
  }

  /** The stored error matters only once the last `finish` was accepted. */
  lemma ToldElsewhere(policy: Policy, notes: seq<Input>, rows: seq<Event>, before: Option<string>,
                      after: Option<string>, w: Worker)
    requires Told(policy, notes, rows, before, w)
    requires LastAccepted(w.main) && w.main.how.raised != BlockedError ==> after == before
    ensures Told(policy, notes, rows, after, w)
  {
    hide Led, Blamed, Settled, ReportUnderWay, Carried, Reviewed, Unfinished, StillQueued;
  }
}
