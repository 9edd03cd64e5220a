/** The polling adapter: `src/hermes_agent_runtime/kanban.py`.

    `polls(k)` is what the k-th task read answers (`polls(0)` covers starting the work), `clock(0)` the
    monotonic time at which the deadline is fixed and `clock(k + 1)` the time read in iteration k. */
module Kanban {
  import opened Options
  import opened Payloads
  import opened Execution
  import Lease

  datatype RunSnapshot = RunSnapshot(outcome: Option<string>, metadata: map<Field, Value>)

  datatype Snapshot = Snapshot(taskId: string, status: string, assignee: Option<string>,
                               metadata: map<Field, Value>, latestRun: Option<RunSnapshot>)

  datatype Read = Seen(snapshot: Snapshot) | Unreadable(exc: Exception)

  predicate Terminal(status: string) { status == "done" || status == "blocked" }

  const FAILED_OUTCOMES := {"failed", "timed_out", "spawn_failed", "rate_limited"}

  /** The latest run's outcome when it is present and non-empty. */
  function OutcomeOf(s: Snapshot): Option<string> {
    if s.latestRun.Some? && s.latestRun.value.outcome.Some? && s.latestRun.value.outcome.value != ""
    then s.latestRun.value.outcome else None
  }

  predicate FailedOutcome(s: Snapshot) { OutcomeOf(s).Some? && OutcomeOf(s).value in FAILED_OUTCOMES }

  // ---------------------------------------------------------------- payloads and result fields

  function FieldsIn(metadata: map<Field, Value>): map<Field, string> {
    map name | name in metadata && name in RESULT_FIELDS && metadata[name].Text? && metadata[name].s != "" ::
      metadata[name].s
  }

  /** Task metadata wins over the latest run's. */
  function MergedFields(s: Snapshot): map<Field, string> {
    (if s.latestRun.Some? then FieldsIn(s.latestRun.value.metadata) else map[]) + FieldsIn(s.metadata)
  }

  function AsPayload(fields: map<Field, string>): Payload { map name | name in fields :: Text(fields[name]) }

  function BasePayload(c: Lease.Context, s: Snapshot): Payload {
    var base: Payload := map[RunIdField := Text(c.run), LinearIssueId := Text(c.issue), AgentField := Text(c.agent),
                             KanbanTaskId := Text(s.taskId), TaskStatus := Text(s.status)];
    var owned := if s.assignee.Some? && s.assignee.value != "" then base[Assignee := Text(s.assignee.value)] else base;
    if OutcomeOf(s).Some? then owned[KanbanOutcome := Text(OutcomeOf(s).value)] else owned
  }

  function EventPayload(c: Lease.Context, s: Snapshot, extra: Payload): Payload {
    BasePayload(c, s) + Normalized(extra)
  }

  /** `_event_payload`: the fixed entries, the optional ones, then the loop over the extra ones. */
  method BuildPayload(c: Lease.Context, s: Snapshot, extra: Payload) returns (payload: Payload)
    ensures payload == EventPayload(c, s, extra)
  {
    hide OutcomeOf;
    payload := map[RunIdField := Text(c.run), LinearIssueId := Text(c.issue), AgentField := Text(c.agent),
                   KanbanTaskId := Text(s.taskId), TaskStatus := Text(s.status)];
    if s.assignee.Some? && s.assignee.value != "" {
      payload := payload[Assignee := Text(s.assignee.value)];
    }
    var outcome := OutcomeOf(s);
    if outcome.Some? {
      payload := payload[KanbanOutcome := Text(outcome.value)];
    }
    assert payload == BasePayload(c, s);
    payload := AddExtra(payload, extra);
  }

  method AddExtra(base: Payload, extra: Payload) returns (payload: Payload)
    ensures payload == base + Normalized(extra)
  {
    payload := base;
    var todo := extra.Keys;
    while todo != {}
      invariant todo <= extra.Keys
      invariant payload.Keys == base.Keys + (Normalized(extra).Keys - todo)
      invariant forall key :: key in payload ==>
        payload[key] == if key in Normalized(extra) && key !in todo then extra[key] else base[key]
      decreases todo
    {
      var key :| key in todo;
      todo := todo - {key};
      if extra[key] != Null {
        payload := payload[key := extra[key]];
      }
    }
  }

  predicate UsableText(metadata: map<Field, Value>, name: Field) {
    name in metadata && metadata[name].Text? && metadata[name].s != ""
  }

  /** A result field comes from the task's metadata when it holds a non-empty text there, else from the
      latest run's; nothing else is ever reported. */
  lemma MergePrecedence(s: Snapshot, name: Field)
    ensures name in MergedFields(s) <==> (
      (name == CommitSha || name == PullRequestUrl || name == RailwayDeploymentId || name == TestsStatus ||
       name == ReviewStatus) &&
      (UsableText(s.metadata, name) || (s.latestRun.Some? && UsableText(s.latestRun.value.metadata, name))))
    ensures name in MergedFields(s) ==> (MergedFields(s)[name] ==
      if UsableText(s.metadata, name) then s.metadata[name].s else s.latestRun.value.metadata[name].s)
  {
  }

  lemma FieldIn(metadata: map<Field, Value>, name: Field)
    requires name in RESULT_FIELDS
    ensures name in FieldsIn(metadata) <==> name in metadata && metadata[name].Text? && metadata[name].s != ""
    ensures name in FieldsIn(metadata) ==> FieldsIn(metadata)[name] == metadata[name].s
    ensures FieldsIn(metadata).Keys <= RESULT_FIELDS
  {
  }

  /** `_result_fields`: the loop over the allowed names. */
  method CollectFields(metadata: map<Field, Value>) returns (fields: map<Field, string>)
    ensures fields == FieldsIn(metadata)
  {
    hide FieldsIn, RESULT_FIELDS;
    fields := map[];
    var todo := RESULT_FIELDS;
    ghost var goal := FieldsIn(metadata);
    while todo != {}
      invariant todo <= RESULT_FIELDS
      invariant fields.Keys == goal.Keys * (RESULT_FIELDS - todo)
      invariant forall name :: name in fields ==> fields[name] == goal[name]
      decreases todo
    {
      var name :| name in todo;
      FieldIn(metadata, name);
      todo := todo - {name};
      if name in metadata && metadata[name].Text? && metadata[name].s != "" {
        fields := fields[name := metadata[name].s];
      }
    }
    FieldIn(metadata, CommitSha) by { AllowedFields(); }
  }

  lemma AllowedFields()
    ensures CommitSha in RESULT_FIELDS
  {
  }

  // ---------------------------------------------------------------- the observable run of the adapter

  ghost predicate Stops(polls: nat -> Read, clock: nat -> real, timeout: real, k: nat) {
    polls(k).Seen? ==>
      Terminal(polls(k).snapshot.status) || FailedOutcome(polls(k).snapshot) || clock(k + 1) >= clock(0) + timeout
  }

  /** The first read at which the adapter stops polling. */
  ghost predicate FirstStop(polls: nat -> Read, clock: nat -> real, timeout: real, n: nat) {
    Stops(polls, clock, timeout, n) && forall k: nat :: k < n ==> polls(k).Seen? && !Stops(polls, clock, timeout, k)
  }

  ghost predicate SeenUpTo(polls: nat -> Read, n: nat) { forall k: nat :: k <= n ==> polls(k).Seen? }

  ghost predicate Changed(polls: nat -> Read, k: nat)
    requires 0 < k && SeenUpTo(polls, k)
  {
    polls(k).snapshot.status != polls(k - 1).snapshot.status
  }

  function Plain(c: Lease.Context, kind: Kind, s: Snapshot): Entry { Entry(kind, EventPayload(c, s, map[])) }

  /** One `kanban.status_changed` per adjacent change of status among reads 0..n. */
  ghost function Changes(c: Lease.Context, polls: nat -> Read, n: nat): seq<Entry>
    requires SeenUpTo(polls, n)
  {
    if n == 0 then [] else
      Changes(c, polls, n - 1) +
      if Changed(polls, n) then [Plain(c, KanbanStatusChanged, polls(n).snapshot)] else []
  }

  ghost function TraceBefore(c: Lease.Context, polls: nat -> Read, n: nat): seq<Entry>
    requires SeenUpTo(polls, n)
  {
    [Plain(c, KanbanDispatched, polls(0).snapshot)] + Changes(c, polls, n)
  }

  /** The single closing event: by status, then by failed outcome, else the deadline. */
  function ClosingEvent(c: Lease.Context, s: Snapshot): Entry {
    if s.status == "done" then Entry(KanbanCompleted, EventPayload(c, s, AsPayload(MergedFields(s))))
    else if s.status == "blocked" then Plain(c, KanbanBlocked, s)
    else if FailedOutcome(s)
    then Entry(KanbanFailed, EventPayload(c, s, map[KanbanOutcome := Text(OutcomeOf(s).value)]))
    else Plain(c, KanbanTimeout, s)
  }

  ghost function Verdict(c: Lease.Context, polls: nat -> Read, n: nat): DispatchOutcome
    requires forall k: nat :: k < n ==> polls(k).Seen?
  {
    if polls(n).Unreadable? then Failing(polls(n).exc)
    else
      assert SeenUpTo(polls, n);
      var s := polls(n).snapshot;
      var trace := TraceBefore(c, polls, n) + [ClosingEvent(c, s)];
      if Terminal(s.status) then Finished(ExecutionResult(MergedFields(s), trace))
      else Failing(EventError(if FailedOutcome(s) then "RuntimeError" else "TimeoutError", trace))
  }

  /** The task's latest run ended in one of the ways the adapter gives up on. */
  predicate RunGaveUp(s: Snapshot) {
    s.latestRun.Some? && s.latestRun.value.outcome.Some? &&
    var outcome := s.latestRun.value.outcome.value;
    outcome == "failed" || outcome == "timed_out" || outcome == "spawn_failed" || outcome == "rate_limited"
  }

  /** The last observed event has this kind. */
  predicate ClosesWith(events: seq<Entry>, kind: Kind) { events != [] && events[|events| - 1].kind == kind }

  /** A read that gives no reason to stop: neither unreadable, terminal, given up on nor past the deadline. */
  predicate GoesOn(read: Read, expired: bool) {
    read.Seen? && read.snapshot.status != "done" && read.snapshot.status != "blocked" && !RunGaveUp(read.snapshot) &&
    !expired
  }

  ghost predicate GoesOnUntil(polls: nat -> Read, clock: nat -> real, timeout: real, n: nat) {
    forall k: nat {:trigger polls(k)} :: k < n ==> GoesOn(polls(k), clock(k + 1) >= clock(0) + timeout)
  }

  /** The reason to stop decides what is handed back. */
  ghost predicate HandsBack(read: Read, expired: bool, outcome: DispatchOutcome) {
    match read
    case Unreadable(exc) => outcome == Failing(exc)
    case Seen(s) =>
      if s.status == "done" then
        outcome.Finished? && outcome.result.fields == MergedFields(s) &&
        ClosesWith(outcome.result.events, KanbanCompleted)
      else if s.status == "blocked" then
        outcome.Finished? && outcome.result.fields == MergedFields(s) &&
        ClosesWith(outcome.result.events, KanbanBlocked)
      else
        outcome.Failing? && outcome.exc.EventError? &&
        if RunGaveUp(s) then outcome.exc.errorType == "RuntimeError" && ClosesWith(outcome.exc.events, KanbanFailed)
        else expired && outcome.exc.errorType == "TimeoutError" && ClosesWith(outcome.exc.events, KanbanTimeout)
  }

  /** What the adapter promises of the read `n` at which it stops. */
  ghost predicate StopsFor(polls: nat -> Read, clock: nat -> real, timeout: real, n: nat, outcome: DispatchOutcome) {
    GoesOnUntil(polls, clock, timeout, n) && HandsBack(polls(n), clock(n + 1) >= clock(0) + timeout, outcome)
  }

  lemma GivesUpExactly(s: Snapshot)
    ensures FailedOutcome(s) <==> RunGaveUp(s)
  {
  }

  lemma FirstStopGoesOn(polls: nat -> Read, clock: nat -> real, timeout: real, n: nat)
    requires FirstStop(polls, clock, timeout, n)
    ensures GoesOnUntil(polls, clock, timeout, n)
  {
    hide FailedOutcome, RunGaveUp;
    forall k: nat {:trigger polls(k)} | k < n
      ensures GoesOn(polls(k), clock(k + 1) >= clock(0) + timeout)
    {
      assert !Stops(polls, clock, timeout, k);
      GivesUpExactly(polls(k).snapshot);
    }
  }

  lemma VerdictStopsFor(c: Lease.Context, polls: nat -> Read, clock: nat -> real, timeout: real, n: nat)
    requires FirstStop(polls, clock, timeout, n)
    ensures StopsFor(polls, clock, timeout, n, Verdict(c, polls, n))
  {
    hide EventPayload, FailedOutcome, RunGaveUp, TraceBefore, FieldsIn, GoesOnUntil;
    FirstStopGoesOn(polls, clock, timeout, n);
    if polls(n).Seen? {
      GivesUpExactly(polls(n).snapshot);
      assert ClosesWith(TraceBefore(c, polls, n) + [ClosingEvent(c, polls(n).snapshot)],
                        ClosingEvent(c, polls(n).snapshot).kind);
    }
  }

  /** Time passes at least `poll` between consecutive clock readings of the loop. */
  ghost predicate Advances(clock: nat -> real, poll: real) {
    clock(0) <= clock(1) && forall k: nat {:trigger clock(k + 1)} :: clock(k + 1) + poll <= clock(k + 2)
  }

  lemma {:induction false} ClockReaches(clock: nat -> real, poll: real, k: nat)
    requires Advances(clock, poll)
    ensures clock(k + 1) >= clock(0) + k as real * poll
  {
    if k > 0 {
      ClockReaches(clock, poll, k - 1);
      assert clock((k - 1) + 1) + poll <= clock((k - 1) + 2);
    }
  }

  /** Reaching read `k` means that `k - 1` full poll intervals fitted before the deadline. */
  ghost predicate Affordable(k: nat, poll: real, timeout: real) {
    k == 0 || (k - 1) as real * poll < timeout
  }

  lemma FirstIsAffordable(poll: real, timeout: real)
    ensures Affordable(0, poll, timeout)
  {
  }

  ghost function PollBound(poll: real, timeout: real): nat
    requires poll > 0.0 && timeout > 0.0
  {
    (timeout / poll).Floor + 2
  }

  lemma NextIsAffordable(clock: nat -> real, poll: real, timeout: real, k: nat)
    requires poll > 0.0 && timeout > 0.0 && Advances(clock, poll) && clock(k + 1) < clock(0) + timeout
    ensures Affordable(k + 1, poll, timeout) && k + 1 < PollBound(poll, timeout)
  {
    ClockReaches(clock, poll, k);
    assert timeout == (timeout / poll) * poll;
    if k as real >= timeout / poll {
      assert k as real * poll >= (timeout / poll) * poll;
    }
  }

  /** `KanbanDispatcherAdapter.__call__`: the loop returns the verdict on the first stopping read `n`, for the
      reason it stops there, and `n` is at most `timeout / poll` rounded up. */
  method Dispatch(c: Lease.Context, polls: nat -> Read, clock: nat -> real, poll: real, timeout: real)
    returns (outcome: DispatchOutcome)
    requires poll > 0.0 && timeout > 0.0 && Advances(clock, poll)
    ensures exists n: nat ::
      FirstStop(polls, clock, timeout, n) && outcome == Verdict(c, polls, n) && Affordable(n, poll, timeout) &&
      StopsFor(polls, clock, timeout, n, outcome)
  {
    hide EventPayload, FieldsIn, AsPayload, OutcomeOf, PollBound, Affordable, Advances, StopsFor;
    assert Affordable(0, poll, timeout) by { FirstIsAffordable(poll, timeout); }
    if polls(0).Unreadable? {
      VerdictStopsFor(c, polls, clock, timeout, 0);
      return Failing(polls(0).exc);
    }
    var snapshot := polls(0).snapshot;
    var payload := BuildPayload(c, snapshot, map[]);
    var events := [Entry(KanbanDispatched, payload)];
    var deadline := clock(0) + timeout;
    var lastStatus := snapshot.status;
    var k: nat := 0;
    ghost var bound: nat := PollBound(poll, timeout);
    while snapshot.status != "done" && snapshot.status != "blocked"
      invariant SeenUpTo(polls, k) && polls(k) == Seen(snapshot) && lastStatus == snapshot.status
      invariant forall j: nat :: j < k ==> polls(j).Seen? && !Stops(polls, clock, timeout, j)
      invariant events == TraceBefore(c, polls, k)
      invariant Affordable(k, poll, timeout) && k <= bound
      decreases bound - k
    {
      if FailedOutcome(snapshot) {
        payload := BuildPayload(c, snapshot, map[KanbanOutcome := Text(OutcomeOf(snapshot).value)]);
        events := events + [Entry(KanbanFailed, payload)];
        VerdictStopsFor(c, polls, clock, timeout, k);
        return Failing(EventError("RuntimeError", events));
      }
      if clock(k + 1) >= deadline {
        payload := BuildPayload(c, snapshot, map[]);
        events := events + [Entry(KanbanTimeout, payload)];
        VerdictStopsFor(c, polls, clock, timeout, k);
        return Failing(EventError("TimeoutError", events));
      }
      NextIsAffordable(clock, poll, timeout, k);
      k := k + 1;
      if polls(k).Unreadable? {
        VerdictStopsFor(c, polls, clock, timeout, k);
        return Failing(polls(k).exc);
      }
      snapshot := polls(k).snapshot;
      if snapshot.status != lastStatus {
        lastStatus := snapshot.status;
        payload := BuildPayload(c, snapshot, map[]);
        events := events + [Entry(KanbanStatusChanged, payload)];
      }
    }
    VerdictStopsFor(c, polls, clock, timeout, k);
    var fields := CollectFields(snapshot.metadata);
    if snapshot.latestRun.Some? {
      var older := CollectFields(snapshot.latestRun.value.metadata);
      fields := older + fields;
    }
    assert fields == MergedFields(snapshot);
    if snapshot.status == "blocked" {
      payload := BuildPayload(c, snapshot, map[]);
      events := events + [Entry(KanbanBlocked, payload)];
    } else {
      payload := BuildPayload(c, snapshot, AsPayload(fields));
      events := events + [Entry(KanbanCompleted, payload)];
    }
    return Finished(ExecutionResult(fields, events));
  }

}
