/** Whole histories of committed transactions, by any number of callers in any order.

    The only assumption on clients is that the rows they insert directly are not lock or outcome
    events (`Faithful`); the worker and the Kanban adapter are shown to satisfy it. */
module LeaseHistory {
  import opened Payloads
  import opened Lease

  ghost function PlayFrom(t: Tables, ops: seq<Op>): Tables {
    if ops == [] then t else Apply(PlayFrom(t, ops[..|ops| - 1]), ops[|ops| - 1]).after
  }

  ghost function Play(ops: seq<Op>): Tables { PlayFrom(Empty, ops) }

  predicate OutcomeKind(kind: Kind) {
    kind == RunCompleted || kind == RunFailed || kind == RunBlocked || kind == RunCanceled
  }

  predicate ClosingKind(kind: Kind) { kind == LockReleased || kind == LockRecovered }

  predicate AuditKind(kind: Kind) { kind == LockAcquired || ClosingKind(kind) || OutcomeKind(kind) }

  predicate Faithful(op: Op) { op.Post? ==> !AuditKind(op.event.kind) }

  ghost predicate AllFaithful(ops: seq<Op>) { forall i :: 0 <= i < |ops| ==> Faithful(ops[i]) }

  ghost predicate NoRelease(ops: seq<Op>) { forall i :: 0 <= i < |ops| ==> !ops[i].Release? }

  /** In every reachable state, under every interleaving, locks and running runs are in bijection. */
  lemma {:induction false} HistoryKeepsTables(t: Tables, ops: seq<Op>)
    requires TablesOk(t)
    ensures TablesOk(PlayFrom(t, ops))
  {
    if ops != [] {
      HistoryKeepsTables(t, ops[..|ops| - 1]);
      ApplyKeepsTables(PlayFrom(t, ops[..|ops| - 1]), ops[|ops| - 1]);
    }
  }

  // ---------------------------------------------------------------- what one step does to the log

  function Owners(t: Tables): map<string, string> { map issue | issue in t.locks :: t.locks[issue].run }

  function Statuses(t: Tables): map<string, Status> { map run | run in t.runs :: t.runs[run].status }

  /** The four ways a transaction can change who owns what and which status a run has. */
  datatype Change =
    | Quiet
    | Opened(run: string, issue: string)
    | Closed(run: string, issue: string, status: Status)
    | Freed

  /** The step from `t` to `u` appends `more` and makes the change `ch`. */
  ghost predicate Describes(t: Tables, u: Tables, more: seq<Event>, ch: Change) {
    && u.log == t.log + more
    && match ch
       case Quiet =>
         Owners(u) == Owners(t) && Statuses(u) == Statuses(t) &&
         |more| <= 1 && (more != [] ==> !AuditKind(more[0].kind))
       case Opened(run, issue) =>
         && run !in Statuses(t) && issue !in Owners(t)
         && Owners(u) == Owners(t)[issue := run] && Statuses(u) == Statuses(t)[run := Running]
         && |more| == 3 && more[0].kind == RunCreated && more[2].kind == RunStarted
         && more[1].kind == LockAcquired && more[1].run == run && more[1].issue == issue
       case Closed(run, issue, status) =>
         && issue in Owners(t) && Owners(t)[issue] == run
         && run in Statuses(t) && Statuses(t)[run] == Running && FinalStatus(status)
         && Owners(u) == Owners(t) - {issue} && Statuses(u) == Statuses(t)[run := status]
         && |more| == 2 && more[0].run == run && more[1].run == run && more[1].issue == issue
         && ((more[0].kind == FinalKind(status) && more[1].kind == LockReleased) ||
             (more[0].kind == LockExpired && more[1].kind == LockRecovered && status == Failed))
       case Freed =>
         && more == [] && Owners(u) == Owners(t) && Statuses(u).Keys == Statuses(t).Keys
         && forall run :: run in Statuses(t) ==>
              (Statuses(u)[run] == Statuses(t)[run] || (Statuses(t)[run] == Blocked && Statuses(u)[run] == Canceled))
  }

  lemma SummarizeClaim(t: Tables, c: Context, ttl: int) returns (more: seq<Event>, ch: Change)
    requires TablesOk(t)
    ensures Describes(t, ClaimEffect(t, c, ttl).after, more, ch) && !ch.Freed?
  {
    hide Holder, ClaimConflicts, TablesOk, ClaimEvents;
    if !TtlOk(ttl) {
      more, ch := [], Quiet;
    } else if ClaimConflicts(t, c) {
      ch := Quiet;
      more := if Holder(t, c.issue).Some? then [RejectedEvent(c.issue, Holder(t, c.issue).value, c.run)] else [];
    } else {
      more, ch := SummarizeGrantedClaim(t, c, ttl);
    }
  }

  lemma SummarizeGrantedClaim(t: Tables, c: Context, ttl: int) returns (more: seq<Event>, ch: Change)
    requires TtlOk(ttl) && !ClaimConflicts(t, c)
    ensures Describes(t, ClaimEffect(t, c, ttl).after, more, ch) && !ch.Freed?
  {
    hide Holder;
    var u := ClaimEffect(t, c, ttl).after;
    more, ch := ClaimEvents(c, ttl, t.now + ttl * SECOND), Opened(c.run, c.issue);
    assert c.run !in t.runs && c.issue !in t.locks;
    assert Owners(u) == Owners(t)[c.issue := c.run];
    assert Statuses(u) == Statuses(t)[c.run := Running];
  }

  lemma SummarizeAcceptedFinish(t: Tables, run: string, issue: string, status: Status, arg: FieldsArgument)
    returns (more: seq<Event>, ch: Change)
    requires TablesOk(t) && FinishEffect(t, run, issue, status, arg).reply == Yes
    ensures Describes(t, FinishEffect(t, run, issue, status, arg).after, more, ch) && ch.Closed?
  {
    hide FinalPayload, StoredColumns, StatusName, TablesOk;
    assert t.runs[run].status == Running by { OwnerRuns(t, run, issue); }
    var fields := if arg.ObjectFields? then arg.fields else map[];
    more, ch := FinishEvents(run, issue, t.locks[issue].agent, status, fields), Closed(run, issue, status);
    var u := FinishEffect(t, run, issue, status, arg).after;
    assert Owners(u) == Owners(t) - {issue};
    assert Statuses(u) == Statuses(t)[run := status];
  }

  lemma OwnerRuns(t: Tables, run: string, issue: string)
    requires TablesOk(t) && Owns(t, run, issue)
    ensures run in t.runs && t.runs[run].status == Running
  {
  }

  lemma SummarizeFinish(t: Tables, run: string, issue: string, status: Status, arg: FieldsArgument)
    returns (more: seq<Event>, ch: Change)
    requires TablesOk(t)
    ensures Describes(t, FinishEffect(t, run, issue, status, arg).after, more, ch) && !ch.Freed?
  {
    if FinishEffect(t, run, issue, status, arg).reply == Yes {
      hide FinishEffect, Describes;
      more, ch := SummarizeAcceptedFinish(t, run, issue, status, arg);
    } else {
      hide FinalPayload, StoredColumns, StatusName, TablesOk;
      more, ch := [], Quiet;
    }
  }

  lemma SummarizeRecover(t: Tables, issue: string) returns (more: seq<Event>, ch: Change)
    requires TablesOk(t)
    ensures Describes(t, RecoverEffect(t, issue).after, more, ch) && !ch.Freed?
  {
    if RecoverEffect(t, issue).reply == Yes {
      more, ch := RecoverEvents(issue, t.locks[issue]), Closed(t.locks[issue].run, issue, Failed);
    } else {
      more, ch := [], Quiet;
    }
  }

  lemma Summarize(t: Tables, op: Op) returns (more: seq<Event>, ch: Change)
    requires TablesOk(t) && Faithful(op)
    ensures Describes(t, Apply(t, op).after, more, ch)
    ensures ch.Freed? ==> op.Release?
  {
    hide ClaimEffect, FinishEffect, RecoverEffect;
    match op
    case Claim(c, ttl) => more, ch := SummarizeClaim(t, c, ttl);
    case Finish(run, issue, status, arg) => more, ch := SummarizeFinish(t, run, issue, status, arg);
    case Recover(issue) => more, ch := SummarizeRecover(t, issue);
    case Release(issue) => more, ch := [], Freed;
    case Post(event) => more, ch := [event], Quiet;
    case Heartbeat(run, issue, ttl) => more, ch := [], Quiet;
    case Tick(elapsed) => more, ch := [], Quiet;
  }

  // ---------------------------------------------------------------- replaying the event log

  /** Ownership and run statuses as an auditor reads them from the log alone. */
  datatype View = View(owner: map<string, string>, status: map<string, Status>)

  function Absorb(v: View, e: Event): View {
    match e.kind
    case LockAcquired => View(v.owner[e.issue := e.run], v.status[e.run := Running])
    case RunCompleted => v.(status := v.status[e.run := Completed])
    case RunFailed => v.(status := v.status[e.run := Failed])
    case RunBlocked => v.(status := v.status[e.run := Blocked])
    case RunCanceled => v.(status := v.status[e.run := Canceled])
    case LockReleased => v.(owner := v.owner - {e.issue})
    case LockRecovered => View(v.owner - {e.issue}, v.status[e.run := Failed])
    case _ => v
  }

  function Replay(log: seq<Event>): View {
    if log == [] then View(map[], map[]) else Absorb(Replay(log[..|log| - 1]), log[|log| - 1])
  }

  lemma ReplayAppends(log: seq<Event>, e: Event)
    ensures Replay(log + [e]) == Absorb(Replay(log), e)
  {
    assert (log + [e])[..|log|] == log;
  }

  /** What the replayed log may differ in: the operator's release is not logged. */
  predicate Explains(logged: Status, stored: Status, released: bool) {
    logged == stored || (released && logged == Blocked && stored == Canceled)
  }

  ghost predicate Mirrors(t: Tables, released: bool) {
    var v := Replay(t.log);
    && v.owner == Owners(t)
    && v.status.Keys == Statuses(t).Keys
    && forall run :: run in Statuses(t) ==> Explains(v.status[run], Statuses(t)[run], released)
  }

  /** What a step does to the replayed view. */
  function Viewed(v: View, ch: Change): View {
    match ch
    case Opened(run, issue) => View(v.owner[issue := run], v.status[run := Running])
    case Closed(run, issue, status) => View(v.owner - {issue}, v.status[run := status])
    case _ => v
  }

  lemma OpeningReplays(t: Tables, u: Tables, more: seq<Event>, ch: Change)
    requires Describes(t, u, more, ch) && ch.Opened?
    ensures Replay(u.log) == Viewed(Replay(t.log), ch)
  {
    hide Replay, Owners, Statuses;
    ReplayAppends(t.log, more[0]);
    ReplayAppends(t.log + [more[0]], more[1]);
    ReplayAppends(t.log + [more[0]] + [more[1]], more[2]);
    assert u.log == t.log + [more[0]] + [more[1]] + [more[2]];
  }

  lemma ClosingReplays(t: Tables, u: Tables, more: seq<Event>, ch: Change)
    requires Describes(t, u, more, ch) && ch.Closed?
    ensures Replay(u.log) == Viewed(Replay(t.log), ch)
  {
    hide Replay, Owners, Statuses;
    ReplayAppends(t.log, more[0]);
    ReplayAppends(t.log + [more[0]], more[1]);
    assert u.log == t.log + [more[0]] + [more[1]];
  }

  lemma StepReplays(t: Tables, u: Tables, more: seq<Event>, ch: Change)
    requires Describes(t, u, more, ch)
    ensures Replay(u.log) == Viewed(Replay(t.log), ch)
  {
    hide Replay, Owners, Statuses;
    match ch
    case Quiet =>
      if more == [] { assert u.log == t.log; } else { ReplayAppends(t.log, more[0]); assert more == [more[0]]; }
    case Opened(run, issue) => OpeningReplays(t, u, more, ch);
    case Closed(run, issue, status) => ClosingReplays(t, u, more, ch);
    case Freed => assert u.log == t.log;
  }

  lemma StepMirrors(t: Tables, u: Tables, more: seq<Event>, ch: Change, released: bool)
    requires Mirrors(t, released) && Describes(t, u, more, ch)
    ensures Mirrors(u, released || ch.Freed?)
  {
    hide Replay, Owners, Statuses;
    StepReplays(t, u, more, ch);
  }

  /** Folding the log reconstructs ownership and every status, up to the operator's releases, which are
      not logged. */
  lemma {:induction false} LogReplaysToTables(ops: seq<Op>)
    requires AllFaithful(ops)
    ensures Mirrors(Play(ops), true)
    ensures NoRelease(ops) ==> Mirrors(Play(ops), false)
  {
    if ops != [] {
      var before, last := ops[..|ops| - 1], ops[|ops| - 1];
      LogReplaysToTables(before);
      HistoryKeepsTables(Empty, before);
      var more, ch := Summarize(Play(before), last);
      StepMirrors(Play(before), Play(ops), more, ch, true);
      if NoRelease(ops) {
        assert NoRelease(before) && !last.Release?;
        StepMirrors(Play(before), Play(ops), more, ch, false);
      }
    }
  }

  /** The k-th transaction released `run`: a release of its issue while it was blocked. */
  ghost predicate ReleasedAt(ops: seq<Op>, k: nat, run: string)
    requires k < |ops|
  {
    var t := Play(ops[..k]);
    ops[k].Release? && run in t.runs && t.runs[run].issue == ops[k].issue && t.runs[run].status == Blocked
  }

  ghost predicate WasReleased(ops: seq<Op>, run: string) { exists k :: 0 <= k < |ops| && ReleasedAt(ops, k, run) }

  lemma WasReleasedStep(ops: seq<Op>, run: string)
    requires ops != []
    ensures WasReleased(ops, run) <==> WasReleased(ops[..|ops| - 1], run) || ReleasedAt(ops, |ops| - 1, run)
  {
    hide Play;
    var n := |ops| - 1;
    forall k | 0 <= k < n
      ensures ReleasedAt(ops[..n], k, run) <==> ReleasedAt(ops, k, run)
    {
      assert ops[..n][..k] == ops[..k];
    }
    if WasReleased(ops[..n], run) {
      var k :| 0 <= k < n && ReleasedAt(ops[..n], k, run);
      assert ReleasedAt(ops, k, run);
    }
  }

  ghost predicate LogDiffers(t: Tables, run: string) {
    run in t.runs && run in Replay(t.log).status && Replay(t.log).status[run] != t.runs[run].status
  }

  lemma StatusIsStored(t: Tables, run: string)
    ensures run in Statuses(t) <==> run in t.runs
    ensures run in t.runs ==> Statuses(t)[run] == t.runs[run].status
  {
  }

  lemma ReleaseDiffers(t: Tables, issue: string, run: string)
    requires Mirrors(t, true)
    ensures LogDiffers(ReleaseEffect(t, issue), run) <==>
      LogDiffers(t, run) || (run in t.runs && t.runs[run].issue == issue && t.runs[run].status == Blocked)
  {
    hide Replay, Statuses, Owners;
    StatusIsStored(t, run);
  }

  lemma LoggedStepDiffers(t: Tables, u: Tables, more: seq<Event>, ch: Change, run: string)
    requires Mirrors(t, true) && Describes(t, u, more, ch) && !ch.Freed?
    ensures LogDiffers(u, run) <==> LogDiffers(t, run)
  {
    hide Replay, Statuses, Owners;
    StepReplays(t, u, more, ch);
    StatusIsStored(t, run);
    StatusIsStored(u, run);
  }

  /** The log and the table disagree about a run exactly when the operator released it while it was
      blocked; the log then still says blocked and the table canceled. */
  lemma {:induction false} LogDiffersIffReleased(ops: seq<Op>, run: string)
    requires AllFaithful(ops)
    ensures LogDiffers(Play(ops), run) <==> WasReleased(ops, run)
  {
    hide Mirrors, LogDiffers, ReleaseEffect, Describes;
    if ops == [] {
      NothingDiffers(run);
    } else {
      var before, last := ops[..|ops| - 1], ops[|ops| - 1];
      LogDiffersIffReleased(before, run);
      LogReplaysToTables(before);
      HistoryKeepsTables(Empty, before);
      WasReleasedStep(ops, run);
      if last.Release? {
        ReleaseDiffers(Play(before), last.issue, run);
      } else {
        var more, ch := Summarize(Play(before), last);
        LoggedStepDiffers(Play(before), Play(ops), more, ch, run);
      }
    }
  }

  lemma NothingDiffers(run: string)
    ensures !LogDiffers(Empty, run)
  {
  }

  // ---------------------------------------------------------------- mutual exclusion in the log

  predicate BracketEvent(e: Event, issue: string) {
    e.issue == issue && (e.kind == LockAcquired || ClosingKind(e.kind))
  }

  /** The acquire and close events of one issue, in log order. */
  function Brackets(log: seq<Event>, issue: string): seq<Event> {
    if log == [] then [] else
      Brackets(log[..|log| - 1], issue) +
      if BracketEvent(log[|log| - 1], issue) then [log[|log| - 1]] else []
  }

  lemma BracketsAppend(log: seq<Event>, more: seq<Event>, issue: string)
    ensures Brackets(log + more, issue) == Brackets(log, issue) + Brackets(more, issue)
  {
    if more == [] {
      assert log + more == log;
    } else {
      assert (log + more)[..|log + more| - 1] == log + more[..|more| - 1];
      BracketsAppend(log, more[..|more| - 1], issue);
    }
  }

  /** Even positions acquire; odd ones close for the run of the acquire before them. */
  predicate BracketAt(b: seq<Event>, k: nat)
    requires k < |b|
  {
    if k % 2 == 0 then b[k].kind == LockAcquired else ClosingKind(b[k].kind) && b[k].run == b[k - 1].run
  }

  ghost predicate Alternates(b: seq<Event>) {
    forall k :: 0 <= k < |b| ==> BracketAt(b, k)
  }

  /** A bracket is open exactly when the issue has a lock row, and then names its holder. */
  ghost predicate WellBracketed(t: Tables, issue: string) {
    var b := Brackets(t.log, issue);
    && Alternates(b)
    && (issue in Owners(t) <==> |b| % 2 == 1)
    && (issue in Owners(t) ==> b[|b| - 1].run == Owners(t)[issue])
  }

  lemma BracketsInStep(t: Tables, u: Tables, more: seq<Event>, ch: Change, issue: string)
    requires Describes(t, u, more, ch)
    ensures Brackets(more, issue) == if (ch.Opened? || ch.Closed?) && ch.issue == issue then [more[1]] else []
  {
    hide Brackets, Owners, Statuses;
    BracketsOfThree(more, issue);
  }

  lemma StepBrackets(t: Tables, u: Tables, more: seq<Event>, ch: Change, issue: string)
    requires WellBracketed(t, issue) && Describes(t, u, more, ch)
    ensures WellBracketed(u, issue)
  {
    hide Brackets, Owners, Statuses, BracketAt;
    BracketsAppend(t.log, more, issue);
    BracketsInStep(t, u, more, ch, issue);
    var b := Brackets(t.log, issue);
    if (ch.Opened? || ch.Closed?) && ch.issue == issue {
      assert Brackets(u.log, issue) == b + [more[1]];
      AlternatesAfter(b, more[1]);
      assert (b + [more[1]])[|b|] == more[1];
    } else {
      assert Brackets(u.log, issue) == b;
    }
  }

  lemma AlternatesAfter(b: seq<Event>, e: Event)
    requires Alternates(b)
    requires if |b| % 2 == 0 then e.kind == LockAcquired else ClosingKind(e.kind) && e.run == b[|b| - 1].run
    ensures Alternates(b + [e])
  {
    forall k | 0 <= k < |b + [e]|
      ensures BracketAt(b + [e], k)
    {
      if k < |b| { assert BracketAt(b, k); }
    }
  }

  lemma BracketsOfThree(more: seq<Event>, issue: string)
    requires |more| <= 3
    ensures Brackets(more, issue) ==
      (if |more| > 0 && BracketEvent(more[0], issue) then [more[0]] else []) +
      (if |more| > 1 && BracketEvent(more[1], issue) then [more[1]] else []) +
      (if |more| > 2 && BracketEvent(more[2], issue) then [more[2]] else [])
  {
    if more != [] {
      BracketsOfThree(more[..|more| - 1], issue);
    }
  }

  /** Whole-run mutual exclusion per issue, read from the log alone. */
  lemma {:induction false} LogIsWellBracketed(ops: seq<Op>, issue: string)
    requires AllFaithful(ops)
    ensures WellBracketed(Play(ops), issue)
  {
    if ops != [] {
      LogIsWellBracketed(ops[..|ops| - 1], issue);
      HistoryKeepsTables(Empty, ops[..|ops| - 1]);
      var more, ch := Summarize(Play(ops[..|ops| - 1]), ops[|ops| - 1]);
      StepBrackets(Play(ops[..|ops| - 1]), Play(ops), more, ch, issue);
    }
  }

  // ---------------------------------------------------------------- each run opens and closes once

  predicate Counted(e: Event, run: string, opening: bool) {
    e.run == run && if opening then e.kind == LockAcquired else ClosingKind(e.kind)
  }

  /** How often `run` acquires a lock (`opening`) or has it closed, according to the log. */
  function Count(log: seq<Event>, run: string, opening: bool): nat {
    if log == [] then 0 else
      Count(log[..|log| - 1], run, opening) + if Counted(log[|log| - 1], run, opening) then 1 else 0
  }

  lemma CountAppends(log: seq<Event>, more: seq<Event>, run: string, opening: bool)
    ensures Count(log + more, run, opening) == Count(log, run, opening) + Count(more, run, opening)
  {
    if more == [] {
      assert log + more == log;
    } else {
      assert (log + more)[..|log + more| - 1] == log + more[..|more| - 1];
      CountAppends(log, more[..|more| - 1], run, opening);
    }
  }

  lemma {:induction false} CountOfRow(log: seq<Event>, e: Event, run: string, opening: bool)
    requires e in log && Counted(e, run, opening)
    ensures Count(log, run, opening) >= 1
  {
    var n := |log| - 1;
    if log[n] != e {
      assert e in log[..n] by { var i :| 0 <= i < |log| && log[i] == e; assert log[..n][i] == e; }
      CountOfRow(log[..n], e, run, opening);
    }
  }

  lemma {:induction false} CountOfTwoRows(log: seq<Event>, e: Event, f: Event, run: string, opening: bool)
    requires e in log && f in log && e != f && Counted(e, run, opening) && Counted(f, run, opening)
    ensures Count(log, run, opening) >= 2
  {
    var n := |log| - 1;
    assert forall x :: x in log && x != log[n] ==> x in log[..n] by {
      forall x | x in log && x != log[n] ensures x in log[..n] {
        var i :| 0 <= i < |log| && log[i] == x;
        assert log[..n][i] == x;
      }
    }
    if log[n] == e {
      CountOfRow(log[..n], f, run, opening);
    } else if log[n] == f {
      CountOfRow(log[..n], e, run, opening);
    } else {
      CountOfTwoRows(log[..n], e, f, run, opening);
    }
  }

  lemma {:induction false} CountedRow(log: seq<Event>, run: string, opening: bool)
    requires Count(log, run, opening) > 0
    ensures exists e :: e in log && Counted(e, run, opening)
  {
    var n := |log| - 1;
    if Counted(log[n], run, opening) {
      assert log[n] in log;
    } else {
      CountedRow(log[..n], run, opening);
    }
  }

  ghost predicate CountsMatch(t: Tables, run: string) {
    && Count(t.log, run, true) == (if run in Statuses(t) then 1 else 0)
    && Count(t.log, run, false) == (if run in Statuses(t) && Statuses(t)[run] != Running then 1 else 0)
  }

  lemma CountOfThree(more: seq<Event>, run: string, opening: bool)
    requires |more| <= 3
    ensures Count(more, run, opening) ==
      (if |more| > 0 && Counted(more[0], run, opening) then 1 else 0) +
      (if |more| > 1 && Counted(more[1], run, opening) then 1 else 0) +
      (if |more| > 2 && Counted(more[2], run, opening) then 1 else 0)
  {
    if more != [] {
      CountOfThree(more[..|more| - 1], run, opening);
    }
  }

  lemma StepCounts(t: Tables, u: Tables, more: seq<Event>, ch: Change, run: string)
    requires CountsMatch(t, run) && Describes(t, u, more, ch)
    ensures CountsMatch(u, run)
  {
    hide Count, Owners, Statuses;
    CountAppends(t.log, more, run, true);
    CountAppends(t.log, more, run, false);
    CountOfThree(more, run, true);
    CountOfThree(more, run, false);
  }

  /** A run acquires its lock exactly once and gives it up exactly when it is no longer running. */
  lemma {:induction false} RunsOpenAndCloseOnce(ops: seq<Op>, run: string)
    requires AllFaithful(ops)
    ensures CountsMatch(Play(ops), run)
  {
    if ops != [] {
      RunsOpenAndCloseOnce(ops[..|ops| - 1], run);
      HistoryKeepsTables(Empty, ops[..|ops| - 1]);
      var more, ch := Summarize(Play(ops[..|ops| - 1]), ops[|ops| - 1]);
      StepCounts(Play(ops[..|ops| - 1]), Play(ops), more, ch, run);
    }
  }

  // ---------------------------------------------------------------- outcomes are written once

  /** How one transaction may change a run that is not running. */
  lemma StoppedRunStep(t: Tables, op: Op, run: string)
    requires TablesOk(t) && run in t.runs && t.runs[run].status != Running
    ensures run in Apply(t, op).after.runs
    ensures Apply(t, op).after.runs[run] ==
      if op.Release? && op.issue == t.runs[run].issue && t.runs[run].status == Blocked
      then Released(t.runs[run], t.now) else t.runs[run]
  {
  }

  /** Once an outcome is committed, only the operator's release of a blocked run may change the row. */
  lemma {:induction false} OutcomeIsWrittenOnce(t: Tables, ops: seq<Op>, run: string)
    requires TablesOk(t) && run in t.runs && t.runs[run].status != Running
    ensures run in PlayFrom(t, ops).runs
    ensures var row := PlayFrom(t, ops).runs[run];
      row == t.runs[run] || (t.runs[run].status == Blocked && exists now :: row == Released(t.runs[run], now))
    ensures Release(t.runs[run].issue) !in ops || t.runs[run].status != Blocked ==>
      PlayFrom(t, ops).runs[run] == t.runs[run]
  {
    if ops != [] {
      var before, last := ops[..|ops| - 1], ops[|ops| - 1];
      assert ops == before + [last];
      OutcomeIsWrittenOnce(t, before, run);
      HistoryKeepsTables(t, before);
      StoppedRunStep(PlayFrom(t, before), last, run);
    }
  }

  /** Every later heartbeat and finish of a stopped run is refused and changes nothing, so a worker
      that retries after losing the answer of a committed finish cannot overwrite it. */
  lemma StoppedRunIsRefused(t: Tables, ops: seq<Op>, run: string, issue: string, ttl: int, status: Status,
                            arg: FieldsArgument)
    requires TablesOk(t) && run in t.runs && t.runs[run].status != Running
    requires TtlOk(ttl) && FinalStatus(status) && !arg.OtherFields?
    ensures var u := PlayFrom(t, ops);
      FinishEffect(u, run, issue, status, arg) == Outcome(No, u) &&
        HeartbeatEffect(u, run, issue, ttl) == Outcome(No, u)
  {
    OutcomeIsWrittenOnce(t, ops, run);
    HistoryKeepsTables(t, ops);
  }

  /** A finish is accepted exactly when the caller still owns the lock; expiry alone does not matter. */
  lemma FinishAcceptedIffOwner(t: Tables, run: string, issue: string, status: Status, arg: FieldsArgument)
    requires TablesOk(t) && FinalStatus(status) && !arg.OtherFields?
    ensures FinishEffect(t, run, issue, status, arg).reply == if Owns(t, run, issue) then Yes else No
    ensures FinishEffect(t, run, issue, status, arg).reply == Yes ==>
      var u := FinishEffect(t, run, issue, status, arg).after;
      u.runs[run].status == status && issue !in u.locks
  {
  }

  // ---------------------------------------------------------------- leases

  /** A heartbeat is accepted exactly from the owner of an unexpired lock; it then restarts the lease
      from now and touches nothing but this lock and its own run's heartbeat column. */
  lemma HeartbeatAcceptedIffUnexpired(t: Tables, run: string, issue: string, ttl: int)
    requires TablesOk(t) && TtlOk(ttl)
    ensures var outcome := HeartbeatEffect(t, run, issue, ttl);
      if Owns(t, run, issue) && t.locks[issue].expiresAt > t.now
      then outcome.reply == Yes && Owns(outcome.after, run, issue) &&
           outcome.after.locks[issue].expiresAt - t.now == ttl * SECOND &&
           outcome.after.log == t.log && Owners(outcome.after) == Owners(t) && Statuses(outcome.after) == Statuses(t)
      else outcome == Outcome(No, t)
  {
    var after := HeartbeatEffect(t, run, issue, ttl).after;
    assert Owners(after) == Owners(t);
    assert Statuses(after) == Statuses(t);
  }

  /** Once a lease has expired its run can never renew or regain it: as long as the run still owns the
      lock, whatever everybody does, the lock row is the expired one. */
  lemma {:induction false} ExpiredLeaseIsNeverRenewed(t: Tables, ops: seq<Op>, run: string, issue: string)
    requires TablesOk(t) && Owns(t, run, issue) && t.locks[issue].expiresAt <= t.now
    ensures var u := PlayFrom(t, ops);
      run in u.runs && u.now >= t.now && (Owns(u, run, issue) ==> u.locks[issue] == t.locks[issue])
  {
    if ops != [] {
      ExpiredLeaseIsNeverRenewed(t, ops[..|ops| - 1], run, issue);
      HistoryKeepsTables(t, ops[..|ops| - 1]);
      ExpiredLeaseStep(PlayFrom(t, ops[..|ops| - 1]), ops[|ops| - 1], run, issue);
    }
  }

  lemma ExpiredLeaseStep(t: Tables, op: Op, run: string, issue: string)
    requires TablesOk(t) && run in t.runs && (Owns(t, run, issue) ==> t.locks[issue].expiresAt <= t.now)
    ensures var u := Apply(t, op).after;
      run in u.runs && u.now >= t.now &&
      (Owns(u, run, issue) ==> Owns(t, run, issue) && u.locks[issue] == t.locks[issue])
  {
    hide TablesOk, Holder, FinishEvents, RecoverEvents, ClaimEvents, StoredColumns;
  }

  // ---------------------------------------------------------------- who may claim

  ghost predicate BlockedOn(t: Tables, issue: string) {
    exists run :: ActiveFor(t, issue, run) && t.runs[run].status == Blocked
  }

  ghost predicate TrueHolder(t: Tables, issue: string, run: string) {
    ActiveFor(t, issue, run) && forall other :: ActiveFor(t, issue, other) ==> other == run
  }

  /** A fresh claim succeeds exactly when the issue has neither a lock nor a blocked run; otherwise
      nothing moves except one `lock.rejected` row naming the unique active run. */
  lemma ClaimSucceedsExactly(t: Tables, c: Context, ttl: int)
    requires TablesOk(t) && TtlOk(ttl) && c.run !in t.runs
    ensures ClaimEffect(t, c, ttl).reply == if c.issue !in t.locks && !BlockedOn(t, c.issue) then Yes else No
    ensures ClaimEffect(t, c, ttl).reply == No ==> exists holder ::
      TrueHolder(t, c.issue, holder) && ClaimEffect(t, c, ttl).after ==
        t.(log := t.log + [RejectedEvent(c.issue, (holder, t.runs[holder].agent), c.run)])
  {
    if c.issue in t.locks {
      assert ActiveFor(t, c.issue, t.locks[c.issue].run);
    }
    if run :| ActiveFor(t, c.issue, run) {
      HolderIsUnique(t, c.issue, run);
      assert TrueHolder(t, c.issue, run);
      if t.runs[run].status == Running {
        assert Owns(t, run, c.issue);
      }
    }
  }

  /** The orchestrator's recover-then-claim: it enters exactly when the lock is absent or expired and
      no blocked run stands, whoever held the lock. */
  lemma RecoverThenClaim(t: Tables, c: Context, ttl: int)
    requires TablesOk(t) && TtlOk(ttl) && c.run !in t.runs
    ensures var u := RecoverEffect(t, c.issue).after;
      ClaimEffect(u, c, ttl).reply == Yes <==>
      (c.issue in t.locks ==> t.locks[c.issue].expiresAt <= t.now) && !BlockedOn(t, c.issue)
  {
    var u := RecoverEffect(t, c.issue).after;
    RecoverKeepsTables(t, c.issue);
    ClaimSucceedsExactly(u, c, ttl);
    if run :| ActiveFor(u, c.issue, run) && u.runs[run].status == Blocked {
      assert ActiveFor(t, c.issue, run);
    }
    if run :| ActiveFor(t, c.issue, run) && t.runs[run].status == Blocked {
      assert ActiveFor(u, c.issue, run);
    }
  }

  /** A blocked issue admits nobody until the operator releases it. */
  lemma BlockedIssueStaysClosed(t: Tables, ops: seq<Op>, c: Context, ttl: int)
    requires TablesOk(t) && BlockedOn(t, c.issue) && Release(c.issue) !in ops
    ensures BlockedOn(PlayFrom(t, ops), c.issue)
    ensures ClaimEffect(PlayFrom(t, ops), c, ttl).reply != Yes
  {
    var run :| ActiveFor(t, c.issue, run) && t.runs[run].status == Blocked;
    OutcomeIsWrittenOnce(t, ops, run);
    assert ActiveFor(PlayFrom(t, ops), c.issue, run);
  }

  /** The release itself reopens the issue. */
  lemma ReleaseReopens(t: Tables, c: Context, ttl: int)
    requires TablesOk(t) && TtlOk(ttl) && c.run !in t.runs && BlockedOn(t, c.issue)
    ensures ClaimEffect(ReleaseEffect(t, c.issue), c, ttl).reply == Yes
  {
    var run :| ActiveFor(t, c.issue, run) && t.runs[run].status == Blocked;
    var u := ReleaseEffect(t, c.issue);
    ReleaseKeepsTables(t, c.issue);
    ClaimSucceedsExactly(u, c, ttl);
    if c.issue in t.locks {
      assert ActiveFor(t, c.issue, t.locks[c.issue].run);
    }
    if other :| ActiveFor(u, c.issue, other) && u.runs[other].status == Blocked {
      assert ActiveFor(t, c.issue, other);
    }
  }
}
