/** When the payload contract accepts a whole adapter trace. */
module KanbanContract {
  import opened Options
  import opened Payloads
  import opened Execution
  import opened Kanban
  import opened EventPipeline
  import opened Lease

  predicate Clean(policy: Policy, s: string) { s != "" && !policy.sensitive(s) }

  predicate ContextOk(policy: Policy, c: Context) {
    RunIdText(c.run) && Clean(policy, c.run) && Clean(policy, c.issue) && Clean(policy, c.agent)
  }

  predicate SnapshotOk(policy: Policy, s: Snapshot) {
    TaskIdText(s.taskId) && Clean(policy, s.taskId) && Clean(policy, s.status) &&
    (s.assignee.Some? && s.assignee.value != "" ==> !policy.sensitive(s.assignee.value))
  }

  predicate OutcomeClean(policy: Policy, s: Snapshot) {
    OutcomeOf(s).Some? ==> !policy.sensitive(OutcomeOf(s).value)
  }

  /** The rule a text value must meet beyond being clean, for the fields the adapter writes. */
  predicate TextRule(policy: Policy, key: Field, s: string) {
    match key
    case RunIdField => RunIdText(s)
    case KanbanTaskId => TaskIdText(s)
    case CommitSha => CommitText(s)
    case PullRequestUrl => policy.httpsUrl(s)
    case TestsStatus => s in {"passed", "failed", "skipped"}
    case ReviewStatus => s in {"approved", "changes_requested", "blocked"}
    case _ => true
  }

  /** The rules on the result fields. */
  predicate FieldsOk(policy: Policy, fields: map<Field, string>) {
    forall name :: name in fields ==> Clean(policy, fields[name]) && TextRule(policy, name, fields[name])
  }

  /** `kanban.dispatched` and `kanban.timeout` have no room for the latest run's outcome. */
  predicate OutcomeAllowed(policy: Policy, kind: Kind, s: Snapshot) {
    if kind == KanbanDispatched || kind == KanbanTimeout then OutcomeOf(s).None? else OutcomeClean(policy, s)
  }

  lemma NothingNull(c: Context, s: Snapshot, extra: Payload)
    requires forall key :: key in extra ==> extra[key] != Null
    ensures Normalized(extra) == extra && Normalized(EventPayload(c, s, extra)) == EventPayload(c, s, extra)
  {
    assert forall key :: key in BasePayload(c, s) ==> BasePayload(c, s)[key] != Null;
  }

  predicate AdapterField(key: Field) {
    key in RESULT_FIELDS ||
    key in {RunIdField, LinearIssueId, AgentField, KanbanTaskId, TaskStatus, Assignee, KanbanOutcome}
  }

  lemma TextValueOk(policy: Policy, kind: Kind, key: Field, s: string)
    ensures AdapterField(key) ==>
      (ValueOk(policy, kind, key, Text(s)) <==> Clean(policy, s) && TextRule(policy, key, s))
  {
    hide RunIdText, TaskIdText, CommitText;
  }

  /** A payload of texts is accepted value by value exactly when every text is clean and meets its rule. */
  lemma TextValuesOk(policy: Policy, kind: Kind, p: Payload)
    requires forall key :: key in p ==> p[key].Text? && AdapterField(key)
    ensures (forall key :: key in p ==> ValueOk(policy, kind, key, p[key])) <==>
      (forall key :: key in p ==> TextOk(policy, key, p[key].s))
  {
    hide ValueOk, TextRule, AdapterField;
    forall key | key in p
      ensures ValueOk(policy, kind, key, p[key]) <==> TextOk(policy, key, p[key].s)
    {
      TextValueOk(policy, kind, key, p[key].s);
    }
  }

  predicate TextOk(policy: Policy, key: Field, s: string) { Clean(policy, s) && TextRule(policy, key, s) }

  lemma BaseTexts(c: Context, s: Snapshot)
    ensures var p := BasePayload(c, s);
      (forall key :: key in p ==> p[key].Text? && AdapterField(key)) &&
      p[RunIdField] == Text(c.run) && p[LinearIssueId] == Text(c.issue) && p[AgentField] == Text(c.agent) &&
      p[KanbanTaskId] == Text(s.taskId) && p[TaskStatus] == Text(s.status) &&
      (Assignee in p <==> s.assignee.Some? && s.assignee.value != "") &&
      (Assignee in p ==> p[Assignee] == Text(s.assignee.value)) &&
      (KanbanOutcome in p <==> OutcomeOf(s).Some?) &&
      (KanbanOutcome in p ==> p[KanbanOutcome] == Text(OutcomeOf(s).value))
  {
    hide OutcomeOf;
  }

  lemma BaseRules(policy: Policy, c: Context, s: Snapshot)
    ensures var p := BasePayload(c, s);
      (forall key :: key in p ==> p[key].Text? && TextOk(policy, key, p[key].s)) <==>
      ContextOk(policy, c) && SnapshotOk(policy, s) && OutcomeClean(policy, s)
  {
    hide RunIdText, TaskIdText, CommitText, OutcomeOf, BasePayload;
    BaseTexts(c, s);
    BaseKeys(c, s);
    OutcomeNotEmpty(s);
  }

  lemma BaseValues(policy: Policy, kind: Kind, c: Context, s: Snapshot)
    ensures (forall key :: key in BasePayload(c, s) ==> ValueOk(policy, kind, key, BasePayload(c, s)[key]))
      <==> ContextOk(policy, c) && SnapshotOk(policy, s) && OutcomeClean(policy, s)
  {
    hide ValueOk, TextOk, SnapshotOk, OutcomeClean, AdapterField, BasePayload, ContextOk;
    BaseTexts(c, s);
    TextValuesOk(policy, kind, BasePayload(c, s));
    BaseRules(policy, c, s);
  }

  lemma OutcomeNotEmpty(s: Snapshot)
    ensures OutcomeOf(s).Some? ==> OutcomeOf(s).value != ""
  {
  }

  predicate PlainKind(kind: Kind) {
    kind == KanbanDispatched || kind == KanbanStatusChanged || kind == KanbanBlocked || kind == KanbanTimeout
  }

  lemma PlainAccepted(policy: Policy, kind: Kind, c: Context, s: Snapshot)
    requires PlainKind(kind)
    ensures Accepts(policy, kind, Plain(c, kind, s).payload) <==>
      ContextOk(policy, c) && SnapshotOk(policy, s) && OutcomeAllowed(policy, kind, s)
  {
    hide ValueOk, SnapshotOk, ContextOk, OutcomeOf;
    NothingNull(c, s, map[]);
    assert EventPayload(c, s, map[]) == BasePayload(c, s);
    BaseValues(policy, kind, c, s);
    assert KanbanOutcome in BasePayload(c, s) <==> OutcomeOf(s).Some?;
  }

  lemma FailedAccepted(policy: Policy, c: Context, s: Snapshot)
    requires FailedOutcome(s)
    ensures var e := Entry(KanbanFailed, EventPayload(c, s, map[KanbanOutcome := Text(OutcomeOf(s).value)]));
      Accepts(policy, e.kind, e.payload) <==> ContextOk(policy, c) && SnapshotOk(policy, s) && OutcomeClean(policy, s)
  {
    hide ValueOk, SnapshotOk;
    var extra := map[KanbanOutcome := Text(OutcomeOf(s).value)];
    NothingNull(c, s, extra);
    assert EventPayload(c, s, extra) == BasePayload(c, s);
    BaseValues(policy, KanbanFailed, c, s);
  }

  lemma FieldValues(policy: Policy, kind: Kind, fields: map<Field, string>)
    requires fields.Keys <= RESULT_FIELDS
    ensures (forall key :: key in AsPayload(fields) ==> ValueOk(policy, kind, key, AsPayload(fields)[key]))
      <==> FieldsOk(policy, fields)
  {
    hide ValueOk, CommitText;
    var p := AsPayload(fields);
    assert p.Keys == fields.Keys && forall key :: key in p ==> p[key] == Text(fields[key]);
    forall key | key in p
      ensures ValueOk(policy, kind, key, p[key]) <==> Clean(policy, fields[key]) && TextRule(policy, key, fields[key])
    {
      TextValueOk(policy, kind, key, fields[key]);
    }
  }

  /** For a payload without nulls and with admissible keys, acceptance is acceptance of each value. */
  lemma AcceptedByValues(policy: Policy, kind: Kind, p: Payload)
    requires Normalized(p) == p && Required(kind) <= p.Keys <= Required(kind) + Optional(kind)
    requires !kind.OtherKind? && kind != AgentDispatched
    ensures Accepts(policy, kind, p) <==> forall key :: key in p ==> ValueOk(policy, kind, key, p[key])
  {
    hide ValueOk, Required, Optional;
    assert forall key :: key in p ==> key in Normalized(p) && p[key] != Null;
  }

  lemma CompletedAccepted(policy: Policy, c: Context, s: Snapshot, fields: map<Field, string>)
    requires fields.Keys <= RESULT_FIELDS
    ensures Accepts(policy, KanbanCompleted, EventPayload(c, s, AsPayload(fields))) <==>
      ContextOk(policy, c) && SnapshotOk(policy, s) && OutcomeClean(policy, s) && FieldsOk(policy, fields)
  {
    hide ValueOk, SnapshotOk, FieldsOk, OutcomeOf, ContextOk;
    var base, extra := BasePayload(c, s), AsPayload(fields);
    NothingNull(c, s, extra);
    BaseValues(policy, KanbanCompleted, c, s);
    FieldValues(policy, KanbanCompleted, fields);
    BaseKeys(c, s);
    var p := EventPayload(c, s, extra);
    assert p == base + extra && extra.Keys == fields.Keys;
    CompletedKeys(base, extra);
    hide BasePayload, AsPayload, EventPayload, Normalized, Required, Optional, Accepts;
    AcceptedByValues(policy, KanbanCompleted, p);
    if forall key :: key in p ==> ValueOk(policy, KanbanCompleted, key, p[key]) {
      assert forall key :: key in base ==> key in p && p[key] == base[key];
      assert forall key :: key in extra ==> key in p && p[key] == extra[key];
    }
  }

  lemma CompletedKeys(base: Payload, extra: Payload)
    requires {KanbanTaskId, TaskStatus} <= base.Keys && extra.Keys <= RESULT_FIELDS
    requires base.Keys <= {RunIdField, LinearIssueId, AgentField, KanbanTaskId, TaskStatus, Assignee, KanbanOutcome}
    ensures Required(KanbanCompleted) <= (base + extra).Keys <= Required(KanbanCompleted) + Optional(KanbanCompleted)
    ensures base.Keys !! extra.Keys
  {
  }

  lemma BaseKeys(c: Context, s: Snapshot)
    ensures {RunIdField, LinearIssueId, AgentField, KanbanTaskId, TaskStatus} <= BasePayload(c, s).Keys
    ensures BasePayload(c, s).Keys <=
      {RunIdField, LinearIssueId, AgentField, KanbanTaskId, TaskStatus, Assignee, KanbanOutcome}
  {
  }

  lemma MergedFieldsAreResultFields(s: Snapshot)
    ensures MergedFields(s).Keys <= RESULT_FIELDS
  {
  }

  predicate TimedOut(s: Snapshot) { !Terminal(s.status) && !FailedOutcome(s) }

  predicate ClosingOk(policy: Policy, s: Snapshot) {
    && SnapshotOk(policy, s)
    && (if TimedOut(s) then OutcomeOf(s).None? else OutcomeClean(policy, s))
    && (s.status == "done" ==> FieldsOk(policy, MergedFields(s)))
  }

  lemma ClosingAccepted(policy: Policy, c: Context, s: Snapshot)
    ensures Accepts(policy, ClosingEvent(c, s).kind, ClosingEvent(c, s).payload) <==>
      ContextOk(policy, c) && ClosingOk(policy, s)
  {
    hide ContextOk, Accepts, SnapshotOk, EventPayload, FieldsOk, MergedFields, OutcomeOf;
    MergedFieldsAreResultFields(s);
    if s.status == "done" {
      CompletedAccepted(policy, c, s, MergedFields(s));
    } else if s.status == "blocked" {
      PlainAccepted(policy, KanbanBlocked, c, s);
    } else if FailedOutcome(s) {
      FailedAccepted(policy, c, s);
    } else {
      PlainAccepted(policy, KanbanTimeout, c, s);
    }
  }

  ghost predicate ChangesOk(policy: Policy, polls: nat -> Read, n: nat)
    requires SeenUpTo(polls, n)
  {
    forall k: nat :: 0 < k <= n && Changed(polls, k) ==> ReportOk(policy, polls(k).snapshot)
  }

  lemma AcceptedAppends(policy: Policy, a: seq<Entry>, b: seq<Entry>)
    ensures AllAccepted(policy, a + b) <==> AllAccepted(policy, a) && AllAccepted(policy, b)
  {
    hide Accepts;
    if AllAccepted(policy, a + b) {
      assert forall i :: 0 <= i < |a| ==> a[i] == (a + b)[i];
      assert forall i :: 0 <= i < |b| ==> b[i] == (a + b)[|a| + i];
    }
  }

  lemma NoneToAccept(policy: Policy)
    ensures AllAccepted(policy, [])
  {
  }

  lemma AcceptedOne(policy: Policy, e: Entry)
    ensures AllAccepted(policy, [e]) <==> Accepts(policy, e.kind, e.payload)
  {
    hide Accepts;
    assert [e][0] == e;
  }

  predicate ReportOk(policy: Policy, s: Snapshot) { SnapshotOk(policy, s) && OutcomeClean(policy, s) }

  lemma {:induction false} ChangesAccepted(policy: Policy, c: Context, polls: nat -> Read, n: nat)
    requires ContextOk(policy, c) && SeenUpTo(polls, n)
    ensures AllAccepted(policy, Changes(c, polls, n)) <==> ChangesOk(policy, polls, n)
  {
    hide Accepts, ReportOk, ContextOk, OutcomeOf, AllAccepted, Plain;
    if n > 0 {
      ChangesAccepted(policy, c, polls, n - 1);
      var before, e := Changes(c, polls, n - 1), Plain(c, KanbanStatusChanged, polls(n).snapshot);
      if Changed(polls, n) {
        AcceptedAppends(policy, before, [e]);
        AcceptedOne(policy, e);
        ChangeAccepted(policy, c, polls(n).snapshot);
        assert Changes(c, polls, n) == before + [e];
      } else {
        assert Changes(c, polls, n) == before;
      }
    } else {
      assert AllAccepted(policy, []) by { NoneToAccept(policy); }
    }
  }

  lemma ChangeAccepted(policy: Policy, c: Context, s: Snapshot)
    requires ContextOk(policy, c)
    ensures var e := Plain(c, KanbanStatusChanged, s); Accepts(policy, e.kind, e.payload) <==> ReportOk(policy, s)
  {
    PlainAccepted(policy, KanbanStatusChanged, c, s);
  }

  /** The events of an adapter run all validate if and only if the context is well formed, its random run id
      included, the dispatched snapshot (and the one at the deadline) has no outcome, every reported
      snapshot is well formed, and the fields of a completed task meet the result rules. */
  lemma TraceAcceptedExactly(policy: Policy, c: Context, polls: nat -> Read, n: nat)
    requires SeenUpTo(polls, n)
    ensures AllAccepted(policy, EventsOf(Verdict(c, polls, n))) <==>
      ContextOk(policy, c) && SnapshotOk(policy, polls(0).snapshot) && OutcomeOf(polls(0).snapshot).None? &&
      ChangesOk(policy, polls, n) && ClosingOk(policy, polls(n).snapshot)
  {
    hide Accepts, SnapshotOk, ContextOk, OutcomeOf, ClosingOk, ChangesOk, ClosingEvent, Changes, FailedOutcome;
    var first, last := Plain(c, KanbanDispatched, polls(0).snapshot), ClosingEvent(c, polls(n).snapshot);
    PlainAccepted(policy, KanbanDispatched, c, polls(0).snapshot);
    if ContextOk(policy, c) { ChangesAccepted(policy, c, polls, n); }
    ClosingAccepted(policy, c, polls(n).snapshot);
    AcceptedAppends(policy, [first], Changes(c, polls, n));
    AcceptedAppends(policy, [first] + Changes(c, polls, n), [last]);
    AcceptedOne(policy, first);
    AcceptedOne(policy, last);
  }

  /** Every adapter event is a Kanban event, so no adapter run can forge lock or outcome rows. */
  predicate KanbanKind(kind: Kind) {
    kind == KanbanDispatched || kind == KanbanStatusChanged || kind == KanbanCompleted ||
    kind == KanbanBlocked || kind == KanbanFailed || kind == KanbanTimeout
  }

  predicate AllKanban(entries: seq<Entry>) { forall i :: 0 <= i < |entries| ==> KanbanKind(entries[i].kind) }

  lemma {:induction false} ChangesAreStatusChanges(c: Context, polls: nat -> Read, n: nat)
    requires SeenUpTo(polls, n)
    ensures forall i :: 0 <= i < |Changes(c, polls, n)| ==> Changes(c, polls, n)[i].kind == KanbanStatusChanged
  {
    if n > 0 {
      ChangesAreStatusChanges(c, polls, n - 1);
    }
  }

  /** The shape of the raw trace. */
  lemma TraceShape(c: Context, polls: nat -> Read, n: nat)
    requires SeenUpTo(polls, n)
    ensures var trace := EventsOf(Verdict(c, polls, n));
      AllKanban(trace) && |trace| >= 2 && trace[0] == Plain(c, KanbanDispatched, polls(0).snapshot) &&
      (forall i :: 0 < i < |trace| - 1 ==> trace[i].kind == KanbanStatusChanged) &&
      trace[|trace| - 1] == ClosingEvent(c, polls(n).snapshot) &&
      trace[|trace| - 1].kind != KanbanStatusChanged && trace[|trace| - 1].kind != KanbanDispatched
  {
    hide EventPayload, FailedOutcome;
    ChangesAreStatusChanges(c, polls, n);
  }

  predicate AllNormal(entries: seq<Entry>) {
    forall i :: 0 <= i < |entries| ==> Normalized(entries[i].payload) == entries[i].payload
  }

  lemma {:induction false} ChangesAreNormal(c: Context, polls: nat -> Read, n: nat)
    requires SeenUpTo(polls, n)
    ensures AllNormal(Changes(c, polls, n))
  {
    hide EventPayload, Normalized;
    if n > 0 {
      ChangesAreNormal(c, polls, n - 1);
      NothingNull(c, polls(n).snapshot, map[]);
    }
  }

  lemma TraceIsNormal(c: Context, polls: nat -> Read, n: nat)
    requires SeenUpTo(polls, n)
    ensures Normalize(EventsOf(Verdict(c, polls, n))) == EventsOf(Verdict(c, polls, n))
  {
    hide EventPayload, Normalized, ClosingEvent, FailedOutcome, Changes;
    ChangesAreNormal(c, polls, n);
    NothingNull(c, polls(0).snapshot, map[]);
    ClosingNotNull(c, polls(n).snapshot);
    assert AllNormal(TraceBefore(c, polls, n) + [ClosingEvent(c, polls(n).snapshot)]);
  }

  /** The adapter followed by `_persist_events`: either the trace is unacceptable and nothing is posted,
      or the posted trace is the stable deduplication of the raw one. It starts with the dispatch, ends
      with the closing event, is a fixpoint of deduplication and covers exactly the raw keys. */
  lemma AdapterTraceIsPosted(policy: Policy, c: Context, polls: nat -> Read, n: nat, key: Key)
    requires SeenUpTo(polls, n)
    ensures var trace := EventsOf(Verdict(c, polls, n)); var plan := Plan(policy, trace);
      && (plan.Some? <==> ContextOk(policy, c) &&
                          SnapshotOk(policy, polls(0).snapshot) && OutcomeOf(polls(0).snapshot).None? &&
                          ChangesOk(policy, polls, n) && ClosingOk(policy, polls(n).snapshot))
      && (plan.Some? ==>
            var posted := plan.value;
            posted == Dedup(trace) && Dedup(posted) == posted && |posted| >= 2 &&
            posted[0] == Plain(c, KanbanDispatched, polls(0).snapshot) &&
            posted[|posted| - 1] == ClosingEvent(c, polls(n).snapshot) &&
            (HasKey(posted, key) <==> HasKey(trace, key)))
  {
    hide ContextOk, AllAccepted, Dedup, Normalize, Verdict, SnapshotOk, OutcomeOf, ChangesOk, ClosingOk, ClosingEvent;
    hide HasKey;
    var trace := EventsOf(Verdict(c, polls, n));
    TraceAcceptedExactly(policy, c, polls, n);
    TraceIsNormal(c, polls, n);
    TraceShape(c, polls, n);
    DedupKeepsEnds(trace);
    DedupIsFixpoint(trace);
    DedupCoversKeys(trace, key);
  }

  lemma ClosingNotNull(c: Context, s: Snapshot)
    ensures Normalized(ClosingEvent(c, s).payload) == ClosingEvent(c, s).payload
  {
    hide EventPayload, MergedFields, OutcomeOf;
    NothingNull(c, s, AsPayload(MergedFields(s)));
    NothingNull(c, s, map[]);
    if FailedOutcome(s) {
      NothingNull(c, s, map[KanbanOutcome := Text(OutcomeOf(s).value)]);
    }
  }

  // ---------------------------------------------------------------- what deduplication drops of a trace

  /** Two snapshots that are one observation to the key of an event. */
  predicate SameObservation(s: Snapshot, u: Snapshot) {
    s.taskId == u.taskId && s.status == u.status && OutcomeOf(s) == OutcomeOf(u)
  }

  lemma SameChangeKey(c: Context, s: Snapshot, u: Snapshot)
    ensures KeyOf(Plain(c, KanbanStatusChanged, s)) == KeyOf(Plain(c, KanbanStatusChanged, u)) <==>
      SameObservation(s, u)
  {
    hide OutcomeOf, EventPayload;
    ChangeKey(c, s);
    ChangeKey(c, u);
  }

  lemma ChangeKey(c: Context, s: Snapshot)
    ensures KeyOf(Plain(c, KanbanStatusChanged, s)) ==
      TaskKey(KanbanStatusChanged, Text(s.taskId), Some(Text(s.status)),
              if OutcomeOf(s).Some? then Some(Text(OutcomeOf(s).value)) else None)
  {
    hide OutcomeOf, BasePayload;
    assert EventPayload(c, s, map[]) == BasePayload(c, s);
    BaseTexts(c, s);
    BaseKeys(c, s);
  }

  ghost predicate ChangesTo(c: Context, polls: nat -> Read, n: nat, k: nat, key: Key)
    requires SeenUpTo(polls, n)
  {
    0 < k <= n && Changed(polls, k) && KeyOf(Plain(c, KanbanStatusChanged, polls(k).snapshot)) == key
  }

  lemma {:induction false} ChangeKeysSeen(c: Context, polls: nat -> Read, n: nat, key: Key)
    requires SeenUpTo(polls, n)
    ensures HasKey(Changes(c, polls, n), key) <==> exists k: nat :: ChangesTo(c, polls, n, k, key)
  {
    hide KeyOf, Plain;
    if n > 0 {
      var m: nat := n - 1;
      ChangeKeysSeen(c, polls, m, key);
      var before, e := Changes(c, polls, m), Plain(c, KanbanStatusChanged, polls(n).snapshot);
      if k: nat :| ChangesTo(c, polls, m, k, key) { assert ChangesTo(c, polls, n, k, key); }
      if k: nat :| ChangesTo(c, polls, n, k, key) && k < n { assert ChangesTo(c, polls, m, k, key); }
      if Changed(polls, n) {
        assert Changes(c, polls, n) == before + [e];
        KeysOfSnoc(before, e, key);
        if KeyOf(e) == key { assert ChangesTo(c, polls, n, n, key); }
      } else {
        assert Changes(c, polls, n) == before;
      }
    }
  }

  lemma KeysOfSnoc(entries: seq<Entry>, e: Entry, key: Key)
    ensures HasKey(entries + [e], key) <==> HasKey(entries, key) || KeyOf(e) == key
  {
    hide KeyOf;
    var all := entries + [e];
    assert all[|entries|] == e && forall i :: 0 <= i < |entries| ==> all[i] == entries[i];
  }

  /** No reported change of status repeats an earlier one with the same outcome. */
  ghost predicate NeverRevisits(polls: nat -> Read, n: nat)
    requires SeenUpTo(polls, n)
  {
    forall i: nat, j: nat :: 0 < i < j <= n && Changed(polls, i) && Changed(polls, j) ==>
      !SameObservation(polls(i).snapshot, polls(j).snapshot)
  }

  lemma {:induction false} ChangesDistinct(c: Context, polls: nat -> Read, n: nat)
    requires SeenUpTo(polls, n)
    ensures KeysDistinct(Changes(c, polls, n)) <==> NeverRevisits(polls, n)
  {
    hide KeyOf, Plain, SameObservation, HasKey, KeysDistinct;
    if n == 0 {
      assert KeysDistinct([]) by { NoKeys(); }
    } else {
      ChangesDistinct(c, polls, n - 1);
      var before, e := Changes(c, polls, n - 1), Plain(c, KanbanStatusChanged, polls(n).snapshot);
      if Changed(polls, n) {
        assert Changes(c, polls, n) == before + [e];
        DistinctAppends(before, e);
        ChangeKeysSeen(c, polls, n - 1, KeyOf(e));
        forall k: nat | 0 < k < n
          ensures ChangesTo(c, polls, n - 1, k, KeyOf(e)) <==>
            Changed(polls, k) && SameObservation(polls(k).snapshot, polls(n).snapshot)
        {
          SameChangeKey(c, polls(k).snapshot, polls(n).snapshot);
        }
      } else {
        assert Changes(c, polls, n) == before;
      }
    }
  }

  lemma NoKeys()
    ensures KeysDistinct([])
  {
  }

  /** An adapter run reports its whole raw trace exactly when no status is left and revisited with the same
      outcome: the dispatch and the closing event are never dropped. */
  lemma WholeTraceIsKeptExactly(c: Context, polls: nat -> Read, n: nat)
    requires SeenUpTo(polls, n)
    ensures var trace := EventsOf(Verdict(c, polls, n)); Dedup(trace) == trace <==> NeverRevisits(polls, n)
  {
    hide KeyOf, Verdict, ClosingEvent, NeverRevisits, Plain, Dedup, Changes;
    var trace := EventsOf(Verdict(c, polls, n));
    var first, last := Plain(c, KanbanDispatched, polls(0).snapshot), ClosingEvent(c, polls(n).snapshot);
    assert trace == [first] + Changes(c, polls, n) + [last] by { TraceParts(c, polls, n); }
    DedupKeepsAllIff(trace);
    ChangesDistinct(c, polls, n);
    ChangesAreStatusChanges(c, polls, n);
    EndsHaveOwnKeys(first, Changes(c, polls, n), last) by {
      TraceShape(c, polls, n);
      PlainIsOfKind(c, polls(0).snapshot);
    }
  }

  lemma PlainIsOfKind(c: Context, s: Snapshot)
    ensures Plain(c, KanbanDispatched, s).kind == KanbanDispatched
  {
  }

  lemma TraceParts(c: Context, polls: nat -> Read, n: nat)
    requires SeenUpTo(polls, n)
    ensures EventsOf(Verdict(c, polls, n)) ==
      [Plain(c, KanbanDispatched, polls(0).snapshot)] + Changes(c, polls, n) + [ClosingEvent(c, polls(n).snapshot)]
  {
    hide ClosingEvent, Plain, FailedOutcome;
  }

  lemma KeyHasKind(e: Entry)
    ensures KeyOf(e).kind == e.kind
  {
  }

  lemma EndsHaveOwnKeys(first: Entry, middle: seq<Entry>, last: Entry)
    requires first.kind == KanbanDispatched && last.kind != KanbanDispatched && last.kind != KanbanStatusChanged
    requires forall i :: 0 <= i < |middle| ==> middle[i].kind == KanbanStatusChanged
    ensures KeysDistinct([first] + middle + [last]) <==> KeysDistinct(middle)
  {
    hide KeyOf;
    var all := [first] + middle + [last];
    forall e { KeyHasKind(e); }
    assert forall i :: 0 <= i < |middle| ==> all[i + 1] == middle[i];
    assert all[0] == first && all[|middle| + 1] == last;
    if KeysDistinct(middle) {
      forall i, j | 0 <= i < j < |all|
        ensures KeyOf(all[i]) != KeyOf(all[j])
      {
        if 0 < i && j <= |middle| { assert all[i] == middle[i - 1] && all[j] == middle[j - 1]; }
      }
    }
    if KeysDistinct(all) {
      forall i, j | 0 <= i < j < |middle|
        ensures KeyOf(middle[i]) != KeyOf(middle[j])
      {
        assert all[i + 1] == middle[i] && all[j + 1] == middle[j];
      }
    }
  }

  // ---------------------------------------------------------------- the trace read by read

  /** `idx` lists, in increasing order, exactly the reads up to `n` whose status differs from the read before. */
  ghost predicate ChangePositions(polls: nat -> Read, n: nat, idx: seq<nat>)
    requires SeenUpTo(polls, n)
  {
    && (forall a, b :: 0 <= a < b < |idx| ==> idx[a] < idx[b])
    && (forall a :: 0 <= a < |idx| ==> 0 < idx[a] <= n)
    && (forall k: nat :: 0 < k <= n ==>
          (k in idx <==> polls(k).snapshot.status != polls(k - 1).snapshot.status))
  }

  /** What an event tells of the snapshot it was taken from. */
  predicate Describes(c: Context, s: Snapshot, payload: Payload) {
    && RunIdField in payload && payload[RunIdField] == Text(c.run)
    && LinearIssueId in payload && payload[LinearIssueId] == Text(c.issue)
    && AgentField in payload && payload[AgentField] == Text(c.agent)
    && KanbanTaskId in payload && payload[KanbanTaskId] == Text(s.taskId)
    && TaskStatus in payload && payload[TaskStatus] == Text(s.status)
    && (Assignee in payload <==> s.assignee.Some? && s.assignee.value != "")
    && (Assignee in payload ==> payload[Assignee] == Text(s.assignee.value))
    && (KanbanOutcome in payload <==>
          s.latestRun.Some? && s.latestRun.value.outcome.Some? && s.latestRun.value.outcome.value != "")
    && (KanbanOutcome in payload ==> payload[KanbanOutcome] == Text(s.latestRun.value.outcome.value))
  }

  lemma PlainDescribes(c: Context, s: Snapshot)
    ensures Describes(c, s, EventPayload(c, s, map[]))
    ensures EventPayload(c, s, map[]).Keys <=
      {RunIdField, LinearIssueId, AgentField, KanbanTaskId, TaskStatus, Assignee, KanbanOutcome}
  {
    hide BasePayload;
    assert EventPayload(c, s, map[]) == BasePayload(c, s);
    BaseTexts(c, s);
    BaseKeys(c, s);
  }

  lemma ExtraDescribes(c: Context, s: Snapshot, fields: map<Field, string>)
    requires fields.Keys <= RESULT_FIELDS
    ensures var payload := EventPayload(c, s, AsPayload(fields));
      Describes(c, s, payload) &&
      forall name :: name in RESULT_FIELDS ==>
        (name in payload <==> name in fields) && (name in payload ==> payload[name] == Text(fields[name]))
  {
    hide BasePayload, Normalized;
    var extra := AsPayload(fields);
    NothingNull(c, s, extra);
    BaseTexts(c, s);
    BaseKeys(c, s);
    assert EventPayload(c, s, extra) == BasePayload(c, s) + extra;
    assert forall name :: name in RESULT_FIELDS ==> name !in BasePayload(c, s);
  }

  /** The closing event describes the last snapshot; that of a done task also carries the merged fields. */
  lemma ClosingDescribes(c: Context, s: Snapshot)
    ensures var payload := ClosingEvent(c, s).payload;
      Describes(c, s, payload) &&
      (forall name :: name in RESULT_FIELDS ==>
         (name in payload <==> s.status == "done" && name in MergedFields(s)) &&
         (name in payload ==> payload[name] == Text(MergedFields(s)[name])))
  {
    hide MergedFields, BasePayload, FailedOutcome, Describes, EventPayload;
    if s.status == "done" {
      MergedFieldsAreResultFields(s);
      ExtraDescribes(c, s, MergedFields(s));
    } else {
      PlainDescribes(c, s);
      RepeatedOutcome(c, s);
    }
  }

  /** `kanban.failed` repeats the outcome its payload has anyway. */
  lemma RepeatedOutcome(c: Context, s: Snapshot)
    ensures FailedOutcome(s) ==>
      EventPayload(c, s, map[KanbanOutcome := Text(OutcomeOf(s).value)]) == EventPayload(c, s, map[])
  {
    hide OutcomeOf;
    if FailedOutcome(s) {
      var extra := map[KanbanOutcome := Text(OutcomeOf(s).value)];
      FailedHasOutcome(s);
      BaseTexts(c, s);
      assert Normalized(extra) == extra;
      assert EventPayload(c, s, extra) == BasePayload(c, s);
      assert EventPayload(c, s, map[]) == BasePayload(c, s);
    }
  }

  lemma FailedHasOutcome(s: Snapshot)
    ensures FailedOutcome(s) ==> OutcomeOf(s).Some?
  {
  }

  lemma PositionsExtend(polls: nat -> Read, n: nat, before: seq<nat>)
    requires n > 0 && SeenUpTo(polls, n) && ChangePositions(polls, n - 1, before)
    ensures ChangePositions(polls, n, if Changed(polls, n) then before + [n] else before)
  {
    assert n !in before;
    var idx := if Changed(polls, n) then before + [n] else before;
    forall k: nat | 0 < k <= n
      ensures k in idx <==> polls(k).snapshot.status != polls(k - 1).snapshot.status
    {
      if k < n { assert k in idx <==> k in before; }
    }
  }

  lemma {:induction false} ChangesByPosition(c: Context, polls: nat -> Read, n: nat) returns (idx: seq<nat>)
    requires SeenUpTo(polls, n)
    ensures ChangePositions(polls, n, idx) && |Changes(c, polls, n)| == |idx|
    ensures forall a :: 0 <= a < |idx| ==>
      idx[a] <= n && Changes(c, polls, n)[a] == Plain(c, KanbanStatusChanged, polls(idx[a]).snapshot)
  {
    hide Plain, ChangePositions;
    idx := [];
    if n == 0 {
      NoPositions(polls);
    } else {
      idx := ChangesByPosition(c, polls, n - 1);
      PositionsExtend(polls, n, idx);
      if Changed(polls, n) {
        assert Changes(c, polls, n) == Changes(c, polls, n - 1) + [Plain(c, KanbanStatusChanged, polls(n).snapshot)];
        idx := idx + [n];
      }
    }
  }

  lemma NoPositions(polls: nat -> Read)
    requires SeenUpTo(polls, 0)
    ensures ChangePositions(polls, 0, [])
  {
  }

  /** The raw trace, read by read: the dispatch describes the first snapshot, then one event describes each
      snapshot whose status differs from the one before, in order, and the last event the last snapshot. */
  lemma TraceByPosition(c: Context, polls: nat -> Read, n: nat) returns (idx: seq<nat>)
    requires SeenUpTo(polls, n)
    ensures ChangePositions(polls, n, idx)
    ensures var trace := EventsOf(Verdict(c, polls, n));
      |trace| == |idx| + 2 &&
      trace[0].kind == KanbanDispatched && Describes(c, polls(0).snapshot, trace[0].payload) &&
      Describes(c, polls(n).snapshot, trace[|idx| + 1].payload) &&
      forall a :: 0 <= a < |idx| ==>
        trace[a + 1].kind == KanbanStatusChanged && Describes(c, polls(idx[a]).snapshot, trace[a + 1].payload)
  {
    hide Changes, Describes, EventPayload, ClosingEvent, Verdict, ChangePositions;
    idx := ChangesByPosition(c, polls, n);
    TraceParts(c, polls, n);
    PlainDescribes(c, polls(0).snapshot);
    ClosingDescribes(c, polls(n).snapshot);
    forall a | 0 <= a < |idx| { PlainDescribes(c, polls(idx[a]).snapshot); }
  }
}
