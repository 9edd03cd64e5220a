/** Persisting the events of a dispatch: `_persist_events` and `_event_key` in
    `src/hermes_agent_runtime/runtime.py`. */
module EventPipeline {
  import opened Options
  import opened Payloads
  import opened Execution
  import opened Lease
  import opened LeaseStore

  /** Two events with the same key are the same observation. */
  datatype Key = TaskKey(kind: Kind, task: Value, status: Option<Value>, outcome: Option<Value>)
               | JsonKey(kind: Kind, payload: Payload)

  function Lookup(payload: Payload, name: Field): Option<Value> {
    if name in payload then Some(payload[name]) else None
  }

  function KeyOf(e: Entry): Key {
    if KanbanTaskId in e.payload
    then TaskKey(e.kind, e.payload[KanbanTaskId], Lookup(e.payload, TaskStatus), Lookup(e.payload, KanbanOutcome))
    else JsonKey(e.kind, e.payload)
  }

  predicate AllAccepted(policy: Policy, entries: seq<Entry>) {
    forall i :: 0 <= i < |entries| ==> Accepts(policy, entries[i].kind, entries[i].payload)
  }

  function Normalize(entries: seq<Entry>): seq<Entry> {
    seq(|entries|, i requires 0 <= i < |entries| => Entry(entries[i].kind, Normalized(entries[i].payload)))
  }

  ghost predicate FirstOfItsKey(entries: seq<Entry>, i: nat)
    requires i < |entries|
  {
    forall j :: 0 <= j < i ==> KeyOf(entries[j]) != KeyOf(entries[i])
  }

  /** Stable deduplication: an entry survives when no earlier one has its key. */
  ghost function Dedup(entries: seq<Entry>): seq<Entry> {
    if entries == [] then [] else
      Dedup(entries[..|entries| - 1]) +
      if FirstOfItsKey(entries, |entries| - 1) then [entries[|entries| - 1]] else []
  }

  function Row(c: Context, e: Entry): Event { Event(c.run, c.issue, c.agent, e.kind, e.payload) }

  function Rows(c: Context, entries: seq<Entry>): seq<Event> {
    seq(|entries|, i requires 0 <= i < |entries| => Row(c, entries[i]))
  }

  /** What `_persist_events` will post: nothing unless every event validates. */
  ghost function Plan(policy: Policy, entries: seq<Entry>): Option<seq<Entry>> {
    if AllAccepted(policy, entries) then Some(Dedup(Normalize(entries))) else None
  }

  /** The first loop of `_persist_events`: validate every event and keep the first of each key. */
  method ValidateAll(policy: Policy, entries: seq<Entry>) returns (plan: Option<seq<Entry>>)
    ensures plan == Plan(policy, entries)
  {
    hide Accepts, KeyOf, FirstOfItsKey;
    var seen: set<Key> := {};
    var normalized: seq<Entry> := [];
    ghost var all := Normalize(entries);
    for i := 0 to |entries|
      invariant forall j :: 0 <= j < i ==> Accepts(policy, entries[j].kind, entries[j].payload)
      invariant seen == set j | 0 <= j < i :: KeyOf(all[j])
      invariant normalized == Dedup(all[..i])
    {
      assert all[..i + 1] == all[..i] + [all[i]];
      var payload := ValidateEventPayload(policy, entries[i].kind, Mapping(entries[i].payload));
      if payload.None? {
        return None;
      }
      var entry := Entry(entries[i].kind, payload.value);
      assert entry == all[i];
      SurvivesIffNew(all, i, seen);
      assert all[..i + 1][..i] == all[..i];
      if KeyOf(entry) !in seen {
        seen := seen + {KeyOf(entry)};
        normalized := normalized + [entry];
      }
    }
    assert all[..|entries|] == all;
    return Some(normalized);
  }

  /** How many of `total` posts commit when the first `answered` are answered and the next one raises,
      committed or not. */
  function Sent(total: nat, answered: nat, commits: bool): (n: nat)
    ensures n <= total
  {
    if total <= answered then total else if commits then answered + 1 else answered
  }

  /** The second loop: one row per survivor, up to the post that raises, if any. */
  method PostAll(db: LeaseDatabase, c: Context, entries: seq<Entry>, answered: nat, commits: bool) returns (ok: bool)
    requires db.Valid()
    modifies db
    ensures db.Valid()
    ensures ok <==> |entries| <= answered
    ensures db.Contents() == old(db.Contents()).(log :=
      old(db.events) + Rows(c, entries[..Sent(|entries|, answered, commits)]))
  {
    hide Row;
    assert Rows(c, entries[..0]) == [];
    for i := 0 to |entries|
      invariant i <= answered
      invariant db.Valid()
      invariant db.Contents() == old(db.Contents()).(log := old(db.events) + Rows(c, entries[..i]))
    {
      assert Rows(c, entries[..i + 1]) == Rows(c, entries[..i]) + [Row(c, entries[i])];
      if i == answered {
        if commits {
          db.PostEvent(Row(c, entries[i]));
        }
        return false;
      }
      db.PostEvent(Row(c, entries[i]));
    }
    return true;
  }

  /** `_persist_events`: validate and deduplicate everything, then post one row per survivor. Nothing is
      posted unless every event validates; a post that raises leaves the rows before it, and its own if it
      committed. */
  method PersistEvents(db: LeaseDatabase, policy: Policy, c: Context, entries: seq<Entry>, answered: nat, commits: bool)
    returns (ok: bool)
    requires db.Valid()
    modifies db
    ensures db.Valid()
    ensures var plan := Plan(policy, entries);
      (ok <==> plan.Some? && |plan.value| <= answered) &&
      db.Contents() == old(db.Contents()).(log :=
        old(db.events) + if plan.Some? then Rows(c, plan.value[..Sent(|plan.value|, answered, commits)]) else [])
  {
    hide Plan, Rows;
    var plan := ValidateAll(policy, entries);
    if plan.None? {
      assert old(db.events) + [] == old(db.events);
      return false;
    }
    ok := PostAll(db, c, plan.value, answered, commits);
  }

  lemma SurvivesIffNew(all: seq<Entry>, i: nat, seen: set<Key>)
    requires i < |all| && seen == set j | 0 <= j < i :: KeyOf(all[j])
    ensures FirstOfItsKey(all[..i + 1], i) <==> KeyOf(all[i]) !in seen
  {
    if KeyOf(all[i]) in seen {
      var j :| 0 <= j < i && KeyOf(all[j]) == KeyOf(all[i]);
      assert all[..i + 1][j] == all[j];
    }
  }

  // ---------------------------------------------------------------- what deduplication keeps

  ghost predicate Increasing(idx: seq<nat>) { forall a, b :: 0 <= a < b < |idx| ==> idx[a] < idx[b] }

  /** `idx` lists, in order, exactly the positions that are first of their key. */
  ghost predicate FirstPositions(entries: seq<Entry>, idx: seq<nat>) {
    && Increasing(idx)
    && (forall a :: 0 <= a < |idx| ==> idx[a] < |entries|)
    && (forall i :: 0 <= i < |entries| ==> (i in idx <==> FirstOfItsKey(entries, i)))
  }

  lemma FirstInPrefix(entries: seq<Entry>, n: nat, i: nat)
    requires i < n <= |entries|
    ensures FirstOfItsKey(entries, i) <==> FirstOfItsKey(entries[..n], i)
  {
    assert forall j :: 0 <= j <= i ==> entries[..n][j] == entries[j];
  }

  /** The survivors are exactly the first occurrences, in their original order. */
  lemma {:induction false} DedupKeepsFirstOccurrences(entries: seq<Entry>) returns (idx: seq<nat>)
    ensures FirstPositions(entries, idx)
    ensures |Dedup(entries)| == |idx| && forall a :: 0 <= a < |idx| ==> Dedup(entries)[a] == entries[idx[a]]
  {
    hide FirstOfItsKey;
    idx := [];
    if entries != [] {
      var n := |entries| - 1;
      var before := DedupKeepsFirstOccurrences(entries[..n]);
      forall i | 0 <= i < n
        ensures i in before <==> FirstOfItsKey(entries, i)
      {
        FirstInPrefix(entries, n, i);
      }
      assert n !in before;
      idx := before;
      if FirstOfItsKey(entries, n) {
        idx := before + [n];
        assert Dedup(entries) == Dedup(entries[..n]) + [entries[n]];
      } else {
        assert Dedup(entries) == Dedup(entries[..n]);
      }
    }
  }

  predicate HasKey(entries: seq<Entry>, key: Key) { exists i :: 0 <= i < |entries| && KeyOf(entries[i]) == key }

  /** No observation is lost: the posted keys are the observed keys. */
  lemma {:induction false} DedupCoversKeys(entries: seq<Entry>, key: Key)
    ensures HasKey(Dedup(entries), key) <==> HasKey(entries, key)
  {
    if entries != [] {
      var n := |entries| - 1;
      DedupCoversKeys(entries[..n], key);
      var d := Dedup(entries[..n]);
      if HasKey(entries, key) && !HasKey(entries[..n], key) {
        assert KeyOf(entries[n]) == key;
        assert FirstOfItsKey(entries, n) by {
          forall j | 0 <= j < n ensures KeyOf(entries[j]) != KeyOf(entries[n]) { assert entries[..n][j] == entries[j]; }
        }
        assert Dedup(entries)[|d|] == entries[n];
      }
      if HasKey(d, key) {
        var i :| 0 <= i < |d| && KeyOf(d[i]) == key;
        assert Dedup(entries)[i] == d[i];
      }
      if HasKey(entries[..n], key) {
        var i :| 0 <= i < n && KeyOf(entries[..n][i]) == key;
        assert entries[i] == entries[..n][i];
      }
      if HasKey(Dedup(entries), key) && !HasKey(d, key) {
        var i :| 0 <= i < |Dedup(entries)| && KeyOf(Dedup(entries)[i]) == key;
        assert forall j :: 0 <= j < |d| ==> Dedup(entries)[j] == d[j];
        assert i == |d|;
        assert KeyOf(entries[n]) == key;
      }
    }
  }

  /** Deduplicating again changes nothing. */
  lemma {:induction false} DedupIsFixpoint(entries: seq<Entry>)
    ensures Dedup(Dedup(entries)) == Dedup(entries)
  {
    if entries != [] {
      var n := |entries| - 1;
      var d := Dedup(entries[..n]);
      DedupIsFixpoint(entries[..n]);
      if FirstOfItsKey(entries, n) {
        var full := d + [entries[n]];
        assert full[..|d|] == d && full == Dedup(entries);
        assert FirstOfItsKey(full, |d|) by {
          forall j | 0 <= j < |d|
            ensures KeyOf(full[j]) != KeyOf(full[|d|])
          {
            assert KeyOf(d[j]) == KeyOf(full[j]) && HasKey(d, KeyOf(d[j]));
            DedupCoversKeys(entries[..n], KeyOf(d[j]));
            var i :| 0 <= i < n && KeyOf(entries[..n][i]) == KeyOf(d[j]);
            assert entries[i] == entries[..n][i];
          }
        }
        assert Dedup(full) == Dedup(full[..|d|]) + [full[|d|]];
      } else {
        assert Dedup(entries) == d;
      }
    }
  }

  ghost predicate KeysDistinct(entries: seq<Entry>) {
    forall i, j :: 0 <= i < j < |entries| ==> KeyOf(entries[i]) != KeyOf(entries[j])
  }

  lemma DistinctAppends(entries: seq<Entry>, e: Entry)
    ensures KeysDistinct(entries + [e]) <==> KeysDistinct(entries) && !HasKey(entries, KeyOf(e))
  {
    var all := entries + [e];
    assert all[|entries|] == e && forall i :: 0 <= i < |entries| ==> all[i] == entries[i];
    if i :| 0 <= i < |entries| && KeyOf(entries[i]) == KeyOf(e) {
      assert KeyOf(all[i]) == KeyOf(all[|entries|]);
    }
  }

  lemma {:induction false} DedupIsShorter(entries: seq<Entry>)
    ensures |Dedup(entries)| <= |entries|
  {
    if entries != [] {
      DedupIsShorter(entries[..|entries| - 1]);
    }
  }

  /** Nothing is dropped exactly when every entry has a key of its own. */
  lemma {:induction false} DedupKeepsAllIff(entries: seq<Entry>)
    ensures Dedup(entries) == entries <==> KeysDistinct(entries)
  {
    hide KeyOf;
    if entries != [] {
      var n := |entries| - 1;
      var before, last := entries[..n], entries[n];
      assert entries == before + [last];
      DedupKeepsAllIff(before);
      DedupIsShorter(before);
      DistinctAppends(before, last);
      assert FirstOfItsKey(entries, n) <==> !HasKey(before, KeyOf(last));
    }
  }

  /** The first event, and a last event of a kind seen nowhere else, are always posted, at the ends. */
  lemma DedupKeepsEnds(entries: seq<Entry>)
    requires entries != []
    ensures Dedup(entries) != [] && Dedup(entries)[0] == entries[0]
    ensures (forall j :: 0 <= j < |entries| - 1 ==> entries[j].kind != entries[|entries| - 1].kind) ==>
      Dedup(entries)[|Dedup(entries)| - 1] == entries[|entries| - 1]
  {
    var idx := DedupKeepsFirstOccurrences(entries);
    assert 0 in idx;
    var a :| 0 <= a < |idx| && idx[a] == 0;
    assert idx[0] <= idx[a];
  }

  // ---------------------------------------------------------------- in terms of the observed events

  /** The value of a key, when it is there and not null. */
  function Given(payload: Payload, key: Field): Option<Value> {
    if key in payload && payload[key] != Null then Some(payload[key]) else None
  }

  /** Two observations of the same kind are one when they agree on the task, its status and its outcome; without
      a task, when they agree on every key. */
  ghost predicate SameObservation(a: Entry, b: Entry) {
    a.kind == b.kind &&
    if Given(a.payload, KanbanTaskId).Some? || Given(b.payload, KanbanTaskId).Some? then
      Given(a.payload, KanbanTaskId) == Given(b.payload, KanbanTaskId) &&
      Given(a.payload, TaskStatus) == Given(b.payload, TaskStatus) &&
      Given(a.payload, KanbanOutcome) == Given(b.payload, KanbanOutcome)
    else forall key :: Given(a.payload, key) == Given(b.payload, key)
  }

  lemma SameKeyIffSameObservation(a: Entry, b: Entry)
    ensures KeyOf(Entry(a.kind, Normalized(a.payload))) == KeyOf(Entry(b.kind, Normalized(b.payload))) <==>
      SameObservation(a, b)
  {
    var p, q := Normalized(a.payload), Normalized(b.payload);
    assert forall key :: Lookup(p, key) == Given(a.payload, key) && Lookup(q, key) == Given(b.payload, key);
    assert KanbanTaskId in p <==> Given(a.payload, KanbanTaskId).Some?;
    assert KanbanTaskId in q <==> Given(b.payload, KanbanTaskId).Some?;
    if KanbanTaskId !in p && KanbanTaskId !in q && forall key :: Given(a.payload, key) == Given(b.payload, key) {
      assert forall key :: key in p ==> Lookup(q, key) == Some(p[key]);
      assert forall key :: key in q ==> Lookup(p, key) == Some(q[key]);
      assert p == q;
    }
  }

  /** Nobody before position `i` observed the same. */
  ghost predicate Fresh(entries: seq<Entry>, i: nat)
    requires i < |entries|
  {
    forall j :: 0 <= j < i ==> !SameObservation(entries[j], entries[i])
  }

  /** The row tells exactly the non-null keys of the observed event, under the run's own identity. */
  ghost predicate RowTells(row: Event, c: Context, e: Entry) {
    row.run == c.run && row.issue == c.issue && row.agent == c.agent && row.kind == e.kind &&
    forall key :: Lookup(row.payload, key) == Given(e.payload, key)
  }

  lemma FreshIffFirst(entries: seq<Entry>, i: nat)
    requires i < |entries|
    ensures FirstOfItsKey(Normalize(entries), i) <==> Fresh(entries, i)
  {
    hide KeyOf, SameObservation;
    forall j | 0 <= j < i
      ensures KeyOf(Normalize(entries)[j]) == KeyOf(Normalize(entries)[i]) <==> SameObservation(entries[j], entries[i])
    {
      SameKeyIffSameObservation(entries[j], entries[i]);
    }
  }

  /** The rows posted of a list of events, position by position: one for each event that nobody before it
      observed, in order, with the non-null keys of that event. */
  lemma RowsByPosition(c: Context, entries: seq<Entry>) returns (idx: seq<nat>)
    ensures Increasing(idx) && forall i: nat :: i in idx <==> i < |entries| && Fresh(entries, i)
    ensures var rows := Rows(c, Dedup(Normalize(entries)));
      |rows| == |idx| && forall a :: 0 <= a < |idx| ==> idx[a] < |entries| && RowTells(rows[a], c, entries[idx[a]])
  {
    hide Fresh, FirstOfItsKey, Dedup, KeyOf;
    var all := Normalize(entries);
    idx := DedupKeepsFirstOccurrences(all);
    forall i: nat | i < |entries|
      ensures FirstOfItsKey(all, i) <==> Fresh(entries, i)
    {
      FreshIffFirst(entries, i);
    }
  }
}
