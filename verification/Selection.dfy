/** One poller tick: `select_with_guard` in `runtime/poller/poller_dispatch_guard.py`, and what
    repeated ticks over a fixed list achieve. */
module Selection {
  import opened Options
  import opened Admission

  datatype Snapshot = Snapshot(identifier: string, labels: set<string>)

  datatype SkipReason = ExistingCard | Policy(reason: GateReason) | Bound(max: int)

  datatype Skip = Skip(identifier: string, reason: SkipReason)

  datatype GuardOutcome = GuardOutcome(dispatched: seq<Snapshot>, skipped: seq<Skip>)

  predicate Eligible(s: Snapshot, existing: set<string>) {
    s.identifier !in existing && GateBlockReason(s.labels) == None
  }

  /** The eligible snapshots, in the order they were read. */
  function EligibleIn(snapshots: seq<Snapshot>, existing: set<string>): seq<Snapshot> {
    if snapshots == [] then [] else
      EligibleIn(snapshots[..|snapshots| - 1], existing) +
      if Eligible(snapshots[|snapshots| - 1], existing) then [snapshots[|snapshots| - 1]] else []
  }

  function RefusedIn(snapshots: seq<Snapshot>, existing: set<string>): seq<Skip> {
    if snapshots == [] then [] else
      var s := snapshots[|snapshots| - 1];
      RefusedIn(snapshots[..|snapshots| - 1], existing) +
      if s.identifier in existing then [Skip(s.identifier, ExistingCard)]
      else if GateBlockReason(s.labels).Some? then [Skip(s.identifier, Policy(GateBlockReason(s.labels).value))]
      else []
  }

  function Take(s: seq<Snapshot>, n: int): seq<Snapshot>
    requires n >= 0
  {
    if n <= |s| then s[..n] else s
  }

  function BoundSkips(s: seq<Snapshot>, max: int): seq<Skip> {
    seq(|s|, i requires 0 <= i < |s| => Skip(s[i].identifier, Bound(max)))
  }

  /** `idx` lists, in increasing order, exactly the positions of the issues that have no card and whose labels
      the guard admits. */
  ghost predicate EligiblePositions(snapshots: seq<Snapshot>, existing: set<string>, idx: seq<nat>) {
    && (forall a, b :: 0 <= a < b < |idx| ==> idx[a] < idx[b])
    && (forall a :: 0 <= a < |idx| ==> idx[a] < |snapshots|)
    && (forall i :: 0 <= i < |snapshots| ==>
          (i in idx <==> snapshots[i].identifier !in existing && GateBlockReason(snapshots[i].labels) == None))
  }

  /** The snapshots at the first positions, at most `max` of them. */
  ghost predicate TakesFirst(snapshots: seq<Snapshot>, idx: seq<nat>, max: int, dispatched: seq<Snapshot>) {
    && |dispatched| == (if max <= |idx| then max else |idx|)
    && forall a :: 0 <= a < |dispatched| ==> idx[a] < |snapshots| && dispatched[a] == snapshots[idx[a]]
  }

  /** Position by position, the eligible snapshots are those in the order they were read. */
  lemma {:induction false} EligibleByPosition(snapshots: seq<Snapshot>, existing: set<string>) returns (idx: seq<nat>)
    ensures EligiblePositions(snapshots, existing, idx)
    ensures |EligibleIn(snapshots, existing)| == |idx|
    ensures forall a :: 0 <= a < |idx| ==> EligibleIn(snapshots, existing)[a] == snapshots[idx[a]]
  {
    hide GateBlockReason, EligiblePositions;
    idx := [];
    if snapshots == [] {
      NoPositions(existing);
    } else {
      var n := |snapshots| - 1;
      var before := EligibleByPosition(snapshots[..n], existing);
      assert forall a :: 0 <= a < |before| ==> before[a] < n by { PositionsInRange(snapshots[..n], existing, before); }
      idx := if Eligible(snapshots[n], existing) then before + [n] else before;
      PositionsGrow(snapshots, existing, before);
    }
  }

  lemma NoPositions(existing: set<string>)
    ensures EligiblePositions([], existing, [])
  {
  }

  lemma PositionsInRange(snapshots: seq<Snapshot>, existing: set<string>, idx: seq<nat>)
    requires EligiblePositions(snapshots, existing, idx)
    ensures forall a :: 0 <= a < |idx| ==> idx[a] < |snapshots|
  {
  }

  lemma PositionsGrow(snapshots: seq<Snapshot>, existing: set<string>, before: seq<nat>)
    requires snapshots != [] && EligiblePositions(snapshots[..|snapshots| - 1], existing, before)
    ensures var n := |snapshots| - 1;
      EligiblePositions(snapshots, existing, if Eligible(snapshots[n], existing) then before + [n] else before)
  {
    hide GateBlockReason;
    var n := |snapshots| - 1;
    var idx := if Eligible(snapshots[n], existing) then before + [n] else before;
    assert n !in before;
    forall i | 0 <= i < |snapshots|
      ensures i in idx <==> snapshots[i].identifier !in existing && GateBlockReason(snapshots[i].labels) == None
    {
      if i < n {
        assert snapshots[..n][i] == snapshots[i];
        assert i in idx <==> i in before;
      }
    }
  }

  lemma FirstByPosition(snapshots: seq<Snapshot>, existing: set<string>, max: int) returns (idx: seq<nat>)
    requires max >= 0
    ensures EligiblePositions(snapshots, existing, idx)
    ensures TakesFirst(snapshots, idx, max, Take(EligibleIn(snapshots, existing), max))
  {
    hide EligibleIn, GateBlockReason;
    idx := EligibleByPosition(snapshots, existing);
  }

  /** Every dispatched issue stands before every eligible one that was left over. */
  lemma NobodyOvertakes(snapshots: seq<Snapshot>, existing: set<string>, max: int, idx: seq<nat>,
                        dispatched: seq<Snapshot>, i: nat, a: nat)
    requires EligiblePositions(snapshots, existing, idx) && TakesFirst(snapshots, idx, max, dispatched)
    requires a < |dispatched| && i < idx[a] && i < |snapshots|
    requires snapshots[i].identifier !in existing && GateBlockReason(snapshots[i].labels) == None
    ensures snapshots[i] in dispatched
  {
    hide GateBlockReason;
    assert i in idx;
    var b :| 0 <= b < |idx| && idx[b] == i;
    assert b < a;
    assert dispatched[b] == snapshots[i];
  }

  /** Why an issue was skipped, checked against the issue itself. */
  ghost predicate SkippedRightly(snapshots: seq<Snapshot>, existing: set<string>, max: int, skip: Skip) {
    exists i :: 0 <= i < |snapshots| && snapshots[i].identifier == skip.identifier &&
      match skip.reason
      case ExistingCard => skip.identifier in existing
      case Policy(reason) => skip.identifier !in existing && GateBlockReason(snapshots[i].labels) == Some(reason)
      case Bound(bound) =>
        bound == max && skip.identifier !in existing && GateBlockReason(snapshots[i].labels) == None
  }

  lemma {:induction false} RefusedRightly(snapshots: seq<Snapshot>, existing: set<string>, max: int)
    ensures forall k :: 0 <= k < |RefusedIn(snapshots, existing)| ==>
      SkippedRightly(snapshots, existing, max, RefusedIn(snapshots, existing)[k])
  {
    hide GateBlockReason, SkippedRightly;
    if snapshots != [] {
      var n := |snapshots| - 1;
      RefusedRightly(snapshots[..n], existing, max);
      var before, all := RefusedIn(snapshots[..n], existing), RefusedIn(snapshots, existing);
      forall k | 0 <= k < |all|
        ensures SkippedRightly(snapshots, existing, max, all[k])
      {
        if k < |before| {
          assert all[k] == before[k];
          SkippedInPrefix(snapshots, n, existing, max, all[k]);
        } else {
          LastSkippedRightly(snapshots, existing, max, all[k]);
        }
      }
    }
  }

  lemma SkippedInPrefix(snapshots: seq<Snapshot>, n: nat, existing: set<string>, max: int, skip: Skip)
    requires n <= |snapshots| && SkippedRightly(snapshots[..n], existing, max, skip)
    ensures SkippedRightly(snapshots, existing, max, skip)
  {
    hide GateBlockReason;
    assert forall i :: 0 <= i < n ==> snapshots[..n][i] == snapshots[i];
  }

  lemma LastSkippedRightly(snapshots: seq<Snapshot>, existing: set<string>, max: int, skip: Skip)
    requires snapshots != []
    requires var s := snapshots[|snapshots| - 1];
      (s.identifier in existing && skip == Skip(s.identifier, ExistingCard)) ||
      (s.identifier !in existing && GateBlockReason(s.labels).Some? &&
       skip == Skip(s.identifier, Policy(GateBlockReason(s.labels).value)))
    ensures SkippedRightly(snapshots, existing, max, skip)
  {
    hide GateBlockReason;
    assert snapshots[|snapshots| - 1].identifier == skip.identifier;
  }

  lemma BoundRightly(snapshots: seq<Snapshot>, existing: set<string>, max: int, m: nat)
    requires m <= |EligibleIn(snapshots, existing)|
    ensures forall k :: 0 <= k < |EligibleIn(snapshots, existing)[m..]| ==>
      SkippedRightly(snapshots, existing, max, BoundSkips(EligibleIn(snapshots, existing)[m..], max)[k])
  {
    hide EligibleIn, GateBlockReason;
    var idx := EligibleByPosition(snapshots, existing);
    var rest := EligibleIn(snapshots, existing)[m..];
    forall k | 0 <= k < |rest|
      ensures SkippedRightly(snapshots, existing, max, BoundSkips(rest, max)[k])
    {
      assert rest[k] == snapshots[idx[m + k]] && idx[m + k] in idx;
    }
  }

  lemma SkipsAreRight(snapshots: seq<Snapshot>, existing: set<string>, max: int)
    requires max >= 0
    ensures var eligible := EligibleIn(snapshots, existing);
      forall skip :: skip in RefusedIn(snapshots, existing) + BoundSkips(eligible[|Take(eligible, max)|..], max) ==>
        SkippedRightly(snapshots, existing, max, skip)
  {
    hide EligibleIn, RefusedIn, SkippedRightly, GateBlockReason;
    RefusedRightly(snapshots, existing, max);
    BoundRightly(snapshots, existing, max, |Take(EligibleIn(snapshots, existing), max)|);
  }

  /** The tick refuses a bound below 1; otherwise it dispatches the first `max` eligible snapshots, in the order
      they were read, and skips the others with their reason. */
  method SelectWithGuard(snapshots: seq<Snapshot>, existing: set<string>, max: int)
    returns (outcome: Option<GuardOutcome>)
    ensures outcome.Some? <==> max >= 1
    ensures outcome.Some? ==> outcome.value.dispatched == Take(EligibleIn(snapshots, existing), max)
    ensures outcome.Some? ==>
      (outcome.value.skipped == RefusedIn(snapshots, existing) +
        BoundSkips(EligibleIn(snapshots, existing)[|outcome.value.dispatched|..], max))
    ensures outcome.Some? ==> exists idx ::
      EligiblePositions(snapshots, existing, idx) && TakesFirst(snapshots, idx, max, outcome.value.dispatched)
    ensures outcome.Some? ==>
      forall skip :: skip in outcome.value.skipped ==> SkippedRightly(snapshots, existing, max, skip)
  {
    hide GateBlockReason, SkippedRightly, EligiblePositions, TakesFirst;
    if max < 1 {
      return None;
    }
    var dispatched: seq<Snapshot> := [];
    var skipped: seq<Skip> := [];
    for i := 0 to |snapshots|
      invariant dispatched == EligibleIn(snapshots[..i], existing)
      invariant skipped == RefusedIn(snapshots[..i], existing)
    {
      var s := snapshots[i];
      assert snapshots[..i + 1][..i] == snapshots[..i];
      if s.identifier in existing {
        skipped := skipped + [Skip(s.identifier, ExistingCard)];
        continue;
      }
      var reason := GateBlockReason(s.labels);
      if reason.Some? {
        skipped := skipped + [Skip(s.identifier, Policy(reason.value))];
        continue;
      }
      dispatched := dispatched + [s];
    }
    assert snapshots[..|snapshots|] == snapshots;
    var bounded := if max <= |dispatched| then dispatched[..max] else dispatched;
    ghost var refused := skipped;
    for i := |bounded| to |dispatched|
      invariant skipped == refused + BoundSkips(dispatched[|bounded|..i], max)
    {
      assert dispatched[|bounded|..i + 1] == dispatched[|bounded|..i] + [dispatched[i]];
      assert BoundSkips(dispatched[|bounded|..i + 1], max) ==
        BoundSkips(dispatched[|bounded|..i], max) + [Skip(dispatched[i].identifier, Bound(max))];
      skipped := skipped + [Skip(dispatched[i].identifier, Bound(max))];
    }
    assert dispatched[|bounded|..|dispatched|] == dispatched[|bounded|..];
    ghost var idx := FirstByPosition(snapshots, existing, max);
    SkipsAreRight(snapshots, existing, max);
    return Some(GuardOutcome(bounded, skipped));
  }

  // ---------------------------------------------------------------- nothing is lost in a tick

  function Identifiers(s: seq<Snapshot>): seq<string> { seq(|s|, i requires 0 <= i < |s| => s[i].identifier) }

  function SkippedIdentifiers(s: seq<Skip>): seq<string> { seq(|s|, i requires 0 <= i < |s| => s[i].identifier) }

  lemma IdentifiersAppend(s: seq<Snapshot>, x: Snapshot)
    ensures multiset(Identifiers(s + [x])) == multiset(Identifiers(s)) + multiset{x.identifier}
  {
    assert Identifiers(s + [x]) == Identifiers(s) + [x.identifier];
  }

  lemma SkipsAppend(s: seq<Skip>, x: Skip)
    ensures multiset(SkippedIdentifiers(s + [x])) == multiset(SkippedIdentifiers(s)) + multiset{x.identifier}
  {
    assert SkippedIdentifiers(s + [x]) == SkippedIdentifiers(s) + [x.identifier];
  }

  lemma {:induction false} EligibleOrRefused(snapshots: seq<Snapshot>, existing: set<string>)
    ensures multiset(Identifiers(EligibleIn(snapshots, existing))) +
      multiset(SkippedIdentifiers(RefusedIn(snapshots, existing))) == multiset(Identifiers(snapshots))
  {
    hide GateBlockReason, Identifiers, SkippedIdentifiers;
    if snapshots == [] {
      NothingRead();
    } else {
      var before, s := snapshots[..|snapshots| - 1], snapshots[|snapshots| - 1];
      EligibleOrRefused(before, existing);
      assert snapshots == before + [s];
      IdentifiersAppend(before, s);
      if Eligible(s, existing) {
        IdentifiersAppend(EligibleIn(before, existing), s);
        assert RefusedIn(snapshots, existing) == RefusedIn(before, existing);
      } else {
        var refused := RefusedIn(before, existing);
        SkipsAppend(refused, RefusedIn(snapshots, existing)[|refused|]);
        assert EligibleIn(snapshots, existing) == EligibleIn(before, existing);
      }
    }
  }

  lemma NothingRead()
    ensures Identifiers([]) == [] && SkippedIdentifiers([]) == []
  {
  }

  /** Every issue read is either dispatched or skipped with a reason, exactly once per reading. */
  lemma TickPartitionsItsInput(snapshots: seq<Snapshot>, existing: set<string>, max: int)
    requires max >= 1
    ensures var eligible := EligibleIn(snapshots, existing);
      var dispatched := Take(eligible, max);
      var skipped := RefusedIn(snapshots, existing) + BoundSkips(eligible[|dispatched|..], max);
      multiset(Identifiers(dispatched)) + multiset(SkippedIdentifiers(skipped)) == multiset(Identifiers(snapshots))
  {
    var eligible := EligibleIn(snapshots, existing);
    var dispatched := Take(eligible, max);
    var rest := eligible[|dispatched|..];
    var refused := RefusedIn(snapshots, existing);
    EligibleOrRefused(snapshots, existing);
    assert Identifiers(eligible) == Identifiers(dispatched) + Identifiers(rest);
    assert SkippedIdentifiers(refused + BoundSkips(rest, max)) == SkippedIdentifiers(refused) + Identifiers(rest);
  }

  // ---------------------------------------------------------------- repeated ticks

  function IdentifierSet(s: seq<Snapshot>): set<string> { set i | 0 <= i < |s| :: s[i].identifier }

  predicate Distinct(snapshots: seq<Snapshot>) {
    forall i, j :: 0 <= i < j < |snapshots| ==> snapshots[i].identifier != snapshots[j].identifier
  }

  /** What `ticks` ticks over the same list dispatch, when each dispatched issue gets a card. */
  function Drain(snapshots: seq<Snapshot>, existing: set<string>, max: nat, ticks: nat): seq<Snapshot>
    decreases ticks
  {
    if ticks == 0 then []
    else
      var first := Take(EligibleIn(snapshots, existing), max);
      first + Drain(snapshots, existing + IdentifierSet(first), max, ticks - 1)
  }

  lemma {:induction false} EligibleAreAmong(snapshots: seq<Snapshot>, existing: set<string>)
    ensures forall i :: 0 <= i < |EligibleIn(snapshots, existing)| ==>
      EligibleIn(snapshots, existing)[i].identifier in IdentifierSet(snapshots)
    ensures Distinct(snapshots) ==> Distinct(EligibleIn(snapshots, existing))
  {
    hide Eligible;
    if snapshots != [] {
      var n := |snapshots| - 1;
      EligibleAreAmong(snapshots[..n], existing);
      forall x | x in IdentifierSet(snapshots[..n])
        ensures x in IdentifierSet(snapshots)
      {
        var i :| 0 <= i < n && snapshots[..n][i].identifier == x;
        assert snapshots[i].identifier == x;
      }
      assert snapshots[n].identifier in IdentifierSet(snapshots);
    }
  }

  /** Adding identifiers that do not occur in the list changes nothing. */
  lemma {:induction false} EligibleIgnoresOthers(snapshots: seq<Snapshot>, existing: set<string>, more: set<string>)
    requires forall i :: 0 <= i < |snapshots| ==> snapshots[i].identifier !in more
    ensures EligibleIn(snapshots, existing + more) == EligibleIn(snapshots, existing)
  {
    hide GateBlockReason;
    if snapshots != [] {
      EligibleIgnoresOthers(snapshots[..|snapshots| - 1], existing, more);
    }
  }

  /** Giving cards to the first m eligible issues leaves exactly the others eligible, in order. */
  lemma {:induction false} EligibleAfterDispatch(snapshots: seq<Snapshot>, existing: set<string>, m: nat)
    requires Distinct(snapshots) && m <= |EligibleIn(snapshots, existing)|
    ensures EligibleIn(snapshots, existing + IdentifierSet(EligibleIn(snapshots, existing)[..m])) ==
      EligibleIn(snapshots, existing)[m..]
  {
    hide GateBlockReason;
    if snapshots != [] {
      var n := |snapshots| - 1;
      var before, s := snapshots[..n], snapshots[n];
      var e := EligibleIn(before, existing);
      EligibleAreAmong(before, existing);
      if m <= |e| {
        assert EligibleIn(snapshots, existing)[..m] == e[..m];
        EligibleAfterDispatch(before, existing, m);
        NotAmong(before, s, existing, m);
      } else {
        assert EligibleIn(snapshots, existing) == e + [s] && m == |e| + 1;
        var given := IdentifierSet((e + [s])[..m]);
        assert (e + [s])[..m] == e + [s] && (e + [s])[|e|] == s;
        assert e[..|e|] == e;
        EligibleAfterDispatch(before, existing, |e|);
        assert given == IdentifierSet(e) + {s.identifier} by { IdentifiersOfSnoc(e, s); }
        EligibleIgnoresOthers(before, existing + IdentifierSet(e), {s.identifier});
        assert existing + given == (existing + IdentifierSet(e)) + {s.identifier};
      }
    }
  }

  lemma IdentifiersOfSnoc(e: seq<Snapshot>, s: Snapshot)
    ensures IdentifierSet(e + [s]) == IdentifierSet(e) + {s.identifier}
  {
    assert (e + [s])[|e|] == s;
    forall x | x in IdentifierSet(e)
      ensures x in IdentifierSet(e + [s])
    {
      var i :| 0 <= i < |e| && e[i].identifier == x;
      assert (e + [s])[i].identifier == x;
    }
  }

  lemma NotAmong(before: seq<Snapshot>, s: Snapshot, existing: set<string>, m: nat)
    requires Distinct(before + [s]) && m <= |EligibleIn(before, existing)|
    ensures s.identifier !in IdentifierSet(EligibleIn(before, existing)[..m])
  {
    hide EligibleIn;
    EligibleAreAmong(before, existing);
    var e := EligibleIn(before, existing);
    forall j | 0 <= j < |before|
      ensures before[j].identifier != s.identifier
    {
      assert (before + [s])[j] == before[j] && (before + [s])[|before|] == s;
    }
    assert s.identifier !in IdentifierSet(before);
    assert forall i :: 0 <= i < m ==> e[..m][i] == e[i];
  }

  /** After k ticks exactly the first k * max eligible issues have been dispatched, in order. */
  lemma {:induction false} DrainTakesInOrder(snapshots: seq<Snapshot>, existing: set<string>, max: nat, ticks: nat)
    requires Distinct(snapshots)
    ensures Drain(snapshots, existing, max, ticks) == Take(EligibleIn(snapshots, existing), ticks * max)
    decreases ticks
  {
    hide EligibleIn;
    if ticks > 0 {
      var eligible := EligibleIn(snapshots, existing);
      var first := Take(eligible, max);
      EligibleAfterDispatch(snapshots, existing, |first|);
      assert eligible[..|first|] == first;
      DrainTakesInOrder(snapshots, existing + IdentifierSet(first), max, ticks - 1);
      assert ticks * max == max + (ticks - 1) * max;
      assert (ticks - 1) * max >= 0;
    }
  }

  /** With enough ticks every initially eligible issue is dispatched, and none twice. */
  lemma EveryEligibleIssueIsDispatchedOnce(snapshots: seq<Snapshot>, existing: set<string>, max: nat, ticks: nat)
    requires Distinct(snapshots) && ticks * max >= |EligibleIn(snapshots, existing)|
    ensures Drain(snapshots, existing, max, ticks) == EligibleIn(snapshots, existing)
    ensures Distinct(Drain(snapshots, existing, max, ticks))
  {
    DrainTakesInOrder(snapshots, existing, max, ticks);
    EligibleAreAmong(snapshots, existing);
  }
}
