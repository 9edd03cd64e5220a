/** Concurrent poller ticks against one board: `start` in `runtime/poller/poller_tick.py`.

    The board's `create_task` is assumed idempotent on its key among cards that are not archived; tasks
    are matched in the order of their ids. */
module Board {
  import opened Options
  import opened Admission
  import opened Cards
  import Selection

  datatype Card = Card(task: Task, key: Option<string>)

  function Tasks(cards: seq<Card>): seq<Task> { seq(|cards|, i requires 0 <= i < |cards| => cards[i].task) }

  const KEY_PREFIX := "runtime:linear:"

  function KeyFor(issue: string): string { KEY_PREFIX + issue }

  predicate LiveWithKey(card: Card, key: string) { !card.task.archived && card.key == Some(key) }

  predicate HasLive(cards: seq<Card>, key: string) { exists i :: 0 <= i < |cards| && LiveWithKey(cards[i], key) }

  /** Some live card with this key has this id. */
  predicate CarriesKey(cards: seq<Card>, key: string, id: string) {
    exists i :: 0 <= i < |cards| && LiveWithKey(cards[i], key) && cards[i].task.id == id
  }

  function NewCard(id: string, issue: string, agent: string): Card {
    Card(Task(id, TitleFor(issue), BodyFor(issue, agent), false), Some(KeyFor(issue)))
  }

  function Created(cards: seq<Card>, id: string, issue: string, agent: string): seq<Card> {
    if HasLive(cards, KeyFor(issue)) then cards else cards + [NewCard(id, issue, agent)]
  }

  /** The card `start` writes: a live one with the issue in its title and the issue's own key. */
  lemma NewCardTells(id: string, issue: string, agent: string)
    ensures var card := NewCard(id, issue, agent);
      card.task.id == id && !card.task.archived && card.task.title == "[runtime] " + issue &&
      card.key == Some("runtime:linear:" + issue)
  {
  }

  class KanbanBoard {
    var cards: seq<Card>

    /** The assumed contract of the installed `create_task`. */
    method CreateTask(id: string, issue: string, agent: string) returns (result: string)
      modifies this
      ensures cards == Created(old(cards), id, issue, agent)
      ensures CarriesKey(cards, KeyFor(issue), result)
    {
      for i := 0 to |cards|
        invariant cards == old(cards)
        invariant forall j :: 0 <= j < i ==> !LiveWithKey(cards[j], KeyFor(issue))
      {
        if LiveWithKey(cards[i], KeyFor(issue)) {
          return cards[i].task.id;
        }
      }
      cards := cards + [NewCard(id, issue, agent)];
      assert LiveWithKey(cards[|cards| - 1], KeyFor(issue));
      return id;
    }

    /** `start`: refuse, reuse the card that refers to the issue, or create one. */
    method Start(issue: string, agent: string, mode: string, risk: string, environment: string, freshId: string)
      returns (result: Option<string>)
      modifies this
      ensures result.None? <==>
        mode != "auto" || risk == "high" || risk == "critical" || environment == "production"
      ensures cards == if result.None? || FirstCard(Tasks(old(cards)), issue).Some?
        then old(cards) else Created(old(cards), freshId, issue, agent)
      ensures result.Some? ==>
        if FirstCard(Tasks(old(cards)), issue).Some? then LeastCard(Tasks(old(cards)), issue, result.value)
        else CarriesKey(cards, KeyFor(issue), result.value)
    {
      hide FirstCard, LeastCard, Names, AllTokenChars;
      if StartRefuses(mode, risk, environment) {
        return None;
      }
      var found := MatchExistingCards(Tasks(cards), {issue});
      if issue in found {
        return Some(found[issue]);
      }
      assert FirstCard(Tasks(cards), issue).None?;
      var id := CreateTask(freshId, issue, agent);
      return Some(id);
    }
  }

  /** Which of the issues read a live card refers to: the keys of the matcher's dictionary. */
  function Known(cards: seq<Card>, snapshots: seq<Selection.Snapshot>): set<string> {
    set id | id in Selection.IdentifierSet(snapshots) && FirstCard(Tasks(cards), id).Some?
  }

  /** What a tick dispatches: the first eligible issues without a live card, within the bound. */
  function TickDispatch(cards: seq<Card>, snapshots: seq<Selection.Snapshot>, bound: nat): seq<Selection.Snapshot> {
    Selection.Take(Selection.EligibleIn(snapshots, Known(cards, snapshots)), bound)
  }

  /** `guarded_read_issues`: scan the board for every issue read, then select within the bound. */
  method GuardedReadIssues(board: KanbanBoard, snapshots: seq<Selection.Snapshot>, bound: nat)
    returns (dispatched: seq<Selection.Snapshot>)
    requires bound >= 1
    ensures dispatched == TickDispatch(board.cards, snapshots, bound)
  {
    hide FirstCard, Selection.EligibleIn;
    var found := MatchExistingCards(Tasks(board.cards), Selection.IdentifierSet(snapshots));
    assert found.Keys == Known(board.cards, snapshots);
    var outcome := Selection.SelectWithGuard(snapshots, found.Keys, bound);
    return outcome.value.dispatched;
  }

  /** An issue read counts as known exactly when a live card refers to it. */
  lemma KnownIffReferred(cards: seq<Card>, snapshots: seq<Selection.Snapshot>, k: nat)
    requires k < |snapshots|
    ensures snapshots[k].identifier in Known(cards, snapshots) <==>
      exists j :: 0 <= j < |cards| && Refers(cards[j].task, snapshots[k].identifier)
    ensures var id := snapshots[k].identifier;
      id != "" && AllTokenChars(id) ==>
      (id in Known(cards, snapshots) <==> exists j :: (
         0 <= j < |cards| && !cards[j].task.archived &&
         (id in Tokens(cards[j].task.title) || id in Tokens(cards[j].task.body))))
  {
    hide Refers, FirstCard, Tokens, AllTokenChars;
    CardExists(cards, snapshots[k].identifier);
    if snapshots[k].identifier != "" && AllTokenChars(snapshots[k].identifier) {
      forall j | 0 <= j < |cards| { RefersExactly(cards[j].task, snapshots[k].identifier); }
    }
    assert snapshots[k].identifier in Selection.IdentifierSet(snapshots);
  }

  lemma CardExists(cards: seq<Card>, issue: string)
    ensures FirstCard(Tasks(cards), issue).Some? <==> exists j :: 0 <= j < |cards| && Refers(cards[j].task, issue)
  {
    hide Refers, FirstCard;
    FirstCardExists(Tasks(cards), issue);
    if i :| 0 <= i < |Tasks(cards)| && Refers(Tasks(cards)[i], issue) { assert Refers(cards[i].task, issue); }
    if j :| 0 <= j < |cards| && Refers(cards[j].task, issue) { assert Refers(Tasks(cards)[j], issue); }
  }

  // ---------------------------------------------------------------- interleaved ticks

  /** A tick looks at the board, and creates only later; zombies may create arbitrarily late. */
  datatype Step =
    | Look(worker: nat, issue: string, agent: string)
    | CreateNow(worker: nat, freshId: string)
    | Archive(index: nat)
    | AddForeign(task: Task)

  datatype State = State(cards: seq<Card>, pending: map<nat, (string, string)>)

  function Do(s: State, step: Step): State {
    match step
    case Look(worker, issue, agent) =>
      if FirstCard(Tasks(s.cards), issue).Some? then s.(pending := s.pending - {worker})
      else s.(pending := s.pending[worker := (issue, agent)])
    case CreateNow(worker, freshId) =>
      if worker in s.pending
      then State(Created(s.cards, freshId, s.pending[worker].0, s.pending[worker].1), s.pending - {worker}) else s
    case Archive(index) =>
      if index < |s.cards|
      then s.(cards := s.cards[index := s.cards[index].(task := s.cards[index].task.(archived := true))]) else s
    case AddForeign(task) => s.(cards := s.cards + [Card(task, None)])
  }

  function After(s: State, steps: seq<Step>): State {
    if steps == [] then s else Do(After(s, steps[..|steps| - 1]), steps[|steps| - 1])
  }

  predicate WithKey(card: Card, key: string) { card.key == Some(key) }

  /** No two live cards carry the same key. */
  ghost predicate KeysUnique(cards: seq<Card>) {
    forall i, j, key :: 0 <= i < j < |cards| && LiveWithKey(cards[i], key) ==> !LiveWithKey(cards[j], key)
  }

  lemma KeyNamesIssue(a: string, b: string)
    requires KeyFor(a) == KeyFor(b)
    ensures a == b
  {
    assert KeyFor(a)[|KEY_PREFIX|..] == a;
    assert KeyFor(b)[|KEY_PREFIX|..] == b;
  }

  lemma DoKeepsKeysUnique(s: State, step: Step)
    requires KeysUnique(s.cards)
    ensures KeysUnique(Do(s, step).cards)
  {
    hide FirstCard, Tasks, KeyFor, TitleFor, BodyFor;
    var u := Do(s, step).cards;
    forall i, j, key | 0 <= i < j < |u| && LiveWithKey(u[i], key)
      ensures !LiveWithKey(u[j], key)
    {
      assert i < |s.cards| && LiveWithKey(s.cards[i], key);
    }
  }

  /** Any interleaving of ticks, however late each creation runs, leaves at most one live card per
      issue. */
  lemma {:induction false} AtMostOneLiveCardPerIssue(steps: seq<Step>)
    ensures KeysUnique(After(State([], map[]), steps).cards)
  {
    if steps != [] {
      AtMostOneLiveCardPerIssue(steps[..|steps| - 1]);
      DoKeepsKeysUnique(After(State([], map[]), steps[..|steps| - 1]), steps[|steps| - 1]);
    }
  }

  ghost predicate NoArchive(steps: seq<Step>) { forall i :: 0 <= i < |steps| ==> !steps[i].Archive? }

  ghost predicate NobodyPending(s: State, issue: string) {
    forall worker :: worker in s.pending ==> s.pending[worker].0 != issue
  }

  /** Cards of one issue, and whether any tick still intends to create another. */
  ghost predicate Settled(s: State, issue: string) {
    FirstCard(Tasks(s.cards), issue).Some? && NobodyPending(s, issue)
  }

  function CardsOf(cards: seq<Card>, issue: string): nat {
    if cards == [] then 0 else
      CardsOf(cards[..|cards| - 1], issue) + if WithKey(cards[|cards| - 1], KeyFor(issue)) then 1 else 0
  }

  /** The step archives the live card of the issue. */
  predicate ArchivesCard(s: State, step: Step, issue: string) {
    step.Archive? && step.index < |s.cards| && LiveWithKey(s.cards[step.index], KeyFor(issue))
  }

  function Archivings(s: State, steps: seq<Step>, issue: string): nat {
    if steps == [] then 0 else
      Archivings(s, steps[..|steps| - 1], issue) +
      if ArchivesCard(After(s, steps[..|steps| - 1]), steps[|steps| - 1], issue) then 1 else 0
  }

  lemma {:induction false} CardsOfUpdated(cards: seq<Card>, index: nat, card: Card, issue: string)
    requires index < |cards| && card.key == cards[index].key
    ensures CardsOf(cards[index := card], issue) == CardsOf(cards, issue)
  {
    var n := |cards| - 1;
    if index < n {
      assert cards[index := card][..n] == cards[..n][index := card];
      CardsOfUpdated(cards[..n], index, card, issue);
    } else {
      assert cards[index := card][..n] == cards[..n];
    }
  }

  /** One card per issue that is live, and none that is. */
  function LiveCards(cards: seq<Card>, issue: string): nat { if HasLive(cards, KeyFor(issue)) then 1 else 0 }

  lemma AppendedCard(cards: seq<Card>, card: Card, issue: string)
    ensures CardsOf(cards + [card], issue) == CardsOf(cards, issue) + if WithKey(card, KeyFor(issue)) then 1 else 0
    ensures HasLive(cards + [card], KeyFor(issue)) <==>
      HasLive(cards, KeyFor(issue)) || LiveWithKey(card, KeyFor(issue))
  {
    hide KeyFor;
    var u := cards + [card];
    assert u[..|u| - 1] == cards && u[|cards|] == card;
    if i :| 0 <= i < |cards| && LiveWithKey(cards[i], KeyFor(issue)) { assert LiveWithKey(u[i], KeyFor(issue)); }
  }

  lemma CreationCounts(cards: seq<Card>, id: string, other: string, agent: string, issue: string)
    ensures var u := Created(cards, id, other, agent);
      CardsOf(u, issue) - LiveCards(u, issue) == CardsOf(cards, issue) - LiveCards(cards, issue)
  {
    hide CardsOf, KeyFor, TitleFor, BodyFor, HasLive;
    if !HasLive(cards, KeyFor(other)) {
      AppendedCard(cards, NewCard(id, other, agent), issue);
      if KeyFor(other) == KeyFor(issue) { KeyNamesIssue(other, issue); }
    }
  }

  lemma ArchivingCounts(cards: seq<Card>, index: nat, issue: string)
    requires index < |cards| && KeysUnique(cards)
    ensures var card := cards[index].(task := cards[index].task.(archived := true)); var u := cards[index := card];
      CardsOf(u, issue) == CardsOf(cards, issue) &&
      LiveCards(u, issue) == LiveCards(cards, issue) - if LiveWithKey(cards[index], KeyFor(issue)) then 1 else 0
  {
    hide CardsOf, KeyFor;
    var card, key := cards[index].(task := cards[index].task.(archived := true)), KeyFor(issue);
    var u := cards[index := card];
    CardsOfUpdated(cards, index, card, issue);
    if i :| 0 <= i < |u| && LiveWithKey(u[i], key) {
      assert i != index && LiveWithKey(cards[i], key);
    }
    if i :| 0 <= i < |cards| && LiveWithKey(cards[i], key) && !LiveWithKey(cards[index], key) {
      assert LiveWithKey(u[i], key);
    }
  }

  lemma StepCounts(s: State, step: Step, issue: string)
    requires KeysUnique(s.cards)
    ensures var u := Do(s, step).cards;
      CardsOf(u, issue) - LiveCards(u, issue) ==
      CardsOf(s.cards, issue) - LiveCards(s.cards, issue) + if ArchivesCard(s, step, issue) then 1 else 0
  {
    hide CardsOf, LiveCards, KeyFor, Created, FirstCard, KeysUnique;
    match step
    case Look(_, _, _) =>
    case CreateNow(worker, id) =>
      if worker in s.pending { CreationCounts(s.cards, id, s.pending[worker].0, s.pending[worker].1, issue); }
    case Archive(index) => if index < |s.cards| { ArchivingCounts(s.cards, index, issue); }
    case AddForeign(task) => ForeignCounts(s.cards, task, issue);
  }

  lemma ForeignCounts(cards: seq<Card>, task: Task, issue: string)
    ensures var u := cards + [Card(task, None)];
      CardsOf(u, issue) == CardsOf(cards, issue) && LiveCards(u, issue) == LiveCards(cards, issue)
  {
    hide CardsOf, HasLive;
    AppendedCard(cards, Card(task, None), issue);
  }

  /** Under any interleaving of ticks, zombies and archiving, the cards ever created for an issue are its
      archived ones and at most one more, so archiving is the only way to a second card. */
  lemma CardsAreArchivedOrLive(steps: seq<Step>, issue: string)
    ensures var s := State([], map[]); var cards := After(s, steps).cards;
      CardsOf(cards, issue) == Archivings(s, steps, issue) + LiveCards(cards, issue)
    ensures CardsOf(After(State([], map[]), steps).cards, issue) <= Archivings(State([], map[]), steps, issue) + 1
  {
    hide Do, KeysUnique, CardsOf, HasLive, After, Archivings;
    CardsAreCounted(steps, issue);
  }

  lemma {:induction false} CardsAreCounted(steps: seq<Step>, issue: string)
    ensures var s := State([], map[]); var cards := After(s, steps).cards;
      CardsOf(cards, issue) == Archivings(s, steps, issue) + LiveCards(cards, issue)
  {
    hide Do, LiveCards, KeysUnique;
    if steps == [] {
      NoCards(issue);
    } else {
      var before := steps[..|steps| - 1];
      CardsAreCounted(before, issue);
      AtMostOneLiveCardPerIssue(before);
      StepCounts(After(State([], map[]), before), steps[|steps| - 1], issue);
    }
  }

  lemma NoCards(issue: string)
    ensures CardsOf([], issue) == 0 && LiveCards([], issue) == 0
  {
  }

  /** As long as nobody archives, at most one card is ever created for an issue, whatever ticks and
      zombies race. */
  lemma AtMostOneCardEver(steps: seq<Step>, issue: string)
    requires NoArchive(steps)
    ensures var cards := After(State([], map[]), steps).cards;
      CardsOf(cards, issue) == if HasLive(cards, KeyFor(issue)) then 1 else 0
  {
    CardsAreCounted(steps, issue);
    NothingArchived(State([], map[]), steps, issue);
  }

  lemma {:induction false} NothingArchived(s: State, steps: seq<Step>, issue: string)
    requires NoArchive(steps)
    ensures Archivings(s, steps, issue) == 0
  {
    hide After;
    if steps != [] {
      NothingArchived(s, steps[..|steps| - 1], issue);
    }
  }

  lemma AppendKeepsFirst(cards: seq<Card>, card: Card, issue: string)
    requires FirstCard(Tasks(cards), issue).Some?
    ensures FirstCard(Tasks(cards + [card]), issue) == FirstCard(Tasks(cards), issue)
  {
    assert Tasks(cards + [card])[..|cards|] == Tasks(cards);
  }

  lemma SettledStep(s: State, step: Step, issue: string)
    requires Settled(s, issue) && !step.Archive?
    ensures Settled(Do(s, step), issue) && CardsOf(Do(s, step).cards, issue) == CardsOf(s.cards, issue)
  {
    hide FirstCard, Tasks, KeyFor, TitleFor, BodyFor;
    var u := Do(s, step);
    if |u.cards| > |s.cards| {
      var card := u.cards[|s.cards|];
      assert u.cards == s.cards + [card];
      AppendKeepsFirst(s.cards, card, issue);
      assert u.cards[..|u.cards| - 1] == s.cards;
      if step.CreateNow? {
        var other := s.pending[step.worker].0;
        if KeyFor(other) == KeyFor(issue) { KeyNamesIssue(other, issue); }
      }
    }
  }

  /** Once a card refers to an issue and no tick is about to create one, no tick ever creates another
      card for it, until somebody archives a card. */
  lemma {:induction false} SettledIssueGetsNoCard(s: State, steps: seq<Step>, issue: string)
    requires Settled(s, issue) && NoArchive(steps)
    ensures Settled(After(s, steps), issue) && CardsOf(After(s, steps).cards, issue) == CardsOf(s.cards, issue)
  {
    hide Settled, CardsOf, Do;
    if steps != [] {
      var before := steps[..|steps| - 1];
      SettledIssueGetsNoCard(s, before, issue);
      SettledStep(After(s, before), steps[|steps| - 1], issue);
    }
  }

  /** Creating a card settles its own issue and hides no other Linear issue from dispatch. */
  lemma CreationIsSeenOnlyByItsIssue(cards: seq<Card>, id: string, issue: string, agent: string, other: string)
    requires IssueId(issue) && IssueId(other) && agent in AGENTS.Values && !HasLive(cards, KeyFor(issue))
    requires FirstCard(Tasks(cards), other).None?
    ensures FirstCard(Tasks(Created(cards, id, issue, agent)), other) == if other == issue then Some(id) else None
  {
    hide Refers, IssueId, AGENTS, HasLive;
    var u := Created(cards, id, issue, agent);
    CardMatchesOnlyItsIssue(id, issue, agent, other);
    assert Tasks(u)[..|cards|] == Tasks(cards);
    assert Tasks(u)[|cards|] == NewCard(id, issue, agent).task;
  }

  // ---------------------------------------------------------------- repeated ticks on one board

  /** No keyed card hides its issue from the text search, as for every card `start` wrote. */
  ghost predicate KeysTell(cards: seq<Card>) {
    forall i, issue :: 0 <= i < |cards| && LiveWithKey(cards[i], KeyFor(issue)) ==> Refers(cards[i].task, issue)
  }

  /** A fixed list of distinct Linear issues. */
  ghost predicate IssueList(snapshots: seq<Selection.Snapshot>) {
    Selection.Distinct(snapshots) && forall i :: 0 <= i < |snapshots| ==> IssueId(snapshots[i].identifier)
  }

  function AgentFor(labels: set<string>): string {
    var c := Classify(labels, "Todo");
    if c.Classified? then c.agent else ""
  }

  /** The cards of dispatched issues on a board of `n` cards; the board names its k-th card `ids(k)`. */
  function NewCards(n: nat, dispatched: seq<Selection.Snapshot>, ids: nat -> string): seq<Card> {
    seq(|dispatched|, i requires 0 <= i < |dispatched| =>
      NewCard(ids(n + i), dispatched[i].identifier, AgentFor(dispatched[i].labels)))
  }

  function TickCards(cards: seq<Card>, snapshots: seq<Selection.Snapshot>, bound: nat, ids: nat -> string): seq<Card> {
    cards + NewCards(|cards|, TickDispatch(cards, snapshots, bound), ids)
  }

  lemma NoLiveKey(cards: seq<Card>, issue: string)
    requires KeysTell(cards) && FirstCard(Tasks(cards), issue).None?
    ensures !HasLive(cards, KeyFor(issue))
  {
    hide Refers, FirstCard, KeyFor;
    CardExists(cards, issue);
  }

  lemma NewCardKeepsTelling(cards: seq<Card>, id: string, issue: string, agent: string)
    requires KeysTell(cards) && IssueId(issue) && agent in AGENTS.Values
    ensures KeysTell(cards + [NewCard(id, issue, agent)])
  {
    hide Refers, IssueId, AGENTS, KeyFor, TitleFor, BodyFor;
    var u := cards + [NewCard(id, issue, agent)];
    forall i, other | 0 <= i < |u| && LiveWithKey(u[i], KeyFor(other))
      ensures Refers(u[i].task, other)
    {
      if i == |cards| {
        KeyNamesIssue(issue, other);
        CardMatchesOnlyItsIssue(id, issue, agent, other);
      }
    }
  }

  /** A new card is found for its own issue and changes nothing for the others. */
  lemma NewCardIsSeen(cards: seq<Card>, id: string, issue: string, agent: string, other: string)
    requires IssueId(issue) && IssueId(other) && agent in AGENTS.Values
    ensures FirstCard(Tasks(cards + [NewCard(id, issue, agent)]), other).Some? <==>
      FirstCard(Tasks(cards), other).Some? || other == issue
  {
    hide Refers, IssueId, AGENTS;
    var u := cards + [NewCard(id, issue, agent)];
    CardMatchesOnlyItsIssue(id, issue, agent, other);
    assert Tasks(u)[..|cards|] == Tasks(cards);
    assert Tasks(u)[|cards|] == NewCard(id, issue, agent).task;
  }

  lemma AdmittedAgent(labels: set<string>)
    requires GateBlockReason(labels) == None
    ensures var c := Classify(labels, "Todo");
      c.Classified? && c.agent in AGENTS.Values && AgentFor(labels) == c.agent &&
      !StartRefuses(c.mode, c.risk, c.environment)
  {
    hide Classify, GateBlockReason, AGENTS;
    StartNeverRefusesAdmitted(labels);
    ClassifiedWords(labels);
  }

  predicate Admitted(s: Selection.Snapshot) { GateBlockReason(s.labels) == None }

  lemma {:induction false} EligibleAreUnknown(snapshots: seq<Selection.Snapshot>, existing: set<string>)
    ensures forall i :: 0 <= i < |Selection.EligibleIn(snapshots, existing)| ==>
      var s := Selection.EligibleIn(snapshots, existing)[i]; s in snapshots && Admitted(s) && s.identifier !in existing
  {
    hide GateBlockReason;
    if snapshots != [] {
      EligibleAreUnknown(snapshots[..|snapshots| - 1], existing);
    }
  }

  /** What a tick dispatches is admitted, distinct, and has no card. */
  ghost predicate Dispatchable(cards: seq<Card>, dispatched: seq<Selection.Snapshot>) {
    Selection.Distinct(dispatched) &&
    forall i :: 0 <= i < |dispatched| ==>
      Admitted(dispatched[i]) && IssueId(dispatched[i].identifier) &&
        FirstCard(Tasks(cards), dispatched[i].identifier).None?
  }

  lemma TickIsDispatchable(cards: seq<Card>, snapshots: seq<Selection.Snapshot>, bound: nat)
    requires IssueList(snapshots)
    ensures Dispatchable(cards, TickDispatch(cards, snapshots, bound))
  {
    hide Admitted, IssueId, FirstCard, Selection.EligibleIn;
    var existing := Known(cards, snapshots);
    EligibleAreUnknown(snapshots, existing);
    Selection.EligibleAreAmong(snapshots, existing);
  }

  /** One tick: read under guard, then `start` for each dispatched issue in turn. Every one of them gets a
      card of its own. */
  method Tick(board: KanbanBoard, snapshots: seq<Selection.Snapshot>, bound: nat, ids: nat -> string)
    returns (dispatched: seq<Selection.Snapshot>)
    requires bound >= 1 && IssueList(snapshots) && KeysTell(board.cards)
    modifies board
    ensures dispatched == TickDispatch(old(board.cards), snapshots, bound)
    ensures board.cards == TickCards(old(board.cards), snapshots, bound, ids) && KeysTell(board.cards)
  {
    hide Admitted, IssueId, FirstCard, KeysTell, TickDispatch, AgentFor, Classify, NewCard, AGENTS;
    ghost var before := board.cards;
    dispatched := GuardedReadIssues(board, snapshots, bound);
    TickIsDispatchable(before, snapshots, bound);
    for i := 0 to |dispatched|
      invariant board.cards == before + NewCards(|before|, dispatched[..i], ids) && KeysTell(board.cards)
      invariant forall j :: i <= j < |dispatched| ==> FirstCard(Tasks(board.cards), dispatched[j].identifier).None?
    {
      var s := dispatched[i];
      var c := Classify(s.labels, "Todo");
      ghost var cards, id := board.cards, ids(|board.cards|);
      AdmittedAgent(s.labels) by { AdmittedOnly(s); }
      var result := board.Start(s.identifier, c.agent, c.mode, c.risk, c.environment, ids(|board.cards|));
      NoLiveKey(cards, s.identifier);
      assert board.cards == cards + [NewCard(id, s.identifier, c.agent)];
      NewCardKeepsTelling(cards, id, s.identifier, c.agent);
      assert NewCards(|before|, dispatched[..i + 1], ids) ==
        NewCards(|before|, dispatched[..i], ids) + [NewCard(id, s.identifier, c.agent)];
      forall j | i < j < |dispatched|
        ensures FirstCard(Tasks(board.cards), dispatched[j].identifier).None?
      {
        NewCardIsSeen(cards, id, s.identifier, c.agent, dispatched[j].identifier);
      }
    }
    assert dispatched[..|dispatched|] == dispatched;
  }

  lemma AdmittedOnly(s: Selection.Snapshot)
    ensures Admitted(s) ==> GateBlockReason(s.labels) == None
  {
  }

  /** The board after k ticks over the same list, with no other writer. */
  function AfterTicks(cards: seq<Card>, snapshots: seq<Selection.Snapshot>, bound: nat, ids: nat -> string, ticks: nat):
    seq<Card>
  {
    if ticks == 0 then cards else TickCards(AfterTicks(cards, snapshots, bound, ids, ticks - 1), snapshots, bound, ids)
  }

  /** Admitted Linear issues of the list. */
  ghost predicate AdmittedAmong(snapshots: seq<Selection.Snapshot>, given: seq<Selection.Snapshot>) {
    forall i :: 0 <= i < |given| ==>
      Admitted(given[i]) && IssueId(given[i].identifier) && given[i].identifier in Selection.IdentifierSet(snapshots)
  }

  /** New cards make exactly their own issues known. */
  lemma {:induction false} KnownAfterCards(cards: seq<Card>, snapshots: seq<Selection.Snapshot>,
                                           given: seq<Selection.Snapshot>, ids: nat -> string)
    requires IssueList(snapshots) && AdmittedAmong(snapshots, given)
    ensures Known(cards + NewCards(|cards|, given, ids), snapshots) ==
      Known(cards, snapshots) + Selection.IdentifierSet(given)
  {
    hide IssueId, FirstCard, AgentFor, Classify, NewCard, AGENTS, Admitted;
    if given == [] {
      assert cards + NewCards(|cards|, given, ids) == cards;
      assert Selection.IdentifierSet(given) == {};
    } else {
      var n := |given| - 1;
      var before, s := given[..n], given[n];
      KnownAfterCards(cards, snapshots, before, ids);
      var most := cards + NewCards(|cards|, before, ids);
      var card := NewCard(ids(|cards| + n), s.identifier, AgentFor(s.labels));
      assert cards + NewCards(|cards|, given, ids) == most + [card];
      AdmittedAgent(s.labels) by { AdmittedOnly(s); }
      KnownAfterCard(most, snapshots, ids(|cards| + n), s.identifier, AgentFor(s.labels));
      assert given == before + [s];
      Selection.IdentifiersOfSnoc(before, s);
    }
  }

  lemma KnownAfterCard(cards: seq<Card>, snapshots: seq<Selection.Snapshot>, id: string, issue: string, agent: string)
    requires IssueList(snapshots) && IssueId(issue) && agent in AGENTS.Values
    requires issue in Selection.IdentifierSet(snapshots)
    ensures Known(cards + [NewCard(id, issue, agent)], snapshots) == Known(cards, snapshots) + {issue}
  {
    hide IssueId, FirstCard, NewCard, AGENTS;
    forall other | other in Selection.IdentifierSet(snapshots)
      ensures FirstCard(Tasks(cards + [NewCard(id, issue, agent)]), other).Some? <==>
        FirstCard(Tasks(cards), other).Some? || other == issue
    {
      NewCardIsSeen(cards, id, issue, agent, other);
    }
  }

  lemma FirstOfList(snapshots: seq<Selection.Snapshot>, existing: set<string>, m: nat)
    requires IssueList(snapshots)
    ensures AdmittedAmong(snapshots, Selection.Take(Selection.EligibleIn(snapshots, existing), m))
  {
    hide Admitted, IssueId, Selection.EligibleIn;
    EligibleAreUnknown(snapshots, existing);
    Selection.EligibleAreAmong(snapshots, existing);
  }

  /** Over a fixed list of Linear issues, with no other writer, k ticks on the board create a card for
      exactly the first k times `bound` issues that were eligible without a card, one each, in order. */
  lemma {:induction false} TicksCreateInOrder(cards: seq<Card>, snapshots: seq<Selection.Snapshot>, bound: nat,
                                              ids: nat -> string, ticks: nat)
    requires IssueList(snapshots)
    ensures var given := Selection.Take(Selection.EligibleIn(snapshots, Known(cards, snapshots)), ticks * bound);
      AfterTicks(cards, snapshots, bound, ids, ticks) == cards + NewCards(|cards|, given, ids) &&
      given == Selection.Drain(snapshots, Known(cards, snapshots), bound, ticks)
  {
    hide IssueList, Known, NewCards, Selection.EligibleIn, Selection.Drain;
    var existing := Known(cards, snapshots);
    var eligible := Selection.EligibleIn(snapshots, existing);
    assert Selection.Distinct(snapshots) by { ListIsDistinct(snapshots); }
    Selection.DrainTakesInOrder(snapshots, existing, bound, ticks);
    if ticks == 0 {
      assert NewCards(|cards|, Selection.Take(eligible, 0), ids) == [] by { NoNewCards(|cards|, eligible, ids); }
    } else {
      TicksCreateInOrder(cards, snapshots, bound, ids, ticks - 1);
      var m := (ticks - 1) * bound;
      assert m >= 0 && m + bound == ticks * bound;
      var given := Selection.Take(eligible, m);
      var next := NextTick(cards, snapshots, bound, ids, m);
      NewCardsAppend(|cards|, given, next, ids);
    }
  }

  /** The tick after `m` of the eligible issues got their cards takes the next ones. */
  lemma NextTick(cards: seq<Card>, snapshots: seq<Selection.Snapshot>, bound: nat, ids: nat -> string, m: nat)
    returns (next: seq<Selection.Snapshot>)
    requires IssueList(snapshots)
    ensures var eligible := Selection.EligibleIn(snapshots, Known(cards, snapshots));
      var given := Selection.Take(eligible, m);
      next == TickDispatch(cards + NewCards(|cards|, given, ids), snapshots, bound) &&
      given + next == Selection.Take(eligible, m + bound)
  {
    hide IssueList, Known, NewCards, Selection.EligibleIn, AdmittedAmong;
    var existing := Known(cards, snapshots);
    var eligible := Selection.EligibleIn(snapshots, existing);
    var given := Selection.Take(eligible, m);
    assert Selection.Distinct(snapshots) by { ListIsDistinct(snapshots); }
    FirstOfList(snapshots, existing, m);
    KnownAfterCards(cards, snapshots, given, ids);
    assert given == eligible[..|given|];
    Selection.EligibleAfterDispatch(snapshots, existing, |given|);
    next := Selection.Take(eligible[|given|..], bound);
  }

  lemma ListIsDistinct(snapshots: seq<Selection.Snapshot>)
    ensures IssueList(snapshots) ==> Selection.Distinct(snapshots)
  {
  }

  lemma NoNewCards(n: nat, eligible: seq<Selection.Snapshot>, ids: nat -> string)
    ensures NewCards(n, Selection.Take(eligible, 0), ids) == []
  {
  }

  lemma NewCardsAppend(n: nat, a: seq<Selection.Snapshot>, b: seq<Selection.Snapshot>, ids: nat -> string)
    ensures |NewCards(n, a, ids)| == |a|
    ensures NewCards(n, a + b, ids) == NewCards(n, a, ids) + NewCards(n + |a|, b, ids)
  {
    hide AgentFor;
  }

  /** A live card written for the issue. */
  predicate WrittenFor(card: Card, issue: string) {
    card.task.title == "[runtime] " + issue && card.key == Some("runtime:linear:" + issue) && !card.task.archived
  }

  /** `after` is `before` and at most `most` new cards, the a-th of them for the issue at position `idx[a]`; fewer
      only when there are no further positions. */
  ghost predicate CreatedAt(before: seq<Card>, after: seq<Card>, most: int, snapshots: seq<Selection.Snapshot>,
                            idx: seq<nat>) {
    |after| == |before| + (if most <= |idx| then most else |idx|) && |before| <= |after| &&
    after[..|before|] == before &&
    forall a :: 0 <= a < |after| - |before| ==>
      idx[a] < |snapshots| && WrittenFor(after[|before| + a], snapshots[idx[a]].identifier)
  }

  /** The same, position by position: the a-th new card is a live one written for the a-th eligible issue of the
      list, counted in the order of the list, and there are no other new cards. */
  lemma TicksCreateByPosition(cards: seq<Card>, snapshots: seq<Selection.Snapshot>, bound: nat, ids: nat -> string,
                              ticks: nat)
    returns (idx: seq<nat>)
    requires IssueList(snapshots)
    ensures Selection.EligiblePositions(snapshots, Known(cards, snapshots), idx)
    ensures CreatedAt(cards, AfterTicks(cards, snapshots, bound, ids, ticks), ticks * bound, snapshots, idx)
  {
    hide IssueList, Known, Selection.EligibleIn, Selection.EligiblePositions, AfterTicks, AgentFor, NewCards;
    TicksCreateInOrder(cards, snapshots, bound, ids, ticks);
    idx := Selection.FirstByPosition(snapshots, Known(cards, snapshots), ticks * bound);
    var given := Selection.Take(Selection.EligibleIn(snapshots, Known(cards, snapshots)), ticks * bound);
    var after := AfterTicks(cards, snapshots, bound, ids, ticks);
    forall a | 0 <= a < |given|
      ensures |after| == |cards| + |given| && idx[a] < |snapshots| &&
        WrittenFor(after[|cards| + a], snapshots[idx[a]].identifier)
    {
      NewCardAt(|cards|, given, ids, a);
    }
    NewCardsAppend(|cards|, given, [], ids);
  }

  lemma NewCardAt(n: nat, given: seq<Selection.Snapshot>, ids: nat -> string, a: nat)
    requires a < |given|
    ensures |NewCards(n, given, ids)| == |given| && WrittenFor(NewCards(n, given, ids)[a], given[a].identifier)
  {
    hide AgentFor;
    NewCardTells(ids(n + a), given[a].identifier, AgentFor(given[a].labels));
  }
}
