/** Finding and creating board cards: `match_existing_cards` in
    `runtime/poller/poller_dispatch_guard.py` and `start` in `runtime/poller/poller_tick.py`. */
module Cards {
  import opened Options
  import opened Payloads
  import opened Admission
  import opened TextOrder

  // ---------------------------------------------------------------- the delimited text search

  predicate TokenChar(c: char) { Digit(c) || Letter(c) || c == '-' }

  predicate AllTokenChars(s: string) { forall i :: 0 <= i < |s| ==> TokenChar(s[i]) }

  /** One match of the pattern `(?<![0-9A-Za-z-])id(?![0-9A-Za-z-])` at position p. */
  predicate MatchesAt(text: string, id: string, p: nat) {
    p + |id| <= |text| && text[p..p + |id|] == id &&
    (p > 0 ==> !TokenChar(text[p - 1])) && (p + |id| < |text| ==> !TokenChar(text[p + |id|]))
  }

  predicate Mentions(text: string, id: string) { exists p: nat :: p <= |text| && MatchesAt(text, id, p) }

  function RunLength(text: string): (n: nat)
    ensures n <= |text| && AllTokenChars(text[..n]) && (n < |text| ==> !TokenChar(text[n]))
  {
    if text == "" || !TokenChar(text[0]) then 0 else 1 + RunLength(text[1..])
  }

  /** The maximal runs of token characters of a text, from left to right. */
  function Tokens(text: string): seq<string>
    decreases |text|
  {
    if text == "" then []
    else if !TokenChar(text[0]) then Tokens(text[1..])
    else [text[..RunLength(text)]] + Tokens(text[RunLength(text)..])
  }

  lemma ShiftMention(text: string, id: string, n: nat)
    requires id != "" && AllTokenChars(id) && n <= |text|
    requires n > 0 ==> !TokenChar(text[n - 1]) || (n < |text| ==> !TokenChar(text[n]))
    ensures Mentions(text[n..], id) <==> exists p: nat :: n <= p <= |text| && MatchesAt(text, id, p)
  {
    if q: nat :| q <= |text[n..]| && MatchesAt(text[n..], id, q) {
      assert text[n..][q..q + |id|] == text[n + q..n + q + |id|];
      if q == 0 { assert text[n..][0] == id[0]; }
      assert MatchesAt(text, id, n + q);
    }
    if p: nat :| n <= p <= |text| && MatchesAt(text, id, p) {
      assert text[n..][p - n..p - n + |id|] == text[p..p + |id|];
      assert MatchesAt(text[n..], id, p - n);
    }
  }

  /** For identifiers made of token characters the search succeeds exactly when the identifier is one
      of the maximal tokens of the text. */
  lemma {:induction false} MentionIsToken(text: string, id: string)
    requires id != "" && AllTokenChars(id)
    ensures Mentions(text, id) <==> id in Tokens(text)
    decreases |text|
  {
    if text == "" {
    } else if !TokenChar(text[0]) {
      MentionIsToken(text[1..], id);
      ShiftMention(text, id, 1);
      if p: nat :| p <= |text| && MatchesAt(text, id, p) {
        assert p >= 1;
      }
    } else {
      var n := RunLength(text);
      assert n > 0;
      MentionIsToken(text[n..], id);
      ShiftMention(text, id, n);
      if p: nat :| p <= |text| && MatchesAt(text, id, p) && p < n {
        MatchInRun(text, id, p, n);
      }
      if id == text[..n] { assert MatchesAt(text, id, 0); }
    }
  }

  lemma MatchInRun(text: string, id: string, p: nat, n: nat)
    requires id != "" && AllTokenChars(id) && p < n <= |text| && MatchesAt(text, id, p)
    requires AllTokenChars(text[..n]) && (n < |text| ==> !TokenChar(text[n]))
    ensures p == 0 && id == text[..n]
  {
    assert forall i :: 0 <= i < n ==> TokenChar(text[i]) by {
      forall i | 0 <= i < n ensures TokenChar(text[i]) { assert text[..n][i] == text[i]; }
    }
    assert forall i :: 0 <= i < |id| ==> text[p + i] == id[i] by {
      forall i | 0 <= i < |id| ensures text[p + i] == id[i] { assert text[p..p + |id|][i] == text[p + i]; }
    }
  }

  // ---------------------------------------------------------------- existing cards

  datatype Task = Task(id: string, title: string, body: string, archived: bool)

  predicate Refers(task: Task, issue: string) {
    !task.archived && (Mentions(task.title, issue) || Mentions(task.body, issue))
  }

  /** A live task names the issue as a token of its title or of its body. */
  predicate Names(task: Task, issue: string) {
    !task.archived && (issue in Tokens(task.title) || issue in Tokens(task.body))
  }

  /** For identifiers made of token characters, to refer is to name. */
  lemma RefersExactly(task: Task, issue: string)
    requires issue != "" && AllTokenChars(issue)
    ensures Refers(task, issue) <==>
      !task.archived && (issue in Tokens(task.title) || issue in Tokens(task.body))
  {
    hide Mentions, Tokens;
    MentionIsToken(task.title, issue);
    MentionIsToken(task.body, issue);
  }

  /** The first task, in the given order, that refers to the issue. */
  function FirstCard(tasks: seq<Task>, issue: string): Option<string> {
    if tasks == [] then None
    else if FirstCard(tasks[..|tasks| - 1], issue).Some? then FirstCard(tasks[..|tasks| - 1], issue)
    else if Refers(tasks[|tasks| - 1], issue) then Some(tasks[|tasks| - 1].id)
    else None
  }

  lemma FirstCardStep(tasks: seq<Task>, i: nat, issue: string)
    requires i < |tasks|
    ensures FirstCard(tasks[..i + 1], issue) ==
      if FirstCard(tasks[..i], issue).Some? then FirstCard(tasks[..i], issue)
      else if Refers(tasks[i], issue) then Some(tasks[i].id) else None
  {
    assert tasks[..i + 1][..i] == tasks[..i];
  }

  /** The inner loop: add the identifiers that this task is the first to refer to. */
  method AddReferences(task: Task, identifiers: set<string>, found: map<string, string>)
    returns (more: map<string, string>)
    requires !task.archived
    ensures more.Keys == found.Keys + set id | id in identifiers && Refers(task, id)
    ensures forall id :: id in more ==> more[id] == if id in found then found[id] else task.id
  {
    hide Mentions;
    more := found;
    var todo := identifiers;
    while todo != {}
      invariant todo <= identifiers
      invariant more.Keys == found.Keys + set id | id in identifiers - todo && Refers(task, id)
      invariant forall id :: id in more ==> more[id] == if id in found then found[id] else task.id
      decreases todo
    {
      var id :| id in todo;
      todo := todo - {id};
      if id !in more && (Mentions(task.title, id) || Mentions(task.body, id)) {
        more := more[id := task.id];
      }
    }
  }

  predicate SortedById(tasks: seq<Task>) {
    forall i, j :: 0 <= i < j < |tasks| ==> !Less(tasks[j].id, tasks[i].id)
  }

  /** One insertion: `tasks` stays sorted. */
  method Insert(tasks: seq<Task>, task: Task) returns (more: seq<Task>)
    requires SortedById(tasks)
    ensures SortedById(more) && multiset(more) == multiset(tasks) + multiset{task}
  {
    var k := |tasks|;
    while k > 0 && Less(task.id, tasks[k - 1].id)
      invariant 0 <= k <= |tasks|
      invariant forall j :: k <= j < |tasks| ==> Less(task.id, tasks[j].id)
    {
      k := k - 1;
    }
    more := tasks[..k] + [task] + tasks[k..];
    assert tasks == tasks[..k] + tasks[k..];
    InsertedIsSorted(tasks, task, k);
  }

  lemma InsertedIsSorted(tasks: seq<Task>, task: Task, k: nat)
    requires SortedById(tasks) && k <= |tasks|
    requires forall j :: k <= j < |tasks| ==> Less(task.id, tasks[j].id)
    requires k > 0 ==> !Less(task.id, tasks[k - 1].id)
    ensures SortedById(tasks[..k] + [task] + tasks[k..])
  {
    var more := tasks[..k] + [task] + tasks[k..];
    forall i, j | 0 <= i < j < |more|
      ensures !Less(more[j].id, more[i].id)
    {
      if j == k {
        if i < k - 1 { NotLessBelow(task.id, tasks[k - 1].id, tasks[i].id); }
      } else if i == k {
        LessIsStrict(task.id, tasks[j - 1].id);
      }
    }
  }

  lemma NotLessBelow(x: string, top: string, low: string)
    requires !Less(x, top) && !Less(top, low)
    ensures !Less(x, low)
  {
    LessIsTotal(x, top);
    LessIsTotal(top, low);
    if Less(x, low) {
      if Less(low, top) { LessIsTransitive(x, low, top); }
    }
  }

  /** `sorted` by id, by insertion. */
  method SortById(tasks: seq<Task>) returns (sorted: seq<Task>)
    ensures SortedById(sorted) && multiset(sorted) == multiset(tasks)
  {
    sorted := [];
    for i := 0 to |tasks|
      invariant SortedById(sorted) && multiset(sorted) == multiset(tasks[..i])
    {
      assert tasks[..i + 1] == tasks[..i] + [tasks[i]];
      sorted := Insert(sorted, tasks[i]);
    }
    assert tasks[..|tasks|] == tasks;
  }

  /** The least id among the live tasks that refer to the issue. */
  ghost predicate LeastCard(tasks: seq<Task>, issue: string, id: string) {
    (exists task :: task in tasks && Refers(task, issue) && task.id == id) &&
    forall task :: task in tasks && Refers(task, issue) ==> !Less(task.id, id)
  }

  lemma {:induction false} FirstIsLeast(tasks: seq<Task>, issue: string)
    requires SortedById(tasks) && FirstCard(tasks, issue).Some?
    ensures LeastCard(tasks, issue, FirstCard(tasks, issue).value)
  {
    hide Refers;
    var n := |tasks| - 1;
    var last := tasks[n];
    assert tasks == tasks[..n] + [last];
    if FirstCard(tasks[..n], issue).Some? {
      FirstIsLeast(tasks[..n], issue);
      var id := FirstCard(tasks[..n], issue).value;
      var task :| task in tasks[..n] && Refers(task, issue) && task.id == id;
      assert !Less(last.id, id);
    } else {
      FirstCardExists(tasks[..n], issue);
      LessIsStrict(last.id, last.id);
      forall task | task in tasks && Refers(task, issue)
        ensures !Less(task.id, last.id)
      {
        assert task == last;
      }
    }
  }

  /** Order does not matter for which issues have a card, nor for which id is the least. */
  lemma SameTasksSameCards(tasks: seq<Task>, sorted: seq<Task>, issue: string)
    requires multiset(sorted) == multiset(tasks)
    ensures FirstCard(sorted, issue).Some? <==> FirstCard(tasks, issue).Some?
    ensures forall id :: LeastCard(sorted, issue, id) <==> LeastCard(tasks, issue, id)
  {
    hide Refers, FirstCard;
    assert forall task :: task in sorted <==> task in multiset(sorted);
    assert forall task :: task in tasks <==> task in multiset(tasks);
    FirstCardExists(sorted, issue);
    FirstCardExists(tasks, issue);
    if i :| 0 <= i < |sorted| && Refers(sorted[i], issue) { assert sorted[i] in tasks; }
    if i :| 0 <= i < |tasks| && Refers(tasks[i], issue) { assert tasks[i] in sorted; }
  }

  /** `match_existing_cards`: sort by id, then scan; a referred identifier is mapped to the least id among
      the live tasks that refer to it. For identifiers made of token characters these are the live tasks
      that name it in their title or body. */
  method MatchExistingCards(tasks: seq<Task>, identifiers: set<string>) returns (found: map<string, string>)
    ensures found.Keys == set id | id in identifiers && FirstCard(tasks, id).Some?
    ensures forall id :: id in found ==> LeastCard(tasks, id, found[id])
    ensures forall id :: id != "" && AllTokenChars(id) ==>
      (id in found <==> id in identifiers && exists task :: task in tasks && Names(task, id))
    ensures forall id :: id in found && id != "" && AllTokenChars(id) ==>
      (exists task :: task in tasks && Names(task, id) && task.id == found[id]) &&
      forall task :: task in tasks && Names(task, id) ==> !Less(task.id, found[id])
  {
    hide FirstCard, Mentions, SortedById, LeastCard, Names, AllTokenChars;
    var sorted := SortById(tasks);
    found := map[];
    assert forall id :: FirstCard([], id) == None by { NoTasksNoCard(); }
    assert sorted[..0] == [];
    for i := 0 to |sorted|
      invariant found.Keys == set id | id in identifiers && FirstCard(sorted[..i], id).Some?
      invariant forall id :: id in found ==> found[id] == FirstCard(sorted[..i], id).value
    {
      forall id { FirstCardStep(sorted, i, id); }
      if sorted[i].archived {
        continue;
      }
      found := AddReferences(sorted[i], identifiers, found);
    }
    assert sorted[..|sorted|] == sorted;
    forall id
      ensures FirstCard(sorted, id).Some? <==> FirstCard(tasks, id).Some?
      ensures FirstCard(sorted, id).Some? ==> LeastCard(tasks, id, FirstCard(sorted, id).value)
    {
      SameTasksSameCards(tasks, sorted, id);
      if FirstCard(sorted, id).Some? { FirstIsLeast(sorted, id); }
    }
    forall id | id != "" && AllTokenChars(id)
      ensures FirstCard(tasks, id).Some? <==> exists task :: task in tasks && Names(task, id)
      ensures id in found ==>
        (exists task :: task in tasks && Names(task, id) && task.id == found[id]) &&
        forall task :: task in tasks && Names(task, id) ==> !Less(task.id, found[id])
    {
      NamedCard(tasks, id);
      if id in found { LeastNamed(tasks, id, found[id]); }
    }
  }

  lemma NamedCard(tasks: seq<Task>, issue: string)
    requires issue != "" && AllTokenChars(issue)
    ensures FirstCard(tasks, issue).Some? <==> exists task :: task in tasks && Names(task, issue)
  {
    hide FirstCard, Refers, Tokens;
    FirstCardExists(tasks, issue);
    forall i | 0 <= i < |tasks|
      ensures Refers(tasks[i], issue) <==> Names(tasks[i], issue)
    {
      RefersExactly(tasks[i], issue);
    }
  }

  lemma LeastNamed(tasks: seq<Task>, issue: string, id: string)
    requires issue != "" && AllTokenChars(issue) && LeastCard(tasks, issue, id)
    ensures exists task :: task in tasks && Names(task, issue) && task.id == id
    ensures forall task :: task in tasks && Names(task, issue) ==> !Less(task.id, id)
  {
    hide Refers, Tokens;
    forall task | task in tasks
      ensures Refers(task, issue) <==> Names(task, issue)
    {
      RefersExactly(task, issue);
    }
  }

  lemma NoTasksNoCard()
    ensures forall id :: FirstCard([], id) == None
  {
  }

  lemma {:induction false} FirstCardExists(tasks: seq<Task>, issue: string)
    ensures FirstCard(tasks, issue).Some? <==> exists i :: 0 <= i < |tasks| && Refers(tasks[i], issue)
  {
    hide Refers;
    if tasks != [] {
      var n := |tasks| - 1;
      FirstCardExists(tasks[..n], issue);
      if i :| 0 <= i < n && Refers(tasks[..n][i], issue) { assert Refers(tasks[i], issue); }
      if i :| 0 <= i < |tasks| && Refers(tasks[i], issue) {
        if i < n { assert tasks[..n][i] == tasks[i]; }
      }
    }
  }

  // ---------------------------------------------------------------- the card written by `start`

  const TITLE_PREFIX := "[runtime] "
  const BODY_PREFIX := "Runtime dispatch for Linear "
  const BODY_MIDDLE := " (agent "
  const BODY_END := CLOSE + (EXECUTE + (DESCRIBED + (CONCLUDE + EVIDENCE)))
  const CLOSE := ").\n\n"
  const EXECUTE := "Executar a implementacao "
  const DESCRIBED := "descrita na issue Linear "
  const CONCLUDE := "e concluir este card "
  const EVIDENCE := "com evidencia.\n"

  function TitleFor(issue: string): string { TITLE_PREFIX + issue }

  function BodyFor(issue: string, agent: string): string {
    BODY_PREFIX + issue + (BODY_MIDDLE + agent + BODY_END)
  }

  predicate NoDigits(s: string) { forall i :: 0 <= i < |s| ==> !Digit(s[i]) }

  /** A Linear identifier: letters, a dash, digits. */
  predicate IssueId(id: string) {
    exists k :: 0 < k < |id| - 1 && id[k] == '-' &&
      (forall i :: 0 <= i < k ==> Letter(id[i])) && (forall i :: k < i < |id| ==> Digit(id[i]))
  }

  lemma IssueIdFacts(id: string)
    requires IssueId(id)
    ensures id != "" && AllTokenChars(id) && Digit(id[|id| - 1])
  {
  }

  lemma OwnMention(pre: string, id: string, post: string)
    requires IssueId(id)
    requires pre != "" ==> !TokenChar(pre[|pre| - 1])
    requires post != "" ==> !TokenChar(post[0])
    ensures Mentions(pre + id + post, id)
  {
    var text := pre + id + post;
    assert text[|pre|..|pre| + |id|] == id;
    assert MatchesAt(text, id, |pre|);
  }

  lemma MatchIsInside(pre: string, id: string, post: string, other: string, p: nat)
    requires NoDigits(pre) && NoDigits(post) && other != "" && AllTokenChars(other) && Digit(other[|other| - 1])
    requires pre != "" ==> !TokenChar(pre[|pre| - 1])
    requires post != "" ==> !TokenChar(post[0])
    requires p <= |pre + id + post| && MatchesAt(pre + id + post, other, p)
    ensures |pre| <= p && p + |other| <= |pre| + |id|
  {
    var text, m := pre + id + post, |other|;
    forall i | 0 <= i < m
      ensures text[p + i] == other[i]
    {
      assert text[p..p + m][i] == text[p + i];
    }
    assert text[p + (m - 1)] == other[m - 1];
    assert p + m - 1 >= |pre|;
    assert p + m - 1 < |pre| + |id|;
    forall q | p <= q < p + m
      ensures TokenChar(text[q])
    {
      assert text[p + (q - p)] == other[q - p];
    }
    assert pre != "" ==> text[|pre| - 1] == pre[|pre| - 1];
  }

  /** A text whose digits all lie inside one delimited identifier mentions that identifier only. */
  lemma OnlyMention(pre: string, id: string, post: string, other: string)
    requires NoDigits(pre) && NoDigits(post) && IssueId(id) && IssueId(other)
    requires pre != "" ==> !TokenChar(pre[|pre| - 1])
    requires post != "" ==> !TokenChar(post[0])
    ensures Mentions(pre + id + post, other) <==> other == id
  {
    hide IssueId, NoDigits, TokenChar;
    IssueIdFacts(id);
    IssueIdFacts(other);
    OwnMention(pre, id, post);
    var text := pre + id + post;
    if p: nat :| p <= |text| && MatchesAt(text, other, p) {
      MatchIsInside(pre, id, post, other, p);
      assert p == |pre| && |other| == |id|;
      assert text[p..p + |other|] == id;
    }
  }

  lemma NoDigitsInConcatenation(a: string, b: string)
    requires NoDigits(a) && NoDigits(b)
    ensures NoDigits(a + b)
  {
  }

  lemma OpeningTextHasNoDigits()
    ensures NoDigits(TITLE_PREFIX) && NoDigits(BODY_PREFIX) && NoDigits(BODY_MIDDLE) && NoDigits(CLOSE)
  {
  }

  lemma InstructionHasNoDigits()
    ensures NoDigits(EXECUTE) && NoDigits(DESCRIBED)
  {
  }

  lemma ClosingTextHasNoDigits()
    ensures NoDigits(CONCLUDE) && NoDigits(EVIDENCE)
  {
  }

  lemma CardTextHasNoDigits()
    ensures NoDigits(TITLE_PREFIX) && NoDigits(BODY_PREFIX) && NoDigits(BODY_MIDDLE) && NoDigits(BODY_END)
  {
    hide NoDigits, CLOSE, EXECUTE, DESCRIBED, CONCLUDE, EVIDENCE, TITLE_PREFIX, BODY_PREFIX, BODY_MIDDLE;
    OpeningTextHasNoDigits();
    InstructionHasNoDigits();
    ClosingTextHasNoDigits();
    NoDigitsInConcatenation(CONCLUDE, EVIDENCE);
    NoDigitsInConcatenation(DESCRIBED, CONCLUDE + EVIDENCE);
    NoDigitsInConcatenation(EXECUTE, DESCRIBED + (CONCLUDE + EVIDENCE));
    NoDigitsInConcatenation(CLOSE, EXECUTE + (DESCRIBED + (CONCLUDE + EVIDENCE)));
  }

  lemma AgentsHaveNoDigits(agent: string)
    requires agent in AGENTS.Values
    ensures NoDigits(agent)
  {
  }

  /** The card `start` writes is found again for its own issue and for no other Linear issue. */
  lemma CardMatchesOnlyItsIssue(id: string, issue: string, agent: string, other: string)
    requires IssueId(issue) && IssueId(other) && agent in AGENTS.Values
    ensures Refers(Task(id, TitleFor(issue), BodyFor(issue, agent), false), other) <==> other == issue
  {
    hide IssueId, AGENTS, Mentions;
    CardTextHasNoDigits();
    AgentsHaveNoDigits(agent);
    var post := BODY_MIDDLE + agent + BODY_END;
    NoDigitsInConcatenation(BODY_MIDDLE, agent);
    NoDigitsInConcatenation(BODY_MIDDLE + agent, BODY_END);
    assert TitleFor(issue) == TITLE_PREFIX + issue + "";
    OnlyMention(TITLE_PREFIX, issue, "", other);
    OnlyMention(BODY_PREFIX, issue, post, other);
  }
}
