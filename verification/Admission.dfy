/** Which issues may be dispatched: `classify_issue` in `src/hermes_agent_runtime/runtime.py` and the
    guard in `runtime/poller/poller_dispatch_guard.py`, two policies written independently. */
module Admission {
  import opened Options

  const AGENTS := map[
    "agent:orchestrator" := "orchestrator", "agent:backend" := "dev-backend", "agent:frontend" := "dev-frontend",
    "agent:devops" := "devops", "agent:qa" := "qualidade", "agent:review" := "code-reviewer",
    "agent:github" := "github-profile"]

  const KNOWN_AGENTS := {"agent:orchestrator", "agent:backend", "agent:frontend", "agent:devops", "agent:qa",
                         "agent:review", "agent:github"}

  const RISKS := {"low", "medium", "high", "critical"}
  const MODES := {"auto", "human", "blocked"}
  const ENVIRONMENTS := {"local", "preview", "staging", "production"}

  function WithPrefix(labels: set<string>, prefix: string): set<string> {
    set tag | tag in labels && prefix <= tag
  }

  lemma SingletonIsUnique(s: set<string>, x: string, y: string)
    requires |s| == 1 && x in s && y in s
    ensures x == y
  {
    assert |s - {x}| == 0;
  }

  function Only(s: set<string>): (x: string)
    requires |s| == 1
    ensures x in s
  {
    assert s != {};
    assert forall x, y :: x in s && y in s ==> x == y by {
      forall x, y | x in s && y in s ensures x == y { SingletonIsUnique(s, x, y); }
    }
    var x :| x in s;
    x
  }

  // ---------------------------------------------------------------- classify_issue

  datatype Refusal = NotTodo | UnknownAgent | AmbiguousAgent | Conflicting | UnknownLabel | NeedsHuman

  datatype Classification = Classified(agent: string, risk: string, mode: string, environment: string)
                          | Refused(refusal: Refusal)

  /** The inner `one`: None when several labels carry the prefix, the default when none does. */
  function One(labels: set<string>, prefix: string, default_: string): Option<string> {
    var matches := WithPrefix(labels, prefix);
    if |matches| > 1 then None else if |matches| == 1 then Some(Only(matches)[|prefix|..]) else Some(default_)
  }

  function Classify(labels: set<string>, status: string): Classification {
    var agents := labels * AGENTS.Keys;
    if status != "Todo" then Refused(NotTodo)
    else if exists tag :: tag in labels && "agent:" <= tag && tag !in AGENTS then Refused(UnknownAgent)
    else if |agents| != 1 then Refused(AmbiguousAgent)
    else
      var risk, mode, environment :=
        One(labels, "risk:", "low"), One(labels, "execution:", "auto"), One(labels, "env:", "local");
      if risk.None? || mode.None? || environment.None? then Refused(Conflicting)
      else if risk.value !in RISKS || mode.value !in MODES || environment.value !in ENVIRONMENTS
      then Refused(UnknownLabel)
      else if mode.value != "auto" || risk.value == "critical" || environment.value == "production"
      then Refused(NeedsHuman)
      else Classified(AGENTS[Only(agents)], risk.value, mode.value, environment.value)
  }

  /** What a classification can yield. */
  lemma ClassifiedWords(labels: set<string>)
    ensures var c := Classify(labels, "Todo");
      c.Classified? ==> c.agent in AGENTS.Values && c.risk in RISKS && c.mode in MODES && c.environment in ENVIRONMENTS
  {
    hide One, AGENTS, RISKS, MODES, ENVIRONMENTS;
  }

  lemma AgentsAreNamed(agent: string)
    requires agent in AGENTS.Values
    ensures agent != ""
  {
  }

  // ---------------------------------------------------------------- the dispatch guard

  datatype GateReason = InvalidAgent | MissingAgent | MissingGate(prefix: string) | AmbiguousGate(prefix: string)
                      | InvalidValue(value: string) | RiskNeedsHuman(risk: string)
                      | ModeNeedsHuman(mode: string) | ProductionNeedsHuman

  datatype Gate = Value(value: string) | Missing | Ambiguous

  function OneLabel(labels: set<string>, prefix: string): Gate {
    var matches := WithPrefix(labels, prefix);
    if |matches| == 0 then Missing else if |matches| > 1 then Ambiguous else Value(Only(matches)[|prefix|..])
  }

  function GateFailure(gate: Gate, prefix: string): GateReason
    requires !gate.Value?
  {
    if gate.Missing? then MissingGate(prefix) else AmbiguousGate(prefix)
  }

  function GateBlockReason(labels: set<string>): Option<GateReason> {
    var agents := WithPrefix(labels, "agent:");
    if agents - KNOWN_AGENTS != {} then Some(InvalidAgent)
    else if |agents| != 1 then Some(MissingAgent)
    else
      var risk := OneLabel(labels, "risk:");
      if !risk.Value? then Some(GateFailure(risk, "risk:"))
      else if risk.value !in RISKS then Some(InvalidValue(risk.value))
      else if risk.value == "high" || risk.value == "critical" then Some(RiskNeedsHuman(risk.value))
      else
        var mode := OneLabel(labels, "execution:");
        if !mode.Value? then Some(GateFailure(mode, "execution:"))
        else if mode.value !in MODES then Some(InvalidValue(mode.value))
        else if mode.value != "auto" then Some(ModeNeedsHuman(mode.value))
        else
          var environment := OneLabel(labels, "env:");
          if !environment.Value? then Some(GateFailure(environment, "env:"))
          else if environment.value !in ENVIRONMENTS then Some(InvalidValue(environment.value))
          else if environment.value == "production" then Some(ProductionNeedsHuman)
          else None
  }

  /** The check `start` repeats before it touches the board. */
  predicate StartRefuses(mode: string, risk: string, environment: string) {
    mode != "auto" || risk == "high" || risk == "critical" || environment == "production"
  }

  predicate AllGatesPresent(labels: set<string>) {
    WithPrefix(labels, "risk:") != {} && WithPrefix(labels, "execution:") != {} && WithPrefix(labels, "env:") != {}
  }

  lemma KnownAgentsAgree(labels: set<string>)
    ensures (exists tag :: tag in labels && "agent:" <= tag && tag !in AGENTS) <==>
      WithPrefix(labels, "agent:") - KNOWN_AGENTS != {}
    ensures WithPrefix(labels, "agent:") - KNOWN_AGENTS == {} ==>
      labels * AGENTS.Keys == WithPrefix(labels, "agent:")
  {
    assert AGENTS.Keys == KNOWN_AGENTS;
    assert forall tag :: tag in KNOWN_AGENTS ==> "agent:" <= tag;
    var unknown := WithPrefix(labels, "agent:") - KNOWN_AGENTS;
    if tag :| tag in labels && "agent:" <= tag && tag !in AGENTS {
      assert tag in unknown;
    }
    if unknown != {} {
      var tag :| tag in unknown;
      assert tag in labels && "agent:" <= tag && tag !in AGENTS;
    } else {
      forall tag | tag in WithPrefix(labels, "agent:")
        ensures tag in AGENTS
      {
        assert tag in KNOWN_AGENTS || tag in unknown;
      }
    }
  }

  /** For a Todo issue the guard admits a label set exactly when classification succeeds, all three
      optional gates are present and the risk is not high. */
  lemma PoliciesAgree(labels: set<string>)
    ensures GateBlockReason(labels) == None <==>
      Classify(labels, "Todo").Classified? && AllGatesPresent(labels) && Classify(labels, "Todo").risk != "high"
  {
    hide AGENTS, KNOWN_AGENTS, WithPrefix;
    KnownAgentsAgree(labels);
    GateIsOne(labels, "risk:", "low");
    GateIsOne(labels, "execution:", "auto");
    GateIsOne(labels, "env:", "local");
  }

  lemma GateIsOne(labels: set<string>, prefix: string, default_: string)
    ensures OneLabel(labels, prefix).Ambiguous? <==> One(labels, prefix, default_).None?
    ensures OneLabel(labels, prefix).Missing? <==> WithPrefix(labels, prefix) == {}
    ensures OneLabel(labels, prefix).Missing? ==> One(labels, prefix, default_) == Some(default_)
    ensures OneLabel(labels, prefix).Value? ==> One(labels, prefix, default_) == Some(OneLabel(labels, prefix).value)
  {
  }

  /** So the check inside `start` never fires on an issue the guard admitted. */
  lemma StartNeverRefusesAdmitted(labels: set<string>)
    requires GateBlockReason(labels) == None
    ensures var c := Classify(labels, "Todo");
      c.Classified? && !StartRefuses(c.mode, c.risk, c.environment) && c.environment in ENVIRONMENTS
  {
    hide AGENTS, KNOWN_AGENTS, WithPrefix, OneLabel, One;
    PoliciesAgree(labels);
  }

  // ---------------------------------------------------------------- the policies label by label

  /** `tag` is the only label with this prefix. */
  ghost predicate Sole(labels: set<string>, prefix: string, tag: string) {
    tag in labels && prefix <= tag && forall other :: other in labels && prefix <= other ==> other == tag
  }

  /** The only label with this prefix gives `value`, or there is none and `value` is the default. */
  ghost predicate Gives(labels: set<string>, prefix: string, default_: string, value: string) {
    Sole(labels, prefix, prefix + value) ||
    (value == default_ && forall other :: other in labels ==> !(prefix <= other))
  }

  lemma SoleIsSingleton(labels: set<string>, prefix: string, tag: string)
    ensures Sole(labels, prefix, tag) <==> WithPrefix(labels, prefix) == {tag}
  {
    var matches := WithPrefix(labels, prefix);
    if Sole(labels, prefix, tag) {
      assert matches == {tag};
    }
    if matches == {tag} {
      assert tag in matches;
      forall other | other in labels && prefix <= other
        ensures other == tag
      {
        assert other in matches;
      }
    }
  }

  lemma SingletonOf(s: set<string>)
    requires |s| == 1
    ensures s == {Only(s)}
  {
    forall x | x in s
      ensures x == Only(s)
    {
      SingletonIsUnique(s, x, Only(s));
    }
  }

  lemma GateGives(labels: set<string>, prefix: string, value: string)
    ensures OneLabel(labels, prefix) == Value(value) <==> Sole(labels, prefix, prefix + value)
  {
    var matches := WithPrefix(labels, prefix);
    SoleIsSingleton(labels, prefix, prefix + value);
    if |matches| == 1 {
      SingletonOf(matches);
      var only := Only(matches);
      assert only == prefix + only[|prefix|..];
      assert (prefix + value)[|prefix|..] == value;
    }
  }

  lemma OneGives(labels: set<string>, prefix: string, default_: string, value: string)
    ensures One(labels, prefix, default_) == Some(value) <==> Gives(labels, prefix, default_, value)
  {
    hide WithPrefix, Sole;
    GateGives(labels, prefix, value);
    GateIsOne(labels, prefix, default_);
    NoLabels(labels, prefix);
    SoleIsSingleton(labels, prefix, prefix + value);
  }

  lemma NoLabels(labels: set<string>, prefix: string)
    ensures WithPrefix(labels, prefix) == {} <==> forall other :: other in labels ==> !(prefix <= other)
  {
    if other :| other in labels && prefix <= other { assert other in WithPrefix(labels, prefix); }
  }

  /** The one agent label of an issue, and whom it names. */
  ghost predicate NamesAgent(labels: set<string>, agent: string) {
    || (agent == "orchestrator" && Sole(labels, "agent:", "agent:orchestrator"))
    || (agent == "dev-backend" && Sole(labels, "agent:", "agent:backend"))
    || (agent == "dev-frontend" && Sole(labels, "agent:", "agent:frontend"))
    || (agent == "devops" && Sole(labels, "agent:", "agent:devops"))
    || (agent == "qualidade" && Sole(labels, "agent:", "agent:qa"))
    || (agent == "code-reviewer" && Sole(labels, "agent:", "agent:review"))
    || (agent == "github-profile" && Sole(labels, "agent:", "agent:github"))
  }

  lemma NamedAgent(labels: set<string>, agent: string)
    ensures NamesAgent(labels, agent) <==>
      exists tag :: tag in AGENTS && Sole(labels, "agent:", tag) && AGENTS[tag] == agent
  {
    hide Sole;
    if tag :| tag in AGENTS && Sole(labels, "agent:", tag) && AGENTS[tag] == agent {
      assert tag in KNOWN_AGENTS;
    }
    assert forall tag :: tag in KNOWN_AGENTS ==> tag in AGENTS;
  }

  lemma AgentSet(labels: set<string>, tag: string)
    requires tag in AGENTS
    ensures Sole(labels, "agent:", tag) <==>
      WithPrefix(labels, "agent:") - KNOWN_AGENTS == {} && labels * AGENTS.Keys == {tag}
  {
    hide AGENTS, KNOWN_AGENTS, WithPrefix;
    KnownAgentsAgree(labels);
    SoleIsSingleton(labels, "agent:", tag);
    assert tag in KNOWN_AGENTS by { AgentKeys(); }
    if WithPrefix(labels, "agent:") == {tag} {
      assert WithPrefix(labels, "agent:") - KNOWN_AGENTS == {};
    }
  }

  lemma AgentKeys()
    ensures AGENTS.Keys == KNOWN_AGENTS
  {
  }

  /** Label by tag, when classification succeeds and what it yields: one known agent, and for each of the
      other prefixes the only label's value or the default, none of which demands a human. */
  lemma ClassifiedExactly(labels: set<string>, status: string, agent: string, risk: string, mode: string, env: string)
    ensures Classify(labels, status) == Classified(agent, risk, mode, env) <==>
      && status == "Todo" && NamesAgent(labels, agent)
      && Gives(labels, "risk:", "low", risk) && (risk == "low" || risk == "medium" || risk == "high")
      && Gives(labels, "execution:", "auto", mode) && mode == "auto"
      && Gives(labels, "env:", "local", env) && (env == "local" || env == "preview" || env == "staging")
  {
    hide AGENTS, KNOWN_AGENTS, WithPrefix, One, Sole, Gives, NamesAgent;
    OneGives(labels, "risk:", "low", risk);
    OneGives(labels, "execution:", "auto", mode);
    OneGives(labels, "env:", "local", env);
    ClassifiedAgent(labels, agent);
  }

  /** The agent part of classification. */
  lemma ClassifiedAgent(labels: set<string>, agent: string)
    ensures var agents := labels * AGENTS.Keys;
      NamesAgent(labels, agent) <==>
        !(exists tag :: tag in labels && "agent:" <= tag && tag !in AGENTS) && |agents| == 1 &&
        AGENTS[Only(agents)] == agent
  {
    hide AGENTS, KNOWN_AGENTS, WithPrefix, Sole, NamesAgent;
    var agents := labels * AGENTS.Keys;
    KnownAgentsAgree(labels);
    NamedAgent(labels, agent);
    if tag :| tag in AGENTS && Sole(labels, "agent:", tag) && AGENTS[tag] == agent {
      AgentSet(labels, tag);
      SingletonOf(agents);
    }
    if |agents| == 1 {
      SingletonOf(agents);
      AgentSet(labels, Only(agents));
    }
  }

  /** Label by label, what the guard admits: exactly one known agent and exactly one label of each other
      prefix, with a low or medium risk, automatic execution, and no production environment. */
  lemma AdmittedExactly(labels: set<string>)
    ensures GateBlockReason(labels) == None <==>
      && (exists agent :: NamesAgent(labels, agent))
      && (Sole(labels, "risk:", "risk:low") || Sole(labels, "risk:", "risk:medium"))
      && Sole(labels, "execution:", "execution:auto")
      && (Sole(labels, "env:", "env:local") || Sole(labels, "env:", "env:preview") ||
          Sole(labels, "env:", "env:staging"))
  {
    hide AGENTS, KNOWN_AGENTS, WithPrefix, OneLabel, Sole, NamesAgent;
    GateGives(labels, "risk:", "low");
    GateGives(labels, "risk:", "medium");
    GateGives(labels, "execution:", "auto");
    GateGives(labels, "env:", "local");
    GateGives(labels, "env:", "preview");
    GateGives(labels, "env:", "staging");
    AdmittedAgents(labels);
    assert "risk:" + "low" == "risk:low" && "risk:" + "medium" == "risk:medium";
    assert "execution:" + "auto" == "execution:auto";
    assert "env:" + "local" == "env:local" && "env:" + "preview" == "env:preview";
    assert "env:" + "staging" == "env:staging";
    var risk, mode, env := OneLabel(labels, "risk:"), OneLabel(labels, "execution:"), OneLabel(labels, "env:");
    assert risk.Value? && risk.value in RISKS && risk.value != "high" && risk.value != "critical" <==>
      risk == Value("low") || risk == Value("medium");
    assert mode.Value? && mode.value in MODES && mode.value == "auto" <==> mode == Value("auto");
    assert env.Value? && env.value in ENVIRONMENTS && env.value != "production" <==>
      env == Value("local") || env == Value("preview") || env == Value("staging");
  }

  lemma AdmittedAgents(labels: set<string>)
    ensures (exists agent :: NamesAgent(labels, agent)) <==>
      WithPrefix(labels, "agent:") - KNOWN_AGENTS == {} && |WithPrefix(labels, "agent:")| == 1
  {
    hide AGENTS, KNOWN_AGENTS, WithPrefix, Sole, NamesAgent;
    var agents := WithPrefix(labels, "agent:");
    KnownAgentsAgree(labels);
    if agent :| NamesAgent(labels, agent) {
      ClassifiedAgent(labels, agent);
    }
    if agents - KNOWN_AGENTS == {} && |agents| == 1 {
      ClassifiedAgent(labels, AGENTS[Only(labels * AGENTS.Keys)]);
    }
  }
}
