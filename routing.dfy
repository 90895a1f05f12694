/**
 * Routing: the routing table and `route_request`, and the table
 * `get_default_routing_config` builds from the BEDROCK_AGENTS,
 * KNOWLEDGE_BASES, DEFAULT_AGENT and APPLICATIONS environment strings.
 */
module Routing {

  import opened Options
  import opened PyStr

  /** One `routing_rules` entry; a key the loaded table leaves out is None. */
  datatype Rule = Rule(agent: Option<string>, knowledgeBase: Option<string>)

  /** The loaded routing configuration; a top-level key it leaves out is None or empty. */
  datatype RoutingConfig = RoutingConfig(
    agents: seq<string>,
    knowledgeBases: seq<string>,
    defaultAgent: Option<string>,
    rules: map<string, Rule>)

  /** What `route_request` returns: `agent_id` and `knowledge_base_id`, either possibly None. */
  datatype Route = Route(agentId: Option<string>, knowledgeBaseId: Option<string>)

  /** True when the app has a rule whose agent is a non-empty string. */
  predicate HasOwnAgent(cfg: RoutingConfig, appName: string) {
    appName in cfg.rules && cfg.rules[appName].agent.Some? && cfg.rules[appName].agent.value != ""
  }

  /**
   * `route_request`: the app's own agent when its rule names a non-empty one,
   * otherwise the configured default agent (which may itself be missing or
   * empty); the knowledge base is the rule's, or None without a rule.
   */
  function RouteRequest(cfg: RoutingConfig, appName: string): (r: Route)
    ensures HasOwnAgent(cfg, appName) ==> r.agentId == cfg.rules[appName].agent
    ensures !HasOwnAgent(cfg, appName) ==> r.agentId == cfg.defaultAgent
    ensures appName !in cfg.rules ==> r.knowledgeBaseId == None
    ensures appName in cfg.rules ==> r.knowledgeBaseId == cfg.rules[appName].knowledgeBase
  {
    var rule := if appName in cfg.rules then cfg.rules[appName] else Rule(None, None);
    var agent := if rule.agent.Some? && rule.agent.value != "" then rule.agent else cfg.defaultAgent;
    Route(agent, rule.knowledgeBase)
  }

  /**
   * No cross-routing beyond the configured fallback: a routed agent is the
   * app's own, or the default; and an app with a rule of its own whose agent
   * differs from the default never ends up at the default.
   */
  lemma RouteIsOwnOrDefault(cfg: RoutingConfig, appName: string)
    ensures var r := RouteRequest(cfg, appName);
      r.agentId == cfg.defaultAgent || (appName in cfg.rules && r.agentId == cfg.rules[appName].agent)
    ensures HasOwnAgent(cfg, appName) && cfg.rules[appName].agent != cfg.defaultAgent ==>
      RouteRequest(cfg, appName).agentId != cfg.defaultAgent
  {
  }

  /** `agents[i] if i < len(agents) and agents[i] else default_agent`, and the same for knowledge bases with ''. */
  function RuleAt(i: nat, agents: seq<string>, knowledgeBases: seq<string>, defaultAgent: string): Rule {
    Rule(
      Some(if i < |agents| && agents[i] != "" then agents[i] else defaultAgent),
      Some(if i < |knowledgeBases| && knowledgeBases[i] != "" then knowledgeBases[i] else ""))
  }

  /**
   * The rules the loop over `enumerate(apps)` has built after all of `apps`:
   * each non-blank stripped name maps to the rule of its position, a later
   * occurrence overwriting an earlier one.
   */
  function RulesFrom(apps: seq<string>, agents: seq<string>, knowledgeBases: seq<string>, defaultAgent: string): map<string, Rule>
  {
    if apps == [] then map[]
    else
      var n := |apps| - 1;
      var rules := RulesFrom(apps[..n], agents, knowledgeBases, defaultAgent);
      if Strip(apps[n]) != "" then rules[Strip(apps[n]) := RuleAt(n, agents, knowledgeBases, defaultAgent)]
      else rules
  }

  /** True when some element of `apps` strips to `name`. */
  predicate Lists(apps: seq<string>, name: string) {
    exists i :: 0 <= i < |apps| && Strip(apps[i]) == name
  }

  /** The table has exactly one rule per non-blank stripped app name. */
  lemma {:induction false} RulesFromKeys(apps: seq<string>, agents: seq<string>, knowledgeBases: seq<string>, defaultAgent: string, name: string)
    ensures name in RulesFrom(apps, agents, knowledgeBases, defaultAgent) <==> name != "" && Lists(apps, name)
  {
    if apps != [] {
      var n := |apps| - 1;
      var prefix := apps[..n];
      RulesFromKeys(prefix, agents, knowledgeBases, defaultAgent, name);
      assert Lists(apps, name) <==> Lists(prefix, name) || Strip(apps[n]) == name by {
        if Lists(apps, name) {
          var i :| 0 <= i < |apps| && Strip(apps[i]) == name;
          if i < n {
            assert prefix[i] == apps[i];
          }
        }
        if Lists(prefix, name) {
          var i :| 0 <= i < |prefix| && Strip(prefix[i]) == name;
          assert apps[i] == prefix[i];
        }
      }
    }
  }

  /** An app name's rule is built from the position of its last occurrence. */
  lemma {:induction false} RulesFromLast(apps: seq<string>, agents: seq<string>, knowledgeBases: seq<string>, defaultAgent: string, i: nat)
    requires i < |apps| && Strip(apps[i]) != ""
    requires forall j :: i < j < |apps| ==> Strip(apps[j]) != Strip(apps[i])
    ensures Strip(apps[i]) in RulesFrom(apps, agents, knowledgeBases, defaultAgent)
    ensures RulesFrom(apps, agents, knowledgeBases, defaultAgent)[Strip(apps[i])] == RuleAt(i, agents, knowledgeBases, defaultAgent)
  {
    var n := |apps| - 1;
    if i < n {
      assert apps[..n][i] == apps[i];
      forall j | i < j < n ensures Strip(apps[..n][j]) != Strip(apps[..n][i]) {
        assert apps[..n][j] == apps[j];
      }
      RulesFromLast(apps[..n], agents, knowledgeBases, defaultAgent, i);
    }
  }

  /** One more turn of the loop over `enumerate(apps)`. */
  lemma RulesFromSnoc(apps: seq<string>, i: nat, agents: seq<string>, knowledgeBases: seq<string>, defaultAgent: string)
    requires i < |apps|
    ensures var rules := RulesFrom(apps[..i], agents, knowledgeBases, defaultAgent);
      RulesFrom(apps[..i + 1], agents, knowledgeBases, defaultAgent)
        == if Strip(apps[i]) != "" then rules[Strip(apps[i]) := RuleAt(i, agents, knowledgeBases, defaultAgent)] else rules
  {
    assert apps[..i + 1][..i] == apps[..i];
  }

  /** `DEFAULT_AGENT`, falling back to the first element of the split agent list. */
  function DefaultAgent(agents: seq<string>, defaultAgentEnv: Option<string>): string
    requires |agents| >= 1
  {
    if defaultAgentEnv.Some? then defaultAgentEnv.value else agents[0]
  }

  /**
   * `get_default_routing_config`, with the environment variables passed in
   * (None for an unset DEFAULT_AGENT; an unset list variable is "").
   */
  method DefaultRoutingConfig(agentsEnv: string, knowledgeBasesEnv: string, defaultAgentEnv: Option<string>, appsEnv: string)
    returns (cfg: RoutingConfig)
    ensures cfg.agents == NonEmpty(Split(agentsEnv, ','))
    ensures cfg.knowledgeBases == NonEmpty(Split(knowledgeBasesEnv, ','))
    ensures cfg.defaultAgent == Some(DefaultAgent(Split(agentsEnv, ','), defaultAgentEnv))
    ensures cfg.rules == RulesFrom(Split(appsEnv, ','), Split(agentsEnv, ','), Split(knowledgeBasesEnv, ','),
                                   DefaultAgent(Split(agentsEnv, ','), defaultAgentEnv))
  {
    var agents := Split(agentsEnv, ',');
    var knowledgeBases := Split(knowledgeBasesEnv, ',');
    var defaultAgent := if defaultAgentEnv.Some? then defaultAgentEnv.value else agents[0];
    var rules: map<string, Rule> := map[];
    var apps := Split(appsEnv, ',');
    var i := 0;
    while i < |apps|
      invariant 0 <= i <= |apps|
      invariant rules == RulesFrom(apps[..i], agents, knowledgeBases, defaultAgent)
    {
      RulesFromSnoc(apps, i, agents, knowledgeBases, defaultAgent);
      var app := Strip(apps[i]);
      if app != "" {
        var agent := if i < |agents| && agents[i] != "" then agents[i] else defaultAgent;
        var knowledgeBase := if i < |knowledgeBases| && knowledgeBases[i] != "" then knowledgeBases[i] else "";
        rules := rules[app := Rule(Some(agent), Some(knowledgeBase))];
      }
      i := i + 1;
    }
    assert apps[..i] == apps;
    cfg := RoutingConfig(NonEmpty(agents), NonEmpty(knowledgeBases), Some(defaultAgent), rules);
  }

  /**
   * End to end: with the default table, an app listed last at position i is
   * routed to `agents[i]` when that is non-empty, otherwise to the default
   * agent, and its knowledge base is `knowledge_bases[i]` or ''.
   */
  lemma RouteDefaultTable(apps: seq<string>, agents: seq<string>, knowledgeBases: seq<string>, defaultAgent: string, i: nat)
    requires i < |apps| && Strip(apps[i]) != ""
    requires forall j :: i < j < |apps| ==> Strip(apps[j]) != Strip(apps[i])
    ensures var r := RouteRequest(RoutingConfig(NonEmpty(agents), NonEmpty(knowledgeBases), Some(defaultAgent),
                                                RulesFrom(apps, agents, knowledgeBases, defaultAgent)), Strip(apps[i]));
      && r.agentId == Some(if i < |agents| && agents[i] != "" then agents[i] else defaultAgent)
      && r.knowledgeBaseId == Some(if i < |knowledgeBases| && knowledgeBases[i] != "" then knowledgeBases[i] else "")
  {
    RulesFromLast(apps, agents, knowledgeBases, defaultAgent, i);
  }
}
