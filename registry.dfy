/** The static registry of step functions the orchestrator graph is built from. */
module AgentRegistry {
  import opened Wrappers
  import opened Engine
  import opened Agents

  /** The identity of a registered step function. */
  datatype AgentId = Scheduling | ServiceInsight | Knowledge

  /**
   * `get_registered_agents`: three names, each bound to a different step
   * function.
   */
  function GetRegisteredAgents(): (r: map<string, AgentId>)
    ensures r.Keys == {"scheduling", "service_insight", "knowledge"}
    ensures |r| == 3
    ensures forall a, b :: a in r && b in r && a != b ==> r[a] != r[b]
    ensures r["scheduling"] == Scheduling
    ensures r["service_insight"] == ServiceInsight && r["knowledge"] == Knowledge
  {
    var r := map["scheduling" := Scheduling, "service_insight" := ServiceInsight, "knowledge" := Knowledge];
    assert |r.Keys| == 3 by {
      assert r.Keys == {"scheduling"} + {"service_insight"} + {"knowledge"};
    }
    r
  }

  /** Calling the step function that `id` names on `state`. */
  function Call(scheduled: Option<string>, id: AgentId, state: State): State
  {
    match id
    case Scheduling => SchedulingAgent(scheduled, state)
    case ServiceInsight => ServiceInsightAgent(state)
    case Knowledge => KnowledgeAgent(state)
  }

  /**
   * Resolving a registered name and calling the result behaves as the
   * step function that the name was registered with.
   */
  lemma RegisteredNamesResolve(scheduled: Option<string>, state: State)
    ensures Call(scheduled, GetRegisteredAgents()["scheduling"], state) == SchedulingAgent(scheduled, state)
    ensures Call(scheduled, GetRegisteredAgents()["service_insight"], state) == ServiceInsightAgent(state)
    ensures Call(scheduled, GetRegisteredAgents()["knowledge"], state) == KnowledgeAgent(state)
  {
  }
}
