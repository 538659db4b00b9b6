/**
 * The orchestrator's graph: three registered steps wired into a chain
 * schedule -> service_insight -> knowledge -> END, entered at "schedule".
 */
module OrchestratorGraph {
  import opened Wrappers
  import opened Engine
  import opened Agents
  import opened AgentRegistry

  /** The fields of `AgentState`. None declares a reducer, so a merge overwrites. */
  const AgentStateFields: set<string> :=
    {"goal", "work_order_id", "date", "product_id", "description", "documentation"}

  /** The graph `build_graph` declares. */
  function ChainGraph(): Graph<AgentId>
  {
    Graph(map["schedule" := Scheduling, "service_insight" := ServiceInsight, "knowledge" := Knowledge],
          "schedule",
          [("schedule", Node("service_insight")),
           ("service_insight", Node("knowledge")),
           ("knowledge", End)])
  }

  /**
   * `build_graph`: looks the three steps up in the registry (every name it
   * indexes is registered), declares the nodes, the entry point and the edges
   * on a builder, and compiles it.
   */
  method BuildGraph() returns (g: Graph<AgentId>)
    ensures g == ChainGraph()
    ensures g.nodes.Keys == {"schedule", "service_insight", "knowledge"}
    ensures g.nodes["schedule"] == GetRegisteredAgents()["scheduling"]
    ensures g.nodes["service_insight"] == GetRegisteredAgents()["service_insight"]
    ensures g.nodes["knowledge"] == GetRegisteredAgents()["knowledge"]
  {
    var agents := GetRegisteredAgents();
    var graph := new StateGraph<AgentId>();
    graph.AddNode("schedule", agents["scheduling"]);
    graph.AddNode("service_insight", agents["service_insight"]);
    graph.AddNode("knowledge", agents["knowledge"]);
    graph.SetEntryPoint("schedule");
    graph.AddEdge("schedule", Node("service_insight"));
    graph.AddEdge("service_insight", Node("knowledge"));
    graph.AddEdge("knowledge", End);
    g := graph.Compile();
  }

  /**
   * The declared graph is a chain: the entry node is "schedule", every edge
   * joins declared nodes or END, and each node has exactly one outgoing edge.
   */
  lemma ChainGraphIsChain()
    ensures ChainGraph().entry == "schedule"
    ensures ChainGraph().nodes.Keys == {"schedule", "service_insight", "knowledge"}
    ensures IsChain(ChainGraph())
  {
    var g := ChainGraph();
    assert OutDegree(g.edges, "schedule") == 1;
    assert OutDegree(g.edges, "service_insight") == 1;
    assert OutDegree(g.edges, "knowledge") == 1;
  }

  /**
   * The walk from the entry visits schedule, service_insight and knowledge in
   * that order and reaches END after exactly three steps: any smaller budget
   * cannot finish it, and no larger budget changes it (there is no cycle).
   */
  lemma ChainPath(fuel: nat)
    ensures fuel >= 3 ==> Path(ChainGraph(), Node("schedule"), fuel) == Some(["schedule", "service_insight", "knowledge"])
    ensures fuel < 3 ==> Path(ChainGraph(), Node("schedule"), fuel) == None
  {
    var g := ChainGraph();
    assert "schedule" in g.nodes && "service_insight" in g.nodes && "knowledge" in g.nodes;
    assert Successor(g.edges, "schedule") == Node("service_insight");
    assert Successor(g.edges, "service_insight") == Node("knowledge");
    assert Successor(g.edges, "knowledge") == End;
    if fuel >= 3 {
      assert Path(g, End, fuel - 3) == Some([]);
      assert ["knowledge"] + [] == ["knowledge"];
      assert Path(g, Node("knowledge"), fuel - 2) == Some(["knowledge"]);
      assert ["service_insight"] + ["knowledge"] == ["service_insight", "knowledge"];
      assert Path(g, Node("service_insight"), fuel - 1) == Some(["service_insight", "knowledge"]);
      assert ["schedule"] + ["service_insight", "knowledge"] == ["schedule", "service_insight", "knowledge"];
    } else if fuel == 2 {
      assert Path(g, Node("knowledge"), 0) == None;
      assert Path(g, Node("service_insight"), 1) == None;
    } else if fuel == 1 {
      assert Path(g, Node("service_insight"), 0) == None;
    }
  }

  /** The step the executor runs for a node: the registered function, which never raises. */
  function Apply(scheduled: Option<string>): (AgentId, State) -> StepResult
  {
    (id: AgentId, s: State) => Ok(Call(scheduled, id, s))
  }

  /** Every step writes declared `AgentState` fields only, and none writes "goal". */
  lemma StepsWriteDeclaredFields(scheduled: Option<string>)
    ensures forall id, s :: Apply(scheduled)(id, s).Ok? && Apply(scheduled)(id, s).value.Keys <= AgentStateFields
    ensures NeverWrites(Apply(scheduled), "goal")
  {
    forall id, s
      ensures Apply(scheduled)(id, s) == Ok(Call(scheduled, id, s))
      ensures Call(scheduled, id, s).Keys <= AgentStateFields - {"goal"}
    {
      match id
      case Scheduling =>
        assert SchedulingAgent(scheduled, s).Keys <= {"work_order_id"};
      case ServiceInsight =>
        assert ServiceInsightAgent(s).Keys <= {"work_order_id", "product_id", "description"};
      case Knowledge =>
        assert KnowledgeAgent(s).Keys <= {"documentation"};
    }
  }

  /**
   * With a budget of at least three steps, a run of the chain applies the
   * schedule, insight and knowledge steps in that order, each to the state
   * the previous ones left, and never fails.
   */
  lemma ChainRun(init: State, scheduled: Option<string>, limit: nat)
    requires limit >= 3
    ensures var s1 := Merge(init, SchedulingAgent(scheduled, init));
            var s2 := Merge(s1, ServiceInsightAgent(s1));
            Run(ChainGraph(), Apply(scheduled), Node("schedule"), init, limit) == Ok(Merge(s2, KnowledgeAgent(s2)))
  {
    var g := ChainGraph();
    var apply := Apply(scheduled);
    var p := ["schedule", "service_insight", "knowledge"];
    ChainPath(limit);
    RunFollowsPath(g, apply, Node("schedule"), init, limit);
    var s1 := Merge(init, SchedulingAgent(scheduled, init));
    var s2 := Merge(s1, ServiceInsightAgent(s1));
    FoldCons(g, apply, p, init, SchedulingAgent(scheduled, init));
    FoldCons(g, apply, p[1..], s1, ServiceInsightAgent(s1));
    assert p[1..][1..] == ["knowledge"];
    FoldLast(g, apply, "knowledge", s2);
  }

  /**
   * Miss propagation. From a state without product, description or
   * documentation, the chain never fails, and it produces documentation
   * exactly when the work order after the schedule step is "WO-123"; for any
   * other work order, or none, the later steps add nothing at all.
   */
  lemma MissPropagation(init: State, scheduled: Option<string>, limit: nat)
    requires limit >= 3
    requires "product_id" !in init && "description" !in init && "documentation" !in init
    ensures var r := Run(ChainGraph(), Apply(scheduled), Node("schedule"), init, limit);
            var s1 := Merge(init, SchedulingAgent(scheduled, init));
            && r.Ok?
            && ("documentation" in r.value <==> Get(s1, "work_order_id") == Some("WO-123"))
            && (Get(s1, "work_order_id") != Some("WO-123") ==>
                  r.value == s1 && "product_id" !in r.value && "description" !in r.value)
            && (Get(s1, "work_order_id") == Some("WO-123") ==>
                  r.value == s1["product_id" := "AC-987"]["description" := "Repair AC unit on rooftop"]
                                ["documentation" := "AC-987 Installation & Maintenance Manual"])
  {
    ChainRun(init, scheduled, limit);
    var s1 := Merge(init, SchedulingAgent(scheduled, init));
    assert "product_id" !in s1 && "description" !in s1 && "documentation" !in s1;
    if Get(s1, "work_order_id") == Some("WO-123") {
      InsightHit(s1);
    } else {
      InsightMiss(s1);
    }
  }

  /** A known work order: the insight and knowledge steps add product, description and manual. */
  lemma InsightHit(s1: State)
    requires Get(s1, "work_order_id") == Some("WO-123")
    ensures var s2 := Merge(s1, ServiceInsightAgent(s1));
            Merge(s2, KnowledgeAgent(s2))
              == s1["product_id" := "AC-987"]["description" := "Repair AC unit on rooftop"]
                   ["documentation" := "AC-987 Installation & Maintenance Manual"]
  {
    InsightRecordMerge(s1);
    KnowledgeHit(s1["product_id" := "AC-987"]["description" := "Repair AC unit on rooftop"]);
  }

  /** Merging the insight record over a state already holding "WO-123" adds product and description. */
  lemma InsightRecordMerge(s1: State)
    requires Get(s1, "work_order_id") == Some("WO-123")
    ensures Merge(s1, ServiceInsightAgent(s1))
              == s1["product_id" := "AC-987"]["description" := "Repair AC unit on rooftop"]
  {
    var s2 := Merge(s1, ServiceInsightAgent(s1));
    var expected := s1["product_id" := "AC-987"]["description" := "Repair AC unit on rooftop"];
    assert s2.Keys == expected.Keys;
    assert forall k :: k in s2 ==> s2[k] == expected[k];
  }

  /** With product "AC-987", the knowledge step adds the manual. */
  lemma KnowledgeHit(s2: State)
    requires Get(s2, "product_id") == Some("AC-987")
    ensures Merge(s2, KnowledgeAgent(s2)) == s2["documentation" := "AC-987 Installation & Maintenance Manual"]
  {
    var doc := map["documentation" := "AC-987 Installation & Maintenance Manual"];
    assert KnowledgeAgent(s2) == doc;
    MergeOne(s2, "documentation", "AC-987 Installation & Maintenance Manual");
  }

  /** Any other work order, or none: neither later step adds anything. */
  lemma InsightMiss(s1: State)
    requires Get(s1, "work_order_id") != Some("WO-123")
    requires "product_id" !in s1
    ensures var s2 := Merge(s1, ServiceInsightAgent(s1));
            Merge(s2, KnowledgeAgent(s2)) == s1
  {
    assert ServiceInsightAgent(s1) == map[];
    assert KnowledgeAgent(s1) == map[];
  }
}
