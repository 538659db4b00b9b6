/**
 * The tool-calling variant: three mock tools whose text output the nodes
 * parse with `split` and `strip`, an opaque model-backed final node, and the
 * chain scheduling -> service_insights -> knowledge_access ->
 * final_answer_llm -> END. Unlike the orchestrator's agents, these nodes
 * index the state directly, so a missing field raises KeyError.
 */
module LgMultiAgent {
  import opened Wrappers
  import opened Engine
  import opened PyStr

  // Tools

  /** `scheduling_service`: today's work order, as text. */
  function SchedulingService(): (r: string)
    ensures r == WorkOrderLine("WO-100245")
  {
    "work_order_id=WO-100245"
  }

  /** `service_insights_service`: the type and product of a work order, as text. */
  function ServiceInsightsService(workOrderId: string): (r: string)
    ensures r == InsightsLine("Critical", "PROD-77881", workOrderId)
  {
    assert "work_order_type=Critical,product_id=PROD-77881 for " ==
      "work_order_type=" + "Critical" + ",product_id=" + "PROD-77881" + " for ";
    "work_order_type=Critical,product_id=PROD-77881 for " + workOrderId
  }

  /** `knowledge_access_service`: the cleanup steps of a product. */
  function KnowledgeAccessService(productId: string): (r: string)
    ensures |productId| < |r| && r[|r| - |productId|..] == productId
  {
    "cleanup steps for " + productId
  }

  // The formats the tools write and the nodes read

  /** The scheduling tool's format. */
  function WorkOrderLine(workOrderId: string): string
  {
    "work_order_id=" + workOrderId
  }

  /** The insights tool's format. */
  function InsightsLine(workOrderType: string, productId: string, workOrderId: string): string
  {
    "work_order_type=" + workOrderType + ",product_id=" + productId + " for " + workOrderId
  }

  /** A value the insights format carries unambiguously: no whitespace, '=' or ','. */
  predicate IsToken(x: string)
  {
    forall c :: c in x ==> !IsSpace(c) && c != '=' && c != ','
  }

  /** A token has no whitespace at either end. */
  lemma TokenIsStripped(x: string)
    requires IsToken(x)
    ensures IsStripped(x)
  {
    if x != [] {
      assert x[0] in x && x[|x| - 1] in x;
    }
  }

  // Parsing

  /**
   * `out.split("=")[1].strip()`: the stripped text between the first and the
   * second '='. IndexError exactly when `out` has no '='.
   */
  function ParseWorkOrderId(out: string): (r: Result<string, Failure>)
    ensures r.Err? <==> '=' !in out
    ensures r.Err? ==> r.error == IndexError
    ensures r.Ok? ==> IsStripped(r.value)
    ensures r.Ok? ==> exists i: nat, j: nat :: SecondField(out, '=', i, j) && r.value == Strip(out[i + 1..j])
  {
    var parts := Split(out, "=");
    SplitSpec(out, "=");
    ContainsChar(out, '=');
    if |parts| < 2 then Err(IndexError)
    else
      SecondPiece(out, '=');
      Ok(Strip(parts[1]))
  }

  /** Round trip: parsing the scheduling format recovers any stripped id without '='. */
  lemma WorkOrderRoundTrip(workOrderId: string)
    requires '=' !in workOrderId && IsStripped(workOrderId)
    ensures ParseWorkOrderId(WorkOrderLine(workOrderId)) == Ok(workOrderId)
  {
    assert WorkOrderLine(workOrderId) == Join(["work_order_id", workOrderId], "=");
    SplitJoin(["work_order_id", workOrderId], '=');
  }

  /**
   * The parsing in `service_insights_node`: the text before the first " for ",
   * then its fields.
   */
  function ParseInsights(out: string): (r: Result<(string, string), Failure>)
    ensures r.Err? ==> r.error == IndexError
    ensures r.Ok? ==> IsStripped(r.value.0) && IsStripped(r.value.1)
  {
    ParseFields(Split(out, " for ")[0])
  }

  /**
   * The text cut at ',', each of the first two pieces cut at '=' and its
   * second part stripped. IndexError when a piece is missing.
   */
  function ParseFields(left: string): (r: Result<(string, string), Failure>)
    ensures r.Err? ==> r.error == IndexError
    ensures r.Ok? ==> IsStripped(r.value.0) && IsStripped(r.value.1)
  {
    var parts := Split(left, ",");
    var typeFields := Split(parts[0], "=");
    if |typeFields| < 2 then Err(IndexError)
    else if |parts| < 2 then Err(IndexError)
    else
      var productFields := Split(parts[1], "=");
      if |productFields| < 2 then Err(IndexError)
      else Ok((Strip(typeFields[1]), Strip(productFields[1])))
  }

  /**
   * Round trip: parsing the insights format recovers the work order type and
   * the product id, whatever work order id follows " for ".
   */
  lemma InsightsRoundTrip(workOrderType: string, productId: string, workOrderId: string)
    requires IsToken(workOrderType) && IsToken(productId)
    ensures ParseInsights(InsightsLine(workOrderType, productId, workOrderId)) == Ok((workOrderType, productId))
  {
    var left := "work_order_type=" + workOrderType + "," + "product_id=" + productId;
    InsightsHead(workOrderType, productId, workOrderId);
    FieldsRoundTrip(left, workOrderType, productId);
  }

  /** The text before the first " for " of the insights format: its two fields. */
  lemma InsightsHead(workOrderType: string, productId: string, workOrderId: string)
    requires IsToken(workOrderType) && IsToken(productId)
    ensures Split(InsightsLine(workOrderType, productId, workOrderId), " for ")[0]
              == "work_order_type=" + workOrderType + "," + "product_id=" + productId
  {
    var left := "work_order_type=" + workOrderType + "," + "product_id=" + productId;
    assert InsightsLine(workOrderType, productId, workOrderId) == left + " for " + workOrderId;
    assert ' ' !in left by {
      assert IsSpace(' ');
      assert ' ' !in "work_order_type=" && ' ' !in "," && ' ' !in "product_id=";
    }
    SplitHead(left, " for ", workOrderId);
  }

  /** The comma and equals splitting of the insights format, on the text before " for ". */
  lemma FieldsRoundTrip(left: string, workOrderType: string, productId: string)
    requires IsToken(workOrderType) && IsToken(productId)
    requires left == "work_order_type=" + workOrderType + "," + "product_id=" + productId
    ensures ParseFields(left) == Ok((workOrderType, productId))
  {
    var typeKey, productKey := "work_order_type", "product_id";
    var typeField, productField := typeKey + "=" + workOrderType, productKey + "=" + productId;
    assert left == typeField + [','] + productField;
    assert ',' !in typeKey && ',' !in productKey && '=' !in typeKey && '=' !in productKey;
    PairRoundTrip(typeField, productField, ',');
    PairRoundTrip(typeKey, workOrderType, '=');
    PairRoundTrip(productKey, productId, '=');
    TokenIsStripped(workOrderType);
    TokenIsStripped(productId);
  }

  /** Splitting `a` joined to `b` by a character neither contains gives back `a` and `b`. */
  lemma PairRoundTrip(a: string, b: string, c: char)
    requires c !in a && c !in b
    ensures Split(a + [c] + b, [c]) == [a, b]
  {
    assert [a, b][1..] == [b];
    assert a + [c] + b == Join([a, b], [c]);
    SplitJoin([a, b], c);
  }

  /**
   * The format is ambiguous when a product id ends in " for": "X for" comes
   * back as "X", the text before the first " for ".
   */
  lemma ProductIdEndingInFor(workOrderId: string)
    ensures ParseInsights(InsightsLine("Critical", "X for", workOrderId)) == Ok(("Critical", "X"))
  {
    assert InsightsLine("Critical", "X for", workOrderId) == InsightsLine("Critical", "X", "for " + workOrderId);
    InsightsRoundTrip("Critical", "X", "for " + workOrderId);
  }

  // Graph state and nodes

  /** The fields of `AgentState`. */
  const AgentStateFields: set<string> :=
    {"user_question", "work_order_id", "work_order_type", "product_id", "cleanup_steps", "final_answer"}

  /** The nodes of the graph. */
  datatype NodeId = Scheduling | ServiceInsights | KnowledgeAccess | FinalAnswerLlm

  /** `scheduling_node`: always today's work order from the scheduling tool. */
  function SchedulingNode(state: State): (r: StepResult)
    ensures r == Ok(map["work_order_id" := "WO-100245"])
  {
    WorkOrderRoundTrip("WO-100245");
    match ParseWorkOrderId(SchedulingService())
    case Err(f) => Err(f)
    case Ok(w) => Ok(map["work_order_id" := w])
  }

  /**
   * `service_insights_node`: KeyError without a work order; otherwise the
   * type and product the insights tool reports, for every work order id.
   */
  function ServiceInsightsNode(state: State): (r: StepResult)
    ensures r.Err? <==> "work_order_id" !in state
    ensures r.Err? ==> r.error == KeyError("work_order_id")
    ensures r.Ok? ==> r.value == map["work_order_type" := "Critical", "product_id" := "PROD-77881"]
  {
    if "work_order_id" !in state then Err(KeyError("work_order_id"))
    else
      var workOrderId := state["work_order_id"];
      InsightsRoundTrip("Critical", "PROD-77881", workOrderId);
      match ParseInsights(ServiceInsightsService(workOrderId))
      case Err(f) => Err(f)
      case Ok(fields) => Ok(map["work_order_type" := fields.0, "product_id" := fields.1])
  }

  /** `knowledge_access_node`: KeyError without a product; otherwise the tool's cleanup steps. */
  function KnowledgeAccessNode(state: State): (r: StepResult)
    ensures r.Err? <==> "product_id" !in state
    ensures r.Err? ==> r.error == KeyError("product_id")
    ensures r.Ok? ==> r.value.Keys == {"cleanup_steps"}
    ensures r.Ok? ==> r.value["cleanup_steps"] == "cleanup steps for " + state["product_id"]
  {
    if "product_id" !in state then Err(KeyError("product_id"))
    else Ok(map["cleanup_steps" := KnowledgeAccessService(state["product_id"])])
  }

  /** The fields the final node's prompt reads, in the order it reads them. */
  const LlmInputs: seq<string> := ["user_question", "work_order_id", "work_order_type", "product_id", "cleanup_steps"]

  /** The first of `keys` that `state` lacks. */
  function FirstMissing(state: State, keys: seq<string>): (r: Option<string>)
    ensures r.None? <==> forall i :: 0 <= i < |keys| ==> keys[i] in state
    ensures r.Some? ==> r.value in keys && r.value !in state
    ensures r.Some? ==> exists i: nat :: FirstMissingAt(state, keys, i) && keys[i] == r.value
  {
    if keys == [] then None
    else if keys[0] !in state then
      assert FirstMissingAt(state, keys, 0);
      Some(keys[0])
    else
      var r := FirstMissing(state, keys[1..]);
      assert forall i: nat :: FirstMissingAt(state, keys[1..], i) ==> FirstMissingAt(state, keys, i + 1);
      r
  }

  /** `keys[i]` is absent from `state` and every key before it is present. */
  predicate FirstMissingAt(state: State, keys: seq<string>, i: nat)
  {
    i < |keys| && keys[i] !in state && forall j :: 0 <= j < i ==> keys[j] in state
  }

  /**
   * `llm_final_answer_node`, opaque: it reads its five inputs (KeyError on
   * the first missing one) and writes the model's reply, the parameter
   * `answer`, as the only field "final_answer".
   */
  function FinalAnswerNode(answer: string, state: State): (r: StepResult)
    ensures r.Ok? <==> forall i :: 0 <= i < |LlmInputs| ==> LlmInputs[i] in state
    ensures r.Err? ==> r.error.KeyError? && r.error.key in LlmInputs && r.error.key !in state
    ensures r.Err? ==> exists i: nat :: FirstMissingAt(state, LlmInputs, i) && r.error == KeyError(LlmInputs[i])
    ensures r.Ok? ==> r.value == map["final_answer" := answer]
  {
    match FirstMissing(state, LlmInputs)
    case Some(k) => Err(KeyError(k))
    case None => Ok(map["final_answer" := answer])
  }

  /** Running the node `id`. */
  function RunNode(answer: string, id: NodeId, s: State): StepResult
  {
    match id
    case Scheduling => SchedulingNode(s)
    case ServiceInsights => ServiceInsightsNode(s)
    case KnowledgeAccess => KnowledgeAccessNode(s)
    case FinalAnswerLlm => FinalAnswerNode(answer, s)
  }

  /** The step the executor runs for a node. */
  function Step(answer: string): (NodeId, State) -> StepResult
  {
    (id: NodeId, s: State) => RunNode(answer, id, s)
  }

  /** The fields node `id` indexes. */
  function Reads(id: NodeId): set<string>
  {
    match id
    case Scheduling => {}
    case ServiceInsights => {"work_order_id"}
    case KnowledgeAccess => {"product_id"}
    case FinalAnswerLlm => set k | k in LlmInputs
  }

  /** The fields node `id` returns. */
  function Writes(id: NodeId): set<string>
  {
    match id
    case Scheduling => {"work_order_id"}
    case ServiceInsights => {"work_order_type", "product_id"}
    case KnowledgeAccess => {"cleanup_steps"}
    case FinalAnswerLlm => {"final_answer"}
  }

  /**
   * Each node succeeds exactly when the fields it reads are present, and then
   * returns exactly the fields it writes: declared fields, disjoint from the
   * fields any other node writes.
   */
  lemma NodeContract(answer: string, id: NodeId, s: State)
    ensures RunNode(answer, id, s).Ok? <==> Reads(id) <= s.Keys
    ensures RunNode(answer, id, s).Ok? ==> RunNode(answer, id, s).value.Keys == Writes(id)
    ensures Writes(id) <= AgentStateFields
    ensures forall other: NodeId :: other != id ==> Writes(other) !! Writes(id)
  {
    WritesDisjoint(id);
    match id
    case Scheduling => SchedulingNodeContract(s);
    case ServiceInsights => ServiceInsightsNodeContract(s);
    case KnowledgeAccess =>
    case FinalAnswerLlm => FinalAnswerNodeContract(answer, s);
  }

  /** Every node writes declared fields only, and no two nodes write the same field. */
  lemma WritesDisjoint(id: NodeId)
    ensures Writes(id) <= AgentStateFields
    ensures forall other: NodeId :: other != id ==> Writes(other) !! Writes(id)
  {
  }

  /** The scheduling node never raises, and writes only the work order. */
  lemma SchedulingNodeContract(s: State)
    ensures SchedulingNode(s).Ok? && SchedulingNode(s).value.Keys == {"work_order_id"}
  {
  }

  /** The insights node succeeds exactly when the work order is present, and writes the type and the product. */
  lemma ServiceInsightsNodeContract(s: State)
    ensures ServiceInsightsNode(s).Ok? <==> {"work_order_id"} <= s.Keys
    ensures ServiceInsightsNode(s).Ok? ==> ServiceInsightsNode(s).value.Keys == {"work_order_type", "product_id"}
  {
  }

  /** The final node succeeds exactly when its five inputs are present, and writes only the answer. */
  lemma FinalAnswerNodeContract(answer: string, s: State)
    ensures FinalAnswerNode(answer, s).Ok? <==> Reads(FinalAnswerLlm) <= s.Keys
    ensures FinalAnswerNode(answer, s).Ok? ==> FinalAnswerNode(answer, s).value.Keys == {"final_answer"}
  {
    assert LlmInputs[0] == "user_question" && LlmInputs[1] == "work_order_id" && LlmInputs[2] == "work_order_type";
    assert LlmInputs[3] == "product_id" && LlmInputs[4] == "cleanup_steps";
  }

  // Graph

  /** The graph `build_graph` declares. */
  function ChainGraph(): Graph<NodeId>
  {
    Graph(map["scheduling" := Scheduling, "service_insights" := ServiceInsights,
              "knowledge_access" := KnowledgeAccess, "final_answer_llm" := FinalAnswerLlm],
          "scheduling",
          [("scheduling", Node("service_insights")),
           ("service_insights", Node("knowledge_access")),
           ("knowledge_access", Node("final_answer_llm")),
           ("final_answer_llm", End)])
  }

  /** `build_graph`: four nodes, the entry point and four edges on a builder, then compiled. */
  method BuildGraph() returns (g: Graph<NodeId>)
    ensures g == ChainGraph()
  {
    var graph := new StateGraph<NodeId>();
    graph.AddNode("scheduling", Scheduling);
    graph.AddNode("service_insights", ServiceInsights);
    graph.AddNode("knowledge_access", KnowledgeAccess);
    graph.AddNode("final_answer_llm", FinalAnswerLlm);
    graph.SetEntryPoint("scheduling");
    graph.AddEdge("scheduling", Node("service_insights"));
    graph.AddEdge("service_insights", Node("knowledge_access"));
    graph.AddEdge("knowledge_access", Node("final_answer_llm"));
    graph.AddEdge("final_answer_llm", End);
    g := graph.Compile();
  }

  /** The declared graph is a chain entered at "scheduling": one edge out of each node, all endpoints declared. */
  lemma ChainGraphIsChain()
    ensures IsChain(ChainGraph())
  {
    var g := ChainGraph();
    forall i | 0 <= i < |g.edges|
      ensures g.edges[i].0 in g.nodes
      ensures g.edges[i].1.Node? ==> g.edges[i].1.name in g.nodes
    {
    }
    OneEdgeEach();
  }

  /** One edge leaves each declared node. */
  lemma OneEdgeEach()
    ensures forall n :: n in ChainGraph().nodes ==> OutDegree(ChainGraph().edges, n) == 1
  {
    var edges := ChainGraph().edges;
    forall n | n in ChainGraph().nodes
      ensures OutDegree(edges, n) == 1
    {
      assert n == "scheduling" || n == "service_insights" || n == "knowledge_access" || n == "final_answer_llm";
      assert OutDegree(edges, "scheduling") == 1;
      assert OutDegree(edges, "service_insights") == 1;
      assert OutDegree(edges, "knowledge_access") == 1;
      assert OutDegree(edges, "final_answer_llm") == 1;
    }
  }

  /**
   * The walk from the entry visits the four nodes in declaration order and
   * reaches END after four steps.
   */
  lemma ChainPath(fuel: nat)
    requires fuel >= 4
    ensures Path(ChainGraph(), Node("scheduling"), fuel)
              == Some(["scheduling", "service_insights", "knowledge_access", "final_answer_llm"])
  {
    var g := ChainGraph();
    assert "scheduling" in g.nodes && "service_insights" in g.nodes;
    assert "knowledge_access" in g.nodes && "final_answer_llm" in g.nodes;
    assert Successor(g.edges, "scheduling") == Node("service_insights");
    assert Successor(g.edges, "service_insights") == Node("knowledge_access");
    assert Successor(g.edges, "knowledge_access") == Node("final_answer_llm");
    assert Successor(g.edges, "final_answer_llm") == End;
    PathTail(fuel);
    assert ["scheduling"] + ["service_insights", "knowledge_access", "final_answer_llm"]
        == ["scheduling", "service_insights", "knowledge_access", "final_answer_llm"];
  }

  /** From the second node on, the walk visits the last three nodes in order and ends. */
  lemma PathTail(fuel: nat)
    requires fuel >= 4
    ensures Path(ChainGraph(), Node("service_insights"), fuel - 1)
              == Some(["service_insights", "knowledge_access", "final_answer_llm"])
  {
    var g := ChainGraph();
    assert "service_insights" in g.nodes && "knowledge_access" in g.nodes && "final_answer_llm" in g.nodes;
    assert Successor(g.edges, "service_insights") == Node("knowledge_access");
    assert Successor(g.edges, "knowledge_access") == Node("final_answer_llm");
    assert Successor(g.edges, "final_answer_llm") == End;
    assert Path(g, End, fuel - 4) == Some([]);
    assert ["final_answer_llm"] + [] == ["final_answer_llm"];
    assert Path(g, Node("final_answer_llm"), fuel - 3) == Some(["final_answer_llm"]);
    assert ["knowledge_access"] + ["final_answer_llm"] == ["knowledge_access", "final_answer_llm"];
    assert Path(g, Node("knowledge_access"), fuel - 2) == Some(["knowledge_access", "final_answer_llm"]);
    assert ["service_insights"] + ["knowledge_access", "final_answer_llm"]
        == ["service_insights", "knowledge_access", "final_answer_llm"];
  }

  /** The state the final node receives: the input plus the three tools' results. */
  function ToolResults(init: State): State
  {
    init["work_order_id" := "WO-100245"]["work_order_type" := "Critical"]["product_id" := "PROD-77881"]
        ["cleanup_steps" := "cleanup steps for PROD-77881"]
  }

  /**
   * Every field a node reads is written by an earlier node, except
   * "user_question", which only the input can supply: the run succeeds
   * exactly when the input has it, and otherwise the final node raises
   * KeyError on it. A successful run ends with the tool results and the
   * model's reply merged over the input.
   */
  lemma RunOutcome(init: State, answer: string, limit: nat)
    requires limit >= 4
    ensures var r := Run(ChainGraph(), Step(answer), Node("scheduling"), init, limit);
            && (r.Ok? <==> "user_question" in init)
            && (r.Err? ==> r.error == KeyError("user_question"))
            && (r.Ok? ==> r.value == ToolResults(init)["final_answer" := answer])
  {
    ToolNodeResults(answer);
    FinalNodeResult(answer);
    ChainOutcome(Step(answer), answer, init, limit);
  }

  /** What the model-backed node returns once the tool fields are present. */
  lemma FinalNodeResult(answer: string)
    ensures forall s :: "user_question" !in s ==> Step(answer)(FinalAnswerLlm, s) == Err(KeyError("user_question"))
    ensures forall s :: "user_question" in s && "work_order_id" in s && "work_order_type" in s
                        && "product_id" in s && "cleanup_steps" in s ==>
              Step(answer)(FinalAnswerLlm, s) == Ok(map["final_answer" := answer])
  {
    forall s | "user_question" in s && "work_order_id" in s && "work_order_type" in s
               && "product_id" in s && "cleanup_steps" in s
      ensures Step(answer)(FinalAnswerLlm, s) == Ok(map["final_answer" := answer])
    {
      assert forall i :: 0 <= i < |LlmInputs| ==> LlmInputs[i] in s;
    }
  }

  /**
   * The run's outcome for any step function that returns what the four
   * nodes return.
   */
  lemma ChainOutcome(apply: (NodeId, State) -> StepResult, answer: string, init: State, limit: nat)
    requires limit >= 4
    requires forall s :: apply(Scheduling, s) == Ok(map["work_order_id" := "WO-100245"])
    requires forall s :: "work_order_id" in s ==>
               apply(ServiceInsights, s) == Ok(map["work_order_type" := "Critical", "product_id" := "PROD-77881"])
    requires forall s :: Get(s, "product_id") == Some("PROD-77881") ==>
               apply(KnowledgeAccess, s) == Ok(map["cleanup_steps" := "cleanup steps for PROD-77881"])
    requires forall s :: "user_question" !in s ==> apply(FinalAnswerLlm, s) == Err(KeyError("user_question"))
    requires forall s :: "user_question" in s && "work_order_id" in s && "work_order_type" in s
                         && "product_id" in s && "cleanup_steps" in s ==>
               apply(FinalAnswerLlm, s) == Ok(map["final_answer" := answer])
    ensures var r := Run(ChainGraph(), apply, Node("scheduling"), init, limit);
            && (r.Ok? <==> "user_question" in init)
            && (r.Err? ==> r.error == KeyError("user_question"))
            && (r.Ok? ==> r.value == ToolResults(init)["final_answer" := answer])
  {
    var p := ["scheduling", "service_insights", "knowledge_access", "final_answer_llm"];
    RunIsChainFold(apply, init, limit);
    ToolFold(apply, init);
    assert p[1..][1..][1..] == ["final_answer_llm"];
    var s3 := ToolResults(init);
    assert "user_question" in s3 <==> "user_question" in init;
    FinalFold(apply, answer, s3);
  }

  /** Within four steps the run is the fold along the whole chain. */
  lemma RunIsChainFold(apply: (NodeId, State) -> StepResult, init: State, limit: nat)
    requires limit >= 4
    ensures Run(ChainGraph(), apply, Node("scheduling"), init, limit)
              == Fold(ChainGraph(), apply, ["scheduling", "service_insights", "knowledge_access", "final_answer_llm"], init)
  {
    ChainPath(limit);
    RunFollowsPath(ChainGraph(), apply, Node("scheduling"), init, limit);
  }

  /** The last step of the chain, for a step function that behaves as the model-backed node. */
  lemma FinalFold(apply: (NodeId, State) -> StepResult, answer: string, s: State)
    requires forall s :: "user_question" !in s ==> apply(FinalAnswerLlm, s) == Err(KeyError("user_question"))
    requires forall s :: "user_question" in s && "work_order_id" in s && "work_order_type" in s
                         && "product_id" in s && "cleanup_steps" in s ==>
               apply(FinalAnswerLlm, s) == Ok(map["final_answer" := answer])
    requires "work_order_id" in s && "work_order_type" in s && "product_id" in s && "cleanup_steps" in s
    ensures var r := Fold(ChainGraph(), apply, ["final_answer_llm"], s);
            && (r.Ok? <==> "user_question" in s)
            && (r.Err? ==> r.error == KeyError("user_question"))
            && (r.Ok? ==> r.value == s["final_answer" := answer])
  {
    FoldLast(ChainGraph(), apply, "final_answer_llm", s);
    MergeOne(s, "final_answer", answer);
  }

  /** What the three tool-backed nodes return, on any state that has the field they index. */
  lemma ToolNodeResults(answer: string)
    ensures forall s :: Step(answer)(Scheduling, s) == Ok(map["work_order_id" := "WO-100245"])
    ensures forall s :: "work_order_id" in s ==>
              Step(answer)(ServiceInsights, s) == Ok(map["work_order_type" := "Critical", "product_id" := "PROD-77881"])
    ensures forall s :: Get(s, "product_id") == Some("PROD-77881") ==>
              Step(answer)(KnowledgeAccess, s) == Ok(map["cleanup_steps" := "cleanup steps for PROD-77881"])
  {
    assert KnowledgeAccessService("PROD-77881") == "cleanup steps for PROD-77881";
  }

  /**
   * The fold over the chain's first three nodes, for any step function that
   * returns what the tool-backed nodes return.
   */
  lemma ToolFold(apply: (NodeId, State) -> StepResult, init: State)
    requires forall s :: apply(Scheduling, s) == Ok(map["work_order_id" := "WO-100245"])
    requires forall s :: "work_order_id" in s ==>
               apply(ServiceInsights, s) == Ok(map["work_order_type" := "Critical", "product_id" := "PROD-77881"])
    requires forall s :: Get(s, "product_id") == Some("PROD-77881") ==>
               apply(KnowledgeAccess, s) == Ok(map["cleanup_steps" := "cleanup steps for PROD-77881"])
    ensures var p := ["scheduling", "service_insights", "knowledge_access", "final_answer_llm"];
            Fold(ChainGraph(), apply, p, init) == Fold(ChainGraph(), apply, p[1..][1..][1..], ToolResults(init))
  {
    var g := ChainGraph();
    var p := ["scheduling", "service_insights", "knowledge_access", "final_answer_llm"];
    var u1 := map["work_order_id" := "WO-100245"];
    var u2 := map["work_order_type" := "Critical", "product_id" := "PROD-77881"];
    var u3 := map["cleanup_steps" := "cleanup steps for PROD-77881"];
    var s1 := Merge(init, u1);
    var s2 := Merge(s1, u2);
    FoldCons(g, apply, p, init, u1);
    FoldCons(g, apply, p[1..], s1, u2);
    FoldCons(g, apply, p[1..][1..], s2, u3);
    ToolMerges(init);
  }

  /** Merging the three tool updates in chain order gives `ToolResults`. */
  lemma ToolMerges(init: State)
    ensures Merge(Merge(Merge(init, map["work_order_id" := "WO-100245"]),
                        map["work_order_type" := "Critical", "product_id" := "PROD-77881"]),
                  map["cleanup_steps" := "cleanup steps for PROD-77881"])
            == ToolResults(init)
  {
    var s1 := init["work_order_id" := "WO-100245"];
    MergeOne(init, "work_order_id", "WO-100245");
    MergeTwo(s1, "work_order_type", "Critical", "product_id", "PROD-77881");
    MergeOne(s1["work_order_type" := "Critical"]["product_id" := "PROD-77881"], "cleanup_steps", "cleanup steps for PROD-77881");
  }

  /**
   * `main` without its printing: build the graph, invoke it on the question,
   * and return the final state, whose "final_answer" is the model's reply.
   */
  method AnswerQuestion(question: string, answer: string) returns (result: StepResult)
    ensures result == Ok(map["user_question" := question,
                             "work_order_id" := "WO-100245",
                             "work_order_type" := "Critical",
                             "product_id" := "PROD-77881",
                             "cleanup_steps" := "cleanup steps for PROD-77881",
                             "final_answer" := answer])
    ensures result.value["final_answer"] == answer
  {
    var app := BuildGraph();
    result := Invoke(app, Step(answer), map["user_question" := question], DefaultRecursionLimit);
    RunOutcome(map["user_question" := question], answer, DefaultRecursionLimit);
  }
}
