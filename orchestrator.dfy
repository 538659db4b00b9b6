/**
 * The facade: `OrchestratorAgent` builds the graph once, in its constructor,
 * and every `run` invokes that same graph on a fresh state holding the goal.
 */
module Orchestrator {
  import opened Wrappers
  import opened Engine
  import opened Agents
  import opened AgentRegistry
  import opened OrchestratorGraph

  class OrchestratorAgent {
    /** Set once, by the constructor, and shared by every run. */
    const graph: Graph<AgentId>

    ghost predicate Valid()
    {
      graph == ChainGraph()
    }

    /** `__init__`: builds the graph. */
    constructor ()
      ensures Valid()
    {
      var g := BuildGraph();
      graph := g;
    }

    /**
     * `run`: invokes the graph on `{"goal": goal}` and returns the final
     * state. The scheduling step's outcome is the parameter `scheduled`.
     * The result depends on the two arguments alone, so no key of one run
     * reaches another, and "goal" always comes back as given.
     */
    method Run(goal: string, scheduled: Option<string>) returns (finalState: State)
      requires Valid()
      ensures "goal" in finalState && finalState["goal"] == goal
      ensures scheduled == None ==> finalState == map["goal" := goal]
      ensures scheduled.Some? && scheduled.value != "WO-123" ==>
                finalState == map["goal" := goal, "work_order_id" := scheduled.value]
      ensures scheduled == Some("WO-123") ==>
                finalState == map["goal" := goal,
                                  "work_order_id" := "WO-123",
                                  "product_id" := "AC-987",
                                  "description" := "Repair AC unit on rooftop",
                                  "documentation" := "AC-987 Installation & Maintenance Manual"]
    {
      var initialState := map["goal" := goal];
      var r := Invoke(graph, Apply(scheduled), initialState, DefaultRecursionLimit);
      GoalRun(goal, scheduled);
      finalState := r.value;
    }
  }

  /** The chain's final state on `{"goal": goal}`, for each outcome of the scheduling step. */
  lemma GoalRun(goal: string, scheduled: Option<string>)
    ensures var r := Run(ChainGraph(), Apply(scheduled), Node("schedule"), map["goal" := goal], DefaultRecursionLimit);
            && r.Ok?
            && "goal" in r.value && r.value["goal"] == goal
            && (scheduled == None ==> r.value == map["goal" := goal])
            && (scheduled.Some? && scheduled.value != "WO-123" ==>
                  r.value == map["goal" := goal, "work_order_id" := scheduled.value])
            && (scheduled == Some("WO-123") ==>
                  r.value == map["goal" := goal,
                                 "work_order_id" := "WO-123",
                                 "product_id" := "AC-987",
                                 "description" := "Repair AC unit on rooftop",
                                 "documentation" := "AC-987 Installation & Maintenance Manual"])
  {
    var initialState := map["goal" := goal];
    MissPropagation(initialState, scheduled, DefaultRecursionLimit);
    AfterSchedule(goal, scheduled);
    StepsWriteDeclaredFields(scheduled);
    RunKeepsUnwrittenKey(ChainGraph(), Apply(scheduled), Node("schedule"), initialState, DefaultRecursionLimit, "goal");
  }

  /** The state after the scheduling step, and the full record a hit on "WO-123" leads to. */
  lemma AfterSchedule(goal: string, scheduled: Option<string>)
    ensures var s1 := Merge(map["goal" := goal], SchedulingAgent(scheduled, map["goal" := goal]));
            && (scheduled == None ==> s1 == map["goal" := goal])
            && (scheduled.Some? ==> s1 == map["goal" := goal, "work_order_id" := scheduled.value])
            && (scheduled == Some("WO-123") ==>
                  s1["product_id" := "AC-987"]["description" := "Repair AC unit on rooftop"]
                    ["documentation" := "AC-987 Installation & Maintenance Manual"]
                  == map["goal" := goal,
                         "work_order_id" := "WO-123",
                         "product_id" := "AC-987",
                         "description" := "Repair AC unit on rooftop",
                         "documentation" := "AC-987 Installation & Maintenance Manual"])
  {
    var initialState := map["goal" := goal];
    var s1 := Merge(initialState, SchedulingAgent(scheduled, initialState));
    match scheduled
    case None =>
      assert s1 == initialState;
    case Some(w) =>
      MergeOne(initialState, "work_order_id", w);
  }
}
