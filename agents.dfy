/**
 * The step functions of the orchestrator pipeline. Each reads one field of
 * the state with `dict.get`, so an absent field is never an error, and
 * returns a fresh partial update; a lookup miss is the empty update.
 */
module Agents {
  import opened Wrappers
  import opened Engine

  /**
   * The scheduling step. Its implementation (agents/scheduling_agent.py) is
   * not part of this model: the work order it reports is the parameter
   * `scheduled`, and None stands for a scheduling miss (the empty update).
   */
  function SchedulingAgent(scheduled: Option<string>, state: State): (r: State)
    ensures r.Keys <= {"work_order_id"}
    ensures Get(r, "work_order_id") == scheduled
  {
    match scheduled
    case None => map[]
    case Some(w) => map["work_order_id" := w]
  }

  /**
   * `service_insight_agent`: the details of work order "WO-123", or the empty
   * update for any other work order and for a state without one. A hit
   * writes back the very work order id it read.
   */
  function ServiceInsightAgent(state: State): (r: State)
    ensures r.Keys <= {"work_order_id", "product_id", "description"}
    ensures r != map[] <==> Get(state, "work_order_id") == Some("WO-123")
    ensures r != map[] ==> r == map["work_order_id" := "WO-123", "product_id" := "AC-987",
                                    "description" := "Repair AC unit on rooftop"]
    ensures r != map[] ==> r["work_order_id"] == state["work_order_id"]
  {
    var workOrderId := Get(state, "work_order_id");
    if workOrderId == Some("WO-123") then
      var hit := map["work_order_id" := "WO-123", "product_id" := "AC-987", "description" := "Repair AC unit on rooftop"];
      assert "product_id" in hit;
      hit
    else
      map[]
  }

  /**
   * `knowledge_agent`: the manual of product "AC-987", or the empty update for
   * any other product and for a state without one.
   */
  function KnowledgeAgent(state: State): (r: State)
    ensures r.Keys <= {"documentation"}
    ensures r != map[] <==> Get(state, "product_id") == Some("AC-987")
    ensures r != map[] ==> r == map["documentation" := "AC-987 Installation & Maintenance Manual"]
  {
    var productId := Get(state, "product_id");
    if productId == Some("AC-987") then
      var hit := map["documentation" := "AC-987 Installation & Maintenance Manual"];
      assert "documentation" in hit;
      hit
    else
      map[]
  }

  /** The insight step looks at `work_order_id` only: states that agree there get the same update. */
  lemma ServiceInsightReadsOnlyWorkOrderId(s1: State, s2: State)
    requires Get(s1, "work_order_id") == Get(s2, "work_order_id")
    ensures ServiceInsightAgent(s1) == ServiceInsightAgent(s2)
  {
  }

  /** Merging the insight step's update leaves `work_order_id` as it was. */
  lemma ServiceInsightKeepsWorkOrderId(s: State)
    ensures Get(Merge(s, ServiceInsightAgent(s)), "work_order_id") == Get(s, "work_order_id")
  {
  }

  /** The knowledge step looks at `product_id` only. */
  lemma KnowledgeReadsOnlyProductId(s1: State, s2: State)
    requires Get(s1, "product_id") == Get(s2, "product_id")
    ensures KnowledgeAgent(s1) == KnowledgeAgent(s2)
  {
  }
}
