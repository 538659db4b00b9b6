# Multi-agent work-order pipeline, modelled in Dafny

This project models a small multi-agent system for field service. A fixed chain
of "agent" steps runs over a state. The state is a map from field names to
strings. Each step reads the accumulated state and returns a partial update.
The executor (LangGraph's `StateGraph`) merges each update into the state key
by key, the new value overwriting the old, and moves on to the next node until
it reaches END.

The repository has two variants of this design, and both are modelled.

- **The orchestrator pipeline.** It has three parts:
  - the agents `service_insight_agent` and `knowledge_agent`: lookups that return `{}` on a miss;
  - the static registry `get_registered_agents`;
  - `build_graph`, which declares the chain schedule → service_insight → knowledge → END, and the `OrchestratorAgent` facade, which builds the graph once and runs it on `{"goal": goal}`.
- **The tool-calling variant** (`lg-multi-agent.py`). It has three parts:
  - three mock tools that return text;
  - nodes that parse that text with Python's `split` and `strip`;
  - an opaque model-backed final node, and the chain scheduling → service_insights → knowledge_access → final_answer_llm → END.

Modules:

- `Wrappers`: `Option` and `Result`.
- `Engine`: the executor, stated abstractly.
  - `State`, `Merge`, and the `StateGraph` builder class with its `Compile`.
  - The specification functions `Successor`, `Path`, `Run` and `Fold`.
  - The `Invoke` loop, proved equal to `Run`.
  - Lemmas about key preservation.
- `PyStr`: Python's `str.find`, `str.split`, `str.join` and `str.strip`, with their defining properties.
- `Agents`, `AgentRegistry`, `OrchestratorGraph`, `Orchestrator`: the orchestrator pipeline.
- `LgMultiAgent`: the tool-calling variant.

Some inputs are outside what the code shows. Each becomes a parameter:

- `scheduled: Option<string>`: the work order id that the scheduling agent writes, or `None` when it writes nothing. That agent's source is not shown.
- `answer`: the language model's reply in the final node.

## Model

| member | source | states |
|---|---|---|
| Engine.Get | agents/service_insight_agent.py:5 | `dict.get` returns the value exactly when the key is present, and `None` otherwise |
| Engine.Merge | orchestrator/graph.py:6-12 | With no reducers, merging an update keeps every key. The update's keys take the update's values, all other keys keep theirs, and an empty update changes nothing |
| Engine.MergeOne | orchestrator/graph.py:6-12 | Merging a one-field update sets exactly that field |
| Engine.MergeTwo | orchestrator/graph.py:6-12 | Merging a two-field update sets exactly those fields |
| Engine.StateGraph.constructor | orchestrator/graph.py:18 | A fresh builder has no nodes, no entry point and no edges |
| Engine.StateGraph.AddNode | orchestrator/graph.py:20-22 | `add_node` binds the name to the step and changes nothing else |
| Engine.StateGraph.SetEntryPoint | orchestrator/graph.py:24 | `set_entry_point` records the entry and changes nothing else |
| Engine.StateGraph.AddEdge | orchestrator/graph.py:25-27 | `add_edge` appends the edge, in declaration order, and changes nothing else |
| Engine.StateGraph.Compile | orchestrator/graph.py:29 | The compiled graph carries exactly the declared nodes, entry and edges. An entry point is required |
| Engine.OutDegree | orchestrator/graph.py:25-27 | The number of edges out of a node is zero exactly when no edge leaves it |
| Engine.SuccessorIsFirstEdge | orchestrator/graph.py:25-27 | The next node is the target of the first edge declared out of the node. A node with no edge is followed by END |
| Engine.Run | orchestrator/orchestrator.py:16 | A run fails only with the recursion limit, with an undeclared node, or with a failure that a declared node's step returns |
| Engine.Path | orchestrator/graph.py:24-27 | The walk from a node within a step budget visits only declared nodes and takes no more steps than the budget |
| Engine.FoldCons | orchestrator/graph.py:25-27 | A successful step's update is merged before the rest of the chain runs |
| Engine.FoldLast | orchestrator/graph.py:27 | The last node's failure ends the run, and its success is merged into the final state |
| Engine.Invoke | orchestrator/orchestrator.py:16 | `graph.invoke` walks from the entry and merges each step's update. It stops at END or on the first failure, and a walk over the step budget fails with a recursion-limit error. The loop computes `Run` exactly |
| Engine.RunFollowsPath | orchestrator/graph.py:24-27 | When the walk reaches END within the budget, the run is the fold of the steps along that walk |
| Engine.RunKeepsKeys | orchestrator/graph.py:6-12 | A successful run never removes a key of its input |
| Engine.RunKeepsUnwrittenKey | orchestrator/orchestrator.py:12-17 | A key that no step writes comes back from a successful run with its input value |
| PyStr.FindFrom | lg-multi-agent.py:63 | The first occurrence of the separator at or after a position, or none at all |
| PyStr.Find | lg-multi-agent.py:63 | The first occurrence of the separator, or none anywhere |
| PyStr.ContainsChar | lg-multi-agent.py:54 | Containing a one-character separator is membership of that character |
| PyStr.PrefixFree | lg-multi-agent.py:63 | The text before the first occurrence does not contain the separator |
| PyStr.Split | lg-multi-agent.py:63-64 | `str.split(sep)` returns at least one piece |
| PyStr.SplitSpec | lg-multi-agent.py:63-64 | `split` returns one piece exactly when the separator is absent. Joining the pieces with the separator gives back the text, and no piece contains the separator. The cuts are leftmost and non-overlapping: in the text from any piece on, the first occurrence of the separator ends that piece |
| PyStr.SplitJoinBack | lg-multi-agent.py:63-64 | Joining the pieces of a split with the separator gives back the text. No piece contains the separator, and there is one piece exactly when the separator is absent |
| PyStr.SplitLeftmost | lg-multi-agent.py:63-64 | Every cut is at the leftmost occurrence: in the text from any piece but the last on, the first occurrence of the separator begins right after that piece |
| PyStr.FindChar | lg-multi-agent.py:54 | For a one-character separator, the first occurrence is the index of the first such character, and there is none exactly when the character is absent |
| PyStr.SplitFirstPiece | lg-multi-agent.py:54 | The first piece of a split at one character is the text up to the first occurrence of that character, or all of the text |
| PyStr.SecondPiece | lg-multi-agent.py:54 | The second piece of a split at one character is the text between the first occurrence of that character and the next one, or the end |
| PyStr.SplitAtOccurrence | lg-multi-agent.py:63 | The text is the part before an occurrence, then the separator, then the rest |
| PyStr.JoinCons | lg-multi-agent.py:63-64 | Joining a head and a non-empty tail puts one separator between them |
| PyStr.SplitJoin | lg-multi-agent.py:64 | Splitting a join by a character that no piece contains gives back the pieces |
| PyStr.SplitHead | lg-multi-agent.py:63 | When the text before a separator lacks the separator's first character, that text is the first piece |
| PyStr.StripStart | lg-multi-agent.py:54 | Leading whitespace is removed: the result is a suffix, the removed characters are all whitespace, and the result starts with a non-space |
| PyStr.StripEnd | lg-multi-agent.py:54 | Trailing whitespace is removed: the result is a prefix, the removed characters are all whitespace, and the result ends with a non-space |
| PyStr.Strip | lg-multi-agent.py:66-67 | `strip` returns a slice of its input with no whitespace at either end, and everything it removes is whitespace. Already-stripped text is unchanged |
| PyStr.StripSlice | lg-multi-agent.py:66-67 | Removing the leading and then the trailing whitespace leaves the slice after the leading whitespace, with only whitespace after it |
| PyStr.StripEmpty | lg-multi-agent.py:66-67 | `strip` returns the empty string exactly when the input is all whitespace, the empty input included |
| PyStr.SliceOfSuffix | lg-multi-agent.py:66-67 | A prefix of a suffix of the text is the middle slice between the two positions |
| PyStr.StripPadding | lg-multi-agent.py:66-67 | Stripping whitespace padding around stripped, non-empty text gives back that text |
| PyStr.StripStartPadding | lg-multi-agent.py:66-67 | Stripping the start removes exactly a whitespace prefix before a non-space |
| PyStr.StripEndPadding | lg-multi-agent.py:66-67 | Stripping the end removes exactly a whitespace suffix after a non-space |
| Agents.SchedulingAgent | registry/agent_registry.py:3 | The scheduling step writes at most `work_order_id`, holding the scheduled id when there is one |
| Agents.ServiceInsightAgent | agents/service_insight_agent.py:1-14 | The update is non-empty exactly when `work_order_id` is "WO-123", and it is then the fixed record. Otherwise it is `{}`, including when the key is absent, with no failure. Its keys are within {work_order_id, product_id, description}, and it writes back the id it read |
| Agents.KnowledgeAgent | agents/knowledge_agent.py:1-12 | The update is non-empty exactly when `product_id` is "AC-987", and it is then the manual's documentation. Otherwise it is `{}`, including when the key is absent. Its keys are within {documentation} |
| Agents.ServiceInsightReadsOnlyWorkOrderId | agents/service_insight_agent.py:5-14 | Two states that agree on `work_order_id` get the same update |
| Agents.ServiceInsightKeepsWorkOrderId | agents/service_insight_agent.py:7-9 | Merging the update never changes `work_order_id` |
| Agents.KnowledgeReadsOnlyProductId | agents/knowledge_agent.py:5-12 | Two states that agree on `product_id` get the same update |
| AgentRegistry.GetRegisteredAgents | registry/agent_registry.py:8-17 | Exactly three names are registered: "scheduling", "service_insight" and "knowledge". Each is bound to its own distinct step function |
| AgentRegistry.RegisteredNamesResolve | registry/agent_registry.py:13-17 | Calling the step registered under each name runs that name's agent |
| OrchestratorGraph.BuildGraph | orchestrator/graph.py:15-29 | The builder's calls produce the chain graph. Its nodes are exactly schedule, service_insight and knowledge, each bound to its registry entry, with "schedule" bound to "scheduling" |
| OrchestratorGraph.ChainGraphIsChain | orchestrator/graph.py:20-27 | The entry is "schedule" and the nodes are the three declared names. Each node has exactly one outgoing edge, and every edge ends in a declared node or END |
| OrchestratorGraph.ChainPath | orchestrator/graph.py:24-27 | With a budget of at least three steps, the walk is schedule, service_insight, knowledge and then END. With fewer steps it does not reach END |
| OrchestratorGraph.StepsWriteDeclaredFields | orchestrator/graph.py:6-12 | Every step succeeds, writes only declared `AgentState` fields and never writes "goal" |
| OrchestratorGraph.ChainRun | orchestrator/graph.py:25-27 | A run is the three agents' updates merged in chain order |
| OrchestratorGraph.InsightHit | agents/service_insight_agent.py:7-12 | After a hit on "WO-123", the insight and knowledge steps add the product, the description and the manual |
| OrchestratorGraph.InsightRecordMerge | agents/service_insight_agent.py:7-12 | Merging the insight record over a state that holds "WO-123" adds only the product and the description |
| OrchestratorGraph.KnowledgeHit | agents/knowledge_agent.py:7-10 | With product "AC-987", the knowledge step adds only the manual |
| OrchestratorGraph.InsightMiss | agents/service_insight_agent.py:14 | After a miss, the state is unchanged and the knowledge step finds no product |
| OrchestratorGraph.MissPropagation | orchestrator/graph.py:25-27 | Starting without product, description or documentation, the run always succeeds. Documentation appears exactly when the scheduled work order is "WO-123". Otherwise the final state is the state after scheduling, with no product_id, description or documentation |
| Orchestrator.OrchestratorAgent.constructor | orchestrator/orchestrator.py:5-6 | The constructor builds the chain graph once and keeps it in an immutable field |
| Orchestrator.OrchestratorAgent.Run | orchestrator/orchestrator.py:8-17 | `run` starts from `{"goal": goal}`. Its final state depends only on the goal and the scheduled id and always has the goal unchanged. It is the goal alone, the goal and the work order, or the full five-field record for "WO-123" |
| Orchestrator.GoalRun | orchestrator/orchestrator.py:12-17 | The chain run on `{"goal": goal}` never fails and keeps the goal. Its final state is given for each scheduling outcome |
| Orchestrator.AfterSchedule | orchestrator/orchestrator.py:12-16 | After the scheduling step the state is the goal plus the scheduled work order, if any |
| LgMultiAgent.TokenIsStripped | lg-multi-agent.py:66-67 | A value with no whitespace is unchanged by `strip` |
| LgMultiAgent.SchedulingService | lg-multi-agent.py:15-18 | The scheduling tool prints work order WO-100245 in the `work_order_id=` format that the scheduling node parses |
| LgMultiAgent.ServiceInsightsService | lg-multi-agent.py:21-24 | The insights tool prints type Critical and product PROD-77881, followed by " for " and the work order id, in the format that the insights node parses |
| LgMultiAgent.KnowledgeAccessService | lg-multi-agent.py:27-30 | The knowledge tool's text is longer than the product id and ends with it |
| LgMultiAgent.ParseWorkOrderId | lg-multi-agent.py:54 | `out.split("=")[1].strip()` raises IndexError exactly when the output has no "=". Otherwise the result is the stripped text between the first "=" and the next "=", or the end of the output |
| LgMultiAgent.WorkOrderRoundTrip | lg-multi-agent.py:18 | Parsing "work_order_id=" + w gives back any stripped w without "=" |
| LgMultiAgent.ParseInsights | lg-multi-agent.py:63-67 | The insights parse fails only with IndexError, and a successful parse yields two stripped values |
| LgMultiAgent.ParseFields | lg-multi-agent.py:64-67 | The comma and equals parse fails only with IndexError, and a successful parse yields two stripped values |
| LgMultiAgent.InsightsRoundTrip | lg-multi-agent.py:24 | Parsing the insights format gives back the work order type and product id whenever they are free of whitespace, "=" and ",". This holds for any work order id after " for " |
| LgMultiAgent.InsightsHead | lg-multi-agent.py:63 | The text before the first " for " is the two fields |
| LgMultiAgent.FieldsRoundTrip | lg-multi-agent.py:64-67 | Splitting the two fields at "," and then at "=" gives back the type and product |
| LgMultiAgent.PairRoundTrip | lg-multi-agent.py:64 | Splitting two pieces joined by a character neither contains gives back the two pieces |
| LgMultiAgent.ProductIdEndingInFor | lg-multi-agent.py:63 | A product id ending in " for" does not survive the parse: "X for" comes back as "X" |
| LgMultiAgent.SchedulingNode | lg-multi-agent.py:52-55 | The scheduling node always returns `{work_order_id: "WO-100245"}` |
| LgMultiAgent.ServiceInsightsNode | lg-multi-agent.py:58-69 | Without `work_order_id` the node raises KeyError on it. Otherwise it returns type "Critical" and product "PROD-77881", whatever the work order id |
| LgMultiAgent.KnowledgeAccessNode | lg-multi-agent.py:72-75 | Without `product_id` the node raises KeyError on it. Otherwise it returns exactly `{cleanup_steps: "cleanup steps for " + product_id}` |
| LgMultiAgent.FirstMissing | lg-multi-agent.py:89-96 | Returns nothing exactly when every prompt field is present. Otherwise it returns a missing field, and every field before it in prompt order is present |
| LgMultiAgent.FinalAnswerNode | lg-multi-agent.py:78-105 | The final node succeeds exactly when its five inputs are present, and then writes only `final_answer`. Otherwise it raises KeyError on the first input missing in prompt order: user_question, work_order_id, work_order_type, product_id, cleanup_steps |
| LgMultiAgent.NodeContract | lg-multi-agent.py:37-105 | Each node succeeds exactly when the fields it reads are present. It then writes exactly its own declared fields, and no two nodes write the same field |
| LgMultiAgent.WritesDisjoint | lg-multi-agent.py:37-45 | Every node writes declared `AgentState` fields only, and no two nodes write the same field |
| LgMultiAgent.SchedulingNodeContract | lg-multi-agent.py:52-55 | The scheduling node never fails and writes only `work_order_id` |
| LgMultiAgent.ServiceInsightsNodeContract | lg-multi-agent.py:58-69 | The insights node succeeds exactly when `work_order_id` is present, and writes the type and the product |
| LgMultiAgent.FinalAnswerNodeContract | lg-multi-agent.py:89-105 | The final node succeeds exactly when its read set is present, and writes only `final_answer` |
| LgMultiAgent.BuildGraph | lg-multi-agent.py:112-126 | The builder's calls produce the four-node chain entered at "scheduling" |
| LgMultiAgent.ChainGraphIsChain | lg-multi-agent.py:115-124 | Each node has exactly one outgoing edge, and every edge ends in a declared node or END |
| LgMultiAgent.OneEdgeEach | lg-multi-agent.py:121-124 | Exactly one edge leaves each of the four declared nodes |
| LgMultiAgent.ChainPath | lg-multi-agent.py:120-124 | With a budget of at least four steps, the walk is scheduling, service_insights, knowledge_access, final_answer_llm and then END |
| LgMultiAgent.PathTail | lg-multi-agent.py:121-124 | The walk from service_insights is the last three nodes |
| LgMultiAgent.ToolNodeResults | lg-multi-agent.py:52-75 | The scheduling node adds WO-100245 to any state. Given a work order, the insights node adds Critical and PROD-77881. Given PROD-77881, the knowledge node adds its cleanup steps |
| LgMultiAgent.ToolFold | lg-multi-agent.py:53-75 | The first three nodes keep the input and add WO-100245, Critical, PROD-77881 and "cleanup steps for PROD-77881" |
| LgMultiAgent.ToolMerges | lg-multi-agent.py:55-75 | Merging the three tool updates in chain order gives the input plus the four tool fields |
| LgMultiAgent.FinalNodeResult | lg-multi-agent.py:89-105 | The final node raises KeyError on a missing question, and once all five inputs are present it writes only the reply |
| LgMultiAgent.RunIsChainFold | lg-multi-agent.py:120-124 | Within four steps, the run is the fold along the whole chain |
| LgMultiAgent.FinalFold | lg-multi-agent.py:89-105 | With the tool fields present, the last step fails with KeyError exactly when the question is missing. Otherwise it adds the reply |
| LgMultiAgent.ChainOutcome | lg-multi-agent.py:112-126 | Any step function that behaves as the four nodes gives the run outcome stated for `RunOutcome` |
| LgMultiAgent.RunOutcome | lg-multi-agent.py:112-126 | The run succeeds exactly when the input has `user_question`, and otherwise fails with KeyError on it. On success, the tool results and the reply are merged over the input |
| LgMultiAgent.AnswerQuestion | lg-multi-agent.py:133-140 | `main`'s run on `{user_question: q}` returns the six-field state whose `final_answer` is the model's reply |

## Left out

- `lc-multi-agent.py` is not part of this model. Its control flow is LangChain's agent loop driven by a scripted fake model. Its own content is constant strings and printing.
- `agents/scheduling_agent.py` is not part of this model. The scheduling step's outcome is the parameter `scheduled`. The model assumes that this step never raises and writes at most `work_order_id`.
- The `date` field of `AgentState` is never written by the code that is modelled; the scheduling step probably writes it, and the model does not.
- `llm_final_answer_node` is modelled only by its read set, its KeyError on a missing input and its single written field. The prompt text and the Azure OpenAI call are not modelled, and the reply is the parameter `answer`.
- Network, model-service and tool-transport failures are not modelled. The tools are the mock functions, and they never fail.
- LangGraph itself is not modelled. The model treats it as follows:
  - the walk follows the first declared edge out of a node;
  - the recursion limit is a step budget, 25 by default;
  - an edge to an undeclared node surfaces when the walk reaches it, not at `compile`;
  - duplicate-node and branching checks are not modelled, and the source declares neither.
- `main.py` and the printing in `lg-multi-agent.py`'s `main` only print results.
- Python object identity and in-place mutation of the returned dicts are not modelled. Every state is an immutable map value, so the agents' inputs are never modified.
- `AgentRegistry.GetRegisteredAgents`: "repeated calls return the same contents" is not a separate lemma. It holds because the registry is a function with no arguments.
- `PyStr.IsSpace` is the character set of Python's `str.isspace`: the Unicode space separators (category Zs) and the characters of bidirectional classes WS, B and S. Unicode database versions are not modelled; the set is that of current Python releases.
- `LgMultiAgent.InsightsRoundTrip` is proved under a condition stronger than the exact one. The parse at lg-multi-agent.py:63-67 gives back the type and the product when both are stripped and contain no "=", "," or " for ", and the product does not end in " for" (`ProductIdEndingInFor` shows the last clause is needed). `IsToken` also forbids whitespace inside a value, so a type such as "Very Critical" is not covered.
- The code raises no registry errors, does no compile-time graph validation and wraps no step errors, so the model has none of these. Step failures surface as raw `KeyError` and `IndexError`.
