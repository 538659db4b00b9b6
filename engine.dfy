/**
 * The graph executor the pipelines run on (LangGraph's StateGraph), stated
 * abstractly: a builder that records nodes, an entry point and edges; the
 * compiled graph as an immutable value; and `Invoke`, which walks the chain
 * from the entry node to END and merges every step's partial update into the
 * state with key-wise overwrite (the state schemas declare no reducers).
 */
module Engine {
  import opened Wrappers

  /** A state: field name to value. Every declared field holds a string. */
  type State = map<string, string>

  /** The exceptions a step or the walk can raise. */
  datatype Failure =
    | KeyError(key: string)        // `state["k"]` on an absent key
    | IndexError                   // `parts[1]` on a too-short list
    | UnknownNode(name: string)    // an edge leads to an undeclared node
    | RecursionLimit               // the walk took more steps than allowed

  /** What a step returns: a partial update, or the exception it raised. */
  type StepResult = Result<State, Failure>

  /** `dict.get`: the value of `k`, or None when absent. */
  function Get(s: State, k: string): (r: Option<string>)
    ensures r.Some? <==> k in s
    ensures r.Some? ==> r.value == s[k]
  {
    if k in s then Some(s[k]) else None
  }

  /**
   * Merging a partial update: the keys of `u` are overwritten, every other
   * key keeps its value, and no key is ever removed.
   */
  function Merge(s: State, u: State): (r: State)
    ensures r.Keys == s.Keys + u.Keys
    ensures forall k :: k in u ==> r[k] == u[k]
    ensures forall k :: k in s && k !in u ==> r[k] == s[k]
    ensures u == map[] ==> r == s
  {
    s + u
  }

  /** Merging a one-field update sets that field. */
  lemma MergeOne(s: State, k: string, v: string)
    ensures Merge(s, map[k := v]) == s[k := v]
  {
    assert Merge(s, map[k := v]).Keys == s[k := v].Keys;
  }

  /** Merging a two-field update sets both fields, the second last. */
  lemma MergeTwo(s: State, k1: string, v1: string, k2: string, v2: string)
    ensures Merge(s, map[k1 := v1, k2 := v2]) == s[k1 := v1][k2 := v2]
  {
    assert Merge(s, map[k1 := v1, k2 := v2]).Keys == s[k1 := v1][k2 := v2].Keys;
  }

  /** Where an edge leads: a declared node, or the END marker. */
  datatype Target = Node(name: string) | End

  type Edge = (string, Target)

  /** A compiled graph: node name to step, the entry node, the edges in declaration order. */
  datatype Graph<S> = Graph(nodes: map<string, S>, entry: string, edges: seq<Edge>)

  /** The builder the graph modules fill in, one call at a time. */
  class StateGraph<S> {
    var nodes: map<string, S>
    var entry: Option<string>
    var edges: seq<Edge>

    constructor ()
      ensures nodes == map[] && entry == None && edges == []
    {
      nodes := map[];
      entry := None;
      edges := [];
    }

    /** `add_node(name, step)`: binds `name` to `step`. */
    method AddNode(name: string, step: S)
      modifies this
      ensures nodes == old(nodes)[name := step]
      ensures entry == old(entry) && edges == old(edges)
    {
      nodes := nodes[name := step];
    }

    /** `set_entry_point(name)`. */
    method SetEntryPoint(name: string)
      modifies this
      ensures entry == Some(name)
      ensures nodes == old(nodes) && edges == old(edges)
    {
      entry := Some(name);
    }

    /** `add_edge(source, target)`: appends one directed edge. */
    method AddEdge(source: string, target: Target)
      modifies this
      ensures edges == old(edges) + [(source, target)]
      ensures nodes == old(nodes) && entry == old(entry)
    {
      edges := edges + [(source, target)];
    }

    /** `compile()`: freezes what was declared; an entry point must have been set. */
    method Compile() returns (g: Graph<S>)
      requires entry.Some?
      ensures g.nodes == nodes && g.entry == entry.value && g.edges == edges
    {
      g := Graph(nodes, entry.value, edges);
    }
  }

  /** How many declared edges leave node `n`. */
  function OutDegree(edges: seq<Edge>, n: string): (d: nat)
    ensures d <= |edges|
    ensures d == 0 <==> forall i :: 0 <= i < |edges| ==> edges[i].0 != n
  {
    if edges == [] then 0
    else (if edges[0].0 == n then 1 else 0) + OutDegree(edges[1..], n)
  }

  /**
   * The node the walk moves to after `n`: the target of the first edge out of
   * `n`, or END when no edge leaves `n` (the run then finishes).
   */
  function Successor(edges: seq<Edge>, n: string): Target
  {
    if edges == [] then End
    else if edges[0].0 == n then edges[0].1
    else Successor(edges[1..], n)
  }

  /**
   * The successor is the target of the first edge declared out of `n`, and END
   * exactly when no edge leaves `n`.
   */
  lemma {:induction false} SuccessorIsFirstEdge(edges: seq<Edge>, n: string)
    ensures Successor(edges, n).Node? ==> exists i :: 0 <= i < |edges| && edges[i] == (n, Successor(edges, n))
    ensures OutDegree(edges, n) == 0 ==> Successor(edges, n) == End
    ensures forall i :: 0 <= i < |edges| && edges[i].0 == n && (forall j :: 0 <= j < i ==> edges[j].0 != n) ==>
              Successor(edges, n) == edges[i].1
  {
    if edges != [] && edges[0].0 != n {
      SuccessorIsFirstEdge(edges[1..], n);
      assert forall i :: 1 <= i < |edges| ==> edges[i] == edges[1..][i - 1];
      if Successor(edges, n).Node? {
        var i :| 0 <= i < |edges[1..]| && edges[1..][i] == (n, Successor(edges, n));
        assert edges[i + 1] == (n, Successor(edges, n));
      }
    }
  }

  /**
   * A chain: the entry is declared, every edge joins declared nodes (or END),
   * and every declared node has exactly one outgoing edge.
   */
  ghost predicate IsChain<S>(g: Graph<S>)
  {
    && g.entry in g.nodes
    && (forall i :: 0 <= i < |g.edges| ==> g.edges[i].0 in g.nodes)
    && (forall i :: 0 <= i < |g.edges| && g.edges[i].1.Node? ==> g.edges[i].1.name in g.nodes)
    && (forall n :: n in g.nodes ==> OutDegree(g.edges, n) == 1)
  }

  /**
   * The nodes the walk from `cur` visits before reaching END, using at most
   * `fuel` steps; None when the budget runs out or an undeclared node is met.
   */
  function Path<S>(g: Graph<S>, cur: Target, fuel: nat): (p: Option<seq<string>>)
    ensures p.Some? ==> |p.value| <= fuel
    ensures p.Some? ==> forall i :: 0 <= i < |p.value| ==> p.value[i] in g.nodes
    decreases fuel
  {
    match cur
    case End => Some([])
    case Node(n) =>
      if fuel == 0 || n !in g.nodes then None
      else
        match Path(g, Successor(g.edges, n), fuel - 1)
        case None => None
        case Some(rest) => Some([n] + rest)
  }

  /**
   * The run itself: from node `cur` with state `s`, apply each step, merge its
   * update, and follow the edge, until END; a step's exception ends the run.
   */
  function Run<S>(g: Graph<S>, apply: (S, State) -> StepResult, cur: Target, s: State, fuel: nat): (r: StepResult)
    ensures r.Err? && !r.error.RecursionLimit? && !r.error.UnknownNode? ==>
              exists n, t: State :: n in g.nodes && apply(g.nodes[n], t) == Err(r.error)
    decreases fuel
  {
    match cur
    case End => Ok(s)
    case Node(n) =>
      if fuel == 0 then Err(RecursionLimit)
      else if n !in g.nodes then Err(UnknownNode(n))
      else
        match apply(g.nodes[n], s)
        case Err(f) => Err(f)
        case Ok(u) => Run(g, apply, Successor(g.edges, n), Merge(s, u), fuel - 1)
  }

  /** Applying the steps of the nodes in `p`, in order, merging each update. */
  function Fold<S>(g: Graph<S>, apply: (S, State) -> StepResult, p: seq<string>, s: State): StepResult
    requires forall i :: 0 <= i < |p| ==> p[i] in g.nodes
  {
    if p == [] then Ok(s)
    else
      match apply(g.nodes[p[0]], s)
      case Err(f) => Err(f)
      case Ok(u) => Fold(g, apply, p[1..], Merge(s, u))
  }

  /** One step of a fold: the first node's update is merged before the rest run. */
  lemma FoldCons<S>(g: Graph<S>, apply: (S, State) -> StepResult, p: seq<string>, s: State, u: State)
    requires p != [] && forall i :: 0 <= i < |p| ==> p[i] in g.nodes
    requires apply(g.nodes[p[0]], s) == Ok(u)
    ensures Fold(g, apply, p, s) == Fold(g, apply, p[1..], Merge(s, u))
  {
  }

  /** A fold over one node returns that node's failure, or its update merged in. */
  lemma FoldLast<S>(g: Graph<S>, apply: (S, State) -> StepResult, n: string, s: State)
    requires n in g.nodes
    ensures apply(g.nodes[n], s).Err? ==> Fold(g, apply, [n], s) == apply(g.nodes[n], s)
    ensures apply(g.nodes[n], s).Ok? ==> Fold(g, apply, [n], s) == Ok(Merge(s, apply(g.nodes[n], s).value))
  {
    assert [n][1..] == [];
  }

  /** The step budget of an invocation that sets none: LangGraph's default recursion limit. */
  const DefaultRecursionLimit: nat := 25

  /** `graph.invoke(input)`: the walk from the entry node, at most `limit` steps. */
  method Invoke<S>(g: Graph<S>, apply: (S, State) -> StepResult, input: State, limit: nat)
    returns (r: StepResult)
    ensures r == Run(g, apply, Node(g.entry), input, limit)
  {
    var cur := Node(g.entry);
    var state := input;
    var fuel := limit;
    while cur.Node?
      invariant Run(g, apply, cur, state, fuel) == Run(g, apply, Node(g.entry), input, limit)
      decreases fuel
    {
      if fuel == 0 {
        return Err(RecursionLimit);
      }
      var n := cur.name;
      if n !in g.nodes {
        return Err(UnknownNode(n));
      }
      var out := apply(g.nodes[n], state);
      if out.Err? {
        return Err(out.error);
      }
      state := Merge(state, out.value);
      cur := Successor(g.edges, n);
      fuel := fuel - 1;
    }
    r := Ok(state);
  }

  /**
   * The run is the fold of the steps along the walk: once the topology gives
   * a path to END within the budget, the outcome depends only on the steps
   * of that path, in that order.
   */
  lemma {:induction false} RunFollowsPath<S>(g: Graph<S>, apply: (S, State) -> StepResult, cur: Target, s: State, fuel: nat)
    requires Path(g, cur, fuel).Some?
    ensures Run(g, apply, cur, s, fuel) == Fold(g, apply, Path(g, cur, fuel).value, s)
    decreases fuel
  {
    match cur
    case End =>
    case Node(n) =>
      var p := Path(g, cur, fuel).value;
      assert p[0] == n && p[1..] == Path(g, Successor(g.edges, n), fuel - 1).value;
      match apply(g.nodes[n], s)
      case Err(f) =>
      case Ok(u) =>
        RunFollowsPath(g, apply, Successor(g.edges, n), Merge(s, u), fuel - 1);
  }

  /** A successful run never removes a key: the final state has every key of the start state. */
  lemma {:induction false} RunKeepsKeys<S>(g: Graph<S>, apply: (S, State) -> StepResult, cur: Target, s: State, fuel: nat)
    requires Run(g, apply, cur, s, fuel).Ok?
    ensures s.Keys <= Run(g, apply, cur, s, fuel).value.Keys
    decreases fuel
  {
    match cur
    case End =>
    case Node(n) =>
      var u := apply(g.nodes[n], s).value;
      var next := Merge(s, u);
      assert Run(g, apply, cur, s, fuel) == Run(g, apply, Successor(g.edges, n), next, fuel - 1);
      RunKeepsKeys(g, apply, Successor(g.edges, n), next, fuel - 1);
      assert s.Keys <= next.Keys;
  }

  /** No step ever writes `k`. */
  ghost predicate NeverWrites<S(!new)>(apply: (S, State) -> StepResult, k: string)
  {
    forall x: S, s: State :: apply(x, s).Ok? ==> k !in apply(x, s).value
  }

  /** A key that no step writes reaches the final state with its starting value. */
  lemma {:induction false} RunKeepsUnwrittenKey<S(!new)>(g: Graph<S>, apply: (S, State) -> StepResult, cur: Target, s: State, fuel: nat, k: string)
    requires NeverWrites(apply, k)
    requires k in s
    requires Run(g, apply, cur, s, fuel).Ok?
    ensures k in Run(g, apply, cur, s, fuel).value
    ensures Run(g, apply, cur, s, fuel).value[k] == s[k]
    decreases fuel
  {
    match cur
    case End =>
    case Node(n) =>
      var u := apply(g.nodes[n], s).value;
      RunKeepsUnwrittenKey(g, apply, Successor(g.edges, n), Merge(s, u), fuel - 1, k);
  }
}
