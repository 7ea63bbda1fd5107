/**
 * Normalization of every kind of workflow into the graph form: a Direct
 * workflow becomes one node, a Composite workflow a chain or a fan of
 * nodes with generated ids, and a Graph workflow keeps its nodes.
 */
module Normalizer {
  import opened Wrappers
  import opened Strings
  import opened WorkflowTypes
  import opened GraphTypes

  /** The generated id of the `i`-th agent of a composite: `format!("{prefix}{i}")`. */
  function StepId(prefix: string, i: nat): string
  {
    prefix + NatToString(i)
  }

  /** Ids with the same prefix and different indices differ. */
  lemma StepIdInjective(prefix: string, i: nat, j: nat)
    requires StepId(prefix, i) == StepId(prefix, j)
    ensures i == j
  {
    var a, b := NatToString(i), NatToString(j);
    assert a == StepId(prefix, i)[|prefix|..];
    assert b == StepId(prefix, j)[|prefix|..];
    NatToStringInjective(i, j);
  }

  /** The execution modes a Composite workflow may name. */
  predicate KnownExecution(execution: string)
  {
    execution == "sequential" || execution == "parallel" || execution == "loop"
  }

  /** The prefix of the ids an execution mode generates. */
  function IdPrefix(execution: string): string
    requires KnownExecution(execution)
  {
    if execution == "sequential" then "step_" else if execution == "parallel" then "parallel_" else "loop_"
  }

  /** A node that only runs an agent: no guard, no output schema, no mappings, waits for all. */
  function PlainNode(id: string, agent: AgentConfig, dependsOn: GraphTypes.DependsOn): NodeDefinition
  {
    NodeDefinition(id, agent, dependsOn, Wrappers.None, Wrappers.None, Wrappers.None, All)
  }

  /**
   * The node the `i`-th agent of a composite becomes: sequential and loop
   * modes chain it to the node before, parallel mode leaves it free.
   */
  function CompositeNode(execution: string, i: nat, agent: AgentConfig): NodeDefinition
    requires KnownExecution(execution)
  {
    var prefix := IdPrefix(execution);
    var deps := if execution == "parallel" || i == 0 then GraphTypes.None else GraphTypes.Single(StepId(prefix, i - 1));
    PlainNode(StepId(prefix, i), agent, deps)
  }

  /** The nodes of a composite, or the error for an unknown execution mode. */
  function CompositeNodes(execution: string, agents: seq<AgentConfig>): Result<seq<NodeDefinition>, string>
  {
    if KnownExecution(execution) then Ok(seq(|agents|, i requires 0 <= i < |agents| => CompositeNode(execution, i, agents[i])))
    else Err("Unknown execution mode: " + execution)
  }

  /** The wait mode a `wait_for` text names: "any" is Any, every other text All. */
  function WaitModeOf(waitFor: string): (w: WaitMode)
    ensures w == Any <==> waitFor == "any"
  {
    if waitFor == "any" then Any else All
  }

  /** The graph form of a written dependency list: the same case with the same names. */
  function ConvertDependsOn(d: GraphDependsOn): (r: GraphTypes.DependsOn)
    ensures r.ToVec() == d.ToVec()
  {
    match d
    case None => GraphTypes.None
    case Single(s) => GraphTypes.Single(s)
    case Multiple(v) => GraphTypes.Multiple(v)
  }

  /** The graph form of a written node: the same fields, with `wait_for` read as a mode. */
  function ConvertNode(n: GraphNodeDefinition): NodeDefinition
  {
    NodeDefinition(n.id, n.agent, ConvertDependsOn(n.dependsOn), n.when, n.outputSchema, n.outputs, WaitModeOf(n.waitFor))
  }

  function GraphNodes(nodes: seq<GraphNodeDefinition>): seq<NodeDefinition>
  {
    seq(|nodes|, i requires 0 <= i < |nodes| => ConvertNode(nodes[i]))
  }

  /** A graph form with the definition's name and description and no state schema. */
  function Graph(def: WorkflowDefinition, nodes: seq<NodeDefinition>): GraphWorkflowDef
  {
    GraphWorkflowDef(def.name, def.description, Wrappers.None, nodes)
  }

  /** A Direct workflow: its agent as the single node "main". */
  function NormalizeDirect(def: WorkflowDefinition): Result<GraphWorkflowDef, string>
  {
    match def.agent
    case None => Err("Direct workflow missing agent definition")
    case Some(agent) => Ok(Graph(def, [PlainNode("main", Inline(agent), GraphTypes.None)]))
  }

  /** A Composite workflow: one node per agent, chained or not by the execution mode. */
  function NormalizeComposite(def: WorkflowDefinition): Result<GraphWorkflowDef, string>
  {
    match def.workflow
    case None => Err("Composite workflow missing workflow definition")
    case Some(w) =>
      match CompositeNodes(w.execution, w.agents)
      case Err(e) => Err(e)
      case Ok(nodes) => Ok(Graph(def, nodes))
  }

  /** A Graph workflow: its nodes converted one by one. */
  function NormalizeGraph(def: WorkflowDefinition): Result<GraphWorkflowDef, string>
  {
    match def.graph
    case None => Err("Graph workflow missing graph definition")
    case Some(g) => Ok(Graph(def, GraphNodes(g.nodes)))
  }

  /**
   * Dispatch on the workflow kind.  Every graph form produced keeps the
   * name and description and has no state schema; an unknown kind is an
   * error that names it.
   */
  function NormalizeToGraph(def: WorkflowDefinition): (r: Result<GraphWorkflowDef, string>)
    ensures r.Ok? ==> r.value.name == def.name && r.value.description == def.description && r.value.state.None?
    ensures def.kind !in {"Direct", "Composite", "Graph"} ==>
      r.Err? && StartsWith(r.error, "Unknown workflow kind: ") && EndsWith(r.error, def.kind)
  {
    match def.kind
    case "Direct" => NormalizeDirect(def)
    case "Composite" => NormalizeComposite(def)
    case "Graph" => NormalizeGraph(def)
    case _ => Err("Unknown workflow kind: " + def.kind)
  }

  /** The loop that builds a composite's nodes, one agent at a time. */
  method BuildCompositeNodes(execution: string, agents: seq<AgentConfig>) returns (r: Result<seq<NodeDefinition>, string>)
    ensures r == CompositeNodes(execution, agents)
  {
    var nodes: seq<NodeDefinition>;
    if execution == "sequential" {
      nodes := SequentialNodes(agents);
    } else if execution == "parallel" {
      nodes := ParallelNodes(agents);
    } else if execution == "loop" {
      nodes := LoopNodes(agents);
    } else {
      return Err("Unknown execution mode: " + execution);
    }
    assert nodes == seq(|agents|, i requires 0 <= i < |agents| => CompositeNode(execution, i, agents[i]));
    return Ok(nodes);
  }

  /** The sequential branch: each step depends on the one before, remembered in `prev`. */
  method SequentialNodes(agents: seq<AgentConfig>) returns (nodes: seq<NodeDefinition>)
    ensures |nodes| == |agents| && forall j :: 0 <= j < |agents| ==> nodes[j] == CompositeNode("sequential", j, agents[j])
  {
    nodes := [];
    var prev: Option<string> := Wrappers.None;
    for i := 0 to |agents|
      invariant |nodes| == i
      invariant forall j :: 0 <= j < i ==> nodes[j] == CompositeNode("sequential", j, agents[j])
      invariant prev == if i == 0 then Wrappers.None else Wrappers.Some(StepId("step_", i - 1))
    {
      var id := "step_" + NatToString(i);
      var deps := match prev
        case Some(p) => GraphTypes.Single(p)
        case None => GraphTypes.None;
      nodes := nodes + [PlainNode(id, agents[i], deps)];
      prev := Wrappers.Some(id);
    }
  }

  /** The parallel branch: no node depends on another. */
  method ParallelNodes(agents: seq<AgentConfig>) returns (nodes: seq<NodeDefinition>)
    ensures |nodes| == |agents| && forall j :: 0 <= j < |agents| ==> nodes[j] == CompositeNode("parallel", j, agents[j])
  {
    nodes := [];
    for i := 0 to |agents|
      invariant |nodes| == i
      invariant forall j :: 0 <= j < i ==> nodes[j] == CompositeNode("parallel", j, agents[j])
    {
      nodes := nodes + [PlainNode("parallel_" + NatToString(i), agents[i], GraphTypes.None)];
    }
  }

  /** The loop branch: each node depends on the one before, named from the index. */
  method LoopNodes(agents: seq<AgentConfig>) returns (nodes: seq<NodeDefinition>)
    ensures |nodes| == |agents| && forall j :: 0 <= j < |agents| ==> nodes[j] == CompositeNode("loop", j, agents[j])
  {
    nodes := [];
    for i := 0 to |agents|
      invariant |nodes| == i
      invariant forall j :: 0 <= j < i ==> nodes[j] == CompositeNode("loop", j, agents[j])
    {
      var deps := if i == 0 then GraphTypes.None else GraphTypes.Single("loop_" + NatToString(i - 1));
      nodes := nodes + [PlainNode("loop_" + NatToString(i), agents[i], deps)];
    }
  }

  /** The loop that converts a Graph workflow's nodes, one at a time. */
  method BuildGraphNodes(defs: seq<GraphNodeDefinition>) returns (nodes: seq<NodeDefinition>)
    ensures nodes == GraphNodes(defs)
  {
    nodes := [];
    for i := 0 to |defs|
      invariant |nodes| == i
      invariant forall j :: 0 <= j < i ==> nodes[j] == ConvertNode(defs[j])
    {
      var d := defs[i];
      var dependsOn := match d.dependsOn
        case None => GraphTypes.None
        case Single(s) => GraphTypes.Single(s)
        case Multiple(v) => GraphTypes.Multiple(v);
      var wait := if d.waitFor == "any" then Any else All;
      nodes := nodes + [NodeDefinition(d.id, d.agent, dependsOn, d.when, d.outputSchema, d.outputs, wait)];
    }
  }

  /** A Direct workflow with an agent is the single entry node "main"; without one it is an error. */
  lemma DirectShape(def: WorkflowDefinition)
    requires def.kind == "Direct"
    ensures var r := NormalizeToGraph(def);
      (r.Ok? <==> def.agent.Some?) &&
      (r.Ok? ==> |r.value.nodes| == 1 && r.value.nodes[0].id == "main" && r.value.nodes[0].dependsOn.IsEmpty() &&
                 r.value.nodes[0].waitFor == All && r.value.nodes[0].agent == Inline(def.agent.value))
  {
  }

  /** Sequential mode: ids step_0, step_1, ..., each node depending on exactly the one before. */
  lemma SequentialChain(def: WorkflowDefinition, i: nat)
    requires def.kind == "Composite" && def.workflow.Some? && def.workflow.value.execution == "sequential"
    requires i < |def.workflow.value.agents|
    ensures var r := NormalizeToGraph(def);
      r.Ok? && |r.value.nodes| == |def.workflow.value.agents| &&
      r.value.nodes[i].id == "step_" + NatToString(i) &&
      r.value.nodes[i].dependsOn.ToVec() == (if i == 0 then [] else ["step_" + NatToString(i - 1)])
  {
  }

  /** Parallel mode: ids parallel_0, parallel_1, ..., none with dependencies. */
  lemma ParallelFan(def: WorkflowDefinition, i: nat)
    requires def.kind == "Composite" && def.workflow.Some? && def.workflow.value.execution == "parallel"
    requires i < |def.workflow.value.agents|
    ensures var r := NormalizeToGraph(def);
      r.Ok? && |r.value.nodes| == |def.workflow.value.agents| &&
      r.value.nodes[i].id == "parallel_" + NatToString(i) && r.value.nodes[i].dependsOn.IsEmpty()
  {
  }

  /** Loop mode: ids loop_0, loop_1, ..., each node depending on exactly the one before. */
  lemma LoopChain(def: WorkflowDefinition, i: nat)
    requires def.kind == "Composite" && def.workflow.Some? && def.workflow.value.execution == "loop"
    requires i < |def.workflow.value.agents|
    ensures var r := NormalizeToGraph(def);
      r.Ok? && |r.value.nodes| == |def.workflow.value.agents| &&
      r.value.nodes[i].id == "loop_" + NatToString(i) &&
      r.value.nodes[i].dependsOn.ToVec() == (if i == 0 then [] else ["loop_" + NatToString(i - 1)])
  {
  }

  /** A missing section or an unknown execution mode is an error. */
  lemma MissingSections(def: WorkflowDefinition)
    ensures def.kind == "Composite" && def.workflow.None? ==> NormalizeToGraph(def).Err?
    ensures def.kind == "Graph" && def.graph.None? ==> NormalizeToGraph(def).Err?
    ensures def.kind == "Composite" && def.workflow.Some? && !KnownExecution(def.workflow.value.execution) ==>
      NormalizeToGraph(def) == Err("Unknown execution mode: " + def.workflow.value.execution)
  {
  }

  /**
   * A composite is a well-founded graph: one node per agent, every node
   * runs its own agent, the ids are distinct, and every dependency names
   * an earlier node, so there is no cycle.
   */
  lemma CompositeAcyclic(def: WorkflowDefinition, i: nat, j: nat)
    requires def.kind == "Composite" && NormalizeToGraph(def).Ok?
    ensures var w, nodes := def.workflow.value, NormalizeToGraph(def).value.nodes;
      |nodes| == |w.agents| &&
      (i < |nodes| ==> nodes[i].agent == w.agents[i]) &&
      (i < j < |nodes| ==> nodes[i].id != nodes[j].id) &&
      (i < |nodes| ==> forall d :: d in nodes[i].dependsOn.ToVec() ==> exists k :: 0 <= k < i && nodes[k].id == d)
  {
    var w, nodes := def.workflow.value, NormalizeToGraph(def).value.nodes;
    var prefix := IdPrefix(w.execution);
    if i < j < |nodes| {
      if nodes[i].id == nodes[j].id {
        StepIdInjective(prefix, i, j);
      }
    }
    if 0 < i < |nodes| && w.execution != "parallel" {
      assert nodes[i - 1].id == StepId(prefix, i - 1);
    }
  }

  /**
   * A Graph workflow keeps its nodes: count, order, ids, agents, guards,
   * output schemas, mappings and dependencies; `wait_for` "any" becomes
   * Any and any other text, the absent key's "" included, All.
   */
  lemma GraphPreserved(def: WorkflowDefinition, i: nat)
    requires def.kind == "Graph" && def.graph.Some?
    requires i < |def.graph.value.nodes|
    ensures var r, n := NormalizeToGraph(def), def.graph.value.nodes[i];
      r.Ok? && |r.value.nodes| == |def.graph.value.nodes| &&
      var m := r.value.nodes[i];
      m.id == n.id && m.agent == n.agent && m.when == n.when && m.outputSchema == n.outputSchema &&
      m.outputs == n.outputs && m.dependsOn.ToVec() == n.dependsOn.ToVec() &&
      (m.waitFor == Any <==> n.waitFor == "any") && (n.waitFor == "" ==> m.waitFor == All)
  {
  }
}
