/** The graph form every workflow is normalized into before it runs. */
module GraphTypes {
  import Wrappers
  import Json
  import WorkflowTypes

  /** The dependencies of a node: none (an entry node), one, or several. */
  datatype DependsOn = None | Single(name: string) | Multiple(names: seq<string>)
  {
    /** The dependency names, in the order given. */
    function ToVec(): (r: seq<string>)
      ensures |r| <= 1 || this.Multiple?
      ensures forall d :: d in r <==> (this.Single? && d == name) || (this.Multiple? && d in names)
      ensures this.None? ==> r == []
      ensures this.Single? ==> r == [name]
      ensures this.Multiple? ==> r == names
    {
      match this
      case None => []
      case Single(s) => [s]
      case Multiple(v) => v
    }

    /** An entry node: also true of an empty list of dependencies. */
    predicate IsEmpty()
      ensures IsEmpty() <==> ToVec() == []
    {
      match this
      case None => true
      case Single(_) => false
      case Multiple(v) => |v| == 0
    }
  }

  /** Whether a node waits for all of its dependencies or for any one of them. */
  datatype WaitMode = All | Any

  /** The dependencies of a node that does not state any. */
  function DefaultDependsOn(): (d: DependsOn)
    ensures d.IsEmpty()
  {
    None
  }

  /** The wait mode of a node that does not state one: wait for all dependencies. */
  function DefaultWaitMode(): (w: WaitMode)
    ensures w != Any
  {
    All
  }

  /** A node of the graph: its agent, dependencies, guard, output mappings and wait mode. */
  datatype NodeDefinition = NodeDefinition(
    id: string,
    agent: WorkflowTypes.AgentConfig,
    dependsOn: DependsOn,
    when: Wrappers.Option<string>,
    outputSchema: Wrappers.Option<Json.Value>,
    outputs: Wrappers.Option<map<string, string>>,
    waitFor: WaitMode)

  datatype GraphWorkflowDef = GraphWorkflowDef(
    name: string,
    description: string,
    state: Wrappers.Option<Json.Value>,
    nodes: seq<NodeDefinition>)
}
