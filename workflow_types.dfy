/**
 * The workflow definitions as they are read from YAML: the top-level
 * definition of a Direct, Composite or Graph workflow and the parts it is
 * made of.
 */
module WorkflowTypes {
  import Wrappers
  import Json

  /** The dependencies of a graph node as written: absent, one name, or a list of names. */
  datatype GraphDependsOn = None | Single(name: string) | Multiple(names: seq<string>)
  {
    /** The dependency names, in the order written. */
    function ToVec(): (r: seq<string>)
      ensures |r| <= 1 || this.Multiple?
      ensures forall d :: d in r <==> (this.Single? && d == name) || (this.Multiple? && d in names)
      ensures this.None? ==> r == []
      ensures this.Single? ==> r == [name]
      ensures this.Multiple? ==> r == names
    {
      match this
      case None => []
      case Single(s) => [s]
      case Multiple(v) => v
    }
  }

  /** The value a node without a `depends_on` key gets: no dependencies. */
  function DefaultGraphDependsOn(): (d: GraphDependsOn)
    ensures d.ToVec() == []
  {
    None
  }

  datatype ModelDefinition = ModelDefinition(
    provider: Wrappers.Option<string>,
    modelName: Wrappers.Option<string>,
    kind: Wrappers.Option<string>,
    parameters: Wrappers.Option<map<string, Json.Value>>)

  datatype MemoryDefinition = MemoryDefinition(kind: string, parameters: Wrappers.Option<map<string, Json.Value>>)

  /** A reference to a workflow kept in another file, with values that override its own. */
  datatype WorkflowReference = WorkflowReference(file: string, overrides: Wrappers.Option<map<string, Json.Value>>)

  datatype AgentDefinition = AgentDefinition(
    name: string,
    description: string,
    instructions: string,
    executor: Wrappers.Option<string>,
    model: ModelDefinition,
    tools: seq<string>,
    memory: Wrappers.Option<MemoryDefinition>,
    workflow: Wrappers.Option<WorkflowReference>,
    maxIterations: Wrappers.Option<nat>)

  /** An agent is given either inline or by reference to a file, never both. */
  datatype AgentConfig = Inline(definition: AgentDefinition) | Reference(reference: WorkflowReference)

  /** A state field as written: its type and reducer are names, its default optional. */
  datatype StateFieldDef = StateFieldDef(fieldType: string, reducer: Wrappers.Option<string>, default: Wrappers.Option<Json.Value>)

  /**
   * A node of a Graph workflow as written.  `waitFor` is the text of the
   * `wait_for` key, the empty string when the key is absent.
   */
  datatype GraphNodeDefinition = GraphNodeDefinition(
    id: string,
    agent: AgentConfig,
    dependsOn: GraphDependsOn,
    when: Wrappers.Option<string>,
    outputSchema: Wrappers.Option<Json.Value>,
    outputs: Wrappers.Option<map<string, string>>,
    waitFor: string)

  datatype GraphDefinition = GraphDefinition(state: Wrappers.Option<map<string, StateFieldDef>>, nodes: seq<GraphNodeDefinition>)

  /** A Composite workflow: an execution mode name and the agents it runs. */
  datatype CompositeWorkflowDefinition = CompositeWorkflowDefinition(
    execution: string,
    agents: seq<AgentConfig>,
    maxIterations: Wrappers.Option<nat>)

  datatype McpServerConfig = McpServerConfig(name: string, command: string, args: seq<string>)

  /** A workflow file: `kind` says which of `agent`, `workflow` and `graph` is meant to be present. */
  datatype WorkflowDefinition = WorkflowDefinition(
    name: string,
    description: string,
    kind: string,
    agent: Wrappers.Option<AgentDefinition>,
    workflow: Wrappers.Option<CompositeWorkflowDefinition>,
    graph: Wrappers.Option<GraphDefinition>,
    overrides: Wrappers.Option<map<string, Json.Value>>,
    mcpServers: seq<McpServerConfig>)
}
