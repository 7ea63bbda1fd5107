/** Conversation messages and tools, shared by every model provider and agent. */
module Model {
  import opened Wrappers
  import Json

  /** One piece of a message. */
  datatype Part =
    | Text(text: string)
    | Thinking(thought: string)
    | FunctionCall(name: string, args: Json.Value, thoughtSignature: Option<string>)
    | FunctionResponse(name: string, response: Json.Value)

  /** A message: the speaker's role ("system", "user", "model", ...) and its parts. */
  datatype Content = Content(role: string, parts: seq<Part>)

  /**
   * A tool as the agents see it: its name, description and input schema.
   * `id` identifies the implementation behind it, so that two tools with
   * the same name can be told apart.
   */
  datatype Tool = Tool(name: string, description: string, schema: Json.Value, id: nat)

  /** What running a tool on an input gives: a JSON result or an error message. */
  type ToolRunner = (Tool, Json.Value) -> Result<Json.Value, string>

  /**
   * A scripted language model: the reply to the `k`-th request of a run,
   * given the history sent with it.
   */
  type Responder = (nat, seq<Content>) -> Result<Content, string>

  /** `tools.iter().find(|t| t.name() == name)`: the first tool with the name. */
  function FindTool(tools: seq<Tool>, name: string): (r: Option<Tool>)
    ensures r.None? <==> forall i :: 0 <= i < |tools| ==> tools[i].name != name
    ensures r.Some? ==> exists i :: (0 <= i < |tools| && tools[i] == r.value && tools[i].name == name &&
      forall j :: 0 <= j < i ==> tools[j].name != name)
  {
    if tools == [] then None
    else if tools[0].name == name then Some(tools[0])
    else
      var r := FindTool(tools[1..], name);
      if r.Some? then
        var i :| 0 <= i < |tools[1..]| && tools[1..][i] == r.value && tools[1..][i].name == name &&
          forall j :: 0 <= j < i ==> tools[1..][j].name != name;
        assert tools[i + 1] == r.value;
        r
      else r
  }
}
