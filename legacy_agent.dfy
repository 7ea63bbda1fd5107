/**
 * The older tool-calling agent kept beside the composite agents.  It
 * differs from the current one in two places: it appends the model's reply
 * to the history before looking for text, and it looks tools up by a
 * linear search that finds the first tool with a name.
 */
module LegacyAgent {
  import opened Wrappers
  import Json
  import opened Model
  import LlmAgent

  datatype LegacyLLMAgent = LegacyLLMAgent(name: string, description: string, instruction: string, tools: seq<Tool>)

  /** What one function call answers, with the tool found by linear search. */
  function LegacyToolResponse(tools: seq<Tool>, name: string, args: Json.Value, runTool: ToolRunner): Json.Value
  {
    match FindTool(tools, name)
    case None => LlmAgent.ErrorObject("Tool " + name + " not found")
    case Some(t) =>
      match runTool(t, args)
      case Ok(v) => v
      case Err(e) => LlmAgent.ErrorObject(e)
  }

  function LegacyResponses(tools: seq<Tool>, calls: seq<Part>, runTool: ToolRunner): seq<Part>
    requires forall p :: p in calls ==> p.FunctionCall?
  {
    seq(|calls|, i requires 0 <= i < |calls| => FunctionResponse(calls[i].name, LegacyToolResponse(tools, calls[i].name, calls[i].args, runTool)))
  }

  /** The turns of the legacy `run`, from model call number `turn` on. */
  function LegacyTurns(agent: LegacyLLMAgent, history: seq<Content>, turn: nat, model: Responder, runTool: ToolRunner): (o: LlmAgent.Outcome)
    requires turn <= LlmAgent.MaxTurns
    decreases LlmAgent.MaxTurns - turn
  {
    if turn == LlmAgent.MaxTurns then LlmAgent.Outcome(Err("Max turns reached"), history, turn)
    else
      match model(turn, history)
      case Err(e) => LlmAgent.Outcome(Err(e), history, turn + 1)
      case Ok(response) =>
        var withReply := history + [response];
        match LlmAgent.FirstText(response.parts)
        case Some(t) => LlmAgent.Outcome(Ok(t), withReply, turn + 1)
        case None =>
          var calls := LlmAgent.Calls(response.parts);
          if calls == [] then LlmAgent.Outcome(Ok(""), withReply, turn + 1)
          else
            var reply := Content("user", LegacyResponses(agent.tools, calls, runTool));
            LegacyTurns(agent, withReply + [reply], turn + 1, model, runTool)
  }

  /** The legacy agent seen as a current agent over the same tools. */
  function AsCurrent(agent: LegacyLLMAgent): (a: LlmAgent.LLMAgent)
    ensures LlmAgent.Valid(a)
  {
    LlmAgent.New(agent.name, agent.description, agent.instruction, agent.tools)
  }

  predicate DistinctNames(tools: seq<Tool>)
  {
    forall i, j :: 0 <= i < j < |tools| ==> tools[i].name != tools[j].name
  }

  /** With distinct tool names, the first and the last tool with a name are the same tool. */
  lemma FirstIsLast(agent: LegacyLLMAgent, name: string)
    requires DistinctNames(agent.tools)
    ensures FindTool(agent.tools, name) == LlmAgent.GetTool(AsCurrent(agent), name)
  {
    var a := AsCurrent(agent);
    var r := LlmAgent.GetTool(a, name);
    var f := FindTool(agent.tools, name);
    if r.Some? {
      var i :| LlmAgent.LastIndex(agent.tools, name, i) && r.value == agent.tools[i];
      var k :| 0 <= k < |agent.tools| && agent.tools[k] == f.value && agent.tools[k].name == name &&
        forall j :: 0 <= j < k ==> agent.tools[j].name != name;
      assert i == k;
    }
  }

  /** With distinct tool names both agents answer a list of calls alike. */
  lemma SameResponses(agent: LegacyLLMAgent, calls: seq<Part>, runTool: ToolRunner)
    requires DistinctNames(agent.tools) && forall p :: p in calls ==> p.FunctionCall?
    ensures LegacyResponses(agent.tools, calls, runTool) == LlmAgent.FunctionResponses(AsCurrent(agent), calls, runTool)
  {
    forall i | 0 <= i < |calls|
      ensures LegacyToolResponse(agent.tools, calls[i].name, calls[i].args, runTool) ==
              LlmAgent.ToolResponse(AsCurrent(agent), calls[i].name, calls[i].args, runTool)
    {
      FirstIsLast(agent, calls[i].name);
    }
  }

  /** A reply with function calls and no text continues the legacy run, too. */
  lemma LegacyContinues(agent: LegacyLLMAgent, history: seq<Content>, turn: nat, model: Responder, runTool: ToolRunner)
    requires turn < LlmAgent.MaxTurns && model(turn, history).Ok?
    requires LlmAgent.FirstText(model(turn, history).value.parts).None? && LlmAgent.Calls(model(turn, history).value.parts) != []
    ensures var response := model(turn, history).value;
      var reply := Content("user", LegacyResponses(agent.tools, LlmAgent.Calls(response.parts), runTool));
      LegacyTurns(agent, history, turn, model, runTool) == LegacyTurns(agent, history + [response, reply], turn + 1, model, runTool)
  {
    var response := model(turn, history).value;
    var reply := Content("user", LegacyResponses(agent.tools, LlmAgent.Calls(response.parts), runTool));
    assert history + [response] + [reply] == history + [response, reply];
  }

  /** The two agents end a run from `history` and `turn` with the same result after the same number of model calls. */
  predicate Agree(agent: LegacyLLMAgent, history: seq<Content>, turn: nat, model: Responder, runTool: ToolRunner)
    requires turn <= LlmAgent.MaxTurns
  {
    var legacy := LegacyTurns(agent, history, turn, model, runTool);
    var current := LlmAgent.Turns(AsCurrent(agent), history, turn, model, runTool);
    legacy.result == current.result && legacy.calls == current.calls
  }

  /** The turn is within the limit and the model's reply calls functions without giving text. */
  predicate CallsTools(history: seq<Content>, turn: nat, model: Responder)
  {
    turn < LlmAgent.MaxTurns && model(turn, history).Ok? &&
    LlmAgent.FirstText(model(turn, history).value.parts).None? && LlmAgent.Calls(model(turn, history).value.parts) != []
  }

  /** When a turn ends the run, both agents end it alike. */
  lemma BothStop(agent: LegacyLLMAgent, history: seq<Content>, turn: nat, model: Responder, runTool: ToolRunner)
    requires turn <= LlmAgent.MaxTurns
    requires !CallsTools(history, turn, model)
    ensures Agree(agent, history, turn, model, runTool)
  {
  }

  /** The history both agents continue from after a reply with function calls. */
  function Next(agent: LegacyLLMAgent, history: seq<Content>, response: Content, runTool: ToolRunner): seq<Content>
  {
    LlmAgent.Extended(AsCurrent(agent), history, response, runTool)
  }

  /** Both agents agree on a history when they agree on the history the next turn continues from. */
  lemma ContinueAgrees(agent: LegacyLLMAgent, history: seq<Content>, turn: nat, model: Responder, runTool: ToolRunner)
    requires DistinctNames(agent.tools) && CallsTools(history, turn, model)
    requires Agree(agent, Next(agent, history, model(turn, history).value, runTool), turn + 1, model, runTool)
    ensures Agree(agent, history, turn, model, runTool)
  {
    var response := model(turn, history).value;
    var calls := LlmAgent.Calls(response.parts);
    SameResponses(agent, calls, runTool);
    LegacyContinues(agent, history, turn, model, runTool);
    LlmAgent.CallingContinues(AsCurrent(agent), history, turn, model, runTool);
    assert Next(agent, history, response, runTool) == history + [response, Content("user", LegacyResponses(agent.tools, calls, runTool))];
  }

  /**
   * The legacy agent and the current one agree on every run when tool
   * names are distinct: the extra early append is never seen by the
   * model, because a reply with text ends the run.
   */
  lemma {:induction false} LegacyAgrees(agent: LegacyLLMAgent, history: seq<Content>, turn: nat, model: Responder, runTool: ToolRunner)
    requires DistinctNames(agent.tools) && turn <= LlmAgent.MaxTurns
    ensures Agree(agent, history, turn, model, runTool)
    decreases LlmAgent.MaxTurns - turn
  {
    if CallsTools(history, turn, model) {
      LegacyAgrees(agent, Next(agent, history, model(turn, history).value, runTool), turn + 1, model, runTool);
      ContinueAgrees(agent, history, turn, model, runTool);
    } else {
      BothStop(agent, history, turn, model, runTool);
    }
  }

  /** The loop answering a reply's function calls, with each tool found by linear search. */
  method LegacyAnswer(tools: seq<Tool>, calls: seq<Part>, runTool: ToolRunner) returns (responses: seq<Part>)
    requires forall p :: p in calls ==> p.FunctionCall?
    ensures responses == LegacyResponses(tools, calls, runTool)
  {
    responses := [];
    for i := 0 to |calls|
      invariant responses == LegacyResponses(tools, calls[..i], runTool)
    {
      assert calls[i] in calls;
      var tool := FindTool(tools, calls[i].name);
      var value: Json.Value;
      if tool.None? {
        value := LlmAgent.ErrorObject("Tool " + calls[i].name + " not found");
      } else {
        var result := runTool(tool.value, calls[i].args);
        value := if result.Ok? then result.value else LlmAgent.ErrorObject(result.error);
      }
      responses := responses + [FunctionResponse(calls[i].name, value)];
      assert calls[..i + 1] == calls[..i] + [calls[i]];
    }
    assert calls[..|calls|] == calls;
  }

  /** The legacy `LLMAgent::run`. */
  method LegacyRun(agent: LegacyLLMAgent, input: string, model: Responder, runTool: ToolRunner) returns (r: Result<string, string>)
    ensures r == LegacyTurns(agent, LlmAgent.InitialHistory(AsCurrent(agent), input), 0, model, runTool).result
  {
    var history := LlmAgent.InitialHistory(AsCurrent(agent), input);
    ghost var whole := LegacyTurns(agent, history, 0, model, runTool);
    for turn := 0 to LlmAgent.MaxTurns
      invariant LegacyTurns(agent, history, turn, model, runTool).result == whole.result
    {
      var response := model(turn, history);
      if response.Err? {
        return Err(response.error);
      }
      ghost var before := history;
      history := history + [response.value];
      assert history[..|history| - 1] == before;
      var text := LlmAgent.FirstText(response.value.parts);
      if text.Some? {
        return Ok(text.value);
      }
      var calls := LlmAgent.Calls(response.value.parts);
      if calls == [] {
        return Ok("");
      }
      var responses := LegacyAnswer(agent.tools, calls, runTool);
      LegacyContinues(agent, history[..|history| - 1], turn, model, runTool);
      assert history + [Content("user", responses)] == before + [response.value, Content("user", responses)];
      history := history + [Content("user", responses)];
    }
    r := Err("Max turns reached");
  }
}
