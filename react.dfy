/**
 * The ReAct agent: it asks the model for one step at a time, keeps a
 * scratchpad of the thoughts, actions and observations so far, and stops
 * at the first final answer or after its iteration budget.  Each model
 * call sees a fresh two-message conversation: the system prompt and the
 * input followed by the scratchpad.
 */
module React {
  import opened Wrappers
  import opened Strings
  import Json
  import opened Model

  /** What one model reply means to the agent. */
  datatype ReActStep =
    | Thought(text: string)
    | Action(tool: string, args: Json.Value)
    | FinalAnswer(answer: string)

  datatype ReActAgent = ReActAgent(name: string, description: string, instruction: string,
                                   tools: seq<Tool>, maxIterations: nat)

  // ----- prompts -----

  /** `sep` joins `parts`, so each part occurs in the joined text. */
  lemma {:induction false} JoinHasParts(parts: seq<string>, sep: string, i: nat)
    requires i < |parts|
    ensures exists k :: OccursAt(Join(parts, sep), parts[i], k)
  {
    if |parts| == 1 {
      assert OccursAt(Join(parts, sep), parts[i], 0);
    } else if i == 0 {
      assert Join(parts, sep) == parts[0] + (sep + Join(parts[1..], sep));
      assert OccursAt(Join(parts, sep), parts[i], 0);
    } else {
      JoinHasParts(parts[1..], sep, i - 1);
      var k :| OccursAt(Join(parts[1..], sep), parts[1..][i - 1], k);
      var front := parts[0] + sep;
      assert Join(parts, sep) == front + Join(parts[1..], sep);
      assert OccursAt(Join(parts, sep), parts[i], |front| + k) by {
        var s := Join(parts, sep);
        assert s[|front| + k..|front| + k + |parts[i]|] == Join(parts[1..], sep)[k..k + |parts[i]|];
      }
    }
  }

  /** Text that occurs inside `b` occurs inside `a + b + c`. */
  lemma OccursInside(a: string, b: string, c: string, sub: string, k: int)
    requires OccursAt(b, sub, k)
    ensures OccursAt(a + b + c, sub, |a| + k)
  {
    var s := a + b + c;
    assert s[|a| + k..|a| + k + |sub|] == b[k..k + |sub|];
  }

  lemma OccursContains(s: string, sub: string, k: int)
    requires OccursAt(s, sub, k)
    ensures Contains(s, sub)
  {
  }

  const NoToolsText := "No tools are available. You must answer based on your knowledge."

  /** The line that presents one tool. */
  function ToolLine(t: Tool): string
  {
    "- " + t.name + ": " + t.description
  }

  /** The tool part of the system prompt. */
  function ToolSection(tools: seq<Tool>): (r: string)
    ensures tools == [] ==> r == NoToolsText
    ensures tools != [] ==> StartsWith(r, "Available tools:\n")
    ensures forall i :: 0 <= i < |tools| ==> Contains(r, ToolLine(tools[i]))
  {
    if tools == [] then NoToolsText
    else
      var lines := seq(|tools|, i requires 0 <= i < |tools| => ToolLine(tools[i]));
      var r := "Available tools:\n" + Join(lines, "\n");
      assert r[..|"Available tools:\n"|] == "Available tools:\n";
      forall i | 0 <= i < |tools| ensures Contains(r, ToolLine(tools[i])) {
        JoinHasParts(lines, "\n", i);
        var k :| OccursAt(Join(lines, "\n"), lines[i], k);
        OccursInside("Available tools:\n", Join(lines, "\n"), "", lines[i], k);
        assert "Available tools:\n" + Join(lines, "\n") + "" == r;
        OccursContains(r, lines[i], |"Available tools:\n"| + k);
      }
      r
  }

  const PatternText := "\n\nYou are using the ReAct (Reasoning + Acting) pattern. For each step:\n\n" +
    "1. **Thought**: Reason about what you know and what you need to do next\n" +
    "2. **Action**: Either call a tool OR provide a final answer\n\n"

  const FormatText := "\n\nResponse format:\n" +
    "- To use a tool, respond with a function call (only use tools listed above)\n" +
    "- To provide a final answer, respond with text starting with \"Final Answer:\" followed by your answer\n\n" +
    "Always think step by step. After receiving tool results (Observations), continue reasoning until you can provide a final answer."

  /**
   * `build_react_system_prompt`: the instruction, the fixed explanation of
   * the pattern, the tool section and the response format.
   */
  function SystemPrompt(agent: ReActAgent): (r: string)
    ensures StartsWith(r, agent.instruction)
  {
    var r := agent.instruction + PatternText + ToolSection(agent.tools) + FormatText;
    assert r[..|agent.instruction|] == agent.instruction;
    r
  }

  /** Text contained in `b` is contained in `a + b + c`. */
  lemma ContainedInside(a: string, b: string, c: string, sub: string)
    requires Contains(b, sub)
    ensures Contains(a + b + c, sub)
  {
    var k :| 0 <= k <= |b| && OccursAt(b, sub, k);
    OccursInside(a, b, c, sub, k);
    OccursContains(a + b + c, sub, |a| + k);
  }

  /** Every tool's line appears in the system prompt, and the no-tools notice when there are none. */
  lemma SystemPromptListsTools(agent: ReActAgent)
    ensures agent.tools == [] ==> Contains(SystemPrompt(agent), NoToolsText)
    ensures forall i :: 0 <= i < |agent.tools| ==> Contains(SystemPrompt(agent), ToolLine(agent.tools[i]))
  {
    var section := ToolSection(agent.tools);
    var front := agent.instruction + PatternText;
    assert SystemPrompt(agent) == front + section + FormatText;
    if agent.tools == [] {
      assert OccursAt(section, NoToolsText, 0);
      OccursContains(section, NoToolsText, 0);
      ContainedInside(front, section, FormatText, NoToolsText);
    }
    forall i | 0 <= i < |agent.tools| ensures Contains(front + section + FormatText, ToolLine(agent.tools[i])) {
      ContainedInside(front, section, FormatText, ToolLine(agent.tools[i]));
    }
  }

  const StepsHeader := "\n\n--- Previous Steps ---\n"
  const ContinueText := "\n\nContinue from where you left off."

  /**
   * `build_prompt_with_scratchpad`: the input alone when the scratchpad is
   * empty; otherwise the input, a header, the entries one per line and a
   * request to continue.  The prompt is the bare input exactly when the
   * scratchpad is empty, and every entry appears in it.
   */
  function PromptWithScratchpad(input: string, scratchpad: seq<string>): (r: string)
    ensures StartsWith(r, input)
    ensures r == input <==> scratchpad == []
    ensures scratchpad != [] ==> EndsWith(r, ContinueText)
    ensures forall i :: 0 <= i < |scratchpad| ==> Contains(r, scratchpad[i])
  {
    if scratchpad == [] then input
    else
      var joined := Join(scratchpad, "\n");
      var r := input + StepsHeader + joined + ContinueText;
      assert r[..|input|] == input;
      assert r[|r| - |ContinueText|..] == ContinueText;
      forall i | 0 <= i < |scratchpad| ensures Contains(r, scratchpad[i]) {
        JoinHasParts(scratchpad, "\n", i);
        var k :| OccursAt(joined, scratchpad[i], k);
        OccursInside(input + StepsHeader, joined, ContinueText, scratchpad[i], k);
        OccursContains(r, scratchpad[i], |input + StepsHeader| + k);
      }
      r
  }

  // ----- reading a reply -----

  /** Whether a part decides the step: a thought, a function call, or text that is not blank. */
  predicate Decides(p: Part)
  {
    p.Thinking? || p.FunctionCall? || (p.Text? && Trim(p.text) != "")
  }

  /** A text part decides exactly when it holds a character that is not white space, in the Unicode sense. */
  lemma BlankTextSkipped(t: string)
    ensures Decides(Text(t)) <==> exists k :: 0 <= k < |t| && !IsSpace(t[k])
  {
  }

  /** The answer after a final-answer prefix, when written in one of the three recognised spellings. */
  function StripAnswerPrefix(t: string): string
  {
    if StartsWith(t, "Final Answer:") then t[13..]
    else if StartsWith(t, "final answer:") then t[13..]
    else if StartsWith(t, "FINAL ANSWER:") then t[13..]
    else t
  }

  /** What a trimmed, non-blank text means. */
  function TextStep(t: string): (r: ReActStep)
    ensures r.FinalAnswer? <==> StartsWith(ToLower(t), "final answer:")
    ensures r.Thought? ==> r.text == t
  {
    if StartsWith(ToLower(t), "final answer:") then FinalAnswer(Trim(StripAnswerPrefix(t)))
    else Thought(t)
  }

  /** What a deciding part means. */
  function PartStep(p: Part): ReActStep
    requires Decides(p)
  {
    match p
    case Thinking(t) => Thought(t)
    case FunctionCall(name, args, _) => Action(name, args)
    case Text(t) => TextStep(Trim(t))
  }

  /**
   * `parse_response`: the first deciding part decides; function responses
   * and blank texts are skipped, and a reply with no deciding part is an
   * empty thought.
   */
  function ParseResponse(parts: seq<Part>): (r: ReActStep)
    ensures (forall i :: 0 <= i < |parts| ==> !Decides(parts[i])) ==> r == Thought("")
    ensures forall i :: FirstDeciding(parts, i) ==> r == PartStep(parts[i])
  {
    if parts == [] then Thought("")
    else if Decides(parts[0]) then PartStep(parts[0])
    else
      var r := ParseResponse(parts[1..]);
      assert forall i :: 1 <= i < |parts| ==> parts[i] == parts[1..][i - 1];
      assert forall i :: FirstDeciding(parts, i) ==> FirstDeciding(parts[1..], i - 1);
      r
  }

  /** `i` is the position of the first part that decides the step. */
  predicate FirstDeciding(parts: seq<Part>, i: int)
  {
    0 <= i < |parts| && Decides(parts[i]) && forall j :: 0 <= j < i ==> !Decides(parts[j])
  }

  /** The prefixes the recognised spellings strip. */
  predicate AnswerPrefix(p: string)
  {
    p == "Final Answer:" || p == "final answer:" || p == "FINAL ANSWER:"
  }

  lemma LowerOfPrefix(p: string, rest: string)
    requires AnswerPrefix(p)
    ensures StartsWith(ToLower(p + rest), "final answer:")
  {
    LowerSpelling(p);
    LowerOfAppend(p, rest);
  }

  /** Lower-casing works character by character, so it keeps prefixes. */
  lemma LowerOfAppend(a: string, b: string)
    ensures |a| <= |ToLower(a + b)| && ToLower(a + b)[..|a|] == ToLower(a)
  {
    var s := ToLower(a + b);
    forall i | 0 <= i < |a|
      ensures s[i] == ToLower(a)[i]
    {
      assert (a + b)[i] == a[i];
    }
  }

  /** Each recognised spelling lower-cases to the same prefix. */
  lemma LowerSpelling(p: string)
    requires AnswerPrefix(p)
    ensures ToLower(p) == "final answer:"
  {
    if p == "Final Answer:" {
      LowerOfLetters(p);
    } else if p == "final answer:" {
      LowerOfLetters(p);
    } else {
      LowerOfLetters(p);
    }
  }

  /** A text whose characters lower-case one by one to the prefix lower-cases to it. */
  lemma LowerOfLetters(p: string)
    requires |p| == 13 && forall i :: 0 <= i < 13 ==> LowerChar(p[i]) == "final answer:"[i]
    ensures ToLower(p) == "final answer:"
  {
  }

  /** A recognised spelling is stripped, and the answer is the trimmed rest. */
  lemma FinalAnswerStripped(p: string, rest: string)
    requires AnswerPrefix(p)
    ensures TextStep(p + rest) == FinalAnswer(Trim(rest))
  {
    LowerOfPrefix(p, rest);
    var t := p + rest;
    assert t[..13] == p && t[13..] == rest;
  }

  /**
   * Any other spelling of the prefix (such as "Final answer:") still makes a
   * final answer, but one that keeps the prefix.
   */
  lemma OtherSpellingKept(t: string)
    requires StartsWith(ToLower(t), "final answer:")
    requires !StartsWith(t, "Final Answer:") && !StartsWith(t, "final answer:") && !StartsWith(t, "FINAL ANSWER:")
    ensures TextStep(t) == FinalAnswer(Trim(t))
  {
  }

  // ----- tools -----

  /**
   * `execute_tool`: the pretty-printed result of the first tool with the
   * name; a tool failure or an unknown name becomes an error text, so the
   * run never fails here.
   */
  function ExecuteTool(agent: ReActAgent, toolName: string, args: Json.Value, runTool: ToolRunner, renderPretty: Json.Value -> string): (r: string)
    ensures FindTool(agent.tools, toolName).None? ==> r == "Error: Tool '" + toolName + "' not found"
    ensures FindTool(agent.tools, toolName).Some? && runTool(FindTool(agent.tools, toolName).value, args).Err? ==>
      r == "Error: " + runTool(FindTool(agent.tools, toolName).value, args).error
    ensures FindTool(agent.tools, toolName).Some? && runTool(FindTool(agent.tools, toolName).value, args).Ok? ==>
      r == renderPretty(runTool(FindTool(agent.tools, toolName).value, args).value)
  {
    match FindTool(agent.tools, toolName)
    case None => "Error: Tool '" + toolName + "' not found"
    case Some(t) =>
      match runTool(t, args)
      case Ok(v) => renderPretty(v)
      case Err(e) => "Error: " + e
  }

  /** A tool name no tool has always gives the not-found text. */
  lemma UnknownTool(agent: ReActAgent, toolName: string, args: Json.Value, runTool: ToolRunner, renderPretty: Json.Value -> string)
    requires forall i :: 0 <= i < |agent.tools| ==> agent.tools[i].name != toolName
    ensures StartsWith(ExecuteTool(agent, toolName, args, runTool, renderPretty), "Error: Tool '")
  {
    var r := ExecuteTool(agent, toolName, args, runTool, renderPretty);
    assert r[..|"Error: Tool '"|] == "Error: Tool '";
  }

  // ----- the run -----

  /** The scratchpad entries a step adds: one per non-empty thought, an action and its observation per action. */
  function Entries(step: ReActStep, observation: string, render: Json.Value -> string): (es: seq<string>)
    requires !step.FinalAnswer?
    ensures step.Thought? ==> |es| == (if step.text == "" then 0 else 1)
    ensures step.Action? ==> |es| == 2 && StartsWith(es[0], "Action: ") && StartsWith(es[1], "Observation: ")
  {
    match step
    case Thought(t) => if t == "" then [] else ["Thought: " + t]
    case Action(tool, args) =>
      var a := "Action: " + tool + "(" + render(args) + ")";
      var o := "Observation: " + observation;
      assert a[..8] == "Action: " && o[..13] == "Observation: ";
      [a, o]
  }

  /** The text returned when the budget runs out without a final answer. */
  function Summary(scratchpad: seq<string>): (r: string)
    ensures StartsWith(r, "Reached maximum iterations")
  {
    var r := "Reached maximum iterations. Here's what I found:\n\n" + Join(scratchpad, "\n");
    assert r[..|"Reached maximum iterations"|] == "Reached maximum iterations";
    r
  }

  /** The conversation of one model call. */
  function Conversation(system: string, input: string, scratchpad: seq<string>): (h: seq<Content>)
    ensures |h| == 2 && h[0].role == "system" && h[1].role == "user"
  {
    [Content("system", [Text(system)]), Content("user", [Text(PromptWithScratchpad(input, scratchpad))])]
  }

  /** How a run ended: its result, the scratchpad at the end and the number of model calls. */
  datatype Outcome = Outcome(result: Result<string, string>, scratchpad: seq<string>, calls: nat)

  /** The step a reply is read as, together with its observation when it is an action. */
  function Observation(agent: ReActAgent, step: ReActStep, runTool: ToolRunner, foreign: Json.Foreign): string
  {
    if step.Action? then ExecuteTool(agent, step.tool, step.args, runTool, foreign.renderPretty) else ""
  }

  /**
   * The iterations of `run` from number `k` on: each asks the model once,
   * stops at a final answer or a model error, and otherwise extends the
   * scratchpad.  After the budget the summary is returned.
   */
  function Iterate(agent: ReActAgent, input: string, scratchpad: seq<string>, k: nat,
                   model: Responder, runTool: ToolRunner, foreign: Json.Foreign): (o: Outcome)
    requires k <= agent.maxIterations
    ensures k <= o.calls <= agent.maxIterations
    ensures |scratchpad| <= |o.scratchpad| <= |scratchpad| + 2 * (o.calls - k)
    ensures o.scratchpad[..|scratchpad|] == scratchpad
    decreases agent.maxIterations - k
  {
    if k == agent.maxIterations then Outcome(Ok(Summary(scratchpad)), scratchpad, k)
    else
      match model(k, Conversation(SystemPrompt(agent), input, scratchpad))
      case Err(e) => Outcome(Err(e), scratchpad, k + 1)
      case Ok(response) =>
        var step := ParseResponse(response.parts);
        if step.FinalAnswer? then Outcome(Ok(step.answer), scratchpad, k + 1)
        else
          var next := scratchpad + Entries(step, Observation(agent, step, runTool, foreign), foreign.render);
          var o := Iterate(agent, input, next, k + 1, model, runTool, foreign);
          assert o.scratchpad[..|scratchpad|] == o.scratchpad[..|next|][..|scratchpad|];
          o
  }

  /** The outcome of `run` on an input. */
  function RunOutcome(agent: ReActAgent, input: string, model: Responder, runTool: ToolRunner, foreign: Json.Foreign): Outcome
  {
    Iterate(agent, input, [], 0, model, runTool, foreign)
  }

  /** A reply read as a final answer ends the run with that answer. */
  lemma FinalAnswerEnds(agent: ReActAgent, input: string, scratchpad: seq<string>, k: nat,
                        model: Responder, runTool: ToolRunner, foreign: Json.Foreign)
    requires k < agent.maxIterations
    requires var reply := model(k, Conversation(SystemPrompt(agent), input, scratchpad));
      reply.Ok? && ParseResponse(reply.value.parts).FinalAnswer?
    ensures Iterate(agent, input, scratchpad, k, model, runTool, foreign).result ==
      Ok(ParseResponse(model(k, Conversation(SystemPrompt(agent), input, scratchpad)).value.parts).answer)
  {
  }

  /** A model that answers every call and never gives a final answer. */
  ghost predicate NeverAnswers(model: Responder)
  {
    forall k, h :: model(k, h).Ok? && !ParseResponse(model(k, h).value.parts).FinalAnswer?
  }

  /** A step that is not a final answer continues the run. */
  lemma StepContinues(agent: ReActAgent, input: string, scratchpad: seq<string>, k: nat,
                      model: Responder, runTool: ToolRunner, foreign: Json.Foreign)
    requires k < agent.maxIterations
    requires var reply := model(k, Conversation(SystemPrompt(agent), input, scratchpad));
      reply.Ok? && !ParseResponse(reply.value.parts).FinalAnswer?
    ensures var step := ParseResponse(model(k, Conversation(SystemPrompt(agent), input, scratchpad)).value.parts);
      Iterate(agent, input, scratchpad, k, model, runTool, foreign) ==
      Iterate(agent, input, scratchpad + Entries(step, Observation(agent, step, runTool, foreign), foreign.render), k + 1, model, runTool, foreign)
  {
  }

  /**
   * Without a final answer the run uses its whole budget and returns the
   * summary of its scratchpad, which starts with "Reached maximum iterations".
   */
  lemma {:induction false} NoAnswerSummarizes(agent: ReActAgent, input: string, scratchpad: seq<string>, k: nat,
                                             model: Responder, runTool: ToolRunner, foreign: Json.Foreign)
    requires k <= agent.maxIterations && NeverAnswers(model)
    ensures var o := Iterate(agent, input, scratchpad, k, model, runTool, foreign);
      o.calls == agent.maxIterations && o.result == Ok(Summary(o.scratchpad)) &&
      StartsWith(o.result.value, "Reached maximum iterations")
    decreases agent.maxIterations - k
  {
    if k < agent.maxIterations {
      var reply := model(k, Conversation(SystemPrompt(agent), input, scratchpad));
      var step := ParseResponse(reply.value.parts);
      StepContinues(agent, input, scratchpad, k, model, runTool, foreign);
      NoAnswerSummarizes(agent, input, scratchpad + Entries(step, Observation(agent, step, runTool, foreign), foreign.render),
                         k + 1, model, runTool, foreign);
    }
  }

  /** One iteration of `run`: ask the model, then stop or extend the scratchpad. */
  method Step(agent: ReActAgent, input: string, system: string, scratchpad: seq<string>, k: nat,
              model: Responder, runTool: ToolRunner, foreign: Json.Foreign)
    returns (stop: bool, r: Result<string, string>, scratchpad': seq<string>)
    requires k < agent.maxIterations && system == SystemPrompt(agent)
    ensures stop ==> r == Iterate(agent, input, scratchpad, k, model, runTool, foreign).result
    ensures !stop ==> Iterate(agent, input, scratchpad', k + 1, model, runTool, foreign) ==
                      Iterate(agent, input, scratchpad, k, model, runTool, foreign)
  {
    scratchpad' := scratchpad;
    r := Ok("");
    var prompt := PromptWithScratchpad(input, scratchpad);
    var history := [Content("system", [Text(system)]), Content("user", [Text(prompt)])];
    var response := model(k, history);
    if response.Err? {
      return true, Err(response.error), scratchpad;
    }
    var step := ParseResponse(response.value.parts);
    match step {
      case Thought(thought) =>
        if thought != "" {
          scratchpad' := scratchpad + ["Thought: " + thought];
        }
      case Action(tool, args) =>
        scratchpad' := scratchpad + ["Action: " + tool + "(" + foreign.render(args) + ")"];
        var observation := ExecuteTool(agent, tool, args, runTool, foreign.renderPretty);
        scratchpad' := scratchpad' + ["Observation: " + observation];
        assert scratchpad' == scratchpad + Entries(step, Observation(agent, step, runTool, foreign), foreign.render);
      case FinalAnswer(answer) =>
        return true, Ok(answer), scratchpad;
    }
    stop := false;
  }

  /** `ReActAgent::run`. */
  method Run(agent: ReActAgent, input: string, model: Responder, runTool: ToolRunner, foreign: Json.Foreign)
    returns (r: Result<string, string>)
    ensures r == RunOutcome(agent, input, model, runTool, foreign).result
  {
    var system := SystemPrompt(agent);
    var scratchpad: seq<string> := [];
    for k := 0 to agent.maxIterations
      invariant Iterate(agent, input, scratchpad, k, model, runTool, foreign) == RunOutcome(agent, input, model, runTool, foreign)
    {
      var stop, result, next := Step(agent, input, system, scratchpad, k, model, runTool, foreign);
      if stop {
        return result;
      }
      scratchpad := next;
    }
    r := Ok(Summary(scratchpad));
  }
}
