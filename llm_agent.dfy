/**
 * The tool-calling agent: it sends the conversation to the model, returns
 * the first non-empty text the model answers with, and otherwise runs the
 * function calls of the answer, sends their results back and asks again,
 * for at most ten model calls.  The model is a scripted responder and
 * tools are run by a tool runner; both are parameters.
 */
module LlmAgent {
  import opened Wrappers
  import opened Strings
  import Json
  import opened Model

  /** The number of model calls one run may make. */
  const MaxTurns: nat := 10

  /** What the streaming run reports while it works. */
  datatype AgentEvent =
    | Thought(text: string)
    | ToolCall(name: string, args: Json.Value)
    | ToolResult(name: string, result: Json.Value)
    | Answer(text: string)
    | Error(message: string)
    | Log(message: string)

  /** `LLMAgent`: its instruction, its tools and the name index over them. */
  datatype LLMAgent = LLMAgent(name: string, description: string, instruction: string,
                               tools: seq<Tool>, toolMap: map<string, nat>)

  /** `i` is the position of the last tool called `n`. */
  predicate LastIndex(tools: seq<Tool>, n: string, i: int)
  {
    0 <= i < |tools| && tools[i].name == n && forall j :: i < j < |tools| ==> tools[j].name != n
  }

  /**
   * The name index `new` builds: each name maps to a position, later
   * tools replacing earlier ones with the same name.
   */
  function ToolMap(tools: seq<Tool>): (m: map<string, nat>)
    ensures forall n :: n in m <==> exists i :: 0 <= i < |tools| && tools[i].name == n
    ensures forall n :: n in m ==> LastIndex(tools, n, m[n])
  {
    if tools == [] then map[]
    else
      var init := tools[..|tools| - 1];
      var m := ToolMap(init);
      assert forall i :: 0 <= i < |init| ==> init[i] == tools[i];
      m[tools[|tools| - 1].name := |tools| - 1]
  }

  /** `LLMAgent::new`. */
  function New(name: string, description: string, instruction: string, tools: seq<Tool>): (a: LLMAgent)
    ensures Valid(a) && a.tools == tools && a.instruction == instruction
  {
    LLMAgent(name, description, instruction, tools, ToolMap(tools))
  }

  /** The name index belongs to the tool list, as `new` makes it. */
  predicate Valid(a: LLMAgent)
  {
    a.toolMap == ToolMap(a.tools)
  }

  /** `get_tool`: the last tool with the name, if any. */
  function GetTool(a: LLMAgent, name: string): (r: Option<Tool>)
    requires Valid(a)
    ensures r.None? <==> forall i :: 0 <= i < |a.tools| ==> a.tools[i].name != name
    ensures r.Some? ==> exists i :: LastIndex(a.tools, name, i) && r.value == a.tools[i]
  {
    if name in a.toolMap then Some(a.tools[a.toolMap[name]]) else None
  }

  /** The JSON object `{"error": message}`. */
  function ErrorObject(message: string): Json.Value
  {
    Json.Object(map["error" := Json.String(message)])
  }

  /** What one function call answers: the tool's result, or an error object. */
  function ToolResponse(a: LLMAgent, name: string, args: Json.Value, runTool: ToolRunner): (v: Json.Value)
    requires Valid(a)
    ensures GetTool(a, name).None? ==> v == ErrorObject("Tool " + name + " not found")
    ensures GetTool(a, name).Some? && runTool(GetTool(a, name).value, args).Err? ==>
      v == ErrorObject(runTool(GetTool(a, name).value, args).error)
    ensures GetTool(a, name).Some? && runTool(GetTool(a, name).value, args).Ok? ==>
      v == runTool(GetTool(a, name).value, args).value
  {
    match GetTool(a, name)
    case None => ErrorObject("Tool " + name + " not found")
    case Some(t) =>
      match runTool(t, args)
      case Ok(v) => v
      case Err(e) => ErrorObject(e)
  }

  /** The function-call parts of an answer, in order. */
  function Calls(parts: seq<Part>): (r: seq<Part>)
    ensures forall p :: p in r <==> p in parts && p.FunctionCall?
    ensures |r| <= |parts|
  {
    if parts == [] then []
    else if parts[0].FunctionCall? then [parts[0]] + Calls(parts[1..])
    else Calls(parts[1..])
  }

  /** A single part contributes itself exactly when it is a call. */
  lemma CallsOne(p: Part)
    ensures Calls([p]) == if p.FunctionCall? then [p] else []
  {
    assert [p][1..] == [];
  }

  /** The calls of two pieces of an answer are those of the first followed by those of the second: order and repeats are kept. */
  lemma {:induction false} CallsAppend(a: seq<Part>, b: seq<Part>)
    ensures Calls(a + b) == Calls(a) + Calls(b)
    decreases |a|
  {
    if a == [] {
      assert a + b == b;
    } else {
      assert (a + b)[0] == a[0];
      assert (a + b)[1..] == a[1..] + b;
      CallsAppend(a[1..], b);
    }
  }

  /** An answer made only of calls is its own list of calls. */
  lemma {:induction false} OnlyCalls(parts: seq<Part>)
    requires forall i :: 0 <= i < |parts| ==> parts[i].FunctionCall?
    ensures Calls(parts) == parts
    decreases |parts|
  {
    if parts != [] {
      OnlyCalls(parts[1..]);
    }
  }

  /** The first non-empty text part of an answer. */
  function FirstText(parts: seq<Part>): (r: Option<string>)
    ensures r.None? <==> forall i :: 0 <= i < |parts| ==> !(parts[i].Text? && parts[i].text != "")
    ensures r.Some? ==> exists i :: (0 <= i < |parts| && parts[i] == Text(r.value) && r.value != "" &&
      forall j :: 0 <= j < i ==> !(parts[j].Text? && parts[j].text != ""))
  {
    if parts == [] then None
    else if parts[0].Text? && parts[0].text != "" then Some(parts[0].text)
    else
      var r := FirstText(parts[1..]);
      if r.Some? then
        var i :| 0 <= i < |parts[1..]| && parts[1..][i] == Text(r.value) && r.value != "" &&
          forall j :: 0 <= j < i ==> !(parts[1..][j].Text? && parts[1..][j].text != "");
        assert parts[i + 1] == Text(r.value);
        r
      else r
  }

  /** One function response per call, in call order. */
  function FunctionResponses(a: LLMAgent, calls: seq<Part>, runTool: ToolRunner): (r: seq<Part>)
    requires Valid(a) && forall p :: p in calls ==> p.FunctionCall?
  {
    seq(|calls|, i requires 0 <= i < |calls| => FunctionResponse(calls[i].name, ToolResponse(a, calls[i].name, calls[i].args, runTool)))
  }

  /** The conversation a run starts from: the instruction as system message, then the input. */
  function InitialHistory(a: LLMAgent, input: string): (h: seq<Content>)
    ensures |h| == 2 && h[0].role == "system" && h[1] == Content("user", [Text(input)])
  {
    [Content("system", [Text(a.instruction)]), Content("user", [Text(input)])]
  }

  /** How a run ended: its result, the history at the end and the number of model calls made. */
  datatype Outcome = Outcome(result: Result<string, string>, history: seq<Content>, calls: nat)

  /** The pair of history entries a continuing turn appends. */
  predicate Continues(a: LLMAgent, response: Content, reply: Content, runTool: ToolRunner)
    requires Valid(a)
  {
    FirstText(response.parts).None? && Calls(response.parts) != [] &&
    reply == Content("user", FunctionResponses(a, Calls(response.parts), runTool))
  }

  /** A history extension made only of continuing turns. */
  predicate ContinuingTurns(a: LLMAgent, extra: seq<Content>, runTool: ToolRunner)
    requires Valid(a)
    decreases |extra|
  {
    extra == [] ||
    (|extra| >= 2 && Continues(a, extra[0], extra[1], runTool) && ContinuingTurns(a, extra[2..], runTool))
  }

  /**
   * The turns of `run` from model call number `turn` on.  A reply with a
   * non-empty text ends the run with that text, without running any of
   * its function calls; a reply with neither ends it with the empty text;
   * otherwise the reply and the function responses are appended and the
   * model is asked again.  After ten calls the run fails.
   */
  function Turns(a: LLMAgent, history: seq<Content>, turn: nat, model: Responder, runTool: ToolRunner): (o: Outcome)
    requires Valid(a) && turn <= MaxTurns
    ensures turn < o.calls <= MaxTurns || (turn == o.calls == MaxTurns)
    ensures (|o.history| == |history| + 2 * (o.calls - turn) && o.result == Err("Max turns reached") && o.calls == MaxTurns) ||
            |o.history| == |history| + 2 * (o.calls - turn - 1)
    ensures |history| <= |o.history| && o.history[..|history|] == history && ContinuingTurns(a, o.history[|history|..], runTool)
    decreases MaxTurns - turn
  {
    if turn == MaxTurns then
      assert history[|history|..] == [];
      Outcome(Err("Max turns reached"), history, turn)
    else
      match model(turn, history)
      case Err(e) =>
        assert history[|history|..] == [];
        Outcome(Err(e), history, turn + 1)
      case Ok(response) =>
        match FirstText(response.parts)
        case Some(t) =>
          assert history[|history|..] == [];
          Outcome(Ok(t), history, turn + 1)
        case None =>
          var calls := Calls(response.parts);
          if calls == [] then
            assert history[|history|..] == [];
            Outcome(Ok(""), history, turn + 1)
          else
            var reply := Content("user", FunctionResponses(a, calls, runTool));
            var next := history + [response, reply];
            var o := Turns(a, next, turn + 1, model, runTool);
            assert Continues(a, response, reply, runTool);
            ExtendTurns(a, history, response, reply, o.history, runTool);
            o
  }

  /** A continuing turn in front of continuing turns. */
  lemma ExtendTurns(a: LLMAgent, history: seq<Content>, response: Content, reply: Content, later: seq<Content>,
                    runTool: ToolRunner)
    requires Valid(a) && Continues(a, response, reply, runTool)
    requires var next := history + [response, reply];
      |next| <= |later| && later[..|next|] == next && ContinuingTurns(a, later[|next|..], runTool)
    ensures |history| <= |later| && later[..|history|] == history && ContinuingTurns(a, later[|history|..], runTool)
  {
    var next := history + [response, reply];
    assert later[..|history|] == next[..|history|] == history;
    var extra := later[|history|..];
    assert extra[0] == response && extra[1] == reply;
    assert extra[2..] == later[|next|..];
  }

  /** The outcome of `run` on an input. */
  function RunOutcome(a: LLMAgent, input: string, model: Responder, runTool: ToolRunner): Outcome
    requires Valid(a)
  {
    Turns(a, InitialHistory(a, input), 0, model, runTool)
  }

  /**
   * A reply with a non-empty text ends the run at once with the first
   * such text; nothing is appended, so none of the reply's function
   * calls is run.
   */
  lemma TextEndsRun(a: LLMAgent, history: seq<Content>, turn: nat, model: Responder, runTool: ToolRunner)
    requires Valid(a) && turn < MaxTurns
    requires model(turn, history).Ok? && FirstText(model(turn, history).value.parts).Some?
    ensures Turns(a, history, turn, model, runTool) ==
      Outcome(Ok(FirstText(model(turn, history).value.parts).value), history, turn + 1)
  {
  }

  /**
   * A reply with neither a non-empty text nor a function call ends the run
   * at once with the empty answer, and nothing is appended.
   */
  lemma EmptyReplyEndsRun(a: LLMAgent, history: seq<Content>, turn: nat, model: Responder, runTool: ToolRunner)
    requires Valid(a) && turn < MaxTurns
    requires model(turn, history).Ok? && FirstText(model(turn, history).value.parts).None?
    requires Calls(model(turn, history).value.parts) == []
    ensures Turns(a, history, turn, model, runTool) == Outcome(Ok(""), history, turn + 1)
  {
  }

  /** The history after a continuing turn: the reply, then the function responses. */
  function Extended(a: LLMAgent, history: seq<Content>, response: Content, runTool: ToolRunner): (h: seq<Content>)
    requires Valid(a)
    ensures |h| == |history| + 2
  {
    history + [response, Content("user", FunctionResponses(a, Calls(response.parts), runTool))]
  }

  /** A reply with function calls and no text continues the run on the extended history. */
  lemma CallingContinues(a: LLMAgent, history: seq<Content>, turn: nat, model: Responder, runTool: ToolRunner)
    requires Valid(a) && turn < MaxTurns
    requires model(turn, history).Ok?
    requires FirstText(model(turn, history).value.parts).None? && Calls(model(turn, history).value.parts) != []
    ensures Turns(a, history, turn, model, runTool) ==
      Turns(a, Extended(a, history, model(turn, history).value, runTool), turn + 1, model, runTool)
  {
  }

  /** A model whose every reply calls a function and holds no text. */
  ghost predicate AlwaysCalls(model: Responder)
  {
    forall k, h :: model(k, h).Ok? && FirstText(model(k, h).value.parts).None? && Calls(model(k, h).value.parts) != []
  }

  /**
   * A model that never answers with text but always calls a function
   * exhausts the ten turns: the run fails with "Max turns reached" after
   * exactly ten calls and twenty appended entries.
   */
  lemma {:induction false} AlwaysCallingExhausts(a: LLMAgent, history: seq<Content>, turn: nat, model: Responder, runTool: ToolRunner)
    requires Valid(a) && turn <= MaxTurns
    requires AlwaysCalls(model)
    ensures var o := Turns(a, history, turn, model, runTool);
      o.result == Err("Max turns reached") && o.calls == MaxTurns && |o.history| == |history| + 2 * (MaxTurns - turn)
    decreases MaxTurns - turn
  {
    if turn < MaxTurns {
      CallingContinues(a, history, turn, model, runTool);
      AlwaysCallingExhausts(a, Extended(a, history, model(turn, history).value, runTool), turn + 1, model, runTool);
    }
  }

  /** Runs the function calls one by one, collecting their responses. */
  method ExecuteCalls(a: LLMAgent, calls: seq<Part>, runTool: ToolRunner) returns (responses: seq<Part>)
    requires Valid(a) && forall p :: p in calls ==> p.FunctionCall?
    ensures responses == FunctionResponses(a, calls, runTool)
  {
    responses := [];
    for i := 0 to |calls|
      invariant responses == FunctionResponses(a, calls[..i], runTool)
    {
      assert calls[i] in calls;
      var name := calls[i].name;
      var response: Json.Value;
      var tool := GetTool(a, name);
      if tool.Some? {
        var result := runTool(tool.value, calls[i].args);
        if result.Ok? {
          response := result.value;
        } else {
          response := ErrorObject(result.error);
        }
      } else {
        response := ErrorObject("Tool " + name + " not found");
      }
      responses := responses + [FunctionResponse(name, response)];
      FunctionResponsesSnoc(a, calls[..i], calls[i], runTool);
      assert calls[..i + 1] == calls[..i] + [calls[i]];
    }
    assert calls[..|calls|] == calls;
  }

  /** One turn of `run`: ask the model, then either stop or extend the history. */
  method Turn(a: LLMAgent, history: seq<Content>, turn: nat, model: Responder, runTool: ToolRunner)
    returns (stop: bool, r: Result<string, string>, history': seq<Content>)
    requires Valid(a) && turn < MaxTurns
    ensures stop ==> r == Turns(a, history, turn, model, runTool).result
    ensures !stop ==> Turns(a, history', turn + 1, model, runTool) == Turns(a, history, turn, model, runTool)
  {
    history' := history;
    r := Ok("");
    var response := model(turn, history);
    if response.Err? {
      return true, Err(response.error), history;
    }
    var text := FirstText(response.value.parts);
    if text.Some? {
      return true, Ok(text.value), history;
    }
    var calls := Calls(response.value.parts);
    if calls == [] {
      return true, Ok(""), history;
    }
    var responses := ExecuteCalls(a, calls, runTool);
    stop := false;
    history' := history + [response.value, Content("user", responses)];
  }

  /** `LLMAgent::run`. */
  method Run(a: LLMAgent, input: string, model: Responder, runTool: ToolRunner) returns (r: Result<string, string>)
    requires Valid(a)
    ensures r == RunOutcome(a, input, model, runTool).result
  {
    var history := InitialHistory(a, input);
    for turn := 0 to MaxTurns
      invariant Turns(a, history, turn, model, runTool) == RunOutcome(a, input, model, runTool)
    {
      var stop, result, next := Turn(a, history, turn, model, runTool);
      if stop {
        return result;
      }
      history := next;
    }
    r := Err("Max turns reached");
  }

  /** `run` makes between one and ten model calls. */
  lemma RunCallsBounded(a: LLMAgent, input: string, model: Responder, runTool: ToolRunner)
    requires Valid(a)
    ensures 1 <= RunOutcome(a, input, model, runTool).calls <= MaxTurns
  {
  }

  // ----- the streaming run -----

  /** All text parts of an answer, concatenated in order (empty ones included). */
  function TextContent(parts: seq<Part>): (t: string)
    ensures FirstText(parts).None? <==> t == ""
  {
    if parts == [] then ""
    else if parts[0].Text? then parts[0].text + TextContent(parts[1..])
    else TextContent(parts[1..])
  }

  /** `run_stream` builds the text content with `push_str`. */
  method ConcatTexts(parts: seq<Part>) returns (t: string)
    ensures t == TextContent(parts)
  {
    t := "";
    for i := 0 to |parts|
      invariant t == TextContent(parts[..i])
    {
      TextContentSnoc(parts[..i], parts[i]);
      assert parts[..i + 1] == parts[..i] + [parts[i]];
      if parts[i].Text? {
        t := t + parts[i].text;
      }
    }
    assert parts[..|parts|] == parts;
  }

  /** Appending a part appends its text, if it has any. */
  lemma {:induction false} TextContentSnoc(parts: seq<Part>, p: Part)
    ensures TextContent(parts + [p]) == TextContent(parts) + (if p.Text? then p.text else "")
    decreases |parts|
  {
    if parts == [] {
      assert [p][1..] == [];
    } else {
      assert (parts + [p])[1..] == parts[1..] + [p];
      TextContentSnoc(parts[1..], p);
    }
  }

  /** The events reported for one function call: the call, an error if any, then the result. */
  function CallEvents(a: LLMAgent, call: Part, runTool: ToolRunner): (es: seq<AgentEvent>)
    requires Valid(a) && call.FunctionCall?
    ensures |es| >= 2 && es[0] == ToolCall(call.name, call.args)
    ensures es[|es| - 1] == ToolResult(call.name, ToolResponse(a, call.name, call.args, runTool))
    ensures |es| == 2 || |es| == 3
  {
    var tool := GetTool(a, call.name);
    var failure :=
      if tool.None? then [Error("Tool " + call.name + " not found")]
      else if runTool(tool.value, call.args).Err? then [Error("Tool " + call.name + " failed: " + runTool(tool.value, call.args).error)]
      else [];
    [ToolCall(call.name, call.args)] + failure + [ToolResult(call.name, ToolResponse(a, call.name, call.args, runTool))]
  }

  /** The events of all calls, in call order. */
  function AllCallEvents(a: LLMAgent, calls: seq<Part>, runTool: ToolRunner): seq<AgentEvent>
    requires Valid(a) && forall p :: p in calls ==> p.FunctionCall?
  {
    if calls == [] then [] else CallEvents(a, calls[0], runTool) + AllCallEvents(a, calls[1..], runTool)
  }

  /** The names in the tool-result events, in order. */
  function ResultNames(es: seq<AgentEvent>): seq<string>
  {
    if es == [] then []
    else if es[0].ToolResult? then [es[0].name] + ResultNames(es[1..])
    else ResultNames(es[1..])
  }

  lemma {:induction false} ResultNamesAppend(a: seq<AgentEvent>, b: seq<AgentEvent>)
    ensures ResultNames(a + b) == ResultNames(a) + ResultNames(b)
  {
    if a != [] {
      assert (a + b)[1..] == a[1..] + b;
      ResultNamesAppend(a[1..], b);
    } else {
      assert a + b == b;
    }
  }

  /** One call reports exactly one result, under the call's name. */
  lemma CallEventsOneResult(a: LLMAgent, call: Part, runTool: ToolRunner)
    requires Valid(a) && call.FunctionCall?
    ensures ResultNames(CallEvents(a, call, runTool)) == [call.name]
  {
    var es := CallEvents(a, call, runTool);
    var last := [es[|es| - 1]];
    assert ResultNames(last) == [call.name];
    if |es| == 3 {
      assert es == [es[0], es[1]] + last;
      assert es[1].Error?;
      assert [es[0], es[1]] == [es[0]] + [es[1]];
      ResultNamesAppend([es[0]], [es[1]]);
      ResultNamesAppend([es[0], es[1]], last);
    } else {
      assert es == [es[0]] + last;
      ResultNamesAppend([es[0]], last);
    }
  }

  /** Each call reports exactly one result, in call order. */
  lemma {:induction false} OneResultPerCall(a: LLMAgent, calls: seq<Part>, runTool: ToolRunner)
    requires Valid(a) && forall p :: p in calls ==> p.FunctionCall?
    ensures ResultNames(AllCallEvents(a, calls, runTool)) == seq(|calls|, i requires 0 <= i < |calls| => calls[i].name)
  {
    if calls != [] {
      var es := CallEvents(a, calls[0], runTool);
      ResultNamesAppend(es, AllCallEvents(a, calls[1..], runTool));
      OneResultPerCall(a, calls[1..], runTool);
      CallEventsOneResult(a, calls[0], runTool);
      assert seq(|calls|, i requires 0 <= i < |calls| => calls[i].name) ==
        [calls[0].name] + seq(|calls| - 1, i requires 0 <= i < |calls| - 1 => calls[1..][i].name);
    }
  }

  /** How a streaming run ended: its result, the events it reported and the history at the end. */
  datatype StreamOutcome = StreamOutcome(result: Result<string, string>, events: seq<AgentEvent>, history: seq<Content>)

  /**
   * The turns of `run_stream`: an answer without function calls ends the
   * run with all its text (the empty text when there is none); with
   * function calls, its text is reported as a thought and the calls run.
   */
  function StreamTurns(a: LLMAgent, history: seq<Content>, turn: nat, model: Responder, runTool: ToolRunner): (o: StreamOutcome)
    requires Valid(a) && turn <= MaxTurns
    ensures o.result.Ok? && o.result.value != "" ==> |o.events| > 0 && o.events[|o.events| - 1] == Answer(o.result.value)
    decreases MaxTurns - turn
  {
    if turn == MaxTurns then StreamOutcome(Err("Max turns reached"), [], history)
    else
      match model(turn, history)
      case Err(e) => StreamOutcome(Err(e), [], history)
      case Ok(response) =>
        var text := TextContent(response.parts);
        var calls := Calls(response.parts);
        if calls == [] then
          if text != "" then StreamOutcome(Ok(text), [Answer(text)], history)
          else StreamOutcome(Ok(""), [], history)
        else
          var thought := if text != "" then [Thought(text)] else [];
          var reply := Content("user", FunctionResponses(a, calls, runTool));
          var o := StreamTurns(a, history + [response, reply], turn + 1, model, runTool);
          StreamOutcome(o.result, thought + AllCallEvents(a, calls, runTool) + o.events, o.history)
  }

  /** Runs the calls of one streaming turn, reporting their events. */
  method StreamCalls(a: LLMAgent, calls: seq<Part>, runTool: ToolRunner) returns (responses: seq<Part>, events: seq<AgentEvent>)
    requires Valid(a) && forall p :: p in calls ==> p.FunctionCall?
    ensures responses == FunctionResponses(a, calls, runTool)
    ensures events == AllCallEvents(a, calls, runTool)
  {
    responses := [];
    events := [];
    for i := 0 to |calls|
      invariant responses == FunctionResponses(a, calls[..i], runTool)
      invariant events == AllCallEvents(a, calls[..i], runTool)
    {
      assert calls[i] in calls;
      var response, callEvents := StreamCall(a, calls[i], runTool);
      events := events + callEvents;
      responses := responses + [FunctionResponse(calls[i].name, response)];
      FunctionResponsesSnoc(a, calls[..i], calls[i], runTool);
      AllCallEventsSnoc(a, calls[..i], calls[i], runTool);
      assert calls[..i + 1] == calls[..i] + [calls[i]];
    }
    assert calls[..|calls|] == calls;
  }

  /** Runs one call: reports it, runs its tool, reports any failure, then reports the result. */
  method StreamCall(a: LLMAgent, call: Part, runTool: ToolRunner) returns (response: Json.Value, events: seq<AgentEvent>)
    requires Valid(a) && call.FunctionCall?
    ensures response == ToolResponse(a, call.name, call.args, runTool)
    ensures events == CallEvents(a, call, runTool)
  {
    var name := call.name;
    var args := call.args;
    events := [ToolCall(name, args)];
    var tool := GetTool(a, name);
    if tool.Some? {
      var result := runTool(tool.value, args);
      if result.Ok? {
        response := result.value;
      } else {
        events := events + [Error("Tool " + name + " failed: " + result.error)];
        response := ErrorObject(result.error);
      }
    } else {
      events := events + [Error("Tool " + name + " not found")];
      response := ErrorObject("Tool " + name + " not found");
    }
    events := events + [ToolResult(name, response)];
  }

  /** Appending a call appends its response. */
  lemma FunctionResponsesSnoc(a: LLMAgent, calls: seq<Part>, call: Part, runTool: ToolRunner)
    requires Valid(a) && (forall p :: p in calls ==> p.FunctionCall?) && call.FunctionCall?
    ensures FunctionResponses(a, calls + [call], runTool) ==
      FunctionResponses(a, calls, runTool) + [FunctionResponse(call.name, ToolResponse(a, call.name, call.args, runTool))]
  {
    var cs := calls + [call];
    assert forall j :: 0 <= j < |calls| ==> cs[j] == calls[j];
  }

  /** Appending a call appends its events. */
  lemma {:induction false} AllCallEventsSnoc(a: LLMAgent, calls: seq<Part>, call: Part, runTool: ToolRunner)
    requires Valid(a) && (forall p :: p in calls ==> p.FunctionCall?) && call.FunctionCall?
    ensures AllCallEvents(a, calls + [call], runTool) == AllCallEvents(a, calls, runTool) + CallEvents(a, call, runTool)
    decreases |calls|
  {
    if calls == [] {
      assert [call][1..] == [];
    } else {
      assert (calls + [call])[1..] == calls[1..] + [call];
      assert calls[0] in calls;
      assert forall p :: p in calls[1..] ==> p in calls;
      AllCallEventsSnoc(a, calls[1..], call, runTool);
    }
  }

  /**
   * One turn of `run_stream`: ask the model, then either stop or report and
   * extend the history.  `events` are those reported before this turn.
   */
  method StreamTurn(a: LLMAgent, history: seq<Content>, turn: nat, events: seq<AgentEvent>, model: Responder, runTool: ToolRunner)
    returns (stop: bool, r: Result<string, string>, events': seq<AgentEvent>, history': seq<Content>)
    requires Valid(a) && turn < MaxTurns
    ensures stop ==> r == StreamTurns(a, history, turn, model, runTool).result &&
                     events' == events + StreamTurns(a, history, turn, model, runTool).events
    ensures !stop ==>
      StreamTurns(a, history', turn + 1, model, runTool).result == StreamTurns(a, history, turn, model, runTool).result &&
      events' + StreamTurns(a, history', turn + 1, model, runTool).events == events + StreamTurns(a, history, turn, model, runTool).events
  {
    history' := history;
    r := Ok("");
    events' := events;
    var response := model(turn, history);
    if response.Err? {
      assert events + [] == events;
      return true, Err(response.error), events, history;
    }
    var text := ConcatTexts(response.value.parts);
    var calls := Calls(response.value.parts);
    if calls == [] {
      if text != "" {
        return true, Ok(text), events + [Answer(text)], history;
      }
      assert events + [] == events;
      return true, Ok(""), events, history;
    }
    var thought: seq<AgentEvent> := if text != "" then [Thought(text)] else [];
    var responses, callEvents := StreamCalls(a, calls, runTool);
    stop := false;
    history' := history + [response.value, Content("user", responses)];
    var rest := StreamTurns(a, history', turn + 1, model, runTool).events;
    assert StreamTurns(a, history, turn, model, runTool).events == thought + callEvents + rest;
    AppendAssoc(events, thought + callEvents, rest);
    events' := events + (thought + callEvents);
  }

  /** A reply without function calls ends the stream with all of its text, reported as the answer when not empty. */
  lemma StreamAnswer(a: LLMAgent, history: seq<Content>, turn: nat, model: Responder, runTool: ToolRunner)
    requires Valid(a) && turn < MaxTurns
    requires model(turn, history).Ok? && Calls(model(turn, history).value.parts) == []
    ensures var text := TextContent(model(turn, history).value.parts);
      var o := StreamTurns(a, history, turn, model, runTool);
      o.result == Ok(text) && o.events == (if text != "" then [Answer(text)] else [])
  {
  }

  /**
   * A reply with function calls reports its text as a thought, then the
   * events of each call, and the stream goes on from the extended history.
   */
  lemma StreamContinues(a: LLMAgent, history: seq<Content>, turn: nat, model: Responder, runTool: ToolRunner)
    requires Valid(a) && turn < MaxTurns
    requires model(turn, history).Ok? && Calls(model(turn, history).value.parts) != []
    ensures var response := model(turn, history).value;
      var text, calls := TextContent(response.parts), Calls(response.parts);
      var next := StreamTurns(a, history + [response, Content("user", FunctionResponses(a, calls, runTool))], turn + 1,
                              model, runTool);
      var o := StreamTurns(a, history, turn, model, runTool);
      o.result == next.result &&
      o.events == (if text != "" then [Thought(text)] else []) + AllCallEvents(a, calls, runTool) + next.events
  {
  }

  lemma AppendAssoc<T>(a: seq<T>, b: seq<T>, c: seq<T>)
    ensures a + (b + c) == (a + b) + c
  {
  }

  /** From `history` at `turn`, with `events` reported so far, the run still ends as `whole`. */
  ghost predicate StreamRemains(a: LLMAgent, history: seq<Content>, turn: nat, events: seq<AgentEvent>, whole: StreamOutcome,
                                model: Responder, runTool: ToolRunner)
    requires Valid(a)
  {
    turn <= MaxTurns &&
    StreamTurns(a, history, turn, model, runTool).result == whole.result &&
    events + StreamTurns(a, history, turn, model, runTool).events == whole.events
  }

  /** `run_stream`: the result together with the reported events. */
  method RunStream(a: LLMAgent, input: string, model: Responder, runTool: ToolRunner)
    returns (r: Result<string, string>, events: seq<AgentEvent>)
    requires Valid(a)
    ensures r == StreamTurns(a, InitialHistory(a, input), 0, model, runTool).result
    ensures events == StreamTurns(a, InitialHistory(a, input), 0, model, runTool).events
  {
    var history := InitialHistory(a, input);
    ghost var whole := StreamTurns(a, history, 0, model, runTool);
    events := [];
    assert [] + whole.events == whole.events;
    for turn := 0 to MaxTurns
      invariant StreamRemains(a, history, turn, events, whole, model, runTool)
    {
      var stop, result, next;
      stop, result, events, next := StreamTurn(a, history, turn, events, model, runTool);
      if stop {
        return result, events;
      }
      history := next;
    }
    assert StreamTurns(a, history, MaxTurns, model, runTool).events == [];
    assert events + [] == events;
    r := Err("Max turns reached");
  }
}
