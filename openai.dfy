/**
 * The OpenAI chat format: one message per content (a tool message for a
 * function response, else the text and the tool calls of the content),
 * and the parts read back from the first choice of a reply.
 */
module OpenAICodec {
  import opened Wrappers
  import Json
  import opened Model

  /** The message role: "model" is sent as "assistant", every other role unchanged. */
  function OpenAIRole(role: string): string
  {
    match role
    case "system" => "system"
    case "user" => "user"
    case "model" => "assistant"
    case other => other
  }

  /** The position of the first function response, if there is one. */
  function FirstResponse(parts: seq<Part>): (r: Option<nat>)
    ensures r.None? <==> forall i :: 0 <= i < |parts| ==> !parts[i].FunctionResponse?
    ensures r.Some? ==> (r.value < |parts| && parts[r.value].FunctionResponse? &&
      forall j :: 0 <= j < r.value ==> !parts[j].FunctionResponse?)
  {
    if parts == [] then None
    else if parts[0].FunctionResponse? then Some(0)
    else
      match FirstResponse(parts[1..])
      case None => None
      case Some(k) => Some(k + 1)
  }

  /** The message that answers a tool call: it names the call by the tool's name. */
  function ToolMessage(name: string, response: Json.Value, render: Json.Value -> string): Json.Value
  {
    Json.Object(map["role" := Json.String("tool"), "tool_call_id" := Json.String(name),
                    "content" := Json.String(render(response))])
  }

  /** The text a part adds to the message content: its text or its thinking. */
  function PieceText(part: Part): string
  {
    match part
    case Text(t) => t
    case Thinking(t) => t
    case _ => ""
  }

  /** The text and thinking of the parts, concatenated in order. */
  function TextOf(parts: seq<Part>): string
  {
    if parts == [] then "" else TextOf(parts[..|parts| - 1]) + PieceText(parts[|parts| - 1])
  }

  /** The entry of "tool_calls" for one call; the call's id is the tool's name. */
  function CallJson(name: string, args: Json.Value, render: Json.Value -> string): (v: Json.Value)
    ensures Json.Index(v, "id") == Json.String(name) && Json.Index(v, "type") == Json.String("function")
    ensures Json.Index(Json.Index(v, "function"), "name") == Json.String(name)
    ensures Json.Index(Json.Index(v, "function"), "arguments") == Json.String(render(args))
  {
    Json.Object(map["id" := Json.String(name), "type" := Json.String("function"),
                    "function" := Json.Object(map["name" := Json.String(name), "arguments" := Json.String(render(args))])])
  }

  /** The entries of "tool_calls": one per function call, in order. */
  function CallsOf(parts: seq<Part>, render: Json.Value -> string): (r: seq<Json.Value>)
    ensures |r| <= |parts|
    ensures forall i :: 0 <= i < |r| ==>
      Json.Index(r[i], "id") == Json.Index(Json.Index(r[i], "function"), "name") && Json.Index(r[i], "id").String?
  {
    if parts == [] then []
    else
      var last := parts[|parts| - 1];
      CallsOf(parts[..|parts| - 1], render) +
        (if last.FunctionCall? then [CallJson(last.name, last.args, render)] else [])
  }

  /**
   * The message sent for a content.  A function response anywhere makes it
   * a tool message for the first one; otherwise it carries the text, and
   * the tool calls when there are any, with null content when there is no
   * text beside them.
   */
  function Message(content: Content, render: Json.Value -> string): (r: Json.Value)
    ensures FirstResponse(content.parts).Some? ==>
      var i := FirstResponse(content.parts).value;
      Json.Index(r, "role") == Json.String("tool") &&
      Json.Index(r, "tool_call_id") == Json.String(content.parts[i].name)
    ensures FirstResponse(content.parts).None? ==>
      Json.Index(r, "role") == Json.String(OpenAIRole(content.role)) &&
      (CallsOf(content.parts, render) == [] ==> Json.Get(r, "tool_calls").None?) &&
      (CallsOf(content.parts, render) != [] ==> Json.Index(r, "tool_calls") == Json.Array(CallsOf(content.parts, render)))
  {
    match FirstResponse(content.parts)
    case Some(i) => ToolMessage(content.parts[i].name, content.parts[i].response, render)
    case None =>
      var role := Json.String(OpenAIRole(content.role));
      var text := TextOf(content.parts);
      var calls := CallsOf(content.parts, render);
      if calls != [] then
        Json.Object(map["role" := role, "content" := (if text == "" then Json.Null else Json.String(text)),
                        "tool_calls" := Json.Array(calls)])
      else
        Json.Object(map["role" := role, "content" := Json.String(text)])
  }

  /** `content_to_openai_message`: a search for a function response, then a loop collecting text and calls. */
  method ContentToMessage(content: Content, render: Json.Value -> string) returns (r: Json.Value)
    ensures r == Message(content, render)
  {
    var parts := content.parts;
    for i := 0 to |parts|
      invariant forall j :: 0 <= j < i ==> !parts[j].FunctionResponse?
    {
      if parts[i].FunctionResponse? {
        return ToolMessage(parts[i].name, parts[i].response, render);
      }
    }
    var role := OpenAIRole(content.role);
    var text := "";
    var calls: seq<Json.Value> := [];
    for i := 0 to |parts|
      invariant text == TextOf(parts[..i])
      invariant calls == CallsOf(parts[..i], render)
    {
      assert parts[..i + 1][..i] == parts[..i];
      assert TextOf(parts[..i + 1]) == TextOf(parts[..i]) + PieceText(parts[i]);
      assert CallsOf(parts[..i + 1], render) == CallsOf(parts[..i], render) +
        (if parts[i].FunctionCall? then [CallJson(parts[i].name, parts[i].args, render)] else []);
      match parts[i]
      case Text(t) => text := text + t;
      case Thinking(t) => text := text + t;
      case FunctionCall(name, args, _) => calls := calls + [CallJson(name, args, render)];
      case FunctionResponse(_, _) =>
    }
    assert parts[..|parts|] == parts;
    if calls != [] {
      r := Json.Object(map["role" := Json.String(role), "content" := (if text == "" then Json.Null else Json.String(text)),
                           "tool_calls" := Json.Array(calls)]);
    } else {
      r := Json.Object(map["role" := Json.String(role), "content" := Json.String(text)]);
    }
  }

  /** Roles: "model" is sent as "assistant"; "system", "user" and any other role are kept. */
  lemma RoleMapping(content: Content, render: Json.Value -> string)
    requires forall i :: 0 <= i < |content.parts| ==> !content.parts[i].FunctionResponse?
    ensures content.role == "model" ==> Json.Index(Message(content, render), "role") == Json.String("assistant")
    ensures content.role != "model" ==> Json.Index(Message(content, render), "role") == Json.String(content.role)
  {
  }

  /** The part read from one entry of "tool_calls"; unreadable arguments become the empty object. */
  function CallPart(call: Json.Value, parseJson: string -> Option<Json.Value>): (r: Part)
    ensures r.FunctionCall? && r.thoughtSignature.None?
  {
    var fn := Json.Index(call, "function");
    var name := Json.AsStr(Json.Index(fn, "name")).GetOr("");
    var argsText := Json.AsStr(Json.Index(fn, "arguments")).GetOr("{}");
    FunctionCall(name, parseJson(argsText).GetOr(Json.Object(map[])), None)
  }

  function CallParts(calls: seq<Json.Value>, parseJson: string -> Option<Json.Value>): (r: seq<Part>)
    ensures |r| == |calls|
    ensures forall i :: 0 <= i < |calls| ==> r[i] == CallPart(calls[i], parseJson)
  {
    if calls == [] then []
    else CallParts(calls[..|calls| - 1], parseJson) + [CallPart(calls[|calls| - 1], parseJson)]
  }

  /** The text part of a reply message: present for non-empty string content. */
  function TextPart(message: Json.Value): seq<Part>
  {
    match Json.AsStr(Json.Index(message, "content"))
    case Some(t) => if t != "" then [Text(t)] else []
    case None => []
  }

  /** The tool calls of a reply message, when "tool_calls" is an array. */
  function ReplyCalls(message: Json.Value, parseJson: string -> Option<Json.Value>): seq<Part>
  {
    match Json.AsArray(Json.Index(message, "tool_calls"))
    case Some(calls) => CallParts(calls, parseJson)
    case None => []
  }

  /**
   * What `parse_openai_response` gives: an error unless "choices" is a
   * non-empty array; else a model content holding the first choice's text,
   * if any, and then its calls, none with a signature.
   */
  function ParseResponse(response: Json.Value, parseJson: string -> Option<Json.Value>): (r: Result<Content, string>)
    ensures r.Err? <==> !(Json.Index(response, "choices").Array? && Json.Index(response, "choices").items != [])
    ensures r.Err? ==> r.error == "No choices in OpenAI response"
    ensures r.Ok? ==> (r.value.role == "model" &&
      forall i :: 0 <= i < |r.value.parts| ==>
        (r.value.parts[i].Text? && i == 0 && r.value.parts[i].text != "") ||
        (r.value.parts[i].FunctionCall? && r.value.parts[i].thoughtSignature.None?))
  {
    match Json.AsArray(Json.Index(response, "choices"))
    case None => Err("No choices in OpenAI response")
    case Some(choices) =>
      if choices == [] then Err("No choices in OpenAI response")
      else
        var message := Json.Index(choices[0], "message");
        Ok(Content("model", TextPart(message) + ReplyCalls(message, parseJson)))
  }

  /** `parse_openai_response`, collecting the parts in a loop over the tool calls. */
  method ParseOpenAIResponse(response: Json.Value, parseJson: string -> Option<Json.Value>)
    returns (r: Result<Content, string>)
    ensures r == ParseResponse(response, parseJson)
  {
    var choices := Json.AsArray(Json.Index(response, "choices"));
    if choices.None? || choices.value == [] {
      return Err("No choices in OpenAI response");
    }
    var message := Json.Index(choices.value[0], "message");
    assert ParseResponse(response, parseJson) == Ok(Content("model", TextPart(message) + ReplyCalls(message, parseJson)));
    var parts: seq<Part> := [];
    var content := Json.AsStr(Json.Index(message, "content"));
    if content.Some? && content.value != "" {
      parts := parts + [Text(content.value)];
    }
    assert parts == TextPart(message);
    var toolCalls := Json.AsArray(Json.Index(message, "tool_calls"));
    if toolCalls.Some? {
      parts := PushCalls(parts, toolCalls.value, parseJson);
      assert parts == TextPart(message) + ReplyCalls(message, parseJson);
    } else {
      assert parts + [] == parts;
    }
    r := Ok(Content("model", parts));
  }

  /** The loop over "tool_calls": one function call pushed per entry, in order. */
  method PushCalls(parts: seq<Part>, calls: seq<Json.Value>, parseJson: string -> Option<Json.Value>)
    returns (out: seq<Part>)
    ensures out == parts + CallParts(calls, parseJson)
  {
    out := parts;
    assert parts + CallParts(calls[..0], parseJson) == parts;
    for i := 0 to |calls|
      invariant out == parts + CallParts(calls[..i], parseJson)
    {
      assert calls[..i + 1][..i] == calls[..i];
      var fn := Json.Index(calls[i], "function");
      var name := Json.AsStr(Json.Index(fn, "name")).GetOr("");
      var argsText := Json.AsStr(Json.Index(fn, "arguments")).GetOr("{}");
      var args := parseJson(argsText).GetOr(Json.Object(map[]));
      out := out + [FunctionCall(name, args, None)];
    }
    assert calls[..|calls|] == calls;
  }

  /** The calls of the parts as a reply gives them back: same names and arguments, no signature. */
  function Calls(parts: seq<Part>): seq<Part>
  {
    if parts == [] then []
    else
      var last := parts[|parts| - 1];
      Calls(parts[..|parts| - 1]) + (if last.FunctionCall? then [FunctionCall(last.name, last.args, None)] else [])
  }

  /** Every argument value of the parts' calls reads back from its rendering. */
  predicate ArgumentsReadBack(parts: seq<Part>, foreign: Json.Foreign)
  {
    forall i :: 0 <= i < |parts| && parts[i].FunctionCall? ==>
      foreign.parseJson(foreign.render(parts[i].args)) == Some(parts[i].args)
  }

  /** Reading back the tool calls sent gives the calls, in order, without signatures. */
  lemma {:induction false} CallsRoundTrip(parts: seq<Part>, foreign: Json.Foreign)
    requires ArgumentsReadBack(parts, foreign)
    ensures CallParts(CallsOf(parts, foreign.render), foreign.parseJson) == Calls(parts)
  {
    if parts != [] {
      var init := parts[..|parts| - 1];
      var last := parts[|parts| - 1];
      assert ArgumentsReadBack(init, foreign) by {
        forall i | 0 <= i < |init| && init[i].FunctionCall?
          ensures foreign.parseJson(foreign.render(init[i].args)) == Some(init[i].args)
        {
          assert init[i] == parts[i];
        }
      }
      CallsRoundTrip(init, foreign);
      var front := CallsOf(init, foreign.render);
      if last.FunctionCall? {
        var all := CallsOf(parts, foreign.render);
        assert all == front + [CallJson(last.name, last.args, foreign.render)];
        assert all[..|all| - 1] == front;
        assert CallPart(CallJson(last.name, last.args, foreign.render), foreign.parseJson) == FunctionCall(last.name, last.args, None);
      } else {
        assert front + [] == front;
      }
    }
  }

  /** A reply with a single choice holding `message`. */
  function Reply(message: Json.Value): Json.Value
  {
    Json.Object(map["choices" := Json.Array([Json.Object(map["message" := message])])])
  }

  /**
   * A content without function responses, sent and read back as a reply,
   * becomes a model content: its concatenated text, when not empty, and
   * then its calls, when their arguments read back from their rendering.
   */
  lemma MessageRoundTrip(content: Content, foreign: Json.Foreign)
    requires forall i :: 0 <= i < |content.parts| ==> !content.parts[i].FunctionResponse?
    requires ArgumentsReadBack(content.parts, foreign)
    ensures ParseResponse(Reply(Message(content, foreign.render)), foreign.parseJson) ==
      Ok(Content("model", (if TextOf(content.parts) == "" then [] else [Text(TextOf(content.parts))]) + Calls(content.parts)))
  {
    var m := Message(content, foreign.render);
    ReplyRead(m, foreign.parseJson);
    CallsEmpty(content.parts, foreign.render);
    SentText(content, foreign.render);
    SentCalls(content, foreign.render);
    CallsRoundTrip(content.parts, foreign);
  }

  /** A reply with one choice is read from that choice's message. */
  lemma ReplyRead(message: Json.Value, parseJson: string -> Option<Json.Value>)
    ensures ParseResponse(Reply(message), parseJson) == Ok(Content("model", TextPart(message) + ReplyCalls(message, parseJson)))
  {
    assert Json.AsArray(Json.Index(Reply(message), "choices")) == Some([Json.Object(map["message" := message])]);
  }

  /** The text part read from a sent message without function responses is its text, when not empty. */
  lemma SentText(content: Content, render: Json.Value -> string)
    requires forall i :: 0 <= i < |content.parts| ==> !content.parts[i].FunctionResponse?
    ensures TextPart(Message(content, render)) == (if TextOf(content.parts) == "" then [] else [Text(TextOf(content.parts))])
  {
  }

  /** The tool calls read from a sent message without function responses are the entries it sent. */
  lemma SentCalls(content: Content, render: Json.Value -> string)
    requires forall i :: 0 <= i < |content.parts| ==> !content.parts[i].FunctionResponse?
    ensures forall parseJson: string -> Option<Json.Value> ::
      ReplyCalls(Message(content, render), parseJson) == CallParts(CallsOf(content.parts, render), parseJson)
  {
  }

  /** No tool-call entries exactly when there are no calls. */
  lemma {:induction false} CallsEmpty(parts: seq<Part>, render: Json.Value -> string)
    ensures CallsOf(parts, render) == [] <==> Calls(parts) == []
  {
    if parts != [] {
      CallsEmpty(parts[..|parts| - 1], render);
    }
  }
}
