/**
 * The Anthropic messages format: the system prompt taken out of the
 * history, one message per content with one block per part, and the parts
 * read back from a reply's content blocks.
 */
module AnthropicCodec {
  import opened Wrappers
  import Json
  import opened Model

  /** `i` is the position of the first content with role "system". */
  predicate IsFirstSystem(history: seq<Content>, i: int)
  {
    0 <= i < |history| && history[i].role == "system" &&
    forall j :: 0 <= j < i ==> history[j].role != "system"
  }

  /** The text of a first part, when it is a text part. */
  function LeadingText(parts: seq<Part>): Option<string>
  {
    if parts != [] && parts[0].Text? then Some(parts[0].text) else None
  }

  /**
   * `extract_system_message`: the first system content's leading text;
   * `None` without a system content, or when that content does not start
   * with text (a later system content is not looked at).
   */
  function ExtractSystemMessage(history: seq<Content>): (r: Option<string>)
    ensures (forall i :: 0 <= i < |history| ==> history[i].role != "system") ==> r.None?
    ensures forall i :: IsFirstSystem(history, i) ==> r == LeadingText(history[i].parts)
  {
    if history == [] then None
    else if history[0].role == "system" then LeadingText(history[0].parts)
    else
      var r := ExtractSystemMessage(history[1..]);
      assert forall i :: IsFirstSystem(history, i) ==> i > 0 && IsFirstSystem(history[1..], i - 1);
      r
  }

  /** The message role: "model" is sent as "assistant", every other role unchanged. */
  function AnthropicRole(role: string): string
  {
    match role
    case "user" => "user"
    case "model" => "assistant"
    case other => other
  }

  /** The id that ties a tool call to its result. */
  function ToolUseId(name: string): string
  {
    "tool_" + name
  }

  /** The content block sent for one part; a tool result's response is sent as rendered JSON text. */
  function Block(part: Part, render: Json.Value -> string): Json.Value
  {
    match part
    case Text(t) => Json.Object(map["type" := Json.String("text"), "text" := Json.String(t)])
    case Thinking(t) => Json.Object(map["type" := Json.String("thinking"), "thinking" := Json.String(t)])
    case FunctionCall(name, args, _) =>
      Json.Object(map["type" := Json.String("tool_use"), "id" := Json.String(ToolUseId(name)),
                      "name" := Json.String(name), "input" := args])
    case FunctionResponse(name, response) =>
      Json.Object(map["type" := Json.String("tool_result"), "tool_use_id" := Json.String(ToolUseId(name)),
                      "content" := Json.String(render(response))])
  }

  /** The blocks of a message: one per part, in the order of the parts. */
  function Blocks(parts: seq<Part>, render: Json.Value -> string): (r: seq<Json.Value>)
    ensures |r| == |parts|
    ensures forall i :: 0 <= i < |parts| ==> r[i] == Block(parts[i], render)
  {
    if parts == [] then []
    else Blocks(parts[..|parts| - 1], render) + [Block(parts[|parts| - 1], render)]
  }

  /**
   * The message sent for a content: none for a system content, whose text
   * travels separately, and none for a content without blocks.
   */
  function Message(content: Content, render: Json.Value -> string): (r: Option<Json.Value>)
    ensures r.None? <==> content.role == "system" || content.parts == []
    ensures r.Some? ==> Json.Index(r.value, "role") == Json.String(AnthropicRole(content.role))
    ensures r.Some? ==> Json.Index(r.value, "content") == Json.Array(Blocks(content.parts, render))
  {
    var blocks := Blocks(content.parts, render);
    if content.role == "system" || blocks == [] then None
    else Some(Json.Object(map["role" := Json.String(AnthropicRole(content.role)), "content" := Json.Array(blocks)]))
  }

  /** `content_to_anthropic_message`, collecting the blocks in a loop. */
  method ContentToMessage(content: Content, render: Json.Value -> string) returns (r: Option<Json.Value>)
    ensures r == Message(content, render)
  {
    if content.role == "system" {
      return None;
    }
    var role := AnthropicRole(content.role);
    var parts := content.parts;
    var blocks: seq<Json.Value> := [];
    for i := 0 to |parts|
      invariant blocks == Blocks(parts[..i], render)
    {
      assert parts[..i + 1][..i] == parts[..i];
      blocks := blocks + [Block(parts[i], render)];
    }
    assert parts[..|parts|] == parts;
    if blocks == [] {
      return None;
    }
    r := Some(Json.Object(map["role" := Json.String(role), "content" := Json.Array(blocks)]));
  }

  /** The roles: "user" stays, "model" becomes "assistant", any other non-system role is kept. */
  lemma RoleMapping(content: Content, render: Json.Value -> string)
    requires content.role != "system" && content.parts != []
    ensures content.role == "model" ==> Json.Index(Message(content, render).value, "role") == Json.String("assistant")
    ensures content.role != "model" ==> Json.Index(Message(content, render).value, "role") == Json.String(content.role)
  {
  }

  /** The part read from one reply block: at most one, never a tool result, and no empty text. */
  function BlockPart(block: Json.Value): (r: seq<Part>)
    ensures |r| <= 1
    ensures r != [] ==> !r[0].FunctionResponse?
    ensures r != [] && r[0].Text? ==> r[0].text != ""
    ensures r != [] && r[0].Thinking? ==> r[0].thought != ""
    ensures r != [] && r[0].FunctionCall? ==> r[0].thoughtSignature.None?
    ensures !(Json.Index(block, "type") in {Json.String("text"), Json.String("thinking"), Json.String("tool_use")}) ==> r == []
    ensures Json.Index(block, "type") == Json.String("text") ==>
      var text := Json.Index(block, "text");
      r == (if text.String? && text.s != "" then [Text(text.s)] else [])
    ensures Json.Index(block, "type") == Json.String("thinking") ==>
      var thinking := Json.Index(block, "thinking");
      r == (if thinking.String? && thinking.s != "" then [Thinking(thinking.s)] else [])
    ensures Json.Index(block, "type") == Json.String("tool_use") ==>
      r == [FunctionCall(Json.AsStr(Json.Index(block, "name")).GetOr(""), Json.Index(block, "input"), None)]
  {
    var kind := Json.AsStr(Json.Index(block, "type"));
    if kind == Some("text") then
      var text := Json.AsStr(Json.Index(block, "text"));
      if text.Some? && text.value != "" then [Text(text.value)] else []
    else if kind == Some("thinking") then
      var thinking := Json.AsStr(Json.Index(block, "thinking"));
      if thinking.Some? && thinking.value != "" then [Thinking(thinking.value)] else []
    else if kind == Some("tool_use") then
      [FunctionCall(Json.AsStr(Json.Index(block, "name")).GetOr(""), Json.Index(block, "input"), None)]
    else []
  }

  /** The parts read from a sequence of blocks, in block order. */
  function BlockParts(blocks: seq<Json.Value>): (r: seq<Part>)
    ensures |r| <= |blocks|
  {
    if blocks == [] then []
    else BlockParts(blocks[..|blocks| - 1]) + BlockPart(blocks[|blocks| - 1])
  }

  /** One more block adds its part, if any, at the end. */
  lemma BlockPartsSnoc(blocks: seq<Json.Value>, block: Json.Value)
    ensures BlockParts(blocks + [block]) == BlockParts(blocks) + BlockPart(block)
  {
    assert (blocks + [block])[..|blocks|] == blocks;
  }

  /** The parts of two runs of blocks are those of the first followed by those of the second. */
  lemma {:induction false} BlockPartsAppend(a: seq<Json.Value>, b: seq<Json.Value>)
    ensures BlockParts(a + b) == BlockParts(a) + BlockParts(b)
    decreases |b|
  {
    if b == [] {
      assert a + b == a;
    } else {
      var init, last := b[..|b| - 1], b[|b| - 1];
      assert b == init + [last];
      assert a + b == (a + init) + [last];
      calc {
        BlockParts(a + b);
        { BlockPartsSnoc(a + init, last); }
        BlockParts(a + init) + BlockPart(last);
        { BlockPartsAppend(a, init); }
        (BlockParts(a) + BlockParts(init)) + BlockPart(last);
        BlockParts(a) + (BlockParts(init) + BlockPart(last));
        { BlockPartsSnoc(init, last); }
        BlockParts(a) + BlockParts(b);
      }
    }
  }

  /** What `parse_anthropic_response` gives: an error without a "content" array, else a model content. */
  function ParseResponse(response: Json.Value): (r: Result<Content, string>)
    ensures r.Err? <==> !Json.Index(response, "content").Array?
    ensures r.Err? ==> r.error == "No content in Anthropic response"
    ensures r.Ok? ==> r.value.role == "model" && |r.value.parts| <= |Json.Index(response, "content").items|
    ensures r.Ok? ==> r.value.parts == BlockParts(Json.Index(response, "content").items)
  {
    match Json.AsArray(Json.Index(response, "content"))
    case None => Err("No content in Anthropic response")
    case Some(blocks) => Ok(Content("model", BlockParts(blocks)))
  }

  /** `parse_anthropic_response`, collecting the parts in a loop. */
  method ParseAnthropicResponse(response: Json.Value) returns (r: Result<Content, string>)
    ensures r == ParseResponse(response)
  {
    var blocks := Json.AsArray(Json.Index(response, "content"));
    if blocks.None? {
      return Err("No content in Anthropic response");
    }
    var bs := blocks.value;
    var parts: seq<Part> := [];
    for i := 0 to |bs|
      invariant parts == BlockParts(bs[..i])
    {
      assert bs[..i + 1] == bs[..i] + [bs[i]];
      BlockPartsSnoc(bs[..i], bs[i]);
      var block := bs[i];
      var kind := Json.AsStr(Json.Index(block, "type"));
      if kind == Some("text") {
        var text := Json.AsStr(Json.Index(block, "text"));
        if text.Some? && text.value != "" {
          parts := parts + [Text(text.value)];
        }
      } else if kind == Some("thinking") {
        var thinking := Json.AsStr(Json.Index(block, "thinking"));
        if thinking.Some? && thinking.value != "" {
          parts := parts + [Thinking(thinking.value)];
        }
      } else if kind == Some("tool_use") {
        var name := Json.AsStr(Json.Index(block, "name")).GetOr("");
        parts := parts + [FunctionCall(name, Json.Index(block, "input"), None)];
      }
    }
    assert bs[..|bs|] == bs;
    r := Ok(Content("model", parts));
  }

  /**
   * What a part becomes when its block is read back: empty text and empty
   * thinking vanish, a call loses its signature, a tool result is dropped.
   */
  function Echo(part: Part): seq<Part>
  {
    match part
    case Text(t) => if t == "" then [] else [part]
    case Thinking(t) => if t == "" then [] else [part]
    case FunctionCall(name, args, _) => [FunctionCall(name, args, None)]
    case FunctionResponse(_, _) => []
  }

  function Echoes(parts: seq<Part>): seq<Part>
  {
    if parts == [] then [] else Echoes(parts[..|parts| - 1]) + Echo(parts[|parts| - 1])
  }

  lemma BlockEcho(part: Part, render: Json.Value -> string)
    ensures BlockPart(Block(part, render)) == Echo(part)
  {
  }

  /** Reading back the blocks of a list of parts gives their echoes, in order. */
  lemma {:induction false} BlocksRoundTrip(parts: seq<Part>, render: Json.Value -> string)
    ensures BlockParts(Blocks(parts, render)) == Echoes(parts)
  {
    if parts != [] {
      var init := parts[..|parts| - 1];
      BlocksRoundTrip(init, render);
      BlockEcho(parts[|parts| - 1], render);
      var bs := Blocks(parts, render);
      assert bs[..|bs| - 1] == Blocks(init, render);
    }
  }

  /**
   * A message read back as if it were a reply gives the model content with
   * the echoes of the parts sent.
   */
  lemma MessageRoundTrip(content: Content, render: Json.Value -> string)
    requires content.role != "system" && content.parts != []
    ensures ParseResponse(Message(content, render).value) == Ok(Content("model", Echoes(content.parts)))
  {
    BlocksRoundTrip(content.parts, render);
  }

  /** A part that reading back keeps as it is. */
  predicate Kept(part: Part)
  {
    match part
    case Text(t) => t != ""
    case Thinking(t) => t != ""
    case FunctionCall(_, _, signature) => signature.None?
    case FunctionResponse(_, _) => false
  }

  /** Parts that are all kept are their own echoes. */
  lemma {:induction false} EchoesKept(parts: seq<Part>)
    requires forall i :: 0 <= i < |parts| ==> Kept(parts[i])
    ensures Echoes(parts) == parts
  {
    if parts != [] {
      EchoesKept(parts[..|parts| - 1]);
      assert parts[..|parts| - 1] + [parts[|parts| - 1]] == parts;
    }
  }

  /** A model content of kept parts survives being sent and read back. */
  lemma ModelContentRoundTrip(content: Content, render: Json.Value -> string)
    requires content.role == "model" && content.parts != []
    requires forall i :: 0 <= i < |content.parts| ==> Kept(content.parts[i])
    ensures ParseResponse(Message(content, render).value) == Ok(content)
  {
    MessageRoundTrip(content, render);
    EchoesKept(content.parts);
  }
}
