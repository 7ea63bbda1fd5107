/**
 * The Gemini wire format for message parts: serialising a part for a
 * request, and reading the parts of a reply.  A function call's thought
 * signature travels as a sibling key of "functionCall" and has to come
 * back unchanged on the next request.
 */
module GeminiCodec {
  import opened Wrappers
  import Json
  import opened Model

  /** The wire object of a function call: its "functionCall" member, and the signature beside it when there is one. */
  function CallObject(name: string, args: Json.Value, signature: Option<string>): map<string, Json.Value>
  {
    var call := map["functionCall" := Json.Object(map["name" := Json.String(name), "args" := args])];
    if signature.Some? then call["thoughtSignature" := Json.String(signature.value)] else call
  }

  /**
   * `part_to_gemini_json`: the JSON sent for a part, `None` for thinking,
   * which is never sent back to the model.
   */
  function PartToJson(part: Part): (r: Option<Json.Value>)
    ensures r.None? <==> part.Thinking?
    ensures part.FunctionCall? ==>
      (Json.Get(r.value, "thoughtSignature").Some? <==> part.thoughtSignature.Some?)
  {
    match part
    case Text(t) => Some(Json.Object(map["text" := Json.String(t)]))
    case Thinking(_) => None
    case FunctionCall(name, args, signature) => Some(Json.Object(CallObject(name, args, signature)))
    case FunctionResponse(name, response) =>
      Some(Json.Object(map["functionResponse" := Json.Object(map["name" := Json.String(name), "response" := response])]))
  }

  /** A leading thinking part, for a non-empty "thought" string. */
  function ThoughtPart(p: Json.Value): seq<Part>
  {
    var t := Json.Get(p, "thought");
    if t.Some? && t.value.String? && t.value.s != "" then [Thinking(t.value.s)] else []
  }

  /** The sibling "thoughtSignature", when it is a string. */
  function Signature(p: Json.Value): Option<string>
  {
    var s := Json.Get(p, "thoughtSignature");
    if s.Some? && s.value.String? then Some(s.value.s) else None
  }

  /** The text part for a "text" string, else the function call for a "functionCall" member. */
  function BodyPart(p: Json.Value): seq<Part>
  {
    match Json.AsStr(Json.Index(p, "text"))
    case Some(t) => [Text(t)]
    case None =>
      match Json.Get(p, "functionCall")
      case None => []
      case Some(fc) => [FunctionCall(Json.AsStr(Json.Index(fc, "name")).GetOr(""), Json.Index(fc, "args"), Signature(p))]
  }

  /** What `parse_gemini_part` returns for a reply part: at most two parts, thinking first. */
  function Parsed(p: Json.Value): (r: seq<Part>)
    ensures |r| <= 2
    ensures forall i :: 1 <= i < |r| ==> !r[i].Thinking?
  {
    ThoughtPart(p) + BodyPart(p)
  }

  /** `parse_gemini_part`, pushing the parts it finds onto a fresh list. */
  method ParsePart(p: Json.Value) returns (parts: seq<Part>)
    ensures parts == Parsed(p)
  {
    parts := [];
    var thought := Json.Get(p, "thought");
    if thought.Some? && thought.value.String? && thought.value.s != "" {
      parts := parts + [Thinking(thought.value.s)];
    }
    var text := Json.AsStr(Json.Index(p, "text"));
    if text.Some? {
      parts := parts + [Text(text.value)];
    } else {
      var fc := Json.Get(p, "functionCall");
      if fc.Some? {
        var name := Json.AsStr(Json.Index(fc.value, "name")).GetOr("");
        var args := Json.Index(fc.value, "args");
        var signature := Json.Get(p, "thoughtSignature");
        var sig: Option<string> := if signature.Some? && signature.value.String? then Some(signature.value.s) else None;
        parts := parts + [FunctionCall(name, args, sig)];
      }
    }
  }

  /** A thinking part is read exactly when the reply carries a non-empty "thought" string. */
  lemma ThinkingReadIff(p: Json.Value)
    ensures (|Parsed(p)| > 0 && Parsed(p)[0].Thinking?) <==>
      (Json.Get(p, "thought").Some? && Json.Get(p, "thought").value.String? && Json.Get(p, "thought").value.s != "")
  {
  }

  /**
   * After the thinking part comes text when "text" is a string, and
   * otherwise the function call when "functionCall" is present; the call's
   * name defaults to "" and its signature is the sibling key's.
   */
  lemma BodyRead(p: Json.Value)
    ensures Json.Index(p, "text").String? ==> Parsed(p)[|Parsed(p)| - 1] == Text(Json.Index(p, "text").s)
    ensures !Json.Index(p, "text").String? && Json.Get(p, "functionCall").Some? ==>
      var r := Parsed(p)[|Parsed(p)| - 1];
      var fc := Json.Get(p, "functionCall").value;
      r.FunctionCall? &&
      r.name == (if Json.Index(fc, "name").String? then Json.Index(fc, "name").s else "") &&
      r.args == Json.Index(fc, "args") &&
      (r.thoughtSignature.Some? <==> Json.Get(p, "thoughtSignature").Some? && Json.Get(p, "thoughtSignature").value.String?)
    ensures !Json.Index(p, "text").String? && Json.Get(p, "functionCall").None? ==> Parsed(p) == ThoughtPart(p)
  {
  }

  /** Reading back the JSON of a text part or a function call gives exactly that part. */
  lemma RoundTrip(part: Part)
    requires part.Text? || part.FunctionCall?
    ensures PartToJson(part).Some? && Parsed(PartToJson(part).value) == [part]
  {
    if part.FunctionCall? {
      var j := PartToJson(part).value;
      assert "text" !in j.fields && "thought" !in j.fields;
    }
  }

  /** A function response is sent but never read back: replies do not carry them. */
  lemma ResponseNotRead(name: string, response: Json.Value)
    ensures Parsed(PartToJson(FunctionResponse(name, response)).value) == []
  {
  }

  /**
   * A reply part carrying a function call and no text: serialising the
   * call it is read as keeps the name, the arguments and the thought
   * signature.
   */
  lemma CallPreserved(p: Json.Value)
    requires !Json.Index(p, "text").String? && Json.Get(p, "functionCall").Some?
    ensures var parts := Parsed(p);
      var sent := PartToJson(parts[|parts| - 1]).value;
      var fc := Json.Get(p, "functionCall").value;
      Json.Index(Json.Index(sent, "functionCall"), "name") == Json.String(Json.AsStr(Json.Index(fc, "name")).GetOr("")) &&
      Json.Index(Json.Index(sent, "functionCall"), "args") == Json.Index(fc, "args") &&
      Json.Get(sent, "thoughtSignature") == (if Signature(p).Some? then Some(Json.String(Signature(p).value)) else None)
  {
  }

  /**
   * A reply part that is exactly a function call with a string name and an
   * optional string signature comes back unchanged from reading and
   * serialising it again.
   */
  predicate WellFormedCall(p: Json.Value)
  {
    p.Object? && "functionCall" in p.fields &&
    (p.fields.Keys == {"functionCall"} ||
     (p.fields.Keys == {"functionCall", "thoughtSignature"} && p.fields["thoughtSignature"].String?)) &&
    var fc := p.fields["functionCall"];
    fc.Object? && fc.fields.Keys == {"name", "args"} && fc.fields["name"].String?
  }

  lemma {:induction false} CallRoundTrip(p: Json.Value)
    requires WellFormedCall(p)
    ensures |Parsed(p)| == 1 && PartToJson(Parsed(p)[0]) == Some(p)
  {
    var fc := p.fields["functionCall"];
    assert "text" !in p.fields && "thought" !in p.fields;
    var part := Parsed(p)[0];
    assert part == FunctionCall(fc.fields["name"].s, fc.fields["args"], Signature(p));
    assert Json.Object(map["name" := Json.String(part.name), "args" := part.args]) == fc;
    var sent := CallObject(part.name, part.args, part.thoughtSignature);
    assert sent.Keys == p.fields.Keys;
    assert sent == p.fields;
  }

  /** The parts of a message that are sent: every part but thinking, in order. */
  function SentParts(parts: seq<Part>): (r: seq<Json.Value>)
    ensures |r| <= |parts|
  {
    if parts == [] then []
    else
      var rest := SentParts(parts[1..]);
      match PartToJson(parts[0])
      case None => rest
      case Some(j) => [j] + rest
  }

  /** The message sent for a content: its role and its sent parts. */
  function ContentToJson(c: Content): (r: Json.Value)
    ensures Json.Index(r, "role") == Json.String(c.role)
  {
    Json.Object(map["role" := Json.String(c.role), "parts" := Json.Array(SentParts(c.parts))])
  }

  /** A history serialised message by message. */
  function HistoryToJson(history: seq<Content>): (r: seq<Json.Value>)
    ensures |r| == |history|
    ensures forall i :: 0 <= i < |history| ==> Json.Index(r[i], "role") == Json.String(history[i].role)
  {
    seq(|history|, i requires 0 <= i < |history| => ContentToJson(history[i]))
  }

  /** The parts other than thinking. */
  function Unthought(parts: seq<Part>): seq<Part>
  {
    if parts == [] then []
    else (if parts[0].Thinking? then [] else [parts[0]]) + Unthought(parts[1..])
  }

  /** Reading every part of a message. */
  function ParsedAll(js: seq<Json.Value>): seq<Part>
  {
    if js == [] then [] else Parsed(js[0]) + ParsedAll(js[1..])
  }

  /**
   * Serialising a history drops only thinking: reading back the parts sent
   * for a message without function responses gives its parts minus the
   * thinking, signatures included, in order.
   */
  lemma {:induction false} SentPartsRoundTrip(parts: seq<Part>)
    requires forall i :: 0 <= i < |parts| ==> !parts[i].FunctionResponse?
    ensures ParsedAll(SentParts(parts)) == Unthought(parts)
  {
    if parts != [] {
      SentPartsRoundTrip(parts[1..]);
      if !parts[0].Thinking? {
        RoundTrip(parts[0]);
        var j := PartToJson(parts[0]).value;
        assert SentParts(parts) == [j] + SentParts(parts[1..]);
        assert ([j] + SentParts(parts[1..]))[1..] == SentParts(parts[1..]);
      }
    }
  }
}
