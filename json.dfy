/**
 * JSON values as `serde_json::Value` represents them, the accessors the
 * system uses on them, and the foreign text conversions it calls.
 *
 * Numbers are exact reals; objects are finite maps from keys to values.
 */
module Json {
  import opened Wrappers
  import opened Strings

  datatype Value =
    | Null
    | Bool(b: bool)
    | Number(n: real)
    | String(s: string)
    | Array(items: seq<Value>)
    | Object(fields: map<string, Value>)

  /** `Value::get(key)`: the member of an object, `None` for a missing key or a non-object. */
  function Get(v: Value, key: string): (r: Option<Value>)
    ensures r.Some? <==> v.Object? && key in v.fields
    ensures r.Some? ==> r.value == v.fields[key]
  {
    if v.Object? && key in v.fields then Some(v.fields[key]) else None
  }

  /** `value[key]`: like `Get`, but JSON null where `Get` gives `None`. */
  function Index(v: Value, key: string): (r: Value)
    ensures Get(v, key).Some? ==> r == Get(v, key).value
    ensures Get(v, key).None? ==> r == Null
  {
    if v.Object? && key in v.fields then v.fields[key] else Null
  }

  /** `Value::as_str`. */
  function AsStr(v: Value): Option<string>
  {
    if v.String? then Some(v.s) else None
  }

  /** `Value::as_f64`: every JSON number is representable in this model. */
  function AsNumber(v: Value): Option<real>
  {
    if v.Number? then Some(v.n) else None
  }

  /** `Value::as_array`. */
  function AsArray(v: Value): Option<seq<Value>>
  {
    if v.Array? then Some(v.items) else None
  }

  /** Object with one member. */
  function Single(key: string, v: Value): Value
  {
    Object(map[key := v])
  }

  /**
   * Follows object keys one segment at a time: `None` as soon as a segment
   * is missing or the value reached is not an object.
   */
  function Walk(v: Value, segments: seq<string>): (r: Option<Value>)
    ensures segments == [] ==> r == Some(v)
  {
    if segments == [] then Some(v)
    else match Get(v, segments[0])
      case None => None
      case Some(child) => Walk(child, segments[1..])
  }

  /** Walking along `p + q` is walking along `p`, then along `q`. */
  lemma {:induction false} WalkAppend(v: Value, p: seq<string>, q: seq<string>)
    ensures Walk(v, p + q) == (match Walk(v, p) case None => None case Some(w) => Walk(w, q))
  {
    if p != [] {
      assert (p + q)[0] == p[0] && (p + q)[1..] == p[1..] + q;
      match Get(v, p[0])
      case None =>
      case Some(child) => WalkAppend(child, p[1..], q);
    } else {
      assert p + q == q;
    }
  }

  /**
   * The foreign text conversions: `serde_json::from_str`, `to_string`,
   * `to_string_pretty`, `Number::to_string` and `str::parse::<f64>`.  They
   * are uninterpreted here; each is a total function supplied by the caller.
   */
  datatype Foreign = Foreign(
    parseJson: string -> Option<Value>,
    render: Value -> string,
    renderPretty: Value -> string,
    renderNumber: real -> string,
    parseNumber: string -> Option<real>)
}
