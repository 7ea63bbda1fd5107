/** The declared shape of a workflow's state: field types, reducers and defaults. */
module Schema {
  import opened Wrappers
  import Json

  /** The type a state field is declared with. */
  datatype FieldType = String | Number | Boolean | Array | Object

  /** How an update is combined with the value already stored in a field. */
  datatype ReducerType = Overwrite | Append | Max | Min | Merge

  /** The reducer a field gets when its definition names none. */
  function DefaultReducer(): (r: ReducerType)
    ensures r == Overwrite
  {
    Overwrite
  }

  /** A field definition: its type, its reducer and an optional default value. */
  datatype StateFieldDef = StateFieldDef(fieldType: FieldType, reducer: ReducerType, default: Option<Json.Value>)

  /** The schema: field definitions by field name. */
  datatype StateSchema = StateSchema(fields: map<string, StateFieldDef>)

  /**
   * Decodes a field definition from its three entries, `reducer` and
   * `default` being optional: a missing reducer is the default reducer and
   * the default value is carried through as given.
   */
  function DecodeFieldDef(fieldType: FieldType, reducer: Option<ReducerType>, default: Option<Json.Value>): (d: StateFieldDef)
    ensures d.fieldType == fieldType && d.default == default
    ensures reducer.Some? ==> d.reducer == reducer.value
    ensures reducer.None? ==> d.reducer == Overwrite
  {
    StateFieldDef(fieldType, reducer.GetOr(DefaultReducer()), default)
  }

  /** The lower-case name a reducer is written with. */
  function ReducerName(r: ReducerType): string
  {
    match r
    case Overwrite => "overwrite"
    case Append => "append"
    case Max => "max"
    case Min => "min"
    case Merge => "merge"
  }

  function ParseReducer(name: string): Option<ReducerType>
  {
    if name == "overwrite" then Some(Overwrite)
    else if name == "append" then Some(Append)
    else if name == "max" then Some(Max)
    else if name == "min" then Some(Min)
    else if name == "merge" then Some(Merge)
    else None
  }

  /** The five reducer names and the five reducers correspond one to one. */
  lemma ReducerNamesBijective(r: ReducerType, name: string)
    ensures ParseReducer(ReducerName(r)) == Some(r)
    ensures ParseReducer(name) == Some(r) <==> name == ReducerName(r)
  {
  }

  /** The lower-case name a field type is written with. */
  function FieldTypeName(t: FieldType): string
  {
    match t
    case String => "string"
    case Number => "number"
    case Boolean => "boolean"
    case Array => "array"
    case Object => "object"
  }

  function ParseFieldType(name: string): Option<FieldType>
  {
    if name == "string" then Some(String)
    else if name == "number" then Some(Number)
    else if name == "boolean" then Some(Boolean)
    else if name == "array" then Some(Array)
    else if name == "object" then Some(Object)
    else None
  }

  /** The five type names and the five field types correspond one to one. */
  lemma FieldTypeNamesBijective(t: FieldType, name: string)
    ensures ParseFieldType(FieldTypeName(t)) == Some(t)
    ensures ParseFieldType(name) == Some(t) <==> name == FieldTypeName(t)
  {
  }
}
