/**
 * The runtime state of a workflow: named JSON fields, each combined with
 * incoming values by its reducer.
 */
module Store {
  import opened Wrappers
  import opened Strings
  import opened Json
  import Schema

  type Fields = map<string, Value>
  type Reducers = map<string, Schema.ReducerType>

  /** The stored value of a field, if any. */
  function FieldValue(fields: Fields, key: string): Option<Value>
  {
    if key in fields then Some(fields[key]) else None
  }

  /** The reducer of a field: the declared one, Overwrite for undeclared fields. */
  function ReducerOf(reducers: Reducers, key: string): (r: Schema.ReducerType)
    ensures key !in reducers ==> r == Schema.Overwrite
  {
    if key in reducers then reducers[key] else Schema.Overwrite
  }

  /** The elements Append adds for a value: an array's elements, otherwise the value itself. */
  function Appended(v: Value): seq<Value>
  {
    if v.Array? then v.items else [v]
  }

  /**
   * The value a field holds after one update, given the value it held
   * (`None` when absent); `None` means the field stays absent.
   */
  function Reduce(r: Schema.ReducerType, current: Option<Value>, incoming: Value): Option<Value>
  {
    match r
    case Overwrite => Some(incoming)
    case Append =>
      var stored := current.GetOr(Array([]));
      if stored.Array? then Some(Array(stored.items + Appended(incoming))) else Some(stored)
    case Max =>
      var held := if current.Some? then AsNumber(current.value) else None;
      if AsNumber(incoming).Some? && (held.None? || AsNumber(incoming).value > held.value) then Some(incoming)
      else current
    case Min =>
      var held := if current.Some? then AsNumber(current.value) else None;
      if AsNumber(incoming).Some? && (held.None? || AsNumber(incoming).value < held.value) then Some(incoming)
      else current
    case Merge =>
      var stored := current.GetOr(Object(map[]));
      if stored.Object? && incoming.Object? then Some(Object(stored.fields + incoming.fields)) else Some(stored)
  }

  /**
   * The fields after updating `key` with `value`: only the entry for `key`
   * can differ, and it becomes what the field's reducer makes of it.
   */
  function Updated(fields: Fields, reducers: Reducers, key: string, value: Value): (r: Fields)
    ensures r - {key} == fields - {key}
    ensures FieldValue(r, key) == Reduce(ReducerOf(reducers, key), FieldValue(fields, key), value)
  {
    match Reduce(ReducerOf(reducers, key), FieldValue(fields, key), value)
    case Some(v) => fields[key := v]
    case None => fields
  }

  /**
   * The value at a dotted path: the first segment names a field and every
   * further segment an object key; `None` at the first missing step.
   */
  function Lookup(fields: Fields, path: string): Option<Value>
  {
    var segments := Split(path, '.');
    if segments[0] in fields then Walk(fields[segments[0]], segments[1..]) else None
  }

  /** The default values a schema declares, by field name. */
  function Defaults(schema: Schema.StateSchema): Fields
  {
    map name | name in schema.fields && schema.fields[name].default.Some? :: schema.fields[name].default.value
  }

  /** The reducers a schema declares, by field name. */
  function DeclaredReducers(schema: Schema.StateSchema): Reducers
  {
    map name | name in schema.fields :: schema.fields[name].reducer
  }

  /** The merge reducer's loop: each incoming key is written over the stored object. */
  method MergeKeys(stored: map<string, Value>, incoming: map<string, Value>) returns (merged: map<string, Value>)
    ensures merged == stored + incoming
  {
    merged := stored;
    var todo := incoming.Keys;
    while todo != {}
      invariant todo <= incoming.Keys
      invariant merged.Keys == stored.Keys + (incoming.Keys - todo)
      invariant forall k :: k in merged ==>
        merged[k] == if k in incoming && k !in todo then incoming[k] else stored[k]
      decreases todo
    {
      var k :| k in todo;
      merged := merged[k := incoming[k]];
      todo := todo - {k};
    }
  }

  class WorkflowState {
    var fields: Fields
    var reducers: Reducers

    /** The state a schema starts a workflow in: its defaults and its reducers. */
    constructor New(schema: Schema.StateSchema)
      ensures forall name :: name in fields <==> name in schema.fields && schema.fields[name].default.Some?
      ensures forall name :: name in fields ==> Some(fields[name]) == schema.fields[name].default
      ensures reducers.Keys == schema.fields.Keys
      ensures forall name :: name in reducers ==> reducers[name] == schema.fields[name].reducer
    {
      var f: Fields := map[];
      var r: Reducers := map[];
      var todo := schema.fields.Keys;
      while todo != {}
        invariant todo <= schema.fields.Keys
        invariant forall name :: name in f <==> name in schema.fields && name !in todo && schema.fields[name].default.Some?
        invariant forall name :: name in f ==> Some(f[name]) == schema.fields[name].default
        invariant forall name :: name in r <==> name in schema.fields && name !in todo
        invariant forall name :: name in r ==> r[name] == schema.fields[name].reducer
        decreases todo
      {
        var name :| name in todo;
        var def := schema.fields[name];
        if def.default.Some? {
          f := f[name := def.default.value];
        }
        r := r[name := def.reducer];
        todo := todo - {name};
      }
      fields := f;
      reducers := r;
    }

    /** A state with no fields and no reducers: every field is overwritten. */
    constructor Empty()
      ensures fields == map[] && reducers == map[]
    {
      fields := map[];
      reducers := map[];
    }

    /** Combines `value` into the field `key` with that field's reducer. */
    method Update(key: string, value: Value)
      modifies this
      ensures reducers == old(reducers)
      ensures fields == Updated(old(fields), old(reducers), key, value)
    {
      var reducer := ReducerOf(reducers, key);
      match reducer {
        case Overwrite =>
          fields := fields[key := value];
        case Append =>
          if key !in fields {
            fields := fields[key := Array([])];
          }
          var stored := fields[key];
          if stored.Array? {
            var items := stored.items;
            if value.Array? {
              items := items + value.items;
            } else {
              items := items + [value];
            }
            fields := fields[key := Array(items)];
          }
        case Max =>
          var current := if key in fields then AsNumber(fields[key]) else None;
          if value.Number? {
            if current.None? || value.n > current.value {
              fields := fields[key := value];
            }
          }
        case Min =>
          var current := if key in fields then AsNumber(fields[key]) else None;
          if value.Number? {
            if current.None? || value.n < current.value {
              fields := fields[key := value];
            }
          }
        case Merge =>
          if key !in fields {
            fields := fields[key := Object(map[])];
          }
          var stored := fields[key];
          if stored.Object? && value.Object? {
            var merged := MergeKeys(stored.fields, value.fields);
            fields := fields[key := Object(merged)];
          }
      }
    }

    /** The value stored under exactly the name `key`. */
    function Get(key: string): (r: Option<Value>)
      reads this
      ensures r.Some? <==> key in fields
      ensures r.Some? ==> r.value == fields[key]
    {
      FieldValue(fields, key)
    }

    /** The value at a dotted path, walked one segment at a time. */
    method GetPath(path: string) returns (r: Option<Value>)
      ensures r == Lookup(fields, path)
    {
      var parts := Split(path, '.');
      if parts[0] !in fields {
        return None;
      }
      var current := fields[parts[0]];
      var i := 1;
      while i < |parts|
        invariant 1 <= i <= |parts|
        invariant Walk(fields[parts[0]], parts[1..]) == Walk(current, parts[i..])
      {
        match Json.Get(current, parts[i]) {
          case None =>
            return None;
          case Some(child) =>
            current := child;
            i := i + 1;
        }
      }
      return Some(current);
    }

    /** The whole state as one JSON object. */
    function ToJson(): (r: Value)
      reads this
      ensures r.Object? && r.fields == fields
    {
      Object(fields)
    }

    /** The names of the fields that hold a value. */
    function Keys(): (r: set<string>)
      reads this
      ensures forall k :: k in r <==> Get(k).Some?
    {
      fields.Keys
    }
  }
}
