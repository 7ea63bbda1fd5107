/**
 * What each reducer promises, for one update and for a run of updates to
 * the same field, and how dotted paths reach into the state.
 */
module StoreLaws {
  import opened Wrappers
  import opened Strings
  import opened Json
  import opened Store
  import Schema

  /** The field's value after a run of updates, first to last. */
  function ReduceAll(r: Schema.ReducerType, current: Option<Value>, values: seq<Value>): Option<Value>
    decreases |values|
  {
    if values == [] then current else ReduceAll(r, Reduce(r, current, values[0]), values[1..])
  }

  /** A field without a declared reducer, every field of an empty state among them, is overwritten. */
  lemma UndeclaredFieldOverwritten(fields: Fields, reducers: Reducers, key: string, value: Value)
    requires key !in reducers
    ensures Updated(fields, reducers, key, value) == fields[key := value]
  {
  }

  /** Append on an absent field stores the value's elements, one level deep. */
  lemma AppendToAbsent(v: Value)
    ensures Reduce(Schema.Append, None, v) == Some(Array(if v.Array? then v.items else [v]))
  {
    assert [] + Appended(v) == Appended(v);
  }

  /** Append on an array pushes a scalar or extends by an array; a non-array is left alone. */
  lemma AppendToStored(stored: Value, v: Value)
    ensures stored.Array? && v.Array? ==> Reduce(Schema.Append, Some(stored), v) == Some(Array(stored.items + v.items))
    ensures stored.Array? && !v.Array? ==> Reduce(Schema.Append, Some(stored), v) == Some(Array(stored.items + [v]))
    ensures !stored.Array? ==> Reduce(Schema.Append, Some(stored), v) == Some(stored)
  {
  }

  /** Everything a run of appends contributes, in order. */
  function Flatten(values: seq<Value>): seq<Value>
  {
    if values == [] then [] else Appended(values[0]) + Flatten(values[1..])
  }

  /** A run of appends to an array field adds each value's elements in order. */
  lemma {:induction false} AppendAll(items: seq<Value>, values: seq<Value>)
    ensures ReduceAll(Schema.Append, Some(Array(items)), values) == Some(Array(items + Flatten(values)))
    decreases |values|
  {
    if values != [] {
      AppendAll(items + Appended(values[0]), values[1..]);
      assert items + Appended(values[0]) + Flatten(values[1..]) == items + Flatten(values);
    } else {
      assert items + Flatten(values) == items;
    }
  }

  /** Max changes a field only to a numeric value larger than a numeric stored one. */
  lemma MaxReplacesOnlyWhenLarger(current: Option<Value>, v: Value)
    ensures Reduce(Schema.Max, current, v) == current || Reduce(Schema.Max, current, v) == Some(v)
    ensures Reduce(Schema.Max, current, v) != current ==>
      v.Number? && (current.None? || !current.value.Number? || v.n > current.value.n)
    ensures !v.Number? ==> Reduce(Schema.Max, current, v) == current
  {
  }

  /** Min changes a field only to a numeric value smaller than a numeric stored one. */
  lemma MinReplacesOnlyWhenSmaller(current: Option<Value>, v: Value)
    ensures Reduce(Schema.Min, current, v) == current || Reduce(Schema.Min, current, v) == Some(v)
    ensures Reduce(Schema.Min, current, v) != current ==>
      v.Number? && (current.None? || !current.value.Number? || v.n < current.value.n)
    ensures !v.Number? ==> Reduce(Schema.Min, current, v) == current
  {
  }

  /** A numeric Max field never decreases and a numeric Min field never increases. */
  lemma NumericFieldMonotone(c: real, v: Value)
    ensures var r := Reduce(Schema.Max, Some(Number(c)), v); r.Some? && r.value.Number? && r.value.n >= c
    ensures var r := Reduce(Schema.Min, Some(Number(c)), v); r.Some? && r.value.Number? && r.value.n <= c
  {
  }

  predicate AllNumbers(values: seq<Value>)
  {
    forall i :: 0 <= i < |values| ==> values[i].Number?
  }

  /**
   * A run of numeric updates to a Max field leaves the largest of the
   * stored value and the incoming ones.
   */
  lemma {:induction false} MaxAll(c: Value, values: seq<Value>)
    requires c.Number? && AllNumbers(values)
    ensures var r := ReduceAll(Schema.Max, Some(c), values);
      r.Some? && (r.value == c || r.value in values) && r.value.Number? && r.value.n >= c.n &&
      forall i :: 0 <= i < |values| ==> values[i].n <= r.value.n
    decreases |values|
  {
    if values != [] {
      var next := Reduce(Schema.Max, Some(c), values[0]).value;
      MaxAll(next, values[1..]);
      var r := ReduceAll(Schema.Max, Some(c), values);
      forall i | 0 <= i < |values|
        ensures values[i].n <= r.value.n
      {
        if i > 0 {
          assert values[i] == values[1..][i - 1];
        }
      }
    }
  }

  /** From an absent or non-numeric field, numeric Max updates keep the largest of them. */
  lemma MaxOfUpdates(current: Option<Value>, values: seq<Value>)
    requires current.None? || !current.value.Number?
    requires |values| >= 1 && AllNumbers(values)
    ensures var r := ReduceAll(Schema.Max, current, values);
      r.Some? && r.value in values && forall i :: 0 <= i < |values| ==> values[i].n <= r.value.n
  {
    MaxAll(values[0], values[1..]);
    var r := ReduceAll(Schema.Max, current, values);
    forall i | 0 <= i < |values|
      ensures values[i].n <= r.value.n
    {
      if i > 0 {
        assert values[i] == values[1..][i - 1];
      }
    }
  }

  /**
   * A run of numeric updates to a Min field leaves the smallest of the
   * stored value and the incoming ones.
   */
  lemma {:induction false} MinAll(c: Value, values: seq<Value>)
    requires c.Number? && AllNumbers(values)
    ensures var r := ReduceAll(Schema.Min, Some(c), values);
      r.Some? && (r.value == c || r.value in values) && r.value.Number? && r.value.n <= c.n &&
      forall i :: 0 <= i < |values| ==> values[i].n >= r.value.n
    decreases |values|
  {
    if values != [] {
      var next := Reduce(Schema.Min, Some(c), values[0]).value;
      MinAll(next, values[1..]);
      var r := ReduceAll(Schema.Min, Some(c), values);
      forall i | 0 <= i < |values|
        ensures values[i].n >= r.value.n
      {
        if i > 0 {
          assert values[i] == values[1..][i - 1];
        }
      }
    }
  }

  /** Merging an object into an object gives the union of keys, the incoming values winning. */
  lemma MergeObjects(stored: map<string, Value>, incoming: map<string, Value>)
    ensures var r := Reduce(Schema.Merge, Some(Object(stored)), Object(incoming));
      r.Some? && r.value.Object? &&
      r.value.fields.Keys == stored.Keys + incoming.Keys &&
      (forall k :: k in incoming ==> r.value.fields[k] == incoming[k]) &&
      (forall k :: k in stored && k !in incoming ==> r.value.fields[k] == stored[k])
  {
  }

  /** A non-object merged in leaves a stored value alone and turns an absent field into `{}`. */
  lemma MergeNonObject(current: Option<Value>, v: Value)
    requires !v.Object?
    ensures Reduce(Schema.Merge, current, v) == Some(current.GetOr(Object(map[])))
  {
  }

  /** The fields a schema declares no default for are absent from a new state. */
  lemma DefaultsExactly(schema: Schema.StateSchema, name: string)
    ensures name in Defaults(schema) <==> name in schema.fields && schema.fields[name].default.Some?
    ensures name in Defaults(schema) ==> Some(Defaults(schema)[name]) == schema.fields[name].default
  {
  }

  /** A name without a dot is looked up as a field name. */
  lemma LookupPlainName(fields: Fields, name: string)
    requires '.' !in name
    ensures Lookup(fields, name) == FieldValue(fields, name)
  {
  }

  /** The segments of a dotted path select a field, then object keys inside it. */
  lemma LookupSegments(fields: Fields, segments: seq<string>)
    requires |segments| >= 1
    requires forall k :: 0 <= k < |segments| ==> '.' !in segments[k]
    ensures Lookup(fields, Join(segments, ".")) ==
      if segments[0] in fields then Walk(fields[segments[0]], segments[1..]) else None
  {
    SplitJoin(segments, '.');
  }

  /** A field whose own name contains a dot plays no part in any path lookup. */
  lemma DottedFieldUnreachable(fields: Fields, name: string, path: string)
    requires '.' in name
    ensures Lookup(fields, path) == Lookup(fields - {name}, path)
  {
    var segments := Split(path, '.');
    assert '.' !in segments[0];
  }
}
