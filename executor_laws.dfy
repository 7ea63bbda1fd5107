/**
 * What the graph executor guarantees: readiness, the flow of data from a
 * node to the next, where outputs are stored, and that a run executes every
 * node at most once and stops after at most one round per node.
 */
module ExecutorLaws {
  import opened Wrappers
  import opened Strings
  import opened Json
  import GraphTypes
  import Store
  import ConditionAst
  import ConditionParser
  import ConditionPrint
  import ConditionEvaluator
  import opened GraphExecutor

  /** The only key of a single-member object. */
  lemma OnlyKey(fields: map<string, Value>, k: string, other: string)
    requires |fields| == 1 && k in fields && other != k
    ensures other !in fields
  {
    if other in fields {
      SubsetCardinality({k, other}, fields.Keys);
      assert false;
    }
  }

  /**
   * `value_to_text` gives a string verbatim, null as the empty text, and a
   * single-member object holding "result", "answer" or "response" as the
   * text of that member.
   */
  lemma ValueToTextCases(v: Value, renderNumber: real -> string)
    ensures v.String? ==> ValueToText(v, renderNumber) == v.s
    ensures v.Null? ==> ValueToText(v, renderNumber) == ""
    ensures v.Bool? ==> ValueToText(v, renderNumber) == (if v.b then "true" else "false")
    ensures v.Object? && |v.fields| == 1 && "result" in v.fields ==>
      ValueToText(v, renderNumber) == ValueToText(v.fields["result"], renderNumber)
    ensures v.Object? && |v.fields| == 1 && "answer" in v.fields ==>
      ValueToText(v, renderNumber) == ValueToText(v.fields["answer"], renderNumber)
    ensures v.Object? && |v.fields| == 1 && "response" in v.fields ==>
      ValueToText(v, renderNumber) == ValueToText(v.fields["response"], renderNumber)
  {
    if v.Object? && |v.fields| == 1 {
      if "answer" in v.fields {
        OnlyKey(v.fields, "answer", "result");
      }
      if "response" in v.fields {
        OnlyKey(v.fields, "response", "result");
        OnlyKey(v.fields, "response", "answer");
      }
    }
  }

  /** More completed nodes never make a satisfied node unsatisfied. */
  lemma SatisfiedStaysSatisfied(node: CompiledNode, c1: set<string>, c2: set<string>)
    requires c1 <= c2 && DependenciesSatisfied(node, c1)
    ensures DependenciesSatisfied(node, c2)
  {
  }

  /** Waiting for all dependencies is stricter than waiting for any. */
  lemma AllIsStricterThanAny(node: CompiledNode, completed: set<string>)
    requires node.waitMode == GraphTypes.All && DependenciesSatisfied(node, completed)
    ensures DependenciesSatisfied(node.(waitMode := GraphTypes.Any), completed)
  {
    if node.dependsOn != [] {
      assert node.dependsOn[0] in completed;
    }
  }

  /** A guard written as a printable condition holds exactly when the condition does. */
  lemma GuardOfPrintable(node: CompiledNode, e: ConditionAst.Expression, fields: Store.Fields,
                         renderNumber: real -> string, parseNumber: string -> Option<real>)
    requires ConditionPrint.Printable(e, renderNumber, parseNumber)
    requires node.when == Some(ConditionPrint.Show(e, renderNumber))
    ensures ConditionMet(node, fields, parseNumber) == ConditionEvaluator.Evaluate(e, fields)
  {
    ConditionPrint.ParseShow(e, renderNumber, parseNumber);
  }

  /** The mapped outputs leave every state key they do not name as it was. */
  lemma {:induction false} MapOutputsFrame(fields: Store.Fields, reducers: Store.Reducers, json: Value,
                                           outputs: map<string, string>, keys: seq<string>, k: string)
    requires k !in keys
    ensures Store.FieldValue(MapOutputs(fields, reducers, json, outputs, keys), k) == Store.FieldValue(fields, k)
    decreases |keys|
  {
    if keys != [] {
      var next := if keys[0] in outputs && JsonPath(json, outputs[keys[0]]).Some?
        then Store.Updated(fields, reducers, keys[0], JsonPath(json, outputs[keys[0]]).value)
        else fields;
      assert Store.FieldValue(next, k) == Store.FieldValue(fields, k);
      MapOutputsFrame(next, reducers, json, outputs, keys[1..], k);
    }
  }

  /** No key occurs twice. */
  predicate Distinct<T(==)>(s: seq<T>)
  {
    forall i, j :: 0 <= i < j < |s| ==> s[i] != s[j]
  }

  /**
   * A state key named once among the mappings is updated with the value its
   * path finds, and left as it was when the path does not resolve.
   */
  lemma {:induction false} MapOutputsHit(fields: Store.Fields, reducers: Store.Reducers, json: Value,
                                         outputs: map<string, string>, keys: seq<string>, k: string)
    requires k in keys && k in outputs && Distinct(keys)
    ensures var after := Store.FieldValue(MapOutputs(fields, reducers, json, outputs, keys), k);
      var found := JsonPath(json, outputs[k]);
      after == if found.Some? then Store.Reduce(Store.ReducerOf(reducers, k), Store.FieldValue(fields, k), found.value)
               else Store.FieldValue(fields, k)
    decreases |keys|
  {
    var next := if keys[0] in outputs && JsonPath(json, outputs[keys[0]]).Some?
      then Store.Updated(fields, reducers, keys[0], JsonPath(json, outputs[keys[0]]).value)
      else fields;
    if keys[0] == k {
      assert k !in keys[1..] by {
        forall j | 0 <= j < |keys[1..]| ensures keys[1..][j] != k {
          assert keys[1..][j] == keys[j + 1];
        }
      }
      MapOutputsFrame(next, reducers, json, outputs, keys[1..], k);
    } else {
      assert k in keys[1..];
      assert Distinct(keys[1..]) by {
        forall i, j | 0 <= i < j < |keys[1..]| ensures keys[1..][i] != keys[1..][j] {
          assert keys[1..][i] == keys[i + 1] && keys[1..][j] == keys[j + 1];
        }
      }
      MapOutputsHit(next, reducers, json, outputs, keys[1..], k);
    }
  }

  /** Keys in ascending order are distinct. */
  lemma SortedDistinct(ks: seq<string>)
    requires StrictlySorted(ks)
    ensures Distinct(ks)
  {
    forall i, j | 0 <= i < j < |ks| ensures ks[i] != ks[j] {
      if ks[i] == ks[j] {
        LessIrreflexive(ks[i]);
      }
    }
  }

  /**
   * Output that is not JSON is stored as a string under "output.<id>" and
   * nothing else changes; the mappings are not applied.
   */
  lemma TextOutputStored(fields: Store.Fields, node: CompiledNode, output: string, parseJson: string -> Option<Value>)
    requires parseJson(output).None?
    ensures var after := AfterOutputs(fields, map[], node, output, parseJson);
      Store.FieldValue(after, OutputKey(node.id)) == Some(String(output)) &&
      after - {OutputKey(node.id)} == fields - {OutputKey(node.id)}
  {
  }

  /**
   * What "output.<id>" holds once JSON output is applied: the JSON itself,
   * unless the node maps "output.<id>" to a path that resolves, in which
   * case the mapping overwrites it with the value found there.
   */
  function StoredOutput(node: CompiledNode, json: Value): Value
  {
    var key := OutputKey(node.id);
    if key in node.outputs && JsonPath(json, node.outputs[key]).Some? then JsonPath(json, node.outputs[key]).value
    else json
  }

  /**
   * JSON output is stored under "output.<id>", and stays there unless the
   * node maps "output.<id>" itself to a path that resolves.
   */
  lemma JsonOutputStored(fields: Store.Fields, node: CompiledNode, output: string, parseJson: string -> Option<Value>)
    requires parseJson(output).Some?
    ensures Store.FieldValue(AfterOutputs(fields, map[], node, output, parseJson), OutputKey(node.id)) ==
      Some(StoredOutput(node, parseJson(output).value))
  {
    var json := parseJson(output).value;
    var keys := SortedKeys(node.outputs.Keys);
    SortedDistinct(keys);
    OwnOutputAfterMapping(Store.Updated(fields, map[], OutputKey(node.id), json), node, json, keys);
  }

  /**
   * Each mapped state key whose path resolves gets the value found there,
   * a mapping whose path does not resolve changes nothing, and every other
   * key except "output.<id>" keeps its value.
   */
  lemma JsonOutputApplied(fields: Store.Fields, node: CompiledNode, output: string, parseJson: string -> Option<Value>, k: string)
    requires parseJson(output).Some?
    ensures var json, after := parseJson(output).value, AfterOutputs(fields, map[], node, output, parseJson);
      (k in node.outputs && JsonPath(json, node.outputs[k]).Some? ==>
        Store.FieldValue(after, k) == JsonPath(json, node.outputs[k])) &&
      (k in node.outputs && JsonPath(json, node.outputs[k]).None? && k != OutputKey(node.id) ==>
        Store.FieldValue(after, k) == Store.FieldValue(fields, k)) &&
      (k !in node.outputs && k != OutputKey(node.id) ==> Store.FieldValue(after, k) == Store.FieldValue(fields, k))
  {
    var json := parseJson(output).value;
    var keys := SortedKeys(node.outputs.Keys);
    SortedDistinct(keys);
    MappedKeyAfterMapping(Store.Updated(fields, map[], OutputKey(node.id), json), node, json, keys, k);
  }

  /** After the mappings run, "output.<id>" holds the stored JSON unless a resolving mapping overwrote it. */
  lemma OwnOutputAfterMapping(stored: Store.Fields, node: CompiledNode, json: Value, keys: seq<string>)
    requires keys == SortedKeys(node.outputs.Keys) && Distinct(keys)
    requires Store.FieldValue(stored, OutputKey(node.id)) == Some(json)
    ensures Store.FieldValue(MapOutputs(stored, map[], json, node.outputs, keys), OutputKey(node.id)) == Some(StoredOutput(node, json))
  {
    var key := OutputKey(node.id);
    if key in node.outputs {
      MapOutputsHit(stored, map[], json, node.outputs, keys, key);
    } else {
      MapOutputsFrame(stored, map[], json, node.outputs, keys, key);
    }
  }

  /** After the mappings run, a mapped key holds what its path resolves to, and every other key keeps its value. */
  lemma MappedKeyAfterMapping(stored: Store.Fields, node: CompiledNode, json: Value, keys: seq<string>, k: string)
    requires keys == SortedKeys(node.outputs.Keys) && Distinct(keys)
    ensures var after := MapOutputs(stored, map[], json, node.outputs, keys);
      (k in node.outputs && JsonPath(json, node.outputs[k]).Some? ==> Store.FieldValue(after, k) == JsonPath(json, node.outputs[k])) &&
      (k in node.outputs && JsonPath(json, node.outputs[k]).None? ==> Store.FieldValue(after, k) == Store.FieldValue(stored, k)) &&
      (k !in node.outputs ==> Store.FieldValue(after, k) == Store.FieldValue(stored, k))
  {
    if k in node.outputs {
      MapOutputsHit(stored, map[], json, node.outputs, keys, k);
    } else {
      MapOutputsFrame(stored, map[], json, node.outputs, keys, k);
    }
  }

  /**
   * An entry node gets the original input; a node gets what its last
   * dependency just produced: the text itself when it is not JSON, and
   * otherwise what "output.<id>" now holds (the string inside when that is
   * a JSON string, the rendered JSON otherwise).
   */
  lemma InputFromLastDependency(fields: Store.Fields, dep: CompiledNode, output: string, node: CompiledNode,
                                original: string, foreign: Foreign)
    ensures node.dependsOn == [] ==> BuildNodeInput(original, node, fields, foreign.render) == original
    ensures node.dependsOn != [] && node.dependsOn[|node.dependsOn| - 1] == dep.id ==>
      var after := AfterOutputs(fields, map[], dep, output, foreign.parseJson);
      BuildNodeInput(original, node, after, foreign.render) ==
        match foreign.parseJson(output)
        case None => output
        case Some(json) =>
          match StoredOutput(dep, json)
          case String(s) => s
          case v => foreign.render(v)
  {
    if foreign.parseJson(output).Some? {
      JsonOutputStored(fields, dep, output, foreign.parseJson);
    }
  }

  /** A failing node is completed, and its error text is stored under "<id>.error". */
  lemma FailureRecorded(g: GraphAgent, st: RunState, id: string, input: string, runner: Runner, foreign: Foreign)
    requires id in g.nodes
    requires runner(id, BuildNodeInput(input, g.nodes[id], st.fields, foreign.render)).Err?
    ensures var e, after := runner(id, BuildNodeInput(input, g.nodes[id], st.fields, foreign.render)).error,
                            ExecuteNode(g, st, id, input, runner, foreign);
      id in after.completed && Store.FieldValue(after.fields, id + ".error") == Some(String(e))
  {
  }

  /** A round completes exactly the nodes it runs. */
  lemma {:induction false} RoundCompletes(g: GraphAgent, st: RunState, ready: seq<string>, input: string, runner: Runner, foreign: Foreign)
    requires forall id :: id in ready ==> id in g.nodes
    ensures var after := ExecuteAll(g, st, ready, input, runner, foreign);
      (forall id :: id in after.completed <==> id in st.completed || id in ready) && after.rounds == st.rounds
    decreases |ready|
  {
    if ready != [] {
      var next := ExecuteNode(g, st, ready[0], input, runner, foreign);
      RoundCompletes(g, next, ready[1..], input, runner, foreign);
      assert forall id :: id in ready <==> id == ready[0] || id in ready[1..];
    }
  }

  /** The elements of a sequence. */
  function Elems(s: seq<string>): (r: set<string>)
    ensures forall x :: x in r <==> x in s
  {
    if s == [] then {} else {s[0]} + Elems(s[1..])
  }

  /**
   * What holds of the nodes run: the completed nodes are exactly the nodes
   * in the trace, each of them a declared node.
   */
  predicate TraceInvariant(g: GraphAgent, st: RunState)
  {
    st.completed == Elems(st.trace) &&
    (forall id :: id in st.trace ==> id in g.nodeOrder)
  }

  /**
   * What holds of the rounds: each completed node is declared, and there
   * have been no more rounds than completed nodes, nor more than the limit.
   */
  predicate RoundBound(g: GraphAgent, st: RunState)
  {
    (forall id :: id in st.completed ==> id in g.nodeOrder) &&
    st.rounds <= |st.completed| && st.rounds <= MaxIterations
  }

  lemma {:induction false} SubsetCardinality<T>(a: set<T>, b: set<T>)
    requires a <= b
    ensures |a| <= |b|
    decreases b
  {
    if a != {} {
      var x :| x in a;
      SubsetCardinality(a - {x}, b - {x});
    }
  }

  /** A non-empty round keeps the trace invariant. */
  lemma RoundKeepsTrace(g: GraphAgent, st: RunState, input: string, runner: Runner, foreign: Foreign)
    requires WellFormed(g) && TraceInvariant(g, st)
    requires ReadyNodes(g, st.completed, st.fields, foreign.parseNumber) != []
    ensures var ready := ReadyNodes(g, st.completed, st.fields, foreign.parseNumber);
      TraceInvariant(g, ExecuteAll(g, st, ready, input, runner, foreign).(rounds := st.rounds + 1))
  {
    var ready := ReadyNodes(g, st.completed, st.fields, foreign.parseNumber);
    var after := ExecuteAll(g, st, ready, input, runner, foreign);
    RoundCompletes(g, st, ready, input, runner, foreign);
    forall id | id in after.trace ensures id in g.nodeOrder {
      if id !in st.trace {
        assert id in ready;
      }
    }
  }

  /** A non-empty round within the limit keeps the round bound. */
  lemma RoundKeepsBound(g: GraphAgent, st: RunState, input: string, runner: Runner, foreign: Foreign)
    requires WellFormed(g) && RoundBound(g, st) && st.rounds + 1 <= MaxIterations
    requires ReadyNodes(g, st.completed, st.fields, foreign.parseNumber) != []
    ensures var ready := ReadyNodes(g, st.completed, st.fields, foreign.parseNumber);
      RoundBound(g, ExecuteAll(g, st, ready, input, runner, foreign).(rounds := st.rounds + 1))
  {
    var ready := ReadyNodes(g, st.completed, st.fields, foreign.parseNumber);
    var after := ExecuteAll(g, st, ready, input, runner, foreign);
    RoundCompletes(g, st, ready, input, runner, foreign);
    assert ready[0] in ready && ready[0] !in st.completed;
    SubsetCardinality(st.completed + {ready[0]}, after.completed);
  }

  /** The rounds keep the trace invariant. */
  lemma {:induction false} RoundsKeepTrace(g: GraphAgent, st: RunState, input: string, runner: Runner, foreign: Foreign)
    requires WellFormed(g) && TraceInvariant(g, st)
    ensures TraceInvariant(g, Rounds(g, st, input, runner, foreign))
    decreases MaxIterations - st.rounds
  {
    if st.rounds + 1 <= MaxIterations {
      var ready := ReadyNodes(g, st.completed, st.fields, foreign.parseNumber);
      if ready != [] {
        var next := ExecuteAll(g, st, ready, input, runner, foreign).(rounds := st.rounds + 1);
        RoundKeepsTrace(g, st, input, runner, foreign);
        RoundsKeepTrace(g, next, input, runner, foreign);
        RoundsStep(g, st, input, runner, foreign);
      } else {
        RoundsStop(g, st, input, runner, foreign);
      }
    } else {
      RoundsStop(g, st, input, runner, foreign);
    }
  }

  /** The rounds keep the round bound. */
  lemma {:induction false} RoundsKeepBound(g: GraphAgent, st: RunState, input: string, runner: Runner, foreign: Foreign)
    requires WellFormed(g) && RoundBound(g, st)
    ensures RoundBound(g, Rounds(g, st, input, runner, foreign))
    decreases MaxIterations - st.rounds
  {
    if st.rounds + 1 <= MaxIterations {
      var ready := ReadyNodes(g, st.completed, st.fields, foreign.parseNumber);
      if ready != [] {
        var next := ExecuteAll(g, st, ready, input, runner, foreign).(rounds := st.rounds + 1);
        RoundKeepsBound(g, st, input, runner, foreign);
        RoundsKeepBound(g, next, input, runner, foreign);
        RoundsStep(g, st, input, runner, foreign);
      } else {
        RoundsStop(g, st, input, runner, foreign);
      }
    } else {
      RoundsStop(g, st, input, runner, foreign);
    }
  }

  lemma {:induction false} SubsequenceMembers<T>(a: seq<T>, b: seq<T>)
    requires Subsequence(a, b)
    ensures forall x :: x in a ==> x in b
    decreases b
  {
    if a != [] {
      if Subsequence(a, b[1..]) {
        SubsequenceMembers(a, b[1..]);
      } else {
        SubsequenceMembers(a[1..], b[1..]);
        forall x | x in a ensures x in b {
          if x != a[0] {
            assert x in a[1..];
          }
        }
      }
    }
  }

  /** A subsequence of a sequence without repetitions has none either. */
  lemma {:induction false} SubsequenceDistinct<T>(a: seq<T>, b: seq<T>)
    requires Subsequence(a, b) && Distinct(b)
    ensures Distinct(a)
    decreases b
  {
    if a != [] {
      assert Distinct(b[1..]) by {
        forall i, j | 0 <= i < j < |b[1..]| ensures b[1..][i] != b[1..][j] {
          assert b[1..][i] == b[i + 1] && b[1..][j] == b[j + 1];
        }
      }
      if Subsequence(a, b[1..]) {
        SubsequenceDistinct(a, b[1..]);
      } else {
        SubsequenceDistinct(a[1..], b[1..]);
        SubsequenceMembers(a[1..], b[1..]);
        assert b[0] !in b[1..] by {
          forall k | 0 <= k < |b[1..]| ensures b[1..][k] != b[0] {
            assert b[1..][k] == b[k + 1];
          }
        }
        forall i, j | 0 <= i < j < |a| ensures a[i] != a[j] {
          if i == 0 {
            assert a[j] == a[1..][j - 1];
          } else {
            assert a[i] == a[1..][i - 1] && a[j] == a[1..][j - 1];
          }
        }
      }
    }
  }

  lemma DistinctAppend<T>(a: seq<T>, b: seq<T>)
    requires Distinct(a) && Distinct(b) && (forall x :: x in b ==> x !in a)
    ensures Distinct(a + b)
  {
    forall i, j | 0 <= i < j < |a + b| ensures (a + b)[i] != (a + b)[j] {
      if j >= |a| {
        assert (a + b)[j] == b[j - |a|];
        if i < |a| {
          assert (a + b)[i] == a[i] && a[i] in a && b[j - |a|] in b;
        } else {
          assert (a + b)[i] == b[i - |a|];
        }
      }
    }
  }

  /** What holds when node ids are unique: no node has been run twice. */
  predicate OnceInvariant(st: RunState)
  {
    st.completed == Elems(st.trace) && Distinct(st.trace)
  }

  /** A round runs only nodes not yet completed, each once. */
  lemma RoundRunsOnce(g: GraphAgent, st: RunState, input: string, runner: Runner, foreign: Foreign)
    requires WellFormed(g) && Distinct(g.nodeOrder) && OnceInvariant(st)
    requires ReadyNodes(g, st.completed, st.fields, foreign.parseNumber) != []
    ensures var ready := ReadyNodes(g, st.completed, st.fields, foreign.parseNumber);
      OnceInvariant(ExecuteAll(g, st, ready, input, runner, foreign).(rounds := st.rounds + 1))
  {
    var ready := ReadyNodes(g, st.completed, st.fields, foreign.parseNumber);
    RoundCompletes(g, st, ready, input, runner, foreign);
    SubsequenceDistinct(ready, g.nodeOrder);
    DistinctAppend(st.trace, ready);
  }

  /** The rounds run each node at most once. */
  lemma {:induction false} RoundsRunOnce(g: GraphAgent, st: RunState, input: string, runner: Runner, foreign: Foreign)
    requires WellFormed(g) && Distinct(g.nodeOrder) && OnceInvariant(st)
    ensures OnceInvariant(Rounds(g, st, input, runner, foreign))
    decreases MaxIterations - st.rounds
  {
    if st.rounds + 1 <= MaxIterations {
      var ready := ReadyNodes(g, st.completed, st.fields, foreign.parseNumber);
      if ready != [] {
        var next := ExecuteAll(g, st, ready, input, runner, foreign).(rounds := st.rounds + 1);
        RoundRunsOnce(g, st, input, runner, foreign);
        RoundsRunOnce(g, next, input, runner, foreign);
        RoundsStep(g, st, input, runner, foreign);
      } else {
        RoundsStop(g, st, input, runner, foreign);
      }
    } else {
      RoundsStop(g, st, input, runner, foreign);
    }
  }

  /**
   * With unique node ids, a run executes every node at most once: its trace
   * has no repetitions.
   */
  lemma RunExecutesOnce(g: GraphAgent, input: string, runner: Runner, foreign: Foreign)
    requires WellFormed(g) && Distinct(g.nodeOrder)
    ensures Distinct(FinalState(g, input, runner, foreign).trace)
  {
    RoundsRunOnce(g, InitialState(input), input, runner, foreign);
  }

  /** The rounds stop at the limit or when nothing is ready. */
  lemma {:induction false} RoundsStopWhenIdle(g: GraphAgent, st: RunState, input: string, runner: Runner, foreign: Foreign)
    requires WellFormed(g) && st.rounds <= MaxIterations
    ensures var final := Rounds(g, st, input, runner, foreign);
      final.rounds <= MaxIterations &&
      (final.rounds < MaxIterations ==> ReadyNodes(g, final.completed, final.fields, foreign.parseNumber) == [])
    decreases MaxIterations - st.rounds
  {
    if st.rounds + 1 <= MaxIterations {
      var ready := ReadyNodes(g, st.completed, st.fields, foreign.parseNumber);
      if ready != [] {
        var next := ExecuteAll(g, st, ready, input, runner, foreign).(rounds := st.rounds + 1);
        RoundsStopWhenIdle(g, next, input, runner, foreign);
        RoundsStep(g, st, input, runner, foreign);
      } else {
        RoundsStop(g, st, input, runner, foreign);
      }
    } else {
      RoundsStop(g, st, input, runner, foreign);
    }
  }

  /**
   * A run completes exactly the nodes it runs, all of them declared; it
   * takes at most one round per declared node and at most 100 rounds; and
   * unless it hit that limit, it stops only when no node is ready.
   */
  lemma RunTerminates(g: GraphAgent, input: string, runner: Runner, foreign: Foreign)
    requires WellFormed(g)
    ensures var final := FinalState(g, input, runner, foreign);
      final.completed == Elems(final.trace) &&
      (forall id :: id in final.trace ==> id in g.nodeOrder) &&
      final.rounds <= |set id | id in g.nodeOrder| && final.rounds <= MaxIterations &&
      (final.rounds < MaxIterations ==> ReadyNodes(g, final.completed, final.fields, foreign.parseNumber) == [])
  {
    RoundsKeepTrace(g, InitialState(input), input, runner, foreign);
    RoundsKeepBound(g, InitialState(input), input, runner, foreign);
    RoundsStopWhenIdle(g, InitialState(input), input, runner, foreign);
    var final := FinalState(g, input, runner, foreign);
    SubsetCardinality(final.completed, set id | id in g.nodeOrder);
  }
}
