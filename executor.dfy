/**
 * The graph executor: nodes run in rounds; a round runs, one after
 * another and in declaration order, every node that has not run yet,
 * whose dependencies are satisfied and whose guard holds.  Outputs go into
 * the workflow state, and the outputs of terminal nodes make the answer.
 *
 * The agent behind each node is a `Runner`: a function from the node's id
 * and its input text to the agent's output or error text.
 */
module GraphExecutor {
  import opened Wrappers
  import opened Strings
  import opened Json
  import GraphTypes
  import Store
  import ConditionParser
  import ConditionEvaluator

  /** A node ready to run: its dependencies, guard text, output mappings and wait mode. */
  datatype CompiledNode = CompiledNode(
    id: string,
    dependsOn: seq<string>,
    when: Option<string>,
    outputs: map<string, string>,
    waitMode: GraphTypes.WaitMode)

  /** The agents of the nodes: node id and input text to output text or error text. */
  type Runner = (string, string) -> Result<string, string>

  /** A graph: its nodes by id, and the ids in declaration order. */
  datatype GraphAgent = GraphAgent(name: string, description: string, nodes: map<string, CompiledNode>, nodeOrder: seq<string>)

  /** The safety limit on the number of rounds. */
  const MaxIterations: nat := 100

  /** Every id in the declaration order names a node, and every node is stored under its own id. */
  predicate WellFormed(g: GraphAgent)
  {
    (forall id :: id in g.nodeOrder ==> id in g.nodes) &&
    (forall id :: id in g.nodes ==> g.nodes[id].id == id && id in g.nodeOrder)
  }

  /** The ids of a node list, in order. */
  function Ids(ns: seq<CompiledNode>): (ids: seq<string>)
    ensures |ids| == |ns| && forall i :: 0 <= i < |ns| ==> ids[i] == ns[i].id
  {
    if ns == [] then [] else Ids(ns[..|ns| - 1]) + [ns[|ns| - 1].id]
  }

  /** Nodes by id, where a later node replaces an earlier one with the same id. */
  function NodeMap(ns: seq<CompiledNode>): (m: map<string, CompiledNode>)
    ensures forall id :: id in m <==> id in Ids(ns)
    ensures forall id :: id in m ==> m[id].id == id
    ensures forall i :: 0 <= i < |ns| && LastWithId(ns, i) ==> m[ns[i].id] == ns[i]
  {
    if ns == [] then map[]
    else
      var prefix, last := ns[..|ns| - 1], ns[|ns| - 1];
      var m0 := NodeMap(prefix);
      var m := m0[last.id := last];
      assert Ids(ns) == Ids(prefix) + [last.id];
      forall i | 0 <= i < |ns| && LastWithId(ns, i)
        ensures m[ns[i].id] == ns[i]
      {
        if i < |ns| - 1 {
          assert ns[i] == prefix[i] && ns[i].id != last.id;
          assert LastWithId(prefix, i);
        }
      }
      m
  }

  /** No node after the `i`-th has the same id. */
  predicate LastWithId(ns: seq<CompiledNode>, i: nat)
    requires i < |ns|
  {
    forall j :: i < j < |ns| ==> ns[j].id != ns[i].id
  }

  /**
   * `GraphAgent::new`: the declaration order is the list's order; with
   * distinct ids every node is stored under its own id.
   */
  function NewGraph(name: string, description: string, ns: seq<CompiledNode>): (g: GraphAgent)
    ensures WellFormed(g)
    ensures g.nodeOrder == Ids(ns)
    ensures forall i :: 0 <= i < |ns| && LastWithId(ns, i) ==> g.nodes[ns[i].id] == ns[i]
  {
    GraphAgent(name, description, NodeMap(ns), Ids(ns))
  }

  /** Every dependency in the list has completed. */
  function AllCompleted(deps: seq<string>, completed: set<string>): (r: bool)
    ensures r <==> forall d :: d in deps ==> d in completed
  {
    deps == [] || (deps[0] in completed && AllCompleted(deps[1..], completed))
  }

  /** Some dependency in the list has completed. */
  function AnyCompleted(deps: seq<string>, completed: set<string>): (r: bool)
    ensures r <==> exists d :: d in deps && d in completed
  {
    deps != [] && (deps[0] in completed || AnyCompleted(deps[1..], completed))
  }

  /**
   * An entry node is always satisfied; otherwise All needs every
   * dependency completed and Any needs at least one.
   */
  function DependenciesSatisfied(node: CompiledNode, completed: set<string>): (r: bool)
    ensures r <==> (node.dependsOn == [] ||
      (node.waitMode == GraphTypes.All && forall d :: d in node.dependsOn ==> d in completed) ||
      (node.waitMode == GraphTypes.Any && exists d :: d in node.dependsOn && d in completed))
  {
    if node.dependsOn == [] then true
    else match node.waitMode
      case All => AllCompleted(node.dependsOn, completed)
      case Any => AnyCompleted(node.dependsOn, completed)
  }

  /**
   * A missing guard holds; a guard holds when it parses and evaluates to
   * true in the state; a guard that does not parse never holds.
   */
  function ConditionMet(node: CompiledNode, fields: Store.Fields, parseNumber: string -> Option<real>): (r: bool)
    ensures node.when.None? ==> r
    ensures node.when.Some? && ConditionParser.Parse(node.when.value, parseNumber).Err? ==> !r
    ensures node.when.Some? && ConditionParser.Parse(node.when.value, parseNumber).Ok? ==>
      r == ConditionEvaluator.Evaluate(ConditionParser.Parse(node.when.value, parseNumber).value, fields)
  {
    match node.when
    case None => true
    case Some(text) =>
      match ConditionParser.Parse(text, parseNumber)
      case Ok(e) => ConditionEvaluator.Evaluate(e, fields)
      case Err(_) => false
  }

  /** A node may run now: it has not run, its dependencies are satisfied and its guard holds. */
  predicate IsReady(g: GraphAgent, id: string, completed: set<string>, fields: Store.Fields, parseNumber: string -> Option<real>)
    requires id in g.nodes
  {
    id !in completed && DependenciesSatisfied(g.nodes[id], completed) && ConditionMet(g.nodes[id], fields, parseNumber)
  }

  /** `a` is `b` with some elements left out, the rest kept in order. */
  predicate Subsequence<T(==)>(a: seq<T>, b: seq<T>)
  {
    a == [] || (b != [] && (Subsequence(a, b[1..]) || (a[0] == b[0] && Subsequence(a[1..], b[1..]))))
  }

  /** The ready ids among `ids`, in the order of `ids`. */
  function ReadyAmong(g: GraphAgent, ids: seq<string>, completed: set<string>, fields: Store.Fields,
                      parseNumber: string -> Option<real>): (r: seq<string>)
    requires forall id :: id in ids ==> id in g.nodes
    ensures forall id {:trigger id in r} :: id in r <==> id in ids && IsReady(g, id, completed, fields, parseNumber)
    ensures Subsequence(r, ids)
  {
    if ids == [] then []
    else
      var rest := ReadyAmong(g, ids[1..], completed, fields, parseNumber);
      if IsReady(g, ids[0], completed, fields, parseNumber) then [ids[0]] + rest else rest
  }

  /** `get_ready_nodes`: the ready nodes, in declaration order. */
  function ReadyNodes(g: GraphAgent, completed: set<string>, fields: Store.Fields, parseNumber: string -> Option<real>): (r: seq<string>)
    requires WellFormed(g)
    ensures forall id {:trigger id in r} :: id in r <==> id in g.nodeOrder && IsReady(g, id, completed, fields, parseNumber)
    ensures Subsequence(r, g.nodeOrder)
  {
    ReadyAmong(g, g.nodeOrder, completed, fields, parseNumber)
  }

  /** The state key a node's output is stored under. */
  function OutputKey(id: string): string
  {
    "output." + id
  }

  /**
   * The input of a node: the original input for an entry node, otherwise
   * the stored output of its last dependency (a string as it is, any other
   * value rendered as JSON), or the original input when there is none.
   */
  function BuildNodeInput(original: string, node: CompiledNode, fields: Store.Fields, render: Value -> string): string
  {
    if node.dependsOn == [] then original
    else match Store.FieldValue(fields, OutputKey(node.dependsOn[|node.dependsOn| - 1]))
      case None => original
      case Some(String(s)) => s
      case Some(v) => render(v)
  }

  /**
   * The input of a node for whatever fields are stored: the original input
   * for an entry node or when the last dependency left no output, the
   * contents of a stored string, and the rendering of any other value.
   */
  lemma NodeInputCases(original: string, node: CompiledNode, fields: Store.Fields, render: Value -> string)
    ensures node.dependsOn == [] ==> BuildNodeInput(original, node, fields, render) == original
    ensures node.dependsOn != [] ==>
      var key := OutputKey(node.dependsOn[|node.dependsOn| - 1]);
      (key !in fields ==> BuildNodeInput(original, node, fields, render) == original) &&
      (key in fields && fields[key].String? ==> BuildNodeInput(original, node, fields, render) == fields[key].s) &&
      (key in fields && !fields[key].String? ==> BuildNodeInput(original, node, fields, render) == render(fields[key]))
  {
  }

  /** The value at a dot-separated path of object keys. */
  function JsonPath(json: Value, path: string): Option<Value>
  {
    Walk(json, Split(path, '.'))
  }

  /** `extract_json_path`: follows the path one key at a time and stops at the first missing key. */
  method ExtractJsonPath(json: Value, path: string) returns (r: Option<Value>)
    ensures r == JsonPath(json, path)
  {
    var parts := Split(path, '.');
    var current := json;
    for i := 0 to |parts|
      invariant Walk(json, parts) == Walk(current, parts[i..])
    {
      match Json.Get(current, parts[i]) {
        case None =>
          return None;
        case Some(child) =>
          current := child;
      }
    }
    return Some(current);
  }

  /**
   * The fields after the mapped outputs named by `keys` are applied: each
   * state key whose path resolves in `json` is updated with the value found.
   */
  function MapOutputs(fields: Store.Fields, reducers: Store.Reducers, json: Value, outputs: map<string, string>,
                      keys: seq<string>): Store.Fields
    decreases |keys|
  {
    if keys == [] then fields
    else
      var next := if keys[0] in outputs && JsonPath(json, outputs[keys[0]]).Some?
        then Store.Updated(fields, reducers, keys[0], JsonPath(json, outputs[keys[0]]).value)
        else fields;
      MapOutputs(next, reducers, json, outputs, keys[1..])
  }

  /**
   * The fields after a node's output is applied: JSON output is stored
   * under its output key and its mapped values are extracted; any other
   * output is stored as a string.  The mappings are applied in ascending
   * key order.
   */
  function AfterOutputs(fields: Store.Fields, reducers: Store.Reducers, node: CompiledNode, output: string,
                        parseJson: string -> Option<Value>): Store.Fields
  {
    match parseJson(output)
    case Some(json) =>
      MapOutputs(Store.Updated(fields, reducers, OutputKey(node.id), json), reducers, json, node.outputs, SortedKeys(node.outputs.Keys))
    case None => Store.Updated(fields, reducers, OutputKey(node.id), String(output))
  }

  /** `apply_outputs` on a workflow state. */
  method ApplyOutputs(node: CompiledNode, output: string, state: Store.WorkflowState, parseJson: string -> Option<Value>)
    modifies state
    ensures state.reducers == old(state.reducers)
    ensures state.fields == AfterOutputs(old(state.fields), old(state.reducers), node, output, parseJson)
  {
    match parseJson(output) {
      case Some(json) =>
        state.Update(OutputKey(node.id), json);
        var keys := SortedKeys(node.outputs.Keys);
        ghost var start := state.fields;
        for i := 0 to |keys|
          invariant state.reducers == old(state.reducers)
          invariant MapOutputs(state.fields, state.reducers, json, node.outputs, keys[i..]) ==
                    MapOutputs(start, state.reducers, json, node.outputs, keys)
        {
          var value := ExtractJsonPath(json, node.outputs[keys[i]]);
          if value.Some? {
            state.Update(keys[i], value.value);
          }
          assert keys[i..][1..] == keys[i + 1..];
        }
        assert keys[|keys|..] == [];
      case None =>
        state.Update(OutputKey(node.id), String(output));
    }
  }

  /** The member a single-member object stands for: its "result", "answer" or "response". */
  function Unwrapped(fields: map<string, Value>): (r: Option<Value>)
    ensures r.Some? <==> "result" in fields || "answer" in fields || "response" in fields
  {
    if "result" in fields then Some(fields["result"])
    else if "answer" in fields then Some(fields["answer"])
    else if "response" in fields then Some(fields["response"])
    else None
  }

  /**
   * `value_to_text`: a string as it is, null as nothing, a wrapped answer
   * unwrapped, other objects as "**key**: text" lines in key order, arrays
   * as "- text" lines, numbers and booleans as JSON renders them.
   */
  function ValueToText(v: Value, renderNumber: real -> string): string
  {
    match v
    case String(s) => s
    case Object(fields) =>
      if |fields| == 1 && Unwrapped(fields).Some? then ValueToText(Unwrapped(fields).value, renderNumber)
      else
        var keys := SortedKeys(fields.Keys);
        Join(seq(|keys|, i requires 0 <= i < |keys| => "**" + keys[i] + "**: " + ValueToText(fields[keys[i]], renderNumber)), "\n")
    case Array(items) =>
      Join(seq(|items|, i requires 0 <= i < |items| => "- " + ValueToText(items[i], renderNumber)), "\n")
    case Number(n) => renderNumber(n)
    case Bool(b) => if b then "true" else "false"
    case Null => ""
  }

  /** Every id some node depends on. */
  function AllDependencies(g: GraphAgent): set<string>
  {
    set id, d | id in g.nodes && d in g.nodes[id].dependsOn :: d
  }

  /** The terminal nodes: those no node depends on. */
  function TerminalIds(g: GraphAgent): (t: set<string>)
    ensures forall id :: id in t <==> id in g.nodes && forall n :: n in g.nodes ==> id !in g.nodes[n].dependsOn
  {
    set id | id in g.nodes && id !in AllDependencies(g)
  }

  /** The state keys among `keys` that hold the output of a terminal node, in the order of `keys`. */
  function TerminalKeys(keys: seq<string>, terminal: set<string>): (r: seq<string>)
    ensures forall k :: k in r <==> k in keys && StartsWith(k, "output.") && k[7..] in terminal
    ensures Subsequence(r, keys)
  {
    if keys == [] then []
    else
      var rest := TerminalKeys(keys[1..], terminal);
      if StartsWith(keys[0], "output.") && keys[0][7..] in terminal then [keys[0]] + rest else rest
  }

  /** The terminal outputs in the order of the state's keys. */
  function ResponseKeys(g: GraphAgent, fields: Store.Fields): seq<string>
  {
    TerminalKeys(SortedKeys(fields.Keys), TerminalIds(g))
  }

  /** The texts of the terminal outputs, in order. */
  function ResponseTexts(g: GraphAgent, fields: Store.Fields, renderNumber: real -> string): (texts: seq<string>)
  {
    var keys := ResponseKeys(g, fields);
    assert forall i :: 0 <= i < |keys| ==> keys[i] in fields;
    seq(|keys|, i requires 0 <= i < |keys| => ValueToText(fields[keys[i]], renderNumber))
  }

  /** The separator between the outputs of several terminal nodes. */
  const ResponseSeparator := "\n\n---\n\n"

  /** Joining one more text adds the separator and the text at the end. */
  lemma {:induction false} JoinSnoc(parts: seq<string>, x: string, sep: string)
    requires parts != []
    ensures Join(parts + [x], sep) == Join(parts, sep) + sep + x
  {
    if |parts| == 1 {
      assert (parts + [x])[1..] == [x];
    } else {
      assert (parts + [x])[1..] == parts[1..] + [x];
      JoinSnoc(parts[1..], x, sep);
    }
  }

  /** Texts joined by a separator, built by appending one text at a time. */
  method JoinTexts(texts: seq<string>, sep: string) returns (r: string)
    ensures r == Join(texts, sep)
  {
    r := "";
    for i := 0 to |texts|
      invariant r == Join(texts[..i], sep)
    {
      if i > 0 {
        r := r + sep;
        JoinSnoc(texts[..i], texts[i], sep);
      }
      r := r + texts[i];
      assert texts[..i + 1] == texts[..i] + [texts[i]];
    }
    assert texts[..|texts|] == texts;
  }

  /** `format_response`: the terminal outputs' texts, joined by the separator. */
  method FormatResponse(g: GraphAgent, state: Store.WorkflowState, renderNumber: real -> string) returns (r: string)
    ensures r == Join(ResponseTexts(g, state.fields, renderNumber), ResponseSeparator)
  {
    var texts := ResponseTexts(g, state.fields, renderNumber);
    if |texts| == 1 {
      return texts[0];
    }
    r := JoinTexts(texts, ResponseSeparator);
  }

  /** Where a run stands: the state's fields, the completed ids, the ids run so far in order, the rounds run. */
  datatype RunState = RunState(fields: Store.Fields, completed: set<string>, trace: seq<string>, rounds: nat)

  /**
   * One node runs: its output is applied, or its error text is stored under
   * "<id>.error"; either way it is completed.  The run's state starts empty,
   * so no field has a declared reducer.
   */
  function ExecuteNode(g: GraphAgent, st: RunState, id: string, input: string, runner: Runner, foreign: Foreign): (r: RunState)
    requires id in g.nodes
    ensures r.completed == st.completed + {id} && r.trace == st.trace + [id] && r.rounds == st.rounds
  {
    RunState(NodeFields(id, g.nodes[id], st.fields, input, runner, foreign), st.completed + {id}, st.trace + [id], st.rounds)
  }

  /** The fields after a node runs: its output applied, or its error text stored. */
  function NodeFields(id: string, node: CompiledNode, fields: Store.Fields, input: string, runner: Runner, foreign: Foreign): Store.Fields
  {
    match runner(id, BuildNodeInput(input, node, fields, foreign.render))
    case Ok(output) => AfterOutputs(fields, map[], node, output, foreign.parseJson)
    case Err(e) => Store.Updated(fields, map[], id + ".error", String(e))
  }

  /** The nodes of one round run one after another. */
  function ExecuteAll(g: GraphAgent, st: RunState, ready: seq<string>, input: string, runner: Runner, foreign: Foreign): (r: RunState)
    requires forall id :: id in ready ==> id in g.nodes
    ensures r.trace == st.trace + ready && r.rounds == st.rounds
    decreases |ready|
  {
    if ready == [] then st
    else
      var next := ExecuteNode(g, st, ready[0], input, runner, foreign);
      ShiftFirst(st.trace, ready);
      ExecuteAll(g, next, ready[1..], input, runner, foreign)
  }

  /** Moving the first element of `b` to the end of `a`. */
  lemma ShiftFirst<T>(a: seq<T>, b: seq<T>)
    requires b != []
    ensures a + b == (a + [b[0]]) + b[1..]
  {
    assert b == [b[0]] + b[1..];
  }

  /** Rounds run until none is ready or the limit on rounds is reached. */
  function Rounds(g: GraphAgent, st: RunState, input: string, runner: Runner, foreign: Foreign): RunState
    requires WellFormed(g)
    decreases MaxIterations - st.rounds
  {
    if st.rounds + 1 > MaxIterations then st
    else
      var ready := ReadyNodes(g, st.completed, st.fields, foreign.parseNumber);
      if ready == [] then st
      else
        var next := ExecuteAll(g, st, ready, input, runner, foreign);
        Rounds(g, next.(rounds := st.rounds + 1), input, runner, foreign)
  }

  /** A round that runs nodes leads on to the rounds after it. */
  lemma RoundsStep(g: GraphAgent, st: RunState, input: string, runner: Runner, foreign: Foreign)
    requires WellFormed(g) && st.rounds + 1 <= MaxIterations
    requires ReadyNodes(g, st.completed, st.fields, foreign.parseNumber) != []
    ensures var ready := ReadyNodes(g, st.completed, st.fields, foreign.parseNumber);
      Rounds(g, st, input, runner, foreign) ==
      Rounds(g, ExecuteAll(g, st, ready, input, runner, foreign).(rounds := st.rounds + 1), input, runner, foreign)
  {
  }

  /** The rounds stop at the limit or when no node is ready. */
  lemma RoundsStop(g: GraphAgent, st: RunState, input: string, runner: Runner, foreign: Foreign)
    requires WellFormed(g)
    requires st.rounds + 1 > MaxIterations || ReadyNodes(g, st.completed, st.fields, foreign.parseNumber) == []
    ensures Rounds(g, st, input, runner, foreign) == st
  {
  }

  /** The state a run starts in: only the input is stored. */
  function InitialState(input: string): RunState
  {
    RunState(Store.Updated(map[], map[], "input", String(input)), {}, [], 0)
  }

  /** Where a run on `input` ends. */
  function FinalState(g: GraphAgent, input: string, runner: Runner, foreign: Foreign): RunState
    requires WellFormed(g)
  {
    Rounds(g, InitialState(input), input, runner, foreign)
  }

  /** One node of a round runs against the workflow state. */
  method ExecuteOne(g: GraphAgent, id: string, input: string, runner: Runner, foreign: Foreign,
                    state: Store.WorkflowState, completed: set<string>, ghost trace: seq<string>, ghost rounds: nat)
    returns (done: set<string>)
    requires id in g.nodes && state.reducers == map[]
    modifies state
    ensures state.reducers == map[]
    ensures RunState(state.fields, done, trace + [id], rounds) ==
            ExecuteNode(g, RunState(old(state.fields), completed, trace, rounds), id, input, runner, foreign)
  {
    var node := g.nodes[id];
    var nodeInput := BuildNodeInput(input, node, state.fields, foreign.render);
    match runner(id, nodeInput) {
      case Ok(output) =>
        ApplyOutputs(node, output, state, foreign.parseJson);
        done := completed + {id};
      case Err(e) =>
        state.Update(id + ".error", String(e));
        done := completed + {id};
    }
  }

  /** The nodes of one round run one after another against the workflow state. */
  method ExecuteRound(g: GraphAgent, ready: seq<string>, input: string, runner: Runner, foreign: Foreign,
                      state: Store.WorkflowState, completed: set<string>, ghost trace: seq<string>, ghost rounds: nat)
    returns (done: set<string>, ghost trace': seq<string>)
    requires (forall id :: id in ready ==> id in g.nodes) && state.reducers == map[]
    modifies state
    ensures state.reducers == map[]
    ensures RunState(state.fields, done, trace', rounds) ==
            ExecuteAll(g, RunState(old(state.fields), completed, trace, rounds), ready, input, runner, foreign)
  {
    done, trace' := completed, trace;
    for i := 0 to |ready|
      invariant state.reducers == map[]
      invariant ExecuteAll(g, RunState(state.fields, done, trace', rounds), ready[i..], input, runner, foreign) ==
                ExecuteAll(g, RunState(old(state.fields), completed, trace, rounds), ready, input, runner, foreign)
    {
      done := ExecuteOne(g, ready[i], input, runner, foreign, state, done, trace', rounds);
      trace' := trace' + [ready[i]];
      assert ready[i..][1..] == ready[i + 1..];
    }
    assert ready[|ready|..] == [];
  }

  /**
   * One pass of the run loop: stop when the limit is reached or nothing is
   * ready, leaving everything as it was; otherwise run the ready nodes.
   */
  method Step(g: GraphAgent, input: string, runner: Runner, foreign: Foreign,
              state: Store.WorkflowState, completed: set<string>, ghost trace: seq<string>, iteration: nat)
    returns (stop: bool, done: set<string>, ghost trace': seq<string>)
    requires WellFormed(g) && state.reducers == map[] && iteration <= MaxIterations
    modifies state
    ensures state.reducers == map[]
    ensures stop <==> iteration + 1 > MaxIterations || ReadyNodes(g, completed, old(state.fields), foreign.parseNumber) == []
    ensures stop ==> state.fields == old(state.fields) && done == completed && trace' == trace
    ensures !stop ==> (RunState(state.fields, done, trace', iteration) ==
      ExecuteAll(g, RunState(old(state.fields), completed, trace, iteration),
                 ReadyNodes(g, completed, old(state.fields), foreign.parseNumber), input, runner, foreign))
  {
    if iteration + 1 > MaxIterations {
      return true, completed, trace;
    }
    var ready := ReadyNodes(g, completed, state.fields, foreign.parseNumber);
    if ready == [] {
      return true, completed, trace;
    }
    done, trace' := ExecuteRound(g, ready, input, runner, foreign, state, completed, trace, iteration);
    stop := false;
  }

  /** `GraphAgent::run`: the rounds, then the answer made of the terminal outputs. */
  method Run(g: GraphAgent, input: string, runner: Runner, foreign: Foreign) returns (r: string)
    requires WellFormed(g)
    ensures r == Join(ResponseTexts(g, FinalState(g, input, runner, foreign).fields, foreign.renderNumber), ResponseSeparator)
  {
    var state := new Store.WorkflowState.Empty();
    state.Update("input", String(input));
    var completed: set<string> := {};
    ghost var trace: seq<string> := [];
    var iteration: nat := 0;
    ghost var final := FinalState(g, input, runner, foreign);
    assert RunState(state.fields, completed, trace, iteration) == InitialState(input);
    while true
      invariant state.reducers == map[]
      invariant iteration <= MaxIterations
      invariant EndsAt(g, RunState(state.fields, completed, trace, iteration), final, input, runner, foreign)
      decreases MaxIterations - iteration
    {
      var stop;
      stop, completed, trace := Pass(g, input, runner, foreign, state, completed, trace, iteration, final);
      if stop {
        break;
      }
      iteration := iteration + 1;
    }
    r := FormatResponse(g, state, foreign.renderNumber);
  }

  /** One pass of the run loop, and where it leaves the rest of the run. */
  method Pass(g: GraphAgent, input: string, runner: Runner, foreign: Foreign,
              state: Store.WorkflowState, completed: set<string>, ghost trace: seq<string>, iteration: nat,
              ghost final: RunState)
    returns (stop: bool, done: set<string>, ghost trace': seq<string>)
    requires state.reducers == map[] && iteration <= MaxIterations
    requires EndsAt(g, RunState(state.fields, completed, trace, iteration), final, input, runner, foreign)
    modifies state
    ensures state.reducers == map[]
    ensures stop ==> state.fields == final.fields
    ensures !stop ==> (iteration < MaxIterations &&
      EndsAt(g, RunState(state.fields, done, trace', iteration + 1), final, input, runner, foreign))
  {
    ghost var before := RunState(state.fields, completed, trace, iteration);
    stop, done, trace' := Step(g, input, runner, foreign, state, completed, trace, iteration);
    if stop {
      StopEnds(g, before, final, input, runner, foreign);
    } else {
      PassKeeps(g, before, RunState(state.fields, done, trace', iteration + 1), final, input, runner, foreign);
    }
  }

  /** The rounds from `st` end in `final`. */
  ghost predicate EndsAt(g: GraphAgent, st: RunState, final: RunState, input: string, runner: Runner, foreign: Foreign)
  {
    WellFormed(g) && Rounds(g, st, input, runner, foreign) == final
  }

  /** A pass that runs the ready nodes keeps where the rounds end. */
  lemma PassKeeps(g: GraphAgent, before: RunState, after: RunState, final: RunState, input: string, runner: Runner,
                  foreign: Foreign)
    requires EndsAt(g, before, final, input, runner, foreign) && before.rounds + 1 <= MaxIterations
    requires ReadyNodes(g, before.completed, before.fields, foreign.parseNumber) != []
    requires after.rounds == before.rounds + 1
    requires after.(rounds := before.rounds) ==
      ExecuteAll(g, before, ReadyNodes(g, before.completed, before.fields, foreign.parseNumber), input, runner, foreign)
    ensures EndsAt(g, after, final, input, runner, foreign)
  {
    RoundsStep(g, before, input, runner, foreign);
  }

  /** A pass that stops is where the rounds end. */
  lemma StopEnds(g: GraphAgent, st: RunState, final: RunState, input: string, runner: Runner, foreign: Foreign)
    requires EndsAt(g, st, final, input, runner, foreign)
    requires st.rounds + 1 > MaxIterations || ReadyNodes(g, st.completed, st.fields, foreign.parseNumber) == []
    ensures st == final
  {
    RoundsStop(g, st, input, runner, foreign);
  }
}
