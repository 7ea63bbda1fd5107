/**
 * Agents built from other agents: a sequential pipeline, a loop that feeds
 * an agent its own output, and a parallel fan-out whose results are joined
 * in list order.  A sub-agent is seen only through what it does to an
 * input: text in, text or an error message out.
 */
module CompositeAgents {
  import opened Wrappers
  import opened Strings

  /** A sub-agent: its answer to an input, or the error it fails with. */
  type AgentFn = string -> Result<string, string>

  datatype SequentialAgent = SequentialAgent(name: string, description: string, subAgents: seq<AgentFn>)

  datatype LoopAgent = LoopAgent(name: string, description: string, agent: AgentFn, maxIterations: nat)

  datatype ParallelAgent = ParallelAgent(name: string, description: string, subAgents: seq<AgentFn>)

  /** Running the agents one after another, each on the previous output; the first error stops the run. */
  function Pipeline(agents: seq<AgentFn>, input: string): Result<string, string>
  {
    if agents == [] then Ok(input)
    else
      match agents[0](input)
      case Err(e) => Err(e)
      case Ok(out) => Pipeline(agents[1..], out)
  }

  /** Continuing a run that may already have failed. */
  function Then(r: Result<string, string>, agents: seq<AgentFn>): Result<string, string>
  {
    match r
    case Err(e) => Err(e)
    case Ok(out) => Pipeline(agents, out)
  }

  /** Running `a + b` is running `a` and then `b` on its output. */
  lemma {:induction false} PipelineAppend(a: seq<AgentFn>, b: seq<AgentFn>, input: string)
    ensures Pipeline(a + b, input) == Then(Pipeline(a, input), b)
    decreases |a|
  {
    if a != [] {
      assert (a + b)[0] == a[0] && (a + b)[1..] == a[1..] + b;
      var first := a[0](input);
      if first.Ok? {
        PipelineAppend(a[1..], b, first.value);
      }
    } else {
      assert a + b == b;
    }
  }

  /**
   * The first failing sub-agent decides the result: when every agent
   * before position `k` succeeds, and agent `k` fails on the text it is
   * given, the run fails with that error and the later agents do not matter.
   */
  lemma {:induction false} PipelineFirstError(agents: seq<AgentFn>, k: nat, input: string)
    requires k < |agents|
    requires Pipeline(agents[..k], input).Ok?
    requires agents[k](Pipeline(agents[..k], input).value).Err?
    ensures Pipeline(agents, input) == Err(agents[k](Pipeline(agents[..k], input).value).error)
  {
    assert agents == agents[..k] + agents[k..];
    PipelineAppend(agents[..k], agents[k..], input);
    assert agents[k..][0] == agents[k];
  }

  /** `SequentialAgent::run`. */
  method RunSequential(agent: SequentialAgent, input: string) returns (r: Result<string, string>)
    ensures r == Pipeline(agent.subAgents, input)
  {
    var subs := agent.subAgents;
    var current := input;
    for i := 0 to |subs|
      invariant Pipeline(subs, input) == Pipeline(subs[i..], current)
    {
      assert subs[i..][0] == subs[i] && subs[i..][1..] == subs[i + 1..];
      var out := subs[i](current);
      if out.Err? {
        return Err(out.error);
      }
      current := out.value;
    }
    assert subs[|subs|..] == [];
    r := Ok(current);
  }

  /** With no sub-agents the input comes back unchanged. */
  lemma SequentialEmpty(agent: SequentialAgent, input: string)
    requires agent.subAgents == []
    ensures Pipeline(agent.subAgents, input) == Ok(input)
  {
  }

  /** Applying one agent `n` times, each time to its own previous output. */
  function Repeat(f: AgentFn, n: nat, input: string): Result<string, string>
  {
    if n == 0 then Ok(input)
    else
      match f(input)
      case Err(e) => Err(e)
      case Ok(out) => Repeat(f, n - 1, out)
  }

  /** `LoopAgent::run`: exactly `max_iterations` applications, stopping at the first error. */
  method RunLoop(agent: LoopAgent, input: string) returns (r: Result<string, string>)
    ensures r == Repeat(agent.agent, agent.maxIterations, input)
  {
    var current := input;
    for i := 0 to agent.maxIterations
      invariant Repeat(agent.agent, agent.maxIterations, input) == Repeat(agent.agent, agent.maxIterations - i, current)
    {
      var out := agent.agent(current);
      if out.Err? {
        return Err(out.error);
      }
      current := out.value;
    }
    r := Ok(current);
  }

  /** A loop is the pipeline of `n` copies of its agent. */
  lemma {:induction false} LoopIsPipeline(f: AgentFn, n: nat, input: string)
    ensures Repeat(f, n, input) == Pipeline(seq(n, _ => f), input)
  {
    if n > 0 {
      var copies := seq(n, _ => f);
      assert copies[0] == f && copies[1..] == seq(n - 1, _ => f);
      match f(input)
      case Err(e) =>
      case Ok(out) => LoopIsPipeline(f, n - 1, out);
    }
  }

  /** Looping `m + n` times is looping `m` times and then `n` more. */
  lemma LoopAdds(f: AgentFn, m: nat, n: nat, input: string)
    ensures Repeat(f, m + n, input) == Then(Repeat(f, m, input), seq(n, _ => f))
  {
    LoopIsPipeline(f, m + n, input);
    LoopIsPipeline(f, m, input);
    assert seq(m + n, _ => f) == seq(m, _ => f) + seq(n, _ => f);
    PipelineAppend(seq(m, _ => f), seq(n, _ => f), input);
  }

  /** Zero iterations give back the input. */
  lemma LoopZero(agent: LoopAgent, input: string)
    requires agent.maxIterations == 0
    ensures Repeat(agent.agent, agent.maxIterations, input) == Ok(input)
  {
  }

  /** The separator between parallel results. */
  const ParallelSeparator := "\n---\n"

  /** Every sub-agent's answer to the same input, in list order; the first error in list order wins. */
  function Fan(agents: seq<AgentFn>, input: string): Result<seq<string>, string>
  {
    if agents == [] then Ok([])
    else
      match agents[0](input)
      case Err(e) => Err(e)
      case Ok(out) =>
        match Fan(agents[1..], input)
        case Err(e) => Err(e)
        case Ok(rest) => Ok([out] + rest)
  }

  /** The parallel agent's result: the answers joined in list order. */
  function ParallelResult(agents: seq<AgentFn>, input: string): Result<string, string>
  {
    match Fan(agents, input)
    case Err(e) => Err(e)
    case Ok(outs) => Ok(Join(outs, ParallelSeparator))
  }

  /**
   * `ParallelAgent::run`, with the spawned tasks awaited in list order.
   * The sub-agents are functions of their input, so running them one by
   * one gives each the answer it would give concurrently.
   */
  method RunParallel(agent: ParallelAgent, input: string) returns (r: Result<string, string>)
    ensures r == ParallelResult(agent.subAgents, input)
  {
    var subs := agent.subAgents;
    var results: seq<string> := [];
    PrependNothing(Fan(subs, input));
    assert subs[0..] == subs;
    for i := 0 to |subs|
      invariant Fan(subs, input) == Prepend(results, Fan(subs[i..], input))
    {
      var out := subs[i](input);
      if out.Err? {
        FanStep(subs, i, input);
        return Err(out.error);
      }
      FanStep(subs, i, input);
      PrependTwice(results, out.value, Fan(subs[i + 1..], input));
      results := results + [out.value];
    }
    assert subs[|subs|..] == [];
    assert results + [] == results;
    r := Ok(Join(results, ParallelSeparator));
  }

  /** Collecting nothing in front leaves a fan-out's answers as they are. */
  lemma PrependNothing(r: Result<seq<string>, string>)
    ensures Prepend([], r) == r
  {
    if r.Ok? {
      assert [] + r.value == r.value;
    }
  }

  /** Collecting one more answer in front. */
  lemma PrependTwice(done: seq<string>, out: string, r: Result<seq<string>, string>)
    ensures Prepend(done, Prepend([out], r)) == Prepend(done + [out], r)
  {
    if r.Ok? {
      assert done + ([out] + r.value) == done + [out] + r.value;
    }
  }

  /** The fan-out from position `i` on: the answer at `i` in front of the fan-out after it, or its error. */
  lemma FanStep(agents: seq<AgentFn>, i: nat, input: string)
    requires i < |agents|
    ensures agents[i](input).Err? ==> Fan(agents[i..], input) == Err(agents[i](input).error)
    ensures agents[i](input).Ok? ==> Fan(agents[i..], input) == Prepend([agents[i](input).value], Fan(agents[i + 1..], input))
  {
    assert agents[i..][0] == agents[i] && agents[i..][1..] == agents[i + 1..];
  }

  /** Putting answers already collected in front of a fan-out's answers. */
  function Prepend(done: seq<string>, r: Result<seq<string>, string>): Result<seq<string>, string>
  {
    match r
    case Err(e) => Err(e)
    case Ok(rest) => Ok(done + rest)
  }

  /** When every sub-agent answers, the answers are joined in list order. */
  lemma {:induction false} FanAllAnswer(agents: seq<AgentFn>, input: string)
    requires forall i :: 0 <= i < |agents| ==> agents[i](input).Ok?
    ensures Fan(agents, input).Ok? && |Fan(agents, input).value| == |agents|
    ensures forall i :: 0 <= i < |agents| ==> Fan(agents, input).value[i] == agents[i](input).value
  {
    if agents != [] {
      assert agents[0](input).Ok?;
      forall i | 0 <= i < |agents| - 1 ensures agents[1..][i](input).Ok? {
        assert agents[1..][i] == agents[i + 1];
      }
      FanAllAnswer(agents[1..], input);
      var rest := Fan(agents[1..], input).value;
      assert Fan(agents, input).value == [agents[0](input).value] + rest;
      forall i | 0 <= i < |agents| ensures Fan(agents, input).value[i] == agents[i](input).value {
        if i > 0 {
          assert agents[1..][i - 1] == agents[i];
        }
      }
    }
  }

  /**
   * The first sub-agent, in list order, that fails decides the error,
   * whatever the agents after it do.
   */
  lemma {:induction false} FanFirstError(agents: seq<AgentFn>, k: nat, input: string)
    requires k < |agents| && agents[k](input).Err?
    requires forall i :: 0 <= i < k ==> agents[i](input).Ok?
    ensures ParallelResult(agents, input) == Err(agents[k](input).error)
    ensures Fan(agents, input) == Err(agents[k](input).error)
  {
    if k > 0 {
      FanFirstError(agents[1..], k - 1, input);
    }
  }

  /** With no sub-agents the joined result is empty. */
  lemma ParallelEmpty(agent: ParallelAgent, input: string)
    requires agent.subAgents == []
    ensures ParallelResult(agent.subAgents, input) == Ok("")
  {
  }
}
