# kinetic-rs core in Dafny

kinetic-rs runs AI-agent workflows. A workflow file describes either one
agent (Direct), a chain, fan or loop of agents (Composite), or an explicit
dependency graph (Graph). The normalizer turns all three into one graph
form. The graph executor then runs that graph in rounds: every node whose
dependencies are satisfied and whose guard condition holds runs. Its output
goes into a shared workflow state, whose fields are combined by per-field
reducers. The text of the terminal nodes becomes the answer. The agents
themselves are a ReAct loop, a function-calling LLM loop (with a streaming
variant), an older LLM loop, and Sequential, Parallel and Loop
combinators. They talk to Gemini, Anthropic or OpenAI through codecs that
turn conversation history into each provider's JSON and read the replies
back.

This project models that core and proves its properties:

- `Schema`, `Store`, `StoreLaws`: the state schema, the workflow state (a
  class whose `fields` and `reducers` maps `Update` changes in place), and
  the laws of the five reducers.
- `ConditionAst`, `ConditionParser`, `ConditionPrint`,
  `ConditionEvaluator`: the guard language. The source prints only the
  comparison operators (their `Display`). `ConditionPrint` adds a printer
  for whole conditions, which the source does not have, and proves that
  the parser reads its output back.
- `GraphTypes`, `WorkflowTypes`, `Normalizer`: workflow definitions and
  their normalization to graphs.
- `GraphExecutor`, `ExecutorLaws`: the round-based executor, output
  mapping, response formatting, termination and at-most-once execution.
- `Model`, `React`, `LlmAgent`, `LegacyAgent`, `CompositeAgents`,
  `Registry`, `AgentFactory`: messages and tools, the agent loops, the
  shared tool registry and provider inference.
- `GeminiCodec`, `AnthropicCodec`, `OpenAICodec`: the provider codecs and
  their round trips.
- `Json`, `Strings`, `Wrappers`: JSON values, string helpers, and the
  `Option` and `Result` types.

Modelling choices:

- The language model is a function from a call index and the history sent
  to a reply, or to an error. A tool's execution is a function from the
  tool and its input to a JSON result, or to an error.
- The graph executor's agents are a function from a node id and its input
  to the node's output text, or to an error.
- Parsing JSON, printing JSON, parsing numbers and rendering numbers are
  functions passed in as parameters. The model never defines them.
- JSON objects are maps. Iterating over one goes in ascending key order,
  as serde_json's default `BTreeMap` does (`Strings.SortedKeys`).

The condition AST has a `Not` variant (src/kinetic/workflow/condition/ast.rs:18-19),
but the parser in `src/kinetic/workflow/condition/parser.rs` never builds one. The
model follows the code: `ConditionParser.ParseNeverNegates` proves that no
parse result contains `Not`.

## Model

| member | source | states |
|---|---|---|
| Schema.DefaultReducer | src/kinetic/workflow/state/schema.rs:40-55 | The default reducer is Overwrite. |
| Schema.DecodeFieldDef | src/kinetic/workflow/state/schema.rs:17-27 | A field definition without a reducer gets Overwrite; the field type and the default value are carried over unchanged. |
| Schema.ReducerNamesBijective | src/kinetic/workflow/state/schema.rs:40-55 | Reducer names, in lower case, and reducers are in one-to-one correspondence: printing then parsing gives the reducer back, and parsing a name then printing gives the name back. |
| Schema.FieldTypeNamesBijective | src/kinetic/workflow/state/schema.rs:29-38 | The same one-to-one correspondence for field-type names. |
| Store.ReducerOf | src/kinetic/workflow/state/store.rs:45-49 | A field's reducer is the one recorded for it, or Overwrite when there is none. |
| Store.Updated | src/kinetic/workflow/state/store.rs:44-95 | An update changes only the named key; that key then holds the reduced value. |
| Store.MergeKeys | src/kinetic/workflow/state/store.rs:83-93 | The merge loop produces the stored object overridden key by key by the incoming one. |
| Store.WorkflowState.New | src/kinetic/workflow/state/store.rs:21-33 | A new state holds exactly the declared defaults and records every declared reducer. |
| Store.WorkflowState.Empty | src/kinetic/workflow/state/store.rs:36-41 | An empty state has no fields and no reducers. |
| Store.WorkflowState.Update | src/kinetic/workflow/state/store.rs:44-95 | Updating keeps the reducers and sets the fields to the reduced result of the old fields. |
| Store.WorkflowState.Get | src/kinetic/workflow/state/store.rs:98-100 | A lookup finds a value exactly when the key is stored, and returns that value. |
| Store.WorkflowState.GetPath | src/kinetic/workflow/state/store.rs:103-114 | A dotted path reads its first segment as a field, then walks the remaining segments through nested objects. |
| Store.WorkflowState.ToJson | src/kinetic/workflow/state/store.rs:117-124 | The JSON view is an object with exactly the stored fields. |
| Store.WorkflowState.Keys | src/kinetic/workflow/state/store.rs:127-129 | A key is listed exactly when it can be read back. |
| StoreLaws.UndeclaredFieldOverwritten | src/kinetic/workflow/state/store.rs:45-54 | A field with no declared reducer takes the new value, whatever was stored. |
| StoreLaws.AppendToAbsent | src/kinetic/workflow/state/store.rs:55-66 | Appending to an absent field stores the appended array, or a one-element array holding a non-array value. |
| StoreLaws.AppendToStored | src/kinetic/workflow/state/store.rs:55-66 | Appending to a stored array concatenates an array value and pushes any other value; a stored non-array is left as it is. |
| StoreLaws.AppendAll | src/kinetic/workflow/state/store.rs:55-66 | A series of appends yields the concatenation of all the values appended. |
| StoreLaws.MaxReplacesOnlyWhenLarger | src/kinetic/workflow/state/store.rs:67-74 | Max either keeps the field or stores the new value, and stores it only when it is a number larger than the stored number, or nothing numeric is stored. |
| StoreLaws.MinReplacesOnlyWhenSmaller | src/kinetic/workflow/state/store.rs:75-82 | Min either keeps the field or stores the new value, and stores it only when it is a number smaller than the stored number, or nothing numeric is stored. |
| StoreLaws.NumericFieldMonotone | src/kinetic/workflow/state/store.rs:67-82 | A Max field holding a number never decreases, and a Min field never increases. |
| StoreLaws.MaxAll | src/kinetic/workflow/state/store.rs:67-74 | After a series of numeric updates, a Max field holds the largest of the stored and written numbers, and it is one of them. |
| StoreLaws.MaxOfUpdates | src/kinetic/workflow/state/store.rs:67-74 | Starting from no number, a Max field ends up holding the largest of the numbers written, which is one of them. |
| StoreLaws.MinAll | src/kinetic/workflow/state/store.rs:75-82 | After a series of numeric updates, a Min field holds the smallest of the stored and written numbers, and it is one of them. |
| StoreLaws.MergeObjects | src/kinetic/workflow/state/store.rs:83-93 | Merging objects gives the union of their keys, and the incoming value wins on shared keys. |
| StoreLaws.MergeNonObject | src/kinetic/workflow/state/store.rs:83-93 | A non-object update leaves a Merge field as it was, or makes an absent field an empty object. |
| StoreLaws.DefaultsExactly | src/kinetic/workflow/state/store.rs:21-33 | The initial fields are exactly the fields that declare a default. |
| StoreLaws.LookupPlainName | src/kinetic/workflow/state/store.rs:103-114 | A path without a dot reads the field of that name. |
| StoreLaws.LookupSegments | src/kinetic/workflow/state/store.rs:103-114 | A dotted path reads its first segment as a field and walks the rest. |
| StoreLaws.DottedFieldUnreachable | src/kinetic/workflow/state/store.rs:103-114 | A field whose own name contains a dot never affects a path lookup. |
| ConditionAst.DisplayInjective | src/kinetic/workflow/condition/ast.rs:54-66 | Two comparison operators print the same exactly when they are the same operator. |
| ConditionParser.FindConnective | src/kinetic/workflow/condition/parser.rs:32-71 | The scan finds the leftmost " and " or " or " that lies outside quotes and parentheses. |
| ConditionParser.FindOperatorFrom | src/kinetic/workflow/condition/parser.rs:97-110 | The search finds the leftmost occurrence of the operator that lies outside quotes. |
| ConditionParser.Token | src/kinetic/workflow/condition/parser.rs:75-83 | An operator is searched for by its printed form, or by " contains " for Contains. |
| ConditionParser.OperatorsCoverAll | src/kinetic/workflow/condition/parser.rs:75-83 | Every comparison operator is in the parser's operator list. |
| ConditionParser.LoneQuotePanics | src/kinetic/workflow/condition/parser.rs:129-133 | As written, a literal that is a single quote character passes the quote test and slices out of range. |
| ConditionParser.ParseLiteralCorrected | src/kinetic/workflow/condition/parser.rs:112-142 | The corrected literal parser agrees with the written one on every input where the written one does not panic; the written one panics only on a lone quote. |
| ConditionParser.ParseLiteral | src/kinetic/workflow/condition/parser.rs:112-142 | After trimming, quoted text of at least two characters is the string between the quotes, and only such text gives a string. A literal that is no keyword, no such string and no number fails with "Could not parse literal: " followed by the trimmed input. |
| ConditionParser.QuotedLiteral | src/kinetic/workflow/condition/parser.rs:129-133 | A body between matching quotes parses to that string. |
| ConditionParser.FirstOperator | src/kinetic/workflow/condition/parser.rs:75-91 | The chosen operator is the first of the list, in priority order, that occurs outside quotes. |
| ConditionParser.TryOperators | src/kinetic/workflow/condition/parser.rs:73-95 | Without an operator the result is the error "Could not parse condition: " followed by the text; otherwise the text is split at the first operator found. |
| ConditionParser.Parse | src/kinetic/workflow/condition/parser.rs:12-30 | Every failure is a condition or a literal that could not be read: the error starts with "Could not parse condition: " or "Could not parse literal: ". |
| ConditionParser.ParseUnicodeSpace | src/kinetic/workflow/condition/parser.rs:13-21 | White space of any kind, Unicode white space included, around `true` or `false` is trimmed, and the guard parses to that constant. |
| ConditionParser.ParseNeverNegates | src/kinetic/workflow/condition/parser.rs:12-30 | No parsed condition contains a negation. |
| ConditionParser.ComparisonIsCompare | src/kinetic/workflow/condition/parser.rs:73-95 | A successful comparison parse is a single comparison. |
| ConditionParser.ParseConstants | src/kinetic/workflow/condition/parser.rs:16-21 | "true" and "false" parse to the constant conditions. |
| ConditionParser.TryParseCompound | src/kinetic/workflow/condition/parser.rs:32-71 | The scanning loop splits at the first top-level connective, as the compound definition does. |
| ConditionParser.ParseBothSides | src/kinetic/workflow/condition/parser.rs:49-64 | Parsing both sides of a connective gives the connective of the two parses, or the first error. |
| ConditionParser.FindOperator | src/kinetic/workflow/condition/parser.rs:97-110 | The quote-tracking loop returns the leftmost position of the operator outside quotes. |
| ConditionPrint.ParseShow | src/kinetic/workflow/condition/parser.rs:12-30 | Parsing the printed form of a condition gives that condition back, for conditions with identifier paths, quote-free strings, numbers that read back, and right-nested connectives. |
| ConditionPrint.ParseChain | src/kinetic/workflow/condition/parser.rs:32-71 | A chain of atoms joined by connectives parses to the right-nested condition. |
| ConditionPrint.LiteralRoundTrip | src/kinetic/workflow/condition/parser.rs:112-142 | Every printable literal parses back from its printed text. |
| ConditionPrint.CompareOperatorFound | src/kinetic/workflow/condition/parser.rs:97-110 | In a printed comparison, the operator the parser picks is the printed one, at the position where it was printed. |
| ConditionEvaluator.ValuesEqual | src/kinetic/workflow/condition/evaluator.rs:33-46 | Equality holds exactly when the stored value is the literal's value, or the field is absent and the literal is null. |
| ConditionEvaluator.CompareNumbers | src/kinetic/workflow/condition/evaluator.rs:48-58 | Ordering holds only between a number field and a number literal, and follows the numeric order. |
| ConditionEvaluator.AnyMatches | src/kinetic/workflow/condition/evaluator.rs:60-78 | Array containment holds exactly when some element equals the literal. |
| ConditionEvaluator.CheckContains | src/kinetic/workflow/condition/evaluator.rs:60-78 | Contains is substring search on strings, element search on arrays, and false otherwise. |
| ConditionEvaluator.OrderingSemantics | src/kinetic/workflow/condition/evaluator.rs:19-31 | Each ordering operator holds exactly when its numeric relation holds. |
| ConditionEvaluator.NumericTrichotomy | src/kinetic/workflow/condition/evaluator.rs:48-58 | On a number field, exactly one of less, equal and greater holds. |
| ConditionEvaluator.InequalityIsNegation | src/kinetic/workflow/condition/evaluator.rs:19-31 | Not-equal is the negation of equal; on an absent field, equal holds exactly for the null literal. |
| ConditionEvaluator.ContainsNeedsValue | src/kinetic/workflow/condition/evaluator.rs:60-78 | Contains is false on an absent field and for the null literal. |
| ConditionEvaluator.GuardAfterUpdate | src/kinetic/workflow/condition/evaluator.rs:8-17 | After an overwrite of a plain field, an equality guard on it holds exactly when the written value is the literal's value. |
| ConditionEvaluator.NestedPathGuard | src/kinetic/workflow/condition/evaluator.rs:225-236 | A guard on a path through two nested objects compares the innermost value, as the nested-path test expects. |
| ConditionEvaluator.GuardTextMeansCondition | src/kinetic/workflow/condition/evaluator.rs:8-17 | Evaluating the printed text of a condition is evaluating the condition. |
| GraphTypes.DependsOn.ToVec | src/kinetic/workflow/graph/types.rs:61-67 | None gives the empty list, a single dependency a one-element list, and a list of dependencies that same list, in its order and with any repeats. |
| GraphTypes.DependsOn.IsEmpty | src/kinetic/workflow/graph/types.rs:70-76 | Empty exactly when the dependency list is empty. |
| GraphTypes.DefaultDependsOn | src/kinetic/workflow/graph/types.rs:46-57 | The default dependency is empty. |
| GraphTypes.DefaultWaitMode | src/kinetic/workflow/graph/types.rs:80-88 | The default wait mode is All. |
| WorkflowTypes.GraphDependsOn.ToVec | src/kinetic/workflow/types.rs:81-89 | The same reading for workflow files: none gives the empty list, one name a one-element list, and a list of names that same list, in its order. |
| WorkflowTypes.DefaultGraphDependsOn | src/kinetic/workflow/types.rs:72-79 | The default is no dependency. |
| Normalizer.StepIdInjective | src/kinetic/workflow/graph/normalizer.rs:59-116 | Generated step ids with different indices differ. |
| Normalizer.WaitModeOf | src/kinetic/workflow/graph/normalizer.rs:147-150 | The wait mode is Any exactly when the text is "any". |
| Normalizer.ConvertDependsOn | src/kinetic/workflow/graph/normalizer.rs:141-145 | Conversion keeps the dependency list. |
| Normalizer.NormalizeToGraph | src/kinetic/workflow/graph/normalizer.rs:10-19 | Normalizing keeps the name and description and sets no state; an unknown kind gives the error "Unknown workflow kind: " followed by the kind. |
| Normalizer.BuildCompositeNodes | src/kinetic/workflow/graph/normalizer.rs:47-128 | The node-building loops produce the composite node list. |
| Normalizer.SequentialNodes | src/kinetic/workflow/graph/normalizer.rs:59-81 | One sequential step per agent, in order. |
| Normalizer.ParallelNodes | src/kinetic/workflow/graph/normalizer.rs:82-95 | One parallel node per agent, in order. |
| Normalizer.LoopNodes | src/kinetic/workflow/graph/normalizer.rs:96-116 | One loop step per agent, in order. |
| Normalizer.BuildGraphNodes | src/kinetic/workflow/graph/normalizer.rs:130-169 | Every graph node is converted, in order. |
| Normalizer.DirectShape | src/kinetic/workflow/graph/normalizer.rs:21-45 | A Direct workflow succeeds exactly when it has an agent, and becomes the single node "main" with no dependency, waiting for all, running that agent. |
| Normalizer.SequentialChain | src/kinetic/workflow/graph/normalizer.rs:59-81 | Sequential step i is "step_i" and depends on step i-1, or on nothing when i is 0. |
| Normalizer.ParallelFan | src/kinetic/workflow/graph/normalizer.rs:82-95 | Parallel node i is "parallel_i" and has no dependency. |
| Normalizer.LoopChain | src/kinetic/workflow/graph/normalizer.rs:96-116 | Loop step i is "loop_i" and depends on step i-1, or on nothing when i is 0. |
| Normalizer.MissingSections | src/kinetic/workflow/graph/normalizer.rs:47-136 | A missing workflow or graph section is an error, and an unknown execution mode is the error "Unknown execution mode: " followed by the mode. |
| Normalizer.CompositeAcyclic | src/kinetic/workflow/graph/normalizer.rs:47-128 | Composite nodes keep their agents, have distinct ids, and depend only on earlier nodes. |
| Normalizer.GraphPreserved | src/kinetic/workflow/graph/normalizer.rs:130-169 | Graph nodes keep id, agent, guard, schema, outputs and dependencies; the wait mode is Any exactly for "any" and All by default. |
| GraphExecutor.Ids | src/kinetic/workflow/graph/executor.rs:34-45 | The node order lists the ids of the definitions, in order. |
| GraphExecutor.NodeMap | src/kinetic/workflow/graph/executor.rs:34-45 | The node table holds exactly the defined ids, each under its own id, and the last definition with an id wins. |
| GraphExecutor.NewGraph | src/kinetic/workflow/graph/executor.rs:34-45 | A new graph is well formed, keeps the order of definitions, and keeps the last definition of each id. |
| GraphExecutor.AllCompleted | src/kinetic/workflow/graph/executor.rs:66-67 | True exactly when every dependency has completed. |
| GraphExecutor.AnyCompleted | src/kinetic/workflow/graph/executor.rs:68-69 | True exactly when some dependency has completed. |
| GraphExecutor.DependenciesSatisfied | src/kinetic/workflow/graph/executor.rs:61-70 | A node with no dependency is ready; otherwise All needs every dependency completed and Any needs at least one. |
| GraphExecutor.ConditionMet | src/kinetic/workflow/graph/executor.rs:73-84 | A node without a guard may run; a guard that does not parse blocks the node; a guard that parses lets the node run exactly when the parsed condition evaluates to true on the current fields. |
| GraphExecutor.ReadyAmong | src/kinetic/workflow/graph/executor.rs:48-58 | The ready ids are exactly the listed ids that are ready, in their listed order. |
| GraphExecutor.ReadyNodes | src/kinetic/workflow/graph/executor.rs:48-58 | A node is returned exactly when it is not completed, its dependencies are satisfied and its guard holds; the result follows the node order. |
| GraphExecutor.ExtractJsonPath | src/kinetic/workflow/graph/executor.rs:248-257 | The segment loop gives the value reached by walking the dotted path. |
| GraphExecutor.ApplyOutputs | src/kinetic/workflow/graph/executor.rs:126-152 | Applying a node's outputs keeps the reducers and sets the fields to the output mapping's result. |
| GraphExecutor.Unwrapped | src/kinetic/workflow/graph/executor.rs:219-229 | A value is unwrapped exactly when its object has a "result", "answer" or "response" key. |
| GraphExecutor.TerminalIds | src/kinetic/workflow/graph/executor.rs:158-169 | A node is terminal exactly when no node depends on it. |
| GraphExecutor.TerminalKeys | src/kinetic/workflow/graph/executor.rs:171-187 | The response keys are exactly the state keys "output.<id>" of terminal nodes, in key order. |
| GraphExecutor.JoinSnoc | src/kinetic/workflow/graph/executor.rs:196-204 | Joining one more text adds the separator and that text. |
| GraphExecutor.JoinTexts | src/kinetic/workflow/graph/executor.rs:196-206 | The loop joins the texts with the separator between consecutive texts. |
| GraphExecutor.FormatResponse | src/kinetic/workflow/graph/executor.rs:156-207 | The response is the terminal outputs' texts joined by the "---" separator. |
| GraphExecutor.ExecuteNode | src/kinetic/workflow/graph/executor.rs:296-319 | Running a node marks it completed and records it once in the trace, whether it succeeds or fails. |
| GraphExecutor.ExecuteAll | src/kinetic/workflow/graph/executor.rs:296-320 | A round runs the ready nodes in order and traces each of them. |
| GraphExecutor.RoundsStep | src/kinetic/workflow/graph/executor.rs:273-320 | While under the round limit with ready nodes, one round runs and the loop goes on. |
| GraphExecutor.RoundsStop | src/kinetic/workflow/graph/executor.rs:273-285 | At the round limit or with nothing ready, the loop stops with the state unchanged. |
| GraphExecutor.ExecuteOne | src/kinetic/workflow/graph/executor.rs:296-319 | Running one node on the state object has the effect of the node-execution definition. |
| GraphExecutor.ExecuteRound | src/kinetic/workflow/graph/executor.rs:296-320 | The round loop on the state object has the effect of running the ready nodes in order. |
| GraphExecutor.Step | src/kinetic/workflow/graph/executor.rs:273-321 | One iteration stops exactly at the limit or with nothing ready, and otherwise runs one round. |
| GraphExecutor.Run | src/kinetic/workflow/graph/executor.rs:265-325 | The run's answer is the formatted response of the final state of the rounds. |
| GraphExecutor.Pass | src/kinetic/workflow/graph/executor.rs:273-321 | Each loop pass keeps the run headed for the final state, and a stop is reached only there. |
| GraphExecutor.PassKeeps | src/kinetic/workflow/graph/executor.rs:273-321 | After a round, the remaining rounds still end in the same final state. |
| GraphExecutor.StopEnds | src/kinetic/workflow/graph/executor.rs:273-285 | When the loop stops, the current state is the final state. |
| ExecutorLaws.ValueToTextCases | src/kinetic/workflow/graph/executor.rs:216-245 | Strings render as themselves, null as empty, booleans as "true" or "false", and a single-key "result", "answer" or "response" object as its inner value. |
| ExecutorLaws.SatisfiedStaysSatisfied | src/kinetic/workflow/graph/executor.rs:61-70 | Completing more nodes never makes satisfied dependencies unsatisfied. |
| ExecutorLaws.AllIsStricterThanAny | src/kinetic/workflow/graph/executor.rs:61-70 | With dependencies, All satisfied implies Any satisfied. |
| ExecutorLaws.GuardOfPrintable | src/kinetic/workflow/graph/executor.rs:73-84 | A guard written as the printed form of a condition holds exactly when the condition does. |
| ExecutorLaws.MapOutputsFrame | src/kinetic/workflow/graph/executor.rs:133-137 | Output mapping changes only the state fields that the mapping names. |
| ExecutorLaws.MapOutputsHit | src/kinetic/workflow/graph/executor.rs:133-137 | A mapped path that resolves reduces its value into its field; one that does not leaves the field unchanged. |
| ExecutorLaws.TextOutputStored | src/kinetic/workflow/graph/executor.rs:138-151 | Output that is not JSON is stored as text under "output.<id>", and no other field changes. |
| ExecutorLaws.JsonOutputStored | src/kinetic/workflow/graph/executor.rs:126-151 | JSON output is stored under "output.<id>". It stays there unless the node maps "output.<id>" itself to a path that resolves, and then the value found there overwrites it. |
| ExecutorLaws.JsonOutputApplied | src/kinetic/workflow/graph/executor.rs:126-151 | After JSON output, each mapped field whose path resolves takes that value, a mapping whose path does not resolve changes nothing, and every field other than "output.<id>" that is not mapped is unchanged. |
| ExecutorLaws.OwnOutputAfterMapping | src/kinetic/workflow/graph/executor.rs:131-147 | Running the mappings leaves the stored JSON under "output.<id>", unless a resolving mapping for that key overwrites it. |
| ExecutorLaws.MappedKeyAfterMapping | src/kinetic/workflow/graph/executor.rs:131-147 | Running the mappings gives a mapped key the value its path resolves to; any other key keeps its value. |
| GraphExecutor.NodeInputCases | src/kinetic/workflow/graph/executor.rs:97-123 | A node without dependencies gets the original input; otherwise, for whatever fields are stored: no "output.<last dep>" gives the original input, a stored string gives its contents, and any other stored value gives its rendering. |
| ExecutorLaws.InputFromLastDependency | src/kinetic/workflow/graph/executor.rs:97-123 | A node without dependencies gets the original input; otherwise it gets what its last dependency left under "output.<id>": the raw text when that output is not JSON, else the stored JSON (or the value a mapping of "output.<id>" put there), as a string's contents or rendered. |
| ExecutorLaws.FailureRecorded | src/kinetic/workflow/graph/executor.rs:310-318 | A failing node is completed and its error message is stored under "<id>.error". |
| ExecutorLaws.RoundCompletes | src/kinetic/workflow/graph/executor.rs:296-320 | After a round, the completed nodes are the earlier ones plus the round's nodes. |
| ExecutorLaws.RoundKeepsTrace | src/kinetic/workflow/graph/executor.rs:296-320 | A round keeps "completed = nodes in the trace". |
| ExecutorLaws.RoundKeepsBound | src/kinetic/workflow/graph/executor.rs:273-320 | A round keeps "rounds at most completed nodes". |
| ExecutorLaws.RoundsKeepTrace | src/kinetic/workflow/graph/executor.rs:273-321 | The whole loop keeps "completed = nodes in the trace". |
| ExecutorLaws.RoundsKeepBound | src/kinetic/workflow/graph/executor.rs:273-321 | The whole loop keeps the bound on rounds. |
| ExecutorLaws.RoundRunsOnce | src/kinetic/workflow/graph/executor.rs:296-320 | A round never runs a node that already ran. |
| ExecutorLaws.RoundsRunOnce | src/kinetic/workflow/graph/executor.rs:273-321 | Across all rounds, no node runs twice. |
| ExecutorLaws.RunExecutesOnce | src/kinetic/workflow/graph/executor.rs:265-325 | With distinct node ids, every node runs at most once in a run. |
| ExecutorLaws.RoundsStopWhenIdle | src/kinetic/workflow/graph/executor.rs:273-285 | When the loop ends before the limit, no node is ready. |
| ExecutorLaws.RunTerminates | src/kinetic/workflow/graph/executor.rs:269-285 | A run does at most 100 rounds and at most one round per node, its completed set is its trace, and it stops early only when nothing is ready. |
| AgentFactory.InferProvider | src/kinetic/workflow/agent_factory.rs:140-154 | After lower-casing: gemini or models/gemini gives Gemini, gpt or o1 gives OpenAI, claude gives Anthropic, deepseek gives DeepSeek, and anything else gives Gemini. |
| AgentFactory.PrefixesExclusive | src/kinetic/workflow/agent_factory.rs:140-154 | No name matches the prefixes of two providers. |
| AgentFactory.InferProviderIgnoresCase | src/kinetic/workflow/agent_factory.rs:141 | The provider does not depend on letter case. |
| AgentFactory.InferProviderSameLower | src/kinetic/workflow/agent_factory.rs:141 | Names with the same lower-case form get the same provider. |
| AgentFactory.InferProviderKelvin | src/kinetic/workflow/agent_factory.rs:141-149 | The Kelvin sign lower-cases to `k`: any name starting with "deepsee" and the Kelvin sign gives DeepSeek. |
| AgentFactory.InferProviderEmpty | src/kinetic/workflow/agent_factory.rs:151-152 | The empty name gives Gemini. |
| Registry.ToolTable.constructor | src/kinetic/workflow/registry.rs:14-18 | A new table is empty. |
| Registry.ToolRegistry.constructor | src/kinetic/workflow/registry.rs:14-18 | A new registry owns a new, empty table. |
| Registry.ToolRegistry.Share | src/kinetic/workflow/registry.rs:8-11 | A clone shares the original's table. |
| Registry.ToolRegistry.Register | src/kinetic/workflow/registry.rs:20-23 | Registering stores the tool under its name, replacing any earlier one. |
| Registry.ToolRegistry.Get | src/kinetic/workflow/registry.rs:25-28 | A lookup finds a tool exactly when its name is registered. |
| Registry.RegisterKeepsKeyed | src/kinetic/workflow/registry.rs:20-23 | Every tool stays stored under its own name. |
| Registry.RegisterThroughClone | src/kinetic/workflow/registry.rs:137-150 | A tool registered through a clone is then found through the original, and a tool registered earlier is still there. |
| Registry.GetMissing | src/kinetic/workflow/registry.rs:99-104 | An unregistered name is not found. |
| Model.FindTool | src/adk/agent/react.rs:150 | The tool found is the first with the name; none is found exactly when no tool has it. |
| React.ToolSection | src/adk/agent/react.rs:63-72 | The tool section lists each tool on its own line, or says there are none. |
| React.SystemPrompt | src/adk/agent/react.rs:62-91 | The system prompt starts with the ReAct instructions. |
| React.SystemPromptListsTools | src/adk/agent/react.rs:62-91 | The system prompt names every tool and its description. |
| React.PromptWithScratchpad | src/adk/agent/react.rs:94-104 | The prompt is the input unchanged when the scratchpad is empty; otherwise it contains every entry and ends with the continue instruction. |
| React.TextStep | src/adk/agent/react.rs:119-131 | Text is a final answer exactly when its lower-case form starts with "final answer:"; any other text is kept whole as a thought. |
| React.BlankTextSkipped | src/adk/agent/react.rs:119-135 | A text part decides the step exactly when it holds a character that is not white space; blank text, Unicode white space included, is skipped. |
| React.ParseResponse | src/adk/agent/react.rs:107-142 | The step comes from the first deciding part of the reply; a reply without one is an empty thought. |
| React.FinalAnswerStripped | src/adk/agent/react.rs:119-131 | After one of the three spellings of the prefix, the answer is the rest of the text, trimmed. |
| React.OtherSpellingKept | src/adk/agent/react.rs:119-131 | With any other capitalisation of the prefix, the answer is the whole trimmed text, prefix included. |
| React.ExecuteTool | src/adk/agent/react.rs:145-160 | An unknown tool gives "Error: Tool '<name>' not found", a failing tool "Error: " and its message, and a working tool its rendered result. |
| React.UnknownTool | src/adk/agent/react.rs:145-160 | A name that no tool has gives an error text starting with "Error: Tool '". |
| React.Entries | src/adk/agent/react.rs:206-219 | A thought adds at most one scratchpad entry; an action adds the action and its observation. |
| React.Summary | src/adk/agent/react.rs:236-240 | Running out of iterations reports a text starting with "Reached maximum iterations". |
| React.Conversation | src/adk/agent/react.rs:184-193 | Each request sends two messages: the system prompt, then the user's prompt. |
| React.Iterate | src/adk/agent/react.rs:169-241 | The loop calls the model at most max-iterations times, adds at most two entries per call, and only extends the scratchpad. |
| React.FinalAnswerEnds | src/adk/agent/react.rs:221-224 | A final answer ends the run with that answer. |
| React.StepContinues | src/adk/agent/react.rs:206-219 | A thought or an action continues the loop with the extended scratchpad. |
| React.NoAnswerSummarizes | src/adk/agent/react.rs:236-240 | A model that never answers leads to the summary after exactly max-iterations calls. |
| React.Step | src/adk/agent/react.rs:181-225 | One loop pass on the scratchpad has the effect of one step of the definition. |
| React.Run | src/adk/agent/react.rs:169-241 | The run's result is the outcome of the iteration definition. |
| LlmAgent.ToolMap | src/adk/agent/llm.rs:36-40 | Each name maps to the last tool that has it. |
| LlmAgent.New | src/adk/agent/llm.rs:28-50 | A new agent keeps its tools and indexes them by name. |
| LlmAgent.GetTool | src/adk/agent/llm.rs:53-55 | A lookup returns the last tool with the name, or none. |
| LlmAgent.ToolResponse | src/adk/agent/llm.rs:128-156 | A call to a missing tool answers with an error object, a failing tool with its error object, and a working tool with its result. |
| LlmAgent.Calls | src/adk/agent/llm.rs:107-117 | The calls are exactly the reply's function-call parts. |
| LlmAgent.CallsOne | src/adk/agent/llm.rs:110-116 | One part gives itself when it is a function call and nothing otherwise. |
| LlmAgent.CallsAppend | src/adk/agent/llm.rs:107-117 | The calls of two pieces of a reply are those of the first followed by those of the second, so the calls keep the reply's order and repeats. |
| LlmAgent.OnlyCalls | src/adk/agent/llm.rs:107-117 | A reply made only of function calls yields every one of them, in order. |
| LlmAgent.FirstText | src/adk/agent/llm.rs:92-104 | The answer text is the first non-empty text part of the reply; there is none exactly when no text part is non-empty. |
| LlmAgent.InitialHistory | src/adk/agent/llm.rs:65-74 | The history starts with a system message and the user's input. |
| LlmAgent.Turns | src/adk/agent/llm.rs:64-175 | The loop makes at most 10 model calls, keeps the history it started from, adds two messages per continuing turn, and running out gives "Max turns reached". |
| LlmAgent.ExtendTurns | src/adk/agent/llm.rs:158-165 | A turn with calls appends the reply and the tool responses to the history. |
| LlmAgent.TextEndsRun | src/adk/agent/llm.rs:92-104 | A reply with a non-empty text part ends the run at once with the first such text; the history is unchanged and none of its calls runs. |
| LlmAgent.EmptyReplyEndsRun | src/adk/agent/llm.rs:119-125 | A reply with no non-empty text and no function call ends the run at once with the empty answer, the history unchanged. |
| LlmAgent.Extended | src/adk/agent/llm.rs:158-165 | A continuing turn adds exactly two messages to the history. |
| LlmAgent.CallingContinues | src/adk/agent/llm.rs:107-165 | A reply with calls and no text leads to another turn from the extended history. |
| LlmAgent.AlwaysCallingExhausts | src/adk/agent/llm.rs:170-174 | A model that always calls tools exhausts the 10 turns, ends with "Max turns reached" and grows the history by two messages per turn. |
| LlmAgent.ExecuteCalls | src/adk/agent/llm.rs:128-156 | The loop answers every call in order. |
| LlmAgent.Turn | src/adk/agent/llm.rs:78-166 | One loop pass has the effect of one turn of the definition. |
| LlmAgent.Run | src/adk/agent/llm.rs:64-175 | The run's result is the outcome of the turn definition. |
| LlmAgent.RunCallsBounded | src/adk/agent/llm.rs:76-77 | A run calls the model between 1 and 10 times. |
| LlmAgent.TextContent | src/adk/agent/llm.rs:200-212 | The streamed text is empty exactly when no text part is non-empty. |
| LlmAgent.ConcatTexts | src/adk/agent/llm.rs:200-212 | The loop concatenates the text parts in order. |
| LlmAgent.CallEvents | src/adk/agent/llm.rs:230-270 | Each call reports its tool-call event first and its result event last, two or three events in all. |
| LlmAgent.CallEventsOneResult | src/adk/agent/llm.rs:230-270 | One call reports one result, under its own name. |
| LlmAgent.OneResultPerCall | src/adk/agent/llm.rs:230-270 | The results reported name the calls, one each, in order. |
| LlmAgent.StreamTurns | src/adk/agent/llm.rs:176-280 | A non-empty answer is the last event the stream sends. |
| LlmAgent.StreamCalls | src/adk/agent/llm.rs:230-270 | One pass over the calls, in order, collects every call's response and emits, per call, the call event, the error event if the tool is missing or fails, and the result event. |
| LlmAgent.StreamCall | src/adk/agent/llm.rs:232-269 | One call reports the call, then "Tool <name> not found" when no tool has the name or "Tool <name> failed: <error>" when the tool fails, then the result; the response is the tool's result or an error object. |
| LlmAgent.StreamTurn | src/adk/agent/llm.rs:195-275 | One streaming pass has the effect of one turn of the stream definition. |
| LlmAgent.StreamAnswer | src/adk/agent/llm.rs:214-223 | A reply without calls ends the stream with all of its text, sent as the answer when not empty. |
| LlmAgent.StreamContinues | src/adk/agent/llm.rs:226-270 | A reply with calls sends its text as a thought, then the events of each call, and the stream goes on from the extended history. |
| LlmAgent.RunStream | src/adk/agent/llm.rs:176-280 | The events sent and the result are those of the stream definition. |
| LegacyAgent.FirstIsLast | src/adk/agent.rs:113 | With distinct tool names, the first tool with a name is the last one. |
| LegacyAgent.SameResponses | src/adk/agent.rs:109-137 | With distinct tool names, both agents answer calls alike. |
| LegacyAgent.LegacyContinues | src/adk/agent.rs:72-143 | A reply with calls and no text continues the older agent from the history extended by the reply and the tool responses. |
| LegacyAgent.BothStop | src/adk/agent.rs:72-106 | A reply without calls gives both agents the same result after the same number of calls. |
| LegacyAgent.ContinueAgrees | src/adk/agent.rs:58-146 | With distinct tool names, if both agents agree from the next history, they agree from this one. |
| LegacyAgent.LegacyAgrees | src/adk/agent.rs:45-153 | With distinct tool names, both agents give the same result after the same number of calls. |
| LegacyAgent.LegacyAnswer | src/adk/agent.rs:109-137 | The loop answers every call as the definition does. |
| LegacyAgent.LegacyRun | src/adk/agent.rs:45-153 | The run's result is the outcome of the older turn definition. |
| CompositeAgents.PipelineAppend | src/adk/agent.rs:178-184 | Running a longer pipeline runs the rest on the output of the first part. |
| CompositeAgents.PipelineFirstError | src/adk/agent.rs:178-184 | A failing agent stops the pipeline with its error. |
| CompositeAgents.RunSequential | src/adk/agent.rs:178-184 | Each agent gets the previous agent's output. |
| CompositeAgents.SequentialEmpty | src/adk/agent.rs:178-184 | With no agents, the output is the input. |
| CompositeAgents.RunLoop | src/adk/agent.rs:258-265 | The loop runs the body max-iterations times, each time on the previous output. |
| CompositeAgents.LoopIsPipeline | src/adk/agent.rs:258-265 | The loop is the body repeated as a pipeline. |
| CompositeAgents.LoopAdds | src/adk/agent.rs:258-265 | One more iteration runs the body once more on the output. |
| CompositeAgents.LoopZero | src/adk/agent.rs:258-265 | Zero iterations return the input. |
| CompositeAgents.RunParallel | src/adk/agent.rs:209-226 | The result is that of the fan-out over the agents, all on the same input: the outputs joined by "\n---\n" in list order, or the first error in list order. |
| CompositeAgents.FanStep | src/adk/agent.rs:209-226 | The fan of a longer list is the fan of the first agent followed by the rest. |
| CompositeAgents.FanAllAnswer | src/adk/agent.rs:209-226 | When every agent answers, the outputs are the answers in list order. |
| CompositeAgents.FanFirstError | src/adk/agent.rs:209-226 | When an agent fails, the result is the first failure in list order. |
| CompositeAgents.ParallelEmpty | src/adk/agent.rs:209-226 | With no agents, the result is empty text. |
| GeminiCodec.PartToJson | src/adk/model/gemini.rs:209-228 | Only thinking parts are not sent; a call carries a "thoughtSignature" key exactly when it has one. |
| GeminiCodec.Parsed | src/adk/model/gemini.rs:231-259 | Reading a part gives at most two parts, with a thought only in first place. |
| GeminiCodec.ParsePart | src/adk/model/gemini.rs:231-259 | The reading steps give the parts of the definition. |
| GeminiCodec.ThinkingReadIff | src/adk/model/gemini.rs:231-259 | A thought is read exactly when "thought" is a non-empty string. |
| GeminiCodec.BodyRead | src/adk/model/gemini.rs:231-259 | A "text" string is read as text; otherwise a "functionCall" is read with its name, args and signature; otherwise only the thought is read. |
| GeminiCodec.RoundTrip | src/adk/model/gemini.rs:209-259 | A text or call part sent and read back is that part. |
| GeminiCodec.ResponseNotRead | src/adk/model/gemini.rs:209-259 | A function response sent is not read back as a part. |
| GeminiCodec.CallPreserved | src/adk/model/gemini.rs:209-259 | A call read and sent again keeps its name, args and signature. |
| GeminiCodec.CallRoundTrip | src/adk/model/gemini.rs:209-259 | A well-formed call object read and sent again is the same object. |
| GeminiCodec.SentParts | src/adk/model/gemini.rs:48-76 | Sending never adds parts. |
| GeminiCodec.ContentToJson | src/adk/model/gemini.rs:48-76 | A message keeps its role. |
| GeminiCodec.HistoryToJson | src/adk/model/gemini.rs:48-76 | Every message is sent, in order, with its role. |
| GeminiCodec.SentPartsRoundTrip | src/adk/model/gemini.rs:48-76 | Sending a message's parts and reading them back drops only the thoughts. |
| AnthropicCodec.ExtractSystemMessage | src/adk/model/anthropic.rs:39-48 | The system prompt is the text of the first system message, if any. |
| AnthropicCodec.Blocks | src/adk/model/anthropic.rs:63-96 | Every part becomes one block, in order. |
| AnthropicCodec.Message | src/adk/model/anthropic.rs:51-106 | System messages and messages without blocks are not sent; "model" becomes "assistant" and the blocks are the content. |
| AnthropicCodec.ContentToMessage | src/adk/model/anthropic.rs:51-106 | The block loop gives the message of the definition. |
| AnthropicCodec.RoleMapping | src/adk/model/anthropic.rs:57-61 | "model" maps to "assistant" and every other role is kept. |
| AnthropicCodec.BlockPart | src/adk/model/anthropic.rs:132-159 | Any reply block, whatever other keys it carries: a "text" block with a non-empty string `text` reads as that text, a "thinking" block with a non-empty string `thinking` as that thought, and otherwise as nothing. A "tool_use" block reads as a call named by its `name` string (empty if missing), with its `input` as arguments and no signature. Every other type reads as nothing. |
| AnthropicCodec.BlockParts | src/adk/model/anthropic.rs:130-160 | The blocks read as no more parts than there are blocks. |
| AnthropicCodec.BlockPartsSnoc | src/adk/model/anthropic.rs:132-160 | One more block adds its own part, if any, at the end. |
| AnthropicCodec.BlockPartsAppend | src/adk/model/anthropic.rs:130-160 | The parts of two runs of blocks are those of the first followed by those of the second, so the parts follow block order. |
| AnthropicCodec.ParseResponse | src/adk/model/anthropic.rs:123-171 | A reply is an error exactly when its content is not an array, with the message "No content in Anthropic response"; otherwise it is a "model" message whose parts are those its content blocks read as, in order. |
| AnthropicCodec.ParseAnthropicResponse | src/adk/model/anthropic.rs:123-171 | The reading loop gives the reply of the definition. |
| AnthropicCodec.BlockEcho | src/adk/model/anthropic.rs:63-171 | A part sent as a block and read back gives exactly what that block keeps of it. |
| AnthropicCodec.BlocksRoundTrip | src/adk/model/anthropic.rs:63-171 | Parts sent as blocks and read back give what the blocks keep of them, in order. |
| AnthropicCodec.MessageRoundTrip | src/adk/model/anthropic.rs:51-171 | A message sent and read back as a reply is a "model" message of what its blocks keep. |
| AnthropicCodec.EchoesKept | src/adk/model/anthropic.rs:63-171 | Parts of the kinds that blocks keep are read back unchanged. |
| AnthropicCodec.ModelContentRoundTrip | src/adk/model/anthropic.rs:51-171 | A model message of text and calls reads back unchanged. |
| OpenAICodec.FirstResponse | src/adk/model/openai.rs:50-58 | Finds the first function-response part, if there is one. |
| OpenAICodec.CallJson | src/adk/model/openai.rs:68-76 | A tool call has type "function", its id is the function's name, and its arguments are the rendered arguments. |
| OpenAICodec.CallsOf | src/adk/model/openai.rs:61-80 | Call parts become tool calls; there are never more tool calls than parts, and every tool call's id is a string equal to its function's name. |
| OpenAICodec.Message | src/adk/model/openai.rs:41-94 | A function response is sent as a "tool" message with its call id; otherwise the role is mapped and text and tool calls are carried. |
| OpenAICodec.ContentToMessage | src/adk/model/openai.rs:41-94 | The conversion loop gives the message of the definition. |
| OpenAICodec.RoleMapping | src/adk/model/openai.rs:42-47 | "model" maps to "assistant" and every other role is kept. |
| OpenAICodec.CallPart | src/adk/model/openai.rs:114-154 | Every tool call reads as a function call without a signature. |
| OpenAICodec.CallParts | src/adk/model/openai.rs:114-154 | The tool calls read as one call each, in order. |
| OpenAICodec.ParseResponse | src/adk/model/openai.rs:114-154 | A reply is an error exactly when its choices are missing or empty, with the message "No choices in OpenAI response"; otherwise it is a "model" message whose only text part is non-empty and first, and whose other parts are calls. |
| OpenAICodec.ParseOpenAIResponse | src/adk/model/openai.rs:114-154 | The reading loop gives the reply of the definition. |
| OpenAICodec.PushCalls | src/adk/model/openai.rs:114-154 | The loop adds every call part read. |
| OpenAICodec.CallsRoundTrip | src/adk/model/openai.rs:61-154 | Calls whose arguments read back survive sending and reading back. |
| OpenAICodec.MessageRoundTrip | src/adk/model/openai.rs:41-154 | A message sent and read back as a reply is a "model" message of its joined text followed by its calls. |
| OpenAICodec.ReplyRead | src/adk/model/openai.rs:114-154 | A reply is read as its text followed by its calls. |
| OpenAICodec.SentText | src/adk/model/openai.rs:61-80 | The text read back from a sent message is the concatenation of its text and thinking parts, in order, or nothing when that is empty. |
| OpenAICodec.SentCalls | src/adk/model/openai.rs:61-80 | The calls read back from a sent message are the tool calls sent. |
| OpenAICodec.CallsEmpty | src/adk/model/openai.rs:61-80 | A message sends no tool calls exactly when it has no call parts. |
| Json.WalkAppend | src/kinetic/workflow/graph/executor.rs:248-257 | Walking a longer path walks the first part and then the rest. |
| Strings.Trim | src/kinetic/workflow/condition/parser.rs:13 | The result is no longer than the input and neither starts nor ends with white space (Unicode White_Space, as `char::is_whitespace`). It is empty exactly when the input is all white space. |
| Strings.TrimAround | src/kinetic/workflow/condition/parser.rs:13 | White space of any kind on either side of a text with no white space at its ends is exactly what trimming drops. |
| Strings.TrimIdempotent | src/kinetic/workflow/condition/parser.rs:13 | Trimming twice is trimming once. |
| Strings.SplitJoin | src/kinetic/workflow/state/store.rs:104 | Joining pieces that do not contain the separator and splitting the result on it gives the pieces back. |
| Strings.JoinSplit | src/kinetic/workflow/state/store.rs:104 | Splitting a text on a character and joining the pieces with it gives the text back. |
| Strings.SortedKeys | src/kinetic/workflow/state/store.rs:117-124 | The keys of an object in ascending order, each once. |

## Left out

- HTTP requests, API keys and `generate_content` are not modelled. The model is a function from a call index and the history to a reply. Only the JSON the codecs build and read is modelled.
- Concurrency is left out: tokio tasks, `join_all`, the `RwLock` of the registry, and the `mpsc` channel of the streaming agent. The registry's lock becomes one table object shared by clones. The parallel agent's join is modelled in list order. The stream's events are a sequence.
- The parallel agent's `JoinError` from a panicking task is left out, because the agents are modelled as functions that do not panic.
- Numbers are exact reals. The evaluator's floating-point equality with an epsilon and all f64 rounding are left out.
- JSON object iteration follows serde_json's default `BTreeMap`, in ascending key order. With the `preserve_order` feature the order would differ. The output-mapping loop of `apply_outputs` is modelled in sorted key order.
- serde_json parsing and printing, f64 parsing and number rendering are functions passed in as parameters. Their behaviour is not modelled.
- `tools_to_anthropic_format` and `tools_to_openai_format` are left out. They only copy tool metadata into JSON.
- `max_iterations` and the round counters are natural numbers rather than `u32`. No value reached by the model comes near the limit.
- String positions are character positions, where the source uses byte positions. The two agree on ASCII text.
- Strings.ToLower: lower-cases `A` to `Z` and the Kelvin sign (to `k`) only. Other letters keep their case, and `İ`, which Rust turns into two characters, keeps its length. The model uses lower-casing only for prefix tests against ASCII prefixes (provider names, the ReAct final-answer prefix). For those the results agree with Rust: the only other character whose lower case starts with an ASCII letter is `İ` (`i` then a combining dot), and it can only complete a prefix that ends in `i`, that is `gemini`, whose provider is also the fallback.
- ConditionParser.Parse: graph guards are read with the corrected literal parser (see Findings). Where the source panics on a literal that is a lone quote, the model's guard fails to parse (unless the number parser accepts the quote) and the node is blocked.
- Logging and tracing output are left out.
- ExecutorLaws.RunExecutesOnce: assumes distinct node ids. `GraphAgent::new` does not reject duplicate ids. With duplicates, the later definition replaces the earlier one in the node table, but both ids stay in the order.
- ConditionPrint.ParseShow: covers only conditions with identifier paths, quote-free string literals, numbers whose rendering reads back, and right-nested connectives. The parser splits at the leftmost connective and so rebuilds any chain nested to the right.
- LegacyAgent.LegacyAgrees: assumes distinct tool names. With duplicate names, the older agent uses the first tool with a name and the current agent uses the last.
- GeminiCodec.ResponseNotRead: function-response parts sent to Gemini are never read back, because `parse_gemini_part` has no case for them.
- OpenAICodec.CallsRoundTrip: requires that each call's argument text parses back to its arguments, because JSON printing and parsing are parameters.
- Model loading and tool collection (`create_model`, `collect_tools`), the workflow loader and builder, MCP, the HTTP server, the built-in GitHub, Jira and search tools, and the command line are not part of this model.

## Findings

| source | as written | input that shows it | evidently intended | confidence | as-written member | corrected member |
|---|---|---|---|---|---|---|
| src/kinetic/workflow/condition/parser.rs:129-133 | A literal that starts and ends with a quote character is sliced as `input[1..len-1]`. A single quote character passes that test, and the slice `[1..0]` panics. | a condition whose literal is `'`, e.g. `status == '` | Require at least two characters before taking the quoted body. Otherwise fall through to the number parse and the error "Could not parse literal: " followed by the input. | not executed | ConditionParser.LoneQuotePanics | ConditionParser.ParseLiteralCorrected |
