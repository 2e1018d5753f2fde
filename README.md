# agentic-playground, modelled in Dafny

This project models the deterministic core of the agentic-playground
repository and proves properties about it. The model covers four parts.

- **The bounded agent loop** (`patterns/agent_core`):
  - `Agent.run` is modelled in module `Agent`. The method `Agent.Agent.Run`
    is proved to end in exactly the state, trace and answer that the
    functional specification `Agent.RunSpec` computes.
  - The tool registry (`Tools`), the tool-plan parser (`Parsing`) and the
    append-only trace (`Tracing`) are modelled too.
  - Whole-run guarantees are proved over `RunSpec` in `AgentProps`:
    - the step budget and the tool-call budget;
    - the pairing of trace events;
    - message growth;
    - only "final" is written.
  - The effect of each kind of model reply is in `AgentScenarios`.
- **The Atlas v0 demo** (`experiments/atlas_v0/atlas.py`):
  - the string and list rules are in module `Atlas`: tokenising, README
    summary, stack detection and the `infer_*` priority rules;
  - the in-memory `Atlas` object is in module `AtlasLayer`: project update,
    memory tail, architecture rendering and goal validation.
- **The SpecGate demo** (`experiments/specgate_hardcoded_demo/specgate.py`),
  in module `Specgate`:
  - keyword classification;
  - registry matching;
  - the clarifying-question decision, with the user's answer as a parameter;
  - the manifest, without its timestamp.
- **The eval framework** (`evals/eval_core`), in module `Evals`:
  - the metric/dataset `Registry` class;
  - `EvalRunner.Run`, whose nested loops are proved against the
    specification functions `OutputsOf` and `ResultsFor`;
  - the exact-match example.

Supporting modules:
- `Wrappers` holds `Option` and `Result`.
- `Values` holds the decoded-JSON datatype `Json` and Python truthiness,
  `dict.get` and `str()` of scalars.
- `Text` holds Python's ASCII string operations: `strip`, `lower`,
  substring, `join`, sorting.

Everything outside the program is a parameter:
- the chat model is a function from a request to a reply;
- `json.loads`/`json.dumps` and `str()` of a tool output are functions in
  `Agent.World`;
- the clock is a sequence of readings, `nat -> real`, consumed in the order
  the source reads it;
- tool bodies and eval predictors and metrics are function values.

The agent's `stop_condition` is stored by the constructor but never
consulted. Its call in `agent.py` is commented out, so `RunSpec` does not
depend on it.

**Decisions the code makes that are easy to misread:**
- A model reply that is not JSON is recorded as a `finalize` decision with
  the whole text as the answer. The parser returns the text as its `final`
  (`patterns/agent_core/parsing.py:36-37`), so the agent takes the
  `finalize` branch (`patterns/agent_core/agent.py:130-133`).
  `finalize_fallback` happens only for a decodable object with no calls
  and no final (`AgentScenarios.UndecodableReplyIsFinal`,
  `AgentScenarios.FallbackIff`).
- The tool-result trace kind and message role are both `"tool"`.
- The unknown-tool error text is `"Unknown tool: <name>"`.

## Model

| member | source | states |
|---|---|---|
| Tracing.Trace.constructor | patterns/agent_core/trace.py:19 | a new trace has no events |
| Tracing.Trace.Add | patterns/agent_core/trace.py:21-22 | appends exactly one event carrying the given time, kind and payload; earlier events are unchanged |
| Tools.NewRegistry | patterns/agent_core/tools.py:42-43 | the registry's keys are exactly the tools' names; each key holds the last tool with that name; keys keep the order of their first occurrence |
| Tools.ToolRegistry.ListSpecs | patterns/agent_core/tools.py:45-46 | one spec per registered key, in key order, with pairwise distinct names |
| Tools.ListSpecsOfNew | patterns/agent_core/tools.py:43-46 | for a registry built from a tool list: each distinct name appears once, ordered by its first occurrence, and carries the spec of the last tool with that name |
| Tools.HasIffRegistered | patterns/agent_core/tools.py:48-49 | `has(name)` holds iff some tool in the list has that name |
| Tools.Call | patterns/agent_core/tools.py:51-63 | raises only for an unhashable (list/dict) name; the result's name is the requested name; it is an error iff it has an error text, and errors carry no output; a duration is present iff a registered tool ran |
| Tools.CallByString | patterns/agent_core/tools.py:51-63 | a string name never raises. Unknown name: error "Unknown tool: <name>", no output, no duration. A tool that returns: not an error, no error text, its value as output. A tool that raises: an error with no output and `str(exc)` as the text |
| Tools.EchoRoundTrip | patterns/agent_core/examples.py:13-25 | the echo tool called with {"text": "abc"} returns "abc" without error |
| Text.Take | patterns/agent_core/agent.py:107 | `s[:500]`: at most n characters; a prefix of s; all of s when shorter |
| Parsing.ItemCall | patterns/agent_core/parsing.py:33 | a list entry gives a call iff it is an object with "name"; the name is taken verbatim and the arguments default to {} |
| Parsing.ItemCalls | patterns/agent_core/parsing.py:33 | a list gives calls iff every entry does, one call per entry in list order |
| Parsing.CallsOf | patterns/agent_core/parsing.py:33 | a list value is read entry by entry; the empty call list arises exactly from [], {} or "" |
| Parsing.FinalField | patterns/agent_core/parsing.py:34 | the final answer is present iff the object has a non-null "final", and it is that value |
| Parsing.ParseToolPlanCases | patterns/agent_core/parsing.py:28-37 | undecodable text, a non-object top level, or an unreadable call list each fall back to ([], text). A readable object gives its calls in list order and its "final". Any non-fallback result comes from a readable object |
| Parsing.UndecodableTextIsFinal | patterns/agent_core/parsing.py:31-37 | text that does not decode gives no calls and the whole text as the final answer |
| Parsing.ParseCallsInOrder | patterns/agent_core/parsing.py:33-35 | calls come out one per entry, in list order, with name and defaulted arguments from that entry |
| Parsing.ParseAllOrNothing | patterns/agent_core/parsing.py:33-37 | a single bad entry makes the whole plan fall back: no partial call list |
| Parsing.ParseNoCallsNoFinal | patterns/agent_core/parsing.py:33-35 | ([], None) arises iff the text decodes to an object with no non-null "final" whose "tool_calls" is absent or empty |
| Agent.InitialMessages | patterns/agent_core/agent.py:67-73 | the opening messages are exactly [system prompt, tool prompt, user input]; the tool specs are attached to message 1 |
| Agent.AfterCalls | patterns/agent_core/agent.py:126-128 | after a step's tool calls the loop is left iff "final" is a string starting with "Stopped:"; a non-string "final" raises |
| Agent.AgentState.constructor | patterns/agent_core/agent.py:28-31 | a fresh state has empty data |
| Agent.Agent.constructor | patterns/agent_core/agent.py:44-57 | stores model, tools and stop condition; a missing config or budget takes its default |
| Agent.Agent.Run | patterns/agent_core/agent.py:59-142 | the loop leaves the state's data, the trace and the returned answer (or exception) exactly as `RunSpec` computes them. It updates the caller's state in place, or a fresh one when none is given |
| Agent.Agent.StepOnce | patterns/agent_core/agent.py:75-137 | one pass of the step loop changes the loop variables, the state and the trace exactly as `Step` does |
| Agent.Agent.DecideStep | patterns/agent_core/agent.py:89-137 | the branch on the parsed plan is exactly `Decide` |
| Agent.Agent.CallAll | patterns/agent_core/agent.py:92-124 | the inner loop over the parsed calls is exactly `Dispatch` |
| Agent.Agent.CallOneStep | patterns/agent_core/agent.py:98-124 | one dispatched call is exactly `CallOne` |
| AgentProps.RunRespectsBudgets | patterns/agent_core/agent.py:75-137 | over a whole run: at most max_tool_calls call decisions and at most max_steps "model" events; every "tool" event directly follows the decision announcing the same tool; only the last event can be a stop or finalize; the messages are the opening three plus two per tool result; no key but "final" changes |
| AgentProps.CallOneEffect | patterns/agent_core/agent.py:98-124 | a dispatched call counts one call, records one decision and (unless the lookup raised) one "tool" event, appends exactly two messages, and leaves the data and earlier messages unchanged |
| AgentProps.DispatchUses | patterns/agent_core/agent.py:92-96 | the inner loop uses min(#calls, remaining budget) calls. It stops with the tool-budget message iff there were more calls than budget left; otherwise the data is unchanged |
| AgentProps.DispatchKeeps | patterns/agent_core/agent.py:92-124 | the inner loop keeps the run invariant (budgets, pairing, message growth), and a budget stop ends the run |
| AgentProps.DecideKeeps | patterns/agent_core/agent.py:89-137 | every branch on the plan keeps the run invariant; every branch but "continue" ends the run |
| AgentProps.StepKeeps | patterns/agent_core/agent.py:75-137 | one step keeps the invariant and adds at most one "model" event |
| AgentProps.RunFromKeeps | patterns/agent_core/agent.py:75 | the remaining steps keep the invariant, with at most max_steps "model" events in total |
| AgentScenarios.NoStepsNoEvents | patterns/agent_core/agent.py:75-142 | with max_steps <= 0 there are no events, the data is unchanged, and the answer is the existing "final" or "" |
| AgentScenarios.WallStopBeforeFirstCall | patterns/agent_core/agent.py:76-79 | when the first check exceeds the wall-time budget (strict >): only a "stop" event, no model call, and "final" keeps a truthy earlier value or else becomes the wall-time message |
| AgentScenarios.FinalOnFirstReply | patterns/agent_core/agent.py:81-87 | a first reply with no calls and a final answer v gives exactly a "model" event then a "finalize" decision, and the answer is v |
| AgentScenarios.UndecodableReplyIsFinal | patterns/agent_core/agent.py:130-133 | a non-JSON reply sets "final" to the reply and records "finalize", not "finalize_fallback" |
| AgentScenarios.FallbackIff | patterns/agent_core/agent.py:135-137 | the fallback branch is taken iff the reply decodes to an object with no calls and no final answer |
| AgentScenarios.ExhaustedToolBudget | patterns/agent_core/agent.py:93-96 | with the tool budget used up, a reply with calls sets the tool-budget message, records a "stop" and leaves the loop |
| AgentScenarios.DispatchFirstEvent | patterns/agent_core/agent.py:92-99 | the first event of a non-empty dispatch is a budget stop or a tool-call decision; earlier events are kept |
| AgentScenarios.AfterToolsDependsOnFinal | patterns/agent_core/agent.py:126-128 | after an uninterrupted dispatch, whether the loop continues depends only on "final" |
| Atlas.Tokenize | experiments/atlas_v0/atlas.py:73-74 | every token is a non-empty run of ASCII letters, all lower case |
| Atlas.RunsAreWords | experiments/atlas_v0/atlas.py:74 | the letter runs found are all words, and lower case when the text has no capitals |
| Atlas.TokenizeSplit | experiments/atlas_v0/atlas.py:73-74 | tokens of "a b" are the tokens of a followed by those of b: tokens are maximal runs, in order |
| Atlas.ExtractReadmeSummary | experiments/atlas_v0/atlas.py:130-135 | the early-return loop computes `ReadmeSummary` |
| Atlas.FirstNonBlankFinds | experiments/atlas_v0/atlas.py:131-135 | the summary is "" iff all lines are blank; otherwise it is the stripped first non-blank line |
| Atlas.ReadmeSummaryEmptyIffBlank | experiments/atlas_v0/atlas.py:130-135 | the summary is empty iff the whole text is blank |
| Atlas.LinesBlank | experiments/atlas_v0/atlas.py:131 | a text is blank iff all of its lines are |
| Atlas.KeywordMentioned | experiments/atlas_v0/atlas.py:159 | a space-free keyword occurs in the lowered joined file texts iff it occurs in one file's lowered text |
| Atlas.PickedOrdered | experiments/atlas_v0/atlas.py:158-175 | the appended labels are exactly the flagged technologies, in the fixed order |
| Atlas.KeepFirst | experiments/atlas_v0/atlas.py:176 | `dict.fromkeys` keeps the same members without duplicates, and leaves a duplicate-free list unchanged |
| Atlas.AppendedSpec | experiments/atlas_v0/atlas.py:158-176 | the chain of `if`s reports exactly the technologies the signals show, in the fixed order |
| Atlas.DetectStack | experiments/atlas_v0/atlas.py:157-176 | the stack lists technologies in strictly increasing Node.js < TypeScript < Python < FastAPI < Django < Go < Rust < Java order (hence distinct); a technology is listed iff its signal file is present or its name is mentioned |
| Atlas.InferGoals | experiments/atlas_v0/atlas.py:179-184 | a non-empty summary gives one goal that starts with the summary and ends in "." (equal to it iff it already ends in "."); else a non-empty name gives "Deliver core features for <name>."; the result is [] iff both are empty |
| Atlas.InferGoalsIdempotent | experiments/atlas_v0/atlas.py:180-181 | feeding an inferred goal back as the summary returns it unchanged |
| Atlas.InferConstraints | experiments/atlas_v0/atlas.py:187-190 | empty iff the stack is empty; otherwise the single "Prefer <first label> conventions." |
| Atlas.FirstInFinds | experiments/atlas_v0/atlas.py:193-220 | a priority scan returns the first listed technology present in the stack, or none iff none is present |
| Atlas.InferArchitectureByPriority | experiments/atlas_v0/atlas.py:193-206 | the architecture text is that of the first of FastAPI > Django > Node.js > Go > Rust > Java present |
| Atlas.InferArchitectureEmpty | experiments/atlas_v0/atlas.py:193-206 | the architecture text is "" iff none of those six is present |
| Atlas.InferConventionsByPriority | experiments/atlas_v0/atlas.py:209-220 | the conventions text is that of the first of Python > Node.js/TypeScript > Go > Rust > Java present |
| Atlas.InferConventionsEmpty | experiments/atlas_v0/atlas.py:209-220 | the conventions text is "" iff none of those is present |
| AtlasLayer.Atlas.constructor | experiments/atlas_v0/atlas.py:335-343 | the object holds the project, memory and architecture as loaded |
| AtlasLayer.Atlas.ListMemory | experiments/atlas_v0/atlas.py:414-415 | `memory[-limit:]`: a suffix of the memory; the last `limit` entries for limit > 0; the whole list for 0; all but the first -limit entries for limit < 0 |
| AtlasLayer.Atlas.UpdateProject | experiments/atlas_v0/atlas.py:345-371 | the project afterwards and whether the call raised are exactly `ProjectAfter`; memory and architecture are unchanged |
| AtlasLayer.CleanItemsStripped | experiments/atlas_v0/atlas.py:355 | the kept items are stripped and non-empty, and no more numerous than the given ones |
| AtlasLayer.CleanItemsMembers | experiments/atlas_v0/atlas.py:355 | the kept items are exactly the stripped forms of the non-blank given items |
| AtlasLayer.CleanItemsConcat | experiments/atlas_v0/atlas.py:355 | cleaning is done item by item and keeps order |
| AtlasLayer.CleanItemsIdempotent | experiments/atlas_v0/atlas.py:355 | cleaning a cleaned list changes nothing |
| AtlasLayer.UpdateAppends | experiments/atlas_v0/atlas.py:353-362 | non-empty goals (constraints) are appended, cleaned, after the existing list, or after [] when the key is absent |
| AtlasLayer.UpdateTexts | experiments/atlas_v0/atlas.py:363-368 | a non-empty summary or conventions text replaces the stored one, stripped; otherwise the stored value is kept |
| AtlasLayer.UpdateKeepsOtherKeys | experiments/atlas_v0/atlas.py:353-368 | no key other than the four updated ones changes |
| AtlasLayer.UpdateFails | experiments/atlas_v0/atlas.py:354-360 | the update raises iff a non-empty goals or constraints list meets a stored value that is not a list; updates made before the raise stay |
| AtlasLayer.UpdateNothing | experiments/atlas_v0/atlas.py:352-371 | with nothing to update, the project is unchanged |
| AtlasLayer.Atlas.DescribeArchitecture | experiments/atlas_v0/atlas.py:438-449 | the loops produce exactly the lines of `ArchLines` joined by newlines |
| AtlasLayer.ArchLinesShape | experiments/atlas_v0/atlas.py:439-448 | the headers sit at 0 and 1 + (node lines); an empty list gives exactly one placeholder line |
| AtlasLayer.ArchNodeLine | experiments/atlas_v0/atlas.py:440-441 | line 1 + i is node i's "- name (type): description" |
| AtlasLayer.ArchEdgeLine | experiments/atlas_v0/atlas.py:445-446 | edge j's "- source -> target (label)" follows the edges header, in order |
| AtlasLayer.PlaceholdersDiffer | experiments/atlas_v0/atlas.py:441-448 | no node or edge line is a placeholder line |
| AtlasLayer.PlaceholderIffEmpty | experiments/atlas_v0/atlas.py:442-448 | a placeholder line appears iff the corresponding list is empty |
| AtlasLayer.Atlas.GoalValidation | experiments/atlas_v0/atlas.py:485-491 | one entry per goal, true iff the goal shares a token with the response; fails exactly where iterating the goals or tokenising raises |
| AtlasLayer.SharesTokenIgnoresCase | experiments/atlas_v0/atlas.py:486-490 | validation ignores the response's letter case |
| AtlasLayer.GoalEchoValidates | experiments/atlas_v0/atlas.py:485-491 | a response that repeats a goal with a token validates that goal |
| Specgate.ClassifyPrompt | experiments/specgate_hardcoded_demo/specgate.py:15-22 | the domain is "payments" iff a payment keyword occurs in the lowered prompt, else "general"; each signal holds iff one of its keywords occurs |
| Specgate.PayCoversPayment | experiments/specgate_hardcoded_demo/specgate.py:18 | the payments signal holds iff pay, checkout, card, billing or stripe occurs ("payment" adds nothing) |
| Specgate.UiWordHasNoPaymentKeyword | experiments/specgate_hardcoded_demo/specgate.py:18-19 | no UI keyword contains a payment keyword |
| Specgate.UiWordKeepsDomain | experiments/specgate_hardcoded_demo/specgate.py:19-21 | appending a UI word sets the ui signal and never changes the domain |
| Specgate.RegistryMatch | experiments/specgate_hardcoded_demo/specgate.py:24-28 | matching succeeds iff the registry is an object whose "services" is a list of objects (or an empty value) |
| Specgate.OfTypeMembers | experiments/specgate_hardcoded_demo/specgate.py:25 | the services kept are exactly those whose "type" is the domain |
| Specgate.OfTypeConcat | experiments/specgate_hardcoded_demo/specgate.py:25 | the filter keeps registry order |
| Specgate.FirstWithFinds | experiments/specgate_hardcoded_demo/specgate.py:26-27 | `next(...)` gives the first service with the status, or none iff no service has it |
| Specgate.RegistryMatchSpec | experiments/specgate_hardcoded_demo/specgate.py:24-28 | services are the registry's of that type; preferred/legacy are matching services of that status, absent iff none has it |
| Specgate.AskClarifyingQuestion | experiments/specgate_hardcoded_demo/specgate.py:30-40 | KeyError iff both preferred and legacy exist and one of them has no "name"; otherwise the choice is legacy iff both exist and the stripped answer is "1" |
| Specgate.AnswerIsStripped | experiments/specgate_hardcoded_demo/specgate.py:38 | surrounding whitespace in the answer does not change the choice |
| Specgate.BuildManifest | experiments/specgate_hardcoded_demo/specgate.py:42-94 | a manifest is built only when the chosen service exists |
| Specgate.ManifestRoutes | experiments/specgate_hardcoded_demo/specgate.py:43-55 | routing is always domain "payments" with the chosen service's name and version, legacy iff the choice is legacy; prompt and version "0.1" are recorded |
| Specgate.ManifestFails | experiments/specgate_hardcoded_demo/specgate.py:43-68 | the exact conditions under which building raises; a missing chosen service raises TypeError |
| Specgate.PolicyChecksSpec | experiments/specgate_hardcoded_demo/specgate.py:66-68 | one check per policy, in order, with its id and rule and status "enforced"; fails iff some policy lacks them |
| Specgate.ManifestPolicyChecks | experiments/specgate_hardcoded_demo/specgate.py:66-68 | a built manifest's policy checks mirror the registry's policies one for one |
| Specgate.ManifestDefaults | experiments/specgate_hardcoded_demo/specgate.py:57-63 | auth and pci default to None, auditLogging to false, buttonsUseTokens and noInlineHexColors to true; each present value is copied unchanged |
| Specgate.DemoClassify | experiments/specgate_hardcoded_demo/specgate.py:118 | the prompt "pay" is classified as payments |
| Specgate.DemoMatch | experiments/specgate_hardcoded_demo/specgate.py:122 | the demo registry matches both services, with Pay-Secure preferred and Pay-Old legacy |
| Specgate.DemoRoute | experiments/specgate_hardcoded_demo/specgate.py:134 | on the demo registry either choice builds a manifest routed to the chosen service with auth "oauth" |
| Specgate.DemoRun | experiments/specgate_hardcoded_demo/specgate.py:122-134 | end to end, the question does not raise and the manifest routes to Pay-Old iff the stripped answer is "1", else to Pay-Secure |
| Evals.Registry.constructor | evals/eval_core/registry.py:14-15 | a new registry has no metrics and no datasets |
| Evals.Registry.RegisterMetric | evals/eval_core/registry.py:17-18 | stores the metric under its name, replacing an earlier one; other names and the datasets are unchanged |
| Evals.Registry.RegisterDataset | evals/eval_core/registry.py:20-21 | stores the dataset under its name, replacing an earlier one; other names and the metrics are unchanged |
| Evals.Registry.ListMetrics | evals/eval_core/registry.py:23-24 | the metric names, strictly ascending (so without duplicates), exactly the registered ones |
| Evals.Registry.ListDatasets | evals/eval_core/registry.py:26-27 | the dataset names, strictly ascending, exactly the registered ones |
| Evals.Registry.GetMetric | evals/eval_core/registry.py:29-30 | the last metric registered under the name; none (KeyError) for an unregistered name |
| Evals.Registry.GetDataset | evals/eval_core/registry.py:32-33 | the last dataset registered under the name; none (KeyError) for an unregistered name |
| Text.SortedStrings | evals/eval_core/registry.py:24 | `sorted(keys)`: strictly ascending, exactly the given keys |
| Evals.EmptyResults | evals/eval_core/runners.py:34 | one empty list per metric name |
| Evals.EvalRunner.constructor | evals/eval_core/runners.py:22-23 | stores the predictor |
| Evals.EvalRunner.Run | evals/eval_core/runners.py:25-50 | the result names the dataset; outputs are `OutputsOf` the cases; the result keys are exactly the metric names; each name's list is `ResultsFor` it; the duration is the truncated clock difference |
| Evals.ScoreCase | evals/eval_core/runners.py:40-42 | the inner loop appends to each name's list the results of the metrics with that name, in metric order |
| Evals.ResultsForLength | evals/eval_core/runners.py:37-42 | each name's list has (#cases) x (#metrics with that name) results: one per case for distinct names, two when two metrics share a name |
| Evals.ResultsForUnique | evals/eval_core/runners.py:37-42 | with a unique name, result i is that metric's verdict on case i's prediction and expectation |
| Evals.OutputsKeys | evals/eval_core/runners.py:39 | outputs are keyed exactly by the case ids |
| Evals.OutputsLastWins | evals/eval_core/runners.py:39 | for a duplicated id the last case's prediction is kept |
| Evals.PyEqualReflexive | evals/eval_core/examples.py:19 | Python equality on decoded values is reflexive |
| Evals.ExactMatchEvaluate | evals/eval_core/examples.py:18-20 | the result carries the metric's name; the score is 1.0 iff output == expected and 0.0 otherwise; the details hold output and expected unchanged |
| Evals.ExactMatchIgnoresContext | evals/eval_core/examples.py:18-20 | the context has no effect on the result |
| Evals.ExactMatchOfEqual | evals/eval_core/examples.py:19 | a prediction equal to the expectation scores 1.0 |
| Evals.ExactMatchMetric | evals/eval_core/examples.py:14-16 | the default metric is named "exact_match" |
| Evals.DummyPredictor | evals/eval_core/examples.py:23-24 | the result is exactly {"answer": inputs["answer"]}, or {"answer": None} when absent |
| Evals.RunExampleScores | evals/eval_core/examples.py:27-37 | on the toy dataset, case "1" scores 1.0 and case "2" scores 0.0, and both predictions are kept under their ids |

## Left out

- Wall-clock time: each `time.time()` reading is an input. Durations and trace timestamps are computed from those readings but have no meaning of their own.
- JSON decoding and encoding, `str()` of tool outputs, the chat model, and tool bodies are uninterpreted functions. JSON numbers are integers; floats are not modelled.
- Agent.World: a tool output is a JSON value and `encode` is total. A tool returning an object `json.dumps` cannot serialise would make `run` raise TypeError when it builds the tool message (`patterns/agent_core/agent.py:116`, outside the `try` of the tool call); the model has no such run.
- The agent's `temperature` is a real number. No floating-point rounding is modelled.
- AgentProps.RunRespectsBudgets: the order within a step (the "model" event before that step's decision, tool and stop events) is fixed by the definitions of `Agent.Step` and `Agent.CallOne` and shown per call by `AgentProps.CallOneShape`. No whole-run lemma restates it.
- Strings are ASCII. `lower`, `isspace`, `strip` and `splitlines` follow Python on the ASCII range only.
- Atlas.Lines: for an empty text, a text ending in a line break, or "\r\n", this gives extra blank lines where `splitlines` gives none. Blank lines never affect the README summary.
- atlas.py:
  - floats: `embed_text`, `cosine_similarity` and `retrieve`;
  - `summarize_text` and `detect_project_name`;
  - all file I/O, including the persist and reload steps of `update_project`: the model assumes a reload returns what was persisted;
  - `add_memory_entry` (uuid, time, embeddings) and `add_arch_node`/`add_arch_edge`, which persist;
  - `describe_project`, `generate_response` and `run_prompt`;
  - the interactive prompts, `onboard_project`, `demo_sequence` and `main`.
- AtlasLayer.Atlas.DescribeArchitecture: arch.json is a list of nodes with a name, type and description, and of edges with a source, target and label, as `add_arch_node`/`add_arch_edge` write it. A hand-edited node or edge missing one of those keys makes `describe_architecture` raise KeyError (`experiments/atlas_v0/atlas.py:441` and `:446`); the model cannot express that input.
- AtlasLayer.Atlas.GoalValidation: a "goals" value that is a dict would be iterated by its keys; the model treats it as a failure.
- AtlasLayer.Atlas.UpdateProject: goals and constraints are sequences of strings. Other iterables are not modelled.
- specgate.py:
  - `main`, `load_json` and `print_baseline_fail`;
  - `time.sleep` and the printed prompt;
  - the console input, which is the `answer` parameter;
  - `generated_at`.
- Specgate.ManifestFiles, Specgate.AcceptanceCriteria and Specgate.HandoffInstruction:
  - the fixed file list, acceptance criteria and handoff text are modelled without contracts of their own;
  - a chosen service name or version that is a list or dict would appear in the f-strings as its Python repr, but is rendered as "".
- Evals.EvalRunner.Run:
  - metrics are a sequence; an iterator, which the source would consume while building the empty lists, is not modelled;
  - predictors and metrics are total, so an exception they raise is not modelled;
  - values are immutable, so a metric that mutates the shared `output` dict cannot change `outputs`;
  - the copies `dict(case.input)`/`dict(case.expected)` are implicit.
- Evals.PyEqual: Python equality with floats (`1 == 1.0`) is not modelled; booleans do equal their integers.
- evals/eval_core/examples.py: the score summary of `run_example` (a float average) and evals/eval_core/reporting.py (`.3f` formatting) are not modelled.
- evals/eval_core/cases.py and evals/eval_core/metrics.py supply datatypes only.
