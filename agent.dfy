/** The agent loop of patterns/agent_core/agent.py.

    `RunSpec` is the loop written as functions over a `RunState` value
    (`Step` is one pass of the step loop, `Dispatch` the inner loop over the
    parsed tool calls); `Agent.Run` is the loop itself, over a mutable
    `AgentState` and a `Trace`, proved to end in exactly the state, trace
    and answer `RunSpec` computes. */
module Agent {
  import opened Wrappers
  import opened Values
  import opened Text
  import opened Tools
  import opened Parsing
  import opened Tracing

  datatype AgentConfig = AgentConfig(
    name: string,
    temperature: real,
    maxTokens: int,
    systemPrompt: string,
    toolPrompt: string)

  const DefaultConfig := AgentConfig("agent", 0.2, 800, "You are a helpful agent.", ToolCallInstructions)

  /** patterns/agent_core/budget.py; `maxWallTimeS == None` disables the
      wall-clock check. */
  datatype Budget = Budget(maxSteps: int, maxToolCalls: int, maxWallTimeS: Option<real>)

  const DefaultBudget := Budget(8, 8, Some(30.0))

  /** patterns/agent_core/messages.py. A tool message carries the call's name,
      which is whatever the plan held under "name". */
  datatype Message = Message(role: string, content: string, name: Option<Json>, metadata: map<string, Json>)

  /** The arguments of one `model.generate` call. */
  datatype GenerateRequest = GenerateRequest(messages: seq<Message>, temperature: real, maxTokens: int, jsonMode: bool)

  datatype ModelResponse = ModelResponse(content: string)

  /** What the loop takes from outside the agent: `json.loads` (None when the
      text does not decode), `json.dumps`, Python's `str()` of a tool output,
      and the successive readings of `time.time()`. */
  datatype World = World(
    decode: string -> Option<Json>,
    encode: Json -> string,
    show: Json -> string,
    clock: nat -> real)

  /** Everything one run depends on besides its input and starting state. */
  datatype Env = Env(
    config: AgentConfig,
    budget: Budget,
    tools: ToolRegistry,
    generate: GenerateRequest -> ModelResponse,
    world: World)

  /** The loop's variables: the next clock reading to take, the tool calls
      used so far, the conversation, the state's data and the trace. */
  datatype RunState = RunState(
    tick: nat,
    used: nat,
    messages: seq<Message>,
    data: map<string, Json>,
    events: seq<TraceEvent>)

  /** How a pass ends: go on to the next step, leave the loop, or leave the
      run with an exception. */
  datatype Halt = Continue | Break | Crash(error: string)

  /** What `run` gives its caller: the final answer, or the exception it raised. */
  datatype RunOutcome = Finished(answer: Json) | Crashed(error: string)

  const WallTimeStop := "Stopped: wall-time budget exceeded."
  const ToolBudgetStop := "Stopped: tool-call budget exceeded."

  function SpecJson(spec: ToolSpec): Json {
    JObj(map["name" := JStr(spec.name), "description" := JStr(spec.description), "args_schema" := spec.argsSchema])
  }

  function SpecsJson(specs: seq<ToolSpec>): (r: seq<Json>)
    ensures |r| == |specs|
    ensures forall i :: 0 <= i < |specs| ==> r[i] == SpecJson(specs[i])
  {
    seq(|specs|, i requires 0 <= i < |specs| => SpecJson(specs[i]))
  }

  /** The opening conversation: system prompt, tool prompt (listing every
      registered tool's spec in its metadata) and the user's input. */
  function InitialMessages(config: AgentConfig, tools: ToolRegistry, userInput: string): (ms: seq<Message>)
    requires tools.Valid()
    ensures |ms| == 3
    ensures ms[0].role == "system" && ms[0].content == config.systemPrompt
    ensures ms[1].role == "system" && ms[1].content == config.toolPrompt
    ensures ms[1].metadata == map["tools" := JArr(SpecsJson(tools.ListSpecs()))]
    ensures ms[2].role == "user" && ms[2].content == userInput
  {
    [ Message("system", config.systemPrompt, None, map[]),
      Message("system", config.toolPrompt, None, map["tools" := JArr(SpecsJson(tools.ListSpecs()))]),
      Message("user", userInput, None, map[]) ]
  }

  function Request(config: AgentConfig, messages: seq<Message>): GenerateRequest {
    GenerateRequest(messages, config.temperature, config.maxTokens, false)
  }

  function OptStr(o: Option<string>): Json {
    if o.Some? then JStr(o.value) else JNull
  }

  function OptInt(o: Option<int>): Json {
    if o.Some? then JNum(o.value) else JNull
  }

  /** The payload of a "tool" trace event; the output preview is the first
      500 characters of `str(output)`. */
  function ToolPayload(world: World, name: Json, r: ToolResult): map<string, Json> {
    map["tool" := name, "is_error" := JBool(r.isError), "duration_ms" := OptInt(r.durationMs),
        "output_preview" := JStr(Take(world.show(r.output), 500)), "error" := OptStr(r.error)]
  }

  function AssistantMessage(content: string): Message {
    Message("assistant", content, None, map[])
  }

  /** The message that hands a tool's result back to the model. */
  function ToolMessage(world: World, name: Json, r: ToolResult): Message {
    Message("tool", world.encode(JObj(map["output" := r.output, "is_error" := JBool(r.isError), "error" := OptStr(r.error)])),
            Some(name), map[])
  }

  /** `trace.add(kind, ...)`: one event stamped with the next clock reading. */
  function Emit(env: Env, s: RunState, kind: string, payload: map<string, Json>): RunState {
    s.(tick := s.tick + 1, events := s.events + [TraceEvent(env.world.clock(s.tick), kind, payload)])
  }

  function SetFinal(s: RunState, v: Json): RunState {
    s.(data := s.data["final" := v])
  }

  /** `tools.call`: a registered tool is timed with two clock readings; any
      other name takes none (the two times passed are then never looked at). */
  function CallTool(env: Env, tc: ToolCall, s: RunState): (Result<ToolResult, string>, RunState) {
    if tc.name.JStr? && env.tools.Has(tc.name.s) then
      (Call(env.tools, tc.name, tc.arguments, env.world.clock(s.tick), env.world.clock(s.tick + 1)), s.(tick := s.tick + 2))
    else
      (Call(env.tools, tc.name, tc.arguments, 0.0, 0.0), s)
  }

  /** One requested call within the budget: count it, record the decision,
      call the tool and, unless the lookup raised, record its result and
      append the assistant and tool messages. */
  function CallOne(env: Env, content: string, tc: ToolCall, s: RunState): (RunState, Halt) {
    var s1 := Emit(env, s.(used := s.used + 1), "decision",
                   map["action" := JStr("tool_call"), "tool" := tc.name, "args" := tc.arguments]);
    var (res, s2) := CallTool(env, tc, s1);
    if res.Failure? then (s2, Crash(res.error))
    else
      var s3 := Emit(env, s2, "tool", ToolPayload(env.world, tc.name, res.value));
      (s3.(messages := s3.messages + [AssistantMessage(content), ToolMessage(env.world, tc.name, res.value)]), Continue)
  }

  /** The inner loop over the parsed tool calls of one model reply `content`:
      stop with the budget message once `maxToolCalls` calls have been used,
      otherwise make the call and go on with the rest. */
  function Dispatch(env: Env, content: string, calls: seq<ToolCall>, s: RunState): (RunState, Halt)
    decreases |calls|
  {
    if calls == [] then (s, Continue)
    else if s.used >= env.budget.maxToolCalls then
      (Emit(env, SetFinal(s, JStr(ToolBudgetStop)), "stop", map["reason" := JStr("tool_call_budget_exceeded")]), Break)
    else
      var (s1, h) := CallOne(env, content, calls[0], s);
      if h.Crash? then (s1, h) else Dispatch(env, content, calls[1..], s1)
  }

  /** After the tool calls of a step: leave the loop when "final" holds a
      "Stopped:" message. A "final" that is not a string has no `startswith`,
      so the check raises. */
  function AfterCalls(data: map<string, Json>): (h: Halt)
    ensures h.Break? <==> "final" in data && data["final"].JStr? && StartsWith(data["final"].s, "Stopped:")
    ensures h.Crash? <==> "final" in data && !data["final"].JStr?
  {
    if "final" !in data then Continue
    else match data["final"]
      case JStr(f) => if StartsWith(f, "Stopped:") then Break else Continue
      case _ => Crash("AttributeError: 'startswith' on a non-string final")
  }

  /** The value the wall-time stop leaves in "final": a truthy existing one,
      else the stop message. */
  function KeptFinal(data: map<string, Json>): Json {
    if "final" in data && Truthy(data["final"]) then data["final"] else JStr(WallTimeStop)
  }

  predicate WallExceeded(env: Env, start: real, now: real) {
    env.budget.maxWallTimeS.Some? && now - start > env.budget.maxWallTimeS.value
  }

  /** What a step does with the model's reply `content`, once its "model"
      event is recorded: run the parsed tool calls, or store the plan's final
      answer, or store the reply itself as the answer. */
  function Decide(env: Env, content: string, s: RunState): (RunState, Halt) {
    var plan := ParseToolPlan(content, env.world.decode);
    if plan.calls != [] then
      var (s1, h) := Dispatch(env, content, plan.calls, s);
      (s1, if h.Crash? then h else AfterCalls(s1.data))
    else if plan.final.Some? then
      (Emit(env, SetFinal(s, plan.final.value), "decision", map["action" := JStr("finalize")]), Break)
    else
      (Emit(env, SetFinal(s, JStr(content)), "decision", map["action" := JStr("finalize_fallback")]), Break)
  }

  /** One pass of the step loop, numbered `step`, in a run that began at
      `start`: the wall-time check, one model call, then `Decide`. */
  function Step(env: Env, start: real, step: nat, s: RunState): (RunState, Halt) {
    if WallExceeded(env, start, env.world.clock(s.tick)) then
      var s1 := s.(tick := s.tick + 1);
      (Emit(env, SetFinal(s1, KeptFinal(s1.data)), "stop", map["reason" := JStr("wall_time_budget_exceeded")]), Break)
    else
      var s1 := if env.budget.maxWallTimeS.Some? then s.(tick := s.tick + 1) else s;
      var content := env.generate(Request(env.config, s1.messages)).content;
      Decide(env, content, Emit(env, s1, "model", map["step" := JNum(step), "content" := JStr(content)]))
  }

  /** Steps `step`, `step + 1`, ... up to `maxSteps - 1`, until one leaves the loop. */
  function RunFrom(env: Env, start: real, step: nat, s: RunState): (RunState, Halt)
    decreases env.budget.maxSteps - step, 1
  {
    if step >= env.budget.maxSteps then (s, Continue)
    else AfterStep(env, start, step, Step(env, start, step, s))
  }

  /** Step `step` has ended with `r`: go on with the next step, or leave the loop. */
  function AfterStep(env: Env, start: real, step: nat, r: (RunState, Halt)): (RunState, Halt)
    requires step < env.budget.maxSteps
    decreases env.budget.maxSteps - step, 0
  {
    if r.1.Continue? then RunFrom(env, start, step + 1, r.0) else r
  }

  /** The run from `step` after that step has produced `s1` and `h`. */
  lemma RunFromAfterStep(env: Env, start: real, step: nat, s: RunState, s1: RunState, h: Halt)
    requires step < env.budget.maxSteps
    requires Step(env, start, step, s) == (s1, h)
    ensures h.Continue? ==> RunFrom(env, start, step, s) == RunFrom(env, start, step + 1, s1)
    ensures !h.Continue? ==> RunFrom(env, start, step, s) == (s1, h)
  {
    assert RunFrom(env, start, step, s) == AfterStep(env, start, step, (s1, h));
  }

  /** The state a run starts from: the first clock reading is the start time. */
  function InitialState(env: Env, userInput: string, data0: map<string, Json>): RunState
    requires env.tools.Valid()
  {
    RunState(1, 0, InitialMessages(env.config, env.tools, userInput), data0, [])
  }

  /** The whole run, from the state's data `data0`. */
  function RunSpec(env: Env, userInput: string, data0: map<string, Json>): (RunState, Halt)
    requires env.tools.Valid()
  {
    RunFrom(env, env.world.clock(0), 0, InitialState(env, userInput, data0))
  }

  /** `state.data.get("final", "")`. */
  function FinalAnswer(data: map<string, Json>): Json {
    Get(data, "final", JStr(""))
  }

  /** What the caller of `run` sees. */
  function OutcomeOf(r: (RunState, Halt)): RunOutcome {
    if r.1.Crash? then Crashed(r.1.error) else Finished(FinalAnswer(r.0.data))
  }

  /** The state shared across steps and patterns. */
  class AgentState {
    var data: map<string, Json>

    constructor ()
      ensures data == map[]
    {
      data := map[];
    }
  }

  class Agent {
    const model: GenerateRequest -> ModelResponse
    const tools: ToolRegistry
    const config: AgentConfig
    const budget: Budget
    /** Kept for callers; `run` never consults it. */
    const stopCondition: map<string, Json> -> bool

    /** A missing config or budget takes the defaults. */
    constructor (model: GenerateRequest -> ModelResponse, tools: ToolRegistry, config: Option<AgentConfig>,
                 budget: Option<Budget>, stopCondition: map<string, Json> -> bool)
      ensures this.model == model && this.tools == tools && this.stopCondition == stopCondition
      ensures this.config == config.GetOr(DefaultConfig)
      ensures this.budget == budget.GetOr(DefaultBudget)
    {
      this.model := model;
      this.tools := tools;
      this.config := config.GetOr(DefaultConfig);
      this.budget := budget.GetOr(DefaultBudget);
      this.stopCondition := stopCondition;
    }

    function EnvOf(world: World): Env {
      Env(config, budget, tools, model, world)
    }

    /** `run(user_input, state=state)`: a missing state is replaced by a fresh
        empty one. The state's data, the trace and the answer are exactly the
        ones `RunSpec` computes. */
    method Run(userInput: string, world: World, state: AgentState?) returns (outcome: RunOutcome, st: AgentState, trace: Trace)
      requires tools.Valid()
      modifies state
      ensures state != null ==> st == state
      ensures state == null ==> fresh(st)
      ensures fresh(trace)
      ensures var r := RunSpec(EnvOf(world), userInput, if state == null then map[] else old(state.data));
              st.data == r.0.data && trace.events == r.0.events && outcome == OutcomeOf(r)
    {
      if state == null {
        st := new AgentState();
      } else {
        st := state;
      }
      trace := new Trace();
      ghost var env := EnvOf(world);
      ghost var result := RunSpec(env, userInput, st.data);
      var tick: nat := 0;
      var start := world.clock(tick);
      tick := tick + 1;
      var used: nat := 0;
      var messages := InitialMessages(config, tools, userInput);
      var step: nat := 0;
      while step < budget.maxSteps
        invariant fresh(trace)
        invariant result == RunFrom(env, start, step, RunState(tick, used, messages, st.data, trace.events))
        decreases budget.maxSteps - step
      {
        ghost var s0 := RunState(tick, used, messages, st.data, trace.events);
        var halt;
        tick, used, messages, halt := StepOnce(world, start, step, st, trace, tick, used, messages);
        ghost var s1 := RunState(tick, used, messages, st.data, trace.events);
        RunFromAfterStep(env, start, step, s0, s1, halt);
        if !halt.Continue? {
          assert result == (s1, halt);
          if halt.Crash? {
            outcome := Crashed(halt.error);
            return;
          }
          break;
        }
        assert result == RunFrom(env, start, step + 1, s1);
        step := step + 1;
      }
      outcome := Finished(FinalAnswer(st.data));
    }

    /** One pass of the step loop (see `Step`): the wall-time check, one model
        call, and then the tool calls, the final answer or the fallback. */
    method StepOnce(world: World, start: real, step: nat, st: AgentState, trace: Trace,
                    tick: nat, used: nat, messages: seq<Message>)
      returns (tick1: nat, used1: nat, messages1: seq<Message>, halt: Halt)
      modifies st, trace
      ensures (RunState(tick1, used1, messages1, st.data, trace.events), halt) ==
              Step(EnvOf(world), start, step, RunState(tick, used, messages, old(st.data), old(trace.events)))
    {
      ghost var env := EnvOf(world);
      ghost var s0 := RunState(tick, used, messages, st.data, trace.events);
      tick1, used1, messages1 := tick, used, messages;
      if budget.maxWallTimeS.Some? {
        var now := world.clock(tick1);
        tick1 := tick1 + 1;
        if now - start > budget.maxWallTimeS.value {
          ghost var s1 := s0.(tick := tick1);
          assert Step(env, start, step, s0) ==
                 (Emit(env, SetFinal(s1, KeptFinal(s1.data)), "stop", map["reason" := JStr("wall_time_budget_exceeded")]), Break);
          st.data := st.data["final" := KeptFinal(st.data)];
          trace.Add("stop", map["reason" := JStr("wall_time_budget_exceeded")], world.clock(tick1));
          tick1 := tick1 + 1;
          return tick1, used1, messages1, Break;
        }
      }
      var response := model(Request(config, messages1));
      var content := response.content;
      ghost var s1 := Emit(env, s0.(tick := tick1), "model", map["step" := JNum(step), "content" := JStr(content)]);
      assert Step(env, start, step, s0) == Decide(env, content, s1);
      trace.Add("model", map["step" := JNum(step), "content" := JStr(content)], world.clock(tick1));
      tick1 := tick1 + 1;
      tick1, used1, messages1, halt := DecideStep(world, content, st, trace, tick1, used1, messages1);
    }

    /** The handling of one reply (see `Decide`). */
    method DecideStep(world: World, content: string, st: AgentState, trace: Trace,
                      tick: nat, used: nat, messages: seq<Message>)
      returns (tick1: nat, used1: nat, messages1: seq<Message>, halt: Halt)
      modifies st, trace
      ensures (RunState(tick1, used1, messages1, st.data, trace.events), halt) ==
              Decide(EnvOf(world), content, RunState(tick, used, messages, old(st.data), old(trace.events)))
    {
      tick1, used1, messages1 := tick, used, messages;
      var plan := ParseToolPlan(content, world.decode);
      if plan.calls != [] {
        tick1, used1, messages1, halt := CallAll(world, content, plan.calls, st, trace, tick1, used1, messages1);
        if !halt.Crash? {
          halt := AfterCalls(st.data);
        }
      } else if plan.final.Some? {
        st.data := st.data["final" := plan.final.value];
        trace.Add("decision", map["action" := JStr("finalize")], world.clock(tick1));
        tick1 := tick1 + 1;
        halt := Break;
      } else {
        st.data := st.data["final" := JStr(content)];
        trace.Add("decision", map["action" := JStr("finalize_fallback")], world.clock(tick1));
        tick1 := tick1 + 1;
        halt := Break;
      }
    }

    /** The loop over one reply's tool calls (see `Dispatch`). */
    method CallAll(world: World, content: string, calls: seq<ToolCall>, st: AgentState, trace: Trace,
                   tick: nat, used: nat, messages: seq<Message>)
      returns (tick1: nat, used1: nat, messages1: seq<Message>, halt: Halt)
      modifies st, trace
      ensures (RunState(tick1, used1, messages1, st.data, trace.events), halt) ==
              Dispatch(EnvOf(world), content, calls, RunState(tick, used, messages, old(st.data), old(trace.events)))
    {
      ghost var env := EnvOf(world);
      ghost var result := Dispatch(env, content, calls, RunState(tick, used, messages, st.data, trace.events));
      tick1, used1, messages1 := tick, used, messages;
      var i := 0;
      while i < |calls|
        invariant i <= |calls|
        invariant result == Dispatch(env, content, calls[i..], RunState(tick1, used1, messages1, st.data, trace.events))
      {
        if used1 >= budget.maxToolCalls {
          st.data := st.data["final" := JStr(ToolBudgetStop)];
          trace.Add("stop", map["reason" := JStr("tool_call_budget_exceeded")], world.clock(tick1));
          tick1 := tick1 + 1;
          return tick1, used1, messages1, Break;
        }
        var h;
        tick1, used1, messages1, h := CallOneStep(world, content, calls[i], st, trace, tick1, used1, messages1);
        if h.Crash? {
          return tick1, used1, messages1, h;
        }
        assert calls[i..][1..] == calls[i + 1..];
        i := i + 1;
      }
      halt := Continue;
    }

    /** One call of that loop (see `CallOne`). */
    method CallOneStep(world: World, content: string, tc: ToolCall, st: AgentState, trace: Trace,
                       tick: nat, used: nat, messages: seq<Message>)
      returns (tick1: nat, used1: nat, messages1: seq<Message>, halt: Halt)
      modifies st, trace
      ensures (RunState(tick1, used1, messages1, st.data, trace.events), halt) ==
              CallOne(EnvOf(world), content, tc, RunState(tick, used, messages, old(st.data), old(trace.events)))
    {
      used1 := used + 1;
      trace.Add("decision", map["action" := JStr("tool_call"), "tool" := tc.name, "args" := tc.arguments], world.clock(tick));
      tick1 := tick + 1;
      messages1 := messages;
      var t0, t1 := 0.0, 0.0;
      if tc.name.JStr? && tools.Has(tc.name.s) {
        t0, t1 := world.clock(tick1), world.clock(tick1 + 1);
        tick1 := tick1 + 2;
      }
      var res := Call(tools, tc.name, tc.arguments, t0, t1);
      if res.Failure? {
        return tick1, used1, messages1, Crash(res.error);
      }
      trace.Add("tool", ToolPayload(world, tc.name, res.value), world.clock(tick1));
      tick1 := tick1 + 1;
      messages1 := messages1 + [AssistantMessage(content), ToolMessage(world, tc.name, res.value)];
      halt := Continue;
    }
  }
}
