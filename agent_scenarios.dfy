/** How each kind of model reply and each budget ends (or continues) a run
    of the agent loop, proved about `Agent.RunSpec` and its parts. */
module AgentScenarios {
  import opened Wrappers
  import opened Values
  import opened Text
  import opened Tools
  import opened Parsing
  import opened Tracing
  import opened Agent
  import opened AgentProps

  /** The reply the model gives to the opening conversation. */
  function FirstReply(env: Env, userInput: string): string
    requires env.tools.Valid()
  {
    env.generate(Request(env.config, InitialMessages(env.config, env.tools, userInput))).content
  }

  /** The first wall-time check (reading 1 against the start, reading 0)
      passes; it always does when there is no wall-time budget. */
  predicate FirstCheckPasses(env: Env) {
    !WallExceeded(env, env.world.clock(0), env.world.clock(1))
  }

  /** With `maxSteps <= 0` the loop body never runs: nothing is recorded, the
      caller's data is returned untouched, and the answer is its "final" or "". */
  lemma NoStepsNoEvents(env: Env, userInput: string, data0: map<string, Json>)
    requires env.tools.Valid() && env.budget.maxSteps <= 0
    ensures var r := RunSpec(env, userInput, data0);
      && r.0.events == []
      && r.0.data == data0
      && OutcomeOf(r) == Finished(if "final" in data0 then data0["final"] else JStr(""))
  {
  }

  /** A wall-time budget already exceeded at the first check stops the run
      before any model call: one "stop" event, and "final" keeps a truthy
      earlier value or becomes the wall-time message. The comparison is
      strict, so equal readings never stop a run, even with a zero budget. */
  lemma WallStopBeforeFirstCall(env: Env, userInput: string, data0: map<string, Json>)
    requires env.tools.Valid() && env.budget.maxSteps >= 1
    requires !FirstCheckPasses(env)
    ensures var r := RunSpec(env, userInput, data0);
      && r.0.events == [TraceEvent(env.world.clock(2), "stop", map["reason" := JStr("wall_time_budget_exceeded")])]
      && r.0.data == data0["final" := KeptFinal(data0)]
      && OutcomeOf(r) == Finished(KeptFinal(data0))
  {
    var s := InitialState(env, userInput, data0);
    var r1 := Step(env, env.world.clock(0), 0, s);
    RunFromAfterStep(env, env.world.clock(0), 0, s, r1.0, r1.1);
  }

  /** A first reply that parses to no calls and a final value `v` ends the run
      with `v` as the answer, after exactly a "model" and a "finalize" event. */
  lemma FinalOnFirstReply(env: Env, userInput: string, data0: map<string, Json>, v: Json)
    requires env.tools.Valid() && env.budget.maxSteps >= 1
    requires FirstCheckPasses(env)
    requires ParseToolPlan(FirstReply(env, userInput), env.world.decode) == Plan([], Some(v))
    ensures var r := RunSpec(env, userInput, data0);
      && |r.0.events| == 2
      && r.0.events[0].kind == "model"
      && r.0.events[0].payload == map["step" := JNum(0), "content" := JStr(FirstReply(env, userInput))]
      && r.0.events[1].kind == "decision" && r.0.events[1].payload == map["action" := JStr("finalize")]
      && r.0.data == data0["final" := v]
      && OutcomeOf(r) == Finished(v)
  {
    var s := InitialState(env, userInput, data0);
    var r1 := Step(env, env.world.clock(0), 0, s);
    RunFromAfterStep(env, env.world.clock(0), 0, s, r1.0, r1.1);
  }

  /** A reply that is not JSON at all is taken as the final answer and
      recorded as a "finalize" decision, never as "finalize_fallback": the
      parser already hands the whole text back as the final value. */
  lemma UndecodableReplyIsFinal(env: Env, content: string, s: RunState)
    requires env.world.decode(content).None?
    ensures Decide(env, content, s) ==
            (Emit(env, SetFinal(s, JStr(content)), "decision", map["action" := JStr("finalize")]), Break)
  {
  }

  /** The reply that ends a step through `finalize_fallback`. */
  function FallbackEnd(env: Env, content: string, s: RunState): (RunState, Halt) {
    (Emit(env, SetFinal(s, JStr(content)), "decision", map["action" := JStr("finalize_fallback")]), Break)
  }

  /** A decoded JSON object whose "final" is absent or null and whose
      "tool_calls" is absent or an empty list, dict or string. */
  predicate EmptyPlanObject(decoded: Option<Json>) {
    && decoded.Some?
    && decoded.value.JObj?
    && FinalField(decoded.value.fields).None?
    && var f := decoded.value.fields;
       ("tool_calls" !in f || f["tool_calls"] in {JArr([]), JObj(map[]), JStr("")})
  }

  /** The first event the tool-call loop records is a call decision or a
      budget stop. */
  lemma DispatchFirstEvent(env: Env, content: string, calls: seq<ToolCall>, s: RunState)
    requires calls != []
    ensures var r := Dispatch(env, content, calls, s);
      && |r.0.events| > |s.events|
      && r.0.events[..|s.events|] == s.events
      && (r.0.events[|s.events|].kind == "stop" || IsCallDecision(r.0.events[|s.events|]))
  {
    if s.used < env.budget.maxToolCalls {
      CallOneShape(env, content, calls[0], s);
      var r1 := CallOne(env, content, calls[0], s);
      if !r1.1.Crash? {
        DispatchGrows(env, content, calls[1..], r1.0);
        var r := Dispatch(env, content, calls[1..], r1.0);
        assert r.0.events[..|s.events|] == r.0.events[..|r1.0.events|][..|s.events|];
        assert r.0.events[|s.events|] == r.0.events[..|r1.0.events|][|s.events|];
      }
    }
  }

  /** The tool-call loop only appends to the trace. */
  lemma {:induction false} DispatchGrows(env: Env, content: string, calls: seq<ToolCall>, s: RunState)
    ensures var r := Dispatch(env, content, calls, s);
      |r.0.events| >= |s.events| && r.0.events[..|s.events|] == s.events
    decreases |calls|
  {
    if calls != [] && s.used < env.budget.maxToolCalls {
      CallOneShape(env, content, calls[0], s);
      var r1 := CallOne(env, content, calls[0], s);
      if !r1.1.Crash? {
        DispatchGrows(env, content, calls[1..], r1.0);
        var r := Dispatch(env, content, calls[1..], r1.0);
        assert r.0.events[..|s.events|] == r.0.events[..|r1.0.events|][..|s.events|];
      }
    }
  }

  /** The `finalize_fallback` branch is taken exactly for a decoded object with
      no final value and no tool calls; plain text never reaches it. */
  lemma FallbackIff(env: Env, content: string, s: RunState)
    ensures Decide(env, content, s) == FallbackEnd(env, content, s) <==> EmptyPlanObject(env.world.decode(content))
  {
    ParseNoCallsNoFinal(content, env.world.decode);
    var plan := ParseToolPlan(content, env.world.decode);
    var fb := FallbackEnd(env, content, s);
    assert fb.0.events[|s.events|].payload["action"] == JStr("finalize_fallback");
    if plan.calls != [] {
      DispatchFirstEvent(env, content, plan.calls, s);
    } else if plan.final.Some? {
      var d := Decide(env, content, s);
      assert d.0.events[|s.events|].payload["action"] == JStr("finalize");
    }
  }

  /** Once `maxToolCalls` calls have been used, a reply that asks for any tool
      ends the run with the budget message and a "stop" event, without
      calling anything. */
  lemma ExhaustedToolBudget(env: Env, content: string, s: RunState)
    requires ParseToolPlan(content, env.world.decode).calls != []
    requires s.used >= env.budget.maxToolCalls
    ensures Decide(env, content, s) ==
            (Emit(env, SetFinal(s, JStr(ToolBudgetStop)), "stop", map["reason" := JStr("tool_call_budget_exceeded")]), Break)
  {
    var calls := ParseToolPlan(content, env.world.decode).calls;
    var stopped := Emit(env, SetFinal(s, JStr(ToolBudgetStop)), "stop", map["reason" := JStr("tool_call_budget_exceeded")]);
    assert Dispatch(env, content, calls, s) == (stopped, Break);
    assert StartsWith(ToolBudgetStop, "Stopped:");
    assert AfterCalls(stopped.data) == Break;
  }

  /** How many calls a reply's tool-call loop makes: when no lookup raises,
      exactly min(|calls|, budget left), the loop leaves early exactly when
      the calls outnumber the budget left, and the data changes only then,
      to the budget message. */
  lemma {:induction false} DispatchUses(env: Env, content: string, calls: seq<ToolCall>, s: RunState)
    ensures var r := Dispatch(env, content, calls, s);
      && (r.1.Break? ==> r.0.data == s.data["final" := JStr(ToolBudgetStop)])
      && (!r.1.Break? ==> r.0.data == s.data)
      && (!r.1.Crash? ==>
            && (r.1.Break? <==> |calls| > Max0(env.budget.maxToolCalls - s.used))
            && r.0.used == s.used + Min(|calls|, Max0(env.budget.maxToolCalls - s.used)))
    decreases |calls|
  {
    if calls != [] && s.used < env.budget.maxToolCalls {
      CallOneShape(env, content, calls[0], s);
      var r1 := CallOne(env, content, calls[0], s);
      assert Dispatch(env, content, calls, s) == if r1.1.Crash? then r1 else Dispatch(env, content, calls[1..], r1.0);
      if !r1.1.Crash? {
        DispatchUses(env, content, calls[1..], r1.0);
      }
    }
  }

  /** After a reply's tool calls have all been made, whether the run goes on
      depends only on the "final" the caller's state already held: a
      "Stopped:" string ends it, a non-string one makes the check raise,
      anything else continues. */
  lemma AfterToolsDependsOnFinal(env: Env, content: string, s: RunState)
    requires ParseToolPlan(content, env.world.decode).calls != []
    requires Dispatch(env, content, ParseToolPlan(content, env.world.decode).calls, s).1.Continue?
    ensures Decide(env, content, s).1 == AfterCalls(s.data)
  {
    DispatchUses(env, content, ParseToolPlan(content, env.world.decode).calls, s);
  }
}
