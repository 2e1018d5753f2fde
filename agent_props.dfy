/** What a run of the agent loop guarantees, proved about `Agent.RunSpec`
    (and so, through `Agent.Agent.Run`'s postcondition, about the loop
    itself): the two budgets, the shape of the trace, the growth of the
    conversation, and the way each kind of model reply ends a run. */
module AgentProps {
  import opened Wrappers
  import opened Values
  import opened Text
  import opened Tools
  import opened Parsing
  import opened Tracing
  import opened Agent

  function Max0(n: int): nat {
    if n < 0 then 0 else n
  }

  function Min(a: nat, b: nat): nat {
    if a < b then a else b
  }

  /** The number of events satisfying `p`. */
  function Count(es: seq<TraceEvent>, p: TraceEvent -> bool): (n: nat)
    ensures n <= |es|
  {
    if es == [] then 0 else Count(es[..|es| - 1], p) + (if p(es[|es| - 1]) then 1 else 0)
  }

  lemma CountAppend(es: seq<TraceEvent>, e: TraceEvent, p: TraceEvent -> bool)
    ensures Count(es + [e], p) == Count(es, p) + (if p(e) then 1 else 0)
  {
    assert (es + [e])[..|es|] == es;
  }

  /** A zero count means no event satisfies `p`. */
  lemma {:induction false} NoneCounted(es: seq<TraceEvent>, p: TraceEvent -> bool)
    requires Count(es, p) == 0
    ensures forall k :: 0 <= k < |es| ==> !p(es[k])
  {
    if es != [] {
      var n := |es| - 1;
      NoneCounted(es[..n], p);
      forall k | 0 <= k < n ensures !p(es[k]) {
        assert es[k] == es[..n][k];
      }
    }
  }

  predicate IsModel(e: TraceEvent) {
    e.kind == "model"
  }

  predicate IsToolResult(e: TraceEvent) {
    e.kind == "tool"
  }

  predicate Action(e: TraceEvent, action: string) {
    e.kind == "decision" && "action" in e.payload && e.payload["action"] == JStr(action)
  }

  /** A "decision" event that announces a tool call. */
  predicate IsCallDecision(e: TraceEvent) {
    Action(e, "tool_call")
  }

  /** An event after which the run never records anything: a stop or a
      final-answer decision. */
  predicate IsTerminal(e: TraceEvent) {
    e.kind == "stop" || Action(e, "finalize") || Action(e, "finalize_fallback")
  }

  /** `d` announces the tool that `e` reports on. */
  predicate Announces(d: TraceEvent, e: TraceEvent) {
    IsCallDecision(d) && "tool" in d.payload && "tool" in e.payload && d.payload["tool"] == e.payload["tool"]
  }

  /** Every "tool" event directly follows the decision announcing that tool. */
  predicate PairedTools(es: seq<TraceEvent>) {
    if es == [] then true
    else
      var n := |es| - 1;
      PairedTools(es[..n]) && (es[n].kind == "tool" ==> n > 0 && Announces(es[n - 1], es[n]))
  }

  lemma {:induction false} PairedToolsAt(es: seq<TraceEvent>, k: nat)
    requires PairedTools(es) && k < |es| && es[k].kind == "tool"
    ensures 0 < k && Announces(es[k - 1], es[k])
  {
    var n := |es| - 1;
    if k < n {
      PairedToolsAt(es[..n], k);
      assert es[..n][k] == es[k] && es[..n][k - 1] == es[k - 1];
    }
  }

  /** The facts every intermediate state of a run keeps: the tool-call budget,
      one call decision per used call and at most one tool event per call, the
      conversation is the opening one plus two messages per tool result, only
      "final" of the caller's data is written, and tool events are paired. */
  ghost predicate Inv(env: Env, init: seq<Message>, data0: map<string, Json>, s: RunState) {
    && s.used <= Max0(env.budget.maxToolCalls)
    && Count(s.events, IsCallDecision) == s.used
    && Count(s.events, IsToolResult) <= s.used
    && |init| <= |s.messages|
    && s.messages[..|init|] == init
    && |s.messages| == |init| + 2 * Count(s.events, IsToolResult)
    && SameExceptFinal(s.data, data0)
    && PairedTools(s.events)
  }

  ghost predicate SameExceptFinal(d: map<string, Json>, d0: map<string, Json>) {
    forall k :: k != "final" ==> (k in d <==> k in d0) && (k in d ==> d[k] == d0[k])
  }

  /** How one recorded event moves each count. */
  lemma EmitCounts(env: Env, s: RunState, kind: string, payload: map<string, Json>)
    ensures var e := TraceEvent(env.world.clock(s.tick), kind, payload);
      var es := Emit(env, s, kind, payload).events;
      && es == s.events + [e]
      && Count(es, IsCallDecision) == Count(s.events, IsCallDecision) + (if IsCallDecision(e) then 1 else 0)
      && Count(es, IsToolResult) == Count(s.events, IsToolResult) + (if IsToolResult(e) then 1 else 0)
      && Count(es, IsModel) == Count(s.events, IsModel) + (if IsModel(e) then 1 else 0)
      && Count(es, IsTerminal) == Count(s.events, IsTerminal) + (if IsTerminal(e) then 1 else 0)
      && (PairedTools(s.events) && kind != "tool" ==> PairedTools(es))
  {
    var e := TraceEvent(env.world.clock(s.tick), kind, payload);
    var es := s.events + [e];
    assert es[..|s.events|] == s.events;
    CountAppend(s.events, e, IsCallDecision);
    CountAppend(s.events, e, IsToolResult);
    CountAppend(s.events, e, IsModel);
    CountAppend(s.events, e, IsTerminal);
  }

  /** What one call within the budget appends: the decision announcing it
      and, unless the lookup raised, the tool's result event and two messages. */
  lemma CallOneShape(env: Env, content: string, tc: ToolCall, s: RunState)
    ensures var r := CallOne(env, content, tc, s);
      var n := |s.events|;
      && !r.1.Break?
      && r.0.used == s.used + 1
      && r.0.data == s.data
      && |r.0.events| == n + (if r.1.Crash? then 1 else 2)
      && r.0.events[..n] == s.events
      && r.0.events[n] == TraceEvent(env.world.clock(s.tick), "decision",
                                     map["action" := JStr("tool_call"), "tool" := tc.name, "args" := tc.arguments])
      && (!r.1.Crash? ==> r.0.events[n + 1].kind == "tool" && "tool" in r.0.events[n + 1].payload
                          && r.0.events[n + 1].payload["tool"] == tc.name)
      && |r.0.messages| == |s.messages| + (if r.1.Crash? then 0 else 2)
      && r.0.messages[..|s.messages|] == s.messages
  {
  }

  /** Counting over one or two appended events. */
  lemma CountAppended(es: seq<TraceEvent>, es1: seq<TraceEvent>, extra: nat, p: TraceEvent -> bool)
    requires 1 <= extra <= 2 && |es1| == |es| + extra && es1[..|es|] == es
    ensures Count(es1, p) == Count(es, p) + (if p(es1[|es|]) then 1 else 0)
                           + (if extra == 2 && p(es1[|es1| - 1]) then 1 else 0)
  {
    var mid := es1[..|es| + 1];
    assert mid == es + [es1[|es|]];
    CountAppend(es, es1[|es|], p);
    if extra == 2 {
      assert es1 == mid + [es1[|es1| - 1]];
      CountAppend(mid, es1[|es1| - 1], p);
    } else {
      assert es1 == mid;
    }
  }

  /** The pairing survives appending a call decision and, possibly, the
      result event of that tool. */
  lemma PairedAppended(es: seq<TraceEvent>, es1: seq<TraceEvent>, crashed: bool)
    requires |es1| == |es| + (if crashed then 1 else 2)
    requires es1[..|es|] == es
    requires IsCallDecision(es1[|es|])
    requires !crashed ==> Announces(es1[|es|], es1[|es| + 1])
    requires PairedTools(es)
    ensures PairedTools(es1)
  {
    var mid := es1[..|es| + 1];
    assert mid[..|es|] == es;
    assert PairedTools(mid);
    if !crashed {
      assert es1[..|mid|] == mid;
    } else {
      assert es1 == mid;
    }
  }

  /** What one call within the budget does to the run state. */
  lemma CallOneEffect(env: Env, content: string, tc: ToolCall, s: RunState)
    requires PairedTools(s.events)
    ensures var r := CallOne(env, content, tc, s);
      && !r.1.Break?
      && r.0.used == s.used + 1
      && r.0.data == s.data
      && Count(r.0.events, IsCallDecision) == Count(s.events, IsCallDecision) + 1
      && Count(r.0.events, IsToolResult) == Count(s.events, IsToolResult) + (if r.1.Crash? then 0 else 1)
      && Count(r.0.events, IsModel) == Count(s.events, IsModel)
      && Count(r.0.events, IsTerminal) == Count(s.events, IsTerminal)
      && PairedTools(r.0.events)
      && |r.0.messages| == |s.messages| + (if r.1.Crash? then 0 else 2)
      && r.0.messages[..|s.messages|] == s.messages
  {
    CallOneShape(env, content, tc, s);
    var r := CallOne(env, content, tc, s);
    var extra := if r.1.Crash? then 1 else 2;
    CountAppended(s.events, r.0.events, extra, IsCallDecision);
    CountAppended(s.events, r.0.events, extra, IsToolResult);
    CountAppended(s.events, r.0.events, extra, IsModel);
    CountAppended(s.events, r.0.events, extra, IsTerminal);
    PairedAppended(s.events, r.0.events, r.1.Crash?);
  }

  /** A call within the budget keeps the invariant. */
  lemma CallOneKeeps(env: Env, init: seq<Message>, data0: map<string, Json>, content: string, tc: ToolCall, s: RunState)
    requires Inv(env, init, data0, s) && Count(s.events, IsTerminal) == 0
    requires s.used < env.budget.maxToolCalls
    ensures var r := CallOne(env, content, tc, s);
      && Inv(env, init, data0, r.0)
      && !r.1.Break?
      && r.0.used == s.used + 1
      && r.0.data == s.data
      && Count(r.0.events, IsModel) == Count(s.events, IsModel)
      && Count(r.0.events, IsTerminal) == 0
  {
    CallOneEffect(env, content, tc, s);
    var r := CallOne(env, content, tc, s);
    assert r.0.messages[..|init|] == s.messages[..|init|] by {
      assert r.0.messages[..|s.messages|] == s.messages;
    }
  }

  /** A run that may go on: the invariant holds, no terminal event has been
      recorded, and `models` model calls have been made. */
  ghost predicate Live(env: Env, init: seq<Message>, data0: map<string, Json>, s: RunState, models: nat) {
    && Inv(env, init, data0, s)
    && Count(s.events, IsTerminal) == 0
    && Count(s.events, IsModel) == models
  }

  /** A run that has left the loop (or may have): the invariant holds, at
      most `models` model calls were made, and no event but the last is
      terminal. */
  ghost predicate Ended(env: Env, init: seq<Message>, data0: map<string, Json>, s: RunState, models: nat) {
    && Inv(env, init, data0, s)
    && Count(s.events, IsModel) <= models
    && (s.events != [] ==> Count(s.events[..|s.events| - 1], IsTerminal) == 0)
  }

  lemma LiveIsEnded(env: Env, init: seq<Message>, data0: map<string, Json>, s: RunState, n: nat, m: nat)
    requires Live(env, init, data0, s, n) && n <= m
    ensures Ended(env, init, data0, s, m)
  {
    if s.events != [] {
      assert Count(s.events, IsTerminal) >= Count(s.events[..|s.events| - 1], IsTerminal);
    }
  }

  lemma EndedWeaken(env: Env, init: seq<Message>, data0: map<string, Json>, s: RunState, n: nat, m: nat)
    requires Ended(env, init, data0, s, n) && n <= m
    ensures Ended(env, init, data0, s, m)
  {
  }

  /** Setting "final" and recording a terminal event (a stop or a final-answer
      decision) ends a live run. */
  lemma EndKeeps(env: Env, init: seq<Message>, data0: map<string, Json>, s: RunState, n: nat,
                 v: Json, kind: string, payload: map<string, Json>)
    requires Live(env, init, data0, s, n)
    requires kind == "stop" || (kind == "decision" && "action" in payload &&
                                (payload["action"] == JStr("finalize") || payload["action"] == JStr("finalize_fallback")))
    ensures var r := Emit(env, SetFinal(s, v), kind, payload);
      && Ended(env, init, data0, r, n)
      && r.data == s.data["final" := v]
      && r.used == s.used
  {
    var s1 := SetFinal(s, v);
    EmitCounts(env, s1, kind, payload);
    var e := TraceEvent(env.world.clock(s1.tick), kind, payload);
    assert !IsCallDecision(e) && !IsModel(e) && !IsToolResult(e);
    var r := Emit(env, s1, kind, payload);
    assert r.events[..|r.events| - 1] == s.events;
  }

  /** The tool-call loop of one reply keeps the invariant. When it runs to the
      end or raises, it records no terminal event and leaves the data alone;
      when it leaves early, the final answer is the budget message. */
  lemma {:induction false} DispatchKeeps(env: Env, init: seq<Message>, data0: map<string, Json>, content: string,
                                        calls: seq<ToolCall>, s: RunState, n: nat)
    requires Live(env, init, data0, s, n)
    ensures var r := Dispatch(env, content, calls, s);
      && (r.1.Break? ==> Ended(env, init, data0, r.0, n) && r.0.data == s.data["final" := JStr(ToolBudgetStop)])
      && (!r.1.Break? ==> Live(env, init, data0, r.0, n) && r.0.data == s.data)
    decreases |calls|
  {
    if calls == [] {
    } else if s.used >= env.budget.maxToolCalls {
      var payload := map["reason" := JStr("tool_call_budget_exceeded")];
      assert Dispatch(env, content, calls, s) == (Emit(env, SetFinal(s, JStr(ToolBudgetStop)), "stop", payload), Break);
      EndKeeps(env, init, data0, s, n, JStr(ToolBudgetStop), "stop", payload);
    } else {
      CallOneKeeps(env, init, data0, content, calls[0], s);
      var r1 := CallOne(env, content, calls[0], s);
      assert Dispatch(env, content, calls, s) == if r1.1.Crash? then r1 else Dispatch(env, content, calls[1..], r1.0);
      assert Live(env, init, data0, r1.0, n);
      if !r1.1.Crash? {
        DispatchKeeps(env, init, data0, content, calls[1..], r1.0, n);
      }
    }
  }

  /** Handling one reply keeps the invariant; a step that goes on to the next
      has recorded no terminal event. */
  lemma DecideKeeps(env: Env, init: seq<Message>, data0: map<string, Json>, content: string, s: RunState, n: nat)
    requires Live(env, init, data0, s, n)
    ensures var r := Decide(env, content, s);
      && Ended(env, init, data0, r.0, n)
      && (r.1.Continue? ==> Live(env, init, data0, r.0, n))
  {
    var plan := ParseToolPlan(content, env.world.decode);
    if plan.calls != [] {
      DispatchKeeps(env, init, data0, content, plan.calls, s, n);
      var d := Dispatch(env, content, plan.calls, s);
      assert Decide(env, content, s) == (d.0, if d.1.Crash? then d.1 else AfterCalls(d.0.data));
      if !d.1.Break? {
        LiveIsEnded(env, init, data0, d.0, n, n);
      }
    } else {
      var v := if plan.final.Some? then plan.final.value else JStr(content);
      var payload := map["action" := JStr(if plan.final.Some? then "finalize" else "finalize_fallback")];
      assert Decide(env, content, s) == (Emit(env, SetFinal(s, v), "decision", payload), Break);
      EndKeeps(env, init, data0, s, n, v, "decision", payload);
    }
  }

  /** Recording a "model" event counts one more model call. */
  lemma ModelEventKeeps(env: Env, init: seq<Message>, data0: map<string, Json>, s: RunState, n: nat, payload: map<string, Json>)
    requires Live(env, init, data0, s, n)
    ensures Live(env, init, data0, Emit(env, s, "model", payload), n + 1)
  {
    EmitCounts(env, s, "model", payload);
  }

  /** A step whose wall-time check passes makes one model call. */
  lemma ModelStepKeeps(env: Env, init: seq<Message>, data0: map<string, Json>, start: real, step: nat, s: RunState, n: nat)
    requires Live(env, init, data0, s, n)
    requires !WallExceeded(env, start, env.world.clock(s.tick))
    ensures var r := Step(env, start, step, s);
      && Ended(env, init, data0, r.0, n + 1)
      && (r.1.Continue? ==> Live(env, init, data0, r.0, n + 1))
  {
    var s1 := if env.budget.maxWallTimeS.Some? then s.(tick := s.tick + 1) else s;
    var content := env.generate(Request(env.config, s1.messages)).content;
    var payload := map["step" := JNum(step), "content" := JStr(content)];
    var s2 := Emit(env, s1, "model", payload);
    assert Step(env, start, step, s) == Decide(env, content, s2);
    assert Live(env, init, data0, s1, n);
    ModelEventKeeps(env, init, data0, s1, n, payload);
    DecideKeeps(env, init, data0, content, s2, n + 1);
  }

  /** One step keeps the invariant and makes at most one model call. */
  lemma StepKeeps(env: Env, init: seq<Message>, data0: map<string, Json>, start: real, step: nat, s: RunState, n: nat)
    requires Live(env, init, data0, s, n)
    ensures var r := Step(env, start, step, s);
      && Ended(env, init, data0, r.0, n + 1)
      && (r.1.Continue? ==> Live(env, init, data0, r.0, n + 1))
  {
    if WallExceeded(env, start, env.world.clock(s.tick)) {
      var s1 := s.(tick := s.tick + 1);
      var payload := map["reason" := JStr("wall_time_budget_exceeded")];
      assert Step(env, start, step, s) == (Emit(env, SetFinal(s1, KeptFinal(s1.data)), "stop", payload), Break);
      assert Live(env, init, data0, s1, n);
      EndKeeps(env, init, data0, s1, n, KeptFinal(s1.data), "stop", payload);
      EndedWeaken(env, init, data0, Step(env, start, step, s).0, n, n + 1);
    } else {
      ModelStepKeeps(env, init, data0, start, step, s, n);
    }
  }

  /** The remaining steps keep the invariant; each step makes at most one
      model call, so a run never makes more than `maxSteps` of them. */
  lemma {:induction false} RunFromKeeps(env: Env, init: seq<Message>, data0: map<string, Json>, start: real, step: nat, s: RunState)
    requires Live(env, init, data0, s, step) && step <= Max0(env.budget.maxSteps)
    ensures Ended(env, init, data0, RunFrom(env, start, step, s).0, Max0(env.budget.maxSteps))
    decreases env.budget.maxSteps - step, 1
  {
    if step < env.budget.maxSteps {
      StepKeeps(env, init, data0, start, step, s, step);
      AfterStepKeeps(env, init, data0, start, step, Step(env, start, step, s));
    } else {
      LiveIsEnded(env, init, data0, s, step, Max0(env.budget.maxSteps));
    }
  }

  /** The same, from the result `r` of step `step`. */
  lemma {:induction false} AfterStepKeeps(env: Env, init: seq<Message>, data0: map<string, Json>, start: real, step: nat, r: (RunState, Halt))
    requires step < env.budget.maxSteps
    requires Ended(env, init, data0, r.0, step + 1)
    requires r.1.Continue? ==> Live(env, init, data0, r.0, step + 1)
    ensures Ended(env, init, data0, AfterStep(env, start, step, r).0, Max0(env.budget.maxSteps))
    decreases env.budget.maxSteps - step, 0
  {
    if r.1.Continue? {
      RunFromKeeps(env, init, data0, start, step + 1, r.0);
    } else {
      EndedWeaken(env, init, data0, r.0, step + 1, Max0(env.budget.maxSteps));
    }
  }

  /** The run as a whole: at most `maxToolCalls` tool calls and `maxSteps`
      model calls (none when a budget is zero or negative); every tool event
      directly follows the decision announcing that tool; only the last event
      can be a stop or a final-answer decision; the conversation keeps its
      three opening messages and gains two per tool result; and nothing but
      "final" of the caller's state is written. */
  lemma RunRespectsBudgets(env: Env, userInput: string, data0: map<string, Json>)
    requires env.tools.Valid()
    ensures var r := RunSpec(env, userInput, data0);
      && Count(r.0.events, IsCallDecision) <= Max0(env.budget.maxToolCalls)
      && Count(r.0.events, IsModel) <= Max0(env.budget.maxSteps)
      && (forall k :: 0 <= k < |r.0.events| && r.0.events[k].kind == "tool" ==>
            0 < k && Announces(r.0.events[k - 1], r.0.events[k]))
      && (forall k :: 0 <= k < |r.0.events| - 1 ==> !IsTerminal(r.0.events[k]))
      && 3 <= |r.0.messages|
      && r.0.messages[..3] == InitialMessages(env.config, env.tools, userInput)
      && |r.0.messages| == 3 + 2 * Count(r.0.events, IsToolResult)
      && SameExceptFinal(r.0.data, data0)
  {
    var init := InitialMessages(env.config, env.tools, userInput);
    var s := InitialState(env, userInput, data0);
    assert s.messages[..|init|] == init;
    assert Live(env, init, data0, s, 0);
    RunFromKeeps(env, init, data0, env.world.clock(0), 0, s);
    var r := RunSpec(env, userInput, data0);
    if r.0.events != [] {
      var pre := r.0.events[..|r.0.events| - 1];
      NoneCounted(pre, IsTerminal);
      forall k | 0 <= k < |r.0.events| - 1 ensures !IsTerminal(r.0.events[k]) {
        assert r.0.events[k] == pre[k];
      }
    }
    forall k | 0 <= k < |r.0.events| && r.0.events[k].kind == "tool"
      ensures 0 < k && Announces(r.0.events[k - 1], r.0.events[k])
    {
      PairedToolsAt(r.0.events, k);
    }
  }
}
