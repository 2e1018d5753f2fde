/** The tool registry of patterns/agent_core/tools.py: a name -> tool table
    built once from a list of tools, lookup by name, and a dispatch that turns
    a tool's exception into an error result instead of raising. */
module Tools {
  import opened Wrappers
  import opened Values

  /** A requested invocation. The name is whatever the decoded plan held
      under "name", so it need not be a string. */
  datatype ToolCall = ToolCall(name: Json, arguments: Json)

  datatype ToolResult = ToolResult(
    name: Json,
    output: Json,
    isError: bool,
    error: Option<string>,
    durationMs: Option<int>)

  datatype ToolSpec = ToolSpec(name: string, description: string, argsSchema: Json)

  /** What calling a tool body does: return a value or raise an exception
      (carrying `str(exc)`). */
  datatype Outcome = Returned(value: Json) | Raised(message: string)

  /** A tool: its spec plus its body, applied to the keyword arguments. */
  datatype Tool = Tool(spec: ToolSpec, invoke: Json -> Outcome)

  /** The registry's dict: `order` is its key order, `tools` its contents. */
  datatype ToolRegistry = ToolRegistry(order: seq<string>, tools: map<string, Tool>) {

    ghost predicate Valid() {
      && (forall i, j :: 0 <= i < j < |order| ==> order[i] != order[j])
      && (forall k :: k in tools <==> k in order)
      && (forall k :: k in tools ==> tools[k].spec.name == k)
    }

    /** `list_specs`: the spec of every registered tool, in key order. */
    function ListSpecs(): (specs: seq<ToolSpec>)
      requires Valid()
      ensures |specs| == |order|
      ensures forall i :: 0 <= i < |order| ==> specs[i] == tools[order[i]].spec && specs[i].name == order[i]
      ensures forall i, j :: 0 <= i < j < |specs| ==> specs[i].name != specs[j].name
    {
      seq(|order|, i requires 0 <= i < |order| => tools[order[i]].spec)
    }

    /** `has`. */
    predicate Has(name: string) {
      name in tools
    }
  }

  function Names(tools: seq<Tool>): (names: seq<string>)
    ensures |names| == |tools|
    ensures forall i :: 0 <= i < |tools| ==> names[i] == tools[i].spec.name
  {
    seq(|tools|, i requires 0 <= i < |tools| => tools[i].spec.name)
  }

  /** Index of the first occurrence of `x`. */
  function FirstIndex(xs: seq<string>, x: string): (k: nat)
    requires x in xs
    ensures k < |xs| && xs[k] == x
    ensures forall j :: 0 <= j < k ==> xs[j] != x
  {
    if xs[0] == x then 0 else 1 + FirstIndex(xs[1..], x)
  }

  /** Index of the last occurrence of `x`. */
  function LastIndex(xs: seq<string>, x: string): (k: nat)
    requires x in xs
    ensures k < |xs| && xs[k] == x
    ensures forall j :: k < j < |xs| ==> xs[j] != x
  {
    if xs[|xs| - 1] == x then |xs| - 1 else LastIndex(xs[..|xs| - 1], x)
  }

  /** One step of the comprehension `{t.spec.name: t for t in tools}`:
      a new key goes to the end; an existing key keeps its place and takes the new value. */
  function Insert(r: ToolRegistry, t: Tool): ToolRegistry {
    if t.spec.name in r.tools then r.(tools := r.tools[t.spec.name := t])
    else ToolRegistry(r.order + [t.spec.name], r.tools[t.spec.name := t])
  }

  /** `ToolRegistry(tools)`: keyed by spec name; a later tool with a taken name
      replaces the value, while the key keeps the place of its first insertion. */
  function NewRegistry(tools: seq<Tool>): (r: ToolRegistry)
    ensures r.Valid()
    ensures forall n :: n in r.tools <==> n in Names(tools)
    ensures forall n :: n in r.tools ==> r.tools[n] == tools[LastIndex(Names(tools), n)]
    ensures forall i, j :: 0 <= i < j < |r.order| ==>
      FirstIndex(Names(tools), r.order[i]) < FirstIndex(Names(tools), r.order[j])
    decreases |tools|
  {
    if tools == [] then ToolRegistry([], map[])
    else
      var prefix := tools[..|tools| - 1];
      var t := tools[|tools| - 1];
      var r0 := NewRegistry(prefix);
      NewRegistryStep(tools, prefix, t, r0);
      Insert(r0, t)
  }

  lemma NewRegistryStep(tools: seq<Tool>, prefix: seq<Tool>, t: Tool, r0: ToolRegistry)
    requires tools != [] && prefix == tools[..|tools| - 1] && t == tools[|tools| - 1]
    requires r0.Valid()
    requires forall n :: n in r0.tools <==> n in Names(prefix)
    requires forall n :: n in r0.tools ==> r0.tools[n] == prefix[LastIndex(Names(prefix), n)]
    requires forall i, j :: 0 <= i < j < |r0.order| ==>
      FirstIndex(Names(prefix), r0.order[i]) < FirstIndex(Names(prefix), r0.order[j])
    ensures var r := Insert(r0, t);
      && r.Valid()
      && (forall n :: n in r.tools <==> n in Names(tools))
      && (forall n :: n in r.tools ==> r.tools[n] == tools[LastIndex(Names(tools), n)])
      && (forall i, j :: 0 <= i < j < |r.order| ==>
            FirstIndex(Names(tools), r.order[i]) < FirstIndex(Names(tools), r.order[j]))
  {
    assert Names(tools) == Names(prefix) + [t.spec.name];
    InsertValues(tools, prefix, t, r0);
    InsertOrder(tools, prefix, t, r0);
  }

  lemma InsertValues(tools: seq<Tool>, prefix: seq<Tool>, t: Tool, r0: ToolRegistry)
    requires tools != [] && prefix == tools[..|tools| - 1] && t == tools[|tools| - 1]
    requires Names(tools) == Names(prefix) + [t.spec.name]
    requires forall n :: n in r0.tools <==> n in Names(prefix)
    requires forall n :: n in r0.tools ==> r0.tools[n] == prefix[LastIndex(Names(prefix), n)]
    ensures forall n :: n in Insert(r0, t).tools ==> Insert(r0, t).tools[n] == tools[LastIndex(Names(tools), n)]
  {
    var names, pnames := Names(tools), Names(prefix);
    var r := Insert(r0, t);
    forall n | n in r.tools
      ensures r.tools[n] == tools[LastIndex(names, n)]
    {
      if n != t.spec.name {
        var k := LastIndex(pnames, n);
        assert names[k] == n;
        assert LastIndex(names, n) == k;
      }
    }
  }

  lemma InsertOrder(tools: seq<Tool>, prefix: seq<Tool>, t: Tool, r0: ToolRegistry)
    requires tools != [] && prefix == tools[..|tools| - 1] && t == tools[|tools| - 1]
    requires Names(tools) == Names(prefix) + [t.spec.name]
    requires forall i :: 0 <= i < |r0.order| ==> r0.order[i] in Names(prefix)
    requires t.spec.name in r0.tools <==> t.spec.name in Names(prefix)
    requires forall i, j :: 0 <= i < j < |r0.order| ==>
      FirstIndex(Names(prefix), r0.order[i]) < FirstIndex(Names(prefix), r0.order[j])
    ensures forall i, j :: 0 <= i < j < |Insert(r0, t).order| ==>
      FirstIndex(Names(tools), Insert(r0, t).order[i]) < FirstIndex(Names(tools), Insert(r0, t).order[j])
  {
    var names, pnames := Names(tools), Names(prefix);
    var order := Insert(r0, t).order;
    var y := t.spec.name;
    forall i | 0 <= i < |r0.order|
      ensures FirstIndex(names, r0.order[i]) == FirstIndex(pnames, r0.order[i])
    {
      FirstIndexAppend(pnames, y, r0.order[i]);
    }
    if y in r0.tools {
      assert order == r0.order;
    } else {
      assert order == r0.order + [y];
      FirstIndexAppendNew(pnames, y);
      forall i, j | 0 <= i < j < |order|
        ensures FirstIndex(names, order[i]) < FirstIndex(names, order[j])
      {
        if j == |r0.order| {
          assert order[i] == r0.order[i];
        } else {
          assert order[i] == r0.order[i] && order[j] == r0.order[j];
        }
      }
    }
  }

  lemma FirstIndexAppend(xs: seq<string>, y: string, x: string)
    requires x in xs
    ensures FirstIndex(xs + [y], x) == FirstIndex(xs, x)
  {
    var k := FirstIndex(xs, x);
    assert (xs + [y])[k] == x;
  }

  lemma FirstIndexAppendNew(xs: seq<string>, y: string)
    requires y !in xs
    ensures FirstIndex(xs + [y], y) == |xs|
  {
    assert (xs + [y])[|xs|] == y;
  }

  /** Python's `int(x)`: truncation toward zero. */
  function Truncate(x: real): int {
    if x >= 0.0 then x.Floor else -((-x).Floor)
  }

  /** `int((stop - start) * 1000)` for two clock readings in seconds. */
  function DurationMs(start: real, stop: real): int {
    Truncate((stop - start) * 1000.0)
  }

  /** `ToolRegistry.call`. The dict lookup `name not in self._tools` raises
      TypeError for a list or dict name, the only way this call raises;
      `start` and `stop` are the clock readings taken around a registered
      tool's body (none are taken for an unknown name). */
  function Call(r: ToolRegistry, name: Json, args: Json, start: real, stop: real): (res: Result<ToolResult, string>)
    ensures res.Failure? <==> !Hashable(name)
    ensures res.Success? ==> res.value.name == name
    ensures res.Success? ==> (res.value.isError <==> res.value.error.Some?)
    ensures res.Success? ==> (res.value.isError ==> res.value.output == JNull)
    ensures res.Success? ==> (res.value.durationMs.None? <==> !(name.JStr? && r.Has(name.s)))
  {
    match name
    case JArr(_) => Failure("TypeError: unhashable type: 'list'")
    case JObj(_) => Failure("TypeError: unhashable type: 'dict'")
    case JStr(s) =>
      if s in r.tools then Success(Invoke(r.tools[s], name, args, start, stop))
      else Success(UnknownTool(name))
    case _ => Success(UnknownTool(name))
  }

  function UnknownTool(name: Json): ToolResult
    requires Hashable(name)
  {
    ToolResult(name, JNull, true, Some("Unknown tool: " + ScalarString(name)), None)
  }

  /** The try/except around a registered tool's body. */
  function Invoke(t: Tool, name: Json, args: Json, start: real, stop: real): ToolResult {
    match t.invoke(args)
    case Returned(v) => ToolResult(name, v, false, None, Some(DurationMs(start, stop)))
    case Raised(msg) => ToolResult(name, JNull, true, Some(msg), Some(DurationMs(start, stop)))
  }

  /** Dispatch by a string name never raises; an unregistered name yields the
      "Unknown tool" error, a registered one the tool's value or its exception text. */
  lemma CallByString(r: ToolRegistry, name: string, args: Json, start: real, stop: real)
    ensures var res := Call(r, JStr(name), args, start, stop);
      && res.Success?
      && (!r.Has(name) ==> res.value == ToolResult(JStr(name), JNull, true, Some("Unknown tool: " + name), None))
      && (r.Has(name) && r.tools[name].invoke(args).Returned? ==>
            !res.value.isError && res.value.error == None && res.value.output == r.tools[name].invoke(args).value)
      && (r.Has(name) && r.tools[name].invoke(args).Raised? ==>
            res.value.isError && res.value.output == JNull && res.value.error == Some(r.tools[name].invoke(args).message))
  {
  }

  /** `has(name)` holds exactly for the names of the registered tools. */
  lemma HasIffRegistered(tools: seq<Tool>, name: string)
    ensures NewRegistry(tools).Has(name) <==> exists i :: 0 <= i < |tools| && tools[i].spec.name == name
  {
    var names := Names(tools);
    if name in names {
      var k := FirstIndex(names, name);
      assert tools[k].spec.name == name;
    }
  }

  /** `list_specs` gives one spec per distinct name, in order of first
      registration, each the last one registered under that name. */
  lemma ListSpecsOfNew(tools: seq<Tool>)
    ensures var specs := NewRegistry(tools).ListSpecs();
      && (forall i, j :: 0 <= i < j < |specs| ==> specs[i].name != specs[j].name)
      && (forall i :: 0 <= i < |specs| ==> specs[i].name in Names(tools))
      && (forall n :: n in Names(tools) ==> exists i :: 0 <= i < |specs| && specs[i].name == n)
      && (forall i :: 0 <= i < |specs| ==> specs[i] == tools[LastIndex(Names(tools), specs[i].name)].spec)
      && (forall i, j :: 0 <= i < j < |specs| ==>
            FirstIndex(Names(tools), specs[i].name) < FirstIndex(Names(tools), specs[j].name))
  {
    var r := NewRegistry(tools);
    var specs := r.ListSpecs();
    forall n | n in Names(tools) ensures exists i :: 0 <= i < |specs| && specs[i].name == n {
      assert n in r.order;
      var i :| 0 <= i < |r.order| && r.order[i] == n;
      assert specs[i].name == n;
    }
  }

  // The example tool of patterns/agent_core/examples.py.

  const EchoSpec := ToolSpec(
    "echo",
    "Echo back the input text.",
    JObj(map[
      "type" := JStr("object"),
      "properties" := JObj(map["text" := JObj(map["type" := JStr("string")])]),
      "required" := JArr([JStr("text")])]))

  /** `EchoTool()(**args)`: returns its one keyword argument `text`; any other
      argument shape raises TypeError. */
  function EchoInvoke(args: Json): Outcome {
    if args.JObj? && args.fields.Keys == {"text"} then Returned(args.fields["text"])
    else Raised("EchoTool.__call__() takes exactly the keyword argument 'text'")
  }

  const Echo := Tool(EchoSpec, EchoInvoke)

  /** A registered echo tool called with {"text": "abc"} returns "abc" without error. */
  lemma EchoRoundTrip(start: real, stop: real)
    ensures var res := Call(NewRegistry([Echo]), JStr("echo"), JObj(map["text" := JStr("abc")]), start, stop);
      && res.Success?
      && res.value.output == JStr("abc")
      && !res.value.isError
      && res.value.error == None
  {
    var r := NewRegistry([Echo]);
    assert Names([Echo]) == ["echo"];
    assert "echo" in r.tools;
    assert map["text" := JStr("abc")].Keys == {"text"};
  }
}
