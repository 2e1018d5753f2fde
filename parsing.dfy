/** `parse_tool_plan` of patterns/agent_core/parsing.py: decode the model's
    text as a decision object {"tool_calls": [...], "final": ...}; when the
    decoder or any later step raises, the whole text becomes the final answer. */
module Parsing {
  import opened Wrappers
  import opened Values
  import opened Tools

  /** TOOL_CALL_INSTRUCTIONS: the system prompt that tells the model the
      decision-object format. */
  const ToolCallInstructions: string :=
    "\nIf you need to use a tool, respond ONLY with a JSON object in this format:\n\n{\n"
    + "  \"tool_calls\": [\n    {\"name\": \"<tool_name>\", \"arguments\": { ... }},\n    ...\n  ],\n"
    + "  \"final\": \"<optional final user-facing text if no further tools needed>\"\n}\n\nRules:\n"
    + "- If calling tools, include them in tool_calls.\n"
    + "- If no tools are needed, return tool_calls as [] and put the final answer in \"final\".\n"
    + "- Do not include any other keys.\n"

  /** The parser's result: the requested calls and the "final" value (None
      for Python's None). */
  datatype Plan = Plan(calls: seq<ToolCall>, final: Option<Json>)

  /** The whole-text fallback of the `except` clause. */
  function Fallback(text: string): Plan {
    Plan([], Some(JStr(text)))
  }

  /** `ToolCall(name=t["name"], arguments=t.get("arguments", {}))`; None when
      it raises (t is not a dict, or has no "name"). */
  function ItemCall(t: Json): (c: Option<ToolCall>)
    ensures c.Some? <==> t.JObj? && "name" in t.fields
    ensures c.Some? ==> c.value.name == t.fields["name"]
    ensures c.Some? ==> c.value.arguments == Get(t.fields, "arguments", JObj(map[]))
  {
    if t.JObj? && "name" in t.fields then
      Some(ToolCall(t.fields["name"], Get(t.fields, "arguments", JObj(map[]))))
    else None
  }

  /** The list comprehension over a list: every item must convert, else the
      comprehension raises and nothing is kept. */
  function ItemCalls(items: seq<Json>): (r: Option<seq<ToolCall>>)
    ensures r.Some? <==> forall i :: 0 <= i < |items| ==> ItemCall(items[i]).Some?
    ensures r.Some? ==> |r.value| == |items|
    ensures r.Some? ==> forall i :: 0 <= i < |items| ==> Some(r.value[i]) == ItemCall(items[i])
  {
    if items == [] then Some([])
    else
      match (ItemCall(items[0]), ItemCalls(items[1..]))
      case (Some(c), Some(cs)) => Some([c] + cs)
      case _ => None
  }

  /** Iterating `obj.get("tool_calls", [])`. A list gives its items; an empty
      dict or empty string iterates nothing; a non-empty dict or string yields
      string elements, whose `["name"]` raises; null, bools and numbers are not
      iterable. */
  function CallsOf(v: Json): (r: Option<seq<ToolCall>>)
    ensures v.JArr? ==> r == ItemCalls(v.items)
    ensures r == Some([]) <==> v == JArr([]) || v == JObj(map[]) || v == JStr("")
  {
    match v
    case JArr(items) => ItemCalls(items)
    case JObj(m) => if m == map[] then Some([]) else None
    case JStr(s) => if s == "" then Some([]) else None
    case _ => None
  }

  /** `obj.get("final")`: None when the key is absent or holds null. */
  function FinalField(fields: map<string, Json>): (f: Option<Json>)
    ensures f.Some? <==> "final" in fields && fields["final"] != JNull
    ensures f.Some? ==> f.value == fields["final"]
  {
    if "final" in fields && fields["final"] != JNull then Some(fields["final"]) else None
  }

  /** The body of the `try` after decoding; None when it raises. */
  function DecodePlan(obj: Json): Option<Plan> {
    if !obj.JObj? then None
    else
      match CallsOf(Get(obj.fields, "tool_calls", JArr([])))
      case None => None
      case Some(calls) => Some(Plan(calls, FinalField(obj.fields)))
  }

  /** `parse_tool_plan(text)`, with `decode` standing for `json.loads` (None
      when it raises). Its cases are stated in `ParseToolPlanCases`. */
  function ParseToolPlan(text: string, decode: string -> Option<Json>): Plan {
    match decode(text)
    case None => Fallback(text)
    case Some(obj) => DecodePlan(obj).GetOr(Fallback(text))
  }

  /** The cases of `parse_tool_plan`. */
  lemma ParseToolPlanCases(text: string, decode: string -> Option<Json>)
    ensures var p := ParseToolPlan(text, decode);
      // Undecodable text: no calls, and the whole text is the final answer.
      && (decode(text).None? ==> p == Fallback(text))
      // A top level that is not an object falls back as a whole.
      && (decode(text).Some? && !decode(text).value.JObj? ==> p == Fallback(text))
      // Any call list that cannot be read falls back as a whole: no partial list.
      && (p.calls != [] || p.final != Some(JStr(text)) ==>
            decode(text).Some? && decode(text).value.JObj? &&
            CallsOf(Get(decode(text).value.fields, "tool_calls", JArr([]))) == Some(p.calls))
      // A readable object gives its calls in list order and its "final" value.
      && (decode(text).Some? && decode(text).value.JObj? ==>
            var f := decode(text).value.fields;
            var calls := CallsOf(Get(f, "tool_calls", JArr([])));
            (calls.None? ==> p == Fallback(text)) &&
            (calls.Some? ==> p == Plan(calls.value, FinalField(f))))
  {
  }

  /** ([], None) — the only result that reaches the agent's finalize_fallback
      branch — comes exactly from a decoded object whose "final" is absent or
      null and whose "tool_calls" is absent or an empty list, dict or string. */
  lemma ParseNoCallsNoFinal(text: string, decode: string -> Option<Json>)
    ensures ParseToolPlan(text, decode) == Plan([], None) <==>
      && decode(text).Some?
      && decode(text).value.JObj?
      && FinalField(decode(text).value.fields).None?
      && var f := decode(text).value.fields;
         ("tool_calls" !in f || f["tool_calls"] in {JArr([]), JObj(map[]), JStr("")})
  {
    if decode(text).Some? && decode(text).value.JObj? {
      var f := decode(text).value.fields;
      assert "tool_calls" !in f ==> Get(f, "tool_calls", JArr([])) == JArr([]);
    }
  }

  /** Plain text that does not decode never produces ([], None): it always
      carries itself as the final answer. */
  lemma UndecodableTextIsFinal(text: string, decode: string -> Option<Json>)
    requires decode(text).None?
    ensures ParseToolPlan(text, decode).calls == []
    ensures ParseToolPlan(text, decode).final == Some(JStr(text))
  {
  }

  /** A well-formed call list yields one call per entry, in order, with
      `arguments` defaulting to {}. */
  lemma ParseCallsInOrder(text: string, decode: string -> Option<Json>, items: seq<Json>)
    requires decode(text).Some? && decode(text).value.JObj?
    requires Get(decode(text).value.fields, "tool_calls", JArr([])) == JArr(items)
    requires forall i :: 0 <= i < |items| ==> items[i].JObj? && "name" in items[i].fields
    ensures var p := ParseToolPlan(text, decode);
      && |p.calls| == |items|
      && (forall i :: 0 <= i < |items| ==>
            p.calls[i].name == items[i].fields["name"] &&
            p.calls[i].arguments == Get(items[i].fields, "arguments", JObj(map[])))
      && p.final == FinalField(decode(text).value.fields)
  {
    var cs := ItemCalls(items);
    assert cs.Some?;
    forall i | 0 <= i < |items|
      ensures cs.value[i].name == items[i].fields["name"]
    {
      assert Some(cs.value[i]) == ItemCall(items[i]);
    }
  }

  /** One malformed entry (not a dict, or no "name") discards the whole plan. */
  lemma ParseAllOrNothing(text: string, decode: string -> Option<Json>, items: seq<Json>, k: nat)
    requires decode(text).Some? && decode(text).value.JObj?
    requires Get(decode(text).value.fields, "tool_calls", JArr([])) == JArr(items)
    requires k < |items| && !(items[k].JObj? && "name" in items[k].fields)
    ensures ParseToolPlan(text, decode) == Fallback(text)
  {
    assert ItemCall(items[k]).None?;
  }
}
