/** The `Atlas` layer of the Atlas v0 demo: the project record, the memory log
    and the architecture graph it holds in memory, and the operations that
    read or update them. Loading and persisting the three JSON files is not
    part of this model; the constructor takes the values as loaded. */
module AtlasLayer {
  import opened Wrappers
  import opened Values
  import opened Text
  import opened Scan = Atlas

  // ---------------------------------------------------------------------
  // Architecture graph

  datatype ArchNode = ArchNode(name: string, kind: string, description: string)
  /** An edge; `relation` is the JSON "label" (a reserved word here). */
  datatype ArchEdge = ArchEdge(source: string, target: string, relation: string)

  /** `arch.json` as `add_arch_node`/`add_arch_edge` write it; a missing
      "nodes" or "edges" list reads as empty. */
  datatype Architecture = Architecture(nodes: seq<ArchNode>, edges: seq<ArchEdge>)

  function NodeLine(n: ArchNode): string {
    "- " + n.name + " (" + n.kind + "): " + n.description
  }

  function EdgeLine(e: ArchEdge): string {
    "- " + e.source + " -> " + e.target + " (" + e.relation + ")"
  }

  function NodesHeader(): string { "Architecture Nodes:" }
  function EdgesHeader(): string { "Architecture Edges:" }
  function NoNodesLine(): string { "- (no nodes registered yet)" }
  function NoEdgesLine(): string { "- (no edges registered yet)" }

  function NodeLines(ns: seq<ArchNode>): (r: seq<string>)
    ensures |r| == |ns|
    ensures forall i :: 0 <= i < |ns| ==> r[i] == NodeLine(ns[i])
  {
    seq(|ns|, i requires 0 <= i < |ns| => NodeLine(ns[i]))
  }

  function EdgeLines(es: seq<ArchEdge>): (r: seq<string>)
    ensures |r| == |es|
    ensures forall i :: 0 <= i < |es| ==> r[i] == EdgeLine(es[i])
  {
    seq(|es|, i requires 0 <= i < |es| => EdgeLine(es[i]))
  }

  /** A header, then the body lines, or a placeholder when there are none. */
  function Section(header: string, body: seq<string>, empty: string): seq<string> {
    [header] + body + (if body == [] then [empty] else [])
  }

  /** The lines `describe_architecture` joins. */
  function ArchLines(a: Architecture): seq<string> {
    Section(NodesHeader(), NodeLines(a.nodes), NoNodesLine())
    + Section(EdgesHeader(), EdgeLines(a.edges), NoEdgesLine())
  }

  // ---------------------------------------------------------------------
  // update_project

  /** `[x.strip() for x in xs if x.strip()]`; `x.strip()` is non-empty
      exactly when `x` is not blank. */
  function CleanItems(xs: seq<string>): seq<string> {
    if xs == [] then []
    else (if !Blank(xs[0]) then [Strip(xs[0])] else []) + CleanItems(xs[1..])
  }

  function Strs(xs: seq<string>): (r: seq<Json>)
    ensures |r| == |xs|
    ensures forall i :: 0 <= i < |xs| ==> r[i] == JStr(xs[i])
  {
    seq(|xs|, i requires 0 <= i < |xs| => JStr(xs[i]))
  }

  /** `project.setdefault(key, []).extend(CleanItems(items))`; None when the
      value already under `key` is not a list, which has no `extend`
      (AttributeError). */
  function ExtendKey(project: map<string, Json>, key: string, items: seq<string>): Option<map<string, Json>> {
    var current := Get(project, key, JArr([]));
    if current.JArr? then Some(project[key := JArr(current.items + Strs(CleanItems(items)))])
    else None
  }

  /** `if text: project[key] = text.strip()`. */
  function SetText(project: map<string, Json>, key: string, text: Option<string>): map<string, Json> {
    if text.Some? && text.value != "" then project[key := JStr(Strip(text.value))] else project
  }

  /** The project after `update_project`, and whether it finished without an
      exception. An exception leaves the updates made before it in place. */
  datatype Update = Update(project: map<string, Json>, ok: bool)

  function ProjectAfter(project: map<string, Json>, goals: seq<string>, constraints: seq<string>,
                        arch: Option<string>, conventions: Option<string>): Update
  {
    var p1 := if goals != [] then ExtendKey(project, "goals", goals) else Some(project);
    if p1.None? then Update(project, false)
    else
      var p2 := if constraints != [] then ExtendKey(p1.value, "constraints", constraints) else Some(p1.value);
      if p2.None? then Update(p1.value, false)
      else
        var p3 := SetText(p2.value, "architecture_summary", arch);
        Update(SetText(p3, "coding_conventions", conventions), true)
  }

  /** The keys `update_project` may write. */
  predicate UpdateKey(k: string) {
    k == "goals" || k == "constraints" || k == "architecture_summary" || k == "coding_conventions"
  }

  // ---------------------------------------------------------------------
  // goal_validation

  /** What `for goal in project.get("goals", [])` iterates over: the strings
      of a list of strings, or the characters of a string; None where the
      loop or `tokenize` raises a TypeError, and for a dict (see README). */
  function GoalTexts(project: map<string, Json>): Option<seq<string>> {
    match Get(project, "goals", JArr([]))
    case JArr(items) =>
      if forall i :: 0 <= i < |items| ==> items[i].JStr?
      then Some(seq(|items|, i requires 0 <= i < |items| && items[i].JStr? => items[i].s))
      else None
    case JStr(s) => Some(seq(|s|, i requires 0 <= i < |s| => [s[i]]))
    case _ => None
  }

  /** `set(tokenize(response)) & set(tokenize(goal))` is non-empty. */
  predicate SharesToken(response: string, goal: string) {
    exists t :: t in Tokenize(response) && t in Tokenize(goal)
  }

  // ---------------------------------------------------------------------
  // list_memory

  /** Python's start index of `xs[i:]` for a list of length `n`. */
  function SliceStart(i: int, n: nat): (s: nat)
    ensures s <= n
  {
    if i < 0 then (if n + i < 0 then 0 else n + i)
    else if i > n then n
    else i
  }

  class Atlas {
    var project: map<string, Json>
    var memory: seq<Json>
    var architecture: Architecture

    /** `Atlas(storage)` after `reload`: the three files as loaded. */
    constructor(project: map<string, Json>, memory: seq<Json>, architecture: Architecture)
      ensures this.project == project && this.memory == memory && this.architecture == architecture
    {
      this.project := project;
      this.memory := memory;
      this.architecture := architecture;
    }

    /** `list_memory(limit)`: `memory[-limit:]`, the last `limit` entries; a
        zero limit gives the whole log and a negative one drops the first
        `-limit` entries. */
    function ListMemory(limit: int): (r: seq<Json>)
      reads this
      ensures |r| <= |memory| && r == memory[|memory| - |r|..]
      ensures limit > 0 ==> |r| == (if limit < |memory| then limit else |memory|)
      ensures limit == 0 ==> r == memory
      ensures limit < 0 ==> |r| == (if |memory| + limit < 0 then 0 else |memory| + limit)
    {
      memory[SliceStart(-limit, |memory|)..]
    }

    /** `update_project(goals, constraints, architecture_summary,
        coding_conventions)` on the record in memory; `ok` is false when it
        raises. */
    method UpdateProject(goals: seq<string>, constraints: seq<string>,
                         arch: Option<string>, conventions: Option<string>) returns (ok: bool)
      modifies this
      ensures Update(project, ok) == ProjectAfter(old(project), goals, constraints, arch, conventions)
      ensures memory == old(memory) && architecture == old(architecture)
    {
      if goals != [] {
        var extended := ExtendKey(project, "goals", goals);
        if extended.None? {
          return false;
        }
        project := extended.value;
      }
      if constraints != [] {
        var extended := ExtendKey(project, "constraints", constraints);
        if extended.None? {
          return false;
        }
        project := extended.value;
      }
      project := SetText(project, "architecture_summary", arch);
      project := SetText(project, "coding_conventions", conventions);
      ok := true;
    }

    /** `describe_architecture()`: the header, one line per node or the
        placeholder, then the same for edges, joined by newlines. */
    method DescribeArchitecture() returns (text: string)
      ensures text == Join("\n", ArchLines(architecture))
    {
      var nodes := architecture.nodes;
      var edges := architecture.edges;
      var front := [NodesHeader()];
      for i := 0 to |nodes|
        invariant front == [NodesHeader()] + NodeLines(nodes[..i])
      {
        assert NodeLines(nodes[..i + 1]) == NodeLines(nodes[..i]) + [NodeLine(nodes[i])];
        front := front + [NodeLine(nodes[i])];
      }
      assert nodes[..|nodes|] == nodes;
      if nodes == [] {
        front := front + [NoNodesLine()];
      }
      assert front == Section(NodesHeader(), NodeLines(nodes), NoNodesLine());
      var back := [EdgesHeader()];
      for i := 0 to |edges|
        invariant back == [EdgesHeader()] + EdgeLines(edges[..i])
      {
        assert EdgeLines(edges[..i + 1]) == EdgeLines(edges[..i]) + [EdgeLine(edges[i])];
        back := back + [EdgeLine(edges[i])];
      }
      assert edges[..|edges|] == edges;
      if edges == [] {
        back := back + [NoEdgesLine()];
      }
      assert back == Section(EdgesHeader(), EdgeLines(edges), NoEdgesLine());
      text := Join("\n", front + back);
    }

    /** `goal_validation(response)`: each goal maps to whether it shares a
        token with the response; None where the loop raises. */
    method GoalValidation(response: string) returns (results: Option<map<string, bool>>)
      ensures results.None? <==> GoalTexts(project).None?
      ensures results.Some? ==> results.value.Keys == set g | g in GoalTexts(project).value
      ensures results.Some? ==> forall g :: g in results.value ==> (results.value[g] <==> SharesToken(response, g))
    {
      var goals := GoalTexts(project);
      if goals.None? {
        return None;
      }
      var gs := goals.value;
      var tokens := set t | t in Tokenize(response);
      var m: map<string, bool> := map[];
      for i := 0 to |gs|
        invariant m.Keys == set g | g in gs[..i]
        invariant forall g :: g in m ==> (m[g] <==> SharesToken(response, g))
      {
        var goal := gs[i];
        var goalTokens := set t | t in Tokenize(goal);
        var shared := tokens * goalTokens != {};
        if shared {
          var t :| t in tokens * goalTokens;
          assert t in Tokenize(response) && t in Tokenize(goal);
        }
        if SharesToken(response, goal) {
          var t :| t in Tokenize(response) && t in Tokenize(goal);
          assert t in tokens * goalTokens;
        }
        m := m[goal := shared];
        assert gs[..i + 1] == gs[..i] + [goal];
      }
      assert gs[..|gs|] == gs;
      results := Some(m);
    }
  }

  // ---------------------------------------------------------------------
  // Properties

  /** Every cleaned item is non-empty and has no whitespace at either end
      (so `Strip` leaves it unchanged, by `TrimmedFixed`), and there are no
      more of them than inputs. */
  lemma {:induction false} CleanItemsStripped(xs: seq<string>)
    ensures |CleanItems(xs)| <= |xs|
    ensures forall x :: x in CleanItems(xs) ==> Trimmed(x)
  {
    if xs != [] {
      var rest := CleanItems(xs[1..]);
      CleanItemsStripped(xs[1..]);
      if !Blank(xs[0]) {
        assert CleanItems(xs) == [Strip(xs[0])] + rest;
      } else {
        assert CleanItems(xs) == rest;
      }
    }
  }

  /** A string is a cleaned item exactly when it is the stripped form of a
      non-blank input. */
  lemma {:induction false} CleanItemsMembers(xs: seq<string>)
    ensures forall x :: x in CleanItems(xs) <==> exists i :: 0 <= i < |xs| && !Blank(xs[i]) && x == Strip(xs[i])
  {
    if xs != [] {
      var rest := xs[1..];
      CleanItemsMembers(rest);
      var r := CleanItems(xs);
      assert r == (if !Blank(xs[0]) then [Strip(xs[0])] else []) + CleanItems(rest);
      forall x ensures x in r <==> exists i :: 0 <= i < |xs| && !Blank(xs[i]) && x == Strip(xs[i]) {
        if x in CleanItems(rest) {
          var i :| 0 <= i < |rest| && !Blank(rest[i]) && x == Strip(rest[i]);
          assert xs[i + 1] == rest[i];
        }
        if exists i :: 0 <= i < |xs| && !Blank(xs[i]) && x == Strip(xs[i]) {
          var i :| 0 <= i < |xs| && !Blank(xs[i]) && x == Strip(xs[i]);
          if i > 0 {
            assert rest[i - 1] == xs[i];
          }
        }
      }
    }
  }

  lemma {:induction false} CleanItemsConcat(a: seq<string>, b: seq<string>)
    ensures CleanItems(a + b) == CleanItems(a) + CleanItems(b)
  {
    if a != [] {
      assert (a + b)[1..] == a[1..] + b;
      CleanItemsConcat(a[1..], b);
    } else {
      assert a + b == b;
    }
  }

  /** Cleaning cleaned items changes nothing. */
  lemma {:induction false} CleanItemsIdempotent(xs: seq<string>)
    ensures CleanItems(CleanItems(xs)) == CleanItems(xs)
  {
    if xs != [] {
      var head := if !Blank(xs[0]) then [Strip(xs[0])] else [];
      CleanItemsConcat(head, CleanItems(xs[1..]));
      CleanItemsIdempotent(xs[1..]);
      if head != [] {
        StripIdempotent(xs[0]);
        assert CleanItems(head) == head;
      }
    }
  }

  lemma ExtendKeyOther(project: map<string, Json>, key: string, items: seq<string>, k: string)
    requires k != key && ExtendKey(project, key, items).Some?
    ensures var q := ExtendKey(project, key, items).value;
      (k in q <==> k in project) && (k in project ==> q[k] == project[k])
  {
  }

  lemma SetTextOther(project: map<string, Json>, key: string, text: Option<string>, k: string)
    requires k != key
    ensures var q := SetText(project, key, text);
      (k in q <==> k in project) && (k in project ==> q[k] == project[k])
  {
  }

  /** `update_project` writes only its four keys. */
  lemma UpdateKeepsOtherKeys(project: map<string, Json>, goals: seq<string>, constraints: seq<string>,
                             arch: Option<string>, conventions: Option<string>, k: string)
    requires !UpdateKey(k)
    ensures var r := ProjectAfter(project, goals, constraints, arch, conventions).project;
      (k in r <==> k in project) && (k in project ==> r[k] == project[k])
  {
    var p1 := if goals != [] then ExtendKey(project, "goals", goals) else Some(project);
    if p1.Some? {
      if goals != [] { ExtendKeyOther(project, "goals", goals, k); }
      var p2 := if constraints != [] then ExtendKey(p1.value, "constraints", constraints) else Some(p1.value);
      if p2.Some? {
        if constraints != [] { ExtendKeyOther(p1.value, "constraints", constraints, k); }
        var p3 := SetText(p2.value, "architecture_summary", arch);
        SetTextOther(p2.value, "architecture_summary", arch, k);
        SetTextOther(p3, "coding_conventions", conventions, k);
      }
    }
  }

  /** When it finishes, the new goals and constraints come after the ones
      already stored (none when the key was missing). */
  lemma UpdateAppends(project: map<string, Json>, goals: seq<string>, constraints: seq<string>,
                      arch: Option<string>, conventions: Option<string>)
    ensures var r := ProjectAfter(project, goals, constraints, arch, conventions);
      r.ok && goals != [] ==>
        "goals" in r.project && r.project["goals"] == JArr(Get(project, "goals", JArr([])).items + Strs(CleanItems(goals)))
    ensures var r := ProjectAfter(project, goals, constraints, arch, conventions);
      r.ok && constraints != [] ==>
        "constraints" in r.project
        && r.project["constraints"] == JArr(Get(project, "constraints", JArr([])).items + Strs(CleanItems(constraints)))
  {
    var p1 := if goals != [] then ExtendKey(project, "goals", goals) else Some(project);
    if p1.Some? {
      var p2 := if constraints != [] then ExtendKey(p1.value, "constraints", constraints) else Some(p1.value);
      if p2.Some? {
        var p3 := SetText(p2.value, "architecture_summary", arch);
        var p4 := SetText(p3, "coding_conventions", conventions);
        assert ProjectAfter(project, goals, constraints, arch, conventions) == Update(p4, true);
        SetTextOther(p2.value, "architecture_summary", arch, "goals");
        SetTextOther(p3, "coding_conventions", conventions, "goals");
        SetTextOther(p2.value, "architecture_summary", arch, "constraints");
        SetTextOther(p3, "coding_conventions", conventions, "constraints");
        if constraints != [] {
          ExtendKeyOther(p1.value, "constraints", constraints, "goals");
        }
        if goals != [] {
          ExtendKeyOther(project, "goals", goals, "constraints");
        }
      }
    }
  }

  /** When it finishes, a truthy summary or conventions argument is stored
      stripped, and a falsy one leaves the old entry as it was. */
  lemma UpdateTexts(project: map<string, Json>, goals: seq<string>, constraints: seq<string>,
                    arch: Option<string>, conventions: Option<string>)
    ensures var r := ProjectAfter(project, goals, constraints, arch, conventions);
      r.ok && arch.Some? && arch.value != "" ==>
        "architecture_summary" in r.project && r.project["architecture_summary"] == JStr(Strip(arch.value))
    ensures var r := ProjectAfter(project, goals, constraints, arch, conventions);
      r.ok && !(arch.Some? && arch.value != "") ==>
        ("architecture_summary" in r.project <==> "architecture_summary" in project)
        && ("architecture_summary" in project ==> r.project["architecture_summary"] == project["architecture_summary"])
    ensures var r := ProjectAfter(project, goals, constraints, arch, conventions);
      r.ok && conventions.Some? && conventions.value != "" ==>
        "coding_conventions" in r.project && r.project["coding_conventions"] == JStr(Strip(conventions.value))
    ensures var r := ProjectAfter(project, goals, constraints, arch, conventions);
      r.ok && !(conventions.Some? && conventions.value != "") ==>
        ("coding_conventions" in r.project <==> "coding_conventions" in project)
        && ("coding_conventions" in project ==> r.project["coding_conventions"] == project["coding_conventions"])
  {
    var p1 := if goals != [] then ExtendKey(project, "goals", goals) else Some(project);
    if p1.Some? {
      var p2 := if constraints != [] then ExtendKey(p1.value, "constraints", constraints) else Some(p1.value);
      if p2.Some? {
        var p3 := SetText(p2.value, "architecture_summary", arch);
        var p4 := SetText(p3, "coding_conventions", conventions);
        assert ProjectAfter(project, goals, constraints, arch, conventions) == Update(p4, true);
        SetTextOther(p3, "coding_conventions", conventions, "architecture_summary");
        if goals != [] { ExtendKeyOther(project, "goals", goals, "architecture_summary"); }
        if constraints != [] { ExtendKeyOther(p1.value, "constraints", constraints, "architecture_summary"); }
        if goals != [] { ExtendKeyOther(project, "goals", goals, "coding_conventions"); }
        if constraints != [] { ExtendKeyOther(p1.value, "constraints", constraints, "coding_conventions"); }
        SetTextOther(p2.value, "architecture_summary", arch, "coding_conventions");
      }
    }
  }

  /** It raises exactly when it has items to add under a key whose value is
      not a list; a failure on the goals changes nothing, and a failure on
      the constraints keeps the goals already added. */
  lemma UpdateFails(project: map<string, Json>, goals: seq<string>, constraints: seq<string>,
                    arch: Option<string>, conventions: Option<string>)
    ensures var r := ProjectAfter(project, goals, constraints, arch, conventions);
      !r.ok <==> ((goals != [] && !Get(project, "goals", JArr([])).JArr?)
                 || (constraints != [] && !Get(project, "constraints", JArr([])).JArr?))
    ensures goals != [] && !Get(project, "goals", JArr([])).JArr? ==>
      ProjectAfter(project, goals, constraints, arch, conventions) == Update(project, false)
    ensures var r := ProjectAfter(project, goals, constraints, arch, conventions);
      !r.ok && goals != [] && Get(project, "goals", JArr([])).JArr? ==>
        r.project == project["goals" := JArr(Get(project, "goals", JArr([])).items + Strs(CleanItems(goals)))]
  {
  }

  /** With nothing to add and no truthy text, the project stays as it is. */
  lemma UpdateNothing(project: map<string, Json>, arch: Option<string>, conventions: Option<string>)
    requires !(arch.Some? && arch.value != "") && !(conventions.Some? && conventions.value != "")
    ensures ProjectAfter(project, [], [], arch, conventions) == Update(project, true)
  {
  }

  /** One half of the rendering: a header, then the body lines, or the
      placeholder when there are none. */
  lemma SectionShape(header: string, body: seq<string>, empty: string)
    ensures var sec := Section(header, body, empty);
      && |sec| == 1 + (if body == [] then 1 else |body|)
      && sec[0] == header
      && (forall i :: 0 <= i < |body| ==> sec[1 + i] == body[i])
      && (body == [] ==> sec[1] == empty)
  {
  }

  /** The rendered lines: the nodes header, one line per node in order (or
      the placeholder), the edges header, one line per edge in order (or the
      placeholder). */
  lemma TwoSections(h1: string, b1: seq<string>, e1: string, h2: string, b2: seq<string>, e2: string)
    ensures var lines := Section(h1, b1, e1) + Section(h2, b2, e2);
      var n := if b1 == [] then 1 else |b1|;
      && |lines| == 2 + n + (if b2 == [] then 1 else |b2|)
      && lines[0] == h1
      && (forall i :: 0 <= i < |b1| ==> lines[1 + i] == b1[i])
      && (b1 == [] ==> lines[1] == e1)
      && lines[1 + n] == h2
      && (forall j :: 0 <= j < |b2| ==> lines[2 + n + j] == b2[j])
      && (b2 == [] ==> lines[2 + n] == e2)
  {
    var front := Section(h1, b1, e1);
    var back := Section(h2, b2, e2);
    var lines := front + back;
    var n := if b1 == [] then 1 else |b1|;
    SectionShape(h1, b1, e1);
    SectionShape(h2, b2, e2);
    forall i | 0 <= i < |b1| ensures lines[1 + i] == b1[i] {
      assert lines[1 + i] == front[1 + i];
    }
    assert lines[1 + n] == back[0];
    forall j | 0 <= j < |b2| ensures lines[2 + n + j] == b2[j] {
      assert lines[2 + n + j] == back[1 + j];
    }
  }

  lemma SecondSectionAt(h1: string, b1: seq<string>, e1: string, h2: string, b2: seq<string>, e2: string, j: int)
    requires 0 <= j < |b2|
    ensures var lines := Section(h1, b1, e1) + Section(h2, b2, e2);
      var n := if b1 == [] then 1 else |b1|;
      2 + n + j < |lines| && lines[2 + n + j] == b2[j]
  {
    SectionShape(h1, b1, e1);
    SectionShape(h2, b2, e2);
  }

  lemma ArchLinesShape(a: Architecture)
    ensures var lines := ArchLines(a);
      var n := if a.nodes == [] then 1 else |a.nodes|;
      var e := if a.edges == [] then 1 else |a.edges|;
      && |lines| == 2 + n + e
      && lines[0] == NodesHeader()
      && (a.nodes == [] ==> lines[1] == NoNodesLine())
      && lines[1 + n] == EdgesHeader()
      && (a.edges == [] ==> lines[2 + n] == NoEdgesLine())
  {
    TwoSections(NodesHeader(), NodeLines(a.nodes), NoNodesLine(), EdgesHeader(), EdgeLines(a.edges), NoEdgesLine());
  }

  /** Node `i` is rendered on line `1 + i`. */
  lemma ArchNodeLine(a: Architecture, i: int)
    requires 0 <= i < |a.nodes|
    ensures 1 + i < |ArchLines(a)| && ArchLines(a)[1 + i] == NodeLine(a.nodes[i])
  {
    var nodes := NodeLines(a.nodes);
    TwoSections(NodesHeader(), nodes, NoNodesLine(), EdgesHeader(), EdgeLines(a.edges), NoEdgesLine());
    assert ArchLines(a)[1 + i] == nodes[i];
  }

  /** Edge `j` is rendered on line `2 + n + j`, after the node section of
      `1 + n` lines. */
  lemma ArchEdgeLine(a: Architecture, j: int)
    requires 0 <= j < |a.edges|
    ensures var n := if a.nodes == [] then 1 else |a.nodes|;
      2 + n + j < |ArchLines(a)| && ArchLines(a)[2 + n + j] == EdgeLine(a.edges[j])
  {
    var nodes := NodeLines(a.nodes);
    var edges := EdgeLines(a.edges);
    SecondSectionAt(NodesHeader(), nodes, NoNodesLine(), EdgesHeader(), edges, NoEdgesLine(), j);
  }

  /** A node line has a ':' and an edge line a '>', which neither
      placeholder has. */
  lemma PlaceholdersDiffer(n: ArchNode, e: ArchEdge)
    ensures NodeLine(n) != NoNodesLine() && NodeLine(n) != NoEdgesLine()
    ensures EdgeLine(e) != NoNodesLine() && EdgeLine(e) != NoEdgesLine()
  {
    var colon := 2 + |n.name| + 2 + |n.kind| + 1;
    assert NodeLine(n)[colon] == ':';
    assert ':' !in NoNodesLine() && ':' !in NoEdgesLine();
    var arrow := 2 + |e.source| + 2;
    assert EdgeLine(e)[arrow] == '>';
    assert '>' !in NoNodesLine() && '>' !in NoEdgesLine();
  }

  /** Each placeholder line appears exactly when its list is empty. */
  lemma PlaceholderIffEmpty(a: Architecture)
    ensures NoNodesLine() in ArchLines(a) <==> a.nodes == []
    ensures NoEdgesLine() in ArchLines(a) <==> a.edges == []
  {
    var lines := ArchLines(a);
    ArchLinesShape(a);
    var n := if a.nodes == [] then 1 else |a.nodes|;
    assert NodesHeader()[0] == 'A' && EdgesHeader()[0] == 'A' && NoNodesLine()[0] == '-' && NoEdgesLine()[0] == '-';
    assert NoNodesLine()[6] == 'n' && NoEdgesLine()[6] == 'e';
    forall i | 0 <= i < |lines| && (lines[i] == NoNodesLine() || lines[i] == NoEdgesLine())
      ensures (i == 1 && a.nodes == [] && lines[i] == NoNodesLine()) || (i == 2 + n && a.edges == [] && lines[i] == NoEdgesLine())
    {
      if 1 <= i < 1 + |a.nodes| {
        ArchNodeLine(a, i - 1);
        PlaceholdersDiffer(a.nodes[i - 1], ArchEdge("", "", ""));
      } else if 2 + n <= i < 2 + n + |a.edges| {
        ArchEdgeLine(a, i - 2 - n);
        PlaceholdersDiffer(ArchNode("", "", ""), a.edges[i - 2 - n]);
      }
    }
  }

  lemma LowerIdempotent(s: string)
    ensures Lower(Lower(s)) == Lower(s)
  {
  }

  /** The check ignores case: a lower-cased response validates the same goals. */
  lemma SharesTokenIgnoresCase(response: string, goal: string)
    ensures SharesToken(Lower(response), goal) <==> SharesToken(response, goal)
  {
    LowerIdempotent(response);
    assert Tokenize(Lower(response)) == Tokenize(response);
  }

  /** A response that ends by repeating a goal with at least one token
      validates that goal. */
  lemma GoalEchoValidates(prefix: string, goal: string)
    requires Tokenize(goal) != []
    ensures SharesToken(prefix + " " + goal, goal)
  {
    TokenizeSplit(prefix, goal);
    var t := Tokenize(goal)[0];
    assert t in Tokenize(prefix + " " + goal);
  }
}
