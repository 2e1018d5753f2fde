/** The in-memory logic of experiments/atlas_v0/atlas.py: tokenising,
    README first-line extraction, stack detection, the `infer_*` rules, and
    the `Atlas` object's project update, memory listing, architecture
    rendering and goal validation. Reading and writing the `.atlas` files is
    not modelled: an `Atlas` is built from the values those files held. */
module Atlas {
  import opened Wrappers
  import opened Values
  import opened Text

  // ---------------------------------------------------------------------
  // tokenize: re.findall(r"[a-zA-Z]+", text.lower())

  /** Length of the leading run of ASCII letters of `s`. */
  function LetterRun(s: string): (k: nat)
    ensures k <= |s|
    ensures forall i :: 0 <= i < k ==> IsLetter(s[i])
    ensures k < |s| ==> !IsLetter(s[k])
  {
    if s == [] || !IsLetter(s[0]) then 0 else 1 + LetterRun(s[1..])
  }

  /** A non-empty run of ASCII letters. */
  predicate Word(t: string) {
    t != [] && forall j :: 0 <= j < |t| ==> IsLetter(t[j])
  }

  predicate NoUpper(t: string) {
    forall j :: 0 <= j < |t| ==> !('A' <= t[j] <= 'Z')
  }

  /** The maximal runs of ASCII letters of `s`, left to right. */
  function Runs(s: string): seq<string>
    decreases |s|
  {
    if s == [] then []
    else
      var k := LetterRun(s);
      if k == 0 then Runs(s[1..]) else [s[..k]] + Runs(s[k..])
  }

  /** Every run is a word, and it has no upper-case letter when `s` has none. */
  lemma {:induction false} RunsAreWords(s: string)
    ensures forall i :: 0 <= i < |Runs(s)| ==> Word(Runs(s)[i])
    ensures NoUpper(s) ==> forall i :: 0 <= i < |Runs(s)| ==> NoUpper(Runs(s)[i])
    decreases |s|
  {
    if s != [] {
      var k := LetterRun(s);
      if k == 0 {
        RunsAreWords(s[1..]);
      } else {
        RunsAreWords(s[k..]);
      }
    }
  }

  /** `tokenize(text)`: every token is a non-empty run of lower-case letters. */
  function Tokenize(text: string): (tokens: seq<string>)
    ensures forall i :: 0 <= i < |tokens| ==> Word(tokens[i]) && NoUpper(tokens[i])
  {
    RunsAreWords(Lower(text));
    Runs(Lower(text))
  }

  lemma {:induction false} LetterRunAll(w: string)
    requires forall j :: 0 <= j < |w| ==> IsLetter(w[j])
    ensures LetterRun(w) == |w|
  {
    if w != [] {
      LetterRunAll(w[1..]);
    }
  }

  /** A word of letters is one run. */
  lemma RunsOfWord(w: string)
    requires Word(w)
    ensures Runs(w) == [w]
  {
    LetterRunAll(w);
    assert w[..|w|] == w;
    assert w[|w|..] == [];
  }

  lemma {:induction false} LetterRunPrefix(a: string, c: char, b: string)
    requires !IsLetter(c)
    ensures LetterRun(a + [c] + b) == LetterRun(a)
  {
    var s := a + [c] + b;
    if a != [] && IsLetter(a[0]) {
      assert s[1..] == a[1..] + [c] + b;
      LetterRunPrefix(a[1..], c, b);
    } else if a != [] {
      assert s[0] == a[0];
    } else {
      assert s[0] == c;
    }
  }

  lemma RunsSkip(s: string)
    requires s != [] && !IsLetter(s[0])
    ensures Runs(s) == Runs(s[1..])
  {
  }

  lemma RunsTake(s: string, k: nat)
    requires 0 < k <= |s| && k == LetterRun(s)
    ensures Runs(s) == [s[..k]] + Runs(s[k..])
  {
  }

  /** A non-letter splits the runs: the runs of `a + [c] + b` are those of
      `a` followed by those of `b`. With `RunsOfWord` this pins `Runs` down. */
  lemma {:induction false} RunsSplit(a: string, c: char, b: string)
    requires !IsLetter(c)
    ensures Runs(a + [c] + b) == Runs(a) + Runs(b)
    decreases |a|, 1
  {
    var s := a + [c] + b;
    if a == [] {
      assert s == [c] + b && s[1..] == b;
      RunsSkip(s);
    } else {
      LetterRunPrefix(a, c, b);
      if LetterRun(a) == 0 {
        RunsSplitSkip(a, c, b);
      } else {
        RunsSplitTake(a, c, b, LetterRun(a));
      }
    }
  }

  lemma {:induction false} RunsSplitSkip(a: string, c: char, b: string)
    requires !IsLetter(c) && a != [] && LetterRun(a) == 0
    ensures Runs(a + [c] + b) == Runs(a) + Runs(b)
    decreases |a|, 0
  {
    var s := a + [c] + b;
    assert s[0] == a[0];
    assert s[1..] == a[1..] + [c] + b;
    RunsSkip(s);
    RunsSkip(a);
    RunsSplit(a[1..], c, b);
  }

  lemma {:induction false} RunsSplitTake(a: string, c: char, b: string, k: nat)
    requires !IsLetter(c) && 0 < k <= |a| && LetterRun(a) == k
    ensures Runs(a + [c] + b) == Runs(a) + Runs(b)
    decreases |a|, 0
  {
    RunsTakeBefore(a, c, b, k);
    RunsTake(a, k);
    RunsSplit(a[k..], c, b);
  }

  lemma RunsTakeBefore(a: string, c: char, b: string, k: nat)
    requires !IsLetter(c) && 0 < k <= |a| && LetterRun(a) == k
    ensures Runs(a + [c] + b) == [a[..k]] + Runs(a[k..] + [c] + b)
  {
    var s := a + [c] + b;
    LetterRunPrefix(a, c, b);
    assert s[..k] == a[..k];
    assert s[k..] == a[k..] + [c] + b;
    RunsTake(s, k);
  }

  lemma LowerConcat(a: string, b: string)
    ensures Lower(a + b) == Lower(a) + Lower(b)
  {
  }

  /** A space separates tokens: tokenising "a b" tokenises each side. */
  lemma TokenizeSplit(a: string, b: string)
    ensures Tokenize(a + " " + b) == Tokenize(a) + Tokenize(b)
  {
    LowerConcat(a + " ", b);
    LowerConcat(a, " ");
    assert Lower(" ") == " ";
    RunsSplit(Lower(a), ' ', Lower(b));
  }

  // ---------------------------------------------------------------------
  // extract_readme_summary

  /** The ASCII characters `str.splitlines` breaks at. */
  predicate IsLineBreak(c: char) {
    c as int in {10, 11, 12, 13, 28, 29, 30}
  }

  /** Length of the first line of `s`. */
  function LineLen(s: string): (k: nat)
    ensures k <= |s|
    ensures forall i :: 0 <= i < k ==> !IsLineBreak(s[i])
    ensures k < |s| ==> IsLineBreak(s[k])
  {
    if s == [] || IsLineBreak(s[0]) then 0 else 1 + LineLen(s[1..])
  }

  /** `text.splitlines()`: the pieces of `text` between line breaks. Where
      Python gives no line for an empty text or after a final break, and
      one break for "\r\n", this gives an empty line; every such extra line
      is blank. */
  function Lines(text: string): (lines: seq<string>)
    ensures |lines| >= 1
    decreases |text|
  {
    var k := LineLen(text);
    if k == |text| then [text] else [text[..k]] + Lines(text[k + 1..])
  }

  /** The stripped first line of `lines` that is not blank; "" if none. */
  function FirstNonBlank(lines: seq<string>): string {
    if lines == [] then ""
    else if !Blank(lines[0]) then Strip(lines[0])
    else FirstNonBlank(lines[1..])
  }

  /** The summary `extract_readme_summary` returns. */
  function ReadmeSummary(text: string): string {
    FirstNonBlank(Lines(text))
  }

  /** `extract_readme_summary(text)`: the loop over the lines with its early return. */
  method ExtractReadmeSummary(text: string) returns (summary: string)
    ensures summary == ReadmeSummary(text)
  {
    var lines := Lines(text);
    for i := 0 to |lines|
      invariant FirstNonBlank(lines[i..]) == FirstNonBlank(lines)
    {
      var cleaned := Strip(lines[i]);
      FirstNonBlankStep(lines, i);
      if cleaned != "" {
        return cleaned;
      }
    }
    assert lines[|lines|..] == [];
    return "";
  }

  /** One iteration of the loop over the lines. */
  lemma FirstNonBlankStep(lines: seq<string>, i: int)
    requires 0 <= i < |lines|
    ensures Blank(lines[i]) ==> FirstNonBlank(lines[i..]) == FirstNonBlank(lines[i + 1..])
    ensures !Blank(lines[i]) ==> FirstNonBlank(lines[i..]) == Strip(lines[i])
  {
    assert lines[i..][0] == lines[i];
    assert lines[i..][1..] == lines[i + 1..];
  }

  predicate AllBlank(lines: seq<string>) {
    forall j :: 0 <= j < |lines| ==> Blank(lines[j])
  }

  /** `FirstNonBlank` is "" exactly when every line is blank. */
  lemma {:induction false} FirstNonBlankEmpty(lines: seq<string>)
    ensures FirstNonBlank(lines) == "" <==> AllBlank(lines)
  {
    if lines != [] && Blank(lines[0]) {
      var rest := lines[1..];
      FirstNonBlankEmpty(rest);
      forall j | 0 <= j < |rest| ensures rest[j] == lines[j + 1] { }
    }
  }

  /** A text with a non-blank line summarises to the stripped first such line. */
  lemma {:induction false} FirstNonBlankIndex(lines: seq<string>)
    requires !AllBlank(lines)
    ensures exists j :: 0 <= j < |lines| && FirstNonBlank(lines) == Strip(lines[j])
                         && (forall i :: 0 <= i < j ==> Blank(lines[i]))
  {
    if Blank(lines[0]) {
      var rest := lines[1..];
      assert !AllBlank(rest) by {
        var k :| 0 <= k < |lines| && !Blank(lines[k]);
        assert rest[k - 1] == lines[k];
      }
      FirstNonBlankIndex(rest);
      var j :| 0 <= j < |rest| && FirstNonBlank(rest) == Strip(rest[j])
        && forall i :: 0 <= i < j ==> Blank(rest[i]);
      BlankLineSkipped(lines, j);
      BlankPrefixShift(lines, j);
    } else {
      assert FirstNonBlank(lines) == Strip(lines[0]);
    }
  }

  /** Behind a blank first line, the summary of the rest at index `j` is the
      summary of the whole at `j + 1`. */
  lemma BlankLineSkipped(lines: seq<string>, j: int)
    requires lines != [] && Blank(lines[0]) && 0 <= j < |lines| - 1
    requires FirstNonBlank(lines[1..]) == Strip(lines[1..][j])
    ensures FirstNonBlank(lines) == Strip(lines[j + 1])
  {
    assert lines[j + 1] == lines[1..][j];
  }

  /** A blank first line followed by `j` blank lines is `j + 1` blank lines. */
  lemma BlankPrefixShift(lines: seq<string>, j: int)
    requires lines != [] && Blank(lines[0]) && 0 <= j < |lines| - 1
    requires forall i :: 0 <= i < j ==> Blank(lines[1..][i])
    ensures forall i :: 0 <= i < j + 1 ==> Blank(lines[i])
  {
    forall i | 0 <= i < j + 1 ensures Blank(lines[i]) {
      if i > 0 {
        assert lines[i] == lines[1..][i - 1];
      }
    }
  }

  /** `FirstNonBlank` is "" exactly when every line is blank, and otherwise it
      is the stripped line at some index with only blank lines before it. */
  lemma FirstNonBlankFinds(lines: seq<string>)
    ensures FirstNonBlank(lines) == "" <==> AllBlank(lines)
    ensures FirstNonBlank(lines) != "" ==>
      exists j :: 0 <= j < |lines| && FirstNonBlank(lines) == Strip(lines[j])
        && forall i :: 0 <= i < j ==> Blank(lines[i])
  {
    FirstNonBlankEmpty(lines);
    if !AllBlank(lines) {
      FirstNonBlankIndex(lines);
    }
  }

  lemma BlankConcat(a: string, b: string)
    ensures Blank(a + b) <==> Blank(a) && Blank(b)
  {
    if Blank(a) && Blank(b) {
      forall i | 0 <= i < |a + b| ensures IsSpace((a + b)[i]) {
        if i >= |a| { assert (a + b)[i] == b[i - |a|]; }
      }
    }
    if Blank(a + b) {
      forall i | 0 <= i < |a| ensures IsSpace(a[i]) {
        assert (a + b)[i] == a[i];
      }
      forall i | 0 <= i < |b| ensures IsSpace(b[i]) {
        assert (a + b)[|a| + i] == b[i];
      }
    }
  }

  /** A text is blank exactly when the parts before and after a line break are. */
  lemma BlankSplit(text: string, k: nat)
    requires k <= |text|
    requires k < |text| ==> IsLineBreak(text[k])
    ensures k < |text| ==> (Blank(text) <==> Blank(text[..k]) && Blank(text[k + 1..]))
    ensures Blank(text) ==> Blank(text[..k])
  {
    assert text == text[..k] + text[k..];
    BlankConcat(text[..k], text[k..]);
    if k < |text| {
      assert text[k..] == [text[k]] + text[k + 1..];
      BlankConcat([text[k]], text[k + 1..]);
    }
  }

  /** No line contains a line break. */
  lemma {:induction false} LinesBreakFree(text: string)
    ensures forall j, c :: 0 <= j < |Lines(text)| && 0 <= c < |Lines(text)[j]| ==> !IsLineBreak(Lines(text)[j][c])
    decreases |text|
  {
    var k := LineLen(text);
    if k < |text| {
      var rest := Lines(text[k + 1..]);
      LinesBreakFree(text[k + 1..]);
      assert Lines(text) == [text[..k]] + rest;
    } else {
      assert text[..k] == text;
      assert Lines(text) == [text];
    }
  }

  /** A text is blank exactly when every one of its lines is. */
  lemma {:induction false} LinesBlank(text: string)
    ensures Blank(text) <==> AllBlank(Lines(text))
    decreases |text|
  {
    var k := LineLen(text);
    if k < |text| {
      var rest := Lines(text[k + 1..]);
      var lines := Lines(text);
      assert lines == [text[..k]] + rest;
      BlankSplit(text, k);
      LinesBlank(text[k + 1..]);
      assert forall j :: 1 <= j < |lines| ==> lines[j] == rest[j - 1];
      if AllBlank(lines) {
        assert Blank(lines[0]);
        forall j | 0 <= j < |rest| ensures Blank(rest[j]) {
          assert rest[j] == lines[j + 1];
        }
      }
      if Blank(text) {
        forall j | 0 <= j < |lines| ensures Blank(lines[j]) {
          if j > 0 { assert lines[j] == rest[j - 1]; }
        }
      }
    } else {
      assert Lines(text) == [text];
      assert [text][0] == text;
      assert AllBlank([text]) <== Blank(text);
    }
  }

  /** The summary is empty exactly when the whole text is blank (every line
      break is whitespace). */
  lemma ReadmeSummaryEmptyIffBlank(text: string)
    ensures ReadmeSummary(text) == "" <==> Blank(text)
  {
    var lines := Lines(text);
    assert ReadmeSummary(text) == FirstNonBlank(lines);
    FirstNonBlankFinds(lines);
    LinesBlank(text);
  }

  // ---------------------------------------------------------------------
  // detect_stack

  /** The texts of the signal files, in the order they were read. */
  function Texts(signals: seq<(string, string)>): (texts: seq<string>)
    ensures |texts| == |signals|
    ensures forall i :: 0 <= i < |signals| ==> texts[i] == signals[i].1
  {
    seq(|signals|, i requires 0 <= i < |signals| => signals[i].1)
  }

  /** Some signal file's text, lower-cased, contains `w`. */
  predicate Mentions(signals: seq<(string, string)>, w: string) {
    exists i :: 0 <= i < |signals| && Contains(Lower(signals[i].1), w)
  }

  /** A keyword occurs in the lower-cased, space-joined texts exactly when
      one file's text mentions it. */
  lemma {:induction false} KeywordInSomeText(texts: seq<string>, w: string)
    requires w != [] && ' ' !in w
    ensures Contains(Lower(Join(" ", texts)), w) <==>
            exists i :: 0 <= i < |texts| && Contains(Lower(texts[i]), w)
  {
    if texts == [] {
      assert !Contains("", w);
    } else if |texts| == 1 {
    } else {
      var rest := texts[1..];
      KeywordInSomeText(rest, w);
      LowerConcat(texts[0] + " ", Join(" ", rest));
      LowerConcat(texts[0], " ");
      assert Lower(" ") == " ";
      ContainsAcrossSpace(Lower(texts[0]), Lower(Join(" ", rest)), w);
      if exists i :: 0 <= i < |rest| && Contains(Lower(rest[i]), w) {
        var i :| 0 <= i < |rest| && Contains(Lower(rest[i]), w);
        assert texts[i + 1] == rest[i];
      }
      if exists i :: 0 <= i < |texts| && Contains(Lower(texts[i]), w) {
        var i :| 0 <= i < |texts| && Contains(Lower(texts[i]), w);
        if i > 0 { assert rest[i - 1] == texts[i]; }
      }
    }
  }

  lemma KeywordMentioned(signals: seq<(string, string)>, w: string)
    requires w != [] && ' ' !in w
    ensures Contains(Lower(Join(" ", Texts(signals))), w) <==> Mentions(signals, w)
  {
    KeywordInSomeText(Texts(signals), w);
  }

  /** `name in signals`: some signal file is called `name`. */
  predicate HasSignal(signals: seq<(string, string)>, name: string) {
    signals != [] && (signals[0].0 == name || HasSignal(signals[1..], name))
  }

  lemma {:induction false} HasSignalFinds(signals: seq<(string, string)>, name: string)
    ensures HasSignal(signals, name) <==> exists i :: 0 <= i < |signals| && signals[i].0 == name
  {
    if signals != [] {
      HasSignalFinds(signals[1..], name);
      if HasSignal(signals[1..], name) {
        var i :| 0 <= i < |signals[1..]| && signals[1..][i].0 == name;
        assert signals[i + 1].0 == name;
      }
      if exists i :: 0 <= i < |signals| && signals[i].0 == name {
        var i :| 0 <= i < |signals| && signals[i].0 == name;
        if i > 0 { assert signals[1..][i - 1].0 == name; }
      }
    }
  }

  /** The technologies `detect_stack` can report, in the order it reports them. */
  datatype Tech = NodeJs | TypeScript | Python | FastAPI | Django | Go | Rust | Java

  /** The label a technology is reported under. */
  function Name(t: Tech): string {
    match t
    case NodeJs => "Node.js"
    case TypeScript => "TypeScript"
    case Python => "Python"
    case FastAPI => "FastAPI"
    case Django => "Django"
    case Go => "Go"
    case Rust => "Rust"
    case Java => "Java"
  }

  function StackOrder(): seq<Tech> { [NodeJs, TypeScript, Python, FastAPI, Django, Go, Rust, Java] }

  /** Position of a technology in `StackOrder()`. */
  function Rank(t: Tech): (k: nat)
    ensures k < |StackOrder()| && StackOrder()[k] == t
  {
    match t
    case NodeJs => 0
    case TypeScript => 1
    case Python => 2
    case FastAPI => 3
    case Django => 4
    case Go => 5
    case Rust => 6
    case Java => 7
  }

  /** What makes each technology apply, stated per technology: a key file is
      present, or some file mentions the framework's name in any letter case. */
  predicate Shows(signals: seq<(string, string)>, t: Tech) {
    match t
    case NodeJs => HasSignal(signals, "package.json")
    case TypeScript => HasSignal(signals, "tsconfig.json") || Mentions(signals, "typescript")
    case Python =>
      HasSignal(signals, "pyproject.toml") || HasSignal(signals, "requirements.txt") || HasSignal(signals, "Pipfile")
    case FastAPI => Mentions(signals, "fastapi")
    case Django => Mentions(signals, "django")
    case Go => HasSignal(signals, "go.mod")
    case Rust => HasSignal(signals, "Cargo.toml")
    case Java =>
      HasSignal(signals, "pom.xml") || HasSignal(signals, "build.gradle") || HasSignal(signals, "build.gradle.kts")
  }

  /** The `k`-th technology of `StackOrder()`. */
  function TechAt(k: nat): (t: Tech)
    requires k < |StackOrder()|
    ensures t == StackOrder()[k] && Rank(t) == k
  {
    if k == 0 then NodeJs
    else if k == 1 then TypeScript
    else if k == 2 then Python
    else if k == 3 then FastAPI
    else if k == 4 then Django
    else if k == 5 then Go
    else if k == 6 then Rust
    else Java
  }

  /** The technologies whose flag is set, in `StackOrder()`: `flags[k]`
      says whether `TechAt(k)` was found. */
  function Picked(flags: seq<bool>): seq<Tech>
    requires |flags| <= |StackOrder()|
  {
    if flags == [] then []
    else
      var k := |flags| - 1;
      Picked(flags[..k]) + (if flags[k] then [TechAt(k)] else [])
  }

  /** `Picked` lists the flagged technologies, once each, in `StackOrder()`. */
  lemma {:induction false} PickedOrdered(flags: seq<bool>)
    requires |flags| <= |StackOrder()|
    ensures forall i :: 0 <= i < |Picked(flags)| ==> Rank(Picked(flags)[i]) < |flags|
    ensures forall i, j :: 0 <= i < j < |Picked(flags)| ==> Rank(Picked(flags)[i]) < Rank(Picked(flags)[j])
    ensures forall t :: t in Picked(flags) <==> Rank(t) < |flags| && flags[Rank(t)]
  {
    if flags != [] {
      var k := |flags| - 1;
      var init := flags[..k];
      PickedOrdered(init);
      var prev := Picked(init);
      var t := TechAt(k);
      var r := Picked(flags);
      assert r == prev + (if flags[k] then [t] else []);
      forall i, j | 0 <= i < j < |r| ensures Rank(r[i]) < Rank(r[j]) {
        if j >= |prev| {
          assert r[j] == t;
          assert r[i] == prev[i];
        } else {
          assert r[i] == prev[i] && r[j] == prev[j];
        }
      }
      forall u ensures u in r <==> Rank(u) < |flags| && flags[Rank(u)] {
        if Rank(u) < k { assert flags[Rank(u)] == init[Rank(u)]; }
      }
    }
  }

  /** `list(dict.fromkeys(xs))`: the first occurrence of each element. */
  function KeepFirst<T(==,!new)>(xs: seq<T>): (r: seq<T>)
    ensures forall x :: x in r <==> x in xs
    ensures forall i, j :: 0 <= i < j < |r| ==> r[i] != r[j]
    ensures (forall i, j :: 0 <= i < j < |xs| ==> xs[i] != xs[j]) ==> r == xs
  {
    if xs == [] then []
    else
      var init := xs[..|xs| - 1];
      var rest := KeepFirst(init);
      assert forall x :: x in xs <==> x in init || x == xs[|xs| - 1];
      if xs[|xs| - 1] in rest then rest else rest + [xs[|xs| - 1]]
  }

  lemma KeywordsShow(signals: seq<(string, string)>, combined: string)
    requires combined == Lower(Join(" ", Texts(signals)))
    ensures (HasSignal(signals, "tsconfig.json") || Contains(combined, "typescript")) == Shows(signals, TypeScript)
    ensures Contains(combined, "fastapi") == Shows(signals, FastAPI)
    ensures Contains(combined, "django") == Shows(signals, Django)
  {
    KeywordMentioned(signals, "typescript");
    KeywordMentioned(signals, "fastapi");
    KeywordMentioned(signals, "django");
  }

  lemma FlagsShow(signals: seq<(string, string)>, flags: seq<bool>,
                  node: bool, typescript: bool, python: bool, fastapi: bool,
                  django: bool, go: bool, rust: bool, java: bool)
    requires flags == [node, typescript, python, fastapi, django, go, rust, java]
    requires node == Shows(signals, NodeJs) && typescript == Shows(signals, TypeScript)
    requires python == Shows(signals, Python) && fastapi == Shows(signals, FastAPI)
    requires django == Shows(signals, Django) && go == Shows(signals, Go)
    requires rust == Shows(signals, Rust) && java == Shows(signals, Java)
    ensures forall k :: 0 <= k < |flags| ==> flags[k] == Shows(signals, TechAt(k))
  {
  }

  /** What `DetectStack` returns from the flags it set. */
  lemma DetectedSpec(signals: seq<(string, string)>, flags: seq<bool>, found: seq<Tech>)
    requires |flags| == |StackOrder()| && found == Picked(flags)
    requires forall k :: 0 <= k < |flags| ==> flags[k] == Shows(signals, TechAt(k))
    ensures forall i, j :: 0 <= i < j < |KeepFirst(found)| ==> Rank(KeepFirst(found)[i]) < Rank(KeepFirst(found)[j])
    ensures forall t :: t in KeepFirst(found) <==> Shows(signals, t)
  {
    PickedOrdered(flags);
    PickedDistinct(flags);
    forall t ensures t in found <==> Shows(signals, t) {
      assert flags[Rank(t)] == Shows(signals, TechAt(Rank(t)));
    }
  }

  /** Removing duplicates leaves `Picked` as it is. */
  lemma PickedDistinct(flags: seq<bool>)
    requires |flags| <= |StackOrder()|
    ensures KeepFirst(Picked(flags)) == Picked(flags)
  {
    var found := Picked(flags);
    PickedOrdered(flags);
    forall i, j | 0 <= i < j < |found| ensures found[i] != found[j] {
      assert Rank(found[i]) < Rank(found[j]);
    }
  }

  lemma PickedSnoc(flags: seq<bool>, b: bool, t: Tech)
    requires |flags| < |StackOrder()| && t == TechAt(|flags|)
    ensures Picked(flags + [b]) == Picked(flags) + (if b then [t] else [])
  {
    assert (flags + [b])[..|flags|] == flags;
  }

  /** The list `detect_stack` builds before removing duplicates: one
      conditional append per technology, in `StackOrder()`. */
  function Appended(node: bool, typescript: bool, python: bool, fastapi: bool,
                    django: bool, go: bool, rust: bool, java: bool): seq<Tech>
  {
    [] + (if node then [NodeJs] else []) + (if typescript then [TypeScript] else [])
       + (if python then [Python] else []) + (if fastapi then [FastAPI] else [])
       + (if django then [Django] else []) + (if go then [Go] else [])
       + (if rust then [Rust] else []) + (if java then [Java] else [])
  }

  /** The flags of `Appended`, collected one append at a time. */
  function FlagSeq(node: bool, typescript: bool, python: bool, fastapi: bool,
                   django: bool, go: bool, rust: bool, java: bool): seq<bool>
  {
    [] + [node] + [typescript] + [python] + [fastapi] + [django] + [go] + [rust] + [java]
  }

  lemma FlagSeqLiteral(node: bool, typescript: bool, python: bool, fastapi: bool,
                       django: bool, go: bool, rust: bool, java: bool)
    ensures FlagSeq(node, typescript, python, fastapi, django, go, rust, java)
         == [node, typescript, python, fastapi, django, go, rust, java]
  {
  }

  lemma AppendedPicked(node: bool, typescript: bool, python: bool, fastapi: bool,
                       django: bool, go: bool, rust: bool, java: bool)
    ensures Appended(node, typescript, python, fastapi, django, go, rust, java)
         == Picked(FlagSeq(node, typescript, python, fastapi, django, go, rust, java))
  {
    var f0: seq<bool> := [];
    var f1 := f0 + [node];
    var f2 := f1 + [typescript];
    var f3 := f2 + [python];
    var f4 := f3 + [fastapi];
    var f5 := f4 + [django];
    var f6 := f5 + [go];
    var f7 := f6 + [rust];
    PickedSnoc(f0, node, NodeJs);
    PickedSnoc(f1, typescript, TypeScript);
    PickedSnoc(f2, python, Python);
    PickedSnoc(f3, fastapi, FastAPI);
    PickedSnoc(f4, django, Django);
    PickedSnoc(f5, go, Go);
    PickedSnoc(f6, rust, Rust);
    PickedSnoc(f7, java, Java);
  }

  lemma AppendedSpec(signals: seq<(string, string)>, combined: string,
                     node: bool, typescript: bool, python: bool, fastapi: bool,
                     django: bool, go: bool, rust: bool, java: bool)
    requires combined == Lower(Join(" ", Texts(signals)))
    requires node == HasSignal(signals, "package.json")
    requires typescript == (HasSignal(signals, "tsconfig.json") || Contains(combined, "typescript"))
    requires python == (HasSignal(signals, "pyproject.toml") || HasSignal(signals, "requirements.txt") || HasSignal(signals, "Pipfile"))
    requires fastapi == Contains(combined, "fastapi") && django == Contains(combined, "django")
    requires go == HasSignal(signals, "go.mod") && rust == HasSignal(signals, "Cargo.toml")
    requires java == (HasSignal(signals, "pom.xml") || HasSignal(signals, "build.gradle") || HasSignal(signals, "build.gradle.kts"))
    ensures forall i, j :: 0 <= i < j < |KeepFirst(Appended(node, typescript, python, fastapi, django, go, rust, java))| ==>
      Rank(KeepFirst(Appended(node, typescript, python, fastapi, django, go, rust, java))[i]) < Rank(KeepFirst(Appended(node, typescript, python, fastapi, django, go, rust, java))[j])
    ensures forall t :: t in KeepFirst(Appended(node, typescript, python, fastapi, django, go, rust, java)) <==> Shows(signals, t)
  {
    var flags := [node, typescript, python, fastapi, django, go, rust, java];
    KeywordsShow(signals, combined);
    FlagSeqLiteral(node, typescript, python, fastapi, django, go, rust, java);
    AppendedPicked(node, typescript, python, fastapi, django, go, rust, java);
    FlagsShow(signals, flags, node, typescript, python, fastapi, django, go, rust, java);
    DetectedSpec(signals, flags, Picked(flags));
  }

  /** `detect_stack(signals)`: the technologies come out distinct and in
      `StackOrder()`, and one is reported exactly when the signals show it. */
  method DetectStack(signals: seq<(string, string)>) returns (stack: seq<Tech>)
    ensures forall i, j :: 0 <= i < j < |stack| ==> Rank(stack[i]) < Rank(stack[j])
    ensures forall t :: t in stack <==> Shows(signals, t)
  {
    var combined := Lower(Join(" ", Texts(signals)));
    var node := HasSignal(signals, "package.json");
    var typescript := HasSignal(signals, "tsconfig.json") || Contains(combined, "typescript");
    var python := HasSignal(signals, "pyproject.toml") || HasSignal(signals, "requirements.txt") || HasSignal(signals, "Pipfile");
    var fastapi := Contains(combined, "fastapi");
    var django := Contains(combined, "django");
    var go := HasSignal(signals, "go.mod");
    var rust := HasSignal(signals, "Cargo.toml");
    var java := HasSignal(signals, "pom.xml") || HasSignal(signals, "build.gradle") || HasSignal(signals, "build.gradle.kts");
    var found := Appended(node, typescript, python, fastapi, django, go, rust, java);
    AppendedSpec(signals, combined, node, typescript, python, fastapi, django, go, rust, java);
    stack := KeepFirst(found);
  }

  // ---------------------------------------------------------------------
  // infer_goals, infer_constraints

  /** `infer_goals(project_name, summary)`: a summary becomes the one goal,
      given a final "." when it lacks one; failing that the project name
      gives the stock goal; failing both there is none. */
  function InferGoals(projectName: string, summary: string): (goals: seq<string>)
    ensures summary != "" ==>
      && |goals| == 1
      && StartsWith(goals[0], summary) && EndsWith(goals[0], ".")
      && |goals[0]| <= |summary| + 1
      && (goals[0] == summary <==> EndsWith(summary, "."))
    ensures summary == "" && projectName != "" ==>
      goals == ["Deliver core features for " + projectName + "."]
    ensures goals == [] <==> summary == "" && projectName == ""
  {
    if summary != "" then
      [if EndsWith(summary, ".") then summary else summary + "."]
    else if projectName != "" then
      ["Deliver core features for " + projectName + "."]
    else []
  }

  /** Feeding an inferred goal back in as the summary gives it back unchanged. */
  lemma InferGoalsIdempotent(projectName: string, summary: string, otherName: string)
    requires InferGoals(projectName, summary) != []
    ensures InferGoals(otherName, InferGoals(projectName, summary)[0]) == InferGoals(projectName, summary)
  {
    var g := InferGoals(projectName, summary)[0];
    assert EndsWith(g, ".");
  }

  /** The label a constraint built by `infer_constraints` names. */
  function ConstraintLabel(c: string): string
    requires |c| >= 20
  {
    c[7..|c| - 13]
  }

  /** `infer_constraints(stack)`: one constraint naming the first technology, or none. */
  function InferConstraints(stack: seq<Tech>): (constraints: seq<string>)
    ensures constraints == [] <==> stack == []
    ensures stack != [] ==>
      && |constraints| == 1
      && StartsWith(constraints[0], "Prefer ")
      && EndsWith(constraints[0], " conventions.")
      && |constraints[0]| == |Name(stack[0])| + 20
      && ConstraintLabel(constraints[0]) == Name(stack[0])
  {
    if stack != [] then ["Prefer " + Name(stack[0]) + " conventions."] else []
  }

  // ---------------------------------------------------------------------
  // infer_architecture, infer_conventions

  /** The first technology of `priority` that is in `stack`. */
  function FirstIn(priority: seq<Tech>, stack: seq<Tech>): Option<Tech> {
    if priority == [] then None
    else if priority[0] in stack then Some(priority[0])
    else FirstIn(priority[1..], stack)
  }

  /** `FirstIn` finds a technology of `priority` present in `stack` whenever
      there is one, and every technology before it is absent. */
  lemma {:induction false} FirstInFinds(priority: seq<Tech>, stack: seq<Tech>)
    ensures FirstIn(priority, stack).None? <==> forall t :: t in priority ==> t !in stack
    ensures FirstIn(priority, stack).Some? ==>
      exists k :: 0 <= k < |priority| && priority[k] == FirstIn(priority, stack).value
        && priority[k] in stack && forall j :: 0 <= j < k ==> priority[j] !in stack
  {
    if priority != [] {
      FirstInFinds(priority[1..], stack);
      if priority[0] !in stack && FirstIn(priority, stack).Some? {
        var k :| 0 <= k < |priority[1..]| && priority[1..][k] == FirstIn(priority, stack).value
          && priority[1..][k] in stack && forall j :: 0 <= j < k ==> priority[1..][j] !in stack;
        assert priority[k + 1] == priority[1..][k];
        forall j | 0 <= j < k + 1 ensures priority[j] !in stack {
          if j > 0 { assert priority[j] == priority[1..][j - 1]; }
        }
      }
      if priority[0] !in stack && FirstIn(priority, stack).None? {
        forall t | t in priority ensures t !in stack {
          if t != priority[0] { assert t in priority[1..]; }
        }
      }
    }
  }

  lemma FirstInCons(h: Tech, rest: seq<Tech>, stack: seq<Tech>)
    ensures FirstIn([h] + rest, stack) == if h in stack then Some(h) else FirstIn(rest, stack)
  {
    assert ([h] + rest)[1..] == rest;
  }

  function ArchPriority(): seq<Tech> {
    [FastAPI, Django, NodeJs, Go, Rust, Java]
  }

  /** The architecture summary suggested for each framework. */
  function ArchText(t: Option<Tech>): string {
    match t
    case Some(FastAPI) => "FastAPI service with REST endpoints."
    case Some(Django) => "Django service with REST endpoints."
    case Some(NodeJs) => "Node.js service exposing REST endpoints."
    case Some(Go) => "Go service exposing REST endpoints."
    case Some(Rust) => "Rust service exposing REST endpoints."
    case Some(Java) => "Java service exposing REST endpoints."
    case _ => ""
  }

  /** `infer_architecture(stack)`. */
  function InferArchitecture(stack: seq<Tech>): string {
    if FastAPI in stack then "FastAPI service with REST endpoints."
    else if Django in stack then "Django service with REST endpoints."
    else if NodeJs in stack then "Node.js service exposing REST endpoints."
    else if Go in stack then "Go service exposing REST endpoints."
    else if Rust in stack then "Rust service exposing REST endpoints."
    else if Java in stack then "Java service exposing REST endpoints."
    else ""
  }

  /** The summary is the one for the highest-priority framework present:
      FastAPI, then Django, Node.js, Go, Rust, Java; "" when none is. */
  lemma {:induction false} InferArchitectureByPriority(stack: seq<Tech>)
    ensures InferArchitecture(stack) == ArchText(FirstIn(ArchPriority(), stack))
  {
    var p5 := [Java];
    var p4 := [Rust] + p5;
    var p3 := [Go] + p4;
    var p2 := [NodeJs] + p3;
    var p1 := [Django] + p2;
    var p0 := [FastAPI] + p1;
    assert ArchPriority() == p0;
    assert p5 == [Java] + [];
    FirstInCons(Java, [], stack);
    FirstInCons(Rust, p5, stack);
    FirstInCons(Go, p4, stack);
    FirstInCons(NodeJs, p3, stack);
    FirstInCons(Django, p2, stack);
    FirstInCons(FastAPI, p1, stack);
    var c := FirstIn(p0, stack);
    if FastAPI in stack {
      assert c == Some(FastAPI);
    } else if Django in stack {
      assert c == Some(Django);
    } else if NodeJs in stack {
      assert c == Some(NodeJs);
    } else if Go in stack {
      assert c == Some(Go);
    } else if Rust in stack {
      assert c == Some(Rust);
    } else if Java in stack {
      assert c == Some(Java);
    } else {
      assert c == None;
    }
  }

  /** No architecture is suggested exactly when no framework with a
      suggestion was detected. */
  lemma InferArchitectureEmpty(stack: seq<Tech>)
    ensures InferArchitecture(stack) == "" <==> forall t :: t in ArchPriority() ==> t !in stack
  {
    InferArchitectureByPriority(stack);
    FirstInFinds(ArchPriority(), stack);
    var c := FirstIn(ArchPriority(), stack);
    if c.Some? {
      assert |ArchText(c)| > 0;
    }
  }

  function ConventionPriority(): seq<Tech> {
    [Python, NodeJs, TypeScript, Go, Rust, Java]
  }

  /** The coding conventions suggested for each language. */
  function ConventionText(t: Option<Tech>): string {
    match t
    case Some(Python) => "snake_case functions, type hints preferred."
    case Some(NodeJs) => "camelCase functions, lint with eslint."
    case Some(TypeScript) => "camelCase functions, lint with eslint."
    case Some(Go) => "gofmt formatting, short functions."
    case Some(Rust) => "rustfmt formatting, clippy for linting."
    case Some(Java) => "camelCase methods, standard formatter."
    case _ => ""
  }

  /** `infer_conventions(stack)`. */
  function InferConventions(stack: seq<Tech>): string {
    if Python in stack then "snake_case functions, type hints preferred."
    else if NodeJs in stack || TypeScript in stack then "camelCase functions, lint with eslint."
    else if Go in stack then "gofmt formatting, short functions."
    else if Rust in stack then "rustfmt formatting, clippy for linting."
    else if Java in stack then "camelCase methods, standard formatter."
    else ""
  }

  /** The conventions are those of the highest-priority language present:
      Python, then Node.js or TypeScript, Go, Rust, Java; "" when none is. */
  lemma {:induction false} InferConventionsByPriority(stack: seq<Tech>)
    ensures InferConventions(stack) == ConventionText(FirstIn(ConventionPriority(), stack))
  {
    var p5 := [Java];
    var p4 := [Rust] + p5;
    var p3 := [Go] + p4;
    var p2 := [TypeScript] + p3;
    var p1 := [NodeJs] + p2;
    var p0 := [Python] + p1;
    assert ConventionPriority() == p0;
    assert p5 == [Java] + [];
    FirstInCons(Java, [], stack);
    FirstInCons(Rust, p5, stack);
    FirstInCons(Go, p4, stack);
    FirstInCons(TypeScript, p3, stack);
    FirstInCons(NodeJs, p2, stack);
    FirstInCons(Python, p1, stack);
    var c := FirstIn(p0, stack);
    if Python in stack {
      assert c == Some(Python);
    } else if NodeJs in stack {
      assert c == Some(NodeJs);
    } else if TypeScript in stack {
      assert c == Some(TypeScript);
    } else if Go in stack {
      assert c == Some(Go);
    } else if Rust in stack {
      assert c == Some(Rust);
    } else if Java in stack {
      assert c == Some(Java);
    } else {
      assert c == None;
    }
  }

  /** No conventions are suggested exactly when no language with
      conventions was detected. */
  lemma InferConventionsEmpty(stack: seq<Tech>)
    ensures InferConventions(stack) == "" <==> forall t :: t in ConventionPriority() ==> t !in stack
  {
    InferConventionsByPriority(stack);
    FirstInFinds(ConventionPriority(), stack);
    var c := FirstIn(ConventionPriority(), stack);
    if c.Some? {
      assert |ConventionText(c)| > 0;
    }
  }
}
