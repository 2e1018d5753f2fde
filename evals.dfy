/** The eval framework: eval cases and case sets, a registry of metrics and
    datasets, a runner that applies a predictor to every case and every
    metric to every prediction, and the exact-match example. Predictors and
    metrics are function values; dicts are maps over decoded values. */
module Evals {
  import opened Wrappers
  import opened Values
  import opened Text
  import Tools

  datatype EvalCase = EvalCase(id: string, input: map<string, Json>, expected: map<string, Json>, tags: seq<string>)

  datatype EvalCaseSet = EvalCaseSet(name: string, cases: seq<EvalCase>)

  /** A metric's verdict on one prediction; scores are reals (floats in the
      source). */
  datatype MetricResult = MetricResult(name: string, score: real, details: map<string, Json>)

  /** A metric: its name and `evaluate(output, expected, context)`. */
  datatype Metric = Metric(name: string, evaluate: (map<string, Json>, map<string, Json>, map<string, Json>) -> MetricResult)

  type Predictor = map<string, Json> -> map<string, Json>

  // ---------------------------------------------------------------------
  // Registry

  class Registry {
    var metrics: map<string, Metric>
    var datasets: map<string, EvalCaseSet>

    constructor()
      ensures metrics == map[] && datasets == map[]
    {
      metrics := map[];
      datasets := map[];
    }

    /** `get_metric(name)`; None where the lookup raises KeyError. */
    function GetMetric(name: string): (r: Option<Metric>)
      reads this
      ensures r.Some? <==> name in metrics
      ensures r.Some? ==> r.value == metrics[name]
    {
      if name in metrics then Some(metrics[name]) else None
    }

    /** `get_dataset(name)`; None where the lookup raises KeyError. */
    function GetDataset(name: string): (r: Option<EvalCaseSet>)
      reads this
      ensures r.Some? <==> name in datasets
      ensures r.Some? ==> r.value == datasets[name]
    {
      if name in datasets then Some(datasets[name]) else None
    }

    /** Stores the metric under its name, replacing an earlier one. */
    method RegisterMetric(metric: Metric)
      modifies this
      ensures metrics == old(metrics)[metric.name := metric]
      ensures datasets == old(datasets)
      ensures GetMetric(metric.name) == Some(metric)
      ensures forall n :: n != metric.name ==> GetMetric(n) == old(GetMetric(n))
    {
      metrics := metrics[metric.name := metric];
    }

    /** Stores the dataset under its name, replacing an earlier one. */
    method RegisterDataset(dataset: EvalCaseSet)
      modifies this
      ensures datasets == old(datasets)[dataset.name := dataset]
      ensures metrics == old(metrics)
      ensures GetDataset(dataset.name) == Some(dataset)
      ensures forall n :: n != dataset.name ==> GetDataset(n) == old(GetDataset(n))
    {
      datasets := datasets[dataset.name := dataset];
    }

    /** `sorted(self.metrics.keys())`. */
    method ListMetrics() returns (names: seq<string>)
      ensures StrictlySorted(names)
      ensures |names| == |metrics|
      ensures forall n :: n in names <==> n in metrics
    {
      names := SortedStrings(metrics.Keys);
    }

    /** `sorted(self.datasets.keys())`. */
    method ListDatasets() returns (names: seq<string>)
      ensures StrictlySorted(names)
      ensures |names| == |datasets|
      ensures forall n :: n in names <==> n in datasets
    {
      names := SortedStrings(datasets.Keys);
    }
  }

  // ---------------------------------------------------------------------
  // EvalRunner.run

  datatype EvalRunResult = EvalRunResult(
    dataset: string,
    outputs: map<string, map<string, Json>>,
    metricResults: map<string, seq<MetricResult>>,
    durationMs: int)

  /** `context or {}`. */
  function Context(context: Option<map<string, Json>>): map<string, Json> {
    if context.Some? then context.value else map[]
  }

  function MetricNames(metrics: seq<Metric>): set<string> {
    set i | 0 <= i < |metrics| :: metrics[i].name
  }

  /** `{m.name: [] for m in metrics}`. */
  function EmptyResults(metrics: seq<Metric>): (r: map<string, seq<MetricResult>>)
    ensures r.Keys == MetricNames(metrics)
  {
    map k | k in MetricNames(metrics) :: []
  }

  /** `outputs` after the given cases: each case's prediction under its id,
      a later case replacing an earlier one with the same id. */
  function OutputsOf(predictor: Predictor, cases: seq<EvalCase>): map<string, map<string, Json>> {
    if cases == [] then map[]
    else
      var c := cases[|cases| - 1];
      OutputsOf(predictor, cases[..|cases| - 1])[c.id := predictor(c.input)]
  }

  /** What one case appends to the list of name `k`: one result per metric
      called `k`, in metric order. */
  function CaseResults(k: string, metrics: seq<Metric>, output: map<string, Json>,
                       expected: map<string, Json>, ctx: map<string, Json>): seq<MetricResult>
  {
    if metrics == [] then []
    else
      var m := metrics[|metrics| - 1];
      CaseResults(k, metrics[..|metrics| - 1], output, expected, ctx)
      + (if m.name == k then [m.evaluate(output, expected, ctx)] else [])
  }

  /** The list of name `k` after the given cases. */
  function ResultsFor(k: string, metrics: seq<Metric>, predictor: Predictor, cases: seq<EvalCase>,
                      ctx: map<string, Json>): seq<MetricResult>
  {
    if cases == [] then []
    else
      var c := cases[|cases| - 1];
      ResultsFor(k, metrics, predictor, cases[..|cases| - 1], ctx)
      + CaseResults(k, metrics, predictor(c.input), c.expected, ctx)
  }

  class EvalRunner {
    const predictor: Predictor

    constructor(predictor: Predictor)
      ensures this.predictor == predictor
    {
      this.predictor := predictor;
    }

    /** `run(dataset, metrics, context=context)`; `start` and `stop` are the
        clock readings around the loop. */
    method Run(dataset: EvalCaseSet, metrics: seq<Metric>, context: Option<map<string, Json>>, start: real, stop: real)
      returns (result: EvalRunResult)
      ensures result.dataset == dataset.name
      ensures result.outputs == OutputsOf(predictor, dataset.cases)
      ensures result.metricResults.Keys == MetricNames(metrics)
      ensures forall k :: k in result.metricResults ==>
        result.metricResults[k] == ResultsFor(k, metrics, predictor, dataset.cases, Context(context))
      ensures result.durationMs == Tools.DurationMs(start, stop)
    {
      var ctx := Context(context);
      var cases := dataset.cases;
      var outputs: map<string, map<string, Json>> := map[];
      var metricResults := EmptyResults(metrics);
      for i := 0 to |cases|
        invariant outputs == OutputsOf(predictor, cases[..i])
        invariant metricResults.Keys == MetricNames(metrics)
        invariant forall k :: k in metricResults ==> metricResults[k] == ResultsFor(k, metrics, predictor, cases[..i], ctx)
      {
        var c := cases[i];
        OutputsStep(predictor, cases, i);
        var output := predictor(c.input);
        outputs := outputs[c.id := output];
        metricResults := ScoreCase(metricResults, metrics, output, c.expected, ctx);
        forall k | k in metricResults
          ensures metricResults[k] == ResultsFor(k, metrics, predictor, cases[..i + 1], ctx)
        {
          ResultsStep(k, metrics, predictor, cases, i, ctx);
        }
      }
      assert cases[..|cases|] == cases;
      result := EvalRunResult(dataset.name, outputs, metricResults, Tools.DurationMs(start, stop));
    }
  }

  /** The inner loop of `run`: every metric scores one prediction and its
      result is appended to the list under the metric's name. */
  method ScoreCase(results: map<string, seq<MetricResult>>, metrics: seq<Metric>, output: map<string, Json>,
                   expected: map<string, Json>, ctx: map<string, Json>)
    returns (r: map<string, seq<MetricResult>>)
    requires MetricNames(metrics) <= results.Keys
    ensures r.Keys == results.Keys
    ensures forall k :: k in r ==> r[k] == results[k] + CaseResults(k, metrics, output, expected, ctx)
  {
    r := results;
    assert metrics[..0] == [];
    for j := 0 to |metrics|
      invariant r.Keys == results.Keys
      invariant forall k :: k in r ==> r[k] == results[k] + CaseResults(k, metrics[..j], output, expected, ctx)
    {
      var metric := metrics[j];
      assert metric.name in MetricNames(metrics);
      r := r[metric.name := r[metric.name] + [metric.evaluate(output, expected, ctx)]];
      forall k | k in r
        ensures r[k] == results[k] + CaseResults(k, metrics[..j + 1], output, expected, ctx)
      {
        CaseStep(k, metrics, j, output, expected, ctx);
      }
    }
    assert metrics[..|metrics|] == metrics;
  }

  lemma OutputsStep(predictor: Predictor, cases: seq<EvalCase>, i: int)
    requires 0 <= i < |cases|
    ensures OutputsOf(predictor, cases[..i + 1]) == OutputsOf(predictor, cases[..i])[cases[i].id := predictor(cases[i].input)]
  {
    assert cases[..i + 1][..i] == cases[..i];
  }

  lemma ResultsStep(k: string, metrics: seq<Metric>, predictor: Predictor, cases: seq<EvalCase>, i: int, ctx: map<string, Json>)
    requires 0 <= i < |cases|
    ensures ResultsFor(k, metrics, predictor, cases[..i + 1], ctx)
      == ResultsFor(k, metrics, predictor, cases[..i], ctx) + CaseResults(k, metrics, predictor(cases[i].input), cases[i].expected, ctx)
  {
    assert cases[..i + 1][..i] == cases[..i];
  }

  lemma CaseStep(k: string, metrics: seq<Metric>, j: int, output: map<string, Json>,
                 expected: map<string, Json>, ctx: map<string, Json>)
    requires 0 <= j < |metrics|
    ensures CaseResults(k, metrics[..j + 1], output, expected, ctx)
      == CaseResults(k, metrics[..j], output, expected, ctx)
         + (if metrics[j].name == k then [metrics[j].evaluate(output, expected, ctx)] else [])
  {
    assert metrics[..j + 1][..j] == metrics[..j];
  }

  /** The number of metrics called `k`. */
  function NameCount(k: string, metrics: seq<Metric>): nat {
    if metrics == [] then 0
    else NameCount(k, metrics[..|metrics| - 1]) + (if metrics[|metrics| - 1].name == k then 1 else 0)
  }

  lemma {:induction false} CaseResultsLength(k: string, metrics: seq<Metric>, output: map<string, Json>,
                                             expected: map<string, Json>, ctx: map<string, Json>)
    ensures |CaseResults(k, metrics, output, expected, ctx)| == NameCount(k, metrics)
  {
    if metrics != [] {
      CaseResultsLength(k, metrics[..|metrics| - 1], output, expected, ctx);
    }
  }

  /** Every case adds one result per metric of that name: one for distinct
      names, two when two metrics share a name. */
  lemma {:induction false} ResultsForLength(k: string, metrics: seq<Metric>, predictor: Predictor,
                                            cases: seq<EvalCase>, ctx: map<string, Json>)
    ensures |ResultsFor(k, metrics, predictor, cases, ctx)| == |cases| * NameCount(k, metrics)
  {
    if cases != [] {
      var c := cases[|cases| - 1];
      ResultsForLength(k, metrics, predictor, cases[..|cases| - 1], ctx);
      CaseResultsLength(k, metrics, predictor(c.input), c.expected, ctx);
      assert |cases| * NameCount(k, metrics) == (|cases| - 1) * NameCount(k, metrics) + NameCount(k, metrics);
    }
  }

  /** The one metric called `k` contributes its own verdict. */
  lemma {:induction false} CaseResultsUnique(k: string, metrics: seq<Metric>, j: int, output: map<string, Json>,
                                             expected: map<string, Json>, ctx: map<string, Json>)
    requires 0 <= j < |metrics| && metrics[j].name == k && NameCount(k, metrics) == 1
    ensures CaseResults(k, metrics, output, expected, ctx) == [metrics[j].evaluate(output, expected, ctx)]
  {
    var init := metrics[..|metrics| - 1];
    if j == |metrics| - 1 {
      CaseResultsLength(k, init, output, expected, ctx);
    } else {
      assert init[j] == metrics[j];
      NameCountPositive(k, init, j);
      CaseResultsUnique(k, init, j, output, expected, ctx);
    }
  }

  lemma {:induction false} NameCountPositive(k: string, metrics: seq<Metric>, j: int)
    requires 0 <= j < |metrics| && metrics[j].name == k
    ensures NameCount(k, metrics) >= 1
  {
    if j < |metrics| - 1 {
      assert metrics[..|metrics| - 1][j] == metrics[j];
      NameCountPositive(k, metrics[..|metrics| - 1], j);
    }
  }

  /** With exactly one metric called `k`, its list holds that metric's
      verdict on each case, in case order. */
  lemma {:induction false} ResultsForUnique(k: string, metrics: seq<Metric>, j: int, predictor: Predictor,
                                            cases: seq<EvalCase>, ctx: map<string, Json>)
    requires 0 <= j < |metrics| && metrics[j].name == k && NameCount(k, metrics) == 1
    ensures var rs := ResultsFor(k, metrics, predictor, cases, ctx);
      && |rs| == |cases|
      && forall i :: 0 <= i < |cases| ==>
           rs[i] == metrics[j].evaluate(predictor(cases[i].input), cases[i].expected, ctx)
  {
    if cases != [] {
      var n := |cases| - 1;
      var c := cases[n];
      var init := cases[..n];
      ResultsForUnique(k, metrics, j, predictor, init, ctx);
      CaseResultsUnique(k, metrics, j, predictor(c.input), c.expected, ctx);
      var rs := ResultsFor(k, metrics, predictor, cases, ctx);
      assert rs == ResultsFor(k, metrics, predictor, init, ctx) + [metrics[j].evaluate(predictor(c.input), c.expected, ctx)];
      forall i | 0 <= i < |cases|
        ensures rs[i] == metrics[j].evaluate(predictor(cases[i].input), cases[i].expected, ctx)
      {
        if i < n { assert cases[i] == init[i]; }
      }
    }
  }

  /** `outputs` is keyed by case id. */
  lemma {:induction false} OutputsKeys(predictor: Predictor, cases: seq<EvalCase>, id: string)
    ensures id in OutputsOf(predictor, cases) <==> exists i :: 0 <= i < |cases| && cases[i].id == id
  {
    if cases != [] {
      var n := |cases| - 1;
      var init := cases[..n];
      OutputsKeys(predictor, init, id);
      if cases[n].id != id && exists i :: 0 <= i < |cases| && cases[i].id == id {
        var i :| 0 <= i < |cases| && cases[i].id == id;
        assert init[i] == cases[i];
      }
    }
  }

  /** An id holds the prediction of the last case carrying it. */
  lemma {:induction false} OutputsLastWins(predictor: Predictor, cases: seq<EvalCase>, i: int)
    requires 0 <= i < |cases|
    requires forall j :: i < j < |cases| ==> cases[j].id != cases[i].id
    ensures cases[i].id in OutputsOf(predictor, cases)
    ensures OutputsOf(predictor, cases)[cases[i].id] == predictor(cases[i].input)
  {
    var n := |cases| - 1;
    if i < n {
      var init := cases[..n];
      assert init[i] == cases[i];
      OutputsLastWins(predictor, init, i);
    }
  }

  // ---------------------------------------------------------------------
  // examples.py

  /** Python's `==` on decoded values: as structural equality, except that
      a boolean equals the integer it stands for (`True == 1`). */
  predicate PyEqual(a: Json, b: Json) {
    match a
    case JNull => b.JNull?
    case JBool(x) => (b.JBool? && b.b == x) || (b.JNum? && b.n == (if x then 1 else 0))
    case JNum(n) => (b.JNum? && b.n == n) || (b.JBool? && n == (if b.b then 1 else 0))
    case JStr(s) => b.JStr? && b.s == s
    case JArr(xs) => b.JArr? && |xs| == |b.items| && forall i :: 0 <= i < |xs| ==> PyEqual(xs[i], b.items[i])
    case JObj(f) => b.JObj? && f.Keys == b.fields.Keys && forall k :: k in f ==> PyEqual(f[k], b.fields[k])
  }

  /** Python's `==` on two dicts. */
  predicate DictEqual(f: map<string, Json>, g: map<string, Json>) {
    f.Keys == g.Keys && forall k :: k in f ==> PyEqual(f[k], g[k])
  }

  /** Python's `==` holds between equal values. */
  lemma {:induction false} PyEqualReflexive(a: Json)
    ensures PyEqual(a, a)
  {
    match a
    case JArr(xs) =>
      forall i | 0 <= i < |xs| ensures PyEqual(xs[i], xs[i]) {
        PyEqualReflexive(xs[i]);
      }
    case JObj(f) =>
      forall k | k in f ensures PyEqual(f[k], f[k]) {
        PyEqualReflexive(f[k]);
      }
    case _ =>
  }

  lemma DictEqualReflexive(f: map<string, Json>)
    ensures DictEqual(f, f)
  {
    forall k | k in f ensures PyEqual(f[k], f[k]) {
      PyEqualReflexive(f[k]);
    }
  }

  /** `ExactMatchMetric(name).evaluate(output=..., expected=..., context=...)`. */
  function ExactMatchEvaluate(name: string, output: map<string, Json>, expected: map<string, Json>,
                              context: map<string, Json>): (r: MetricResult)
    ensures r.name == name
    ensures r.score == 1.0 <==> DictEqual(output, expected)
    ensures r.score == 0.0 <==> !DictEqual(output, expected)
    ensures "output" in r.details && r.details["output"] == JObj(output)
    ensures "expected" in r.details && r.details["expected"] == JObj(expected)
  {
    MetricResult(name, if DictEqual(output, expected) then 1.0 else 0.0,
                 map["output" := JObj(output), "expected" := JObj(expected)])
  }

  /** The context does not enter the verdict. */
  lemma ExactMatchIgnoresContext(name: string, output: map<string, Json>, expected: map<string, Json>,
                                 c1: map<string, Json>, c2: map<string, Json>)
    ensures ExactMatchEvaluate(name, output, expected, c1) == ExactMatchEvaluate(name, output, expected, c2)
  {
  }

  /** A prediction equal to the expected dict scores 1.0. */
  lemma ExactMatchOfEqual(name: string, output: map<string, Json>, context: map<string, Json>)
    ensures ExactMatchEvaluate(name, output, output, context).score == 1.0
  {
    DictEqualReflexive(output);
  }

  /** `ExactMatchMetric()`: the metric with its default name. */
  function ExactMatchMetric(): (m: Metric)
    ensures m.name == "exact_match"
  {
    Metric("exact_match", (o, e, c) => ExactMatchEvaluate("exact_match", o, e, c))
  }

  /** `dummy_predictor(inputs)`: echoes the "answer" input, None when absent. */
  function DummyPredictor(inputs: map<string, Json>): (r: map<string, Json>)
    ensures r.Keys == {"answer"}
    ensures "answer" in inputs ==> r["answer"] == inputs["answer"]
    ensures "answer" !in inputs ==> r["answer"] == JNull
  {
    map["answer" := Get(inputs, "answer", JNull)]
  }

  /** The toy dataset of `run_example`. */
  function ToyDataset(): EvalCaseSet {
    EvalCaseSet("toy", [
      EvalCase("1", map["answer" := JStr("a")], map["answer" := JStr("a")], []),
      EvalCase("2", map["answer" := JStr("b")], map["answer" := JStr("c")], [])])
  }

  /** On the toy dataset the exact-match list scores case "1" 1.0 and case
      "2" 0.0, and both predictions are kept under their ids. */
  lemma RunExampleScores()
    ensures var cases := ToyDataset().cases;
      var rs := ResultsFor("exact_match", [ExactMatchMetric()], DummyPredictor, cases, map[]);
      && |rs| == 2 && rs[0].score == 1.0 && rs[1].score == 0.0
      && OutputsOf(DummyPredictor, cases) == map["1" := map["answer" := JStr("a")], "2" := map["answer" := JStr("b")]]
  {
    var cases := ToyDataset().cases;
    var metrics := [ExactMatchMetric()];
    assert NameCount("exact_match", metrics) == 1 by {
      assert metrics[..0] == [];
    }
    ResultsForUnique("exact_match", metrics, 0, DummyPredictor, cases, map[]);
    var out1 := DummyPredictor(cases[0].input);
    assert out1 == cases[0].expected;
    ExactMatchOfEqual("exact_match", out1, map[]);
    var out2 := DummyPredictor(cases[1].input);
    assert out2["answer"] == JStr("b") && cases[1].expected["answer"] == JStr("c");
    assert !PyEqual(out2["answer"], cases[1].expected["answer"]);
    assert cases[..1] == [cases[0]] && [cases[0]][..0] == [];
  }
}
