/**
 * The statistics the analyze node computes over the metric batch: record
 * count, distinct categories, value range, and the trend/category pattern
 * labels of `_identify_patterns`.
 */
module Metrics {
  import opened Common

  /** One metric record as the agent receives it: a dict in which `value`
      and `category` may be missing. */
  datatype Metric = Metric(
    id: int,
    name: string,
    value: Option<real>,
    category: Option<string>,
    description: Option<string>)

  /** `metric.get("value", 0)`. */
  function ValueOf(m: Metric): real {
    m.value.GetOr(0.0)
  }

  /** `metric.get("category", "unknown")`. */
  function CategoryOf(m: Metric): string {
    m.category.GetOr("unknown")
  }

  /** The value of every record, in batch order. */
  function Values(metrics: seq<Metric>): (vs: seq<real>)
    ensures |vs| == |metrics|
    ensures forall i :: 0 <= i < |metrics| ==> vs[i] == ValueOf(metrics[i])
  {
    seq(|metrics|, i requires 0 <= i < |metrics| => ValueOf(metrics[i]))
  }

  /** `set(metric.get("category", "unknown") for metric in metrics)`. */
  function Categories(metrics: seq<Metric>): (cs: set<string>)
    ensures forall c :: c in cs <==> exists i :: 0 <= i < |metrics| && CategoryOf(metrics[i]) == c
  {
    set i | 0 <= i < |metrics| :: CategoryOf(metrics[i])
  }

  /** Python's `min` over a non-empty sequence. */
  function MinOf(xs: seq<real>): (m: real)
    requires |xs| > 0
    ensures forall i :: 0 <= i < |xs| ==> m <= xs[i]
    ensures exists i :: 0 <= i < |xs| && m == xs[i]
    decreases |xs|
  {
    if |xs| == 1 then xs[0]
    else
      var rest := MinOf(xs[1..]);
      if xs[0] <= rest then xs[0] else rest
  }

  /** Python's `max` over a non-empty sequence. */
  function MaxOf(xs: seq<real>): (m: real)
    requires |xs| > 0
    ensures forall i :: 0 <= i < |xs| ==> xs[i] <= m
    ensures exists i :: 0 <= i < |xs| && m == xs[i]
    decreases |xs|
  {
    if |xs| == 1 then xs[0]
    else
      var rest := MaxOf(xs[1..]);
      if xs[0] >= rest then xs[0] else rest
  }

  /** The test `_identify_patterns` applies: every adjacent pair is in order. */
  predicate AdjacentNonDecreasing(xs: seq<real>) {
    forall i :: 0 <= i < |xs| - 1 ==> xs[i] <= xs[i + 1]
  }

  predicate AdjacentNonIncreasing(xs: seq<real>) {
    forall i :: 0 <= i < |xs| - 1 ==> xs[i] >= xs[i + 1]
  }

  /** The meaning of a non-decreasing list: every earlier value is at most every later one. */
  predicate Ascending(xs: seq<real>) {
    forall i, j :: 0 <= i < j < |xs| ==> xs[i] <= xs[j]
  }

  predicate Descending(xs: seq<real>) {
    forall i, j :: 0 <= i < j < |xs| ==> xs[i] >= xs[j]
  }

  /** Checking adjacent pairs decides the pairwise ordering. */
  lemma {:induction false} AdjacentAscending(xs: seq<real>)
    ensures AdjacentNonDecreasing(xs) <==> Ascending(xs)
    decreases |xs|
  {
    if |xs| >= 2 && AdjacentNonDecreasing(xs) {
      AdjacentAscending(xs[1..]);
      assert AdjacentNonDecreasing(xs[1..]) by {
        forall i | 0 <= i < |xs[1..]| - 1 ensures xs[1..][i] <= xs[1..][i + 1] {
          assert xs[1..][i] == xs[i + 1] && xs[1..][i + 1] == xs[i + 2];
        }
      }
      forall i, j | 0 <= i < j < |xs| ensures xs[i] <= xs[j] {
        if i > 0 {
          assert xs[1..][i - 1] == xs[i] && xs[1..][j - 1] == xs[j];
        } else {
          assert xs[1..][0] == xs[1] && xs[1..][j - 1] == xs[j];
        }
      }
    }
  }

  lemma {:induction false} AdjacentDescending(xs: seq<real>)
    ensures AdjacentNonIncreasing(xs) <==> Descending(xs)
    decreases |xs|
  {
    if |xs| >= 2 && AdjacentNonIncreasing(xs) {
      AdjacentDescending(xs[1..]);
      assert AdjacentNonIncreasing(xs[1..]) by {
        forall i | 0 <= i < |xs[1..]| - 1 ensures xs[1..][i] >= xs[1..][i + 1] {
          assert xs[1..][i] == xs[i + 1] && xs[1..][i + 1] == xs[i + 2];
        }
      }
      forall i, j | 0 <= i < j < |xs| ensures xs[i] >= xs[j] {
        if i > 0 {
          assert xs[1..][i - 1] == xs[i] && xs[1..][j - 1] == xs[j];
        } else {
          assert xs[1..][0] == xs[1] && xs[1..][j - 1] == xs[j];
        }
      }
    }
  }

  /** The labels `_identify_patterns` can produce. */
  datatype Pattern = IncreasingTrend | DecreasingTrend | SingleCategoryFocus | DiverseCategories {
    /** The label text the source appends. */
    function Label(): string {
      match this
      case IncreasingTrend => "increasing trend"
      case DecreasingTrend => "decreasing trend"
      case SingleCategoryFocus => "single category focus"
      case DiverseCategories => "diverse categories"
    }

    predicate IsTrend() {
      IncreasingTrend? || DecreasingTrend?
    }
  }

  /** `_identify_patterns`: at most one trend label, then at most one category label. */
  function IdentifyPatterns(metrics: seq<Metric>): (ps: seq<Pattern>)
    ensures |ps| <= 2
    ensures forall i :: 0 <= i < |ps| && ps[i].IsTrend() ==> i == 0 && |metrics| > 1
    ensures forall i :: 0 <= i < |ps| && !ps[i].IsTrend() ==> i == |ps| - 1
  {
    var vs := Values(metrics);
    var trend :=
      if |vs| > 1 then
        if AdjacentNonDecreasing(vs) then [IncreasingTrend]
        else if AdjacentNonIncreasing(vs) then [DecreasingTrend]
        else []
      else [];
    var n := |Categories(metrics)|;
    var spread :=
      if n == 1 then [SingleCategoryFocus]
      else if n > 3 then [DiverseCategories]
      else [];
    trend + spread
  }

  /** What each pattern label means about the batch. */
  lemma PatternsMeaning(metrics: seq<Metric>)
    ensures var ps := IdentifyPatterns(metrics);
      var vs := Values(metrics);
      var n := |Categories(metrics)|;
      && |ps| <= 2
      && (forall i, j :: 0 <= i < j < |ps| && ps[i].IsTrend() ==> !ps[j].IsTrend())
      && (forall i, j :: 0 <= i < j < |ps| && ps[j].IsTrend() ==> !ps[i].IsTrend())
      && (IncreasingTrend in ps <==> |vs| > 1 && Ascending(vs))
      && (DecreasingTrend in ps <==> |vs| > 1 && !Ascending(vs) && Descending(vs))
      && (SingleCategoryFocus in ps <==> n == 1)
      && (DiverseCategories in ps <==> n > 3)
  {
    AdjacentAscending(Values(metrics));
    AdjacentDescending(Values(metrics));
  }

  /** A batch whose values are all equal reports an increasing trend. */
  lemma ConstantValuesIncrease(metrics: seq<Metric>)
    requires |metrics| > 1
    requires forall i :: 0 <= i < |metrics| ==> ValueOf(metrics[i]) == ValueOf(metrics[0])
    ensures IncreasingTrend in IdentifyPatterns(metrics)
    ensures DecreasingTrend !in IdentifyPatterns(metrics)
  {
  }

  /** The summary the analyze node stores under `current_analysis`
      (the float average of `value_ranges` is not modelled). */
  datatype Stats = Stats(
    totalMetrics: nat,
    categories: set<string>,
    minValue: real,
    maxValue: real,
    patterns: seq<Pattern>)

  /** Why a node could not complete. */
  datatype AnalysisError = EmptyBatch

  /** The statistics of `_analyze_metrics_node`.  On an empty batch Python's
      `min` raises, which ends the run. */
  function Analyze(metrics: seq<Metric>): (r: Result<Stats, AnalysisError>)
    ensures r.Failure? <==> metrics == []
    ensures r.Success? ==>
      && r.value.totalMetrics == |metrics|
      && (forall c :: c in r.value.categories <==> exists i :: 0 <= i < |metrics| && CategoryOf(metrics[i]) == c)
      && (forall i :: 0 <= i < |metrics| ==> r.value.minValue <= ValueOf(metrics[i]) <= r.value.maxValue)
      && (exists i :: 0 <= i < |metrics| && ValueOf(metrics[i]) == r.value.minValue)
      && (exists i :: 0 <= i < |metrics| && ValueOf(metrics[i]) == r.value.maxValue)
      && r.value.patterns == IdentifyPatterns(metrics)
  {
    if metrics == [] then Failure(EmptyBatch)
    else
      var vs := Values(metrics);
      Success(Stats(|metrics|, Categories(metrics), MinOf(vs), MaxOf(vs), IdentifyPatterns(metrics)))
  }
}
