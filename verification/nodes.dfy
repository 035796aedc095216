/**
 * The four graph nodes of the analytics agent and the conditional-edge
 * function `_should_continue`, each as a pure function from the state to the
 * update it returns.
 */
module Nodes {
  import opened Common
  import opened Text
  import opened Metrics
  import opened Insights
  import opened AgentState

  // Keys of `current_analysis`.
  const TotalMetricsKey := "total_metrics"
  const CategoriesKey := "categories"
  const ValueRangesKey := "value_ranges"
  const PatternsKey := "patterns"
  const QualityMetricsKey := "quality_metrics"
  /** The key the router looks up; no node ever stores it in `current_analysis`. */
  const QualityAcceptableKey := "quality_acceptable"

  /** The keys the analyze node writes. */
  const StatsKeys: set<string> := {TotalMetricsKey, CategoriesKey, ValueRangesKey, PatternsKey}

  /** Every key any node can put in `current_analysis`. */
  const AnalysisKeys: set<string> := StatsKeys + {QualityMetricsKey}

  /** The dict the analyze node stores as `current_analysis`. */
  function AnalysisOf(stats: Stats): (a: Analysis)
    ensures a.Keys == StatsKeys
  {
    map[TotalMetricsKey := TotalMetrics(stats.totalMetrics),
        CategoriesKey := CategoryNames(stats.categories),
        ValueRangesKey := ValueRanges(stats.minValue, stats.maxValue),
        PatternsKey := PatternLabels(stats.patterns)]
  }

  /** `_analyze_metrics_node`: replaces `current_analysis` with the batch
      statistics and logs one message; fails on an empty batch. */
  function AnalyzeNode(s: State): (r: Result<Update, AnalysisError>)
    ensures r.Failure? <==> s.metricsData == []
    ensures r.Success? ==>
      && r.value.insights == []
      && |r.value.messages| == 1
      && r.value.confidence.None?
      && r.value.currentAnalysis.Some?
      && r.value.currentAnalysis.value.Keys == StatsKeys
      && r.value.currentAnalysis.value[TotalMetricsKey] == TotalMetrics(|s.metricsData|)
      && r.value.currentAnalysis.value[CategoriesKey] == CategoryNames(Categories(s.metricsData))
  {
    match Analyze(s.metricsData)
    case Failure(e) => Failure(e)
    case Success(stats) =>
      Success(Update([AnalysisNote(stats)], [], Some(AnalysisOf(stats)), None))
  }

  /** `_generate_insights_node` given the model's reply: appends the extracted
      batch and the reply, and sets the confidence of that batch alone. */
  function GenerateNode(reply: string): (u: Update)
    ensures u.messages == [Reply(reply)]
    ensures |u.insights| <= MaxInsights
    ensures u.currentAnalysis.None?
    ensures u.confidence.Some? && (u.confidence.value == 0 <==> u.insights == [])
    ensures u.confidence.value == Confidence(Extract(reply)) && u.insights == Extract(reply)
  {
    var batch := Extract(reply);
    Update([Reply(reply)], batch, None, Some(Confidence(batch)))
  }

  /** The gate the quality node applies.  A batch it accepts has at least
      three insights and always earns the action-word bonus. */
  predicate Acceptable(insights: seq<string>, confidence: Tenths)
    ensures Acceptable(insights, confidence) ==> |insights| >= 3 && confidence >= 6
    ensures Acceptable(insights, confidence) ==> AnyActionWord(insights) && Confidence(insights) >= 7
  {
    if |insights| >= 3 && confidence >= 6 && AnyActionable(insights) then
      ActionableEarnsBonus(insights);
      true
    else
      false
  }

  /** `avg_length`, kept as an exact fraction: the total length over the
      number of insights, and 0/1 when there are none. */
  function AverageLength(insights: seq<string>): (avg: Fraction)
    ensures avg.denominator > 0
    ensures insights == [] ==> avg.numerator == 0
    ensures insights != [] ==> avg.numerator == TotalLength(insights) && avg.denominator == |insights|
  {
    if insights == [] then Fraction(0, 1) else Fraction(TotalLength(insights), |insights|)
  }

  /** The quality node's mean exceeds 50 exactly when the confidence bonus
      for long insights applies. */
  lemma AverageLengthMatchesBonus(insights: seq<string>)
    requires insights != []
    ensures AverageLength(insights).Value() > 50.0 <==> LongOnAverage(insights)
  {
    var avg := AverageLength(insights);
    QuotientExceeds(avg.numerator, avg.denominator, 50);
  }

  /** For a positive denominator, t/n > k exactly when t > k*n. */
  lemma QuotientExceeds(t: nat, n: nat, k: nat)
    requires n > 0
    ensures t as real / n as real > k as real <==> t > k * n
  {
    var q := t as real / n as real;
    assert q * n as real == t as real;
    assert (k * n) as real == k as real * n as real;
    if q > k as real {
      assert q * n as real > k as real * n as real;
    } else {
      assert q * n as real <= k as real * n as real;
    }
  }

  /** What the quality node returns: an update of declared keys, and the
      `quality_acceptable` flag, which `AgentState` does not declare. */
  datatype QualityOutcome = QualityOutcome(update: Update, acceptable: bool)

  /** `_quality_check_node`: scores the accumulated insights and adds
      `quality_metrics` to `current_analysis`, keeping every other key. */
  function QualityCheckNode(s: State): (r: QualityOutcome)
    ensures r.acceptable <==> |s.insights| >= 3 && s.confidence >= 6 && AnyActionable(s.insights)
    ensures r.update.messages == [] && r.update.insights == [] && r.update.confidence.None?
    ensures r.update.currentAnalysis.Some?
    ensures var a := r.update.currentAnalysis.value;
      && a.Keys == s.currentAnalysis.Keys + {QualityMetricsKey}
      && (forall k :: k in s.currentAnalysis && k != QualityMetricsKey ==> a[k] == s.currentAnalysis[k])
      && a[QualityMetricsKey].QualityReport?
      && a[QualityMetricsKey].report.insightCount == |s.insights|
      && a[QualityMetricsKey].report.confidence == s.confidence
      && a[QualityMetricsKey].report.avgLength == AverageLength(s.insights)
      && a[QualityMetricsKey].report.hasActionableItems == AnyActionable(s.insights)
  {
    var report := QualityMetrics(|s.insights|, AverageLength(s.insights), s.confidence, AnyActionable(s.insights));
    var acceptable := report.insightCount >= 3 && report.confidence >= 6 && report.hasActionableItems;
    QualityOutcome(Update([], [], Some(s.currentAnalysis[QualityMetricsKey := QualityReport(report)]), None), acceptable)
  }

  /** What the format node returns: an update of declared keys, and
      `formatted_insights`, which `AgentState` does not declare. */
  datatype FormatOutcome = FormatOutcome(update: Update, records: seq<InsightRecord>)

  /** `_format_response_node`: one record per accumulated insight and a closing message. */
  function FormatNode(s: State): (r: FormatOutcome)
    ensures |r.records| == |s.insights|
    ensures forall i :: 0 <= i < |s.insights| ==>
      r.records[i] == InsightRecord(i + 1, s.insights[i], Classify(s.insights[i]), s.confidence)
    ensures r.update.messages == [Summary(|s.insights|, s.confidence)]
    ensures r.update.insights == [] && r.update.currentAnalysis.None? && r.update.confidence.None?
  {
    FormatOutcome(Update([Summary(|s.insights|, s.confidence)], [], None, None), FormatRecords(s.insights, s.confidence))
  }

  /** The labels of the conditional edge out of the quality node. */
  datatype Route = Continue | Regenerate | End

  /** `_should_continue` as a function of the flag it reads and the confidence. */
  function ShouldContinue(acceptable: bool, confidence: Tenths): (r: Route)
    ensures r == Continue <==> acceptable && confidence >= 7
    ensures r == Regenerate <==> confidence < 5
    ensures r == End <==> confidence >= 5 && !(acceptable && confidence >= 7)
  {
    if acceptable && confidence >= 7 then Continue
    else if confidence < 5 then Regenerate
    else End
  }

  /** Python truthiness of a stored value. */
  predicate Truthy(e: Entry) {
    match e
    case TotalMetrics(n) => n != 0
    case CategoryNames(names) => names != {}
    case PatternLabels(ps) => ps != []
    case ValueRanges(_, _) => true
    case QualityReport(_) => true
  }

  /** `state["current_analysis"].get("quality_acceptable", False)`: the flag
      the router reads as written.  No node stores `quality_acceptable` in
      `current_analysis`, so it is false whenever the keys are the ones
      nodes write. */
  function FlagAsWritten(a: Analysis): (flag: bool)
    ensures flag ==> QualityAcceptableKey in a && Truthy(a[QualityAcceptableKey])
    ensures a.Keys <= AnalysisKeys ==> !flag
  {
    assert QualityAcceptableKey !in AnalysisKeys;
    if QualityAcceptableKey in a then Truthy(a[QualityAcceptableKey]) else false
  }

  /** With the flag as written the router never chooses `continue`, whatever
      the confidence. */
  lemma AsWrittenNeverContinues(a: Analysis, confidence: Tenths)
    requires a.Keys <= AnalysisKeys
    ensures ShouldContinue(FlagAsWritten(a), confidence) != Continue
  {
  }
}
