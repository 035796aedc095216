/**
 * The record threaded through the agent graph (`AgentState`) and the rule by
 * which a node's returned update is merged into it: `messages` and `insights`
 * are appended (`operator.add`), every other declared key is replaced, and a
 * key the record does not declare is not stored at all.
 */
module AgentState {
  import opened Common
  import opened Metrics
  import opened Insights

  /** One entry of the conversation log. */
  datatype Message =
    | AnalysisNote(stats: Stats)              // the analyze node's summary message
    | Reply(content: string)                  // the language model's raw reply
    | Summary(count: nat, confidence: Tenths) // the format node's closing message

  /** A non-negative rational number. */
  datatype Fraction = Fraction(numerator: nat, denominator: nat) {
    ghost function Value(): real
      requires denominator > 0
    {
      numerator as real / denominator as real
    }
  }

  /** The dict the quality node stores under `quality_metrics`. */
  datatype QualityMetrics = QualityMetrics(
    insightCount: nat,
    avgLength: Fraction,
    confidence: Tenths,
    hasActionableItems: bool)

  /** A value stored in the `current_analysis` dict. */
  datatype Entry =
    | TotalMetrics(count: nat)
    | CategoryNames(names: set<string>)
    | ValueRanges(min: real, max: real)
    | PatternLabels(patterns: seq<Pattern>)
    | QualityReport(report: QualityMetrics)

  /** `current_analysis`: a string-keyed bag of derived statistics. */
  type Analysis = map<string, Entry>

  /** The declared keys of `AgentState`. */
  datatype State = State(
    messages: seq<Message>,
    metricsData: seq<Metric>,
    insights: seq<string>,
    currentAnalysis: Analysis,
    confidence: Tenths)

  /** The declared keys a node's returned dict may set; `None` leaves a key as it was. */
  datatype Update = Update(
    messages: seq<Message>,
    insights: seq<string>,
    currentAnalysis: Option<Analysis>,
    confidence: Option<Tenths>)

  /** The state a run starts from: the metrics, everything else empty or zero. */
  function Initial(metrics: seq<Metric>): (s: State)
    ensures s.metricsData == metrics
    ensures s.messages == [] && s.insights == [] && s.currentAnalysis == map[] && s.confidence == 0
  {
    State([], metrics, [], map[], 0)
  }

  /** The update that changes nothing. */
  const NoChange := Update([], [], None, None)

  /** Merges a node's update into the state. */
  function Apply(s: State, u: Update): (t: State)
    ensures s.messages <= t.messages && t.messages[|s.messages|..] == u.messages
    ensures s.insights <= t.insights && t.insights[|s.insights|..] == u.insights
    ensures t.metricsData == s.metricsData
    ensures u.currentAnalysis.None? ==> t.currentAnalysis == s.currentAnalysis
    ensures u.currentAnalysis.Some? ==> t.currentAnalysis == u.currentAnalysis.value
    ensures u.confidence.None? ==> t.confidence == s.confidence
    ensures u.confidence.Some? ==> t.confidence == u.confidence.value
  {
    State(
      s.messages + u.messages,
      s.metricsData,
      s.insights + u.insights,
      u.currentAnalysis.GetOr(s.currentAnalysis),
      u.confidence.GetOr(s.confidence))
  }

  /** Merging the empty update is the identity. */
  lemma ApplyNoChange(s: State)
    ensures Apply(s, NoChange) == s
  {
  }

  /** Two consecutive merges append both updates' lists in order, and the
      later replacement wins. */
  lemma {:induction false} ApplyTwice(s: State, u: Update, v: Update)
    ensures Apply(Apply(s, u), v).messages == s.messages + u.messages + v.messages
    ensures Apply(Apply(s, u), v).insights == s.insights + u.insights + v.insights
    ensures v.confidence.Some? ==> Apply(Apply(s, u), v).confidence == v.confidence.value
  {
    var t := Apply(s, u);
    var w := Apply(t, v);
    assert t.messages == s.messages + u.messages by {
      assert t.messages == t.messages[..|s.messages|] + t.messages[|s.messages|..];
    }
    assert w.messages == t.messages + v.messages by {
      assert w.messages == w.messages[..|t.messages|] + w.messages[|t.messages|..];
    }
    assert t.insights == s.insights + u.insights by {
      assert t.insights == t.insights[..|s.insights|] + t.insights[|s.insights|..];
    }
    assert w.insights == t.insights + v.insights by {
      assert w.insights == w.insights[..|t.insights|] + w.insights[|t.insights|..];
    }
  }
}
