/**
 * The compiled agent graph as a transition function:
 *
 *   analyze_metrics -> generate_insights -> quality_check
 *   quality_check --continue--> format_response -> END
 *   quality_check --regenerate--> generate_insights
 *   quality_check --end--> END
 *
 * The language model is an oracle indexed by call number.  A run is driven
 * by fuel, because nothing in the graph bounds the regenerate loop.
 *
 * `Wiring` selects how the router's flag and the formatted records travel:
 * `AsWritten` follows the code (the router looks the flag up in
 * `current_analysis`, where no node stores it, and `formatted_insights` is
 * not a declared state key); `Intended` routes on the flag the quality node
 * computes and keeps the records the format node produces.
 */
module Workflow {
  import opened Common
  import opened Metrics
  import opened Insights
  import opened AgentState
  import opened Nodes

  datatype Wiring = AsWritten | Intended

  /** Graph positions; `Finished` is LangGraph's END. */
  datatype Node = AnalyzeMetrics | GenerateInsights | QualityCheck | FormatResponse | Finished

  /** A point of a run: the next node, the state, how many model calls were
      made, and the `formatted_insights` visible to the caller. */
  datatype Config = Config(node: Node, state: State, calls: nat, formatted: seq<InsightRecord>)

  /** Why a run returns no final state. */
  datatype RunError =
    | EmptyMetrics     // `min` over an empty batch raises in the analyze node
    | ModelCallFailed  // `llm.invoke` raised; nothing in the graph catches it
    | OutOfFuel        // the run did not reach END within the given number of steps

  /** The language model: the reply to the k-th call, or None when that call raises. */
  type Model = nat -> Option<string>

  function Start(metrics: seq<Metric>): Config {
    Config(AnalyzeMetrics, Initial(metrics), 0, [])
  }

  /** The edge map given to `add_conditional_edges`: `end` goes straight to
      END, bypassing the format node. */
  function Target(r: Route): (n: Node)
    ensures n == FormatResponse <==> r == Continue
    ensures n == GenerateInsights <==> r == Regenerate
    ensures n == Finished <==> r == End
  {
    match r
    case Continue => FormatResponse
    case Regenerate => GenerateInsights
    case End => Finished
  }

  /** The flag the router sees after the quality node ran and its update was merged. */
  function RouterFlag(w: Wiring, q: QualityOutcome, merged: State): bool {
    match w
    case AsWritten => FlagAsWritten(merged.currentAnalysis)
    case Intended => q.acceptable
  }

  /** The analyze node, then the edge to generation. */
  function AnalyzeStep(c: Config): Result<Config, RunError> {
    match AnalyzeNode(c.state)
    case Failure(_) => Failure(EmptyMetrics)
    case Success(u) => Success(c.(node := GenerateInsights, state := Apply(c.state, u)))
  }

  /** The generate node, which makes the next model call, then the edge to the quality node. */
  function GenerateStep(model: Model, c: Config): Result<Config, RunError> {
    match model(c.calls)
    case None => Failure(ModelCallFailed)
    case Some(reply) =>
      Success(c.(node := QualityCheck, state := Apply(c.state, GenerateNode(reply)), calls := c.calls + 1))
  }

  /** The quality node, then the conditional edge chosen by the router: back
      to generation exactly when the confidence is below 0.5, to formatting
      only for a batch the gate accepts with confidence at least 0.7, and
      never to formatting under the code's wiring.  Only the analysis changes. */
  function QualityStep(w: Wiring, c: Config): (d: Config)
    ensures d.node == FormatResponse || d.node == GenerateInsights || d.node == Finished
    ensures d.node == GenerateInsights <==> c.state.confidence < 5
    ensures w == Intended ==>
      (d.node == FormatResponse <==> Acceptable(c.state.insights, c.state.confidence) && c.state.confidence >= 7)
    ensures w == AsWritten && c.state.currentAnalysis.Keys <= AnalysisKeys ==> d.node != FormatResponse
    ensures d.state.currentAnalysis.Keys == c.state.currentAnalysis.Keys + {QualityMetricsKey}
    ensures d.state.messages == c.state.messages && d.state.insights == c.state.insights
    ensures d.state.confidence == c.state.confidence && d.state.metricsData == c.state.metricsData
    ensures d.calls == c.calls && d.formatted == c.formatted
  {
    var q := QualityCheckNode(c.state);
    var merged := Apply(c.state, q.update);
    assert merged.messages == c.state.messages + [];
    assert merged.insights == c.state.insights + [];
    c.(node := Target(ShouldContinue(RouterFlag(w, q, merged), merged.confidence)), state := merged)
  }

  /** The format node, then END: the summary is logged and, under the
      intended wiring, the caller receives one record per accumulated insight,
      numbered from 1; under the code's wiring the records are dropped. */
  function FormatStep(w: Wiring, c: Config): (d: Config)
    ensures d.node == Finished && d.calls == c.calls
    ensures d.state.messages == c.state.messages + [Summary(|c.state.insights|, c.state.confidence)]
    ensures d.state.insights == c.state.insights && d.state.confidence == c.state.confidence
    ensures d.state.currentAnalysis == c.state.currentAnalysis && d.state.metricsData == c.state.metricsData
    ensures w == AsWritten ==> d.formatted == c.formatted
    ensures w == Intended ==>
      && |d.formatted| == |c.state.insights|
      && forall i :: 0 <= i < |d.formatted| ==>
           d.formatted[i].id == i + 1 && d.formatted[i].text == c.state.insights[i]
  {
    var f := FormatNode(c.state);
    var kept := if w == Intended then f.records else c.formatted;
    assert Apply(c.state, f.update).insights == c.state.insights + [];
    c.(node := Finished, state := Apply(c.state, f.update), formatted := kept)
  }

  /** Runs the node at `c.node` and follows the outgoing edge.  END is absorbing. */
  function Step(w: Wiring, model: Model, c: Config): (r: Result<Config, RunError>)
    ensures r.Success? ==> Grows(c, r.value)
    ensures r.Failure? ==>
      || (c.node == AnalyzeMetrics && c.state.metricsData == [] && r.error == EmptyMetrics)
      || (c.node == GenerateInsights && model(c.calls).None? && r.error == ModelCallFailed)
    ensures c.node == AnalyzeMetrics ==> (r.Failure? <==> c.state.metricsData == [])
    ensures c.node == GenerateInsights ==> (r.Failure? <==> model(c.calls).None?)
    ensures c.node == Finished ==> r == Success(c)
  {
    match c.node
    case AnalyzeMetrics => AnalyzeStep(c)
    case GenerateInsights => GenerateStep(model, c)
    case QualityCheck => Success(QualityStep(w, c))
    case FormatResponse => Success(FormatStep(w, c))
    case Finished => Success(c)
  }

  /** A transition of the graph: one step from a configuration. */
  type Transition = Config -> Result<Config, RunError>

  /** The compiled graph under a wiring and a model. */
  function Graph(w: Wiring, model: Model): Transition {
    c => Step(w, model, c)
  }

  /** At most `fuel` transitions, stopping early at END or at the first failure. */
  function Steps(step: Transition, c: Config, fuel: nat): Result<Config, RunError>
    decreases fuel, 0
  {
    if fuel == 0 || c.node == Finished then Success(c) else Advance(step, c, fuel - 1)
  }

  /** One transition from `c`, then at most `more` further ones. */
  function Advance(step: Transition, c: Config, more: nat): Result<Config, RunError>
    decreases more, 1
  {
    match step(c)
    case Failure(e) => Failure(e)
    case Success(next) => Steps(step, next, more)
  }

  /** The result of at most `fuel` transitions: the configuration at END, or
      the failure, or `OutOfFuel` when END was not reached. */
  function Outcome(step: Transition, c: Config, fuel: nat): Result<Config, RunError> {
    match Steps(step, c, fuel)
    case Failure(e) => Failure(e)
    case Success(d) => if d.node == Finished then Success(d) else Failure(OutOfFuel)
  }

  /** One invocation of the graph on a metric batch: a run that returns
      stopped at END with the batch it was given; an empty batch fails in
      the analyze node. */
  function Run(w: Wiring, metrics: seq<Metric>, model: Model, fuel: nat): (r: Result<Config, RunError>)
    ensures r.Success? ==> r.value.node == Finished && r.value.state.metricsData == metrics
    ensures fuel == 0 ==> r == Failure(OutOfFuel)
    ensures fuel > 0 && metrics == [] ==> r == Failure(EmptyMetrics)
  {
    if Steps(Graph(w, model), Start(metrics), fuel).Success? then
      StepsAppendOnly(w, model, Start(metrics), fuel);
      Outcome(Graph(w, model), Start(metrics), fuel)
    else if fuel > 0 && metrics == [] then
      assert Graph(w, model)(Start(metrics)) == Failure(EmptyMetrics);
      assert Steps(Graph(w, model), Start(metrics), fuel) == Advance(Graph(w, model), Start(metrics), fuel - 1);
      Outcome(Graph(w, model), Start(metrics), fuel)
    else
      Outcome(Graph(w, model), Start(metrics), fuel)
  }

  // ---------------------------------------------------------------------------
  // Invariants of a transition system
  // ---------------------------------------------------------------------------

  /** `inv` is kept by every successful transition. */
  ghost predicate Preserves(step: Transition, inv: Config -> bool) {
    forall c {:trigger step(c)} :: inv(c) && step(c).Success? ==> inv(step(c).value)
  }

  /** An invariant kept by every transition holds wherever a run arrives. */
  lemma {:induction false} StepsPreserve(step: Transition, inv: Config -> bool, c: Config, fuel: nat)
    requires Preserves(step, inv) && inv(c)
    requires Steps(step, c, fuel).Success?
    ensures inv(Steps(step, c, fuel).value)
    decreases fuel
  {
    if fuel > 0 && c.node != Finished {
      StepsPreserve(step, inv, step(c).value, fuel - 1);
    }
  }

  /** Under `inv`, transitions never fail and keep `inv`. */
  ghost predicate Progresses(step: Transition, inv: Config -> bool) {
    forall c {:trigger step(c)} :: inv(c) ==> step(c).Success? && inv(step(c).value)
  }

  /** Then a run from an `inv` configuration never fails, and ends in `inv`. */
  lemma {:induction false} StepsProgress(step: Transition, inv: Config -> bool, c: Config, fuel: nat)
    requires Progresses(step, inv) && inv(c)
    ensures Steps(step, c, fuel).Success?
    ensures inv(Steps(step, c, fuel).value)
    decreases fuel
  {
    if fuel > 0 && c.node != Finished {
      StepsProgress(step, inv, step(c).value, fuel - 1);
    }
  }

  /** A run that is not over takes its first transition and continues from there. */
  lemma StepsFrom(step: Transition, c: Config, d: Config, fuel: nat)
    requires fuel > 0 && c.node != Finished && step(c) == Success(d)
    ensures Steps(step, c, fuel) == Steps(step, d, fuel - 1)
  {
  }

  // ---------------------------------------------------------------------------
  // Append-only state
  // ---------------------------------------------------------------------------

  /** From `c` to `d` the message log and the insight list only grew at the
      end, the metric batch is untouched and no model call was taken back. */
  ghost predicate Grows(c: Config, d: Config) {
    && c.state.messages <= d.state.messages
    && c.state.insights <= d.state.insights
    && d.state.metricsData == c.state.metricsData
    && c.calls <= d.calls
  }

  lemma PrefixTransitive<T>(a: seq<T>, b: seq<T>, c: seq<T>)
    requires a <= b && b <= c
    ensures a <= c
  {
    assert a == b[..|a|] && b == c[..|b|];
    assert a == c[..|a|];
  }

  /** Across any number of transitions that each grow the state, the state grows. */
  lemma {:induction false} StepsGrow(step: Transition, c: Config, fuel: nat)
    requires forall d :: step(d).Success? ==> Grows(d, step(d).value)
    requires Steps(step, c, fuel).Success?
    ensures Grows(c, Steps(step, c, fuel).value)
    decreases fuel
  {
    if fuel > 0 && c.node != Finished {
      var next := step(c).value;
      StepsGrow(step, next, fuel - 1);
      var d := Steps(step, c, fuel).value;
      PrefixTransitive(c.state.messages, next.state.messages, d.state.messages);
      PrefixTransitive(c.state.insights, next.state.insights, d.state.insights);
    }
  }

  /** Across a whole run the message log and the insight list only grow at
      the end, and the metric batch is never touched. */
  lemma StepsAppendOnly(w: Wiring, model: Model, c: Config, fuel: nat)
    requires Steps(Graph(w, model), c, fuel).Success?
    ensures Grows(c, Steps(Graph(w, model), c, fuel).value)
  {
    StepsGrow(Graph(w, model), c, fuel);
  }

  // ---------------------------------------------------------------------------
  // The reachable configurations
  // ---------------------------------------------------------------------------

  /** The state holds exactly the batch extracted from the latest model reply,
      and the confidence of that batch. */
  ghost predicate LatestBatch(model: Model, c: Config) {
    && c.calls >= 1
    && model(c.calls - 1).Some?
    && c.state.insights == Extract(model(c.calls - 1).value)
    && c.state.confidence == Confidence(c.state.insights)
  }

  /** The latest batch stays the latest while no call is made and the
      insights and confidence are left alone. */
  lemma LatestBatchKept(model: Model, c: Config, d: Config)
    requires LatestBatch(model, c)
    requires d.calls == c.calls && d.state.insights == c.state.insights && d.state.confidence == c.state.confidence
    ensures LatestBatch(model, d)
  {
  }

  ghost predicate NoSummary(messages: seq<Message>) {
    forall i :: 0 <= i < |messages| ==> !messages[i].Summary?
  }

  /** What holds of every configuration a run on `metrics` can reach, node by node. */
  ghost predicate Reachable(w: Wiring, model: Model, metrics: seq<Metric>, c: Config) {
    && c.state.metricsData == metrics
    && (w == AsWritten ==> c.node != FormatResponse && c.formatted == [] && NoSummary(c.state.messages))
    && match c.node
       case AnalyzeMetrics => c == Start(metrics)
       case GenerateInsights => Analyzed(metrics, c) && c.state.insights == [] && c.formatted == []
       case QualityCheck => Analyzed(metrics, c) && LatestBatch(model, c) && c.formatted == []
       case FormatResponse => Analyzed(metrics, c) && LatestBatch(model, c) && AcceptedForFormat(w, c)
       case Finished => Analyzed(metrics, c) && LatestBatch(model, c) && Delivered(w, c)
  }

  /** The analyze node has run on a non-empty batch. */
  ghost predicate Analyzed(metrics: seq<Metric>, c: Config) {
    metrics != [] && c.state.currentAnalysis.Keys <= AnalysisKeys
  }

  /** At the format node: only under the intended wiring, for an acceptable batch. */
  ghost predicate AcceptedForFormat(w: Wiring, c: Config) {
    w == Intended && c.formatted == [] && Acceptable(c.state.insights, c.state.confidence)
  }

  /** At END: a non-empty batch, formatted exactly when it was accepted under
      the intended wiring. */
  ghost predicate Delivered(w: Wiring, c: Config) {
    && c.state.insights != []
    && c.formatted == Delivery(w, c.state.insights, c.state.confidence)
  }

  /** The records a completed run hands back: those of an accepted batch
      under the intended wiring, and none otherwise. */
  ghost function Delivery(w: Wiring, insights: seq<string>, confidence: Tenths): seq<InsightRecord> {
    if w == Intended && Acceptable(insights, confidence) then FormatRecords(insights, confidence) else []
  }

  lemma StartReachable(w: Wiring, model: Model, metrics: seq<Metric>)
    ensures Reachable(w, model, metrics, Start(metrics))
  {
  }

  /** Appending messages other than the summary keeps the log summary-free. */
  lemma NoSummaryAppend(log: seq<Message>, more: seq<Message>)
    requires NoSummary(log) && NoSummary(more)
    ensures NoSummary(log + more)
  {
    forall i | 0 <= i < |log + more| ensures !(log + more)[i].Summary? {
      if i >= |log| {
        assert (log + more)[i] == more[i - |log|];
      }
    }
  }

  lemma AnalyzeStepReachable(w: Wiring, model: Model, metrics: seq<Metric>, c: Config)
    requires Reachable(w, model, metrics, c) && c.node == AnalyzeMetrics
    requires AnalyzeStep(c).Success?
    ensures Reachable(w, model, metrics, AnalyzeStep(c).value)
  {
    var u := AnalyzeNode(c.state).value;
    var d := AnalyzeStep(c).value;
    assert d == c.(node := GenerateInsights, state := Apply(c.state, u));
    assert d.state.messages == u.messages;
    assert !d.state.messages[0].Summary?;
  }

  /** What the generate step changes: the reply and its batch are appended,
      the confidence is that batch's, and one more model call was made. */
  lemma GenerateStepFields(model: Model, c: Config)
    requires model(c.calls).Some?
    ensures GenerateStep(model, c).Success?
    ensures var d := GenerateStep(model, c).value;
      var reply := model(c.calls).value;
      && d.node == QualityCheck && d.calls == c.calls + 1 && d.formatted == c.formatted
      && d.state.messages == c.state.messages + [Reply(reply)]
      && d.state.insights == c.state.insights + Extract(reply)
      && d.state.confidence == Confidence(Extract(reply))
      && d.state.currentAnalysis == c.state.currentAnalysis
      && d.state.metricsData == c.state.metricsData
  {
    var u := GenerateNode(model(c.calls).value);
    var d := GenerateStep(model, c).value;
    assert d.state == Apply(c.state, u);
    assert d.state.messages == c.state.messages + u.messages;
    assert d.state.insights == c.state.insights + u.insights;
  }

  lemma GenerateStepReachable(w: Wiring, model: Model, metrics: seq<Metric>, c: Config)
    requires Reachable(w, model, metrics, c) && c.node == GenerateInsights
    requires GenerateStep(model, c).Success?
    ensures Reachable(w, model, metrics, GenerateStep(model, c).value)
  {
    assert Analyzed(metrics, c) && c.state.insights == [] && c.formatted == [];
    assert w == AsWritten ==> NoSummary(c.state.messages);
    GenerateStepLatest(model, c);
    GenerateStepKeeps(w, model, metrics, c);
    AtQualityReachable(w, model, metrics, GenerateStep(model, c).value);
  }

  /** From an empty insight list, the generate step leaves exactly the new batch. */
  lemma GenerateStepLatest(model: Model, c: Config)
    requires c.state.insights == [] && GenerateStep(model, c).Success?
    ensures LatestBatch(model, GenerateStep(model, c).value)
  {
    GenerateStepFields(model, c);
    var reply := model(c.calls).value;
    var d := GenerateStep(model, c).value;
    assert d.state.insights == Extract(reply) by {
      assert d.state.insights == [] + Extract(reply);
    }
  }

  /** The generate step moves to the quality node and keeps the analysis, the
      formatted records and the absence of a closing summary. */
  lemma GenerateStepKeeps(w: Wiring, model: Model, metrics: seq<Metric>, c: Config)
    requires GenerateStep(model, c).Success? && Analyzed(metrics, c) && c.state.metricsData == metrics
    requires w == AsWritten ==> NoSummary(c.state.messages)
    ensures var d := GenerateStep(model, c).value;
      && d.node == QualityCheck && d.state.metricsData == metrics && d.formatted == c.formatted
      && Analyzed(metrics, d)
      && (w == AsWritten ==> NoSummary(d.state.messages))
  {
    GenerateStepFields(model, c);
    if w == AsWritten {
      NoSummaryAppend(c.state.messages, [Reply(model(c.calls).value)]);
    }
  }

  /** The conditions for a configuration at the quality node to be reachable. */
  lemma AtQualityReachable(w: Wiring, model: Model, metrics: seq<Metric>, d: Config)
    requires d.node == QualityCheck && d.state.metricsData == metrics && d.formatted == []
    requires Analyzed(metrics, d) && LatestBatch(model, d)
    requires w == AsWritten ==> NoSummary(d.state.messages)
    ensures Reachable(w, model, metrics, d)
  {
  }

  /** The quality node routes to formatting only an acceptable batch, under the intended wiring. */
  lemma QualityToFormatReachable(w: Wiring, model: Model, metrics: seq<Metric>, c: Config)
    requires Reachable(w, model, metrics, c) && c.node == QualityCheck
    requires QualityStep(w, c).node == FormatResponse
    ensures Reachable(w, model, metrics, QualityStep(w, c))
  {
    var d := QualityStep(w, c);
    assert w == Intended && Acceptable(c.state.insights, c.state.confidence);
    LatestBatchKept(model, c, d);
    AtFormatReachable(w, model, metrics, d);
  }

  lemma AtFormatReachable(w: Wiring, model: Model, metrics: seq<Metric>, d: Config)
    requires w == Intended && d.node == FormatResponse && d.state.metricsData == metrics && d.formatted == []
    requires Analyzed(metrics, d) && LatestBatch(model, d) && Acceptable(d.state.insights, d.state.confidence)
    ensures Reachable(w, model, metrics, d)
  {
  }

  /** The quality node sends the run back to generation only for an empty batch. */
  lemma QualityToGenerateReachable(w: Wiring, model: Model, metrics: seq<Metric>, c: Config)
    requires Reachable(w, model, metrics, c) && c.node == QualityCheck
    requires QualityStep(w, c).node == GenerateInsights
    ensures Reachable(w, model, metrics, QualityStep(w, c))
  {
    assert c.state.confidence < 5;
    assert LatestBatch(model, c);
  }

  /** The quality node ends the run on a non-empty batch it did not accept. */
  lemma QualityToEndReachable(w: Wiring, model: Model, metrics: seq<Metric>, c: Config)
    requires Reachable(w, model, metrics, c) && c.node == QualityCheck
    requires QualityStep(w, c).node == Finished
    ensures Reachable(w, model, metrics, QualityStep(w, c))
  {
    assert LatestBatch(model, c) && Analyzed(metrics, c) && c.formatted == [];
    var d := QualityStep(w, c);
    var batch, conf := c.state.insights, c.state.confidence;
    assert conf >= 5;
    if Acceptable(batch, conf) {
      ActionableEarnsBonus(batch);
    }
    assert Delivery(w, batch, conf) == [];
    LatestBatchKept(model, c, d);
    assert Delivered(w, d);
  }

  lemma QualityStepReachable(w: Wiring, model: Model, metrics: seq<Metric>, c: Config)
    requires Reachable(w, model, metrics, c) && c.node == QualityCheck
    ensures Reachable(w, model, metrics, QualityStep(w, c))
  {
    match QualityStep(w, c).node {
      case FormatResponse => QualityToFormatReachable(w, model, metrics, c);
      case GenerateInsights => QualityToGenerateReachable(w, model, metrics, c);
      case Finished => QualityToEndReachable(w, model, metrics, c);
      case _ => assert false;
    }
  }

  lemma FormatStepReachable(w: Wiring, model: Model, metrics: seq<Metric>, c: Config)
    requires Reachable(w, model, metrics, c) && c.node == FormatResponse
    ensures Reachable(w, model, metrics, FormatStep(w, c))
  {
    assert AcceptedForFormat(w, c) && LatestBatch(model, c);
    var d := FormatStep(w, c);
    LatestBatchKept(model, c, d);
    assert Acceptable(d.state.insights, d.state.confidence);
    assert Delivery(w, d.state.insights, d.state.confidence) == FormatRecords(c.state.insights, c.state.confidence);
    assert Delivered(w, d);
  }

  /** Every transition of the graph keeps a configuration reachable. */
  lemma StepReachable(w: Wiring, model: Model, metrics: seq<Metric>, c: Config)
    requires Reachable(w, model, metrics, c)
    requires Step(w, model, c).Success?
    ensures Reachable(w, model, metrics, Step(w, model, c).value)
  {
    match c.node {
      case AnalyzeMetrics => AnalyzeStepReachable(w, model, metrics, c);
      case GenerateInsights => GenerateStepReachable(w, model, metrics, c);
      case QualityCheck => QualityStepReachable(w, model, metrics, c);
      case FormatResponse => FormatStepReachable(w, model, metrics, c);
      case Finished =>
    }
  }

  /** `Reachable` as a predicate on configurations. */
  ghost function ReachableFrom(w: Wiring, model: Model, metrics: seq<Metric>): Config -> bool {
    c => Reachable(w, model, metrics, c)
  }

  lemma GraphPreservesReachable(w: Wiring, model: Model, metrics: seq<Metric>)
    ensures Preserves(Graph(w, model), ReachableFrom(w, model, metrics))
  {
    forall c | Reachable(w, model, metrics, c) && Step(w, model, c).Success?
      ensures Reachable(w, model, metrics, Step(w, model, c).value)
    {
      StepReachable(w, model, metrics, c);
    }
  }

  /** Every completed run ends in a reachable configuration at END. */
  lemma RunReachable(w: Wiring, metrics: seq<Metric>, model: Model, fuel: nat)
    requires Run(w, metrics, model, fuel).Success?
    ensures Run(w, metrics, model, fuel).value.node == Finished
    ensures Reachable(w, model, metrics, Run(w, metrics, model, fuel).value)
  {
    StartReachable(w, model, metrics);
    GraphPreservesReachable(w, model, metrics);
    StepsPreserve(Graph(w, model), ReachableFrom(w, model, metrics), Start(metrics), fuel);
  }

  // ---------------------------------------------------------------------------
  // Consequences
  // ---------------------------------------------------------------------------

  /** As written, a completed run never formats: the router never picks
      `continue`, no closing summary is logged, and the caller sees no records. */
  lemma AsWrittenNeverFormats(metrics: seq<Metric>, model: Model, fuel: nat)
    requires Run(AsWritten, metrics, model, fuel).Success?
    ensures Run(AsWritten, metrics, model, fuel).value.formatted == []
    ensures NoSummary(Run(AsWritten, metrics, model, fuel).value.state.messages)
    ensures Run(AsWritten, metrics, model, fuel).value.state.insights != []
  {
    RunReachable(AsWritten, metrics, model, fuel);
  }

  /** What holds at END under the intended wiring. */
  lemma IntendedDelivery(model: Model, metrics: seq<Metric>, c: Config)
    requires Reachable(Intended, model, metrics, c) && c.node == Finished
    ensures LatestBatch(model, c)
    ensures c.state.insights != []
    ensures c.formatted == Delivery(Intended, c.state.insights, c.state.confidence)
  {
    assert LatestBatch(model, c) && Delivered(Intended, c);
  }

  /** Under the intended wiring the records handed back are one per insight
      of an acceptable batch, and none for any other batch. */
  lemma IntendedRecords(insights: seq<string>, confidence: Tenths)
    ensures Acceptable(insights, confidence) ==>
      && Delivery(Intended, insights, confidence) == FormatRecords(insights, confidence)
      && |Delivery(Intended, insights, confidence)| == |insights| >= 3
    ensures !Acceptable(insights, confidence) ==> Delivery(Intended, insights, confidence) == []
  {
  }

  /** With the intended wiring, a completed run formats exactly the accepted
      batches, and then returns one record per insight. */
  lemma IntendedFormatsAccepted(metrics: seq<Metric>, model: Model, fuel: nat)
    requires Run(Intended, metrics, model, fuel).Success?
    ensures var c := Run(Intended, metrics, model, fuel).value;
      && LatestBatch(model, c)
      && c.state.insights == Extract(model(c.calls - 1).value)
      && c.state.insights != []
      && c.state.confidence == Confidence(c.state.insights)
      && (Acceptable(c.state.insights, c.state.confidence) ==>
            c.formatted == FormatRecords(c.state.insights, c.state.confidence) && |c.formatted| >= 3)
      && (!Acceptable(c.state.insights, c.state.confidence) ==> c.formatted == [])
  {
    RunReachable(Intended, metrics, model, fuel);
    var c := Run(Intended, metrics, model, fuel).value;
    IntendedDelivery(model, metrics, c);
    IntendedRecords(c.state.insights, c.state.confidence);
  }

  /** The quality node's verdict implies the router's confidence threshold:
      an accepted batch always scores at least 0.7, so under the intended
      wiring `continue` is chosen exactly when the batch is acceptable. */
  lemma AcceptedIsConfident(w: Wiring, model: Model, metrics: seq<Metric>, c: Config)
    requires Reachable(w, model, metrics, c) && c.node == QualityCheck
    requires QualityCheckNode(c.state).acceptable
    ensures c.state.confidence >= 7
    ensures w == Intended ==> Step(w, model, c).value.node == FormatResponse
  {
    ActionableEarnsBonus(c.state.insights);
    assert Step(w, model, c) == Success(QualityStep(w, c));
  }

  /** After the quality node, the run loops back to generation exactly when
      the latest model reply yielded no insights. */
  lemma RegenerateIffEmptyBatch(w: Wiring, model: Model, c: Config)
    requires LatestBatch(model, c) && c.state.currentAnalysis.Keys <= AnalysisKeys
    ensures QualityStep(w, c).node == GenerateInsights <==> Extract(model(c.calls - 1).value) == []
  {
    RegenerateIffEmpty(w, c);
  }

  /** The router loops back exactly for an empty batch: the confidence is
      below 0.5 only then. */
  lemma RegenerateIffEmpty(w: Wiring, c: Config)
    requires c.state.currentAnalysis.Keys <= AnalysisKeys
    requires c.state.confidence == Confidence(c.state.insights)
    ensures QualityStep(w, c).node == GenerateInsights <==> c.state.insights == []
  {
  }

  /** The first two transitions: the analysis, then the first model call. */
  lemma FirstCall(w: Wiring, metrics: seq<Metric>, model: Model) returns (c1: Config)
    requires metrics != []
    ensures Graph(w, model)(Start(metrics)) == Success(c1)
    ensures Reachable(w, model, metrics, c1) && c1.node == GenerateInsights && c1.calls == 0
  {
    var c0 := Start(metrics);
    StartReachable(w, model, metrics);
    assert Graph(w, model)(c0) == AnalyzeStep(c0);
    c1 := AnalyzeStep(c0).value;
    AnalyzeStepReachable(w, model, metrics, c0);
  }

  /** A usable first reply ends the run after a single model call. */
  lemma UsableFirstReplyFinishes(w: Wiring, metrics: seq<Metric>, model: Model, fuel: nat)
    requires metrics != [] && fuel >= 4
    requires model(0).Some? && Extract(model(0).value) != []
    ensures Run(w, metrics, model, fuel).Success?
    ensures Run(w, metrics, model, fuel).value.calls == 1
  {
    var g := Graph(w, model);
    var c1 := FirstCall(w, metrics, model);
    StepsFrom(g, Start(metrics), c1, fuel);
    GenerateStepFields(model, c1);
    var c2 := GenerateStep(model, c1).value;
    assert g(c1) == Success(c2);
    GenerateStepReachable(w, model, metrics, c1);
    StepsFrom(g, c1, c2, fuel - 1);
    assert c2.state.insights == Extract(model(0).value) by {
      assert c2.state.insights == [] + Extract(model(0).value);
    }
    QualityThenEnd(w, model, metrics, c2, fuel - 2);
  }

  /** From the quality node with a non-empty batch, the run reaches END
      within two transitions and makes no further model call. */
  lemma QualityThenEnd(w: Wiring, model: Model, metrics: seq<Metric>, c: Config, fuel: nat)
    requires Reachable(w, model, metrics, c) && c.node == QualityCheck
    requires c.state.insights != [] && fuel >= 2
    ensures Steps(Graph(w, model), c, fuel).Success?
    ensures Steps(Graph(w, model), c, fuel).value.node == Finished
    ensures Steps(Graph(w, model), c, fuel).value.calls == c.calls
  {
    var g := Graph(w, model);
    assert LatestBatch(model, c);
    RegenerateIffEmpty(w, c);
    var c3 := QualityStep(w, c);
    assert g(c) == Success(c3);
    StepsFrom(g, c, c3, fuel);
    if c3.node == FormatResponse {
      var c4 := FormatStep(w, c3);
      assert g(c3) == Success(c4);
      StepsFrom(g, c3, c4, fuel - 1);
      assert Steps(g, c4, fuel - 2) == Success(c4);
    } else {
      assert Steps(g, c3, fuel - 1) == Success(c3);
    }
  }

  /** A failing model call ends the run with that failure; nothing retries it. */
  lemma FirstCallFailureFails(w: Wiring, metrics: seq<Metric>, model: Model, fuel: nat)
    requires metrics != [] && fuel >= 2 && model(0).None?
    ensures Run(w, metrics, model, fuel) == Failure(ModelCallFailed)
  {
    var g := Graph(w, model);
    var c1 := FirstCall(w, metrics, model);
    StepsFrom(g, Start(metrics), c1, fuel);
    assert g(c1) == Failure(ModelCallFailed);
    assert Steps(g, c1, fuel - 1) == Failure(ModelCallFailed);
  }

  /** A model whose every reply yields no insights. */
  ghost predicate AlwaysEmpty(model: Model) {
    forall k :: EmptyReply(model, k)
  }

  /** The k-th call returns a reply with no insight in it. */
  ghost predicate EmptyReply(model: Model, k: nat) {
    model(k).Some? && Extract(model(k).value) == []
  }

  /** A reachable configuration inside the generate/quality loop. */
  ghost function Looping(w: Wiring, model: Model, metrics: seq<Metric>): Config -> bool {
    c => Reachable(w, model, metrics, c) && (c.node == GenerateInsights || c.node == QualityCheck)
  }

  /** Under such a model every transition from inside the loop stays inside it. */
  lemma EmptyRepliesLoop(w: Wiring, model: Model, metrics: seq<Metric>)
    requires AlwaysEmpty(model)
    ensures Progresses(Graph(w, model), Looping(w, model, metrics))
  {
    forall c | Looping(w, model, metrics)(c)
      ensures Step(w, model, c).Success? && Looping(w, model, metrics)(Step(w, model, c).value)
    {
      if c.node == GenerateInsights {
        assert EmptyReply(model, c.calls);
        assert Step(w, model, c) == GenerateStep(model, c);
        GenerateStepReachable(w, model, metrics, c);
      } else {
        assert Step(w, model, c) == Success(QualityStep(w, c));
        QualityStepReachable(w, model, metrics, c);
        assert LatestBatch(model, c) && Analyzed(metrics, c);
        RegenerateIffEmptyBatch(w, model, c);
        assert EmptyReply(model, c.calls - 1);
      }
    }
  }

  /** A run that starts inside the loop stays inside it, so it never reaches END. */
  lemma LoopingNeverFinishes(w: Wiring, model: Model, metrics: seq<Metric>, c: Config, fuel: nat)
    requires AlwaysEmpty(model) && Looping(w, model, metrics)(c)
    ensures Outcome(Graph(w, model), c, fuel) == Failure(OutOfFuel)
  {
    EmptyRepliesLoop(w, model, metrics);
    StepsProgress(Graph(w, model), Looping(w, model, metrics), c, fuel);
  }

  /** Nothing bounds the regenerate loop: if the model never yields an
      insight, no amount of fuel brings the run to END. */
  lemma EmptyRepliesNeverFinish(w: Wiring, metrics: seq<Metric>, model: Model, fuel: nat)
    requires metrics != [] && AlwaysEmpty(model)
    ensures Run(w, metrics, model, fuel) == Failure(OutOfFuel)
  {
    if fuel > 0 {
      var c1 := FirstCall(w, metrics, model);
      LoopingNeverFinishes(w, model, metrics, c1, fuel - 1);
      OutcomeShort(Graph(w, model), Start(metrics), c1, fuel);
    } else {
      assert Steps(Graph(w, model), Start(metrics), fuel) == Success(Start(metrics));
    }
  }

  /** A run whose first transition leads to a configuration from which the
      remaining fuel does not reach END runs out of fuel. */
  lemma OutcomeShort(step: Transition, c: Config, c1: Config, fuel: nat)
    requires fuel > 0 && c.node != Finished && step(c) == Success(c1)
    requires Outcome(step, c1, fuel - 1) == Failure(OutOfFuel)
    ensures Outcome(step, c, fuel) == Failure(OutOfFuel)
  {
    StepsFrom(step, c, c1, fuel);
  }
}
