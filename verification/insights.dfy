/**
 * The text side of the agent: pulling insight statements out of the language
 * model's reply, scoring a batch of them, classifying each, and shaping the
 * final numbered records.
 */
module Insights {
  import opened Common
  import opened Text

  // ---------------------------------------------------------------------------
  // Extraction (`_extract_insights_from_response`)
  // ---------------------------------------------------------------------------

  /** At most this many insights are kept from one reply. */
  const MaxInsights := 5

  /** An insight must be longer than this many characters to be kept. */
  const MinInsightLength := 20

  /** Membership in the character set `'-•123456789. '` stripped from the front of a bullet. */
  predicate IsMarker(c: char) {
    c == '-' || c == '\U{2022}' || ('1' <= c <= '9') || c == '.' || c == ' '
  }

  /** A stripped line counts as a bullet when it is non-empty and starts with
      `-`, `•`, `1.`, `2.` or `3.`. */
  predicate IsBullet(line: string) {
    |line| > 0 &&
    (StartsWith(line, "-") || StartsWith(line, "\U{2022}") ||
     StartsWith(line, "1.") || StartsWith(line, "2.") || StartsWith(line, "3."))
  }

  /** `line.lstrip('-•123456789. ').strip()`. */
  function Clean(line: string): (r: string)
    ensures Trimmed(r)
    ensures |r| <= |line|
  {
    Strip(DropWhile(line, IsMarker))
  }

  /** The insight one raw line of the reply contributes, if any. */
  function Candidate(raw: string): (r: Option<string>)
    ensures r.Some? ==> IsBullet(Strip(raw)) && r.value == Clean(Strip(raw))
    ensures r.Some? ==> |r.value| > MinInsightLength && Trimmed(r.value)
    ensures IsBullet(Strip(raw)) && |Clean(Strip(raw))| > MinInsightLength ==> r.Some?
  {
    var line := Strip(raw);
    if IsBullet(line) then
      var insight := Clean(line);
      if |insight| > MinInsightLength then Some(insight) else None
    else None
  }

  /** The values `pick` yields along `xs`, in order, skipping the `None`s. */
  function FilterMap<A, B>(xs: seq<A>, pick: A -> Option<B>): (r: seq<B>)
    ensures |r| <= |xs|
    decreases |xs|
  {
    if xs == [] then []
    else
      match pick(xs[0])
      case Some(y) => [y] + FilterMap(xs[1..], pick)
      case None => FilterMap(xs[1..], pick)
  }

  /** The position of the element the k-th kept value comes from. */
  lemma {:induction false} FilterMapSource<A, B>(xs: seq<A>, pick: A -> Option<B>, k: nat) returns (i: nat)
    requires k < |FilterMap(xs, pick)|
    ensures i < |xs| && pick(xs[i]) == Some(FilterMap(xs, pick)[k])
    decreases |xs|
  {
    var rest := FilterMap(xs[1..], pick);
    match pick(xs[0]) {
      case Some(y) =>
        if k == 0 {
          i := 0;
        } else {
          var j := FilterMapSource(xs[1..], pick, k - 1);
          i := j + 1;
        }
      case None =>
        var j := FilterMapSource(xs[1..], pick, k);
        i := j + 1;
    }
  }

  /** Filtering keeps order: the values of a concatenation are those of the
      first part followed by those of the second. */
  lemma {:induction false} FilterMapAppend<A, B>(a: seq<A>, b: seq<A>, pick: A -> Option<B>)
    ensures FilterMap(a + b, pick) == FilterMap(a, pick) + FilterMap(b, pick)
    decreases |a|
  {
    if a != [] {
      assert (a + b)[1..] == a[1..] + b;
      FilterMapAppend(a[1..], b, pick);
    } else {
      assert a + b == b;
    }
  }

  /** Every insight the lines contribute, in line order, before truncation. */
  function Harvest(lines: seq<string>): (r: seq<string>)
    ensures |r| <= |lines|
    ensures forall k :: 0 <= k < |r| ==> |r[k]| > MinInsightLength && Trimmed(r[k])
  {
    CandidatesSubstantial(lines);
    FilterMap(lines, Candidate)
  }

  lemma CandidatesSubstantial(lines: seq<string>)
    ensures forall k :: 0 <= k < |FilterMap(lines, Candidate)| ==>
      |FilterMap(lines, Candidate)[k]| > MinInsightLength && Trimmed(FilterMap(lines, Candidate)[k])
  {
    forall k | 0 <= k < |FilterMap(lines, Candidate)|
      ensures |FilterMap(lines, Candidate)[k]| > MinInsightLength && Trimmed(FilterMap(lines, Candidate)[k])
    {
      var i := FilterMapSource(lines, Candidate, k);
    }
  }

  /** Every harvested insight is the cleaned text of some bullet line. */
  lemma HarvestFromBullets(lines: seq<string>, k: nat)
    requires k < |Harvest(lines)|
    ensures exists i :: 0 <= i < |lines| && IsBullet(Strip(lines[i])) && Harvest(lines)[k] == Clean(Strip(lines[i]))
  {
    var i := FilterMapSource(lines, Candidate, k);
    assert IsBullet(Strip(lines[i])) && Harvest(lines)[k] == Clean(Strip(lines[i]));
  }

  /** Harvesting keeps line order: the insights of a concatenation are the
      insights of the first part followed by those of the second. */
  lemma HarvestAppend(a: seq<string>, b: seq<string>)
    ensures Harvest(a + b) == Harvest(a) + Harvest(b)
  {
    FilterMapAppend(a, b, Candidate);
  }

  /** A line that is not a bullet contributes nothing. */
  lemma NonBulletIgnored(raw: string)
    requires !IsBullet(Strip(raw))
    ensures Harvest([raw]) == []
  {
  }

  /** `_extract_insights_from_response`: the first five substantial bullet
      insights of the reply, in the order their lines appear. */
  function Extract(response: string): (r: seq<string>)
    ensures |r| <= MaxInsights
    ensures forall k :: 0 <= k < |r| ==> |r[k]| > MinInsightLength && Trimmed(r[k])
    ensures var all := Harvest(Split(response, '\n'));
      |r| == (if |all| < MaxInsights then |all| else MaxInsights) && r == all[..|r|]
  {
    var all := Harvest(Split(response, '\n'));
    if |all| <= MaxInsights then all else all[..MaxInsights]
  }

  /** A trimmed string is its own strip. */
  lemma StripTrimmed(s: string)
    requires Trimmed(s)
    ensures Strip(s) == s
  {
  }

  /** Cleaning does not guarantee that an insight starts with a non-marker
      character: the final `strip()` can expose a marker hidden behind a tab.
      The line `"- \t- ..."` yields the insight `"- ..."`. */
  lemma CleanMayExposeMarker(body: string)
    requires |body| > MinInsightLength && body[0] == '-' && !IsSpace(body[|body| - 1])
    ensures Candidate("- \t" + body) == Some(body)
    ensures IsMarker(body[0])
  {
    var line := "- \t" + body;
    assert Trimmed(line);
    StripTrimmed(line);
    assert IsBullet(line) by { assert line[..1] == "-"; }
    MarkersStopAtTab(body);
    StripLeadingTab(body);
  }

  /** Dropping markers from `"- \t" + body` stops at the tab. */
  lemma MarkersStopAtTab(body: string)
    ensures DropWhile("- \t" + body, IsMarker) == ['\t'] + body
  {
    var line := "- \t" + body;
    var tabbed := ['\t'] + body;
    assert line[1..] == [' '] + tabbed && line[1..][1..] == tabbed;
    assert DropWhile(tabbed, IsMarker) == tabbed;
  }

  /** Stripping a tab in front of trimmed text gives the text back. */
  lemma StripLeadingTab(body: string)
    requires body != [] && Trimmed(body)
    ensures Strip(['\t'] + body) == body
  {
    var tabbed := ['\t'] + body;
    assert tabbed[1..] == body;
    assert DropWhile(body, IsSpace) == body;
    assert DropWhile(tabbed, IsSpace) == body;
    StripTrimmed(body);
  }

  /** The bullet line `- text`. */
  function Bullet(text: string): string {
    "- " + text
  }

  /** Each text written as a bullet line. */
  function Bullets(texts: seq<string>): (r: seq<string>)
    ensures |r| == |texts|
    ensures forall i :: 0 <= i < |texts| ==> r[i] == Bullet(texts[i])
  {
    seq(|texts|, i requires 0 <= i < |texts| => Bullet(texts[i]))
  }

  /** A one-line text that extraction keeps verbatim when written as a bullet:
      long enough, trimmed, and not starting with a marker character. */
  predicate Keepable(text: string) {
    |text| > MinInsightLength && Trimmed(text) && '\n' !in text && !IsMarker(text[0])
  }

  lemma CandidateOfBullet(text: string)
    requires Keepable(text)
    ensures Candidate(Bullet(text)) == Some(text)
  {
    var line := Bullet(text);
    assert Trimmed(line);
    StripTrimmed(line);
    assert IsBullet(line) by { assert line[..1] == "-"; }
    assert line[1..] == " " + text && line[1..][1..] == text;
    assert DropWhile(text, IsMarker) == text;
    assert DropWhile(line, IsMarker) == text;
    StripTrimmed(text);
  }

  /** Harvesting bullet lines of keepable texts gives back the texts. */
  lemma {:induction false} HarvestBullets(texts: seq<string>)
    requires forall i :: 0 <= i < |texts| ==> Keepable(texts[i])
    ensures Harvest(Bullets(texts)) == texts
    decreases |texts|
  {
    if texts != [] {
      var lines := Bullets(texts);
      assert lines[1..] == Bullets(texts[1..]);
      CandidateOfBullet(texts[0]);
      assert lines[0] == Bullet(texts[0]);
      assert Harvest(lines) == [texts[0]] + Harvest(lines[1..]);
      HarvestBullets(texts[1..]);
      assert texts == [texts[0]] + texts[1..];
    }
  }

  /** A reply listing up to five keepable insights as `- ` bullets, one per
      line, is extracted back to exactly those insights, in order. */
  lemma ExtractRendered(texts: seq<string>)
    requires 1 <= |texts| <= MaxInsights
    requires forall i :: 0 <= i < |texts| ==> Keepable(texts[i])
    ensures Extract(Join(Bullets(texts), '\n')) == texts
  {
    var lines := Bullets(texts);
    forall i | 0 <= i < |lines| ensures '\n' !in lines[i] {
      assert forall c :: c in Bullet(texts[i]) ==> c in "- " || c in texts[i];
    }
    SplitJoin(lines, '\n');
    HarvestBullets(texts);
  }

  // ---------------------------------------------------------------------------
  // Vocabularies
  // ---------------------------------------------------------------------------

  /** Action words: both the confidence bonus and the `recommendation` class. */
  const ActionWords: seq<string> := ["recommend", "should", "consider", "suggest"]
  const TrendWords: seq<string> := ["trend", "increasing", "decreasing", "growth"]
  const RiskWords: seq<string> := ["risk", "warning", "concern", "issue"]
  const OpportunityWords: seq<string> := ["opportunity", "potential", "growth", "improve"]

  // ---------------------------------------------------------------------------
  // Confidence (`_calculate_confidence`)
  // ---------------------------------------------------------------------------

  /** A confidence score in tenths: 0 stands for 0.0 and 10 for 1.0. */
  type Tenths = t: nat | t <= 10

  /** The sum of the insight lengths. */
  function TotalLength(batch: seq<string>): nat
    decreases |batch|
  {
    if batch == [] then 0 else |batch[0]| + TotalLength(batch[1..])
  }

  /** `avg_length > 50`, stated without division. */
  predicate LongOnAverage(batch: seq<string>) {
    TotalLength(batch) > 50 * |batch|
  }

  predicate HasDigit(s: string) {
    exists j :: 0 <= j < |s| && IsDigit(s[j])
  }

  /** Some insight contains a digit. */
  predicate AnyDigit(batch: seq<string>) {
    exists i :: 0 <= i < |batch| && HasDigit(batch[i])
  }

  /** Some insight, lower-cased, contains an action word. */
  predicate AnyActionWord(batch: seq<string>) {
    exists i :: 0 <= i < |batch| && ContainsAny(Lower(batch[i]), ActionWords)
  }

  function Bonus(condition: bool, tenths: nat): nat {
    if condition then tenths else 0
  }

  /** `_calculate_confidence`: 0.0 for an empty batch; otherwise 0.5 plus 0.2
      for long insights, 0.1 for digits and 0.2 for action words, capped at 1.0. */
  function Confidence(batch: seq<string>): (c: Tenths)
    ensures c == 0 <==> batch == []
    ensures batch != [] ==> 5 <= c
  {
    if batch == [] then 0
    else
      AtMost(10, 5 + Bonus(LongOnAverage(batch), 2) + Bonus(AnyDigit(batch), 1)
                     + Bonus(AnyActionWord(batch), 2))
  }

  /** `min(score, cap)`. */
  function AtMost(cap: nat, score: nat): (r: nat)
    ensures r <= cap && r <= score
    ensures r == cap || r == score
  {
    if score <= cap then score else cap
  }

  /** How the score crosses the thresholds the quality gate and the router use. */
  lemma ConfidenceThresholds(batch: seq<string>)
    ensures Confidence(batch) < 5 <==> batch == []
    ensures Confidence(batch) >= 6 <==> batch != [] && (LongOnAverage(batch) || AnyDigit(batch) || AnyActionWord(batch))
    ensures Confidence(batch) >= 7 <==> batch != [] && (LongOnAverage(batch) || AnyActionWord(batch))
    ensures Confidence(batch) == 10 <==> batch != [] && LongOnAverage(batch) && AnyDigit(batch) && AnyActionWord(batch)
  {
  }

  /** Insights containing "recommend" or "should" (case-insensitively): the
      quality gate's notion of an actionable batch. */
  predicate AnyActionable(batch: seq<string>) {
    exists i :: 0 <= i < |batch| &&
      (Contains(Lower(batch[i]), "recommend") || Contains(Lower(batch[i]), "should"))
  }

  /** An actionable batch always earns the action-word bonus. */
  lemma ActionableEarnsBonus(batch: seq<string>)
    requires AnyActionable(batch)
    ensures AnyActionWord(batch)
    ensures Confidence(batch) >= 7
  {
    var i :| 0 <= i < |batch| &&
      (Contains(Lower(batch[i]), "recommend") || Contains(Lower(batch[i]), "should"));
    if Contains(Lower(batch[i]), "recommend") {
      assert Contains(Lower(batch[i]), ActionWords[0]);
    } else {
      assert Contains(Lower(batch[i]), ActionWords[1]);
    }
  }

  // ---------------------------------------------------------------------------
  // Classification (`_classify_insight_type`)
  // ---------------------------------------------------------------------------

  datatype InsightKind = Trend | Risk | Opportunity | Recommendation | Observation {
    /** The type string the source returns. */
    function Name(): string {
      match this
      case Trend => "trend"
      case Risk => "risk"
      case Opportunity => "opportunity"
      case Recommendation => "recommendation"
      case Observation => "observation"
    }

    /** The keywords that select this kind; the default kind has none. */
    function Words(): seq<string> {
      match this
      case Trend => TrendWords
      case Risk => RiskWords
      case Opportunity => OpportunityWords
      case Recommendation => ActionWords
      case Observation => []
    }

    /** The position of this kind in the order the vocabularies are tried. */
    function Rank(): nat {
      match this
      case Trend => 0
      case Risk => 1
      case Opportunity => 2
      case Recommendation => 3
      case Observation => 4
    }
  }

  /** `_classify_insight_type`: the kind whose vocabulary occurs in the
      lower-cased insight, the earliest such kind in the order tried, and
      `observation` when no vocabulary occurs. */
  function Classify(insight: string): (k: InsightKind)
    ensures k == Observation || ContainsAny(Lower(insight), k.Words())
    ensures forall j: InsightKind :: j.Rank() < k.Rank() ==> !ContainsAny(Lower(insight), j.Words())
  {
    var low := Lower(insight);
    if ContainsAny(low, TrendWords) then Trend
    else if ContainsAny(low, RiskWords) then Risk
    else if ContainsAny(low, OpportunityWords) then Opportunity
    else if ContainsAny(low, ActionWords) then Recommendation
    else Observation
  }

  /** One row of a keyword table. */
  datatype Rule = Rule(kind: InsightKind, words: seq<string>)

  /** The classifier as a table: trend, risk, opportunity, recommendation. */
  const Rules: seq<Rule> := [
    Rule(Trend, TrendWords), Rule(Risk, RiskWords),
    Rule(Opportunity, OpportunityWords), Rule(Recommendation, ActionWords)]

  /** Table-driven first-match classification: the kind of the earliest rule
      whose vocabulary occurs in `text`, or `fallback` when none does. */
  function FirstMatch(rules: seq<Rule>, text: string, fallback: InsightKind): (k: InsightKind)
    ensures (forall i :: 0 <= i < |rules| ==> !ContainsAny(text, rules[i].words)) ==> k == fallback
    ensures forall i ::
      (0 <= i < |rules| && ContainsAny(text, rules[i].words) &&
       (forall j :: 0 <= j < i ==> !ContainsAny(text, rules[j].words)))
      ==> k == rules[i].kind
    decreases |rules|
  {
    if rules == [] then fallback
    else if ContainsAny(text, rules[0].words) then rules[0].kind
    else
      var k := FirstMatch(rules[1..], text, fallback);
      assert forall i :: 1 <= i < |rules| ==> rules[1..][i - 1] == rules[i];
      k
  }

  /** The classifier is exactly first-match over the keyword table, defaulting to observation. */
  lemma ClassifyIsFirstMatch(insight: string)
    ensures Classify(insight) == FirstMatch(Rules, Lower(insight), Observation)
  {
    var low := Lower(insight);
    if !ContainsAny(low, TrendWords) && !ContainsAny(low, RiskWords) &&
       !ContainsAny(low, OpportunityWords) && !ContainsAny(low, ActionWords) {
      assert forall i :: 0 <= i < |Rules| ==> !ContainsAny(low, Rules[i].words);
    } else if ContainsAny(low, TrendWords) {
      assert ContainsAny(low, Rules[0].words);
    } else if ContainsAny(low, RiskWords) {
      assert ContainsAny(low, Rules[1].words);
    } else if ContainsAny(low, OpportunityWords) {
      assert ContainsAny(low, Rules[2].words);
    } else {
      assert ContainsAny(low, Rules[3].words);
    }
  }

  /** "growth" sits in the trend vocabulary, which is tried first, so an
      insight mentioning growth is never classified as an opportunity. */
  lemma GrowthIsTrend(insight: string)
    requires Contains(Lower(insight), "growth")
    ensures Classify(insight) == Trend
    ensures Classify(insight) != Opportunity
  {
    assert Contains(Lower(insight), TrendWords[3]);
  }

  /** An insight classified as a recommendation carries an action word, so a
      batch holding it earns the action bonus. */
  lemma RecommendationHasActionWord(batch: seq<string>, i: nat)
    requires i < |batch| && Classify(batch[i]) == Recommendation
    ensures AnyActionWord(batch)
    ensures Confidence(batch) >= 7
  {
  }

  // ---------------------------------------------------------------------------
  // Formatting (`_format_response_node`)
  // ---------------------------------------------------------------------------

  /** One entry of `formatted_insights`. */
  datatype InsightRecord = InsightRecord(id: nat, text: string, kind: InsightKind, confidence: Tenths)

  /** Numbers the insights from `first` upwards, classifying each. */
  function Enumerate(insights: seq<string>, confidence: Tenths, first: nat): (r: seq<InsightRecord>)
    ensures |r| == |insights|
    ensures forall i :: 0 <= i < |r| ==>
      r[i].id == first + i && r[i].text == insights[i] &&
      r[i].kind == Classify(insights[i]) && r[i].confidence == confidence
    decreases |insights|
  {
    if insights == [] then []
    else [InsightRecord(first, insights[0], Classify(insights[0]), confidence)]
         + Enumerate(insights[1..], confidence, first + 1)
  }

  /** `enumerate(insights, 1)` shaped into records that all carry the run's confidence. */
  function FormatRecords(insights: seq<string>, confidence: Tenths): (r: seq<InsightRecord>)
    ensures |r| == |insights|
    ensures forall i :: 0 <= i < |r| ==>
      r[i] == InsightRecord(i + 1, insights[i], Classify(insights[i]), confidence)
  {
    Enumerate(insights, confidence, 1)
  }

  function Texts(records: seq<InsightRecord>): (ts: seq<string>)
    ensures |ts| == |records|
    ensures forall i :: 0 <= i < |records| ==> ts[i] == records[i].text
  {
    seq(|records|, i requires 0 <= i < |records| => records[i].text)
  }

  /** Formatting loses nothing: the record texts are the insights, and the ids
      are 1..n without gaps or repeats. */
  lemma FormatKeepsInsights(insights: seq<string>, confidence: Tenths)
    ensures Texts(FormatRecords(insights, confidence)) == insights
    ensures forall i, j :: 0 <= i < j < |insights| ==>
      FormatRecords(insights, confidence)[i].id < FormatRecords(insights, confidence)[j].id
    ensures forall i :: 0 <= i < |insights| ==> 1 <= FormatRecords(insights, confidence)[i].id <= |insights|
  {
  }
}
