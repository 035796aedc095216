# Analytics insight agent — a Dafny model

This project models the insight-generation agent of the analytics backend,
`backend/agents/analytics_agent.py`. The agent is a LangGraph state graph:

    analyze_metrics -> generate_insights -> quality_check
    quality_check --continue-->   format_response -> END
    quality_check --regenerate--> generate_insights
    quality_check --end-->        END

The graph threads an `AgentState` record through four nodes. `messages` and
`insights` are append-merged and every other key is replaced. Each node is a
deterministic function of the state, except for the one language-model call
in the generate node. The model follows that structure:

- `Common` holds the `Option` and `Result` wrappers.
- `Text` gives the Python `str` operations the extraction uses: `split`,
  `strip`, `lstrip(chars)`, `startswith`, `lower` and `in`.
- `Metrics` covers the statistics the analyze node computes and the labels of
  `_identify_patterns`.
- `Insights` covers extraction from the model's reply, the confidence score,
  the classifier and the numbered output records.
- `AgentState` defines the state record, the update a node returns, and the
  merge rule.
- `Nodes` has the four nodes and the router `_should_continue`, each a pure
  function.
- `Workflow` models the compiled graph as a transition function run with a
  fuel bound. The language model is an oracle indexed by call number.

Confidence is counted in integer tenths: 0 stands for 0.0 and 10 for 1.0. The
score is 0.5 plus bonuses of 0.2, 0.1 and 0.2. With Python floats these sums
come out as 0.7, 0.7999…, 0.8999… and 1.0, and none of them lands on the other
side of the thresholds 0.5, 0.6 and 0.7 that the code compares against. So
integer tenths choose the same branches as the code.

The graph is modelled under two wirings.

- `AsWritten` follows the code. The quality node returns its verdict as a
  top-level key, `quality_acceptable`, and the format node returns
  `formatted_insights`. `AgentState` declares neither key, so neither is kept
  in the merged state. The router looks the verdict up inside
  `current_analysis`, where no node ever writes it.
- `Intended` routes on the verdict the quality node computes, and keeps the
  records the format node produces.

The finding below is the difference between the two. Under `AsWritten` the
records the format node would produce are also lost, since
`formatted_insights` is dropped like `quality_acceptable`; the model keeps
them under `Intended` only.

Some facts about the code that the model keeps:

- The code has no regeneration budget. The `regenerate` edge loops back
  unconditionally. `Workflow.EmptyRepliesNeverFinish` shows that a model
  that never yields an insight keeps the run looping for any amount of fuel.
- The code has no transient-failure retries and no deadline. A failing model
  call ends the run (`Workflow.FirstCallFailureFails`).
- The `end` label goes straight to END, not to the format node.
- The confidence score is computed in the generate node from the batch just
  extracted. The quality node only reads it.
- The action vocabulary of the score is `recommend`, `should`, `consider` and
  `suggest`.
- The quality verdict needs at least three insights, a score of at least 0.6,
  and an insight containing "recommend" or "should".

One expectation about extraction does not hold. It is tempting to think that
no extracted insight starts with one of the stripped marker characters
`-•123456789. `. `Insights.CleanMayExposeMarker` exhibits a line for which
this fails. A tab after the markers stops `lstrip`, and the following `strip()`
then removes the tab, which exposes a second marker.

## Model

| member | source | states |
|---|---|---|
| `Text.JoinSplit` | backend/agents/analytics_agent.py:297 | Splitting a reply on newlines loses nothing: joining the pieces gives the reply back. |
| `Text.SplitJoin` | backend/agents/analytics_agent.py:297 | Splitting a join of newline-free lines gives back exactly those lines. |
| `Text.StripIsMiddle` | backend/agents/analytics_agent.py:300 | `strip()` keeps a contiguous middle part of the line and removes only whitespace on either side of it. |
| `Text.Split` | backend/agents/analytics_agent.py:297 | `split` yields at least one piece, and no piece contains the separator. |
| `Text.Strip` | backend/agents/analytics_agent.py:300 | `strip()` gives a string no longer than the line, empty or with no whitespace at either end. |
| `Text.DropWhileRemovesPrefix` | backend/agents/analytics_agent.py:303 | `lstrip(chars)` removes exactly a prefix whose characters are all in the set, and the rest starts with a character outside it. |
| `Metrics.Categories` | backend/agents/analytics_agent.py:117 | A category is in the set exactly when some record has it, with a missing category counted as "unknown". |
| `Metrics.MinOf` | backend/agents/analytics_agent.py:119 | The minimum is at most every value and is attained by one. |
| `Metrics.MaxOf` | backend/agents/analytics_agent.py:120 | The maximum is at least every value and is attained by one. |
| `Metrics.AdjacentAscending` | backend/agents/analytics_agent.py:272 | The code's check of adjacent pairs is equivalent to the whole list being non-decreasing. |
| `Metrics.Analyze` | backend/agents/analytics_agent.py:111-124 | Fails exactly on an empty batch. Otherwise it gives the record count, exactly the distinct categories, and a min and max that bound every value and are both attained. |
| `Metrics.IdentifyPatterns` | backend/agents/analytics_agent.py:265-285 | At most two labels. A trend label comes first and only for more than one value, and a category label comes last. |
| `Metrics.PatternsMeaning` | backend/agents/analytics_agent.py:265-285 | At most two labels, with at most one trend label. "increasing trend" iff more than one value and non-decreasing. "decreasing trend" iff more than one value, not non-decreasing and non-increasing. "single category focus" iff exactly one category. "diverse categories" iff more than three. |
| `Metrics.ConstantValuesIncrease` | backend/agents/analytics_agent.py:272-275 | A batch of two or more equal values is labelled an increasing trend, not a decreasing one. |
| `Insights.Clean` | backend/agents/analytics_agent.py:303 | The cleaned insight has no whitespace at either end and is no longer than the line. |
| `Insights.Candidate` | backend/agents/analytics_agent.py:300-305 | A line yields an insight exactly when its stripped form is a bullet whose cleaned text is longer than 20 characters. The insight is that cleaned text. |
| `Insights.Harvest` | backend/agents/analytics_agent.py:297-305 | Every collected insight is longer than 20 characters and has no surrounding whitespace, and there are no more of them than lines. |
| `Insights.HarvestFromBullets` | backend/agents/analytics_agent.py:299-305 | Every collected insight is the cleaned text of some bullet line of the reply. |
| `Insights.HarvestAppend` | backend/agents/analytics_agent.py:299-305 | Collection keeps line order: the insights of two concatenated blocks are those of the first block followed by those of the second. |
| `Insights.NonBulletIgnored` | backend/agents/analytics_agent.py:301 | A line that does not start with `-`, `•`, `1.`, `2.` or `3.` after stripping contributes nothing. |
| `Insights.Extract` | backend/agents/analytics_agent.py:294-306 | At most five insights, each longer than 20 characters and trimmed. They are the first min(n, 5) of all collected insights, in line order. |
| `Insights.CleanMayExposeMarker` | backend/agents/analytics_agent.py:303 | The line "- \t" + body yields body even when body starts with the marker `-`, so an insight may start with a marker. |
| `Insights.CandidateOfBullet` | backend/agents/analytics_agent.py:300-305 | Writing a long, trimmed, one-line text that does not start with a marker as "- text" gives back exactly that text. |
| `Insights.HarvestBullets` | backend/agents/analytics_agent.py:297-305 | Collecting from bullet lines of such texts gives back the texts, in order. |
| `Insights.ExtractRendered` | backend/agents/analytics_agent.py:294-306 | A reply listing one to five such texts as "- " bullets, one per line, extracts back to exactly those texts. This is the round trip of extraction. |
| `Insights.AtMost` | backend/agents/analytics_agent.py:326 | `min(score, cap)` is at most both arguments and equal to one of them. |
| `Insights.Confidence` | backend/agents/analytics_agent.py:308-326 | 0.0 exactly for an empty batch, and at least 0.5 for any other batch. |
| `Insights.ConfidenceThresholds` | backend/agents/analytics_agent.py:308-326 | Below 0.5 iff the batch is empty. At least 0.6 iff non-empty and some bonus applies. At least 0.7 iff non-empty and the length or action bonus applies. Exactly 1.0 iff all three bonuses apply. |
| `Insights.ActionableEarnsBonus` | backend/agents/analytics_agent.py:205 | An insight the quality node counts as actionable ("recommend" or "should") also earns the action-word bonus, so the batch scores at least 0.7. |
| `Insights.Classify` | backend/agents/analytics_agent.py:328-340 | The kind chosen is one whose vocabulary occurs in the lower-cased insight, or observation. No kind tried earlier in the order trend, risk, opportunity, recommendation has its vocabulary occur. |
| `Insights.FirstMatch` | backend/agents/analytics_agent.py:330-340 | The reference first-match classifier: the kind of the earliest rule whose vocabulary occurs, or the default when none does. |
| `Insights.ClassifyIsFirstMatch` | backend/agents/analytics_agent.py:328-340 | The classifier equals first-match over the ordered table trend, risk, opportunity, recommendation, with observation as the default. |
| `Insights.GrowthIsTrend` | backend/agents/analytics_agent.py:331-336 | An insight mentioning "growth" is classified as a trend and never as an opportunity. |
| `Insights.RecommendationHasActionWord` | backend/agents/analytics_agent.py:316-338 | A batch holding an insight classified as a recommendation earns the action-word bonus and scores at least 0.7. |
| `Insights.Enumerate` | backend/agents/analytics_agent.py:231-237 | Record i gets id first + i, the i-th text unchanged, its classification, and the shared confidence. |
| `Insights.FormatRecords` | backend/agents/analytics_agent.py:230-237 | There is one record per insight, numbered from 1, with its text, kind and the state's confidence. |
| `Insights.FormatKeepsInsights` | backend/agents/analytics_agent.py:230-237 | The record texts are exactly the insights, and the ids are 1..n, strictly increasing. |
| `AgentState.Initial` | backend/agents/analytics_agent.py:348-354 | A run starts with the metrics and with empty messages, insights and analysis, and a confidence of 0. |
| `AgentState.Apply` | backend/agents/analytics_agent.py:35-39 | Merging appends the update's messages and insights to the old ones and keeps the metrics. The analysis and confidence are replaced only when the update sets them. |
| `AgentState.ApplyNoChange` | backend/agents/analytics_agent.py:35-39 | Merging an update that sets nothing leaves the state unchanged. |
| `AgentState.ApplyTwice` | backend/agents/analytics_agent.py:35-37 | Two merges append both updates' lists in order, and the later confidence wins. |
| `Nodes.AnalysisOf` | backend/agents/analytics_agent.py:115-124 | The stored analysis has exactly the four keys total_metrics, categories, value_ranges and patterns. |
| `Nodes.AnalyzeNode` | backend/agents/analytics_agent.py:111-136 | Fails exactly on an empty batch. Otherwise it replaces the analysis with the four statistics keys, including the record count and the category set, logs one message, and leaves insights and confidence alone. |
| `Nodes.GenerateNode` | backend/agents/analytics_agent.py:179-188 | Logs the reply and appends the batch extracted from it, at most five insights. The confidence is that of the new batch alone, and 0 iff the batch is empty. |
| `Nodes.AverageLength` | backend/agents/analytics_agent.py:203 | The mean length is the total length over the count, and 0 for no insights. |
| `Nodes.AverageLengthMatchesBonus` | backend/agents/analytics_agent.py:314-319 | The mean length exceeds 50 exactly when the total length exceeds 50 times the count, which is the test the model of the length bonus uses. |
| `Nodes.Acceptable` | backend/agents/analytics_agent.py:209-213 | An accepted batch has at least three insights and a score of at least 0.6. It always earns the action-word bonus, so its score is at least 0.7. |
| `Nodes.QualityCheckNode` | backend/agents/analytics_agent.py:197-218 | The verdict holds iff there are at least 3 insights, the score is at least 0.6, and some insight is actionable. The analysis keeps every earlier key and adds `quality_metrics`, with the count, the mean length of the insights, the confidence and the actionable flag. |
| `Nodes.FormatNode` | backend/agents/analytics_agent.py:226-247 | One record per accumulated insight, numbered from 1, classified and carrying the state's confidence, plus one closing message. |
| `Nodes.ShouldContinue` | backend/agents/analytics_agent.py:249-263 | `continue` iff the flag holds and the score is at least 0.7. `regenerate` iff the score is below 0.5. `end` otherwise. |
| `Nodes.FlagAsWritten` | backend/agents/analytics_agent.py:255 | The flag holds only when `current_analysis` stores a truthy `quality_acceptable`. It is false for any analysis the nodes can store. |
| `Nodes.AsWrittenNeverContinues` | backend/agents/analytics_agent.py:255-263 | With the flag as written the router never answers `continue`, whatever the confidence. |
| `Workflow.Target` | backend/agents/analytics_agent.py:90-98 | The edge map: `continue` leads to format_response, `regenerate` to generate_insights, `end` straight to END. |
| `Workflow.Step` | backend/agents/analytics_agent.py:77-100 | One transition only appends to messages and insights and keeps the metrics. It fails exactly on an empty batch at the analyze node or on a failing model call at the generate node. END is absorbing. |
| `Workflow.QualityStep` | backend/agents/analytics_agent.py:90-98 | After the quality node the run goes back to generation exactly when the score is below 0.5. Under the intended wiring it goes to formatting exactly for an accepted batch scoring at least 0.7. As written it never goes to formatting. Only the analysis changes, gaining `quality_metrics`. |
| `Workflow.FormatStep` | backend/agents/analytics_agent.py:226-247 | The format node logs the summary and ends the run. Under the intended wiring the caller gets one record per insight, with id i + 1 and the i-th insight as text. As written the records are dropped. |
| `Workflow.StepsAppendOnly` | backend/agents/analytics_agent.py:35-37 | Across any number of transitions, the earlier messages and insights are prefixes of the later ones. |
| `Workflow.RunReachable` | backend/agents/analytics_agent.py:77-100 | A completed run ends at END. Its batch is the non-empty one extracted from the latest reply, and its confidence is that batch's score. It hands back the records of the batch only when the batch is acceptable under the intended wiring, and none otherwise. |
| `Workflow.AsWrittenNeverFormats` | backend/agents/analytics_agent.py:90-100 | As written, a completed run hands back no records and logs no closing summary, though its batch is non-empty. |
| `Workflow.IntendedFormatsAccepted` | backend/agents/analytics_agent.py:90-100 | Under the intended wiring, a completed run ends with the latest reply's batch and its confidence. It hands back one record per insight when the batch is acceptable, and none otherwise. |
| `Workflow.AcceptedIsConfident` | backend/agents/analytics_agent.py:209-259 | An acceptable batch always scores at least 0.7, so under the intended wiring the router sends it to format_response. |
| `Workflow.RegenerateIffEmptyBatch` | backend/agents/analytics_agent.py:187-261 | After the quality node, the run loops back to generation exactly when the latest reply yielded no insights. |
| `Workflow.Run` | backend/agents/analytics_agent.py:77-102 | A run that returns has stopped at END and still holds the metric batch it was given. With no fuel it reports `OutOfFuel`. An empty metric batch fails in the analyze node, before any model call. |
| `Workflow.FirstCall` | backend/agents/analytics_agent.py:86 | On a non-empty batch the first transition reaches generate_insights with no model call made. |
| `Workflow.UsableFirstReplyFinishes` | backend/agents/analytics_agent.py:86-96 | If the first reply yields an insight, the run completes after exactly one model call. |
| `Workflow.QualityThenEnd` | backend/agents/analytics_agent.py:90-100 | From the quality node with a non-empty batch, END is reached within two transitions and without another model call. |
| `Workflow.FirstCallFailureFails` | backend/agents/analytics_agent.py:176 | A failing first model call fails the run, and nothing retries it. |
| `Workflow.LoopingNeverFinishes` | backend/agents/analytics_agent.py:95 | Inside the generate/quality loop, with a model that never yields an insight, no amount of fuel reaches END. |
| `Workflow.EmptyRepliesNeverFinish` | backend/agents/analytics_agent.py:95 | With a model that never yields an insight, the run never reaches END, however much fuel it gets. |

## Left out

- The language model (lines 57-61 and 176) is an oracle `nat -> Option<string>`: the reply to the k-th call, or `None` when that call raises. The prompt is the same on every call of a run, so numbering the calls loses nothing. Temperature and sampling are not modelled.
- LangGraph's `compile`, `ainvoke` and the async wrapper `generate_insights` (lines 102 and 342-365) are not modelled; `Workflow.Run` stands for one invocation. The wrapper reads `formatted_insights` from the final state, and `Config.formatted` models that read.
- The model assumes that LangGraph keeps only the keys `AgentState` declares. It drops `quality_acceptable` and `formatted_insights` from a node's result. The `AsWritten` wiring rests on this assumption about the framework.
- The prompt text, `_format_metrics_for_llm` and the content of the log messages (lines 127-131, 150-172, 240-242 and 287-292) are not modelled. Messages are kept as tagged values.
- Metrics.Analyze: does not compute the float average of `value_ranges` (line 121), since no branch depends on it. Metric values are exact reals, and the quality node's `avg_length` is an exact fraction.
- `lower()`, `isdigit()` and `strip()` are modelled on ASCII; Python's versions are Unicode-aware.
- Run length is bounded by fuel, because nothing in the graph bounds the regenerate loop. A run that reaches no END within its fuel reports `OutOfFuel`. LangGraph's own step limit, which ends such a run with an error, is what `OutOfFuel` stands for when the fuel is set to that limit; its value is a framework setting and is not modelled.
- The rest of the backend is not part of this model: `backend/services/bigquery_service.py`, `backend/api/metrics.py`, `backend/api/insights.py`, `backend/main.py`, `backend/database.py` and `backend/models/`. It is database, HTTP and schema code.
- Metric records are modelled with the fields the agent reads: `value` and `category`, which may be missing. A value of another type than a number is not modelled.

## Findings

| source | as written | input that shows it | evidently intended | confidence | as-written member | corrected member |
|---|---|---|---|---|---|---|
| backend/agents/analytics_agent.py:255 | The router reads `quality_acceptable` from `current_analysis`. The quality node returns it as a separate, undeclared key (line 217), so the lookup is always `False`. `continue` is never chosen and format_response never runs. | Any non-empty batch. For example, a first reply of three bullets of more than 20 characters, each containing "should", scores 0.7 and passes the quality check, yet the run ends at END with no formatted insights. | Route on the verdict the quality node computes, so an accepted batch is formatted. | not executed | `Workflow.AsWrittenNeverFormats` | `Workflow.IntendedFormatsAccepted` |
