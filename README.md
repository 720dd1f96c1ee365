# SWOT Gap × Impact priority scorer, modelled in Dafny

This project models the priority scorer of the SWOT analysis engine and the
records it consumes.

A SWOT analysis is produced by three analytical layers: canonical, corpus and
transactional. Each layer gives four lists of scored items, one per dimension:
strengths, weaknesses, opportunities and threats. Every item carries an integer
impact in [1, 10] and a sentiment in [-1, 1].

For each dimension, the scorer does the following:

- It averages the impacts and the sentiments of each layer's list. An empty list averages to 0.
- It takes the gap (largest minus smallest) and the mean of the three average impacts.
- It stores `priority = round(gap * impact_mean, 2)`, together with the gap and the mean rounded to three places.

The four dimension records are then ranked by priority, highest first. The
sort is stable, so dimensions with equal priority stay in the fixed order
strengths, weaknesses, opportunities, threats.

Modules:

- `Models` (models.dfy): the item, layer and field-validation model. An item is
  built only when both of its bounds hold; otherwise every violated field is
  reported. Nothing is clamped.
- `Stats` (stats.dfy): sum, maximum, minimum, gap and mean on exact reals. It
  also proves that gap and mean depend only on the multiset of values.
- `Rounding` (rounding.dfy): Python's `round(x, n)` on exact reals, rounding
  half to even.
- `Scoring` (scoring.dfy): the layer averages and the per-dimension record. It
  also has the ranking as a stable insertion sort, and `compute_priorities`
  itself as a method: a loop over dimensions, an inner loop over layers, then
  the ranking. The method is proved equal to the functional specification
  `PrioritiesOf`.
- `Runs` (runs.dfy): the run summary record and what holds of its stored priorities.

## Model

| member | source | states |
|---|---|---|
| Models.MakeItem | helpers/models.py:7-10 | an item is built exactly when 1 <= impact <= 10 and -1 <= sentiment <= 1, with its fields unchanged; otherwise each violated bound is reported, every reported error names a violated bound with the rejected value, and there are at most two |
| Models.NewLayer | helpers/models.py:13-20 | a layer built from its three text fields keeps them and has all four dimension lists empty, so it is valid |
| Models.ValidLayerItems | helpers/models.py:13-20 | every one of the four lists of a valid layer holds only valid items |
| Scoring.PositionIsIndex | helpers/scoring.py:7 | a dimension's tie rank is its index in the fixed dimension list |
| Scoring.AllDimensions | helpers/scoring.py:7 | the fixed dimension list contains every dimension |
| Scoring.AvgImpact | helpers/scoring.py:10-11 | _avg_impact of an empty list is 0; for valid items the average lies in [1, 10] when the list is non-empty, and in [0, 10] always |
| Scoring.AvgSentiment | helpers/scoring.py:14-15 | _avg_sentiment of an empty list is 0; for valid items the average lies in [-1, 1] |
| Scoring.ImpactListInRange | helpers/scoring.py:41-46 | with valid layers, each of the three layer averages of a dimension lies in [0, 10] |
| Stats.Max | helpers/scoring.py:47 | max returns a member of the list that no element exceeds |
| Stats.Min | helpers/scoring.py:47 | min returns a member of the list that is no larger than any element |
| Stats.Gap | helpers/scoring.py:47 | the gap is never negative |
| Stats.Mean | helpers/scoring.py:48 | the mean of an empty list is 0, the `if impacts else 0.0` branch |
| Stats.GapIsLargestPairwiseDifference | helpers/scoring.py:47 | the gap bounds every pairwise difference and some pair of values attains it |
| Scoring.GapIsLargestLayerDifference | helpers/scoring.py:24-26 | a dimension's gap is the largest difference between two layers' average impacts, attained by some pair of layers |
| Stats.MeanBetweenMinAndMax | helpers/scoring.py:48 | the mean lies between the minimum and the maximum |
| Stats.GapAndMeanOfPermutation | helpers/scoring.py:46-48 | gap and mean are the same for any rearrangement of the values |
| Rounding.RoundHalfEven | helpers/scoring.py:49 | the result is within 1/2 of its argument, and an exact tie goes to the even integer |
| Rounding.Round2 | helpers/scoring.py:49 | round(x, 2) is a multiple of 0.01 within 0.005 of x |
| Rounding.Round3 | helpers/scoring.py:54-55 | round(x, 3) is a multiple of 0.001 within 0.0005 of x |
| Scoring.Priority | helpers/scoring.py:49 | the priority is within 0.005 of gap * impact_mean, and lies in [0, 100] when gap and impact_mean lie in [0, 10] |
| Rounding.Round2Monotone | helpers/scoring.py:49 | rounding to two places preserves order |
| Rounding.Round3Monotone | helpers/scoring.py:54-55 | rounding to three places preserves order |
| Rounding.RoundWholeNumber | helpers/scoring.py:49 | a whole number is unchanged by rounding to two or three places |
| Rounding.RoundBetween | helpers/scoring.py:49 | a value between two whole numbers rounds to a value between them |
| Scoring.RoundedInRange | helpers/scoring.py:49-55 | a gap and mean in [0, 10] are stored in [0, 10] and give a priority in [0, 100] |
| Scoring.RawScoreInRange | helpers/scoring.py:46-48 | with valid layers, the unrounded gap and mean of every dimension lie in [0, 10] |
| Scoring.Score | helpers/scoring.py:39-57 | the stored gap of every dimension record is never negative, whatever the layers hold |
| Scoring.ScoreInRange | helpers/scoring.py:46-57 | with valid layers, every dimension record has gap and impact_mean in [0, 10] and priority in [0, 100] |
| Scoring.EmptyDimensionScoresZero | helpers/scoring.py:10-15 | a dimension with no items in any layer has all layer averages 0 and gap, impact_mean and priority 0 |
| Scoring.ThreeLayerExample | helpers/scoring.py:46-49 | layer averages 7, 2 and 0 give gap 7, impact_mean 3 and priority 21 |
| Scoring.ImpactListOfPermutation | helpers/scoring.py:31-35 | rearranging which layer object plays which role rearranges the three average impacts |
| Scoring.LayerOrderIrrelevant | helpers/scoring.py:31-49 | gap, impact_mean and priority of a dimension do not depend on which layer is passed as canonical, corpus or transactional |
| Scoring.Insert | helpers/scoring.py:60-64 | inserting an entry into the ranking adds exactly that entry and loses none |
| Scoring.Rank | helpers/scoring.py:60-64 | the ranking is a permutation of its input, and entries given in dimension order come out by priority, highest first, with ties kept in dimension order |
| Scoring.InsertKeepsRankedOrder | helpers/scoring.py:60-64 | inserting an entry that comes earlier in dimension order keeps the ranking ordered by priority, with ties in dimension order |
| Scoring.RankedOrderIsUnique | helpers/scoring.py:60-64 | two ranked-order arrangements of the same entries are equal |
| Scoring.RankingIsAnyStableSort | helpers/scoring.py:60-64 | any arrangement of the records that is in ranked order is exactly the computed ranking |
| Scoring.ByDimension | helpers/scoring.py:37-57 | by_dimension has a record for every dimension |
| Scoring.ByDimensionAt | helpers/scoring.py:37-57 | by_dimension holds, under each dimension, exactly that dimension's record |
| Scoring.EntriesOf | helpers/scoring.py:61 | the entries to be ranked are the four records, tagged with their dimension, in dimension order |
| Scoring.RankingShape | helpers/scoring.py:59-65 | the ranking holds each dimension once with its own record, in ranked order, with a maximal priority first |
| Scoring.PrioritiesOf | helpers/scoring.py:18-65 | by_dimension has a record for every dimension, and ranked lists each dimension once with its by_dimension record, in ranked order, a maximal priority first |
| Scoring.LayerAverages | helpers/scoring.py:39-44 | the inner loop records, for each layer, the average impact and the average sentiment of its items |
| Scoring.ScoreDimension | helpers/scoring.py:39-57 | one pass of the dimension loop builds exactly that dimension's record |
| Scoring.ComputePriorities | helpers/scoring.py:18-65 | compute_priorities returns exactly the functional specification: records from the per-dimension scoring and their stable ranking |
| Runs.TopPriorityIsMaximal | helpers/models.py:23-31 | a summary whose priorities were computed from its three layers has a non-empty ranking whose first entry carries its own record and a maximal priority |
| Runs.ScoredInRange | helpers/models.py:23-31 | in such a summary of valid layers, each dimension's gap and mean lie in [0, 10] and its priority in [0, 100] |

## Left out

- Binary floating point: averages, products and means are exact reals. `round`
  is modelled as half-to-even rounding of the exact value, so results that
  float rounding would nudge across a rounding boundary are not captured.
- Python's `sum` over integer impacts followed by `/` is modelled as exact
  division. The source wraps it in `float(...)`, which does not matter for exact values.
- The `if impacts else 0.0` branches in helpers/scoring.py:47-48 can never be
  taken, because there are always three layers. `Stats.Gap` and `Stats.Mean`
  still model them for an empty list.
- The `priorities` field of the run summary is typed `Dict[str, Any]` in the
  source. The model gives it the scorer's result type, and `Runs.RunSummary.Scored`
  says when it holds the scorer's result for the stored layers.
- Field validation is modelled by `Models.MakeItem`: an item is built only when
  both bounds of helpers/models.py:9-10 hold, and out-of-range values are
  rejected, not clamped. The validation library's messages, type coercions and
  the `text` field's type checking are not modelled.
- Layer output records accept any strings for their text fields; no constraint
  is placed on them, as in the source.
- helpers/templates.py (HTML rendering), main.py (web routes, the language-model
  call, CSV bookkeeping), helpers/llm.py (prompt assembly and a foreign
  structured-output call) and helpers/persistence.py (JSON and CSV file I/O)
  are not part of this model. The CSV log row written by `persist_run`
  (helpers/persistence.py:22-23) reads `ranked[0]`; `Runs.TopPriorityIsMaximal`
  states what that entry holds in a scored summary.
- Run identifiers and timestamps are opaque strings; their generation is not
  part of the code that is modelled.
