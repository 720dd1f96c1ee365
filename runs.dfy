/**
 * The record of one analysis run: who and what it was for, the three layer
 * outputs that were scored, and the priorities computed from them.
 */
module Runs {
  import opened Models
  import opened Scoring

  datatype RunSummary = RunSummary(
    runId: string,
    timestamp: string,
    company: string,
    desiredOutcomes: string,
    canonical: LayerOutput,
    corpus: LayerOutput,
    transactional: LayerOutput,
    priorities: Priorities)
  {
    /** The stored priorities are the scorer's result on the stored layers. */
    predicate Scored()
    {
      priorities == PrioritiesOf(canonical, corpus, transactional)
    }

    /** Every item of every stored layer is within its bounds. */
    predicate ValidLayers()
    {
      canonical.Valid() && corpus.Valid() && transactional.Valid()
    }
  }

  /**
   * In a scored summary, ranked is never empty and its first entry, the
   * run's top priority, is at least the priority of every dimension.
   */
  lemma TopPriorityIsMaximal(s: RunSummary)
    requires s.Scored()
    ensures |s.priorities.ranked| == 4
    ensures forall d :: d in s.priorities.byDimension
    ensures forall d :: s.priorities.ranked[0].detail.priority >= s.priorities.byDimension[d].priority
    ensures s.priorities.ranked[0].detail == s.priorities.byDimension[s.priorities.ranked[0].dimension]
  {
  }

  /**
   * In a scored summary of valid layers, every dimension's stored gap and
   * mean lie in [0, 10] and its priority in [0, 100].
   */
  lemma ScoredInRange(s: RunSummary, d: Dimension)
    requires s.Scored() && s.ValidLayers()
    ensures d in s.priorities.byDimension
    ensures var r := s.priorities.byDimension[d];
      0.0 <= r.gap <= 10.0 && 0.0 <= r.impactMean <= 10.0 && 0.0 <= r.priority <= 100.0
  {
    match d
    case Strengths => ScoreInRange(s.canonical, s.corpus, s.transactional, Strengths);
    case Weaknesses => ScoreInRange(s.canonical, s.corpus, s.transactional, Weaknesses);
    case Opportunities => ScoreInRange(s.canonical, s.corpus, s.transactional, Opportunities);
    case Threats => ScoreInRange(s.canonical, s.corpus, s.transactional, Threats);
  }
}
