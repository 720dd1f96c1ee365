/**
 * The Gap x Impact priority scorer. For each SWOT dimension it averages the
 * item impacts and sentiments of each of the three layers, takes the spread
 * (gap) and the mean of the three average impacts, and scores the dimension
 * with priority = round(gap * impact_mean, 2). The four dimension records are
 * then ranked by priority, highest first; dimensions with equal priority keep
 * their fixed order (strengths, weaknesses, opportunities, threats).
 */
module Scoring {
  import opened Models
  import opened Stats
  import opened Rounding

  /** The dimensions in the order the scorer visits them, which is also the tie order of the ranking. */
  const Dimensions: seq<Dimension> := [Strengths, Weaknesses, Opportunities, Threats]

  /** The three analytical layers, in the order the scorer visits them. */
  datatype Layer = Canonical | Corpus | Transactional

  const Layers: seq<Layer> := [Canonical, Corpus, Transactional]

  /** The scorer's name-to-layer table: which argument plays which layer. */
  function LayerFor(name: Layer, canonical: LayerOutput, corpus: LayerOutput, transactional: LayerOutput): LayerOutput
  {
    match name
    case Canonical => canonical
    case Corpus => corpus
    case Transactional => transactional
  }

  /** Where a dimension stands in Dimensions. */
  function Position(d: Dimension): nat
  {
    match d
    case Strengths => 0
    case Weaknesses => 1
    case Opportunities => 2
    case Threats => 3
  }

  lemma PositionIsIndex(d: Dimension)
    ensures Position(d) < |Dimensions| && Dimensions[Position(d)] == d
  {
  }

  lemma AllDimensions()
    ensures forall d: Dimension :: d in Dimensions
  {
    forall d: Dimension
      ensures d in Dimensions
    {
      PositionIsIndex(d);
    }
  }

  // ---------------------------------------------------------------------
  // Per-layer averages
  // ---------------------------------------------------------------------

  /** The impacts of the items, in order, as reals. */
  function Impacts(items: seq<SwotItem>): (xs: seq<real>)
    ensures |xs| == |items|
  {
    seq(|items|, i requires 0 <= i < |items| => items[i].impact as real)
  }

  /** The sentiments of the items, in order. */
  function Sentiments(items: seq<SwotItem>): (xs: seq<real>)
    ensures |xs| == |items|
  {
    seq(|items|, i requires 0 <= i < |items| => items[i].sentiment)
  }

  /**
   * _avg_impact: the mean impact of the items, 0.0 for an empty list. For
   * valid items it lies in [1, 10] when there are any, so in [0, 10] always.
   */
  function AvgImpact(items: seq<SwotItem>): (r: real)
    ensures items == [] ==> r == 0.0
    ensures ValidItems(items) && items != [] ==> 1.0 <= r <= 10.0
    ensures ValidItems(items) ==> 0.0 <= r <= 10.0
  {
    var xs := Impacts(items);
    if ValidItems(items) && items != [] then
      MeanBetween(xs, 1.0, 10.0);
      Mean(xs)
    else
      Mean(xs)
  }

  /**
   * _avg_sentiment: the mean sentiment of the items, 0.0 for an empty list.
   * For valid items it lies in [-1, 1].
   */
  function AvgSentiment(items: seq<SwotItem>): (r: real)
    ensures items == [] ==> r == 0.0
    ensures ValidItems(items) ==> -1.0 <= r <= 1.0
  {
    var xs := Sentiments(items);
    if ValidItems(items) && items != [] then
      MeanBetween(xs, -1.0, 1.0);
      Mean(xs)
    else
      Mean(xs)
  }

  // ---------------------------------------------------------------------
  // Scoring one dimension
  // ---------------------------------------------------------------------

  /** The record the scorer keeps for one dimension. */
  datatype DimensionResult = DimensionResult(
    layerImpacts: map<Layer, real>,
    layerSentiments: map<Layer, real>,
    gap: real,
    impactMean: real,
    priority: real)

  /** The three layer averages of dimension d, in the order canonical, corpus, transactional. */
  function ImpactList(canonical: LayerOutput, corpus: LayerOutput, transactional: LayerOutput, d: Dimension): seq<real>
  {
    [AvgImpact(canonical.Items(d)), AvgImpact(corpus.Items(d)), AvgImpact(transactional.Items(d))]
  }

  function LayerImpacts(canonical: LayerOutput, corpus: LayerOutput, transactional: LayerOutput, d: Dimension): map<Layer, real>
  {
    map[Canonical := AvgImpact(canonical.Items(d)),
        Corpus := AvgImpact(corpus.Items(d)),
        Transactional := AvgImpact(transactional.Items(d))]
  }

  function LayerSentiments(canonical: LayerOutput, corpus: LayerOutput, transactional: LayerOutput, d: Dimension): map<Layer, real>
  {
    map[Canonical := AvgSentiment(canonical.Items(d)),
        Corpus := AvgSentiment(corpus.Items(d)),
        Transactional := AvgSentiment(transactional.Items(d))]
  }

  /** The unrounded spread of the three average impacts of dimension d. */
  function RawGap(canonical: LayerOutput, corpus: LayerOutput, transactional: LayerOutput, d: Dimension): real
  {
    Gap(ImpactList(canonical, corpus, transactional, d))
  }

  /** The unrounded mean of the three average impacts of dimension d. */
  function RawMean(canonical: LayerOutput, corpus: LayerOutput, transactional: LayerOutput, d: Dimension): real
  {
    Mean(ImpactList(canonical, corpus, transactional, d))
  }

  /**
   * The record of dimension d: the per-layer averages of the three layers,
   * gap and mean rounded to three places, and the priority rounded to two
   * places from the unrounded product. The stored gap is never negative.
   */
  function Score(canonical: LayerOutput, corpus: LayerOutput, transactional: LayerOutput, d: Dimension): (r: DimensionResult)
    ensures r.gap >= 0.0
  {
    var gap := RawGap(canonical, corpus, transactional, d);
    var mean := RawMean(canonical, corpus, transactional, d);
    Round3Monotone(0.0, gap);
    RoundWholeNumber(0);
    DimensionResult(
      LayerImpacts(canonical, corpus, transactional, d),
      LayerSentiments(canonical, corpus, transactional, d),
      Round3(gap),
      Round3(mean),
      Priority(gap, mean))
  }

  /**
   * priority = round(gap * impact_mean, 2): within 0.005 of the product, and
   * in [0, 100] when gap and mean lie in [0, 10].
   */
  function Priority(gap: real, mean: real): (p: real)
    ensures gap * mean - 0.005 <= p <= gap * mean + 0.005
    ensures 0.0 <= gap <= 10.0 && 0.0 <= mean <= 10.0 ==> 0.0 <= p <= 100.0
  {
    if 0.0 <= gap <= 10.0 && 0.0 <= mean <= 10.0 then
      ProductInRange(gap, mean);
      RoundBetween(gap * mean, 0, 100);
      Round2(gap * mean)
    else
      Round2(gap * mean)
  }

  /** With valid layers, each of the three layer averages lies in [0, 10]. */
  lemma ImpactListInRange(canonical: LayerOutput, corpus: LayerOutput, transactional: LayerOutput, d: Dimension)
    requires canonical.Valid() && corpus.Valid() && transactional.Valid()
    ensures forall i :: 0 <= i < 3 ==> 0.0 <= ImpactList(canonical, corpus, transactional, d)[i] <= 10.0
  {
    ValidLayerItems(canonical, d);
    ValidLayerItems(corpus, d);
    ValidLayerItems(transactional, d);
  }

  lemma MulMonotone(x: real, y: real, s: real)
    requires s >= 0.0 && x <= y
    ensures x * s <= y * s
  {
    assert y * s - x * s == (y - x) * s;
  }

  lemma ProductInRange(a: real, b: real)
    requires 0.0 <= a <= 10.0 && 0.0 <= b <= 10.0
    ensures 0.0 <= a * b <= 100.0
  {
    MulMonotone(0.0, a, b);
    MulMonotone(a, 10.0, b);
    assert 0.0 * b == 0.0;
    assert 0.0 <= a * b <= 10.0 * b <= 100.0;
  }

  /** A gap and a mean in [0, 10] are stored in [0, 10], and their priority in [0, 100]. */
  lemma RoundedInRange(gap: real, mean: real)
    requires 0.0 <= gap <= 10.0 && 0.0 <= mean <= 10.0
    ensures 0.0 <= Round3(gap) <= 10.0 && 0.0 <= Round3(mean) <= 10.0
    ensures 0.0 <= Priority(gap, mean) <= 100.0
  {
    RoundBetween(gap, 0, 10);
    RoundBetween(mean, 0, 10);
  }

  /** With valid layers, the unrounded gap and mean of every dimension lie in [0, 10]. */
  lemma RawScoreInRange(canonical: LayerOutput, corpus: LayerOutput, transactional: LayerOutput, d: Dimension)
    requires canonical.Valid() && corpus.Valid() && transactional.Valid()
    ensures 0.0 <= RawGap(canonical, corpus, transactional, d) <= 10.0
    ensures 0.0 <= RawMean(canonical, corpus, transactional, d) <= 10.0
  {
    var xs := ImpactList(canonical, corpus, transactional, d);
    ImpactListInRange(canonical, corpus, transactional, d);
    MeanBetween(xs, 0.0, 10.0);
    assert 0.0 <= Min(xs) && Max(xs) <= 10.0;
  }

  /**
   * The gap of dimension d is the largest difference between the average
   * impacts of two layers, and some pair of layers attains it.
   */
  lemma GapIsLargestLayerDifference(canonical: LayerOutput, corpus: LayerOutput, transactional: LayerOutput, d: Dimension)
    ensures var xs := ImpactList(canonical, corpus, transactional, d);
      && (forall i, j :: 0 <= i < 3 && 0 <= j < 3 ==> xs[i] - xs[j] <= RawGap(canonical, corpus, transactional, d))
      && (exists i, j :: 0 <= i < 3 && 0 <= j < 3 && xs[i] - xs[j] == RawGap(canonical, corpus, transactional, d))
  {
    GapIsLargestPairwiseDifference(ImpactList(canonical, corpus, transactional, d));
  }

  /**
   * With valid layers, the stored gap and mean of every dimension lie in
   * [0, 10], and the priority lies in [0, 100].
   */
  lemma ScoreInRange(canonical: LayerOutput, corpus: LayerOutput, transactional: LayerOutput, d: Dimension)
    requires canonical.Valid() && corpus.Valid() && transactional.Valid()
    ensures var r := Score(canonical, corpus, transactional, d);
      0.0 <= r.gap <= 10.0 && 0.0 <= r.impactMean <= 10.0 && 0.0 <= r.priority <= 100.0
  {
    RawScoreInRange(canonical, corpus, transactional, d);
    RoundedInRange(RawGap(canonical, corpus, transactional, d), RawMean(canonical, corpus, transactional, d));
  }

  /** A dimension that has no items in any layer scores 0 everywhere. */
  lemma EmptyDimensionScoresZero(canonical: LayerOutput, corpus: LayerOutput, transactional: LayerOutput, d: Dimension)
    requires canonical.Items(d) == [] && corpus.Items(d) == [] && transactional.Items(d) == []
    ensures var r := Score(canonical, corpus, transactional, d);
      && r.layerImpacts == map[Canonical := 0.0, Corpus := 0.0, Transactional := 0.0]
      && r.layerSentiments == map[Canonical := 0.0, Corpus := 0.0, Transactional := 0.0]
      && r.gap == 0.0 && r.impactMean == 0.0 && r.priority == 0.0
  {
    assert ImpactList(canonical, corpus, transactional, d) == [0.0, 0.0, 0.0];
    GapAndMeanOfThree(0.0, 0.0, 0.0);
    RoundWholeNumber(0);
    assert 0.0 * 0.0 == 0.0;
  }

  /** Gap and mean of three values, written out. */
  lemma GapAndMeanOfThree(x: real, y: real, z: real)
    requires z <= y <= x
    ensures Gap([x, y, z]) == x - z && Mean([x, y, z]) == (x + y + z) / 3.0
  {
    var xs := [x, y, z];
    assert xs[1..] == [y, z] && xs[1..][1..] == [z];
    assert Max(xs) == x && Min(xs) == z;
    SumOfThree(x, y, z);
  }

  lemma ExampleAverages(canonical: LayerOutput, corpus: LayerOutput, transactional: LayerOutput, d: Dimension)
    requires |canonical.Items(d)| == 2 && canonical.Items(d)[0].impact == 8 && canonical.Items(d)[1].impact == 6
    requires |corpus.Items(d)| == 1 && corpus.Items(d)[0].impact == 2
    requires transactional.Items(d) == []
    ensures ImpactList(canonical, corpus, transactional, d) == [7.0, 2.0, 0.0]
  {
    var c, k := canonical.Items(d), corpus.Items(d);
    assert Impacts(c) == [8.0, 6.0] && Impacts(k) == [2.0];
    var xs := [8.0, 6.0];
    assert xs[1..] == [6.0] && xs[1..][1..] == [];
    assert Sum(xs) == 14.0;
    assert [2.0][1..] == [] && Sum([2.0]) == 2.0;
  }

  /**
   * Layer averages 7, 2 and 0 (impacts [8, 6], [2] and no items) give gap 7,
   * impact mean 3 and priority 21.
   */
  lemma ThreeLayerExample(canonical: LayerOutput, corpus: LayerOutput, transactional: LayerOutput, d: Dimension)
    requires |canonical.Items(d)| == 2 && canonical.Items(d)[0].impact == 8 && canonical.Items(d)[1].impact == 6
    requires |corpus.Items(d)| == 1 && corpus.Items(d)[0].impact == 2
    requires transactional.Items(d) == []
    ensures var r := Score(canonical, corpus, transactional, d);
      r.gap == 7.0 && r.impactMean == 3.0 && r.priority == 21.0
  {
    ExampleAverages(canonical, corpus, transactional, d);
    GapAndMeanOfThree(7.0, 2.0, 0.0);
    RoundWholeNumber(7);
    RoundWholeNumber(3);
    RoundWholeNumber(21);
    assert 7.0 * 3.0 == 21.0;
  }

  /**
   * Which layer is passed as canonical, corpus or transactional does not
   * matter: any rearrangement of the three layers gives every dimension the
   * same gap, mean and priority.
   */
  lemma LayerOrderIrrelevant(a: LayerOutput, b: LayerOutput, c: LayerOutput,
                             a': LayerOutput, b': LayerOutput, c': LayerOutput, d: Dimension)
    requires multiset{a, b, c} == multiset{a', b', c'}
    ensures RawGap(a, b, c, d) == RawGap(a', b', c', d)
    ensures RawMean(a, b, c, d) == RawMean(a', b', c', d)
    ensures var r, r' := Score(a, b, c, d), Score(a', b', c', d);
      r.gap == r'.gap && r.impactMean == r'.impactMean && r.priority == r'.priority
  {
    ImpactListOfPermutation(a, b, c, a', b', c', d);
    GapAndMeanOfPermutation(ImpactList(a, b, c, d), ImpactList(a', b', c', d));
  }

  /** Rearranging the three layers rearranges their average impacts. */
  lemma ImpactListOfPermutation(a: LayerOutput, b: LayerOutput, c: LayerOutput,
                                a': LayerOutput, b': LayerOutput, c': LayerOutput, d: Dimension)
    requires multiset{a, b, c} == multiset{a', b', c'}
    ensures multiset(ImpactList(a, b, c, d)) == multiset(ImpactList(a', b', c', d))
  {
    assert multiset([a, b, c]) == multiset{a, b, c};
    assert multiset([a', b', c']) == multiset{a', b', c'};
    var avg := (l: LayerOutput) => AvgImpact(l.Items(d));
    MapOfPermutation(avg, [a, b, c], [a', b', c']);
    MapOfThree(avg, a, b, c);
    MapOfThree(avg, a', b', c');
  }

  // ---------------------------------------------------------------------
  // Ranking
  // ---------------------------------------------------------------------

  /** A dimension record tagged with its dimension, as it appears in the ranking. */
  datatype RankedEntry = RankedEntry(dimension: Dimension, detail: DimensionResult)

  /** a comes before b: a higher priority, or the same priority and an earlier dimension. */
  predicate RanksBefore(a: RankedEntry, b: RankedEntry)
  {
    || a.detail.priority > b.detail.priority
    || (a.detail.priority == b.detail.priority && Position(a.dimension) < Position(b.dimension))
  }

  /** Non-increasing in priority, equal priorities in dimension order. */
  predicate RankedOrder(s: seq<RankedEntry>)
  {
    forall i, j :: 0 <= i < j < |s| ==> RanksBefore(s[i], s[j])
  }

  /** Entries listed in dimension order, as the scorer produces them before ranking. */
  predicate InDimensionOrder(s: seq<RankedEntry>)
  {
    forall i, j :: 0 <= i < j < |s| ==> Position(s[i].dimension) < Position(s[j].dimension)
  }

  /** Places e before the first entry whose priority is not above e's; nothing else is added or lost. */
  function Insert(e: RankedEntry, s: seq<RankedEntry>): (r: seq<RankedEntry>)
    ensures multiset(r) == multiset(s) + multiset{e}
  {
    if s == [] || e.detail.priority >= s[0].detail.priority then [e] + s
    else
      MultisetTail(s);
      [s[0]] + Insert(e, s[1..])
  }

  /**
   * A stable sort by priority, highest first (Python's sorted(..., reverse=True)):
   * the result is a permutation of s, and entries given in dimension order
   * come out in ranked order, equal priorities keeping dimension order.
   */
  function Rank(s: seq<RankedEntry>): (r: seq<RankedEntry>)
    ensures multiset(r) == multiset(s)
    ensures InDimensionOrder(s) ==> RankedOrder(r)
  {
    if s == [] then []
    else
      var rest := Rank(s[1..]);
      MultisetTail(s);
      if InDimensionOrder(s) then
        InDimensionOrderTail(s);
        RankStep(s, rest);
        Insert(s[0], rest)
      else
        Insert(s[0], rest)
  }

  lemma InDimensionOrderTail(s: seq<RankedEntry>)
    requires InDimensionOrder(s) && s != []
    ensures InDimensionOrder(s[1..])
  {
    forall i, j | 0 <= i < j < |s| - 1
      ensures Position(s[1..][i].dimension) < Position(s[1..][j].dimension)
    {
      assert s[1..][i] == s[i + 1] && s[1..][j] == s[j + 1];
    }
  }

  /** Inserting the first entry into the ranked rest keeps ranked order. */
  lemma RankStep(s: seq<RankedEntry>, rest: seq<RankedEntry>)
    requires InDimensionOrder(s) && s != []
    requires RankedOrder(rest) && multiset(rest) == multiset(s[1..])
    ensures RankedOrder(Insert(s[0], rest))
  {
    forall i | 0 <= i < |rest|
      ensures Position(s[0].dimension) < Position(rest[i].dimension)
    {
      assert rest[i] in multiset(s[1..]);
      var k :| 0 <= k < |s[1..]| && s[1..][k] == rest[i];
      assert s[k + 1] == rest[i];
    }
    InsertKeepsRankedOrder(s[0], rest);
  }

  /** No entry ranks before itself, and of two entries at most one ranks before the other. */
  lemma RanksBeforeAsymmetric(a: RankedEntry, b: RankedEntry)
    ensures !(RanksBefore(a, b) && RanksBefore(b, a))
  {
  }

  lemma PrependKeepsRankedOrder(x: RankedEntry, s: seq<RankedEntry>)
    requires RankedOrder(s)
    requires forall j :: 0 <= j < |s| ==> RanksBefore(x, s[j])
    ensures RankedOrder([x] + s)
  {
    var r := [x] + s;
    forall i, j | 0 <= i < j < |r|
      ensures RanksBefore(r[i], r[j])
    {
      if i == 0 {
        assert r[j] == s[j - 1];
      } else {
        assert r[i] == s[i - 1] && r[j] == s[j - 1];
      }
    }
  }

  lemma {:induction false} InsertKeepsRankedOrder(e: RankedEntry, s: seq<RankedEntry>)
    requires RankedOrder(s)
    requires forall i :: 0 <= i < |s| ==> Position(e.dimension) < Position(s[i].dimension)
    ensures RankedOrder(Insert(e, s))
  {
    if s == [] || e.detail.priority >= s[0].detail.priority {
      forall i | 0 <= i < |s|
        ensures RanksBefore(e, s[i])
      {
        if i > 0 {
          assert RanksBefore(s[0], s[i]);
        }
      }
      PrependKeepsRankedOrder(e, s);
    } else {
      var rest := Insert(e, s[1..]);
      InsertKeepsRankedOrder(e, s[1..]);
      forall j | 0 <= j < |rest|
        ensures RanksBefore(s[0], rest[j])
      {
        assert rest[j] in multiset(s[1..]) + multiset{e};
        if rest[j] != e {
          var k :| 0 <= k < |s[1..]| && s[1..][k] == rest[j];
          assert RanksBefore(s[0], s[k + 1]);
        }
      }
      PrependKeepsRankedOrder(s[0], rest);
    }
  }

  lemma RankedOrderTail(s: seq<RankedEntry>)
    requires RankedOrder(s) && s != []
    ensures RankedOrder(s[1..])
  {
    forall i, j | 0 <= i < j < |s| - 1
      ensures RanksBefore(s[1..][i], s[1..][j])
    {
      assert s[1..][i] == s[i + 1] && s[1..][j] == s[j + 1];
    }
  }

  /** Two ranked-order arrangements of the same entries start with the same entry. */
  lemma HeadsAgree(s: seq<RankedEntry>, t: seq<RankedEntry>)
    requires RankedOrder(s) && RankedOrder(t)
    requires s != [] && multiset(s) == multiset(t)
    ensures t != [] && s[0] == t[0]
  {
    assert s[0] in multiset(t) && t[0] in multiset(s);
    var k :| 0 <= k < |t| && t[k] == s[0];
    var m :| 0 <= m < |s| && s[m] == t[0];
    RanksBeforeAsymmetric(s[0], t[0]);
    if k > 0 {
      assert false;
    }
  }

  /**
   * Ranked order determines a sequence up to its multiset: any stable
   * descending sort of the same entries yields the same ranking.
   */
  lemma {:induction false} RankedOrderIsUnique(s: seq<RankedEntry>, t: seq<RankedEntry>)
    requires RankedOrder(s) && RankedOrder(t)
    requires multiset(s) == multiset(t)
    ensures s == t
  {
    if s == [] {
      assert |t| == |multiset(t)| == 0;
    } else {
      HeadsAgree(s, t);
      RankedOrderTail(s);
      RankedOrderTail(t);
      MultisetTail(s);
      MultisetTail(t);
      MultisetCancel(multiset(s[1..]), multiset(t[1..]), s[0]);
      RankedOrderIsUnique(s[1..], t[1..]);
      assert s == [s[0]] + s[1..] && t == [t[0]] + t[1..];
    }
  }

  // ---------------------------------------------------------------------
  // The whole computation
  // ---------------------------------------------------------------------

  /** The scorer's result: the record per dimension, and the records ranked. */
  datatype Priorities = Priorities(byDimension: map<Dimension, DimensionResult>, ranked: seq<RankedEntry>)

  /** A record for every dimension. */
  predicate Complete(m: map<Dimension, DimensionResult>)
  {
    forall d: Dimension :: d in m
  }

  function ByDimension(canonical: LayerOutput, corpus: LayerOutput, transactional: LayerOutput): (m: map<Dimension, DimensionResult>)
    ensures Complete(m)
  {
    AllDimensions();
    map d | d in Dimensions :: Score(canonical, corpus, transactional, d)
  }

  /** by_dimension holds each dimension's record under its name. */
  lemma ByDimensionAt(canonical: LayerOutput, corpus: LayerOutput, transactional: LayerOutput, d: Dimension)
    ensures d in ByDimension(canonical, corpus, transactional)
    ensures ByDimension(canonical, corpus, transactional)[d] == Score(canonical, corpus, transactional, d)
  {
    AllDimensions();
  }

  /** The records of m tagged with their dimension, in the order the dimensions were scored. */
  function EntriesOf(m: map<Dimension, DimensionResult>): (es: seq<RankedEntry>)
    requires Complete(m)
    ensures |es| == 4 && InDimensionOrder(es)
    ensures forall i :: 0 <= i < 4 ==> es[i].dimension == Dimensions[i] && es[i].detail == m[Dimensions[i]]
  {
    seq(|Dimensions|, i requires 0 <= i < |Dimensions| => RankedEntry(Dimensions[i], m[Dimensions[i]]))
  }

  /**
   * The scorer's result. by_dimension has exactly the four dimensions, and
   * ranked lists each of them once with its by_dimension record, in ranked
   * order, the highest priority first.
   */
  function PrioritiesOf(canonical: LayerOutput, corpus: LayerOutput, transactional: LayerOutput): (p: Priorities)
    ensures Complete(p.byDimension) && WellRanked(p.byDimension, p.ranked)
  {
    var m := ByDimension(canonical, corpus, transactional);
    var r := Rank(EntriesOf(m));
    RankingShape(m, r);
    Priorities(m, r)
  }

  /**
   * r ranks the complete set of records m: it holds each dimension once,
   * carrying that dimension's record, in ranked order, and its first entry
   * has the highest priority.
   */
  predicate WellRanked(m: map<Dimension, DimensionResult>, r: seq<RankedEntry>)
    requires Complete(m)
  {
    && |r| == 4
    && (forall i :: 0 <= i < 4 ==> r[i].detail == m[r[i].dimension])
    && (forall i, j :: 0 <= i < j < 4 ==> r[i].dimension != r[j].dimension)
    && RankedOrder(r)
    && (forall d :: r[0].detail.priority >= m[d].priority)
  }

  /** Any ranked-order arrangement of the tagged records of m ranks them well. */
  lemma RankingShape(m: map<Dimension, DimensionResult>, r: seq<RankedEntry>)
    requires Complete(m)
    requires multiset(r) == multiset(EntriesOf(m)) && RankedOrder(r)
    ensures WellRanked(m, r)
  {
    var es := EntriesOf(m);
    assert |r| == |multiset(r)| == |multiset(es)| == 4;
    forall i | 0 <= i < 4
      ensures r[i].detail == m[r[i].dimension]
    {
      assert r[i] in multiset(es);
    }
    forall i, j | 0 <= i < j < 4
      ensures r[i].dimension != r[j].dimension
    {
      assert RanksBefore(r[i], r[j]);
    }
    forall d
      ensures r[0].detail.priority >= m[d].priority
    {
      PositionIsIndex(d);
      var e := es[Position(d)];
      assert e in multiset(r);
      var k :| 0 <= k < 4 && r[k] == e;
      if k > 0 {
        assert RanksBefore(r[0], r[k]);
      }
    }
  }

  /** The ranking is the only ranked-order arrangement of the four records. */
  lemma RankingIsAnyStableSort(m: map<Dimension, DimensionResult>, r: seq<RankedEntry>)
    requires Complete(m)
    requires multiset(r) == multiset(EntriesOf(m))
    requires RankedOrder(r)
    ensures r == Rank(EntriesOf(m))
  {
    RankedOrderIsUnique(r, Rank(EntriesOf(m)));
  }

  /**
   * The map a loop over keys has built after its first j steps, when each
   * step copies the entry of m for its key.
   */
  ghost function Recorded<K, V>(keys: seq<K>, m: map<K, V>, j: nat): map<K, V>
    requires j <= |keys|
  {
    if j == 0 then map[]
    else if keys[j - 1] in m then Recorded(keys, m, j - 1)[keys[j - 1] := m[keys[j - 1]]]
    else Recorded(keys, m, j - 1)
  }

  /** After j steps the loop holds exactly the entries of m for the first j keys. */
  lemma {:induction false} RecordedAgrees<K, V>(keys: seq<K>, m: map<K, V>, j: nat)
    requires j <= |keys|
    ensures forall k :: k in Recorded(keys, m, j) ==> k in m && k in keys[..j] && Recorded(keys, m, j)[k] == m[k]
    ensures forall k :: k in m && k in keys[..j] ==> k in Recorded(keys, m, j)
  {
    if j > 0 {
      RecordedAgrees(keys, m, j - 1);
      assert keys[..j] == keys[..j - 1] + [keys[j - 1]];
    }
  }

  /** A loop over every key of m rebuilds m. */
  lemma RecordedAll<K, V>(keys: seq<K>, m: map<K, V>)
    requires forall k :: k in m ==> k in keys
    ensures Recorded(keys, m, |keys|) == m
  {
    RecordedAgrees(keys, m, |keys|);
    assert keys[..|keys|] == keys;
    var r := Recorded(keys, m, |keys|);
    forall k | k in m
      ensures k in r && r[k] == m[k]
    {
      assert k in keys[..|keys|];
    }
  }

  /** The two maps of layer averages hold, under each layer, the averages of that layer's items. */
  lemma LayerAveragesAt(canonical: LayerOutput, corpus: LayerOutput, transactional: LayerOutput, d: Dimension, l: Layer)
    ensures var items := LayerFor(l, canonical, corpus, transactional).Items(d);
      && l in LayerImpacts(canonical, corpus, transactional, d)
      && LayerImpacts(canonical, corpus, transactional, d)[l] == AvgImpact(items)
      && l in LayerSentiments(canonical, corpus, transactional, d)
      && LayerSentiments(canonical, corpus, transactional, d)[l] == AvgSentiment(items)
  {
    match l
    case Canonical =>
    case Corpus =>
    case Transactional =>
  }

  /**
   * The inner loop of compute_priorities: for each layer, in order, record
   * the average impact and the average sentiment of its items of dimension dim.
   */
  method LayerAverages(canonical: LayerOutput, corpus: LayerOutput, transactional: LayerOutput, dim: Dimension)
    returns (layerImpacts: map<Layer, real>, layerSents: map<Layer, real>)
    ensures layerImpacts == LayerImpacts(canonical, corpus, transactional, dim)
    ensures layerSents == LayerSentiments(canonical, corpus, transactional, dim)
  {
    ghost var impacts := LayerImpacts(canonical, corpus, transactional, dim);
    ghost var sents := LayerSentiments(canonical, corpus, transactional, dim);
    layerImpacts, layerSents := map[], map[];
    for j := 0 to |Layers|
      invariant layerImpacts == Recorded(Layers, impacts, j)
      invariant layerSents == Recorded(Layers, sents, j)
    {
      var lname := Layers[j];
      var items := LayerFor(lname, canonical, corpus, transactional).Items(dim);
      LayerAveragesAt(canonical, corpus, transactional, dim, lname);
      layerImpacts := layerImpacts[lname := AvgImpact(items)];
      layerSents := layerSents[lname := AvgSentiment(items)];
    }
    RecordedAll(Layers, impacts);
    RecordedAll(Layers, sents);
  }

  /**
   * The body of compute_priorities for one dimension: the layer averages,
   * then the gap and mean of the impacts in layer order, then the record.
   */
  method ScoreDimension(canonical: LayerOutput, corpus: LayerOutput, transactional: LayerOutput, dim: Dimension)
    returns (r: DimensionResult)
    ensures r == Score(canonical, corpus, transactional, dim)
  {
    var layerImpacts, layerSents := LayerAverages(canonical, corpus, transactional, dim);
    var impacts := [layerImpacts[Canonical], layerImpacts[Corpus], layerImpacts[Transactional]];
    assert impacts == ImpactList(canonical, corpus, transactional, dim);
    var gap := Gap(impacts);
    var impactMean := Mean(impacts);
    var priority := Priority(gap, impactMean);
    r := DimensionResult(layerImpacts, layerSents, Round3(gap), Round3(impactMean), priority);
  }

  /** compute_priorities: score every dimension in order, then rank the records by priority. */
  method ComputePriorities(canonical: LayerOutput, corpus: LayerOutput, transactional: LayerOutput)
    returns (p: Priorities)
    ensures p == PrioritiesOf(canonical, corpus, transactional)
  {
    var dimResults: map<Dimension, DimensionResult> := map[];
    ghost var byDimension := ByDimension(canonical, corpus, transactional);
    for k := 0 to |Dimensions|
      invariant dimResults == Recorded(Dimensions, byDimension, k)
    {
      var dim := Dimensions[k];
      var r := ScoreDimension(canonical, corpus, transactional, dim);
      ByDimensionAt(canonical, corpus, transactional, dim);
      dimResults := dimResults[dim := r];
    }
    AllDimensions();
    RecordedAll(Dimensions, byDimension);
    p := Priorities(dimResults, Rank(EntriesOf(dimResults)));
  }
}
