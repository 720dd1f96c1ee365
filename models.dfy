/**
 * The records the scorer consumes: a scored SWOT item, the output of one
 * analytical layer (four lists of items, one per SWOT dimension) and the
 * bounds the record types enforce when they are built. Values outside the
 * bounds are rejected with a validation error; nothing is clamped.
 */
module Models {

  datatype Result<T, E> = Success(value: T) | Failure(error: E)

  /** The four SWOT dimensions, one per list of a layer's output. */
  datatype Dimension = Strengths | Weaknesses | Opportunities | Threats

  /** One scored item. A value of this type may hold out-of-range numbers; ValidItem says when it may not. */
  datatype SwotItem = SwotItem(text: string, impact: int, sentiment: real)

  /** The field constraints of an item: impact in [1, 10] and sentiment in [-1, 1]. */
  predicate ValidItem(item: SwotItem)
  {
    1 <= item.impact <= 10 && -1.0 <= item.sentiment <= 1.0
  }

  predicate ValidItems(items: seq<SwotItem>)
  {
    forall i :: 0 <= i < |items| ==> ValidItem(items[i])
  }

  /** The field whose constraint a rejected item broke. */
  datatype FieldError = ImpactOutOfRange(impact: int) | SentimentOutOfRange(sentiment: real)

  /**
   * Building an item validates every field and reports each field that is
   * out of range; an item is only built when there is none.
   */
  function MakeItem(text: string, impact: int, sentiment: real): (r: Result<SwotItem, seq<FieldError>>)
    ensures r.Success? <==> 1 <= impact <= 10 && -1.0 <= sentiment <= 1.0
    ensures r.Success? ==> ValidItem(r.value) && r.value.text == text
                           && r.value.impact == impact && r.value.sentiment == sentiment
    ensures r.Failure? ==> (ImpactOutOfRange(impact) in r.error <==> !(1 <= impact <= 10))
    ensures r.Failure? ==> (SentimentOutOfRange(sentiment) in r.error <==> !(-1.0 <= sentiment <= 1.0))
    ensures r.Failure? ==> forall e :: e in r.error ==> e == ImpactOutOfRange(impact) || e == SentimentOutOfRange(sentiment)
    ensures r.Failure? ==> |r.error| <= 2
  {
    var errors :=
      (if 1 <= impact <= 10 then [] else [ImpactOutOfRange(impact)])
      + (if -1.0 <= sentiment <= 1.0 then [] else [SentimentOutOfRange(sentiment)]);
    if errors == [] then Success(SwotItem(text, impact, sentiment)) else Failure(errors)
  }

  /** The output of one layer: its name, the company and its desired outcomes, and one list per dimension. */
  datatype LayerOutput = LayerOutput(
    layer: string,
    company: string,
    desiredOutcomes: string,
    strengths: seq<SwotItem>,
    weaknesses: seq<SwotItem>,
    opportunities: seq<SwotItem>,
    threats: seq<SwotItem>)
  {
    /** The list that belongs to dimension d. */
    function Items(d: Dimension): seq<SwotItem>
    {
      match d
      case Strengths => strengths
      case Weaknesses => weaknesses
      case Opportunities => opportunities
      case Threats => threats
    }

    predicate Valid()
    {
      ValidItems(strengths) && ValidItems(weaknesses) && ValidItems(opportunities) && ValidItems(threats)
    }
  }

  /** A layer built from its three text fields alone: every dimension's list is empty. */
  function NewLayer(layer: string, company: string, desiredOutcomes: string): (l: LayerOutput)
    ensures l.layer == layer && l.company == company && l.desiredOutcomes == desiredOutcomes
    ensures forall d :: l.Items(d) == []
    ensures l.Valid()
  {
    LayerOutput(layer, company, desiredOutcomes, [], [], [], [])
  }

  /** Every list of a valid layer holds valid items only. */
  lemma ValidLayerItems(l: LayerOutput, d: Dimension)
    requires l.Valid()
    ensures ValidItems(l.Items(d))
  {
    match d
    case Strengths =>
    case Weaknesses =>
    case Opportunities =>
    case Threats =>
  }
}
