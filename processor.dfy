/**
 * The shape of the enrichment capability's structured answer
 * (the `Actor` and `EventResponse` models of news_processor.py).
 * The call to the language-model provider itself is not modelled:
 * the collector receives it as an `Analyzer`, a function from text to outcome.
 */
module Processor {
  import opened Wrappers

  datatype Actor = Actor(name: string, role: string)

  /** The event categories the response schema lists for `category`. The client-side
      model keeps `category` as a plain string; this enum is the schema's list. */
  datatype EventCategory =
    | PoliticalTurmoil
    | NewProductAnnounced
    | LeadershipChange
    | HousingIssues
    | Others

  /** The parsed answer. `category` is a plain string, as on the client side. */
  datatype EventResponse = EventResponse(mainActors: seq<Actor>, otherActors: seq<Actor>, category: string)

  /** What one call of `analyze_text` gives its caller: the parsed message, which may be
      `None`, or an exception. */
  datatype Analysis = Returned(parsed: Option<EventResponse>) | Raised

  /** The enrichment capability, seen from the collector. */
  type Analyzer = string -> Analysis

  /** The label of each category, as listed in the response schema. */
  function Label(c: EventCategory): string {
    match c
    case PoliticalTurmoil => "Political Turmoil"
    case NewProductAnnounced => "New Product Announced"
    case LeadershipChange => "Leadership Change"
    case HousingIssues => "Housing Issues"
    case Others => "Others"
  }

  /** Reads a `category` string as one of the schema's categories; any string outside the
      schema's list reads as `None`. The collector itself never reads the category. */
  function ParseCategory(s: string): (r: Option<EventCategory>)
    ensures r.Some? ==> Label(r.value) == s
    ensures r.None? ==> forall c: EventCategory :: Label(c) != s
  {
    if s == "Political Turmoil" then Some(PoliticalTurmoil)
    else if s == "New Product Announced" then Some(NewProductAnnounced)
    else if s == "Leadership Change" then Some(LeadershipChange)
    else if s == "Housing Issues" then Some(HousingIssues)
    else if s == "Others" then Some(Others)
    else None
  }

  /** Every category survives the trip through its label. */
  lemma LabelRoundTrip(c: EventCategory)
    ensures ParseCategory(Label(c)) == Some(c)
  {
  }
}
