/** The cabin label of src/components/booking/FlightSummary.tsx, a second
    copy of the one on the flight card. */
module FlightSummary {
  import FlightCard

  /** `getCabinClassLabel`. */
  function CabinClassLabel(cabinClass: string): string {
    match cabinClass
    case "economy" => "Economy"
    case "premium" => "Premium Economy"
    case "business" => "Business"
    case "first" => "First Class"
    case _ => cabinClass
  }

  /** The summary shows every cabin exactly as the flight card does. */
  lemma SameAsFlightCard(c: string)
    ensures CabinClassLabel(c) == FlightCard.CabinClassLabel(c)
    ensures CabinClassLabel("premium") == "Premium Economy" && CabinClassLabel("first") == "First Class"
  {
  }
}
