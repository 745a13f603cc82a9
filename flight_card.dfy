/** The display mappings of src/components/flights/FlightCard.tsx. */
module FlightCard {
  import opened Text

  /** `getCabinClassLabel`: the display name of a cabin class, or the input itself. */
  function CabinClassLabel(cabinClass: string): string {
    match cabinClass
    case "economy" => "Economy"
    case "premium" => "Premium Economy"
    case "business" => "Business"
    case "first" => "First Class"
    case _ => cabinClass
  }

  /** The four classes get their names; anything else is shown as given. */
  lemma CabinClassLabels(c: string)
    ensures CabinClassLabel("economy") == "Economy"
    ensures CabinClassLabel("premium") == "Premium Economy"
    ensures CabinClassLabel("business") == "Business"
    ensures CabinClassLabel("first") == "First Class"
    ensures c !in {"economy", "premium", "business", "first"} ==> CabinClassLabel(c) == c
  {
  }

  const ManySeats := "Many seats available"
  const LimitedSeats := "Limited seats available"

  /** `getSeatsLabel`. */
  function SeatsLabel(seatsAvailable: int): string {
    if seatsAvailable > 9 then ManySeats
    else if seatsAvailable > 5 then LimitedSeats
    else "Only " + IntToString(seatsAvailable) + " " + (if seatsAvailable == 1 then "seat" else "seats") + " left"
  }

  /** The badge colour: `success`, `warning` or `error`. */
  datatype Variant = Success | Warning | Error

  /** `getSeatsVariant`. */
  function SeatsVariant(seatsAvailable: int): Variant {
    if seatsAvailable > 9 then Success
    else if seatsAvailable > 5 then Warning
    else Error
  }

  /** Label and badge use the same thresholds: each label goes with exactly
      one variant. */
  lemma LabelAndVariantAgree(n: int)
    ensures SeatsVariant(n) == Success <==> SeatsLabel(n) == ManySeats
    ensures SeatsVariant(n) == Warning <==> SeatsLabel(n) == LimitedSeats
    ensures SeatsVariant(n) == Error <==> SeatsLabel(n)[..5] == "Only "
  {
    if n <= 5 {
      var l := SeatsLabel(n);
      assert l[..5] == "Only ";
      assert l[0] != ManySeats[0] && l[0] != LimitedSeats[0];
    } else {
      assert SeatsLabel(n)[..5][0] != 'O';
    }
  }

  lemma SeatsThresholds(n: int)
    ensures n > 9 ==> SeatsLabel(n) == ManySeats && SeatsVariant(n) == Success
    ensures 6 <= n <= 9 ==> SeatsLabel(n) == LimitedSeats && SeatsVariant(n) == Warning
    ensures n <= 5 ==> SeatsVariant(n) == Error
  {
  }

  /** One seat is singular, any other count plural. */
  lemma OneSeatWording()
    ensures SeatsLabel(1) == "Only 1 seat left"
  {
  }

  lemma FewSeatsWording()
    ensures SeatsLabel(5) == "Only 5 seats left"
  {
  }

  lemma NoSeatsWording()
    ensures SeatsLabel(0) == "Only 0 seats left"
  {
  }
}
