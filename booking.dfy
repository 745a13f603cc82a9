/** The booking store of src/context/BookingContext.tsx: the reducer over
    eight actions, the derived total price, and the provider's operations. */
module Booking {
  import opened Wrappers
  import opened Types
  import opened Text

  datatype Contact = Contact(email: string, phone: string)

  datatype BookingState = BookingState(
    outboundFlight: Option<Flight>,
    returnFlight: Option<Flight>,
    passengers: seq<Passenger>,
    contactDetails: Option<Contact>,
    totalPrice: int,
    bookingReference: Option<string>)

  /** A `Partial<Passenger>`: each field it gives overrides the passenger's. */
  datatype PassengerPatch = PassengerPatch(
    id: Option<string>,
    kind: Option<PassengerType>,
    title: Option<string>,
    firstName: Option<string>,
    lastName: Option<string>,
    dateOfBirth: Option<DateText>,
    nationality: Option<string>,
    passportNumber: Option<Option<string>>,
    passportExpiry: Option<Option<DateText>>)

  /** An `Omit<Passenger, 'id'>`: what `addPassenger` is given. */
  datatype NewPassenger = NewPassenger(
    kind: PassengerType,
    title: string,
    firstName: string,
    lastName: string,
    dateOfBirth: DateText,
    nationality: string,
    passportNumber: Option<string>,
    passportExpiry: Option<DateText>)

  datatype Action =
    | SelectOutboundFlight(flight: Flight)
    | SelectReturnFlight(maybeFlight: Option<Flight>)
    | AddPassenger(passenger: Passenger)
    | UpdatePassenger(id: string, data: PassengerPatch)
    | RemovePassenger(removeId: string)
    | SetContactDetails(contact: Contact)
    | ResetBooking
    | CompleteBooking(reference: string)

  const Initial := BookingState(None, None, [], None, 0, None)

  /** The summed price of the selected flights; passenger count plays no part. */
  function CalculateTotalPrice(s: BookingState): int {
    var total := if s.outboundFlight.Some? then s.outboundFlight.value.price.amount else 0;
    if s.returnFlight.Some? then total + s.returnFlight.value.price.amount else total
  }

  /** The flights the booking holds, outbound first. */
  function SelectedFlights(s: BookingState): seq<Flight> {
    (if s.outboundFlight.Some? then [s.outboundFlight.value] else [])
    + (if s.returnFlight.Some? then [s.returnFlight.value] else [])
  }

  function SumOfAmounts(fs: seq<Flight>): int {
    if fs == [] then 0 else fs[0].price.amount + SumOfAmounts(fs[1..])
  }

  /** `{ ...passenger, ...data }`. */
  function Patch(p: Passenger, d: PassengerPatch): Passenger {
    Passenger(
      d.id.GetOr(p.id), d.kind.GetOr(p.kind), d.title.GetOr(p.title),
      d.firstName.GetOr(p.firstName), d.lastName.GetOr(p.lastName),
      d.dateOfBirth.GetOr(p.dateOfBirth), d.nationality.GetOr(p.nationality),
      d.passportNumber.GetOr(p.passportNumber), d.passportExpiry.GetOr(p.passportExpiry))
  }

  function WithId(p: NewPassenger, id: string): Passenger {
    Passenger(id, p.kind, p.title, p.firstName, p.lastName, p.dateOfBirth,
              p.nationality, p.passportNumber, p.passportExpiry)
  }

  /** `passengers.map(p => p.id === id ? { ...p, ...data } : p)`. */
  function UpdateById(ps: seq<Passenger>, id: string, d: PassengerPatch): seq<Passenger> {
    seq(|ps|, i requires 0 <= i < |ps| => if ps[i].id == id then Patch(ps[i], d) else ps[i])
  }

  /** `passengers.filter(p => p.id !== id)`. */
  function RemoveById(ps: seq<Passenger>, id: string): seq<Passenger> {
    if ps == [] then []
    else (if ps[0].id == id then [] else [ps[0]]) + RemoveById(ps[1..], id)
  }

  /** How many passengers carry `id`. */
  function CountId(ps: seq<Passenger>, id: string): nat {
    if ps == [] then 0 else (if ps[0].id == id then 1 else 0) + CountId(ps[1..], id)
  }

  /** `bookingReducer`. */
  function Step(s: BookingState, a: Action): BookingState {
    match a
    case SelectOutboundFlight(f) =>
      var t := s.(outboundFlight := Some(f));
      t.(totalPrice := CalculateTotalPrice(t))
    case SelectReturnFlight(f) =>
      var t := s.(returnFlight := f);
      t.(totalPrice := CalculateTotalPrice(t))
    case AddPassenger(p) => s.(passengers := s.passengers + [p])
    case UpdatePassenger(id, d) => s.(passengers := UpdateById(s.passengers, id, d))
    case RemovePassenger(id) => s.(passengers := RemoveById(s.passengers, id))
    case SetContactDetails(c) => s.(contactDetails := Some(c))
    case ResetBooking => Initial
    case CompleteBooking(r) => s.(bookingReference := Some(r))
  }

  /** The actions applied one after another. */
  function Run(s: BookingState, actions: seq<Action>): BookingState
    decreases |actions|
  {
    if actions == [] then s else Run(Step(s, actions[0]), actions[1..])
  }

  /** The store invariant: the held total is the derived one. */
  predicate PriceConsistent(s: BookingState) {
    s.totalPrice == CalculateTotalPrice(s)
  }

  /** The guard of the review and payment pages. */
  predicate ReadyForReview(s: BookingState) {
    s.outboundFlight.Some? && |s.passengers| > 0 && s.contactDetails.Some?
  }

  /** `mockCompleteBooking`'s reference for the random draw `n`. */
  function BookingReference(n: nat): string {
    "SKY" + PadStart(NatToDecimal(n), 4, '0')
  }

  predicate IsPassengerOrContactAction(a: Action) {
    a.AddPassenger? || a.UpdatePassenger? || a.RemovePassenger? || a.SetContactDetails?
  }

  lemma TotalIsSumOfSelected(s: BookingState)
    ensures CalculateTotalPrice(s) == SumOfAmounts(SelectedFlights(s))
    ensures s.outboundFlight.None? && s.returnFlight.None? ==> CalculateTotalPrice(s) == 0
  {
    var fs := SelectedFlights(s);
    if s.outboundFlight.Some? && s.returnFlight.Some? {
      assert fs[1..] == [s.returnFlight.value];
      assert SumOfAmounts(fs[1..]) == s.returnFlight.value.price.amount + SumOfAmounts([]);
    }
  }

  lemma InitialIsConsistent()
    ensures PriceConsistent(Initial) && Initial.bookingReference.None?
    ensures Initial.passengers == [] && !ReadyForReview(Initial)
  {
  }

  lemma StepKeepsPriceConsistent(s: BookingState, a: Action)
    requires PriceConsistent(s)
    ensures PriceConsistent(Step(s, a))
  {
  }

  /** The invariant holds after any sequence of actions from the initial state. */
  lemma {:induction false} RunKeepsPriceConsistent(s: BookingState, actions: seq<Action>)
    requires PriceConsistent(s)
    ensures PriceConsistent(Run(s, actions))
    decreases |actions|
  {
    if actions != [] {
      StepKeepsPriceConsistent(s, actions[0]);
      RunKeepsPriceConsistent(Step(s, actions[0]), actions[1..]);
    }
  }

  /** Selecting flights gives the sum of their amounts; a `null` return flight
      contributes nothing. */
  lemma SelectionPrices(s: BookingState, f1: Flight, f2: Flight)
    ensures Step(Step(s, SelectOutboundFlight(f1)), SelectReturnFlight(Some(f2))).totalPrice
            == f1.price.amount + f2.price.amount
    ensures Step(Step(Step(s, SelectOutboundFlight(f1)), SelectReturnFlight(Some(f2))),
                 SelectReturnFlight(None)).totalPrice == f1.price.amount
    ensures Step(Initial, SelectReturnFlight(None)).totalPrice == 0
  {
  }

  lemma AddPassengerAppends(s: BookingState, p: Passenger)
    ensures var ps := Step(s, AddPassenger(p)).passengers;
      |ps| == |s.passengers| + 1 && ps[..|s.passengers|] == s.passengers && ps[|s.passengers|] == p
  {
  }

  lemma UpdatePassengerPointwise(ps: seq<Passenger>, id: string, d: PassengerPatch)
    ensures |UpdateById(ps, id, d)| == |ps|
    ensures forall i :: 0 <= i < |ps| && ps[i].id != id ==> UpdateById(ps, id, d)[i] == ps[i]
    ensures forall i :: 0 <= i < |ps| && ps[i].id == id ==> UpdateById(ps, id, d)[i] == Patch(ps[i], d)
    ensures CountId(ps, id) == 0 ==> UpdateById(ps, id, d) == ps
  {
    if CountId(ps, id) == 0 {
      NoCountNoMatch(ps, id);
    }
  }

  lemma {:induction false} NoCountNoMatch(ps: seq<Passenger>, id: string)
    requires CountId(ps, id) == 0
    ensures forall i :: 0 <= i < |ps| ==> ps[i].id != id
  {
    if ps != [] {
      NoCountNoMatch(ps[1..], id);
      forall i | 1 <= i < |ps| ensures ps[i].id != id { assert ps[i] == ps[1..][i - 1]; }
    }
  }

  /** The filter keeps exactly the other passengers. */
  lemma {:induction false} RemoveKeepsOthers(ps: seq<Passenger>, id: string)
    ensures forall p :: p in RemoveById(ps, id) ==> p.id != id
    ensures forall p :: p in ps && p.id != id ==> p in RemoveById(ps, id)
    ensures |RemoveById(ps, id)| == |ps| - CountId(ps, id)
  {
    if ps != [] {
      RemoveKeepsOthers(ps[1..], id);
      forall p | p in ps && p.id != id ensures p in RemoveById(ps, id) {
        if p != ps[0] { assert p in ps[1..]; }
      }
    }
  }

  /** The filter keeps order: it distributes over concatenation. */
  lemma {:induction false} RemoveDistributes(a: seq<Passenger>, b: seq<Passenger>, id: string)
    ensures RemoveById(a + b, id) == RemoveById(a, id) + RemoveById(b, id)
  {
    if a == [] {
      assert a + b == b;
    } else {
      assert (a + b)[1..] == a[1..] + b;
      RemoveDistributes(a[1..], b, id);
    }
  }

  /** Removing an id nobody has leaves the list as it is. */
  lemma {:induction false} RemoveAbsentIsIdentity(ps: seq<Passenger>, id: string)
    requires CountId(ps, id) == 0
    ensures RemoveById(ps, id) == ps
  {
    if ps != [] {
      RemoveAbsentIsIdentity(ps[1..], id);
    }
  }

  /** Adding a passenger with a fresh id and then removing that id restores the list. */
  lemma AddThenRemoveRestores(s: BookingState, p: Passenger)
    requires CountId(s.passengers, p.id) == 0
    ensures Step(Step(s, AddPassenger(p)), RemovePassenger(p.id)).passengers == s.passengers
  {
    RemoveDistributes(s.passengers, [p], p.id);
    RemoveAbsentIsIdentity(s.passengers, p.id);
    assert RemoveById([p], p.id) == [];
  }

  /** Passenger, contact and completion actions leave the flights and the total. */
  lemma NonFlightActionsKeepPrice(s: BookingState, a: Action)
    requires IsPassengerOrContactAction(a) || a.CompleteBooking?
    ensures var t := Step(s, a);
      t.outboundFlight == s.outboundFlight && t.returnFlight == s.returnFlight
      && t.totalPrice == s.totalPrice && (a.CompleteBooking? || t.bookingReference == s.bookingReference)
  {
  }

  /** Completion changes only the reference, and a second completion overwrites it. */
  lemma CompletionOverwrites(s: BookingState, r1: string, r2: string)
    ensures Step(s, CompleteBooking(r1)) == s.(bookingReference := Some(r1))
    ensures Step(Step(s, CompleteBooking(r1)), CompleteBooking(r2)) == Step(s, CompleteBooking(r2))
  {
  }

  /** Reset yields the initial state, with no reference, and is idempotent. */
  lemma ResetIsInitial(s: BookingState)
    ensures Step(s, ResetBooking) == Initial && Step(s, ResetBooking).bookingReference.None?
    ensures Step(Step(s, ResetBooking), ResetBooking) == Step(s, ResetBooking)
  {
  }

  /** For a draw below 10000 the reference is "SKY" and four digits encoding it. */
  lemma ReferenceFormat(n: nat)
    requires n < 10000
    ensures var r := BookingReference(n);
      |r| == 7 && r[..3] == "SKY" && All(r[3..], IsDigit) && DecimalValue(r[3..]) == n
  {
    var d := NatToDecimal(n);
    assert Pow10(4) == 10000;
    DecimalFits(n, 4);
    var padded := PadStart(d, 4, '0');
    var z := padded[..4 - |d|];
    assert padded == z + d;
    DecimalLeadingZeros(z, d);
    DecimalRoundTrip(n);
    assert BookingReference(n)[3..] == padded;
  }

  /** The provider: the held state, changed only by dispatching actions. */
  class BookingStore {
    var state: BookingState

    ghost predicate Valid()
      reads this
    {
      PriceConsistent(state)
    }

    constructor ()
      ensures Valid() && state == Initial
    {
      state := Initial;
    }

    method Dispatch(a: Action)
      requires Valid()
      modifies this
      ensures Valid() && state == Step(old(state), a)
    {
      StepKeepsPriceConsistent(state, a);
      state := Step(state, a);
    }

    method SelectOutbound(flight: Flight)
      requires Valid()
      modifies this
      ensures Valid() && state == Step(old(state), SelectOutboundFlight(flight))
      ensures state.outboundFlight == Some(flight) && state.totalPrice == CalculateTotalPrice(state)
    {
      Dispatch(SelectOutboundFlight(flight));
    }

    method SelectReturn(flight: Option<Flight>)
      requires Valid()
      modifies this
      ensures Valid() && state == Step(old(state), SelectReturnFlight(flight))
      ensures state.returnFlight == flight && state.totalPrice == CalculateTotalPrice(state)
    {
      Dispatch(SelectReturnFlight(flight));
    }

    /** `addPassenger`: `freshId` is the `uuidv4()` the source draws. */
    method AddNewPassenger(p: NewPassenger, freshId: string)
      requires Valid()
      modifies this
      ensures Valid() && state == Step(old(state), AddPassenger(WithId(p, freshId)))
      ensures state.passengers == old(state.passengers) + [WithId(p, freshId)]
    {
      Dispatch(AddPassenger(WithId(p, freshId)));
    }

    method Update(id: string, data: PassengerPatch)
      requires Valid()
      modifies this
      ensures Valid() && state == Step(old(state), UpdatePassenger(id, data))
    {
      Dispatch(UpdatePassenger(id, data));
    }

    method Remove(id: string)
      requires Valid()
      modifies this
      ensures Valid() && state == Step(old(state), RemovePassenger(id))
    {
      Dispatch(RemovePassenger(id));
    }

    method SetContact(email: string, phone: string)
      requires Valid()
      modifies this
      ensures Valid() && state == old(state).(contactDetails := Some(Contact(email, phone)))
    {
      Dispatch(SetContactDetails(Contact(email, phone)));
    }

    method Reset()
      requires Valid()
      modifies this
      ensures Valid() && state == Initial
    {
      Dispatch(ResetBooking);
    }

    /** `completeBooking`: `n` is the mock's random draw in 0..9999; the mock
        cannot fail, so the error path of the source is never taken. */
    method Complete(n: nat) returns (reference: string)
      requires Valid() && n < 10000
      modifies this
      ensures Valid() && reference == BookingReference(n)
      ensures state == old(state).(bookingReference := Some(reference))
    {
      reference := BookingReference(n);
      Dispatch(CompleteBooking(reference));
    }
  }
}
