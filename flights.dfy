/** The flight-search store of src/context/FlightContext.tsx: the reducer, its
    loading/error lifecycle, the mock search service and `searchFlights`. */
module Flights {
  import opened Wrappers
  import opened Types
  import opened Text

  datatype FlightState = FlightState(
    flights: seq<Flight>,
    isLoading: bool,
    error: Option<string>,
    searchParams: Option<FlightSearchParams>)

  datatype Action =
    | SearchStart(params: FlightSearchParams)
    | SearchSuccess(results: seq<Flight>)
    | SearchFailure(message: string)
    | ClearFlights
    | ResetError

  const Initial := FlightState([], false, None, None)

  /** `flightReducer`. */
  function Step(s: FlightState, a: Action): FlightState {
    match a
    case SearchStart(p) => s.(isLoading := true, error := None, searchParams := Some(p))
    case SearchSuccess(fs) => s.(flights := fs, isLoading := false)
    case SearchFailure(m) => s.(isLoading := false, error := Some(m), flights := [])
    case ClearFlights => s.(flights := [], searchParams := None)
    case ResetError => s.(error := None)
  }

  function Run(s: FlightState, actions: seq<Action>): FlightState
    decreases |actions|
  {
    if actions == [] then s else Run(Step(s, actions[0]), actions[1..])
  }

  /** The store invariant: never loading while holding an error. */
  predicate NotLoadingWithError(s: FlightState) {
    !(s.isLoading && s.error.Some?)
  }

  lemma InitialIsIdle()
    ensures NotLoadingWithError(Initial) && !Initial.isLoading && Initial.flights == []
    ensures Initial.error.None? && Initial.searchParams.None?
  {
  }

  lemma SearchStartEffect(s: FlightState, p: FlightSearchParams)
    ensures var t := Step(s, SearchStart(p));
      t.isLoading && t.error.None? && t.searchParams == Some(p) && t.flights == s.flights
  {
  }

  lemma SearchSuccessEffect(s: FlightState, fs: seq<Flight>)
    ensures var t := Step(s, SearchSuccess(fs));
      t.flights == fs && !t.isLoading && t.error == s.error && t.searchParams == s.searchParams
  {
  }

  lemma SearchFailureEffect(s: FlightState, m: string)
    ensures var t := Step(s, SearchFailure(m));
      t.flights == [] && !t.isLoading && t.error == Some(m) && t.searchParams == s.searchParams
  {
  }

  lemma ClearAndResetEffect(s: FlightState)
    ensures Step(s, ClearFlights) == s.(flights := [], searchParams := None)
    ensures Step(s, ClearFlights).isLoading == s.isLoading && Step(s, ClearFlights).error == s.error
    ensures Step(s, ResetError) == s.(error := None)
  {
  }

  lemma StepKeepsInvariant(s: FlightState, a: Action)
    requires NotLoadingWithError(s)
    ensures NotLoadingWithError(Step(s, a))
  {
  }

  lemma {:induction false} RunKeepsInvariant(s: FlightState, actions: seq<Action>)
    requires NotLoadingWithError(s)
    ensures NotLoadingWithError(Run(s, actions))
    decreases |actions|
  {
    if actions != [] {
      StepKeepsInvariant(s, actions[0]);
      RunKeepsInvariant(Step(s, actions[0]), actions[1..]);
    }
  }

  // ---------------------------------------------------------------------
  // The mock search service

  const InvalidAirports := "Invalid airports selected"
  /** The `RangeError` message `toISOString` throws for an Invalid Date, which is
      what `new Date('')` gives when no departure date is set. */
  const InvalidTimeValue := "Invalid time value"

  const Airports: map<string, Airport> := map[
    "LHR" := Airport("LHR", "Heathrow Airport", "London", "United Kingdom"),
    "CDG" := Airport("CDG", "Charles de Gaulle Airport", "Paris", "France"),
    "FRA" := Airport("FRA", "Frankfurt Airport", "Frankfurt", "Germany"),
    "JFK" := Airport("JFK", "John F. Kennedy Airport", "New York", "United States"),
    "LAX" := Airport("LAX", "Los Angeles International Airport", "Los Angeles", "United States"),
    "DXB" := Airport("DXB", "Dubai International Airport", "Dubai", "United Arab Emirates")]

  const AirlineLogo := "https://images.unsplash.com/photo-1464037866556-6812c9d1c72e?auto=format&fit=crop&w=50&h=50"

  const Airlines: seq<Airline> := [
    Airline("BA", "British Airways", AirlineLogo),
    Airline("AF", "Air France", AirlineLogo),
    Airline("LH", "Lufthansa", AirlineLogo),
    Airline("EK", "Emirates", AirlineLogo)]

  /** The airport check as intended: one of the six table codes. */
  predicate KnownAirport(code: string) {
    code in Airports
  }

  /** Names `airports[code]` also finds on a plain object: Object.prototype's members. */
  const ObjectPrototypeMembers: set<string> := {
    "constructor", "__defineGetter__", "__defineSetter__", "hasOwnProperty",
    "__lookupGetter__", "__lookupSetter__", "isPrototypeOf", "propertyIsEnumerable",
    "toString", "valueOf", "__proto__", "toLocaleString"}

  /** The airport check as written: `airports[code]` is truthy. */
  predicate AirportLookupTruthyAsWritten(code: string) {
    code in Airports || code in ObjectPrototypeMembers
  }

  /** As written, an inherited member name such as "toString" passes the check. */
  lemma PrototypeNamePassesCheck()
    ensures AirportLookupTruthyAsWritten("toString") && !KnownAirport("toString")
    ensures AirportLookupTruthyAsWritten("constructor") && !KnownAirport("constructor")
  {
  }

  /** The cabin-class base price table. */
  function BasePrice(c: CabinClass): (p: int)
    ensures p >= 100
  {
    match c
    case Economy => 100
    case Premium => 300
    case Business => 600
    case First => 1200
  }

  /** Each cabin class costs more than the one below it, and Economy is the cheapest. */
  lemma BasePricesOrdered()
    ensures BasePrice(Economy) == 100
    ensures BasePrice(Economy) < BasePrice(Premium) < BasePrice(Business) < BasePrice(First)
    ensures forall c: CabinClass :: BasePrice(Economy) <= BasePrice(c)
  {
  }

  /** `Math.round`: halves round up. */
  function Round(x: real): int {
    (x + 0.5).Floor
  }

  /** `Math.round(basePrice * priceVariation) * params.passengers`. */
  function FinalPrice(c: CabinClass, variation: real, passengers: int): int {
    Round(BasePrice(c) as real * variation) * passengers
  }

  /** The random choices behind one generated flight. */
  datatype Draw = Draw(
    airline: nat,        // index into Airlines, 0..3
    numberSuffix: nat,   // 100..1099
    departTime: int,     // departDate with random hours and quarter-hour minutes
    hours: nat,          // 1..8
    quarters: nat,       // 0..3
    departTerminal: nat, // 1..5
    arrivalTerminal: nat,// 1..5
    variation: real,     // 0.85 <= v < 1.15
    seats: nat)          // 1..50

  /** What `Math.random` can produce for one flight. */
  predicate DrawInRange(d: Draw) {
    && d.airline < 4
    && 100 <= d.numberSuffix < 1100
    && 1 <= d.hours <= 8
    && d.quarters < 4
    && 1 <= d.departTerminal <= 5 && 1 <= d.arrivalTerminal <= 5
    && 0.85 <= d.variation < 1.15
    && 1 <= d.seats <= 50
  }

  predicate DrawsInRange(draws: seq<Draw>) {
    5 <= |draws| <= 10 && forall i :: 0 <= i < |draws| ==> DrawInRange(draws[i])
  }

  const MillisPerMinute := 60000

  /** The flight the loop pushes at index `i`. */
  function BuildFlight(p: FlightSearchParams, i: nat, d: Draw): Flight
    requires KnownAirport(p.from) && KnownAirport(p.to) && DrawInRange(d)
  {
    var airline := Airlines[d.airline];
    var minutes := d.quarters * 15;
    Flight(
      "FLIGHT-" + NatToDecimal(i + 1),
      airline,
      airline.code + NatToDecimal(d.numberSuffix),
      Endpoint(Airports[p.from], d.departTime, "T" + NatToDecimal(d.departTerminal)),
      Endpoint(Airports[p.to], d.departTime + (d.hours * 60 + minutes) * MillisPerMinute,
               "T" + NatToDecimal(d.arrivalTerminal)),
      NatToDecimal(d.hours) + "h " + NatToDecimal(minutes) + "m",
      Money(FinalPrice(p.cabinClass, d.variation, p.passengers), "USD"),
      d.seats,
      p.cabinClass)
  }

  /** The unsorted flights, in generation order. */
  function Generate(p: FlightSearchParams, draws: seq<Draw>): (fs: seq<Flight>)
    requires KnownAirport(p.from) && KnownAirport(p.to)
    requires forall i :: 0 <= i < |draws| ==> DrawInRange(draws[i])
  {
    seq(|draws|, i requires 0 <= i < |draws| => BuildFlight(p, i, draws[i]))
  }

  predicate SortedByPrice(fs: seq<Flight>) {
    forall i, j :: 0 <= i < j < |fs| ==> fs[i].price.amount <= fs[j].price.amount
  }

  /** Every flight in `fs` costs at least `b`. */
  predicate CostsAtLeast(fs: seq<Flight>, b: int) {
    forall k :: 0 <= k < |fs| ==> b <= fs[k].price.amount
  }

  /** Inserts `f` before the first flight that does not cost less. */
  function InsertByPrice(f: Flight, fs: seq<Flight>): (r: seq<Flight>)
    ensures multiset(r) == multiset(fs) + multiset{f}
  {
    if fs == [] then [f]
    else if f.price.amount <= fs[0].price.amount then [f] + fs
    else
      assert fs == [fs[0]] + fs[1..];
      [fs[0]] + InsertByPrice(f, fs[1..])
  }

  lemma {:induction false} InsertKeepsBound(f: Flight, fs: seq<Flight>, b: int)
    requires b <= f.price.amount && CostsAtLeast(fs, b)
    ensures CostsAtLeast(InsertByPrice(f, fs), b)
  {
    if fs != [] && f.price.amount > fs[0].price.amount {
      InsertKeepsBound(f, fs[1..], b);
    }
  }

  lemma {:induction false} InsertKeepsSorted(f: Flight, fs: seq<Flight>)
    requires SortedByPrice(fs)
    ensures SortedByPrice(InsertByPrice(f, fs))
  {
    if fs != [] && f.price.amount > fs[0].price.amount {
      var rest := InsertByPrice(f, fs[1..]);
      InsertKeepsSorted(f, fs[1..]);
      assert CostsAtLeast(fs[1..], fs[0].price.amount);
      InsertKeepsBound(f, fs[1..], fs[0].price.amount);
      var r := [fs[0]] + rest;
      forall i, j | 0 <= i < j < |r| ensures r[i].price.amount <= r[j].price.amount {
        if i > 0 { assert r[i] == rest[i - 1] && r[j] == rest[j - 1]; }
        else { assert r[j] == rest[j - 1]; }
      }
    }
  }

  /** `Array.prototype.sort` with `(a, b) => a.price.amount - b.price.amount`: a
      stable sort by ascending amount. */
  function SortByPrice(fs: seq<Flight>): (r: seq<Flight>)
    ensures multiset(r) == multiset(fs) && SortedByPrice(r)
  {
    if fs == [] then []
    else
      var rest := SortByPrice(fs[1..]);
      assert fs == [fs[0]] + fs[1..];
      InsertKeepsSorted(fs[0], rest);
      InsertByPrice(fs[0], rest)
  }

  /** What the mock service resolves to, or the message it throws: the airport
      check first, then the departure time of the first generated flight. */
  function SearchResult(p: FlightSearchParams, draws: seq<Draw>): Result<seq<Flight>, string>
    requires forall i :: 0 <= i < |draws| ==> DrawInRange(draws[i])
  {
    if !(KnownAirport(p.from) && KnownAirport(p.to)) then Failure(InvalidAirports)
    else if !p.departDate.IsSet() then Failure(InvalidTimeValue)
    else Success(SortByPrice(Generate(p, draws)))
  }

  /** `mockSearchFlights`: the airport check, the generation loop, the sort. */
  method MockSearchFlights(p: FlightSearchParams, draws: seq<Draw>) returns (r: Result<seq<Flight>, string>)
    requires DrawsInRange(draws)
    ensures r == SearchResult(p, draws)
  {
    if !(p.from in Airports) || !(p.to in Airports) {
      return Failure(InvalidAirports);
    }
    var flights: seq<Flight> := [];
    ghost var all := Generate(p, draws);
    for i := 0 to |draws|
      invariant flights == all[..i]
      invariant i > 0 ==> p.departDate.IsSet()
    {
      if !p.departDate.IsSet() {
        // `departDate.toISOString()` on the Invalid Date built from ''.
        return Failure(InvalidTimeValue);
      }
      assert all[..i + 1] == all[..i] + [all[i]];
      flights := flights + [BuildFlight(p, i, draws[i])];
    }
    assert flights == all[..|draws|] == all;
    return Success(SortByPrice(flights));
  }

  /** A flight of the requested cabin between the requested airports. */
  predicate OnRoute(f: Flight, p: FlightSearchParams)
    requires KnownAirport(p.from) && KnownAirport(p.to)
  {
    f.cabinClass == p.cabinClass && f.departure.airport == Airports[p.from] && f.arrival.airport == Airports[p.to]
  }

  lemma GeneratedOnRoute(p: FlightSearchParams, draws: seq<Draw>)
    requires KnownAirport(p.from) && KnownAirport(p.to) && DrawsInRange(draws)
    ensures forall j :: 0 <= j < |Generate(p, draws)| ==> OnRoute(Generate(p, draws)[j], p)
  {
  }

  /** A reordering keeps a property every element has. */
  lemma PermutationOnRoute(g: seq<Flight>, fs: seq<Flight>, p: FlightSearchParams)
    requires KnownAirport(p.from) && KnownAirport(p.to)
    requires multiset(fs) == multiset(g) && forall j :: 0 <= j < |g| ==> OnRoute(g[j], p)
    ensures |fs| == |g| && forall i :: 0 <= i < |fs| ==> OnRoute(fs[i], p)
  {
    assert |fs| == |multiset(fs)| == |multiset(g)| == |g|;
    forall i | 0 <= i < |fs|
      ensures OnRoute(fs[i], p)
    {
      assert fs[i] in multiset(g);
      var j :| 0 <= j < |g| && g[j] == fs[i];
    }
  }

  /** The service fails exactly when an airport is unknown or no departure date is
      set, each with its own message, and otherwise returns every generated flight,
      cheapest first, each in the requested cabin. */
  lemma SearchResultContract(p: FlightSearchParams, draws: seq<Draw>)
    requires DrawsInRange(draws)
    ensures SearchResult(p, draws).Failure? <==>
      !(KnownAirport(p.from) && KnownAirport(p.to)) || !p.departDate.IsSet()
    ensures !(KnownAirport(p.from) && KnownAirport(p.to)) ==> SearchResult(p, draws) == Failure(InvalidAirports)
    ensures KnownAirport(p.from) && KnownAirport(p.to) && !p.departDate.IsSet() ==>
      SearchResult(p, draws) == Failure(InvalidTimeValue)
    ensures SearchResult(p, draws).Success? ==>
      var fs := SearchResult(p, draws).value;
      && SortedByPrice(fs) && multiset(fs) == multiset(Generate(p, draws))
      && 5 <= |fs| <= 10
      && forall i :: 0 <= i < |fs| ==>
           (fs[i].cabinClass == p.cabinClass
            && fs[i].departure.airport == Airports[p.from] && fs[i].arrival.airport == Airports[p.to])
  {
    if KnownAirport(p.from) && KnownAirport(p.to) && p.departDate.IsSet() {
      var g := Generate(p, draws);
      GeneratedOnRoute(p, draws);
      PermutationOnRoute(g, SortByPrice(g), p);
    }
  }

  /** With at least one passenger every generated price is positive: the rounded
      base price is at least 85. */
  lemma PricesPositive(c: CabinClass, variation: real, passengers: int)
    requires 0.85 <= variation && passengers >= 1
    ensures FinalPrice(c, variation, passengers) >= 85 * passengers
  {
    var b := BasePrice(c) as real * variation;
    assert b >= 85.0;
    assert Round(b) >= 85;
  }

  /** `searchFlights` as two dispatches: start, then success or failure. */
  function SearchSequence(s: FlightState, p: FlightSearchParams, outcome: Result<seq<Flight>, string>): FlightState {
    var started := Step(s, SearchStart(p));
    match outcome
    case Success(fs) => Step(started, SearchSuccess(fs))
    case Failure(m) => Step(started, SearchFailure(m))
  }

  /** Whatever the service does, the search ends not loading, with the request
      recorded and exactly one of results or error. */
  lemma SearchSequenceEnds(s: FlightState, p: FlightSearchParams, outcome: Result<seq<Flight>, string>)
    ensures var t := SearchSequence(s, p, outcome);
      && !t.isLoading && t.searchParams == Some(p) && NotLoadingWithError(t)
      && (outcome.Success? ==> t.flights == outcome.value && t.error.None?)
      && (outcome.Failure? ==> t.flights == [] && t.error == Some(outcome.error))
  {
  }

  /** The provider: the held state, changed only by dispatching actions. */
  class FlightStore {
    var state: FlightState

    ghost predicate Valid()
      reads this
    {
      NotLoadingWithError(state)
    }

    constructor ()
      ensures Valid() && state == Initial
    {
      state := Initial;
    }

    method Dispatch(a: Action)
      requires Valid()
      modifies this
      ensures Valid() && state == Step(old(state), a)
    {
      StepKeepsInvariant(state, a);
      state := Step(state, a);
    }

    /** `searchFlights`; `draws` are the mock's random choices. */
    method SearchFlights(p: FlightSearchParams, draws: seq<Draw>)
      requires Valid() && DrawsInRange(draws)
      modifies this
      ensures Valid() && state == SearchSequence(old(state), p, SearchResult(p, draws))
      ensures !state.isLoading && state.searchParams == Some(p)
    {
      Dispatch(SearchStart(p));
      var r := MockSearchFlights(p, draws);
      match r
      case Success(fs) => Dispatch(SearchSuccess(fs));
      case Failure(m) => Dispatch(SearchFailure(m));
    }

    method Clear()
      requires Valid()
      modifies this
      ensures Valid() && state == old(state).(flights := [], searchParams := None)
    {
      Dispatch(ClearFlights);
    }

    method ClearError()
      requires Valid()
      modifies this
      ensures Valid() && state == old(state).(error := None)
    {
      Dispatch(ResetError);
    }
  }
}
