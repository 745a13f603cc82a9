/** The entities of src/types/index.ts. Times are instants (integers); a
    string holding a date is either empty or the ISO text of an instant. */
module Types {
  import opened Wrappers

  datatype CabinClass = Economy | Premium | Business | First {
    /** The string the application stores for the class. */
    function Name(): string {
      match this
      case Economy => "economy"
      case Premium => "premium"
      case Business => "business"
      case First => "first"
    }
  }

  /** A date string: `''`, or the `toISOString()` text of an instant. */
  datatype DateText = NoDate | At(instant: int) {
    /** JavaScript truthiness: only the empty string is falsy. */
    predicate IsSet() { At? }
  }

  datatype User = User(id: string, email: string, name: string, avatar: Option<string>)

  datatype Airport = Airport(code: string, name: string, city: string, country: string)

  datatype Airline = Airline(code: string, name: string, logo: string)

  /** One end of a flight: the airport, the instant, the terminal. */
  datatype Endpoint = Endpoint(airport: Airport, time: int, terminal: string)

  datatype Money = Money(amount: int, currency: string)

  datatype Flight = Flight(
    id: string,
    airline: Airline,
    flightNumber: string,
    departure: Endpoint,
    arrival: Endpoint,
    duration: string,
    price: Money,
    seatsAvailable: int,
    cabinClass: CabinClass)

  datatype FlightSearchParams = FlightSearchParams(
    from: string,
    to: string,
    departDate: DateText,
    returnDate: Option<DateText>,
    passengers: int,
    cabinClass: CabinClass)

  datatype PassengerType = Adult | Child | Infant

  datatype Passenger = Passenger(
    id: string,
    kind: PassengerType,
    title: string,
    firstName: string,
    lastName: string,
    dateOfBirth: DateText,
    nationality: string,
    passportNumber: Option<string>,
    passportExpiry: Option<DateText>)
}
