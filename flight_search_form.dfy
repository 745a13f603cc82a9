/** The handlers of src/components/flights/FlightSearchForm.tsx, acting on
    the form engine's `values`, and its option tables. */
module FlightSearchForm {
  import opened Wrappers
  import opened Text
  import opened Form
  import FlightCard
  import Flights

  datatype SelectOption = SelectOption(value: string, display: string)

  const CabinClassOptions: seq<SelectOption> := [
    SelectOption("economy", "Economy"),
    SelectOption("premium", "Premium Economy"),
    SelectOption("business", "Business"),
    SelectOption("first", "First Class")
  ]

  const AirportOptions: seq<SelectOption> := [
    SelectOption("LHR", "London Heathrow (LHR)"),
    SelectOption("CDG", "Paris Charles de Gaulle (CDG)"),
    SelectOption("FRA", "Frankfurt Airport (FRA)"),
    SelectOption("JFK", "New York JFK (JFK)"),
    SelectOption("LAX", "Los Angeles (LAX)"),
    SelectOption("DXB", "Dubai International (DXB)")
  ]

  /** The cabin select shows each class under the name the flight card gives
      it, and offers exactly the four classes. */
  lemma CabinOptionsAgreeWithLabels()
    ensures forall o :: o in CabinClassOptions ==> o.display == FlightCard.CabinClassLabel(o.value)
    ensures (set o | o in CabinClassOptions :: o.value) == {"economy", "premium", "business", "first"}
  {
    assert forall o :: o in CabinClassOptions <==>
      o == CabinClassOptions[0] || o == CabinClassOptions[1] || o == CabinClassOptions[2] || o == CabinClassOptions[3];
  }

  /** The airport selects offer exactly the airports the search service
      knows, each at least three characters long. */
  lemma AirportOptionsAreKnown()
    ensures forall i :: 0 <= i < |AirportOptions| ==>
      Flights.KnownAirport(AirportOptions[i].value) && |AirportOptions[i].value| >= 3
    ensures forall code :: Flights.KnownAirport(code) ==>
      exists i :: 0 <= i < |AirportOptions| && AirportOptions[i].value == code
  {
    forall code | Flights.KnownAirport(code)
      ensures exists i :: 0 <= i < |AirportOptions| && AirportOptions[i].value == code
    {
      if code == "LHR" { assert AirportOptions[0].value == code; }
      else if code == "CDG" { assert AirportOptions[1].value == code; }
      else if code == "FRA" { assert AirportOptions[2].value == code; }
      else if code == "JFK" { assert AirportOptions[3].value == code; }
      else if code == "LAX" { assert AirportOptions[4].value == code; }
      else { assert AirportOptions[5].value == code; }
    }
  }

  // ---------------------------------------------------------------- dates

  /** The stored return date is a date earlier than `t`. Only the date
      pickers and the trip toggle write it, as a date or as `''`. */
  predicate ReturnEarlier(values: Values, t: int) {
    "returnDate" in values && values["returnDate"].Date? && values["returnDate"].instant < t
  }

  /** `handleDepartDateChange` for the picked instant, or `None` when cleared. */
  function DepartDateChanged(values: Values, date: Option<int>): Values {
    match date
    case None => values["departDate" := Text("")]
    case Some(t) =>
      var v := values["departDate" := Date(t)];
      if ReturnEarlier(values, t) then v["returnDate" := Date(t)] else v
  }

  /** A picked departure is stored, a return date before it is moved up to
      it, so the return is never earlier afterwards; clearing stores `''`
      and keeps the return date; no other field changes. */
  lemma DepartDateRules(values: Values, date: Option<int>)
    ensures var r := DepartDateChanged(values, date);
      && r.Keys == values.Keys + {"departDate"} + (if ReturnEarlier(values, date.GetOr(0)) && date.Some? then {"returnDate"} else {})
      && (forall k :: k in values && k != "departDate" && k != "returnDate" ==> r[k] == values[k])
      && (date.None? ==> r["departDate"] == Text("") && ("returnDate" in values ==> r["returnDate"] == values["returnDate"]))
      && (date.Some? ==>
            && r["departDate"] == Date(date.value)
            && !ReturnEarlier(r, date.value)
            && (!ReturnEarlier(values, date.value) && "returnDate" in values ==> r["returnDate"] == values["returnDate"])
            && (ReturnEarlier(values, date.value) ==> r["returnDate"] == Date(date.value)))
  {
  }

  method HandleDepartDateChange(form: FormEngine, date: Option<int>)
    modifies form
    ensures form.values == DepartDateChanged(old(form.values), date)
    ensures form.errors == old(form.errors) && form.touched == old(form.touched)
    ensures form.isSubmitting == old(form.isSubmitting)
  {
    match date
    case None =>
      form.SetFieldValue("departDate", Text(""));
    case Some(t) =>
      var earlier := ReturnEarlier(form.values, t);
      form.SetFieldValue("departDate", Date(t));
      if earlier {
        form.SetFieldValue("returnDate", Date(t));
      }
  }

  /** `handleReturnDateChange`: the picked instant, or `''` when cleared. */
  method HandleReturnDateChange(form: FormEngine, date: Option<int>)
    modifies form
    ensures form.values == old(form.values)["returnDate" := if date.Some? then Date(date.value) else Text("")]
    ensures form.errors == old(form.errors) && form.touched == old(form.touched)
    ensures form.isSubmitting == old(form.isSubmitting)
  {
    form.SetFieldValue("returnDate", if date.Some? then Date(date.value) else Text(""));
  }

  datatype TripType = OneWay | RoundTrip {
    function Name(): string {
      match this
      case OneWay => "oneWay"
      case RoundTrip => "roundTrip"
    }
  }

  /** `toggleTripType`: a one-way trip also clears the return date. */
  method ToggleTripType(form: FormEngine, tripType: TripType)
    modifies form
    ensures "tripType" in form.values && form.values["tripType"] == Text(tripType.Name())
    ensures tripType == OneWay ==> form.values == old(form.values)["tripType" := Text("oneWay")]["returnDate" := Text("")]
    ensures tripType == RoundTrip ==> form.values == old(form.values)["tripType" := Text("roundTrip")]
    ensures form.errors == old(form.errors) && form.touched == old(form.touched)
    ensures form.isSubmitting == old(form.isSubmitting)
  {
    form.SetFieldValue("tripType", Text(tripType.Name()));
    if tripType == OneWay {
      form.SetFieldValue("returnDate", Text(""));
    }
  }

  // ---------------------------------------------------------------- passengers

  /** A digit of base 16, either case. */
  predicate IsHexDigit(c: char) {
    IsDigit(c) || 'a' <= c <= 'f' || 'A' <= c <= 'F'
  }

  function HexDigitValue(c: char): (d: nat)
    requires IsHexDigit(c)
    ensures d < 16
  {
    if IsDigit(c) then DigitValue(c)
    else if 'a' <= c <= 'f' then c as int - 'a' as int + 10
    else c as int - 'A' as int + 10
  }

  function HexValue(s: string): nat
    requires All(s, IsHexDigit)
  {
    if s == [] then 0 else 16 * HexValue(s[..|s| - 1]) + HexDigitValue(s[|s| - 1])
  }

  /** The longest prefix of `s` whose characters satisfy `p`. */
  function LeadingRun(s: string, p: char -> bool): (r: string)
    ensures |r| <= |s| && r == s[..|r|] && All(r, p)
    ensures |r| == |s| || !p(s[|r|])
  {
    if s == [] || !p(s[0]) then [] else [s[0]] + LeadingRun(s[1..], p)
  }

  lemma {:induction false} LeadingRunOfPrefix(a: string, b: string, p: char -> bool)
    requires All(a, p) && (b == [] || !p(b[0]))
    ensures LeadingRun(a + b, p) == a
  {
    if a != [] {
      assert (a + b)[1..] == a[1..] + b;
      LeadingRunOfPrefix(a[1..], b, p);
    } else {
      assert a + b == b;
    }
  }

  /** The digits after the sign: a `0x` prefix selects base 16; `None` when
      no digit follows. */
  function ParseUnsigned(u: string): Option<nat> {
    if |u| >= 2 && u[0] == '0' && (u[1] == 'x' || u[1] == 'X') then
      var h := LeadingRun(u[2..], IsHexDigit);
      if h == [] then None else Some(HexValue(h))
    else
      var d := LeadingRun(u, IsDigit);
      if d == [] then None else Some(DecimalValue(d))
  }

  /** JavaScript's `parseInt(s)` without a radix: leading white space, an
      optional sign, then the unsigned part; `None` is `NaN`. */
  function ParseInt(s: string): Option<int> {
    var t := TrimStart(s);
    var negative := |t| > 0 && t[0] == '-';
    var u := if |t| > 0 && (t[0] == '-' || t[0] == '+') then t[1..] else t;
    match ParseUnsigned(u)
    case None => None
    case Some(m) => Some(if negative then -(m as int) else m)
  }

  /** A run of decimal digits not starting a `0x` prefix reads as its value. */
  lemma ParseUnsignedDecimal(digits: string, rest: string)
    requires |digits| >= 1 && All(digits, IsDigit) && (rest == [] || !IsDigit(rest[0]))
    requires digits[0] != '0' || rest == [] || |digits| >= 2
    ensures ParseUnsigned(digits + rest) == Some(DecimalValue(digits))
  {
    var u := digits + rest;
    assert u[0] == digits[0];
    if |u| >= 2 && u[0] == '0' {
      assert |digits| >= 2 && u[1] == digits[1] && IsDigit(digits[1]);
    }
    LeadingRunOfPrefix(digits, rest, IsDigit);
  }

  /** Reading back a rendered count, followed by anything that is not a
      digit, gives the count. */
  lemma ParseIntReadsDecimal(n: nat, rest: string)
    requires rest == [] || !IsDigit(rest[0])
    requires n >= 1 || rest == []
    ensures ParseInt(NatToDecimal(n) + rest) == Some(n)
  {
    var digits := NatToDecimal(n);
    var s := digits + rest;
    assert s[0] == digits[0] && IsDigit(s[0]);
    assert TrimStart(s) == s;
    assert !(s[0] == '-' || s[0] == '+');
    ParseUnsignedDecimal(digits, rest);
    DecimalRoundTrip(n);
  }

  /** The value the passengers input stores: `parseInt(value) || 1`. */
  function PassengersValue(raw: string): int {
    match ParseInt(raw)
    case Some(n) => if n == 0 then 1 else n
    case None => 1
  }

  /** The stored count is never zero, and is 1 when nothing parses. */
  lemma PassengersValueNeverZero(raw: string)
    ensures PassengersValue(raw) != 0
    ensures ParseInt(raw).None? || ParseInt(raw) == Some(0) ==> PassengersValue(raw) == 1
  {
  }

  /** A shown count typed back in is kept. */
  lemma PassengersValueRoundTrip(n: nat)
    requires n >= 1
    ensures PassengersValue(NatToDecimal(n)) == n
  {
    ParseIntReadsDecimal(n, "");
    assert NatToDecimal(n) + "" == NatToDecimal(n);
  }

  /** An empty input and a zero both fall back to one passenger. */
  lemma PassengersValueFallback()
    ensures PassengersValue("") == 1 && PassengersValue("0") == 1
  {
    assert ParseInt("") == None by {
      assert TrimStart("") == "";
    }
    ParseIntReadsDecimal(0, "");
    assert NatToDecimal(0) + "" == "0";
  }

  /** The passengers input's change handler. */
  method HandlePassengersChange(form: FormEngine, raw: string)
    modifies form
    ensures form.values == old(form.values)["passengers" := Number(PassengersValue(raw))]
    ensures form.errors == old(form.errors) && form.touched == old(form.touched)
    ensures form.isSubmitting == old(form.isSubmitting)
  {
    form.SetFieldValue("passengers", Number(PassengersValue(raw)));
  }

  // ---------------------------------------------------------------- errors

  /** `getErrorForField`: a field's message once it has been touched. An untouched
      field shows nothing, and a touched one shows exactly its error, if any. */
  function ErrorForField(touched: map<string, bool>, errors: Errors, field: string): (shown: string)
    ensures !(field in touched && touched[field]) ==> shown == ""
    ensures field in touched && touched[field] ==> shown == (if field in errors then errors[field] else "")
  {
    if field in touched && touched[field] && field in errors && errors[field] != "" then errors[field] else ""
  }
}
