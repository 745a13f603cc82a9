/** The search page of src/components/flights/FlightSearch.tsx: the form
    schema, the flattening of its issues into the form's error record, the
    request built on submit, and the `showResults` flag. */
module FlightSearch {
  import opened Wrappers
  import opened Types
  import Flights

  datatype TripType = OneWay | RoundTrip

  datatype SearchValues = SearchValues(
    from: string,
    to: string,
    departDate: DateText,
    returnDate: DateText,
    tripType: TripType,
    passengers: int,
    cabinClass: CabinClass)

  const InitialValues := SearchValues("", "", NoDate, NoDate, OneWay, 1, Economy)

  const FromRequired := "Please select a departure airport"
  const ToRequired := "Please select an arrival airport"
  const DepartRequired := "Please select a departure date"
  const TooFewPassengers := "At least 1 passenger is required"
  const TooManyPassengers := "Maximum 9 passengers allowed"
  const SameAirports := "Departure and arrival airports must be different"

  /** One schema issue: the first segment of its path and its message. */
  datatype Issue = Issue(path: string, message: string)

  /** The issue of one rule: none when it passes. */
  function IssueIf(failed: bool, path: string, message: string): seq<Issue> {
    if failed then [Issue(path, message)] else []
  }

  /** Every field rule passes. */
  predicate FieldsValid(v: SearchValues) {
    |v.from| >= 3 && |v.to| >= 3 && v.departDate.IsSet() && 1 <= v.passengers <= 9
  }

  /** The issues of the schema's fields, in the schema's order. The enum
      fields and the optional `returnDate` cannot fail on the values the form
      holds. */
  function FieldIssues(v: SearchValues): seq<Issue> {
    IssueIf(|v.from| < 3, "from", FromRequired)
    + IssueIf(|v.to| < 3, "to", ToRequired)
    + IssueIf(!v.departDate.IsSet(), "departDate", DepartRequired)
    + IssueIf(v.passengers < 1, "passengers", TooFewPassengers)
    + IssueIf(v.passengers > 9, "passengers", TooManyPassengers)
  }

  /** Whether the refinement reports equal airports. */
  predicate Refined(v: SearchValues, refineOnDirty: bool) {
    (FieldsValid(v) || refineOnDirty) && v.from == v.to
  }

  /** The issues `flightSearchSchema.parse` collects: the fields', then the
      object refinement's. Whether the refinement is still run once a field
      has failed depends on the schema library's version, so `refineOnDirty`
      says which. */
  function SchemaIssues(v: SearchValues, refineOnDirty: bool): seq<Issue> {
    var fields := FieldIssues(v);
    fields + IssueIf((fields == [] || refineOnDirty) && v.from == v.to, "to", SameAirports)
  }

  /** The record the `forEach` over the issues builds: an issue with a
      non-empty first path segment writes its message under that key. */
  function Flatten(issues: seq<Issue>): map<string, string>
    decreases |issues|
  {
    if issues == [] then map[]
    else
      var last := issues[|issues| - 1];
      var m := Flatten(issues[..|issues| - 1]);
      if last.path != "" then m[last.path := last.message] else m
  }

  /** `validate`: `{}` when the schema accepts the values, the flattened
      issues otherwise. */
  method Validate(v: SearchValues, refineOnDirty: bool) returns (errors: map<string, string>)
    ensures errors == Flatten(SchemaIssues(v, refineOnDirty))
  {
    var issues := SchemaIssues(v, refineOnDirty);
    if issues == [] {
      return map[];
    }
    errors := FlattenIssues(issues);
  }

  /** The `forEach` loop over the issues. */
  method FlattenIssues(issues: seq<Issue>) returns (errors: map<string, string>)
    ensures errors == Flatten(issues)
  {
    errors := map[];
    for i := 0 to |issues|
      invariant errors == Flatten(issues[..i])
    {
      assert issues[..i + 1][..i] == issues[..i];
      if issues[i].path != "" {
        errors := errors[issues[i].path := issues[i].message];
      }
    }
    assert issues[..|issues|] == issues;
  }

  /** A key is present exactly when some issue names it, and it holds the
      message of the last such issue. */
  lemma {:induction false} FlattenLastWins(issues: seq<Issue>, k: string)
    ensures k in Flatten(issues) <==> k != "" && exists i :: 0 <= i < |issues| && issues[i].path == k
    ensures k in Flatten(issues) ==>
      exists i :: 0 <= i < |issues| && issues[i].path == k && Flatten(issues)[k] == issues[i].message
        && forall j :: i < j < |issues| ==> issues[j].path != k
    decreases |issues|
  {
    if issues != [] {
      var n := |issues| - 1;
      var init := issues[..n];
      FlattenLastWins(init, k);
      if issues[n].path == k && k != "" {
        assert Flatten(issues)[k] == issues[n].message;
      } else if k in Flatten(init) {
        var i :| 0 <= i < |init| && init[i].path == k && Flatten(init)[k] == init[i].message
          && forall j :: i < j < |init| ==> init[j].path != k;
        assert issues[i] == init[i];
        assert forall j :: i < j < |issues| ==> issues[j].path != k by {
          forall j | i < j < |issues| ensures issues[j].path != k {
            if j < n { assert issues[j] == init[j]; }
          }
        }
      } else {
        assert forall i :: 0 <= i < n ==> issues[i] == init[i];
      }
    }
  }

  /** Flattening issue lists one after the other: later keys win. */
  lemma {:induction false} FlattenConcat(a: seq<Issue>, b: seq<Issue>)
    ensures Flatten(a + b) == Flatten(a) + Flatten(b)
    decreases |b|
  {
    if b == [] {
      assert a + b == a;
    } else {
      var n := |b| - 1;
      assert (a + b)[..|a + b| - 1] == a + b[..n];
      assert (a + b)[|a + b| - 1] == b[n];
      FlattenConcat(a, b[..n]);
    }
  }

  lemma FlattenIssueIf(failed: bool, path: string, message: string)
    requires path != ""
    ensures Flatten(IssueIf(failed, path, message)) == if failed then map[path := message] else map[]
  {
    if failed {
      assert [Issue(path, message)][..0] == [];
    }
  }

  function MapIf(failed: bool, key: string, message: string): (m: map<string, string>)
    ensures m.Keys == if failed then {key} else {}
    ensures failed ==> m[key] == message
  {
    if failed then map[key := message] else map[]
  }

  /** The flattened field issues, one union term per rule. */
  function FieldErrors(v: SearchValues): map<string, string> {
    MapIf(|v.from| < 3, "from", FromRequired)
    + MapIf(|v.to| < 3, "to", ToRequired)
    + MapIf(!v.departDate.IsSet(), "departDate", DepartRequired)
    + MapIf(v.passengers < 1, "passengers", TooFewPassengers)
    + MapIf(v.passengers > 9, "passengers", TooManyPassengers)
  }

  lemma FlattenFieldIssues(v: SearchValues)
    ensures Flatten(FieldIssues(v)) == FieldErrors(v)
    ensures FieldIssues(v) == [] <==> FieldsValid(v)
  {
    var i0 := IssueIf(|v.from| < 3, "from", FromRequired);
    var i1 := IssueIf(|v.to| < 3, "to", ToRequired);
    var i2 := IssueIf(!v.departDate.IsSet(), "departDate", DepartRequired);
    var i3 := IssueIf(v.passengers < 1, "passengers", TooFewPassengers);
    var i4 := IssueIf(v.passengers > 9, "passengers", TooManyPassengers);
    FlattenIssueIf(|v.from| < 3, "from", FromRequired);
    FlattenIssueIf(|v.to| < 3, "to", ToRequired);
    FlattenIssueIf(!v.departDate.IsSet(), "departDate", DepartRequired);
    FlattenIssueIf(v.passengers < 1, "passengers", TooFewPassengers);
    FlattenIssueIf(v.passengers > 9, "passengers", TooManyPassengers);
    FlattenConcat(i0, i1);
    FlattenConcat(i0 + i1, i2);
    FlattenConcat(i0 + i1 + i2, i3);
    FlattenConcat(i0 + i1 + i2 + i3, i4);
  }

  /** The field messages, and the refinement's message under `to` last. */
  lemma FlattenedSchema(v: SearchValues, refineOnDirty: bool)
    ensures Flatten(SchemaIssues(v, refineOnDirty)) == FieldErrors(v) + MapIf(Refined(v, refineOnDirty), "to", SameAirports)
  {
    FlattenFieldIssues(v);
    FlattenConcat(FieldIssues(v), IssueIf(Refined(v, refineOnDirty), "to", SameAirports));
    FlattenIssueIf(Refined(v, refineOnDirty), "to", SameAirports);
  }

  // One lemma per rule keeps each proof about the five-way union small.
  lemma FieldErrorsKeys(v: SearchValues)
    ensures FieldErrors(v).Keys <= {"from", "to", "departDate", "passengers"}
  { }

  lemma FieldErrorsFrom(v: SearchValues)
    ensures var e := FieldErrors(v); ("from" in e <==> |v.from| < 3) && ("from" in e ==> e["from"] == FromRequired)
  { }

  lemma FieldErrorsTo(v: SearchValues)
    ensures var e := FieldErrors(v); ("to" in e <==> |v.to| < 3) && ("to" in e ==> e["to"] == ToRequired)
  { }

  lemma FieldErrorsDepart(v: SearchValues)
    ensures var e := FieldErrors(v); ("departDate" in e <==> !v.departDate.IsSet()) && ("departDate" in e ==> e["departDate"] == DepartRequired)
  { }

  lemma FieldErrorsPassengers(v: SearchValues)
    ensures var e := FieldErrors(v);
      && ("passengers" in e <==> v.passengers < 1 || v.passengers > 9)
      && (v.passengers < 1 ==> e["passengers"] == TooFewPassengers)
      && (v.passengers > 9 ==> e["passengers"] == TooManyPassengers)
  { }

  /** Each field rule shows up under its own key, with its own message. */
  lemma FieldErrorsRules(v: SearchValues)
    ensures var e := FieldErrors(v);
      && e.Keys <= {"from", "to", "departDate", "passengers"}
      && ("from" in e <==> |v.from| < 3) && ("from" in e ==> e["from"] == FromRequired)
      && ("to" in e <==> |v.to| < 3) && ("to" in e ==> e["to"] == ToRequired)
      && ("departDate" in e <==> !v.departDate.IsSet()) && ("departDate" in e ==> e["departDate"] == DepartRequired)
      && ("passengers" in e <==> v.passengers < 1 || v.passengers > 9)
      && (v.passengers < 1 ==> e["passengers"] == TooFewPassengers)
      && (v.passengers > 9 ==> e["passengers"] == TooManyPassengers)
  {
    FieldErrorsKeys(v); FieldErrorsFrom(v); FieldErrorsTo(v); FieldErrorsDepart(v); FieldErrorsPassengers(v);
  }

  /** The schema's rules as they reach the form: short airports, a missing
      departure date and a passenger count outside 1 to 9 each give their
      message; equal airports override the `to` message whenever the
      refinement runs; `returnDate` is never required. */
  lemma ValidateRules(v: SearchValues, refineOnDirty: bool)
    ensures var e := Flatten(SchemaIssues(v, refineOnDirty));
      var refined := Refined(v, refineOnDirty);
      && e.Keys <= {"from", "to", "departDate", "passengers"}
      && "returnDate" !in e
      && ("from" in e <==> |v.from| < 3) && ("from" in e ==> e["from"] == FromRequired)
      && ("to" in e <==> |v.to| < 3 || refined)
      && (refined ==> e["to"] == SameAirports)
      && (!refined && |v.to| < 3 ==> e["to"] == ToRequired)
      && ("departDate" in e <==> !v.departDate.IsSet()) && ("departDate" in e ==> e["departDate"] == DepartRequired)
      && ("passengers" in e <==> v.passengers < 1 || v.passengers > 9)
      && (v.passengers < 1 ==> e["passengers"] == TooFewPassengers)
      && (v.passengers > 9 ==> e["passengers"] == TooManyPassengers)
  {
    ValidateTo(v, refineOnDirty);
    ValidateOtherFields(v, refineOnDirty);
  }

  lemma ValidateTo(v: SearchValues, refineOnDirty: bool)
    ensures var e := Flatten(SchemaIssues(v, refineOnDirty));
      var refined := Refined(v, refineOnDirty);
      && ("to" in e <==> |v.to| < 3 || refined)
      && (refined ==> e["to"] == SameAirports)
      && (!refined && |v.to| < 3 ==> e["to"] == ToRequired)
  {
    FlattenedSchema(v, refineOnDirty);
    FieldErrorsTo(v);
  }

  lemma ValidateOtherFields(v: SearchValues, refineOnDirty: bool)
    ensures var e := Flatten(SchemaIssues(v, refineOnDirty));
      && e.Keys <= {"from", "to", "departDate", "passengers"}
      && "returnDate" !in e
      && ("from" in e <==> |v.from| < 3) && ("from" in e ==> e["from"] == FromRequired)
      && ("departDate" in e <==> !v.departDate.IsSet()) && ("departDate" in e ==> e["departDate"] == DepartRequired)
      && ("passengers" in e <==> v.passengers < 1 || v.passengers > 9)
      && (v.passengers < 1 ==> e["passengers"] == TooFewPassengers)
      && (v.passengers > 9 ==> e["passengers"] == TooManyPassengers)
  {
    FlattenedSchema(v, refineOnDirty);
    var f := FieldErrors(v);
    var r := MapIf(Refined(v, refineOnDirty), "to", SameAirports);
    FieldErrorsKeys(v);
    FieldErrorsFrom(v);
    FieldErrorsDepart(v);
    FieldErrorsPassengers(v);
    OutsideTo(f, r, "from");
    OutsideTo(f, r, "departDate");
    OutsideTo(f, r, "passengers");
    OutsideTo(f, r, "returnDate");
  }

  /** A map holding at most `to` leaves every other key of the union alone. */
  lemma OutsideTo(f: map<string, string>, r: map<string, string>, k: string)
    requires r.Keys <= {"to"} && k != "to"
    ensures k in f + r <==> k in f
    ensures k in f ==> (f + r)[k] == f[k]
  {
  }

  /** Valid input gives `{}`, and only valid input does. */
  lemma ValidateEmptyIffValid(v: SearchValues, refineOnDirty: bool)
    ensures Flatten(SchemaIssues(v, refineOnDirty)) == map[] <==> FieldsValid(v) && v.from != v.to
  {
    ValidateRules(v, refineOnDirty);
    var e := Flatten(SchemaIssues(v, refineOnDirty));
    if !(FieldsValid(v) && v.from != v.to) {
      if |v.from| < 3 { assert "from" in e; }
      else if |v.to| < 3 { assert "to" in e; }
      else if !v.departDate.IsSet() { assert "departDate" in e; }
      else if !(1 <= v.passengers <= 9) { assert "passengers" in e; }
      else { assert "to" in e; }
    }
  }

  /** The untouched form reports the missing airports and date; with the
      refinement run, the equal empty airports take over the `to` message. */
  lemma InitialValuesErrors(refineOnDirty: bool)
    ensures var e := Flatten(SchemaIssues(InitialValues, refineOnDirty));
      && e.Keys == {"from", "to", "departDate"}
      && e["to"] == (if refineOnDirty then SameAirports else ToRequired)
  {
    ValidateRules(InitialValues, refineOnDirty);
  }

  /** The request `handleSubmit` passes to `searchFlights`: the return date
      only for a round trip. */
  function SearchRequest(v: SearchValues): (p: FlightSearchParams)
  {
    FlightSearchParams(v.from, v.to, v.departDate,
                       if v.tripType == RoundTrip then Some(v.returnDate) else None,
                       v.passengers, v.cabinClass)
  }

  /** A request built from values the schema accepts names two different
      airports, a departure date and 1 to 9 passengers, and carries a return
      date exactly for round trips. */
  lemma ValidValuesGiveValidRequest(v: SearchValues, refineOnDirty: bool)
    requires Flatten(SchemaIssues(v, refineOnDirty)) == map[]
    ensures var p := SearchRequest(v);
      && p.from != p.to && |p.from| >= 3 && |p.to| >= 3 && p.departDate.IsSet()
      && 1 <= p.passengers <= 9 && p.cabinClass == v.cabinClass
      && (p.returnDate.Some? <==> v.tripType == RoundTrip)
      && (p.returnDate.Some? ==> p.returnDate.value == v.returnDate)
  {
    ValidateEmptyIffValid(v, refineOnDirty);
  }

  class SearchPage {
    var showResults: bool

    constructor ()
      ensures !showResults
    {
      showResults := false;
    }

    /** `handleSubmit`: search, then show the results. The search settles in
        the store whatever its outcome, so the results are always shown. */
    method HandleSubmit(store: Flights.FlightStore, v: SearchValues, draws: seq<Flights.Draw>)
      requires store.Valid() && Flights.DrawsInRange(draws)
      modifies this, store
      ensures store.Valid() && showResults
      ensures store.state == Flights.SearchSequence(old(store.state), SearchRequest(v),
                                                     Flights.SearchResult(SearchRequest(v), draws))
    {
      store.SearchFlights(SearchRequest(v), draws);
      showResults := true;
    }
  }
}
