/** The contact and passenger step of src/components/booking/PassengerForm.tsx:
    its validation and the submission that fills the booking. */
module PassengerForm {
  import opened Wrappers
  import opened Types
  import opened Text
  import opened Email
  import Booking

  /** One `passengerInfo` entry; the passport fields may be absent. */
  datatype PassengerEntry = PassengerEntry(
    firstName: string,
    lastName: string,
    dateOfBirth: DateText,
    nationality: string,
    passportNumber: Option<string>,
    passportExpiry: Option<DateText>)

  datatype PassengerValues = PassengerValues(email: string, phone: string, passengerInfo: seq<PassengerEntry>)

  const BlankEntry := PassengerEntry("", "", NoDate, "", Some(""), Some(NoDate))

  /** `initialValues`: the signed-in user's email when there is one, and
      `totalPassengers` blank entries. */
  function InitialValues(signedInEmail: Option<string>, totalPassengers: nat): (v: PassengerValues)
    ensures |v.passengerInfo| == totalPassengers
    ensures forall i :: 0 <= i < totalPassengers ==> v.passengerInfo[i] == BlankEntry
    ensures v.email == signedInEmail.GetOr("") && v.phone == ""
  {
    PassengerValues(signedInEmail.GetOr(""), "", seq(totalPassengers, _ => BlankEntry))
  }

  // ---------------------------------------------------------------- phone

  /** `[\s()\-]`: what is deleted before the phone pattern is tried. */
  predicate IsPhoneSeparator(c: char) {
    IsSpace(c) || c == '(' || c == ')' || c == '-'
  }

  predicate NotPhoneSeparator(c: char) {
    !IsPhoneSeparator(c)
  }

  function StripPhone(p: string): string {
    Filter(NotPhoneSeparator, p)
  }

  /** `[0-9\s]{8,15}`. */
  predicate PhoneBody(s: string) {
    8 <= |s| <= 15 && All(s, c => IsDigit(c) || IsSpace(c))
  }

  /** `^\+?[0-9\s]{8,15}$`. */
  predicate PhonePattern(t: string) {
    PhoneBody(t) || (|t| > 0 && t[0] == '+' && PhoneBody(t[1..]))
  }

  const PhoneRequired := "Phone number is required"
  const InvalidPhone := "Invalid phone number"

  function PhoneError(p: string): Option<string> {
    if p == "" then Some(PhoneRequired)
    else if !PhonePattern(StripPhone(p)) then Some(InvalidPhone)
    else None
  }

  /** A non-empty phone passes exactly when, without separators, it is an
      optional `+` and then 8 to 15 digits. */
  lemma PhoneRule(p: string)
    ensures p == "" ==> PhoneError(p) == Some(PhoneRequired)
    ensures p != "" ==>
      (PhoneError(p) == None <==>
        var t := StripPhone(p);
        || (8 <= |t| <= 15 && All(t, IsDigit))
        || (|t| > 0 && t[0] == '+' && 8 <= |t| - 1 <= 15 && All(t[1..], IsDigit)))
  {
    var t := StripPhone(p);
    assert All(t, NotPhoneSeparator);
    if |t| > 0 {
      assert All(t[1..], NotPhoneSeparator);
    }
  }

  /** Separators may be inserted anywhere in a non-empty phone number
      without changing the verdict. */
  lemma SeparatorsIgnored(a: string, c: char, b: string)
    requires IsPhoneSeparator(c) && a + b != ""
    ensures PhoneError(a + [c] + b) == PhoneError(a + b)
  {
    StripSeparator(a, c, b);
    assert |a + [c] + b| > 0;
  }

  lemma StripSeparator(a: string, c: char, b: string)
    requires IsPhoneSeparator(c)
    ensures StripPhone(a + [c] + b) == StripPhone(a + b)
  {
    assert Filter(NotPhoneSeparator, [c]) == [] by {
      assert Filter(NotPhoneSeparator, [c]) == [] + Filter(NotPhoneSeparator, [c][1..]);
    }
    FilterAppend(NotPhoneSeparator, a, [c]);
    assert Filter(NotPhoneSeparator, a + [c]) == Filter(NotPhoneSeparator, a);
    FilterAppend(NotPhoneSeparator, a + [c], b);
    FilterAppend(NotPhoneSeparator, a, b);
  }

  // ---------------------------------------------------------------- passenger

  const FirstNameRequired := "First name is required"
  const LastNameRequired := "Last name is required"
  const BirthDateRequired := "Date of birth is required"
  const NationalityRequired := "Nationality is required"
  const PassportRequired := "Passport number is required for international flights"
  const PassportExpiryRequired := "Passport expiry date is required for international flights"
  const PassportExpired := "Passport must not be expired"

  const PassengerFields: set<string> :=
    {"firstName", "lastName", "dateOfBirth", "nationality", "passportNumber", "passportExpiry"}

  function Required(present: bool, message: string): Option<string> {
    if present then None else Some(message)
  }

  /** A passport number that is absent or empty is missing. */
  predicate HasText(s: Option<string>) {
    s.Some? && s.value != ""
  }

  /** The expiry must be set and strictly later than `now`. */
  function PassportExpiryError(e: Option<DateText>, now: int): Option<string> {
    if e.None? || e.value.NoDate? then Some(PassportExpiryRequired)
    else if e.value.instant <= now then Some(PassportExpired)
    else None
  }

  /** The `passengerErrors` record for one entry at the instant `now`. */
  function PassengerErrors(p: PassengerEntry, now: int): map<string, string> {
    var e := Put(map[], "firstName", Required(p.firstName != "", FirstNameRequired));
    var e := Put(e, "lastName", Required(p.lastName != "", LastNameRequired));
    var e := Put(e, "dateOfBirth", Required(p.dateOfBirth.IsSet(), BirthDateRequired));
    var e := Put(e, "nationality", Required(p.nationality != "", NationalityRequired));
    var e := Put(e, "passportNumber", Required(HasText(p.passportNumber), PassportRequired));
    Put(e, "passportExpiry", PassportExpiryError(p.passportExpiry, now))
  }

  lemma PassengerErrorsRules(p: PassengerEntry, now: int)
    ensures var e := PassengerErrors(p, now);
      && e.Keys <= PassengerFields
      && ("firstName" in e <==> p.firstName == "") && ("firstName" in e ==> e["firstName"] == FirstNameRequired)
      && ("lastName" in e <==> p.lastName == "") && ("lastName" in e ==> e["lastName"] == LastNameRequired)
      && ("dateOfBirth" in e <==> !p.dateOfBirth.IsSet()) && ("dateOfBirth" in e ==> e["dateOfBirth"] == BirthDateRequired)
      && ("nationality" in e <==> p.nationality == "") && ("nationality" in e ==> e["nationality"] == NationalityRequired)
      && ("passportNumber" in e <==> !HasText(p.passportNumber))
      && ("passportNumber" in e ==> e["passportNumber"] == PassportRequired)
      && ("passportExpiry" in e <==> !(p.passportExpiry.Some? && p.passportExpiry.value.At? && p.passportExpiry.value.instant > now))
      && (p.passportExpiry.Some? && p.passportExpiry.value.At? ==>
            ("passportExpiry" in e <==> p.passportExpiry.value.instant <= now)
            && ("passportExpiry" in e ==> e["passportExpiry"] == PassportExpired))
      && (!(p.passportExpiry.Some? && p.passportExpiry.value.At?) ==> e["passportExpiry"] == PassportExpiryRequired)
  {
    PassengerErrorsFields(p, now);
  }

  /** Each key holds its own rule's message, when there is one. */
  lemma PassengerErrorsFields(p: PassengerEntry, now: int)
    ensures var e := PassengerErrors(p, now);
      && e.Keys <= PassengerFields
      && ("firstName" in e <==> p.firstName == "") && ("firstName" in e ==> e["firstName"] == FirstNameRequired)
      && ("lastName" in e <==> p.lastName == "") && ("lastName" in e ==> e["lastName"] == LastNameRequired)
      && ("dateOfBirth" in e <==> !p.dateOfBirth.IsSet()) && ("dateOfBirth" in e ==> e["dateOfBirth"] == BirthDateRequired)
      && ("nationality" in e <==> p.nationality == "") && ("nationality" in e ==> e["nationality"] == NationalityRequired)
      && ("passportNumber" in e <==> !HasText(p.passportNumber))
      && ("passportNumber" in e ==> e["passportNumber"] == PassportRequired)
      && ("passportExpiry" in e <==> PassportExpiryError(p.passportExpiry, now).Some?)
      && ("passportExpiry" in e ==> e["passportExpiry"] == PassportExpiryError(p.passportExpiry, now).value)
  {
  }

  /** A blank entry fails every passenger rule. */
  lemma BlankEntryFailsEveryRule(now: int)
    ensures PassengerErrors(BlankEntry, now).Keys == PassengerFields
  {
    PassengerErrorsRules(BlankEntry, now);
  }

  // ---------------------------------------------------------------- validate

  /** The current passenger's errors, keyed by its index. */
  datatype IndexedErrors = IndexedErrors(index: nat, fields: map<string, string>)

  datatype FormErrors = FormErrors(contact: map<string, string>, passengerInfo: Option<IndexedErrors>)

  /** `validate` with the component's `currentIndex` and the current instant
      `now`; `None` where `passengerInfo[currentIndex]` is missing and reading
      its fields throws. */
  function Validate(v: PassengerValues, currentIndex: int, now: int): Option<FormErrors> {
    if !(0 <= currentIndex < |v.passengerInfo|) then None
    else
      var contact := Put(Put(map[], "email", EmailFieldError(v.email)), "phone", PhoneError(v.phone));
      var pe := PassengerErrors(v.passengerInfo[currentIndex], now);
      Some(FormErrors(contact, if pe == map[] then None else Some(IndexedErrors(currentIndex, pe))))
  }

  lemma ValidateRules(v: PassengerValues, currentIndex: int, now: int)
    ensures Validate(v, currentIndex, now).None? <==> !(0 <= currentIndex < |v.passengerInfo|)
    ensures Validate(v, currentIndex, now).Some? ==>
      var r := Validate(v, currentIndex, now).value;
      && r.contact.Keys <= {"email", "phone"}
      && ("email" in r.contact <==> EmailFieldError(v.email).Some?)
      && ("email" in r.contact ==> r.contact["email"] == EmailFieldError(v.email).value)
      && ("phone" in r.contact <==> PhoneError(v.phone).Some?)
      && ("phone" in r.contact ==> r.contact["phone"] == PhoneError(v.phone).value)
      && (r.passengerInfo.Some? <==> PassengerErrors(v.passengerInfo[currentIndex], now) != map[])
      && (r.passengerInfo.Some? ==>
            r.passengerInfo.value.index == currentIndex
            && r.passengerInfo.value.fields == PassengerErrors(v.passengerInfo[currentIndex], now))
  {
  }

  /** Only the current passenger is examined: entries at other indices, and
      how many there are, make no difference. */
  lemma OnlyCurrentPassengerChecked(v: PassengerValues, w: PassengerValues, currentIndex: int, now: int)
    requires v.email == w.email && v.phone == w.phone
    requires 0 <= currentIndex < |v.passengerInfo| && 0 <= currentIndex < |w.passengerInfo|
    requires v.passengerInfo[currentIndex] == w.passengerInfo[currentIndex]
    ensures Validate(v, currentIndex, now) == Validate(w, currentIndex, now)
  {
  }

  /** No errors at all exactly when the contact fields and the current
      passenger pass every rule. */
  lemma ValidateEmptyIffValid(v: PassengerValues, currentIndex: int, now: int)
    requires 0 <= currentIndex < |v.passengerInfo|
    ensures var r := Validate(v, currentIndex, now).value;
      (r.contact == map[] && r.passengerInfo.None?) <==>
        && IsEmail(v.email) && PhoneError(v.phone) == None
        && PassengerErrors(v.passengerInfo[currentIndex], now) == map[]
  {
    ValidateRules(v, currentIndex, now);
    var r := Validate(v, currentIndex, now).value;
    if r.contact != map[] {
      var k :| k in r.contact;
    }
  }

  // ---------------------------------------------------------------- submit

  /** What `handleSubmit` passes to `addPassenger` for one entry. */
  function ToNewPassenger(p: PassengerEntry): Booking.NewPassenger {
    Booking.NewPassenger(Adult, "Mr", p.firstName, p.lastName, p.dateOfBirth,
                         p.nationality, p.passportNumber, p.passportExpiry)
  }

  /** The passengers `handleSubmit` appends, with the generated ids `ids`. */
  function Submitted(entries: seq<PassengerEntry>, ids: seq<string>): (ps: seq<Passenger>)
    requires |ids| == |entries|
    ensures |ps| == |entries|
    ensures forall i :: 0 <= i < |entries| ==>
      && ps[i].id == ids[i] && ps[i].kind == Adult && ps[i].title == "Mr"
      && ps[i].firstName == entries[i].firstName && ps[i].lastName == entries[i].lastName
      && ps[i].dateOfBirth == entries[i].dateOfBirth && ps[i].nationality == entries[i].nationality
      && ps[i].passportNumber == entries[i].passportNumber && ps[i].passportExpiry == entries[i].passportExpiry
  {
    seq(|entries|, i requires 0 <= i < |entries| => Booking.WithId(ToNewPassenger(entries[i]), ids[i]))
  }

  /** `handleSubmit`: store the contact details, then append every entry in
      order. `ids` are the identifiers `addPassenger` generates, one per entry. */
  method HandleSubmit(booking: Booking.BookingStore, v: PassengerValues, ids: seq<string>)
    requires booking.Valid() && |ids| == |v.passengerInfo|
    modifies booking
    ensures booking.Valid()
    ensures booking.state == old(booking.state).(
      contactDetails := Some(Booking.Contact(v.email, v.phone)),
      passengers := old(booking.state.passengers) + Submitted(v.passengerInfo, ids))
  {
    booking.SetContact(v.email, v.phone);
    var i := 0;
    while i < |v.passengerInfo|
      invariant 0 <= i <= |v.passengerInfo|
      invariant booking.Valid()
      invariant booking.state == old(booking.state).(
        contactDetails := Some(Booking.Contact(v.email, v.phone)),
        passengers := old(booking.state.passengers) + Submitted(v.passengerInfo, ids)[..i])
    {
      booking.AddNewPassenger(ToNewPassenger(v.passengerInfo[i]), ids[i]);
      assert Submitted(v.passengerInfo, ids)[..i + 1]
          == Submitted(v.passengerInfo, ids)[..i] + [Booking.WithId(ToNewPassenger(v.passengerInfo[i]), ids[i])];
      i := i + 1;
    }
    assert Submitted(v.passengerInfo, ids)[..i] == Submitted(v.passengerInfo, ids);
  }

  /** After a submission with at least one passenger on a booking with an
      outbound flight, the review and payment pages' guard holds. */
  lemma SubmitMakesReady(s: Booking.BookingState, v: PassengerValues, ids: seq<string>)
    requires |ids| == |v.passengerInfo| && |v.passengerInfo| > 0 && s.outboundFlight.Some?
    ensures Booking.ReadyForReview(s.(
      contactDetails := Some(Booking.Contact(v.email, v.phone)),
      passengers := s.passengers + Submitted(v.passengerInfo, ids)))
  {
  }
}
