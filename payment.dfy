/** The card form of src/components/payment/PaymentForm.tsx: input formatting,
    field validation and the processing flag around `completeBooking`. */
module Payment {
  import opened Wrappers
  import opened Text
  import Booking

  // ---------------------------------------------------------------- card number

  /** `replace(/(.{4})/g, '$1 ')` on a string without white space (where `.`
      matches every character): a space after every complete group of four. */
  function SpaceEveryFour(s: string): string
    requires All(s, NotSpace)
    decreases |s|
  {
    if |s| < 4 then s else s[..4] + " " + SpaceEveryFour(s[4..])
  }

  /** Groups of four separated by single spaces, no space at either end. */
  function Grouped(s: string): (r: string)
    decreases |s|
  {
    if |s| <= 4 then s else s[..4] + " " + Grouped(s[4..])
  }

  /** The card-number input handler: drop white space, group by four, trim. */
  function FormatCardNumber(value: string): string {
    Trim(SpaceEveryFour(RemoveSpaces(value)))
  }

  lemma {:induction false} SpaceEveryFourIsGroupedPlusTail(s: string)
    requires All(s, NotSpace)
    ensures SpaceEveryFour(s) == Grouped(s) + (if |s| > 0 && |s| % 4 == 0 then " " else "")
    decreases |s|
  {
    if |s| >= 4 {
      SpaceEveryFourIsGroupedPlusTail(s[4..]);
    }
  }

  /** The exact layout of `Grouped`: a space at every fifth position and
      nowhere else, the characters of `s` in order in between. */
  lemma {:induction false} GroupedLayout(s: string)
    requires All(s, NotSpace)
    ensures var r := Grouped(s);
      && |r| == (if s == [] then 0 else |s| + (|s| - 1) / 4)
      && (forall i :: 0 <= i < |r| ==> (IsSpace(r[i]) <==> i % 5 == 4))
      && (forall i :: 0 <= i < |r| && i % 5 != 4 ==> 0 <= i - i / 5 < |s| && r[i] == s[i - i / 5])
    decreases |s|
  {
    if |s| > 4 {
      var t := s[4..];
      GroupedLayout(t);
      var r := Grouped(s);
      assert r == s[..4] + " " + Grouped(t);
      forall i | 5 <= i < |r|
        ensures r[i] == Grouped(t)[i - 5]
        ensures (i - 5) % 5 == i % 5 && (i - 5) / 5 == i / 5 - 1
      {
      }
    }
  }

  lemma {:induction false} RemoveSpacesOfGrouped(s: string)
    requires All(s, NotSpace)
    ensures RemoveSpaces(Grouped(s)) == s
    decreases |s|
  {
    if |s| > 4 {
      RemoveSpacesOfGrouped(s[4..]);
      FilterAppend(NotSpace, s[..4], " ");
      FilterAppend(NotSpace, s[..4] + " ", Grouped(s[4..]));
      assert s[..4] + s[4..] == s;
    }
  }

  /** The trimmed grouping is `Grouped`: only a final space is ever trimmed. */
  lemma TrimmedGrouping(s: string)
    requires All(s, NotSpace)
    ensures Trim(SpaceEveryFour(s)) == Grouped(s)
  {
    SpaceEveryFourIsGroupedPlusTail(s);
    GroupedEnds(s);
    TrimOfTrimmed(Grouped(s), ' ');
  }

  /** `Grouped` starts and ends with characters of `s`, never with white space. */
  lemma GroupedEnds(s: string)
    requires All(s, NotSpace)
    ensures var r := Grouped(s); r == [] || (!IsSpace(r[0]) && !IsSpace(r[|r| - 1]))
  {
    GroupedLayout(s);
    var r := Grouped(s);
    if r != [] {
      assert !IsSpace(r[0]);
      LastPositionNotSpace(|s|);
    }
  }

  /** The last position of a grouping of `n >= 1` characters is not a fifth one. */
  lemma LastPositionNotSpace(n: int)
    requires n >= 1
    ensures (n + (n - 1) / 4 - 1) % 5 != 4
  {
    var m := n - 1;
    var q, t := m / 4, m % 4;
    assert m == 4 * q + t;
    assert m + m / 4 == 5 * q + t;
    assert (5 * q + t) % 5 == t;
  }

  /** The formatted number is the white-space-free input, grouped by four. */
  lemma FormatCardNumberIsGrouped(value: string)
    ensures FormatCardNumber(value) == Grouped(RemoveSpaces(value))
  {
    TrimmedGrouping(RemoveSpaces(value));
  }

  /** Deleting the spaces of the output gives back the input without white space. */
  lemma CardNumberKeepsCharacters(value: string)
    ensures RemoveSpaces(FormatCardNumber(value)) == RemoveSpaces(value)
  {
    FormatCardNumberIsGrouped(value);
    RemoveSpacesOfGrouped(RemoveSpaces(value));
  }

  /** Formatting an already formatted number changes nothing. */
  lemma CardNumberIdempotent(value: string)
    ensures FormatCardNumber(FormatCardNumber(value)) == FormatCardNumber(value)
  {
    CardNumberKeepsCharacters(value);
    FormatCardNumberIsGrouped(value);
    FormatCardNumberIsGrouped(FormatCardNumber(value));
  }

  /** No white space at either end; a space exactly at every fifth position;
      16 characters other than white space become 19 (the field's `maxLength`). */
  lemma CardNumberLayout(value: string)
    ensures var r := FormatCardNumber(value);
      && (r == [] || (!IsSpace(r[0]) && !IsSpace(r[|r| - 1])))
      && (forall i :: 0 <= i < |r| ==> (IsSpace(r[i]) <==> i % 5 == 4))
      && (|RemoveSpaces(value)| == 16 ==> |r| == 19)
      && |r| == (if RemoveSpaces(value) == [] then 0 else |RemoveSpaces(value)| + (|RemoveSpaces(value)| - 1) / 4)
  {
    FormatCardNumberIsGrouped(value);
    GroupedLayout(RemoveSpaces(value));
    GroupedEnds(RemoveSpaces(value));
  }

  // ---------------------------------------------------------------- expiry date

  function Min(a: int, b: int): int {
    if a <= b then a else b
  }

  /** The expiry input handler: keep the digits; past two digits, the first
      two, `/`, and at most two more. */
  function FormatExpiry(value: string): string {
    var d := Filter(IsDigit, value);
    if |d| > 2 then d[..2] + "/" + d[2..Min(4, |d|)] else d
  }

  /** `^\d{2}\/\d{2}$`. */
  predicate WellFormedExpiry(s: string) {
    |s| == 5 && IsDigit(s[0]) && IsDigit(s[1]) && s[2] == '/' && IsDigit(s[3]) && IsDigit(s[4])
  }

  /** The output is at most five characters, its digits are the first four
      digits of the input, up to two digits pass unchanged, and four or more
      give the `MM/YY` shape. */
  lemma ExpiryShape(value: string)
    ensures var d := Filter(IsDigit, value); var r := FormatExpiry(value);
      && |r| <= 5
      && Filter(IsDigit, r) == d[..Min(4, |d|)]
      && (|d| <= 2 ==> r == d)
      && (|d| >= 4 ==> WellFormedExpiry(r))
  {
    var d := Filter(IsDigit, value);
    if |d| > 2 {
      ExpiryDigits(d);
    } else {
      assert d[..Min(4, |d|)] == d;
    }
  }

  /** Past two digits, the slash is the only character that is not a digit. */
  lemma ExpiryDigits(d: string)
    requires All(d, IsDigit) && |d| > 2
    ensures Filter(IsDigit, d[..2] + "/" + d[2..Min(4, |d|)]) == d[..Min(4, |d|)]
  {
    var k := Min(4, |d|);
    assert All(d[..2], IsDigit) && All(d[2..k], IsDigit);
    assert Filter(IsDigit, "/") == [] by {
      assert Filter(IsDigit, "/") == [] + Filter(IsDigit, "/"[1..]);
    }
    FilterAppend(IsDigit, d[..2], "/");
    FilterAppend(IsDigit, d[..2] + "/", d[2..k]);
    assert d[..2] + d[2..k] == d[..k];
  }

  /** Formatting an already formatted expiry changes nothing. */
  lemma ExpiryIdempotent(value: string)
    ensures FormatExpiry(FormatExpiry(value)) == FormatExpiry(value)
  {
    ExpiryShape(value);
    var d := Filter(IsDigit, value);
    if |d| > 2 {
      var k := Min(4, |d|);
      assert d[..k][..2] == d[..2] && d[..k][2..Min(4, k)] == d[2..k];
    }
  }

  // ---------------------------------------------------------------- validation

  datatype CardDetails = CardDetails(cardNumber: string, cardholderName: string, expiryDate: string, cvc: string)

  const EmptyDetails := CardDetails("", "", "", "")

  const CardNumberRequired := "Card number is required"
  const CardNumberLength := "Card number must be 16 digits"
  const NameRequired := "Cardholder name is required"
  const ExpiryRequired := "Expiry date is required"
  const ExpiryFormat := "Invalid expiry date format (MM/YY)"
  const InvalidMonth := "Invalid month"
  const Expired := "Card has expired"
  const CvcRequired := "CVC is required"
  const CvcFormat := "CVC must be 3 or 4 digits"

  const CardFields: set<string> := {"cardNumber", "cardholderName", "expiryDate", "cvc"}

  function CardNumberError(n: string): Option<string> {
    if n == "" then Some(CardNumberRequired)
    else if |RemoveSpaces(n)| != 16 then Some(CardNumberLength)
    else None
  }

  function NameError(name: string): Option<string> {
    if name == "" then Some(NameRequired) else None
  }

  /** `Number` of the two digits before and after the slash. */
  function ExpiryMonth(s: string): nat
    requires WellFormedExpiry(s)
  {
    DecimalValue(s[..2])
  }

  function ExpiryYear(s: string): nat
    requires WellFormedExpiry(s)
  {
    DecimalValue(s[3..])
  }

  /** The expiry rule; `currentYear` is the two-digit year, `currentMonth` 1 to 12. */
  function ExpiryError(e: string, currentYear: int, currentMonth: int): Option<string> {
    if e == "" then Some(ExpiryRequired)
    else if !WellFormedExpiry(e) then Some(ExpiryFormat)
    else
      var month := ExpiryMonth(e);
      var year := ExpiryYear(e);
      if month < 1 || month > 12 then Some(InvalidMonth)
      else if year < currentYear || (year == currentYear && month < currentMonth) then Some(Expired)
      else None
  }

  /** `^\d{3,4}$`. */
  predicate WellFormedCvc(c: string) {
    (|c| == 3 || |c| == 4) && All(c, IsDigit)
  }

  function CvcError(c: string): Option<string> {
    if c == "" then Some(CvcRequired)
    else if !WellFormedCvc(c) then Some(CvcFormat)
    else None
  }

  /** `validateForm`'s error record; `fullYear` and `monthIndex` are what
      `getFullYear()` and `getMonth()` return for the current date. */
  function CardErrors(d: CardDetails, fullYear: nat, monthIndex: nat): map<string, string> {
    var e := Put(map[], "cardNumber", CardNumberError(d.cardNumber));
    var e := Put(e, "cardholderName", NameError(d.cardholderName));
    var e := Put(e, "expiryDate", ExpiryError(d.expiryDate, fullYear % 100, monthIndex + 1));
    Put(e, "cvc", CvcError(d.cvc))
  }

  /** Each field's message is its rule's, and no other key appears. */
  lemma CardErrorsFields(d: CardDetails, fullYear: nat, monthIndex: nat)
    ensures var e := CardErrors(d, fullYear, monthIndex);
      && e.Keys <= CardFields
      && ("cardNumber" in e <==> CardNumberError(d.cardNumber).Some?)
      && ("cardNumber" in e ==> e["cardNumber"] == CardNumberError(d.cardNumber).value)
      && ("cardholderName" in e <==> d.cardholderName == "")
      && ("cardholderName" in e ==> e["cardholderName"] == NameRequired)
      && ("expiryDate" in e <==> ExpiryError(d.expiryDate, fullYear % 100, monthIndex + 1).Some?)
      && ("expiryDate" in e ==> e["expiryDate"] == ExpiryError(d.expiryDate, fullYear % 100, monthIndex + 1).value)
      && ("cvc" in e <==> CvcError(d.cvc).Some?)
      && ("cvc" in e ==> e["cvc"] == CvcError(d.cvc).value)
  {
  }

  /** The card-number rule checks the length without white space only, not
      that the characters are digits. */
  lemma CardNumberRule(n: string)
    ensures CardNumberError(n) == None <==> |RemoveSpaces(n)| == 16
    ensures n == "" ==> CardNumberError(n) == Some(CardNumberRequired)
    ensures n != "" && |RemoveSpaces(n)| != 16 ==> CardNumberError(n) == Some(CardNumberLength)
    ensures |n| == 16 && All(n, IsLetter) ==> CardNumberError(n) == None
  {
    if All(n, IsLetter) {
      assert All(n, NotSpace);
    }
  }

  /** The expiry rules in order, with an independent reading of "expired":
      the card's month comes before the current month on a two-digit-year calendar. */
  lemma ExpiryRule(e: string, currentYear: int, currentMonth: int)
    requires 1 <= currentMonth <= 12
    ensures e == "" ==> ExpiryError(e, currentYear, currentMonth) == Some(ExpiryRequired)
    ensures e != "" && !WellFormedExpiry(e) ==> ExpiryError(e, currentYear, currentMonth) == Some(ExpiryFormat)
    ensures WellFormedExpiry(e) ==>
      && (ExpiryError(e, currentYear, currentMonth) == Some(InvalidMonth) <==> !(1 <= ExpiryMonth(e) <= 12))
      && (ExpiryError(e, currentYear, currentMonth) == Some(Expired) <==>
            1 <= ExpiryMonth(e) <= 12 && ExpiryYear(e) * 12 + ExpiryMonth(e) < currentYear * 12 + currentMonth)
      && (ExpiryError(e, currentYear, currentMonth) == None <==>
            1 <= ExpiryMonth(e) <= 12 && ExpiryYear(e) * 12 + ExpiryMonth(e) >= currentYear * 12 + currentMonth)
  {
  }

  /** A formatted entry of four or more digits always has the `MM/YY` shape. */
  lemma FormattedExpiryHasShape(value: string, currentYear: int, currentMonth: int)
    requires |Filter(IsDigit, value)| >= 4
    ensures ExpiryError(FormatExpiry(value), currentYear, currentMonth) != Some(ExpiryRequired)
    ensures ExpiryError(FormatExpiry(value), currentYear, currentMonth) != Some(ExpiryFormat)
  {
    ExpiryShape(value);
  }

  /** A formatted entry of sixteen characters other than white space passes
      the card-number rule. */
  lemma FormattedCardNumberPasses(value: string)
    requires |RemoveSpaces(value)| == 16
    ensures CardNumberError(FormatCardNumber(value)) == None
  {
    CardNumberKeepsCharacters(value);
  }

  lemma CvcRule(c: string)
    ensures CvcError(c) == None <==> (|c| == 3 || |c| == 4) && All(c, IsDigit)
    ensures c == "" ==> CvcError(c) == Some(CvcRequired)
    ensures c != "" && !((|c| == 3 || |c| == 4) && All(c, IsDigit)) ==> CvcError(c) == Some(CvcFormat)
  {
  }

  /** `validateForm` succeeds exactly when every field passes. */
  lemma CardErrorsEmptyIffValid(d: CardDetails, fullYear: nat, monthIndex: nat)
    ensures CardErrors(d, fullYear, monthIndex) == map[] <==>
      && |RemoveSpaces(d.cardNumber)| == 16
      && d.cardholderName != ""
      && ExpiryError(d.expiryDate, fullYear % 100, monthIndex + 1) == None
      && WellFormedCvc(d.cvc)
  {
    CardErrorsFields(d, fullYear, monthIndex);
    CardNumberRule(d.cardNumber);
    CvcRule(d.cvc);
    var e := CardErrors(d, fullYear, monthIndex);
    if e != map[] {
      var k :| k in e;
    }
  }

  // ---------------------------------------------------------------- the form

  datatype CardField = CardNumberField | CardholderNameField | ExpiryDateField | CvcField

  /** `handleChange`: the card number and expiry are formatted, the other
      fields are stored as typed. */
  function Changed(d: CardDetails, field: CardField, value: string): CardDetails {
    match field
    case CardNumberField => d.(cardNumber := FormatCardNumber(value))
    case CardholderNameField => d.(cardholderName := value)
    case ExpiryDateField => d.(expiryDate := FormatExpiry(value))
    case CvcField => d.(cvc := value)
  }

  /** The stored card number and expiry are always in their display form. */
  predicate Formatted(d: CardDetails) {
    FormatCardNumber(d.cardNumber) == d.cardNumber && FormatExpiry(d.expiryDate) == d.expiryDate
  }

  lemma EmptyDetailsFormatted()
    ensures Formatted(EmptyDetails)
  {
    assert RemoveSpaces("") == "" && SpaceEveryFour("") == "";
    assert TrimStart("") == "" && TrimEnd("") == "";
    assert Filter(IsDigit, "") == "";
  }

  /** Every change keeps the display form, and touches only its own field. */
  lemma ChangeKeepsFormatted(d: CardDetails, field: CardField, value: string)
    requires Formatted(d)
    ensures Formatted(Changed(d, field, value))
    ensures field != CardNumberField ==> Changed(d, field, value).cardNumber == d.cardNumber
    ensures field != CardholderNameField ==> Changed(d, field, value).cardholderName == d.cardholderName
    ensures field != ExpiryDateField ==> Changed(d, field, value).expiryDate == d.expiryDate
    ensures field != CvcField ==> Changed(d, field, value).cvc == d.cvc
  {
    match field
    case CardNumberField => CardNumberIdempotent(value);
    case ExpiryDateField => ExpiryIdempotent(value);
    case _ =>
  }

  class PaymentForm {
    var cardDetails: CardDetails
    var errors: map<string, string>
    var isProcessing: bool

    ghost predicate Valid()
      reads this
    {
      Formatted(cardDetails)
    }

    constructor ()
      ensures Valid() && cardDetails == EmptyDetails && errors == map[] && !isProcessing
    {
      EmptyDetailsFormatted();
      cardDetails := EmptyDetails;
      errors := map[];
      isProcessing := false;
    }

    method HandleChange(field: CardField, value: string)
      requires Valid()
      modifies this
      ensures Valid() && cardDetails == Changed(old(cardDetails), field, value)
      ensures errors == old(errors) && isProcessing == old(isProcessing)
    {
      ChangeKeepsFormatted(cardDetails, field, value);
      cardDetails := Changed(cardDetails, field, value);
    }

    /** Writes the error record and reports whether it is empty. */
    method ValidateForm(fullYear: nat, monthIndex: nat) returns (ok: bool)
      modifies this
      ensures errors == CardErrors(cardDetails, fullYear, monthIndex) && (ok <==> errors == map[])
      ensures cardDetails == old(cardDetails) && isProcessing == old(isProcessing)
    {
      errors := CardErrors(cardDetails, fullYear, monthIndex);
      ok := errors == map[];
    }

    /** `handleSubmit`: an invalid form returns before anything else happens;
        a valid one raises `isProcessing`, completes the booking with the
        reference drawn from `draw`, and lowers the flag again. The flag is
        raised before `Complete` is called, and `Complete` modifies only the
        booking store, so the flag stays up while the booking is completed. */
    method HandleSubmit(booking: Booking.BookingStore, fullYear: nat, monthIndex: nat, draw: nat)
      returns (reference: Option<string>)
      requires Valid() && booking.Valid() && draw < 10000
      modifies this, booking
      ensures Valid() && booking.Valid()
      ensures cardDetails == old(cardDetails) && errors == CardErrors(cardDetails, fullYear, monthIndex)
      ensures errors != map[] ==>
        && reference == None
        && isProcessing == old(isProcessing) && booking.state == old(booking.state)
      ensures errors == map[] ==>
        && reference == Some(Booking.BookingReference(draw)) && !isProcessing
        && booking.state == old(booking.state).(bookingReference := reference)
    {
      var ok := ValidateForm(fullYear, monthIndex);
      if !ok {
        return None;
      }
      isProcessing := true;
      var r := booking.Complete(draw);
      reference := Some(r);
      isProcessing := false;
    }
  }
}
