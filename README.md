# SkyPay flight booking — a Dafny model of the client-side core

SkyPay is a flight-booking web client built with Next.js and React. Behind the
pages runs a small, deterministic core, and that core is what this project
models and proves things about:

- **Three stores.** Each is a reducer plus the provider operations that
  dispatch to it:
  - the booking (flights, passengers, contact details, total price, reference);
  - the flight search (results, loading, error, last request);
  - the session (user, authentication flag, loading, error).
- **Mock services.** The stores call the mock search, login, registration and
  booking-completion services.
- **The generic form engine** `useForm`. It holds four state cells (`values`,
  `errors`, `touched`, `isSubmitting`) with change, blur, set, reset and submit
  callbacks.
- **Validators and input formatters:**
  - the card form: card-number grouping, `MM/YY` expiry formatting, card checks;
  - the register and login forms;
  - the passenger form: contact fields and the current passenger;
  - the flight-search schema, with the flattening of its issues into the
    form's error record.
- **The flight-search form handlers:** dates, trip type, and passenger-count
  parsing.
- **The display mappings:** seat-availability labels and badges, and the
  cabin-class labels.

## Layout

| file | module | models |
|---|---|---|
| wrappers.dfy | Wrappers | `Option`, `Result`, and `Put`, which adds an optional error to a record |
| types.dfy | Types | the entities of `src/types/index.ts`; a date string is `''` or an instant |
| text.dfy | Text | JavaScript's `\s`, `trim`, `replace(/…/g, '')`, decimal rendering, `padStart` |
| email.dfy | Email | the e-mail pattern the three forms share |
| booking.dfy | Booking | `BookingContext`: reducer, total price, passenger list, reference |
| flights.dfy | Flights | `FlightContext`: reducer, mock search service, `searchFlights` |
| auth.dfy | Auth | `AuthContext`: reducer, mock credential checks, `login`/`register`/`logout` |
| form.dfy | Form | `useForm` |
| payment.dfy | Payment | `PaymentForm`: formatting, `validateForm`, the `isProcessing` bracket |
| register_form.dfy | RegisterForm | `RegisterForm`: `validate`, `handleSubmit` |
| login_form.dfy | LoginForm | `LoginForm`: `validate`, `handleSubmit` |
| passenger_form.dfy | PassengerForm | `PassengerForm`: `validate`, `handleSubmit` |
| flight_search.dfy | FlightSearch | `FlightSearch`: schema, error flattening, the request, `showResults` |
| flight_search_form.dfy | FlightSearchForm | `FlightSearchForm`: option tables, date/trip/passenger handlers, `getErrorForField` |
| flight_card.dfy | FlightCard | `FlightCard`: seat label and variant, cabin label |
| flight_summary.dfy | FlightSummary | `FlightSummary`: its own copy of the cabin label |

### How the model is built

- **Stores.** Each store is an `Action` datatype and a pure `Step` function
  (the reducer). `Run` folds `Step` over a sequence of actions. A class holds
  the state and changes it only through `Dispatch`; each class invariant is
  preserved by every action.
- **Providers.** The provider operations are methods on those classes.
- **Things the model takes as inputs.** Randomness (`Math.random`, `uuidv4`),
  the clock (`new Date()`) and stored session data become parameters:
  `draws`, `draw`, `ids`, `now`, `fullYear`/`monthIndex`, and `stored`.
- **Validators** are functions on typed records of the form's fields. Each one
  has:
  - a lemma giving every rule and its message;
  - a lemma stating that the error record is empty exactly when every rule passes.

### Where the model follows JavaScript closely

| JavaScript | in this model |
|---|---|
| `\s` | the full set of white-space and line-terminator characters |
| `trim` | removes that set at both ends |
| `parseInt` | leading white space, a sign, a `0x` prefix, and NaN (`None`) |
| `Math.round` | rounds halves up |
| `getFullYear() % 100`, `getMonth() + 1` | computed from the parameters |

The schema library's choice of whether the `from !== to` refinement runs once
a field has already failed is a parameter, `refineOnDirty`.

## Model

| member | source | states |
|---|---|---|
| Booking.TotalIsSumOfSelected | src/context/BookingContext.tsx:36-50 | the total is the sum of `price.amount` over the selected flights (an independent list-and-sum definition); it is 0 when neither flight is set |
| Booking.InitialIsConsistent | src/context/BookingContext.tsx:28-34 | the initial state satisfies the price invariant, has no reference and no passengers, and is not ready for review |
| Booking.StepKeepsPriceConsistent | src/context/BookingContext.tsx:52-110 | every one of the eight actions preserves `totalPrice == calculateTotalPrice(state)` |
| Booking.RunKeepsPriceConsistent | src/context/BookingContext.tsx:52-110 | the price invariant survives any sequence of actions |
| Booking.SelectionPrices | src/context/BookingContext.tsx:54-71 | selecting two flights totals both amounts; selecting a `null` return flight drops its contribution |
| Booking.AddPassengerAppends | src/context/BookingContext.tsx:72-76 | adding a passenger puts it last; the list grows by one and the earlier passengers are kept |
| Booking.UpdatePassengerPointwise | src/context/BookingContext.tsx:77-85 | the update keeps length and positions, patches exactly the passengers with that id, and changes nothing when no id matches |
| Booking.RemoveKeepsOthers | src/context/BookingContext.tsx:86-92 | the removed list holds no passenger with that id; it holds every other passenger; its length drops by the number of matches |
| Booking.RemoveDistributes | src/context/BookingContext.tsx:86-92 | removal is order-preserving: it distributes over concatenation |
| Booking.RemoveAbsentIsIdentity | src/context/BookingContext.tsx:86-92 | removing an id nobody has changes nothing |
| Booking.AddThenRemoveRestores | src/context/BookingContext.tsx:72-92 | adding a passenger with a fresh id and then removing that id restores the list |
| Booking.NonFlightActionsKeepPrice | src/context/BookingContext.tsx:72-106 | passenger, contact and completion actions leave both flights and the total; only completion touches the reference |
| Booking.CompletionOverwrites | src/context/BookingContext.tsx:102-106 | completion sets only the reference, and a second completion overwrites the first |
| Booking.ResetIsInitial | src/context/BookingContext.tsx:98-101 | reset yields the initial state (no reference) from any state and is idempotent |
| Booking.ReferenceFormat | src/context/BookingContext.tsx:120 | for a draw n below 10000 the reference is `SKY` then four decimal digits whose value is n |
| Booking.BookingStore.constructor | src/context/BookingContext.tsx:124 | the store starts in the initial state with its invariant |
| Booking.BookingStore.Dispatch | src/context/BookingContext.tsx:124 | dispatch applies the reducer and keeps the invariant |
| Booking.BookingStore.SelectOutbound | src/context/BookingContext.tsx:126-128 | the outbound flight is set and the total recomputed |
| Booking.BookingStore.SelectReturn | src/context/BookingContext.tsx:130-132 | the return flight (or `null`) is set and the total recomputed |
| Booking.BookingStore.AddNewPassenger | src/context/BookingContext.tsx:134-140 | the passenger, with the generated id injected, is appended |
| Booking.BookingStore.Update | src/context/BookingContext.tsx:142-144 | dispatches the update action |
| Booking.BookingStore.Remove | src/context/BookingContext.tsx:146-148 | dispatches the remove action |
| Booking.BookingStore.SetContact | src/context/BookingContext.tsx:150-155 | only the contact details change |
| Booking.BookingStore.Reset | src/context/BookingContext.tsx:157-159 | the state becomes the initial state |
| Booking.BookingStore.Complete | src/context/BookingContext.tsx:161-169 | returns the drawn `SKY` reference and records it as the only change |
| Flights.InitialIsIdle | src/context/FlightContext.tsx:26-31 | the initial state is not loading, has no error, no flights and no recorded request |
| Flights.SearchStartEffect | src/context/FlightContext.tsx:35-41 | a search start sets loading, clears the error, records the request, and keeps the previous flights |
| Flights.SearchSuccessEffect | src/context/FlightContext.tsx:42-47 | success replaces the flights and clears loading; error and request are unchanged |
| Flights.SearchFailureEffect | src/context/FlightContext.tsx:48-54 | failure empties the flights, clears loading and stores the message |
| Flights.ClearAndResetEffect | src/context/FlightContext.tsx:55-65 | clearing empties flights and request without touching loading or error; reset changes only the error |
| Flights.StepKeepsInvariant | src/context/FlightContext.tsx:33-69 | never loading while holding an error: every action preserves it |
| Flights.RunKeepsInvariant | src/context/FlightContext.tsx:33-69 | the same invariant over any action sequence |
| Flights.PrototypeNamePassesCheck | src/context/FlightContext.tsx:95-100 | as written, the airport check also accepts inherited member names such as `toString` (see Findings) |
| Flights.InsertByPrice | src/context/FlightContext.tsx:169 | inserting one flight gives a permutation of the list plus that flight |
| Flights.InsertKeepsSorted | src/context/FlightContext.tsx:169 | inserting into a price-sorted list keeps it sorted |
| Flights.SortByPrice | src/context/FlightContext.tsx:169 | the sort returns a permutation of its input, sorted by ascending `price.amount` |
| Flights.BasePricesOrdered | src/context/FlightContext.tsx:125-139 | Economy's base price is 100 and the cheapest; Premium, Business and First cost strictly more, in that order |
| Flights.PricesPositive | src/context/FlightContext.tsx:141-142 | with at least one passenger, every generated price is at least 85 per passenger |
| Flights.GeneratedOnRoute | src/context/FlightContext.tsx:144-165 | every generated flight has the requested cabin and the table's departure and arrival airports |
| Flights.MockSearchFlights | src/context/FlightContext.tsx:74-170 | the generation loop plus the sort computes the service's result, including the `Invalid time value` thrown on the first pass when no departure date is set |
| Flights.SearchResultContract | src/context/FlightContext.tsx:86-169 | the service fails iff an airport is not one of the six codes (with `Invalid airports selected`) or no departure date is set (with `Invalid time value`, from `toISOString` on the Invalid Date that `new Date('')` gives); otherwise it returns 5 to 10 flights, a permutation of the generated ones, sorted by price, each on the requested route and cabin |
| Flights.SearchSequenceEnds | src/context/FlightContext.tsx:175-183 | start then success or failure always ends not loading, with the request recorded and exactly one of results or error |
| Flights.FlightStore.constructor | src/context/FlightContext.tsx:173 | the store starts idle with its invariant |
| Flights.FlightStore.Dispatch | src/context/FlightContext.tsx:173 | dispatch applies the reducer and keeps the invariant |
| Flights.FlightStore.SearchFlights | src/context/FlightContext.tsx:175-183 | two dispatches around the service's result, so a thrown message becomes the store's error; ends not loading with the request recorded |
| Flights.FlightStore.Clear | src/context/FlightContext.tsx:185-187 | only flights and request are cleared |
| Flights.FlightStore.ClearError | src/context/FlightContext.tsx:189-191 | only the error is cleared |
| Auth.InitialIsConsistent | src/context/AuthContext.tsx:24-29 | initially signed out, with no user, not loading, no error |
| Auth.StepKeepsConsistent | src/context/AuthContext.tsx:31-64 | every action preserves `isAuthenticated == (user != null)` |
| Auth.RunKeepsConsistent | src/context/AuthContext.tsx:31-64 | the same invariant over any action sequence |
| Auth.StartEffect | src/context/AuthContext.tsx:33-35 | both start actions set loading and clear the error, and change nothing else |
| Auth.SuccessEffect | src/context/AuthContext.tsx:36-44 | both success actions set the user and the flag, and clear loading and error |
| Auth.FailureEffect | src/context/AuthContext.tsx:45-51 | both failure actions clear loading and store the message; user and flag are kept, so a failed login while signed in stays signed in |
| Auth.LogoutAndResetEffect | src/context/AuthContext.tsx:52-60 | logout returns the initial state; reset clears only the error |
| Auth.MockLoginContract | src/context/AuthContext.tsx:69-82 | login succeeds iff the credentials are `test@example.com`/`password`, yielding id `1` and name `Test User`; it fails otherwise with `Invalid credentials` |
| Auth.MockRegisterContract | src/context/AuthContext.tsx:84-97 | registration succeeds iff name, email and password are all non-empty, yielding id `2` with the given name and email; it fails otherwise with `Registration failed` |
| Auth.LoginSequenceEnds | src/context/AuthContext.tsx:122-132 | `login` never propagates a failure: it ends not loading and consistent, signed in for the test credentials, and otherwise with the error and the previous session |
| Auth.RegisterSequenceEnds | src/context/AuthContext.tsx:134-144 | the same for `register`, signed in as the new user when all three fields are non-empty |
| Auth.AuthStore.constructor | src/context/AuthContext.tsx:100 | the store starts signed out with its invariant |
| Auth.AuthStore.Dispatch | src/context/AuthContext.tsx:100 | dispatch applies the reducer and keeps the invariant |
| Auth.AuthStore.Rehydrate | src/context/AuthContext.tsx:103-120 | a stored, well-formed user is signed in as by a login success; otherwise nothing changes |
| Auth.AuthStore.Login | src/context/AuthContext.tsx:122-132 | start, then success or failure from the mock; ends not loading |
| Auth.AuthStore.Register | src/context/AuthContext.tsx:134-144 | start, then success or failure from the mock; ends not loading |
| Auth.AuthStore.SignOut | src/context/AuthContext.tsx:146-150 | the state becomes the initial state |
| Auth.AuthStore.ClearError | src/context/AuthContext.tsx:152-154 | only the error is cleared |
| Form.FormEngine.constructor | src/hooks/useForm.ts:18-21 | values are the initial values; errors and touched are empty; not submitting |
| Form.FormEngine.HandleChange | src/hooks/useForm.ts:23-30 | writes one literal key (the `checked` flag for checkboxes, the text otherwise); errors, touched and the flag are unchanged |
| Form.FormEngine.HandleBlur | src/hooks/useForm.ts:32-44 | sets `touched[name]` and keeps the other flags; with a validator, replaces the errors wholesale by `validate(values)` |
| Form.FormEngine.SetFieldValue | src/hooks/useForm.ts:46-51 | writes one literal key and nothing else |
| Form.FormEngine.SetFieldError | src/hooks/useForm.ts:53-58 | sets one error key and keeps the others |
| Form.FormEngine.ClearErrors | src/hooks/useForm.ts:60-62 | empties the errors only |
| Form.FormEngine.ResetForm | src/hooks/useForm.ts:64-69 | restores the initial values, empties errors and touched, clears the flag |
| Form.ResetTwice | src/hooks/useForm.ts:64-69 | the reset state is absolute: after two resets the form is as one reset leaves it, whatever it held before |
| Form.BlurTwice | src/hooks/useForm.ts:32-38 | blurring never unsets a touched flag |
| Form.TouchAll | src/hooks/useForm.ts:81-85 | the loop marks exactly the keys of `values`, each true |
| Form.FormEngine.BeginSubmit | src/hooks/useForm.ts:71-92 | with a validator: sets the errors and touches every key. Non-empty errors return without calling `onSubmit` or raising the flag. Otherwise (and always without a validator) it returns the values `onSubmit` is called with and leaves the flag raised for that call |
| Form.FormEngine.EndSubmit | src/hooks/useForm.ts:93-100 | the flag is lowered whether or not `onSubmit` failed; nothing else changes |
| Form.FormEngine.HandleSubmit | src/hooks/useForm.ts:71-101 | the two halves together: a blocked submission changes only errors and touched; otherwise `onSubmit` gets the values and the flag ends down |
| Email.IsEmailIffMatches | src/components/auth/RegisterForm.tsx:43 | the executable test accepts exactly the strings matching the pattern: local part, `@`, domain, `.`, two or more letters, case-insensitive |
| Email.EmailIsMatch | src/components/auth/RegisterForm.tsx:43 | every accepted address has such a split |
| Email.MatchIsEmail | src/components/auth/RegisterForm.tsx:43 | every such split is accepted |
| Email.TestAddressIsEmail | src/context/AuthContext.tsx:73 | the test user's address passes the form pattern |
| Email.EmailFieldError | src/components/auth/RegisterForm.tsx:41-45 | the email rule raises no error iff the address matches the pattern |
| RegisterForm.ValidateFields | src/components/auth/RegisterForm.tsx:34-64 | each of the five keys carries exactly its own rule's message, and no other key appears |
| RegisterForm.ValidateRules | src/components/auth/RegisterForm.tsx:37-61 | name, email, password (required, then at least 8), confirmation (required, then equal) and terms each fail on their conditions with their own messages, never two for one field |
| RegisterForm.ValidateEmptyIffValid | src/components/auth/RegisterForm.tsx:34-64 | no errors iff every rule passes |
| RegisterForm.InitialValuesFailEveryRule | src/components/auth/RegisterForm.tsx:26-32 | the untouched form fails all five rules |
| RegisterForm.HandleSubmit | src/components/auth/RegisterForm.tsx:66-70 | the session error is cleared before `register` runs |
| LoginForm.ValidateRules | src/components/auth/LoginForm.tsx:31-45 | only `email` and `password` can fail. Email: required, then the pattern. Password: required, with no length rule |
| LoginForm.RememberMeIgnored | src/components/auth/LoginForm.tsx:31-45 | `rememberMe` plays no part |
| LoginForm.ValidateEmptyIffValid | src/components/auth/LoginForm.tsx:31-45 | no errors iff the email matches and the password is non-empty |
| LoginForm.TestCredentialsAreValid | src/components/auth/LoginForm.tsx:31-45 | the mock's accepted credentials pass validation |
| LoginForm.HandleSubmit | src/components/auth/LoginForm.tsx:47-51 | the session error is cleared before `login` runs |
| Payment.SpaceEveryFourIsGroupedPlusTail | src/components/payment/PaymentForm.tsx:36 | the group-by-four replacement is the grouping plus a trailing space when the length is a positive multiple of four |
| Payment.GroupedLayout | src/components/payment/PaymentForm.tsx:36 | the grouping's length, a space exactly at every fifth position, and the input's characters in order in between |
| Payment.RemoveSpacesOfGrouped | src/components/payment/PaymentForm.tsx:36 | deleting the spaces from the grouping gives the input back |
| Payment.TrimmedGrouping | src/components/payment/PaymentForm.tsx:36 | trimming only ever removes that trailing space |
| Payment.GroupedEnds | src/components/payment/PaymentForm.tsx:36 | the grouping neither starts nor ends with white space |
| Payment.FormatCardNumberIsGrouped | src/components/payment/PaymentForm.tsx:35-37 | the formatted number is the white-space-free input grouped by four |
| Payment.CardNumberKeepsCharacters | src/components/payment/PaymentForm.tsx:35-37 | deleting the spaces from the output gives the input minus white space |
| Payment.CardNumberIdempotent | src/components/payment/PaymentForm.tsx:35-37 | formatting twice equals formatting once |
| Payment.CardNumberLayout | src/components/payment/PaymentForm.tsx:35-37 | no white space at either end; spaces exactly at every fifth position; 16 non-space characters become 19, the field's `maxLength` |
| Payment.ExpiryShape | src/components/payment/PaymentForm.tsx:42-49 | the output is at most 5 characters; its digits are the input's first four; up to two digits pass as they are; four or more give `MM/YY` |
| Payment.ExpiryDigits | src/components/payment/PaymentForm.tsx:43-46 | past two digits the slash is the only non-digit of the output |
| Payment.ExpiryIdempotent | src/components/payment/PaymentForm.tsx:42-49 | formatting the expiry twice equals formatting once |
| Payment.CardErrorsFields | src/components/payment/PaymentForm.tsx:54-96 | each of the four keys holds exactly its own rule's message, at most one per field; the cardholder name is required |
| Payment.CardNumberRule | src/components/payment/PaymentForm.tsx:58-62 | empty gives `Card number is required`; otherwise an error iff the white-space-free length is not 16, and then it is `Card number must be 16 digits`; sixteen letters pass, since only the length is checked |
| Payment.ExpiryRule | src/components/payment/PaymentForm.tsx:70-85 | in order: required, the `MM/YY` shape, a month outside 1 to 12, then expired iff the card's year and month come before the current ones (on an independent month count) |
| Payment.FormattedExpiryHasShape | src/components/payment/PaymentForm.tsx:42-85 | a formatted entry of four or more digits never fails the required or shape rules |
| Payment.FormattedCardNumberPasses | src/components/payment/PaymentForm.tsx:35-62 | a formatted entry of 16 non-space characters passes the card-number rule |
| Payment.CvcRule | src/components/payment/PaymentForm.tsx:88-92 | empty gives `CVC is required`; otherwise it must be exactly 3 or 4 digits, and any other entry gives `CVC must be 3 or 4 digits` |
| Payment.CardErrorsEmptyIffValid | src/components/payment/PaymentForm.tsx:54-96 | no errors iff all four fields pass |
| Payment.EmptyDetailsFormatted | src/components/payment/PaymentForm.tsx:17-22 | the empty card details are already in display form |
| Payment.ChangeKeepsFormatted | src/components/payment/PaymentForm.tsx:31-52 | every change keeps the number and expiry in display form and touches only its own field |
| Payment.PaymentForm.constructor | src/components/payment/PaymentForm.tsx:16-23 | empty details, no errors, not processing |
| Payment.PaymentForm.HandleChange | src/components/payment/PaymentForm.tsx:31-52 | stores the formatted or raw value of one field |
| Payment.PaymentForm.ValidateForm | src/components/payment/PaymentForm.tsx:54-96 | writes the error record and returns true iff it is empty |
| Payment.PaymentForm.HandleSubmit | src/components/payment/PaymentForm.tsx:98-125 | an invalid form returns before raising the flag or completing the booking. A valid one raises the flag before completing it (completion cannot touch the form), records the `SKY` reference, and lowers the flag after |
| PassengerForm.InitialValues | src/components/booking/PassengerForm.tsx:36-47 | the signed-in email or `''`, an empty phone, and `totalPassengers` blank entries |
| PassengerForm.PhoneRule | src/components/booking/PassengerForm.tsx:60-64 | empty is required; otherwise valid iff, after deleting white space, `(`, `)` and `-`, it is an optional `+` and 8 to 15 digits |
| PassengerForm.StripSeparator | src/components/booking/PassengerForm.tsx:62 | the stripping ignores any separator inserted anywhere |
| PassengerForm.SeparatorsIgnored | src/components/booking/PassengerForm.tsx:60-64 | inserting a separator into a non-empty phone never changes the verdict |
| PassengerForm.PassengerErrorsFields | src/components/booking/PassengerForm.tsx:67-94 | each of the six keys holds exactly its own rule's message |
| PassengerForm.PassengerErrorsRules | src/components/booking/PassengerForm.tsx:70-94 | four fields and the passport number are each required, with their own messages; the passport expiry is required and must be strictly later than now |
| PassengerForm.BlankEntryFailsEveryRule | src/components/booking/PassengerForm.tsx:39-46 | a blank entry fails all six passenger rules |
| PassengerForm.ValidateRules | src/components/booking/PassengerForm.tsx:49-101 | the email and phone rules are the shared ones. `passengerInfo` is present iff the current passenger has an error, and then maps only `currentIndex`. A missing entry at that index is the error path |
| PassengerForm.OnlyCurrentPassengerChecked | src/components/booking/PassengerForm.tsx:67-68 | entries at other indices, and how many there are, make no difference |
| PassengerForm.ValidateEmptyIffValid | src/components/booking/PassengerForm.tsx:49-101 | no errors iff the contact fields and the current passenger pass every rule |
| PassengerForm.Submitted | src/components/booking/PassengerForm.tsx:109-120 | one passenger per entry, in order, typed adult with title `Mr`, the other fields copied, each with its generated id |
| PassengerForm.HandleSubmit | src/components/booking/PassengerForm.tsx:103-120 | sets the contact details, then appends the submitted passengers in order after the existing ones |
| PassengerForm.SubmitMakesReady | src/components/booking/BookingReview.tsx:22 | after a submission with at least one entry on a booking with an outbound flight, the review and payment guard holds |
| FlightSearch.FlattenIssues | src/components/flights/FlightSearch.tsx:48-53 | the `forEach` loop builds exactly the flattening of the issues |
| FlightSearch.Validate | src/components/flights/FlightSearch.tsx:42-58 | `{}` when there are no issues, the flattened issues otherwise |
| FlightSearch.FlattenLastWins | src/components/flights/FlightSearch.tsx:49-53 | a key is present iff some issue names it, and it holds the message of the last such issue |
| FlightSearch.FlattenConcat | src/components/flights/FlightSearch.tsx:49-53 | flattening two issue lists one after the other: later keys override |
| FlightSearch.FlattenIssueIf | src/components/flights/FlightSearch.tsx:49-53 | a single rule flattens to its message under its key, or to nothing |
| FlightSearch.FlattenFieldIssues | src/components/flights/FlightSearch.tsx:13-20 | the field issues flatten to one message per failed rule, and there are none iff every field passes |
| FlightSearch.FlattenedSchema | src/components/flights/FlightSearch.tsx:13-24 | the schema's record is the field messages, overridden under `to` by the refinement's |
| FlightSearch.FieldErrorsKeys | src/components/flights/FlightSearch.tsx:14-19 | only `from`, `to`, `departDate` and `passengers` can fail |
| FlightSearch.FieldErrorsFrom | src/components/flights/FlightSearch.tsx:14 | `from` fails iff it is shorter than 3, with its message |
| FlightSearch.FieldErrorsTo | src/components/flights/FlightSearch.tsx:15 | `to` fails iff it is shorter than 3, with its message |
| FlightSearch.FieldErrorsDepart | src/components/flights/FlightSearch.tsx:16 | an empty departure date fails with its message |
| FlightSearch.FieldErrorsPassengers | src/components/flights/FlightSearch.tsx:19 | fewer than 1 or more than 9 passengers fail, each with its own message |
| FlightSearch.FieldErrorsRules | src/components/flights/FlightSearch.tsx:14-19 | all the field rules together |
| FlightSearch.ValidateTo | src/components/flights/FlightSearch.tsx:15-24 | `to` errs iff it is short or the airports are equal while the refinement runs; equal airports then give the refinement's message |
| FlightSearch.ValidateOtherFields | src/components/flights/FlightSearch.tsx:13-20 | the other keys carry their field rules, and `returnDate` is never required |
| FlightSearch.ValidateRules | src/components/flights/FlightSearch.tsx:13-58 | every rule of the schema as it reaches the form's error record |
| FlightSearch.ValidateEmptyIffValid | src/components/flights/FlightSearch.tsx:42-58 | `{}` iff every field passes and the airports differ |
| FlightSearch.InitialValuesErrors | src/components/flights/FlightSearch.tsx:32-40 | the untouched form errs under `from`, `to` and `departDate` only |
| FlightSearch.ValidValuesGiveValidRequest | src/components/flights/FlightSearch.tsx:60-69 | accepted values give a request with two different airports, a departure date and 1 to 9 passengers, carrying the return date exactly for round trips |
| FlightSearch.SearchPage.constructor | src/components/flights/FlightSearch.tsx:30 | results start hidden |
| FlightSearch.SearchPage.HandleSubmit | src/components/flights/FlightSearch.tsx:60-74 | runs the search with the mapped request, then shows the results |
| FlightSearchForm.CabinOptionsAgreeWithLabels | src/components/flights/FlightSearchForm.tsx:32-37 | the cabin select offers exactly the four classes, each under the flight card's label |
| FlightSearchForm.AirportOptionsAreKnown | src/components/flights/FlightSearchForm.tsx:39-46 | the airport selects offer exactly the six codes the search service knows |
| FlightSearchForm.DepartDateRules | src/components/flights/FlightSearchForm.tsx:58-69 | a picked date is stored, and an earlier return date is moved up to it, so the return is never earlier afterwards; clearing stores `''` and keeps the return date; nothing else changes |
| FlightSearchForm.HandleDepartDateChange | src/components/flights/FlightSearchForm.tsx:58-69 | the handler's `setFieldValue` calls compute exactly that |
| FlightSearchForm.HandleReturnDateChange | src/components/flights/FlightSearchForm.tsx:71-77 | stores the picked date, or `''` when cleared |
| FlightSearchForm.ToggleTripType | src/components/flights/FlightSearchForm.tsx:79-84 | sets the trip type; one-way also clears the return date; round trip leaves it |
| FlightSearchForm.LeadingRun | src/components/flights/FlightSearchForm.tsx:177 | the longest prefix of matching characters, as `parseInt` scans |
| FlightSearchForm.ParseUnsignedDecimal | src/components/flights/FlightSearchForm.tsx:177 | a digit run that is not a `0x` prefix reads as its decimal value |
| FlightSearchForm.ParseIntReadsDecimal | src/components/flights/FlightSearchForm.tsx:177 | `parseInt` of a rendered count followed by a non-digit gives the count |
| FlightSearchForm.PassengersValueNeverZero | src/components/flights/FlightSearchForm.tsx:177 | the stored count is never 0, and is 1 when nothing parses |
| FlightSearchForm.PassengersValueRoundTrip | src/components/flights/FlightSearchForm.tsx:177 | a shown count of at least 1, typed back, is kept |
| FlightSearchForm.PassengersValueFallback | src/components/flights/FlightSearchForm.tsx:177 | an empty input and `0` both store 1 |
| FlightSearchForm.HandlePassengersChange | src/components/flights/FlightSearchForm.tsx:177 | stores `parseInt(value) \|\| 1` under `passengers` and nothing else |
| FlightSearchForm.ErrorForField | src/components/flights/FlightSearchForm.tsx:86-88 | an untouched field shows nothing; a touched field shows exactly its error, or nothing when it has none |
| FlightCard.CabinClassLabels | src/components/flights/FlightCard.tsx:35-43 | the four classes map to their display names; anything else is returned unchanged |
| FlightCard.LabelAndVariantAgree | src/components/flights/FlightCard.tsx:45-55 | label and badge use the same thresholds: many with success, limited with warning, an `Only …` label with error |
| FlightCard.SeatsThresholds | src/components/flights/FlightCard.tsx:45-55 | above 9: many and success; 6 to 9: limited and warning; 5 or fewer: error |
| FlightCard.OneSeatWording | src/components/flights/FlightCard.tsx:48 | one seat is singular |
| FlightCard.FewSeatsWording | src/components/flights/FlightCard.tsx:48 | five seats are plural |
| FlightCard.NoSeatsWording | src/components/flights/FlightCard.tsx:48 | zero seats are plural |
| FlightSummary.SameAsFlightCard | src/components/booking/FlightSummary.tsx:29-37 | the summary's cabin label is the flight card's, for every input |

## Left out

- **Persistence.** Cookie and `localStorage` writes on login, register and
  logout are external I/O. The start-up check becomes the parameter `stored`
  of `Rehydrate`: a user record that was present and parseable, or nothing. A
  stored text that parses to `null` would break the session invariant; it is
  not modelled, because the application only ever stores a real user.
- **Timing.** The `setTimeout` delays and the interleaving of promises are not
  modelled. Each service call is one atomic step that succeeds or fails.
- **Stale closures.** React state updates are applied immediately, so the
  closure values the source reads (for example in `handleBlur`) are taken to be
  the current ones.
- **Randomness and the clock.** These are parameters:
  - the flight count, times, terminals, seats and price variation: `draws`;
  - `uuidv4`: `ids` and `freshId`;
  - the reference number: `draw` / `n`;
  - `new Date()`: `now`, `fullYear`, `monthIndex`.
- **Generated departure times.** The source sets the hours and minutes of the
  departure date in local time. The model takes the resulting instant as the
  draw's `departTime`, and adds the duration to reach the arrival, so
  time-zone and daylight-saving effects are not modelled.
- **Date strings.** A date string is `''` or the ISO text of an instant.
  Comparing dates (`new Date(x) < date`, `<= new Date()`) compares instants.
  Free text that is not a date never reaches these fields, since only the date
  pickers write them. The empty string is modelled: the search service fails
  on it with `Invalid time value`, as `new Date('')` is an Invalid Date.
- **Number precision.** JavaScript numbers are modelled as unbounded integers.
  Precision loss beyond 2^53 is not modelled, for `parseInt` or for prices.
  The price variation is a real, and `Math.round` rounds halves up.
- **String length.** `length` counts characters here, not UTF-16 code units.
  The minimum lengths (3, 8, 16) therefore differ from the browser's only for
  characters outside the Basic Multilingual Plane.
- **Schema library.** Whether the refinement runs after a field has failed is
  the parameter `refineOnDirty`. This choice is the library's, not the
  application's. The enum fields (`tripType`, `cabinClass`) and the
  `returnDate` string never fail on values the form can hold, so they produce
  no issues. The `zodResolver` import is unused.
- **Engine and validators.** The validators are functions on typed records,
  and the form engine stores a `map<string, Value>`. The adapter between the
  two (reading a record out of the engine's map) is not modelled.
- **Payment failures.** `completeBooking`'s error path and `PaymentForm`'s
  toast on failure are not modelled. The mock reference generator cannot
  fail, so they are never reached.
- **Browser behaviour.** The card field's `maxLength` is not enforced; the
  model proves that 16 characters format to exactly 19. The payment and review
  pages' redirect is navigation; its guard is `Booking.ReadyForReview`.
- **PassengerForm defects.** These are not modelled:
  - `totalPassengers` being set to the flight's price;
  - the `setTouched` that `useForm` never returns, and with it the
    touched-marking in `handleNext` and `handleComplete`, plus
    `handlePrevious`;
  - the `getCurrentPassenger` fallback.

  `InitialValues` takes the passenger count as a parameter.
- **Rendering and navigation.** Not modelled: JSX, `router.push` (the login
  and register forms navigate even after a failed attempt, since the context
  never throws), toasts, `showPassword`, icons, and the unused
  `PaymentMethod`/`PaymentState` types.
- **The search request's return date.** The mock search service ignores it.
- FlightCard.SeatsLabel: the `Only n seat(s) left` wording is proved for 0,
  1 and 5 seats, plus its `Only ` prefix for every count up to 5. It is not
  proved as a closed formula for every count.

## Findings

| source | as written | input that shows it | evidently intended | confidence | as-written member | corrected member |
|---|---|---|---|---|---|---|
| src/context/FlightContext.tsx:95-100 | The airport check is `airports[code]` on a plain object literal. Names inherited from `Object.prototype` find a function, which is truthy | a search with `from = "toString"` (or `"constructor"`) and a known `to` is not rejected | only the six table codes pass; anything else fails with `Invalid airports selected` | not executed; the form's airport select only offers the six codes, so the pages never send such a name | Flights.AirportLookupTruthyAsWritten (shown by Flights.PrototypeNamePassesCheck) | Flights.KnownAirport (used by Flights.SearchResult; proved by Flights.SearchResultContract) |
