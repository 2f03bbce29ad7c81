# Flight booking front end — a Dafny model of its page logic

The flight-booking app is a Next.js front end. A traveller moves through it in five steps:

- searches on the home page;
- picks a flight from the sorted results;
- fills in one record per passenger plus contact details, sees the price with taxes, and books;
- lands on a confirmation page that loads the booking;
- can later look through past bookings, sign up, and edit a profile whose initials and name also appear in the header's user menu.

This project models the rules inside those pages, one module per source file:

| module | file | what is modelled |
|---|---|---|
| `Js` | — | the JavaScript behaviour the pages rely on: optional values and truthiness, `||` fallbacks, ASCII case mapping, `includes`, `localeCompare` as code-point order, `toString`/`parseInt` on non-negative integers |
| `Api` | `lib/api.ts` | the query-name mapping of `getFlights`; the snake_case to camelCase mapping of `updateUserProfile` |
| `Home` | `app/page.tsx` | the search form, its single-field edits, the browser's `required` and `min` checks, and the submission guard |
| `Search` | `app/search/page.tsx` | reading the search from the query; the guarded fetch; the stable sort by price, duration or departure; the record handed to the booking page |
| `Booking` | `app/booking/page.tsx` | the flight read from the query; the passenger records, contact and payment details; the browser's `required` checks; the price with taxes; `handleBooking` with its outcomes |
| `Bookings` | `app/bookings/page.tsx` | the search and status filter over the bookings list; the status colour |
| `SignUp` | `app/auth/sign-up/page.tsx` | `validate`, which fills an error map by overwriting checks; `handleSubmit` |
| `Confirmation` | `app/confirmation/page.tsx` | the fetch state machine; which of the four screens is shown; the 'N/A' stand-ins |
| `UserMenu` | `components/user-menu.tsx` | initials and display name, each with two fallbacks; the null-user guard |
| `Profile` | `app/profile/page.tsx` | the form filled from the user; the date of birth cut at 'T'; single-field edits; the save with its flags |
| `Flow` | — | the path from the home page's query, through the results page's hand-off, into the booking form |

How the code is represented:

- **State updated in place is a class.** React state the pages replace through setters becomes a class field. Each handler is a method that states the whole new state.
- **Pure computations are functions.** Sorting, filtering, validation rules, fallbacks and prices are functions with lemmas about them.
- **JavaScript objects are maps.** A JSON object whose fields are strings, and a query string, are `map<string, string>`. An absent key reads as `undefined`.
- **I/O is a parameter.** Network calls, the clock, the auth context and `JSON.stringify`/`toLocaleDateString` become parameters. A network call's answer is an outcome datatype (data, empty, or thrown error). Every handler is one atomic step.

## Model

| member | source | states |
|---|---|---|
| Js.Lower | flight-booking-app/app/bookings/page.tsx:103-106 | `toLowerCase` keeps the length and lower-cases every character (ASCII) |
| Js.Includes | flight-booking-app/app/bookings/page.tsx:103-106 | a prefix of the haystack, the empty string included, is always found; a needle longer than the haystack never is |
| Js.IncludesIffOccurs | flight-booking-app/app/bookings/page.tsx:103-106 | the scan used for `includes` succeeds exactly when the needle occurs at some index of the haystack |
| Js.IncludesWitness | flight-booking-app/app/bookings/page.tsx:103-106 | a successful `includes` scan yields an index where the needle occurs |
| Js.OccursAtIncluded | flight-booking-app/app/bookings/page.tsx:103-106 | every occurrence of the needle is found by the `includes` scan |
| Js.IncludesEmpty | flight-booking-app/app/bookings/page.tsx:101-111 | every string includes the empty string |
| Js.LocaleCompare | flight-booking-app/app/search/page.tsx:74-76 | the result lies in -1..1 and is not positive when the first string is a prefix of the second |
| Js.LocaleCompareAntisymmetric | flight-booking-app/app/search/page.tsx:74-76 | `localeCompare` changes sign when its operands swap, is 0 exactly for equal strings, and lies in -1..1 |
| Js.LocaleCompareTransitive | flight-booking-app/app/search/page.tsx:74-76 | "not after" in `localeCompare` order is transitive |
| Js.NumberToString | flight-booking-app/app/search/page.tsx:88 | `price.toString()` on a non-negative integer is a non-empty string of digits |
| Js.ParseInt | flight-booking-app/app/booking/page.tsx:36-39 | the last digit of a numeral is the value's last decimal digit; a numeral of zeros parses to 0 |
| Js.ParseIntOfToString | flight-booking-app/app/booking/page.tsx:39 | parsing the printed price gives back the same number |
| Api.FlightQuery | flight-booking-app/lib/api.ts:13-20 | the query holds at most `departure_city`, `arrival_city` and `departure_time`, carrying origin, destination and departureDate |
| Api.FlightQueryOnlySearchFields | flight-booking-app/lib/api.ts:14-20 | two parameter sets with the same three search fields give the same query, so nothing else is sent |
| Api.MapUser | flight-booking-app/lib/api.ts:66-75 | firstName and lastName come from first_name and last_name, overwriting camelCase ones; every other field, snake_case included, is kept |
| Home.With | flight-booking-app/app/page.tsx:94 | editing one field sets that field and leaves the other five as they were |
| Home.HandleSearch | flight-booking-app/app/page.tsx:26-32 | navigation happens iff origin, destination and departureDate are non-empty (the handler does not look at the return date; the browser's `min` check does, see `Home.SubmittedSearch`); the query holds exactly the six fields, each with the form's value |
| Home.SubmittedSearch | flight-booking-app/app/page.tsx:56-141 | a form that passes the browser's `required` and `min` checks always navigates; a round trip's return date, when given, is not before the departure date nor before today |
| Home.HomePage.constructor | flight-booking-app/app/page.tsx:17-24 | the initial form: passengers "1", tripType "round-trip", everything else empty; its passenger count is one the select offers |
| Home.HomePage.Edit | flight-booking-app/app/page.tsx:154-162 | one field replaced, the others kept; the passenger count stays one of "1".."8" and the trip type one of the two radio values |
| Search.SearchDataFrom | flight-booking-app/app/search/page.tsx:40-45 | origin, destination and departureDate are the query's values or ""; passengers is the query's value when non-empty, else "1", so never empty |
| Search.Compare | flight-booking-app/app/search/page.tsx:69-79 | by price: negative iff the first price is lower, zero iff equal; by duration or departure: zero iff the strings are equal; any other key: always zero |
| Search.Insert | flight-booking-app/app/search/page.tsx:69-80 | inserting a flight into a list gives a permutation of the list plus that flight |
| Search.InsertOrdered | flight-booking-app/app/search/page.tsx:69-80 | inserting into a list in comparator order keeps it in comparator order |
| Search.CompareFlip | flight-booking-app/app/search/page.tsx:69-80 | the comparator is antisymmetric for every sort key |
| Search.CompareTransitive | flight-booking-app/app/search/page.tsx:69-80 | the comparator's "not after" is transitive for every sort key |
| Search.SortFlights | flight-booking-app/app/search/page.tsx:69-80 | the sorted copy is a permutation of the flights, with each flight in comparator order with the next |
| Search.SortStable | flight-booking-app/app/search/page.tsx:69-80 | the sort is stable: for every flight, the flights comparing equal to it come out in the order they were fetched |
| Search.TiesOfInsert | flight-booking-app/app/search/page.tsx:69-80 | inserting a flight into an ordered list places it after every flight it ties with, and keeps the order of those ties |
| Search.OrderedPairwise | flight-booking-app/app/search/page.tsx:69-80 | order between neighbours extends to every earlier/later pair |
| Search.SortByPrice | flight-booking-app/app/search/page.tsx:71-72 | sorting by "price" gives a permutation with non-decreasing prices |
| Search.SortByDuration | flight-booking-app/app/search/page.tsx:73-74 | sorting by "duration" gives a permutation in ascending string order of duration |
| Search.SortByDeparture | flight-booking-app/app/search/page.tsx:75-76 | sorting by "departure" gives a permutation in ascending string order of departure time |
| Search.SortByUnknownKey | flight-booking-app/app/search/page.tsx:77-78 | any other sort key leaves the fetched order unchanged |
| Search.InsertLast | flight-booking-app/app/search/page.tsx:77-78 | when every pair compares equal, insertion appends |
| Search.BookFlight | flight-booking-app/app/search/page.tsx:82-92 | the hand-off holds exactly the four search fields plus the flight's id, airline, flight number, price, departure, arrival and duration; the price is a numeral that parses back to the flight's price; departure and arrival are the flight's serialised endpoints |
| Search.SearchPage.constructor | flight-booking-app/app/search/page.tsx:36-45 | the search is read from the query; no flights yet, sorted by price, loading |
| Search.SearchPage.FetchFlights | flight-booking-app/app/search/page.tsx:47-67 | a request is sent iff origin, destination and departureDate are non-empty, with the search as read; success stores the data, failure empties the list, an incomplete search leaves it alone; loading is false afterwards |
| Search.SearchPage.SetSortBy | flight-booking-app/app/search/page.tsx:134 | the sort key becomes the selected value |
| Search.SearchPage.SortedFlights | flight-booking-app/app/search/page.tsx:69 | the list shown is a permutation of `flights`, in the current key's order; `flights` itself is only read |
| Booking.PassengerWith | flight-booking-app/app/booking/page.tsx:73 | one passenger field set, the other four kept |
| Booking.InitialPassengers | flight-booking-app/app/booking/page.tsx:45-53 | exactly n records, each with empty names, date of birth and passport, and economy seating |
| Booking.ContactWith | flight-booking-app/app/booking/page.tsx:265-284 | one contact field set, the other two kept |
| Booking.PaymentWith | flight-booking-app/app/booking/page.tsx:304-340 | one payment field set, the other three kept |
| Booking.BlankFormBlocked | flight-booking-app/app/booking/page.tsx:186-340 | the form as first shown fails the browser's `required` check in every section: a blank passenger, the contact details and the payment details |
| Booking.FlightDataFrom | flight-booking-app/app/booking/page.tsx:32-43 | missing parameters give passengers 1, price 0 and empty text fields; given numbers are parsed; text fields are copied |
| Booking.NumberParam | flight-booking-app/app/booking/page.tsx:36-39 | a missing or empty parameter gives the default; a given one is its parsed value |
| Booking.Taxes | flight-booking-app/app/booking/page.tsx:118 | the tax is 15% of the subtotal rounded to the nearest integer, halves up |
| Booking.Subtotal | flight-booking-app/app/booking/page.tsx:117 | the subtotal is zero iff the price or the passenger count is zero, and at least the price for one or more passengers |
| Booking.FinalPrice | flight-booking-app/app/booking/page.tsx:119 | the final price is within half a unit of 115% of the subtotal |
| Booking.PriceBounds | flight-booking-app/app/booking/page.tsx:117-119 | for a non-negative subtotal, 0 <= taxes <= subtotal <= final price |
| Booking.PriceExample | flight-booking-app/app/booking/page.tsx:117-119 | 299 × 2 gives 598 + 90 = 688 |
| Booking.Payload | flight-booking-app/app/booking/page.tsx:87-94 | the user's id, no flight id, the current time as booking date, price × passengers as total, and the passengers and contact details as entered |
| Booking.PayloadOmitsTaxes | flight-booking-app/app/booking/page.tsx:87-94 | the submitted total is the subtotal without taxes, below the final price whenever taxes are positive; the flight id is undefined |
| Booking.Settle | flight-booking-app/app/booking/page.tsx:102-111 | navigation to the confirmation page with the reference iff the answer carries a non-empty reference; otherwise the "try again" toast, or "Booking failed: " with the error message or its fallback |
| Booking.BookingPage.constructor | flight-booking-app/app/booking/page.tsx:32-68 | the flight read from the query; one blank passenger per seat; empty contact and payment details; not booking |
| Booking.BookingPage.UpdatePassenger | flight-booking-app/app/booking/page.tsx:71-75 | same length; entry i has field f set and its other fields kept; every other entry unchanged |
| Booking.BookingPage.UpdateContact | flight-booking-app/app/booking/page.tsx:265 | the contact details with one field replaced |
| Booking.BookingPage.UpdatePayment | flight-booking-app/app/booking/page.tsx:306-338 | the payment details with one field replaced |
| Booking.BookingPage.HandleBooking | flight-booking-app/app/booking/page.tsx:77-115 | runs only once every `required` input is filled in; without a user, no request and `isBooking` untouched; with one, the payload is sent (so its passengers and contact details are all filled in, and the payment details are not part of it), the outcome settled as `Settle` says, and `isBooking` is false afterwards |
| Bookings.MatchesSearch | flight-booking-app/app/bookings/page.tsx:102-106 | the empty search term matches every booking |
| Bookings.MatchesStatus | flight-booking-app/app/bookings/page.tsx:108 | "all" lets every booking through; any other filter exactly the bookings with that status |
| Bookings.FilterBookings | flight-booking-app/app/bookings/page.tsx:101-111 | a booking is kept iff it matches the search and the status filter, with every copy of it kept and none added (the result's multiset is the list's restricted to kept bookings) |
| Bookings.FilterIsSubsequence | flight-booking-app/app/bookings/page.tsx:101 | the result is an order-preserving subsequence of the list |
| Bookings.SkipHead | flight-booking-app/app/bookings/page.tsx:101 | a subsequence of the tail is a subsequence of the list |
| Bookings.DropFirst | flight-booking-app/app/bookings/page.tsx:101 | a subsequence stays one without its first element |
| Bookings.EmptySearchShowsAll | flight-booking-app/app/bookings/page.tsx:101-111 | an empty search with status "all" returns every booking, in order |
| Bookings.EmptySearchFiltersByStatus | flight-booking-app/app/bookings/page.tsx:101-111 | with an empty search only the status decides, and the order is kept |
| Bookings.MatchesSearchIff | flight-booking-app/app/bookings/page.tsx:102-106 | the search matches iff the lower-cased term occurs in the lower-cased reference, origin, destination or airline; the flight number is not searched |
| Bookings.StatusColor | flight-booking-app/app/bookings/page.tsx:113-124 | green iff confirmed, red iff cancelled, gray for completed and for every other status |
| SignUp.Validate | flight-booking-app/app/auth/sign-up/page.tsx:31-46 | each key ends with the message of its last failing check; a short password, empty included, ends with "at least 8 characters"; the result is true iff the map is empty iff the form is valid |
| SignUp.NoErrorsIffValid | flight-booking-app/app/auth/sign-up/page.tsx:31-46 | no check fails iff names and email are non-empty, the password has 8+ characters and matches its confirmation, and the terms are accepted |
| SignUp.SignUpPage.constructor | flight-booking-app/app/auth/sign-up/page.tsx:20-29 | empty form, terms unchecked, not loading, no errors |
| SignUp.SignUpPage.Edit | flight-booking-app/app/auth/sign-up/page.tsx:102-166 | the form is replaced |
| SignUp.SignUpPage.HandleSubmit | flight-booking-app/app/auth/sign-up/page.tsx:48-72 | `signUp` is called iff the form is valid, with its credentials and names; success goes to the dashboard; failure leaves exactly the form-level error; an invalid form shows its errors; `isLoading` is false after a call |
| Confirmation.OrNA | flight-booking-app/app/confirmation/page.tsx:183 | a present, non-empty value is shown as is, otherwise 'N/A'; never blank |
| Confirmation.Card | flight-booking-app/app/confirmation/page.tsx:183-225 | every field of the flight card, endpoints through optional chaining, is its value or 'N/A'; the date is formatted when present, else 'N/A' |
| Confirmation.BareBookingCard | flight-booking-app/app/confirmation/page.tsx:183-225 | a booking with no optional fields shows 'N/A' everywhere on the card |
| Confirmation.Render | flight-booking-app/app/confirmation/page.tsx:100-141 | exactly one screen: loading if loading; else the error if there is one; else not-found without data; else success with the data |
| Confirmation.FailureMessage | flight-booking-app/app/confirmation/page.tsx:71 | the message of a thrown failure is never empty |
| Confirmation.ConfirmationPage.constructor | flight-booking-app/app/confirmation/page.tsx:45-49 | reference from the query; no data, no error, loading, so the loading screen |
| Confirmation.ConfirmationPage.View | flight-booking-app/app/confirmation/page.tsx:100-141 | the spinner exactly while loading; "not found" exactly when loading ended with no error and no data; the success screen only with the stored booking |
| Confirmation.ConfirmationPage.FetchBookingDetails | flight-booking-app/app/confirmation/page.tsx:51-79 | no reference: the fixed error and no request; data: stored with the error cleared; empty: "Booking details not found."; thrown: the prefixed message; loading false after every path, showing success iff data arrived and the error screen otherwise |
| UserMenu.Initials | flight-booking-app/components/user-menu.tsx:30-34 | two characters, the names' first letters as written, iff both names are present; else the upper-cased first letter of the e-mail; else "U" |
| UserMenu.DisplayName | flight-booking-app/components/user-menu.tsx:37-41 | "first last" when both names are present, else the e-mail, else "User"; never empty |
| UserMenu.Render | flight-booking-app/components/user-menu.tsx:27-41 | nothing is rendered iff there is no user; otherwise the initials, name and e-mail, neither of the first two empty |
| Profile.With | flight-booking-app/app/profile/page.tsx:110-116 | one profile field set, the other six kept |
| Profile.BeforeT | flight-booking-app/app/profile/page.tsx:56 | the date part is a prefix with no 'T', followed in the input by a 'T' or by the end |
| Profile.BeforeTUnique | flight-booking-app/app/profile/page.tsx:56 | that prefix is the only one with this property |
| Profile.FormFor | flight-booking-app/app/profile/page.tsx:50-58 | each field is the user's field of that name or ''; the date of birth is cut before its first 'T' |
| Profile.ProfilePage.constructor | flight-booking-app/app/profile/page.tsx:50-61 | form filled from the user; not editing, not saving |
| Profile.ProfilePage.StartEditing | flight-booking-app/app/profile/page.tsx:196 | offered only while not editing; editing starts |
| Profile.ProfilePage.CancelEditing | flight-booking-app/app/profile/page.tsx:199 | offered only while editing; editing ends; the form is left as typed |
| Profile.ProfilePage.HandleChange | flight-booking-app/app/profile/page.tsx:110-116 | only while editing and only for an input with a handler (not the e-mail): exactly the field named by the input id is replaced |
| Profile.ProfilePage.HandleSave | flight-booking-app/app/profile/page.tsx:91-108 | offered only while editing and not saving; the user's id and the form are sent; success hands the mapped answer to `updateUser`, which becomes the user, and ends editing; failure hands nothing, keeps the user and stays in editing; the form is untouched; not saving afterwards |
| Profile.ProfilePage.SyncFromUser | flight-booking-app/app/profile/page.tsx:78-88 | the form is refilled from the current user |
| Profile.ProfilePage.Initials | flight-booking-app/app/profile/page.tsx:64-68 | one or two characters, two exactly when both names are present |
| Profile.ProfilePage.DisplayName | flight-booking-app/app/profile/page.tsx:70-74 | never empty; "first last" when both names are present |
| Profile.SavedNamesShown | flight-booking-app/app/profile/page.tsx:64-74 | after a save the header's name and initials come from the answer's first_name and last_name |
| Profile.SavedNamesInForm | flight-booking-app/app/profile/page.tsx:78-88 | after a save the refilled name inputs hold the answer's first_name and last_name |
| Flow.PassengerChoiceParses | flight-booking-app/app/page.tsx:160-161 | every passenger count the select offers is a numeral that parses to 1..8 |
| Flow.SearchToBooking | flight-booking-app/app/search/page.tsx:82-94 | a submitted search with an offered passenger count is fetched for, and reaches the booking form with well-formed numbers, the route, airline and price of the chosen flight, and 1..8 passenger slots |

## Left out

- Markup and styling are not modelled. This covers JSX, icons and layout, the dashboard and booking-success pages, and the header. The early returns that ask a signed-out visitor to sign in on the bookings and profile pages are also left out.
- Network I/O is not modelled. The axios and Supabase clients are represented only by the outcome of each call. `apiClient` defines only `getFlights`, so `createBooking` and `getBookingById` are called on an object that lacks them. In the running app the thrown-error outcome is therefore the one that happens, and the model always allows it.
- The auth context is not part of this model. `user` is an input and `signUp` an outcome parameter. `updateUser` is represented by the value handed to it.
- Routing, toasts, console logging, `alert`, `navigator.share` and the clipboard are left out. Where a handler navigates or shows a toast, its result says so.
- Concurrency is not modelled: each handler or effect run is one atomic step.
  - The results page's effect depends on a search object rebuilt on every render, so it re-runs after each render. The model treats a single run.
  - Races between superseded requests are not modelled.
- Booking.Taxes: uses exact rational rounding of 15% (halves up). IEEE arithmetic on `0.15` can round differently at exact .5 boundaries.
- Booking.FlightDataFrom: requires the passenger and price parameters, when given, to be numerals. `parseInt` of other text (NaN, a sign, trailing characters) is out of scope. Prices and passenger counts are non-negative integers, and `toFixed(2)` is not modelled.
- Js.LocaleCompare: is code-point lexicographic order, not locale collation. Js.Lower and Js.UpperChar map ASCII letters only.
- `JSON.stringify`, `JSON.parse`, `URLSearchParams` encoding and `toLocaleDateString` are abstracted. They appear as parameters, as query maps, or as endpoint text kept unparsed.
- The payment details of the booking form are kept as page state and gate the submission, but no handler reads them, so they never reach the payload.
- Booking.Payload: `flightId` is always undefined because the booking page never reads an id into `flightData`. The model reproduces this; it does not supply the id.
- Api.MapUser: a field set to `undefined` is modelled as absent, which reads the same. A key that is present with value `undefined` is not distinguished from a missing key.
- Bookings: the page's mock list of bookings is not modelled as data. The filter is proved for every list.
- Confirmation: only the booking fields the flight card reads are modelled. Passengers, contact details and price on the confirmation page are not displayed by any modelled logic.
- Profile.ProfilePage.HandleChange: its guards (editing, not the e-mail) are the inputs' `disabled` flags and the e-mail input's missing handler, stated as preconditions.
- Profile.ProfilePage.HandleSave: the auth context's `updateUser` is assumed to replace the user with exactly the value handed to it. The method returns that value.
- Strings are sequences of Unicode code points, not of UTF-16 code units. `password.length`, `firstName[0]`, `email[0]` and `localeCompare` count and compare code units in JavaScript, so they differ from the model on characters outside the Basic Multilingual Plane.
- Js.ParseIntOfToString: holds for non-negative integer prices below 10^21. From 10^21 up `toString` uses exponent notation, which the model does not produce.
- Search.BookFlight: the price is a non-negative integer. A price with cents is printed with a decimal point, and the booking page's `parseInt` then keeps only the integer part. That page would show and submit a truncated price; the model does not represent that case.
- Flow.SearchToBooking: holds for integer prices only, for the same reason as `Search.BookFlight`.
- Home.SubmittedSearch: date inputs are compared as "YYYY-MM-DD" strings, in lexicographic order. This matches date order for four-digit years. `today` stands for the clock's UTC date.
- SignUp.SignUpPage.HandleSubmit: the browser's format check of the `type="email"` input is not modelled. A non-empty e-mail that is not a valid address never reaches `handleSubmit`, but the model accepts it.
- Booking.BookingPage.HandleBooking: only the browser's `required` check is a precondition. The format check of the contact e-mail (`type="email"`) is not modelled, so the model also accepts a malformed address.
