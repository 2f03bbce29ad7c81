/**
 * The booking form (app/booking/page.tsx): the flight read from the query,
 * one passenger record per seat, contact details, the price shown in the
 * summary, and `handleBooking`, which builds the payload and reacts to the
 * booking service's answer.
 */
module Booking {
  import opened Js
  import Api

  datatype Passenger = Passenger(
    firstName: string,
    lastName: string,
    dateOfBirth: string,
    passportNumber: string,
    seatPreference: string)

  datatype PassengerField = FirstName | LastName | DateOfBirth | PassportNumber | SeatPreference

  /** A passenger slot as the form first shows it. */
  const BlankPassenger := Passenger("", "", "", "", "economy")

  function PassengerGet(p: Passenger, field: PassengerField): string {
    match field
    case FirstName => p.firstName
    case LastName => p.lastName
    case DateOfBirth => p.dateOfBirth
    case PassportNumber => p.passportNumber
    case SeatPreference => p.seatPreference
  }

  /** A copy of the record with the named field replaced and the other four kept. */
  function PassengerWith(p: Passenger, field: PassengerField, value: string): (r: Passenger)
    ensures PassengerGet(r, field) == value
    ensures forall g :: g != field ==> PassengerGet(r, g) == PassengerGet(p, g)
  {
    match field
    case FirstName => p.(firstName := value)
    case LastName => p.(lastName := value)
    case DateOfBirth => p.(dateOfBirth := value)
    case PassportNumber => p.(passportNumber := value)
    case SeatPreference => p.(seatPreference := value)
  }

  /** The passenger list the form starts with: exactly `n` blank records. */
  function InitialPassengers(n: nat): (r: seq<Passenger>)
    ensures |r| == n
    ensures forall i :: 0 <= i < n ==> r[i] == BlankPassenger
  {
    seq(n, _ => BlankPassenger)
  }

  datatype ContactInfo = ContactInfo(email: string, phone: string, emergencyContact: string)

  datatype ContactField = Email | Phone | EmergencyContact

  const BlankContact := ContactInfo("", "", "")

  function ContactGet(c: ContactInfo, field: ContactField): string {
    match field
    case Email => c.email
    case Phone => c.phone
    case EmergencyContact => c.emergencyContact
  }

  /** A copy of the contact details with one field replaced. */
  function ContactWith(c: ContactInfo, field: ContactField, value: string): (r: ContactInfo)
    ensures ContactGet(r, field) == value
    ensures forall g :: g != field ==> ContactGet(r, g) == ContactGet(c, g)
  {
    match field
    case Email => c.(email := value)
    case Phone => c.(phone := value)
    case EmergencyContact => c.(emergencyContact := value)
  }

  /** The card details of the payment section; no handler reads them. */
  datatype PaymentInfo = PaymentInfo(cardNumber: string, expiryDate: string, cvv: string, cardholderName: string)

  datatype PaymentField = CardNumber | ExpiryDate | Cvv | CardholderName

  const BlankPayment := PaymentInfo("", "", "", "")

  function PaymentGet(p: PaymentInfo, field: PaymentField): string {
    match field
    case CardNumber => p.cardNumber
    case ExpiryDate => p.expiryDate
    case Cvv => p.cvv
    case CardholderName => p.cardholderName
  }

  /** A copy of the payment details with one field replaced. */
  function PaymentWith(p: PaymentInfo, field: PaymentField, value: string): (r: PaymentInfo)
    ensures PaymentGet(r, field) == value
    ensures forall g :: g != field ==> PaymentGet(r, g) == PaymentGet(p, g)
  {
    match field
    case CardNumber => p.(cardNumber := value)
    case ExpiryDate => p.(expiryDate := value)
    case Cvv => p.(cvv := value)
    case CardholderName => p.(cardholderName := value)
  }

  // ---------------------------------------------------------------------
  // The browser's check of the `required` inputs

  /** Every passenger's names, date of birth and passport number are filled in; the seat is a select. */
  predicate PassengersFilled(ps: seq<Passenger>) {
    forall i :: 0 <= i < |ps| ==>
      ps[i].firstName != "" && ps[i].lastName != "" && ps[i].dateOfBirth != "" && ps[i].passportNumber != ""
  }

  predicate ContactFilled(c: ContactInfo) {
    c.email != "" && c.phone != "" && c.emergencyContact != ""
  }

  predicate PaymentFilled(p: PaymentInfo) {
    p.cardNumber != "" && p.expiryDate != "" && p.cvv != "" && p.cardholderName != ""
  }

  /**
   * Every input of the booking form is `required` and the form does not set
   * `noValidate`, so the browser fires its submit handler only when all of
   * them hold a value.
   */
  predicate Submittable(ps: seq<Passenger>, c: ContactInfo, p: PaymentInfo) {
    PassengersFilled(ps) && ContactFilled(c) && PaymentFilled(p)
  }

  /** Each section of the form as first shown blocks the submission: a blank passenger, the contact and the payment details. */
  lemma BlankFormBlocked(n: nat)
    ensures n > 0 ==> !PassengersFilled(InitialPassengers(n))
    ensures !ContactFilled(BlankContact) && !PaymentFilled(BlankPayment)
  {
    if n > 0 {
      assert InitialPassengers(n)[0].firstName == "";
    }
  }

  // ---------------------------------------------------------------------
  // The flight, read from the query

  /**
   * `flightData`. `departure` and `arrival` are kept as the JSON text they
   * arrive as; no `id` is read, so the flight has none.
   */
  datatype FlightData = FlightData(
    origin: string,
    destination: string,
    departureDate: string,
    passengers: nat,
    airline: string,
    flightNumber: string,
    price: nat,
    departure: string,
    arrival: string,
    duration: string)

  /** The numeric parameters, when given, are numerals. */
  predicate WellFormedNumbers(query: map<string, string>) {
    && (Truthy(Field(query, "passengers")) ==> IsNumeral(query["passengers"]))
    && (Truthy(Field(query, "price")) ==> IsNumeral(query["price"]))
  }

  /**
   * `Number.parseInt(searchParams.get(k) || fallback)`: the fallback when the
   * parameter is missing or empty, otherwise the number it spells.
   */
  function NumberParam(query: map<string, string>, k: string, fallback: nat): (n: nat)
    requires Truthy(Field(query, k)) ==> IsNumeral(query[k])
    ensures !Truthy(Field(query, k)) ==> n == fallback
    ensures Truthy(Field(query, k)) ==> n == ParseInt(query[k])
  {
    if Truthy(Field(query, k)) then ParseInt(query[k]) else fallback
  }

  /**
   * `flightData`: every text field falls back to "" (the JSON fields to
   * "{}"), the passenger count to 1 and the price to 0.
   */
  function FlightDataFrom(query: map<string, string>): (fd: FlightData)
    requires WellFormedNumbers(query)
    ensures !Truthy(Field(query, "passengers")) ==> fd.passengers == 1
    ensures !Truthy(Field(query, "price")) ==> fd.price == 0
    ensures Truthy(Field(query, "passengers")) ==> fd.passengers == ParseInt(query["passengers"])
    ensures Truthy(Field(query, "price")) ==> fd.price == ParseInt(query["price"])
    ensures fd.origin == (if "origin" in query then query["origin"] else "")
    ensures fd.destination == (if "destination" in query then query["destination"] else "")
    ensures fd.departureDate == (if "departureDate" in query then query["departureDate"] else "")
    ensures fd.airline == (if "airline" in query then query["airline"] else "")
    ensures fd.flightNumber == (if "flightNumber" in query then query["flightNumber"] else "")
    ensures fd.duration == (if "duration" in query then query["duration"] else "")
  {
    FlightData(
      OrElse(Field(query, "origin"), ""),
      OrElse(Field(query, "destination"), ""),
      OrElse(Field(query, "departureDate"), ""),
      NumberParam(query, "passengers", 1),
      OrElse(Field(query, "airline"), ""),
      OrElse(Field(query, "flightNumber"), ""),
      NumberParam(query, "price", 0),
      OrElse(Field(query, "departure"), "{}"),
      OrElse(Field(query, "arrival"), "{}"),
      OrElse(Field(query, "duration"), ""))
  }

  // ---------------------------------------------------------------------
  // Price summary

  /**
   * `flightData.price * flightData.passengers`: zero only for a free flight
   * or no passengers, and at least the fare once there is a passenger.
   */
  function Subtotal(fd: FlightData): (s: nat)
    ensures s == 0 <==> fd.price == 0 || fd.passengers == 0
    ensures fd.passengers >= 1 ==> s >= fd.price
  {
    fd.price * fd.passengers
  }

  /**
   * `Math.round(subtotal * 0.15)`: the integer nearest to 15% of the
   * subtotal, halves rounded up.
   */
  function Taxes(subtotal: int): (t: int)
    ensures -50 <= 15 * subtotal - 100 * t < 50
  {
    (subtotal * 15 + 50) / 100
  }

  /** The subtotal plus taxes: 115% of the subtotal, rounded to the nearest integer, halves up. */
  function FinalPrice(subtotal: int): (f: int)
    ensures -50 <= 115 * subtotal - 100 * f < 50
  {
    subtotal + Taxes(subtotal)
  }

  /** For a non-negative subtotal, 0 <= taxes <= subtotal <= final price. */
  lemma PriceBounds(subtotal: int)
    requires subtotal >= 0
    ensures 0 <= Taxes(subtotal) <= subtotal <= FinalPrice(subtotal)
  {
    if subtotal > 0 {
      assert 100 * Taxes(subtotal) <= 15 * subtotal + 50 <= 100 * subtotal;
    }
  }

  /** 299 for each of two passengers: 598 plus 90 of taxes, 688 in all. */
  lemma PriceExample()
    ensures Taxes(299 * 2) == 90 && FinalPrice(299 * 2) == 688
  {
  }

  // ---------------------------------------------------------------------
  // Submission

  /**
   * The request `handleBooking` sends. `flightId` is `flightData.id`, which
   * the page never sets, and `totalPrice` is the subtotal without taxes.
   */
  datatype BookingPayload = BookingPayload(
    userId: Option<string>,
    flightId: Option<string>,
    bookingDate: string,
    totalPrice: int,
    passengers: seq<Passenger>,
    contactInfo: ContactInfo)

  /**
   * The payload: the user's id, no flight id, the clock's time, the
   * subtotal as total, and the passenger and contact records as they stand.
   */
  function Payload(user: Api.Record, fd: FlightData, passengers: seq<Passenger>, contact: ContactInfo, now: string): (p: BookingPayload)
    ensures p.userId == Field(user, "id") && p.flightId == None && p.bookingDate == now
    ensures p.totalPrice == fd.price * fd.passengers
    ensures p.passengers == passengers && p.contactInfo == contact
  {
    BookingPayload(Field(user, "id"), None, now, Subtotal(fd), passengers, contact)
  }

  /** The submitted total is the subtotal, below the price shown whenever there are taxes. */
  lemma PayloadOmitsTaxes(user: Api.Record, fd: FlightData, passengers: seq<Passenger>, contact: ContactInfo, now: string)
    ensures var p := Payload(user, fd, passengers, contact, now);
      && p.totalPrice + Taxes(p.totalPrice) == FinalPrice(Subtotal(fd))
      && (Taxes(Subtotal(fd)) > 0 ==> p.totalPrice < FinalPrice(Subtotal(fd)))
      && p.flightId == None
  {
  }

  /** What `apiClient.createBooking` did: answered, with or without a booking reference, or threw. */
  datatype CreateOutcome = Answered(bookingReference: Option<string>) | Threw(message: Option<string>)

  /** Where the submission ends: the sign-in guard, navigation to the confirmation page, or an error toast. */
  datatype BookingResult = NotSignedIn(toast: string) | Confirmed(url: string) | Failed(toast: string)

  const SignInRequired := "You must be logged in to book a flight."
  const NoReference := "Booking failed. Please try again."

  /** The reaction to the service's outcome once a request was sent. */
  function Settle(outcome: CreateOutcome): (r: BookingResult)
    ensures r.Confirmed? <==> outcome.Answered? && Truthy(outcome.bookingReference)
    ensures r.Confirmed? ==> r.url == "/confirmation?bookingReference=" + outcome.bookingReference.value
    ensures outcome.Answered? && !Truthy(outcome.bookingReference) ==> r == Failed(NoReference)
    ensures outcome.Threw? ==> r == Failed("Booking failed: " + OrElse(outcome.message, "An unexpected error occurred."))
  {
    match outcome
    case Answered(reference) =>
      if Truthy(reference) then Confirmed("/confirmation?bookingReference=" + reference.value)
      else Failed(NoReference)
    case Threw(message) =>
      Failed("Booking failed: " + OrElse(message, "An unexpected error occurred."))
  }

  class BookingPage {
    const flight: FlightData
    var passengers: seq<Passenger>
    var contactInfo: ContactInfo
    var paymentInfo: PaymentInfo
    var isBooking: bool

    constructor(query: map<string, string>)
      requires WellFormedNumbers(query)
      ensures flight == FlightDataFrom(query)
      ensures passengers == InitialPassengers(flight.passengers)
      ensures contactInfo == BlankContact && paymentInfo == BlankPayment && !isBooking
    {
      flight := FlightDataFrom(query);
      passengers := InitialPassengers(FlightDataFrom(query).passengers);
      contactInfo := BlankContact;
      paymentInfo := BlankPayment;
      isBooking := false;
    }

    /**
     * `updatePassenger`: a copy of the list with one field of one record
     * replaced. The list keeps its length, the other fields of that record
     * and every other record are kept; the old list is a value and is
     * untouched.
     */
    method UpdatePassenger(index: nat, field: PassengerField, value: string)
      requires index < |passengers|
      modifies this`passengers
      ensures |passengers| == |old(passengers)|
      ensures passengers[index] == PassengerWith(old(passengers)[index], field, value)
      ensures forall j :: 0 <= j < |passengers| && j != index ==> passengers[j] == old(passengers)[j]
    {
      var updated := passengers;
      updated := updated[index := PassengerWith(updated[index], field, value)];
      passengers := updated;
    }

    /** One of the contact inputs' `onChange`. */
    method UpdateContact(field: ContactField, value: string)
      modifies this`contactInfo
      ensures contactInfo == ContactWith(old(contactInfo), field, value)
    {
      contactInfo := ContactWith(contactInfo, field, value);
    }

    /** One of the payment inputs' `onChange`. */
    method UpdatePayment(field: PaymentField, value: string)
      modifies this`paymentInfo
      ensures paymentInfo == PaymentWith(old(paymentInfo), field, value)
    {
      paymentInfo := PaymentWith(paymentInfo, field, value);
    }

    /**
     * `handleBooking`, as one step. Returns the payload sent (none without a
     * signed-in user) and where the submission ends. `now` stands for the
     * clock's ISO time, `outcome` for the service's answer. The browser
     * submits only a form whose required inputs are all filled in.
     */
    method HandleBooking(user: Option<Api.Record>, now: string, outcome: CreateOutcome)
      returns (sent: Option<BookingPayload>, result: BookingResult)
      requires Submittable(passengers, contactInfo, paymentInfo)
      modifies this`isBooking
      ensures user.None? ==> sent == None && result == NotSignedIn(SignInRequired) && isBooking == old(isBooking)
      ensures user.Some? ==> sent == Some(Payload(user.value, flight, passengers, contactInfo, now))
      ensures user.Some? ==> result == Settle(outcome) && !isBooking
      ensures sent.Some? ==> PassengersFilled(sent.value.passengers) && ContactFilled(sent.value.contactInfo)
    {
      if user.None? {
        return None, NotSignedIn(SignInRequired);
      }
      isBooking := true;
      sent := Some(Payload(user.value, flight, passengers, contactInfo, now));
      result := Settle(outcome);
      isBooking := false;
    }
  }
}
