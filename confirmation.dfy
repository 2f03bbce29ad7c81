/**
 * The confirmation page (app/confirmation/page.tsx): the fetch of the
 * booking named by the query, the choice of which of four screens to show,
 * and the 'N/A' stand-ins of the flight card.
 */
module Confirmation {
  import opened Js

  /** One end of the flight: time, airport and city, each of which the service may leave out. */
  datatype Endpoint = Endpoint(time: Option<string>, airport: Option<string>, city: Option<string>)

  /** The part of `BookingDetails` the page reads; the optional fields may be missing. */
  datatype BookingDetails = BookingDetails(
    bookingReference: string,
    origin: Option<string>,
    destination: Option<string>,
    departureDate: Option<string>,
    airline: Option<string>,
    flightNumber: Option<string>,
    departure: Option<Endpoint>,
    arrival: Option<Endpoint>,
    duration: Option<string>)

  const NoReferenceMessage := "Booking reference not found in URL."
  const NotFoundMessage := "Booking details not found."
  const FetchFailedPrefix := "Failed to fetch booking details: "
  const FetchFailedFallback := "An error occurred."
  const NotAvailable := "N/A"

  // ---------------------------------------------------------------------
  // The flight card

  /** `shown` is what `value || 'N/A'` displays. */
  predicate ShowsOrNA(shown: string, value: Option<string>) {
    && shown != ""
    && (Truthy(value) ==> shown == value.value)
    && (!Truthy(value) ==> shown == NotAvailable)
  }

  /** `value || 'N/A'`. */
  function OrNA(value: Option<string>): (shown: string)
    ensures ShowsOrNA(shown, value)
  {
    OrElse(value, NotAvailable)
  }

  function TimeOf(e: Option<Endpoint>): Option<string> {
    if e.Some? then e.value.time else None
  }

  function AirportOf(e: Option<Endpoint>): Option<string> {
    if e.Some? then e.value.airport else None
  }

  /** The text of the flight card. */
  datatype FlightCard = FlightCard(
    airline: string,
    flightNumber: string,
    departureTime: string,
    departureAirport: string,
    origin: string,
    duration: string,
    arrivalTime: string,
    arrivalAirport: string,
    destination: string,
    date: string)

  /**
   * The flight card of the success screen: each field, through optional
   * chaining for the two endpoints, or 'N/A'; the date formatted when
   * there is one (`formatDate` stands for `toLocaleDateString`), else 'N/A'.
   */
  function Card(d: BookingDetails, formatDate: string -> string): (c: FlightCard)
    ensures ShowsOrNA(c.airline, d.airline) && ShowsOrNA(c.flightNumber, d.flightNumber)
    ensures ShowsOrNA(c.departureTime, TimeOf(d.departure)) && ShowsOrNA(c.departureAirport, AirportOf(d.departure))
    ensures ShowsOrNA(c.origin, d.origin) && ShowsOrNA(c.duration, d.duration)
    ensures ShowsOrNA(c.arrivalTime, TimeOf(d.arrival)) && ShowsOrNA(c.arrivalAirport, AirportOf(d.arrival))
    ensures ShowsOrNA(c.destination, d.destination)
    ensures Truthy(d.departureDate) ==> c.date == formatDate(d.departureDate.value)
    ensures !Truthy(d.departureDate) ==> c.date == NotAvailable
  {
    FlightCard(
      OrNA(d.airline), OrNA(d.flightNumber),
      OrNA(TimeOf(d.departure)), OrNA(AirportOf(d.departure)), OrNA(d.origin),
      OrNA(d.duration),
      OrNA(TimeOf(d.arrival)), OrNA(AirportOf(d.arrival)), OrNA(d.destination),
      if Truthy(d.departureDate) then formatDate(d.departureDate.value) else NotAvailable)
  }

  /** A booking with none of the optional fields shows 'N/A' wherever the card has a value to show. */
  lemma BareBookingCard(reference: string, formatDate: string -> string)
    ensures var c := Card(BookingDetails(reference, None, None, None, None, None, None, None, None), formatDate);
      c == FlightCard(NotAvailable, NotAvailable, NotAvailable, NotAvailable, NotAvailable,
                      NotAvailable, NotAvailable, NotAvailable, NotAvailable, NotAvailable)
  {
  }

  // ---------------------------------------------------------------------
  // Which screen is shown

  datatype Screen = Loading | ErrorScreen(message: string) | NotFound | Success(details: BookingDetails)

  /**
   * The chain of early returns: loading first, then a (truthy) error, then
   * missing data, and the success screen only when none of them applies.
   */
  function Render(isLoading: bool, error: Option<string>, data: Option<BookingDetails>): (s: Screen)
    ensures s.Loading? <==> isLoading
    ensures s.ErrorScreen? <==> !isLoading && Truthy(error)
    ensures s.ErrorScreen? ==> s.message == error.value
    ensures s.NotFound? <==> !isLoading && !Truthy(error) && data.None?
    ensures s.Success? <==> !isLoading && !Truthy(error) && data.Some?
    ensures s.Success? ==> s.details == data.value
  {
    if isLoading then Loading
    else if Truthy(error) then ErrorScreen(error.value)
    else if data.None? then NotFound
    else Success(data.value)
  }

  // ---------------------------------------------------------------------
  // The fetch

  /** What `apiClient.getBookingById` did: answered with data, answered without, or threw. */
  datatype FetchOutcome = Found(details: BookingDetails) | NoData | Threw(message: Option<string>)

  /** The error text of a thrown failure: never empty, so it always reaches the error screen. */
  function FailureMessage(message: Option<string>): (m: string)
    ensures m != ""
  {
    FetchFailedPrefix + OrElse(message, FetchFailedFallback)
  }

  class ConfirmationPage {
    const bookingReference: Option<string>
    var bookingData: Option<BookingDetails>
    var isLoading: bool
    var error: Option<string>

    constructor(query: map<string, string>)
      ensures bookingReference == Field(query, "bookingReference")
      ensures bookingData == None && isLoading && error == None
      ensures View() == Loading
    {
      bookingReference := Field(query, "bookingReference");
      bookingData := None;
      isLoading := true;
      error := None;
    }

    /**
     * The screen the current state renders: the spinner exactly while
     * loading, and "not found" only when loading ended with neither an
     * error nor data.
     */
    function View(): (s: Screen)
      reads this
      ensures s.Loading? <==> isLoading
      ensures s.NotFound? <==> !isLoading && !Truthy(error) && bookingData.None?
      ensures s.Success? ==> bookingData.Some? && s.details == bookingData.value
    {
      Render(isLoading, error, bookingData)
    }

    /**
     * `fetchBookingDetails`, as one step. Returns the reference looked up,
     * or `None` when the query has none and no request is made.
     */
    method FetchBookingDetails(outcome: FetchOutcome) returns (requested: Option<string>)
      modifies this`bookingData, this`isLoading, this`error
      ensures requested.Some? <==> Truthy(bookingReference)
      ensures requested.Some? ==> requested.value == bookingReference.value
      ensures !Truthy(bookingReference) ==> error == Some(NoReferenceMessage) && bookingData == old(bookingData)
      ensures Truthy(bookingReference) && outcome.Found? ==> error == None && bookingData == Some(outcome.details)
      ensures Truthy(bookingReference) && outcome.NoData? ==> error == Some(NotFoundMessage) && bookingData == old(bookingData)
      ensures Truthy(bookingReference) && outcome.Threw? ==>
                error == Some(FailureMessage(outcome.message)) && bookingData == old(bookingData)
      ensures !isLoading
      // Once a fetch is over the page shows the booking or an error, never
      // the spinner nor the "not found" screen.
      ensures View() == if Truthy(bookingReference) && outcome.Found? then Success(outcome.details) else ErrorScreen(error.value)
    {
      if !Truthy(bookingReference) {
        error := Some(NoReferenceMessage);
        isLoading := false;
        return None;
      }
      requested := bookingReference;
      isLoading := true;
      error := None;
      match outcome {
        case Found(details) =>
          bookingData := Some(details);
        case NoData =>
          error := Some(NotFoundMessage);
        case Threw(message) =>
          error := Some(FailureMessage(message));
      }
      isLoading := false;
    }
  }
}
