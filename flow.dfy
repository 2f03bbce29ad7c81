/**
 * The path through the three pages of a booking: the home page's query,
 * read back by the results page, handed on with the chosen flight, and read
 * by the booking form.
 */
module Flow {
  import opened Js
  import Home
  import Search
  import Booking

  /** The passenger count the home page offers reads back as that number. */
  lemma {:induction false} PassengerChoiceParses(s: string)
    requires Home.PassengerChoice(s)
    ensures IsNumeral(s) && 1 <= ParseInt(s) <= 8
  {
    var n :| 1 <= n <= 8 && s == NumberToString(n);
    ParseIntOfToString(n);
  }

  /**
   * A search the home page submits, with a passenger count its select
   * offers, reaches the booking form complete: the results page fetches for
   * it, the booking form reads its numbers without fallback, finds the
   * route, airline and price of the chosen flight, and shows between one
   * and eight passenger slots.
   */
  lemma SearchToBooking(form: Home.SearchForm, flight: Search.Flight, stringify: Search.Endpoint -> string)
    requires Home.PassengerChoice(form.passengers)
    requires Home.HandleSearch(form).Some?
    ensures var sd := Search.SearchDataFrom(Home.HandleSearch(form).value);
      var q := Search.BookFlight(sd, flight, stringify);
      && Search.Complete(sd)
      && Booking.WellFormedNumbers(q)
      && var fd := Booking.FlightDataFrom(q);
      && fd.origin == form.origin && fd.destination == form.destination
      && fd.departureDate == form.departureDate
      && fd.airline == flight.airline && fd.flightNumber == flight.flightNumber
      && fd.price == flight.price
      && 1 <= fd.passengers <= 8
      && |Booking.InitialPassengers(fd.passengers)| == fd.passengers
      && Booking.Subtotal(fd) == flight.price * fd.passengers
  {
    var query := Home.HandleSearch(form).value;
    assert query[Home.Key(Home.Origin)] == form.origin;
    assert query[Home.Key(Home.Destination)] == form.destination;
    assert query[Home.Key(Home.DepartureDate)] == form.departureDate;
    assert query[Home.Key(Home.Passengers)] == form.passengers;
    PassengerChoiceParses(form.passengers);
    var sd := Search.SearchDataFrom(query);
    assert sd.passengers == form.passengers;
  }
}
