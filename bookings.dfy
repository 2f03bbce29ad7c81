/**
 * The list of past bookings (app/bookings/page.tsx): the search box and
 * status filter over the bookings, and the badge colour of each status.
 */
module Bookings {
  import opened Js

  datatype Booking = Booking(
    id: string,
    bookingReference: string,
    origin: string,
    destination: string,
    departureDate: string,
    returnDate: Option<string>,
    airline: string,
    flightNumber: string,
    status: string,
    price: int,
    passengers: int)

  /** Case-insensitive `includes` of the search term in one field. */
  predicate FieldMatches(field: string, searchTerm: string) {
    Includes(Lower(field), Lower(searchTerm))
  }

  /**
   * `matchesSearch`: the reference, origin, destination or airline contains
   * the term, ignoring case; the flight number is not searched. The empty
   * term matches every booking.
   */
  function MatchesSearch(b: Booking, searchTerm: string): (r: bool)
    ensures searchTerm == "" ==> r
  {
    IncludesEmpty(Lower(b.bookingReference));
    || FieldMatches(b.bookingReference, searchTerm)
    || FieldMatches(b.origin, searchTerm)
    || FieldMatches(b.destination, searchTerm)
    || FieldMatches(b.airline, searchTerm)
  }

  /** `matchesStatus`: "all" lets every booking through, any other filter only bookings with that status. */
  function MatchesStatus(b: Booking, statusFilter: string): (r: bool)
    ensures statusFilter == "all" ==> r
    ensures statusFilter != "all" ==> (r <==> b.status == statusFilter)
  {
    statusFilter == "all" || b.status == statusFilter
  }

  predicate Keep(b: Booking, searchTerm: string, statusFilter: string) {
    MatchesSearch(b, searchTerm) && MatchesStatus(b, statusFilter)
  }

  /** `r` lists some of the elements of `s`, in the order `s` has them. */
  predicate SubsequenceOf(r: seq<Booking>, s: seq<Booking>)
    decreases |s|
  {
    if r == [] then true
    else if s == [] then false
    else if r[0] == s[0] then SubsequenceOf(r[1..], s[1..])
    else SubsequenceOf(r, s[1..])
  }

  /** `filteredBookings`: the bookings that match both the search and the status filter. */
  function FilterBookings(bookings: seq<Booking>, searchTerm: string, statusFilter: string): (r: seq<Booking>)
    ensures forall b :: b in r <==> b in bookings && Keep(b, searchTerm, statusFilter)
    ensures forall b :: multiset(r)[b] == if Keep(b, searchTerm, statusFilter) then multiset(bookings)[b] else 0
    ensures |r| <= |bookings|
  {
    if bookings == [] then []
    else
      var head, tail := bookings[0], bookings[1..];
      var rest := FilterBookings(tail, searchTerm, statusFilter);
      assert bookings == [head] + tail;
      assert multiset(bookings) == multiset{head} + multiset(tail);
      if Keep(head, searchTerm, statusFilter) then
        assert multiset([head] + rest) == multiset{head} + multiset(rest);
        [head] + rest
      else
        rest
  }

  /** The result keeps the page's order: it is a subsequence of the list filtered. */
  lemma {:induction false} FilterIsSubsequence(bookings: seq<Booking>, searchTerm: string, statusFilter: string)
    ensures SubsequenceOf(FilterBookings(bookings, searchTerm, statusFilter), bookings)
  {
    if bookings != [] {
      FilterIsSubsequence(bookings[1..], searchTerm, statusFilter);
      var rest := FilterBookings(bookings[1..], searchTerm, statusFilter);
      if !Keep(bookings[0], searchTerm, statusFilter) {
        SkipHead(rest, bookings);
      }
    }
  }

  /** A subsequence of the tail is a subsequence of the whole list. */
  lemma {:induction false} SkipHead(r: seq<Booking>, s: seq<Booking>)
    requires s != [] && SubsequenceOf(r, s[1..])
    ensures SubsequenceOf(r, s)
    decreases |s|, 1
  {
    if r != [] && r[0] == s[0] {
      DropFirst(r, s[1..]);
    }
  }

  /** Dropping the first element of a subsequence leaves a subsequence. */
  lemma {:induction false} DropFirst(r: seq<Booking>, t: seq<Booking>)
    requires r != [] && SubsequenceOf(r, t)
    ensures SubsequenceOf(r[1..], t)
    decreases |t|, 2
  {
    if r[0] != t[0] {
      DropFirst(r, t[1..]);
    }
    SkipHead(r[1..], t);
  }

  /** With an empty search term and the "all" filter every booking is shown, in order. */
  lemma {:induction false} EmptySearchShowsAll(bookings: seq<Booking>)
    ensures FilterBookings(bookings, "", "all") == bookings
  {
    if bookings != [] {
      EmptySearchShowsAll(bookings[1..]);
      IncludesEmpty(Lower(bookings[0].bookingReference));
      assert bookings == [bookings[0]] + bookings[1..];
    }
  }

  /** `term` occurs in `field` when both are lower-cased. */
  ghost predicate OccursIgnoringCase(field: string, term: string) {
    exists i: nat :: OccursAt(Lower(field), Lower(term), i)
  }

  /**
   * A booking matches the search exactly when the term occurs, ignoring
   * case, in its reference, origin, destination or airline.
   */
  lemma MatchesSearchIff(b: Booking, searchTerm: string)
    ensures MatchesSearch(b, searchTerm) <==>
      || OccursIgnoringCase(b.bookingReference, searchTerm)
      || OccursIgnoringCase(b.origin, searchTerm)
      || OccursIgnoringCase(b.destination, searchTerm)
      || OccursIgnoringCase(b.airline, searchTerm)
  {
    IncludesIffOccurs(Lower(b.bookingReference), Lower(searchTerm));
    IncludesIffOccurs(Lower(b.origin), Lower(searchTerm));
    IncludesIffOccurs(Lower(b.destination), Lower(searchTerm));
    IncludesIffOccurs(Lower(b.airline), Lower(searchTerm));
  }

  /** With an empty search term only the status filter decides, and the list's order is kept. */
  lemma EmptySearchFiltersByStatus(bookings: seq<Booking>, statusFilter: string)
    ensures var r := FilterBookings(bookings, "", statusFilter);
      && (forall b :: b in r <==> b in bookings && MatchesStatus(b, statusFilter))
      && SubsequenceOf(r, bookings)
  {
    forall b | b in bookings {
      IncludesEmpty(Lower(b.bookingReference));
    }
    FilterIsSubsequence(bookings, "", statusFilter);
  }

  const Green := "bg-green-100 text-green-800"
  const Red := "bg-red-100 text-red-800"
  const Gray := "bg-gray-100 text-gray-800"

  /** `getStatusColor`: green for confirmed, red for cancelled, gray for completed and for anything else. */
  function StatusColor(status: string): (colour: string)
    ensures colour == Green <==> status == "confirmed"
    ensures colour == Red <==> status == "cancelled"
    ensures colour == Gray <==> status != "confirmed" && status != "cancelled"
  {
    match status
    case "confirmed" => Green
    case "cancelled" => Red
    case "completed" => Gray
    case _ => Gray
  }
}
