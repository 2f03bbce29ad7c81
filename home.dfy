/**
 * The search form of the home page (app/page.tsx): the `searchData` record
 * edited field by field, and the submission guard of `handleSearch`, which
 * navigates to the results page with all six fields as the query.
 */
module Home {
  import opened Js

  datatype SearchForm = SearchForm(
    origin: string,
    destination: string,
    departureDate: string,
    returnDate: string,
    passengers: string,
    tripType: string)

  datatype SearchField = Origin | Destination | DepartureDate | ReturnDate | Passengers | TripType

  /** The form as the page first shows it. */
  const InitialSearch := SearchForm("", "", "", "", "1", "round-trip")

  /** A value the passenger select can produce: `num.toString()` for `num` in 1..8. */
  predicate PassengerChoice(s: string) {
    exists n :: 1 <= n <= 8 && s == NumberToString(n)
  }

  /** A value one of the two trip-type radio buttons can produce. */
  predicate TripTypeChoice(s: string) {
    s == "round-trip" || s == "one-way"
  }

  /** The name the field has in the query string. */
  function Key(field: SearchField): string {
    match field
    case Origin => "origin"
    case Destination => "destination"
    case DepartureDate => "departureDate"
    case ReturnDate => "returnDate"
    case Passengers => "passengers"
    case TripType => "tripType"
  }

  function Get(form: SearchForm, field: SearchField): string {
    match field
    case Origin => form.origin
    case Destination => form.destination
    case DepartureDate => form.departureDate
    case ReturnDate => form.returnDate
    case Passengers => form.passengers
    case TripType => form.tripType
  }

  /** A copy of the form with one field replaced and the other five kept. */
  function With(form: SearchForm, field: SearchField, value: string): (r: SearchForm)
    ensures Get(r, field) == value
    ensures forall g :: g != field ==> Get(r, g) == Get(form, g)
  {
    match field
    case Origin => form.(origin := value)
    case Destination => form.(destination := value)
    case DepartureDate => form.(departureDate := value)
    case ReturnDate => form.(returnDate := value)
    case Passengers => form.(passengers := value)
    case TripType => form.(tripType := value)
  }

  /** `new URLSearchParams(searchData)`: every field under its own name. */
  function Query(form: SearchForm): map<string, string> {
    map[Key(Origin) := form.origin, Key(Destination) := form.destination,
        Key(DepartureDate) := form.departureDate, Key(ReturnDate) := form.returnDate,
        Key(Passengers) := form.passengers, Key(TripType) := form.tripType]
  }

  /**
   * `handleSearch`: the query to navigate with, or `None` when the page stays.
   * Only origin, destination and departure date are checked, so a round trip
   * without a return date is submitted; the query always carries all six
   * fields, the return date of a one-way trip included. The browser's own
   * check runs first; see `Submittable`.
   */
  function HandleSearch(form: SearchForm): (nav: Option<map<string, string>>)
    ensures nav.Some? <==> form.origin != "" && form.destination != "" && form.departureDate != ""
    ensures nav.Some? ==> nav.value.Keys == {"origin", "destination", "departureDate", "returnDate", "passengers", "tripType"}
    ensures nav.Some? ==> forall field :: nav.value[Key(field)] == Get(form, field)
  {
    if form.origin != "" && form.destination != "" && form.departureDate != "" then Some(Query(form)) else None
  }

  // ---------------------------------------------------------------------
  // The browser's check before `handleSearch` runs

  /**
   * A date input's `min` check. Date inputs hold "YYYY-MM-DD" strings, and
   * the lexicographic order `LocaleCompare` computes on them is the order of
   * the dates they name.
   */
  predicate OnOrAfter(date: string, min: string) {
    LocaleCompare(min, date) <= 0
  }

  /**
   * The form does not set `noValidate`, so the browser fires its submit
   * handler only when origin, destination and departure date, all
   * `required`, are filled in, the departure is not before `today` (the
   * clock's UTC date), and, for a round trip, a return date that is given is
   * not before the departure date, or `today` while there is none. The
   * return input is not rendered for a one-way trip and is not checked then.
   */
  predicate Submittable(form: SearchForm, today: string) {
    && form.origin != "" && form.destination != "" && form.departureDate != ""
    && OnOrAfter(form.departureDate, today)
    && (form.tripType == "round-trip" && form.returnDate != "" ==>
          OnOrAfter(form.returnDate, if form.departureDate != "" then form.departureDate else today))
  }

  /**
   * A form the browser lets through always navigates, so the guard of
   * `handleSearch` never stops it; a round trip's return date is then
   * neither before the departure nor before today.
   */
  lemma SubmittedSearch(form: SearchForm, today: string)
    requires Submittable(form, today)
    ensures HandleSearch(form).Some?
    ensures form.tripType == "round-trip" && form.returnDate != "" ==>
              OnOrAfter(form.returnDate, form.departureDate) && OnOrAfter(form.returnDate, today)
  {
    if form.tripType == "round-trip" && form.returnDate != "" {
      LocaleCompareTransitive(today, form.departureDate, form.returnDate);
    }
  }

  class HomePage {
    var searchData: SearchForm

    /** Every field the selects and radio buttons control holds a value they offer. */
    ghost predicate Valid()
      reads this
    {
      PassengerChoice(searchData.passengers) && TripTypeChoice(searchData.tripType)
    }

    constructor()
      ensures Valid()
      ensures searchData == InitialSearch
    {
      searchData := InitialSearch;
      assert NumberToString(1) == "1";
    }

    /** One of the inputs' change handlers: the form replaced by a copy with that field changed. */
    method Edit(field: SearchField, value: string)
      requires Valid()
      requires field == Passengers ==> PassengerChoice(value)
      requires field == TripType ==> TripTypeChoice(value)
      modifies this
      ensures Valid()
      ensures searchData == With(old(searchData), field, value)
    {
      searchData := With(searchData, field, value);
    }
  }
}
