/**
 * The results page (app/search/page.tsx): reading the search from the
 * query, the guarded fetch that fills `flights`, the client-side sort of a
 * copy of the list, and the record handed to the booking page.
 *
 * `Array.prototype.sort` is stable, so for a consistent comparator its
 * result is the stable sorted permutation of the list; `SortFlights` computes
 * that permutation by insertion.
 */
module Search {
  import opened Js

  datatype Endpoint = Endpoint(time: string, airport: string, city: string)

  datatype Flight = Flight(
    id: string,
    airline: string,
    flightNumber: string,
    departure: Endpoint,
    arrival: Endpoint,
    duration: string,
    price: nat,
    stops: nat,
    aircraft: string)

  datatype SearchData = SearchData(origin: string, destination: string, departureDate: string, passengers: string)

  /**
   * `searchParams.get(k) || default` for each field of the search: a
   * missing origin, destination or date reads as "", which is what an empty
   * one already is, and the passenger count falls back to "1".
   */
  function SearchDataFrom(query: map<string, string>): (sd: SearchData)
    ensures sd.origin == (if "origin" in query then query["origin"] else "")
    ensures sd.destination == (if "destination" in query then query["destination"] else "")
    ensures sd.departureDate == (if "departureDate" in query then query["departureDate"] else "")
    ensures Truthy(Field(query, "passengers")) ==> sd.passengers == query["passengers"]
    ensures !Truthy(Field(query, "passengers")) ==> sd.passengers == "1"
    ensures sd.passengers != ""
  {
    SearchData(
      OrElse(Field(query, "origin"), ""),
      OrElse(Field(query, "destination"), ""),
      OrElse(Field(query, "departureDate"), ""),
      OrElse(Field(query, "passengers"), "1"))
  }

  /** The fetch is issued only for a search with all three fields filled in. */
  predicate Complete(sd: SearchData) {
    sd.origin != "" && sd.destination != "" && sd.departureDate != ""
  }

  // ---------------------------------------------------------------------
  // Sorting

  /** The cases of the comparator's `switch (sortBy)`. */
  datatype SortKey = ByPrice | ByDuration | ByDeparture | Unrecognised

  function KeyOf(sortBy: string): SortKey {
    if sortBy == "price" then ByPrice
    else if sortBy == "duration" then ByDuration
    else if sortBy == "departure" then ByDeparture
    else Unrecognised
  }

  /**
   * The comparator passed to `sort`: negative when `a` goes before `b`.
   * By price it follows the numeric order of prices; by duration and by
   * departure it is zero exactly for equal strings; any other key ties.
   */
  function Compare(key: SortKey, a: Flight, b: Flight): (c: int)
    ensures key == ByPrice ==> (c < 0 <==> a.price < b.price) && (c == 0 <==> a.price == b.price)
    ensures key == ByDuration ==> (c == 0 <==> a.duration == b.duration)
    ensures key == ByDeparture ==> (c == 0 <==> a.departure.time == b.departure.time)
    ensures key == Unrecognised ==> c == 0
  {
    LocaleCompareAntisymmetric(a.duration, b.duration);
    LocaleCompareAntisymmetric(a.departure.time, b.departure.time);
    match key
    case ByPrice => a.price - b.price
    case ByDuration => LocaleCompare(a.duration, b.duration)
    case ByDeparture => LocaleCompare(a.departure.time, b.departure.time)
    case Unrecognised => 0
  }

  lemma CompareFlip(key: SortKey, a: Flight, b: Flight)
    ensures Compare(key, a, b) == -Compare(key, b, a)
  {
    LocaleCompareAntisymmetric(a.duration, b.duration);
    LocaleCompareAntisymmetric(a.departure.time, b.departure.time);
  }

  lemma CompareTransitive(key: SortKey, a: Flight, b: Flight, c: Flight)
    requires Compare(key, a, b) <= 0 && Compare(key, b, c) <= 0
    ensures Compare(key, a, c) <= 0
  {
    if key == ByDuration {
      LocaleCompareTransitive(a.duration, b.duration, c.duration);
    } else if key == ByDeparture {
      LocaleCompareTransitive(a.departure.time, b.departure.time, c.departure.time);
    }
  }

  /** Consecutive flights are in comparator order. */
  predicate Ordered(key: SortKey, s: seq<Flight>) {
    forall i :: 0 <= i < |s| - 1 ==> Compare(key, s[i], s[i + 1]) <= 0
  }

  /** Places `x` after every flight that does not compare after it. */
  function Insert(key: SortKey, x: Flight, s: seq<Flight>): (r: seq<Flight>)
    ensures multiset(r) == multiset(s) + multiset{x}
    ensures r != [] && (r[0] == x || (s != [] && r[0] == s[0]))
  {
    if s == [] then [x]
    else if Compare(key, x, s[0]) < 0 then [x] + s
    else
      assert s == [s[0]] + s[1..];
      [s[0]] + Insert(key, x, s[1..])
  }

  lemma {:induction false} InsertOrdered(key: SortKey, x: Flight, s: seq<Flight>)
    requires Ordered(key, s)
    ensures Ordered(key, Insert(key, x, s))
  {
    if s != [] && Compare(key, x, s[0]) >= 0 {
      InsertOrdered(key, x, s[1..]);
      CompareFlip(key, x, s[0]);
      var r := Insert(key, x, s);
      assert r == [s[0]] + Insert(key, x, s[1..]);
    }
  }

  /**
   * `[...flights].sort(comparator)`: a new list holding the same flights,
   * each in comparator order with its neighbour; the argument is a value and
   * is left as it was.
   */
  function SortFlights(key: SortKey, flights: seq<Flight>): (r: seq<Flight>)
    ensures multiset(r) == multiset(flights)
    ensures Ordered(key, r)
  {
    if flights == [] then []
    else
      var rest := SortFlights(key, flights[..|flights| - 1]);
      InsertOrdered(key, flights[|flights| - 1], rest);
      assert flights == flights[..|flights| - 1] + [flights[|flights| - 1]];
      Insert(key, flights[|flights| - 1], rest)
  }

  /** Order between neighbours extends to every pair. */
  lemma {:induction false} OrderedPairwise(key: SortKey, s: seq<Flight>, i: nat, j: nat)
    requires Ordered(key, s)
    requires i <= j < |s|
    ensures Compare(key, s[i], s[j]) <= 0
    decreases j - i
  {
    if i == j {
      CompareFlip(key, s[i], s[j]);
    } else {
      OrderedPairwise(key, s, i + 1, j);
      CompareTransitive(key, s[i], s[i + 1], s[j]);
    }
  }

  /** Sorting by "price" lists the flights by non-decreasing price. */
  lemma SortByPrice(flights: seq<Flight>)
    ensures var r := SortFlights(ByPrice, flights);
      multiset(r) == multiset(flights) &&
      forall i, j :: 0 <= i <= j < |r| ==> r[i].price <= r[j].price
  {
    var r := SortFlights(ByPrice, flights);
    forall i, j | 0 <= i <= j < |r| ensures r[i].price <= r[j].price {
      OrderedPairwise(ByPrice, r, i, j);
    }
  }

  /** Sorting by "duration" lists the flights by their duration labels, in string order. */
  lemma SortByDuration(flights: seq<Flight>)
    ensures var r := SortFlights(ByDuration, flights);
      multiset(r) == multiset(flights) &&
      forall i, j :: 0 <= i <= j < |r| ==> LocaleCompare(r[i].duration, r[j].duration) <= 0
  {
    var r := SortFlights(ByDuration, flights);
    forall i, j | 0 <= i <= j < |r| ensures LocaleCompare(r[i].duration, r[j].duration) <= 0 {
      OrderedPairwise(ByDuration, r, i, j);
    }
  }

  /** Sorting by "departure" lists the flights by departure time, in string order. */
  lemma SortByDeparture(flights: seq<Flight>)
    ensures var r := SortFlights(ByDeparture, flights);
      multiset(r) == multiset(flights) &&
      forall i, j :: 0 <= i <= j < |r| ==> LocaleCompare(r[i].departure.time, r[j].departure.time) <= 0
  {
    var r := SortFlights(ByDeparture, flights);
    forall i, j | 0 <= i <= j < |r| ensures LocaleCompare(r[i].departure.time, r[j].departure.time) <= 0 {
      OrderedPairwise(ByDeparture, r, i, j);
    }
  }

  /** Any other key compares every pair as equal, so the fetched order is kept. */
  lemma {:induction false} SortByUnknownKey(key: SortKey, flights: seq<Flight>)
    requires key == Unrecognised
    ensures SortFlights(key, flights) == flights
  {
    if flights != [] {
      var init, last := flights[..|flights| - 1], flights[|flights| - 1];
      SortLast(key, flights);
      SortByUnknownKey(key, init);
      InsertLast(key, last, init);
      assert flights == init + [last];
    }
  }

  /** One step of the insertion sort: the last flight inserted into the sorted rest. */
  lemma SortLast(key: SortKey, flights: seq<Flight>)
    requires flights != []
    ensures SortFlights(key, flights) == Insert(key, flights[|flights| - 1], SortFlights(key, flights[..|flights| - 1]))
  {
  }

  lemma {:induction false} InsertLast(key: SortKey, x: Flight, s: seq<Flight>)
    requires key == Unrecognised
    ensures Insert(key, x, s) == s + [x]
  {
    if s != [] {
      UnknownKeyInsertStep(key, x, s);
      InsertLast(key, x, s[1..]);
      assert [s[0]] + (s[1..] + [x]) == s + [x];
    }
  }

  /** Under an unrecognised key `x` is never placed before the head. */
  lemma UnknownKeyInsertStep(key: SortKey, x: Flight, s: seq<Flight>)
    requires key == Unrecognised && s != []
    ensures Insert(key, x, s) == [s[0]] + Insert(key, x, s[1..])
  {
    assert Compare(key, x, s[0]) == 0;
  }

  // ---------------------------------------------------------------------
  // Stability

  /** The flights of `fs` that `keep` accepts, in the order `fs` has them. */
  function Select(keep: Flight -> bool, fs: seq<Flight>): seq<Flight> {
    if fs == [] then []
    else (if keep(fs[0]) then [fs[0]] else []) + Select(keep, fs[1..])
  }

  lemma {:induction false} SelectAppend(keep: Flight -> bool, a: seq<Flight>, b: seq<Flight>)
    ensures Select(keep, a + b) == Select(keep, a) + Select(keep, b)
  {
    if a == [] {
      assert a + b == b;
    } else {
      var head := if keep(a[0]) then [a[0]] else [];
      var ab := a + b;
      assert ab[0] == a[0] && ab[1..] == a[1..] + b;
      SelectAppend(keep, a[1..], b);
      calc {
        Select(keep, ab);
        head + Select(keep, ab[1..]);
        head + (Select(keep, a[1..]) + Select(keep, b));
        (head + Select(keep, a[1..])) + Select(keep, b);
        Select(keep, a) + Select(keep, b);
      }
    }
  }

  /** Whether a flight compares equal to `x`. */
  function TieOf(key: SortKey, x: Flight): Flight -> bool {
    y => Compare(key, y, x) == 0
  }

  /** The flights of `fs` that compare equal to `x`, in the order `fs` has them. */
  function Ties(key: SortKey, x: Flight, fs: seq<Flight>): seq<Flight> {
    Select(TieOf(key, x), fs)
  }

  lemma TiesAppend(key: SortKey, x: Flight, a: seq<Flight>, b: seq<Flight>)
    ensures Ties(key, x, a + b) == Ties(key, x, a) + Ties(key, x, b)
  {
    SelectAppend(TieOf(key, x), a, b);
  }

  lemma TiesSingle(key: SortKey, x: Flight, z: Flight)
    ensures Ties(key, x, [z]) == if Compare(key, z, x) == 0 then [z] else []
  {
    assert [z][1..] == [];
    assert Select(TieOf(key, x), [z]) == (if TieOf(key, x)(z) then [z] else []) + [];
  }

  /** One step of `Insert`: before the head, or the head followed by the insertion into the tail. */
  lemma InsertStep(key: SortKey, z: Flight, s: seq<Flight>)
    requires s != []
    ensures Compare(key, z, s[0]) < 0 ==> Insert(key, z, s) == [z] + s
    ensures Compare(key, z, s[0]) >= 0 ==> Insert(key, z, s) == [s[0]] + Insert(key, z, s[1..])
  {
  }

  /** A flight before `b` is before everything `b` is not after. */
  lemma StrictThenWeak(key: SortKey, a: Flight, b: Flight, c: Flight)
    requires Compare(key, a, b) < 0 && Compare(key, b, c) <= 0
    ensures Compare(key, a, c) < 0
  {
    if Compare(key, a, c) >= 0 {
      CompareFlip(key, a, c);
      CompareTransitive(key, b, c, a);
      CompareFlip(key, a, b);
      assert false;
    }
  }

  /** In an ordered list whose head comes after `z`, every flight comes after `z`. */
  lemma AfterHead(key: SortKey, z: Flight, s: seq<Flight>)
    requires Ordered(key, s) && s != [] && Compare(key, z, s[0]) < 0
    ensures forall i :: 0 <= i < |s| ==> Compare(key, z, s[i]) < 0
  {
    forall i | 0 <= i < |s|
      ensures Compare(key, z, s[i]) < 0
    {
      OrderedPairwise(key, s, 0, i);
      StrictThenWeak(key, z, s[0], s[i]);
    }
  }

  /** Flights that all come after a tie of `x` are not ties of `x`. */
  lemma {:induction false} NoTieAfter(key: SortKey, x: Flight, z: Flight, s: seq<Flight>)
    requires Compare(key, z, x) == 0
    requires forall i :: 0 <= i < |s| ==> Compare(key, z, s[i]) < 0
    ensures Ties(key, x, s) == []
  {
    if s != [] {
      NoTieAfter(key, x, z, s[1..]);
      CompareFlip(key, z, x);
      if Compare(key, s[0], x) == 0 {
        CompareTransitive(key, s[0], x, z);
        CompareFlip(key, s[0], z);
        assert false;
      }
    }
  }

  /** Inserting `z` into an ordered list puts it after every flight it ties with. */
  lemma {:induction false} TiesOfInsert(key: SortKey, x: Flight, z: Flight, s: seq<Flight>)
    requires Ordered(key, s)
    ensures Ties(key, x, Insert(key, z, s)) == Ties(key, x, s) + Ties(key, x, [z])
  {
    if s == [] {
      TiesSingle(key, x, z);
      assert Insert(key, z, s) == [z];
    } else if Compare(key, z, s[0]) < 0 {
      TiesBeforeHead(key, x, z, s);
    } else {
      assert Ordered(key, s[1..]);
      TiesOfInsert(key, x, z, s[1..]);
      InsertStep(key, z, s);
      TiesAfterHead(key, x, z, s, Insert(key, z, s), Insert(key, z, s[1..]));
    }
  }

  /** `z` inserted before the head of an ordered list: no tie of `z` follows it. */
  lemma TiesBeforeHead(key: SortKey, x: Flight, z: Flight, s: seq<Flight>)
    requires Ordered(key, s) && s != [] && Compare(key, z, s[0]) < 0
    ensures Ties(key, x, Insert(key, z, s)) == Ties(key, x, s) + Ties(key, x, [z])
  {
    InsertStep(key, z, s);
    TiesAppend(key, x, [z], s);
    TiesSingle(key, x, z);
    if Compare(key, z, x) == 0 {
      AfterHead(key, z, s);
      NoTieAfter(key, x, z, s);
    }
  }

  /** `z` inserted past the head: the head's tie, if any, stays in front. */
  lemma TiesAfterHead(key: SortKey, x: Flight, z: Flight, s: seq<Flight>, inserted: seq<Flight>, insertedTail: seq<Flight>)
    requires s != [] && inserted == [s[0]] + insertedTail
    requires Ties(key, x, insertedTail) == Ties(key, x, s[1..]) + Ties(key, x, [z])
    ensures Ties(key, x, inserted) == Ties(key, x, s) + Ties(key, x, [z])
  {
    TiesPrepend(key, x, s[0], insertedTail, s[1..], Ties(key, x, [z]));
    assert [s[0]] + s[1..] == s;
  }

  lemma TiesPrepend(key: SortKey, x: Flight, h: Flight, r: seq<Flight>, t: seq<Flight>, extra: seq<Flight>)
    requires Ties(key, x, r) == Ties(key, x, t) + extra
    ensures Ties(key, x, [h] + r) == Ties(key, x, [h] + t) + extra
  {
    TiesAppend(key, x, [h], r);
    TiesAppend(key, x, [h], t);
  }

  /**
   * The sort is stable: for every flight `x`, the flights that compare equal
   * to it (the same price, the same duration, the same departure time) come
   * out in the order they were fetched.
   */
  lemma {:induction false} SortStable(key: SortKey, x: Flight, flights: seq<Flight>)
    ensures Ties(key, x, SortFlights(key, flights)) == Ties(key, x, flights)
  {
    if flights != [] {
      var init, last := flights[..|flights| - 1], flights[|flights| - 1];
      SortStable(key, x, init);
      SortStableStep(key, x, flights, init, last);
    }
  }

  /** Inserting the last flight keeps the ties of the sorted rest in front of it. */
  lemma SortStableStep(key: SortKey, x: Flight, flights: seq<Flight>, init: seq<Flight>, last: Flight)
    requires flights != [] && init == flights[..|flights| - 1] && last == flights[|flights| - 1]
    requires Ties(key, x, SortFlights(key, init)) == Ties(key, x, init)
    ensures Ties(key, x, SortFlights(key, flights)) == Ties(key, x, flights)
  {
    var sorted := SortFlights(key, init);
    SortLast(key, flights);
    TiesOfInsert(key, x, last, sorted);
    TiesExtend(key, x, SortFlights(key, flights), sorted, flights, init, last);
  }

  lemma TiesExtend(key: SortKey, x: Flight, inserted: seq<Flight>, sorted: seq<Flight>, flights: seq<Flight>, init: seq<Flight>, last: Flight)
    requires flights != [] && init == flights[..|flights| - 1] && last == flights[|flights| - 1]
    requires Ties(key, x, sorted) == Ties(key, x, init)
    requires Ties(key, x, inserted) == Ties(key, x, sorted) + Ties(key, x, [last])
    ensures Ties(key, x, inserted) == Ties(key, x, flights)
  {
    TiesAppend(key, x, init, [last]);
    assert flights == init + [last];
  }

  // ---------------------------------------------------------------------
  // Hand-off to the booking page

  /**
   * `handleBookFlight`: the search fields followed by the chosen flight's
   * fields, all as strings; `stringify` stands for `JSON.stringify` on an
   * endpoint.
   */
  function BookFlight(sd: SearchData, flight: Flight, stringify: Endpoint -> string): (q: map<string, string>)
    ensures q.Keys == {"origin", "destination", "departureDate", "passengers", "flightId", "airline",
                       "flightNumber", "price", "departure", "arrival", "duration"}
    ensures q["origin"] == sd.origin && q["destination"] == sd.destination
    ensures q["departureDate"] == sd.departureDate && q["passengers"] == sd.passengers
    ensures q["flightId"] == flight.id && q["airline"] == flight.airline
    ensures q["flightNumber"] == flight.flightNumber && q["duration"] == flight.duration
    ensures IsNumeral(q["price"]) && ParseInt(q["price"]) == flight.price
    ensures q["departure"] == stringify(flight.departure) && q["arrival"] == stringify(flight.arrival)
  {
    ParseIntOfToString(flight.price);
    map["origin" := sd.origin, "destination" := sd.destination,
        "departureDate" := sd.departureDate, "passengers" := sd.passengers,
        "flightId" := flight.id, "airline" := flight.airline,
        "flightNumber" := flight.flightNumber, "price" := NumberToString(flight.price),
        "departure" := stringify(flight.departure), "arrival" := stringify(flight.arrival),
        "duration" := flight.duration]
  }

  // ---------------------------------------------------------------------
  // Page state

  /** What `apiClient.getFlights` did: returned a list, or threw. */
  datatype FetchOutcome = Fetched(data: seq<Flight>) | FetchFailed

  class SearchPage {
    const searchData: SearchData
    var flights: seq<Flight>
    var sortBy: string
    var loading: bool

    constructor(query: map<string, string>)
      ensures searchData == SearchDataFrom(query)
      ensures flights == [] && sortBy == "price" && loading
    {
      searchData := SearchDataFrom(query);
      flights := [];
      sortBy := "price";
      loading := true;
    }

    /**
     * One run of the fetch effect. Returns the search sent to the flight
     * service, or `None` when the search is incomplete and nothing is sent.
     */
    method FetchFlights(outcome: FetchOutcome) returns (sent: Option<SearchData>)
      modifies this`flights, this`loading
      ensures sent.Some? <==> Complete(searchData)
      ensures sent.Some? ==> sent.value == searchData
      ensures !Complete(searchData) ==> flights == old(flights)
      ensures Complete(searchData) && outcome.Fetched? ==> flights == outcome.data
      ensures Complete(searchData) && outcome.FetchFailed? ==> flights == []
      ensures !loading
    {
      if Complete(searchData) {
        loading := true;
        sent := Some(searchData);
        match outcome {
          case Fetched(data) => flights := data;
          case FetchFailed => flights := [];
        }
        loading := false;
      } else {
        sent := None;
        loading := false;
      }
    }

    /** The sort select's `onValueChange`. */
    method SetSortBy(value: string)
      modifies this`sortBy
      ensures sortBy == value
    {
      sortBy := value;
    }

    /** `sortedFlights`, recomputed from the current state on every render. */
    function SortedFlights(): (r: seq<Flight>)
      reads this
      ensures multiset(r) == multiset(flights)
      ensures Ordered(KeyOf(sortBy), r)
    {
      SortFlights(KeyOf(sortBy), flights)
    }
  }
}
