/**
 * The pure mapping parts of the REST client (lib/api.ts): the query-name
 * translation of `getFlights` and the snake_case to camelCase translation
 * of the profile returned by `updateUserProfile`. The HTTP calls themselves
 * are not modelled.
 *
 * A JSON object whose fields are strings is a `map<string, string>`; a key
 * that is absent reads as `undefined`.
 */
module Api {
  import opened Js

  type Record = map<string, string>

  /**
   * The query parameters `getFlights` sends: `origin`, `destination` and
   * `departureDate` under the backend's names (a parameter whose value is
   * undefined is not sent).
   */
  function FlightQuery(params: Record): (q: Record)
    ensures q.Keys <= {"departure_city", "arrival_city", "departure_time"}
    ensures Field(q, "departure_city") == Field(params, "origin")
    ensures Field(q, "arrival_city") == Field(params, "destination")
    ensures Field(q, "departure_time") == Field(params, "departureDate")
  {
    var q0: Record := map[];
    Put(Put(Put(q0, "departure_city", Field(params, "origin")),
      "arrival_city", Field(params, "destination")),
      "departure_time", Field(params, "departureDate"))
  }

  /** Nothing but the three search fields reaches the query: passengers, dates of return and the like are dropped. */
  lemma FlightQueryOnlySearchFields(a: Record, b: Record)
    requires Field(a, "origin") == Field(b, "origin")
    requires Field(a, "destination") == Field(b, "destination")
    requires Field(a, "departureDate") == Field(b, "departureDate")
    ensures FlightQuery(a) == FlightQuery(b)
  {
    var qa, qb := FlightQuery(a), FlightQuery(b);
    forall k ensures Field(qa, k) == Field(qb, k) {
      if k !in {"departure_city", "arrival_city", "departure_time"} {
        assert k !in qa && k !in qb;
      }
    }
    assert qa.Keys == qb.Keys;
  }

  /** Sets key `k` to `v` when `v` is defined, and leaves `k` out when it is undefined. */
  function Put(r: Record, k: string, v: Option<string>): Record {
    if v.Some? then r[k := v.value] else r - {k}
  }

  /**
   * The user built from the service's answer: a copy of the answer with
   * `firstName` and `lastName` set from `first_name` and `last_name`.
   * Every other field, the snake_case ones included, is kept as it was;
   * `firstName` and `lastName` are taken from the snake_case fields even when
   * the response already had camelCase ones (and are undefined when the
   * snake_case field is missing).
   */
  function MapUser(response: Record): (user: Record)
    ensures Field(user, "firstName") == Field(response, "first_name")
    ensures Field(user, "lastName") == Field(response, "last_name")
    ensures forall k :: k != "firstName" && k != "lastName" ==> Field(user, k) == Field(response, k)
  {
    Put(Put(response, "firstName", Field(response, "first_name")), "lastName", Field(response, "last_name"))
  }
}
