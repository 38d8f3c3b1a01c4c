/**
 * The database as one object: the four tables, updated in place by the
 * ORM operations the views use (inserting a station, a train, a booking)
 * and by Route.save. Every write either succeeds whole or leaves the tables
 * as they were.
 */
module Database {
  import opened Results
  import opened Models

  /**
   * The row Route.save stores for a draft under key id, or the error it raises:
   * available_seats is taken from the train only for a new row given None,
   * clean() runs next, and then the database checks its column constraints.
   */
  function SavedRoute(stations: map<Id, Station>, trains: map<Id, Train>, routes: map<Id, Route>,
                      id: Id, d: RouteDraft): (r: Result<Route, Error>)
    ensures r.Ok? <==>
      && Clean(d.departure, d.arrival, d.source, d.destination) == Pass
      && d.train in trains && d.source in stations && d.destination in stations
      && (id in routes ==> d.availableSeats.Some?)
      && (d.availableSeats.Some? ==> d.availableSeats.value >= 0)
      && forall o :: o in routes && o != id ==>
           KeyOf(routes[o]) != RouteKey(d.train, d.source, d.destination, d.departure)
    ensures r.Ok? ==> Clean(d.departure, d.arrival, d.source, d.destination) == Pass
    ensures r.Ok? ==>
      && r.value.train == d.train && r.value.source == d.source && r.value.destination == d.destination
      && r.value.departure == d.departure && r.value.arrival == d.arrival
    ensures r.Ok? ==> r.value.train in trains && r.value.source in stations && r.value.destination in stations
    ensures r.Ok? ==> forall o :: o in routes && o != id ==> KeyOf(routes[o]) != KeyOf(r.value)
    ensures r.Ok? && d.availableSeats.Some? ==> r.value.availableSeats == d.availableSeats.value
    ensures r.Ok? && id in routes ==> d.availableSeats == Some(r.value.availableSeats as int)
    ensures r.Ok? && id !in routes && d.availableSeats.None? ==> r.value.availableSeats == trains[d.train].totalSeats
    ensures Clean(d.departure, d.arrival, d.source, d.destination).Fail? && (id in routes || d.availableSeats.Some? || d.train in trains) ==>
              r == Err(Clean(d.departure, d.arrival, d.source, d.destination).error)
  {
    var fill := id !in routes && d.availableSeats.None?;
    if fill && d.train !in trains then Err(NotFound)
    else
      var cleaned := Clean(d.departure, d.arrival, d.source, d.destination);
      if cleaned.Fail? then Err(cleaned.error)
      else
        var seats := if fill then Some(trains[d.train].totalSeats as int) else d.availableSeats;
        var key := RouteKey(d.train, d.source, d.destination, d.departure);
        if seats.None? || seats.value < 0 then Err(IntegrityError)
        else if d.train !in trains || d.source !in stations || d.destination !in stations then Err(IntegrityError)
        else if exists o :: o in routes && o != id && KeyOf(routes[o]) == key then Err(IntegrityError)
        else Ok(Route(d.train, d.source, d.destination, d.departure, d.arrival, seats.value))
  }

  /** Saving a stored, consistent route again with a non-negative counter passes clean and every constraint. */
  lemma ResaveStoredRoute(stations: map<Id, Station>, trains: map<Id, Train>, routes: map<Id, Route>,
                          bookings: seq<Booking>, id: Id, seats: nat)
    requires TablesConsistent(stations, trains, routes, bookings)
    requires id in routes
    ensures var r := routes[id];
      SavedRoute(stations, trains, routes, id, RouteDraft(r.train, r.source, r.destination, r.departure, r.arrival, Some(seats)))
        == Ok(r.(availableSeats := seats))
  {
    var r := routes[id];
    assert forall o :: o in routes && o != id ==> KeyOf(routes[o]) != KeyOf(r);
  }

  /** Storing the row save produces keeps every table constraint. */
  lemma SavedRouteKeepsTables(stations: map<Id, Station>, trains: map<Id, Train>, routes: map<Id, Route>,
                              bookings: seq<Booking>, id: Id, d: RouteDraft)
    requires TablesConsistent(stations, trains, routes, bookings)
    requires SavedRoute(stations, trains, routes, id, d).Ok?
    ensures TablesConsistent(stations, trains, routes[id := SavedRoute(stations, trains, routes, id, d).value], bookings)
  {
  }

  class Store {
    var stations: map<Id, Station>
    var trains: map<Id, Train>
    var routes: map<Id, Route>
    var bookings: seq<Booking>

    /** The constraints the database enforces on its own. */
    ghost predicate Consistent()
      reads this
    {
      TablesConsistent(stations, trains, routes, bookings)
    }

    /** The database constraints together with the seat invariants of the booking flow. */
    ghost predicate Valid()
      reads this
    {
      Invariant(stations, trains, routes, bookings)
    }

    constructor ()
      ensures Valid()
      ensures stations == map[] && trains == map[] && routes == map[] && bookings == []
    {
      stations, trains, routes, bookings := map[], map[], map[], [];
    }

    /** Creating a station: the name and the code must both be new. */
    method AddStation(id: Id, station: Station) returns (res: Outcome<Error>)
      requires Valid()
      requires id !in stations
      modifies this
      ensures Valid()
      ensures res.Pass? <==>
        forall o :: o in old(stations) ==> old(stations)[o].name != station.name && old(stations)[o].code != station.code
      ensures res.Fail? ==> res.error == DuplicateKey
      ensures stations == if res.Pass? then old(stations)[id := station] else old(stations)
      ensures trains == old(trains) && routes == old(routes) && bookings == old(bookings)
    {
      if exists o :: o in stations && (stations[o].name == station.name || stations[o].code == station.code) {
        return Fail(DuplicateKey);
      }
      stations := stations[id := station];
      res := Pass;
    }

    /** Creating a train: total_seats must not be negative and the train number must be new. */
    method AddTrain(id: Id, name: string, trainNumber: string, totalSeats: int) returns (res: Outcome<Error>)
      requires Valid()
      requires id !in trains
      modifies this
      ensures Valid()
      ensures res.Pass? <==>
        totalSeats >= 0 && forall o :: o in old(trains) ==> old(trains)[o].trainNumber != trainNumber
      ensures totalSeats < 0 ==> res == Fail(NegativeValue)
      ensures totalSeats >= 0 && res.Fail? ==> res.error == DuplicateKey
      ensures trains == if res.Pass? then old(trains)[id := Train(name, trainNumber, totalSeats)] else old(trains)
      ensures stations == old(stations) && routes == old(routes) && bookings == old(bookings)
    {
      if totalSeats < 0 {
        return Fail(NegativeValue);
      }
      if exists o :: o in trains && trains[o].trainNumber == trainNumber {
        return Fail(DuplicateKey);
      }
      var train := Train(name, trainNumber, totalSeats);
      assert forall rid :: Capacity(trains[id := train], routes, rid) == Capacity(trains, routes, rid);
      trains := trains[id := train];
      res := Pass;
    }

    /**
     * Route.save: fill available_seats from the train for a new row that has
     * none, run clean(), then persist; on any error nothing is written.
     */
    method SaveRoute(id: Id, d: RouteDraft) returns (res: Outcome<Error>)
      requires Consistent()
      modifies this
      ensures Consistent()
      ensures stations == old(stations) && trains == old(trains) && bookings == old(bookings)
      ensures var saved := SavedRoute(old(stations), old(trains), old(routes), id, d);
        && (res.Pass? <==> saved.Ok?)
        && (res.Fail? ==> res.error == saved.error && routes == old(routes))
        && (res.Pass? ==> routes == old(routes)[id := saved.value])
    {
      var seats := d.availableSeats;
      if id !in routes && seats.None? {
        if d.train !in trains {
          return Fail(NotFound);
        }
        seats := Some(trains[d.train].totalSeats);
      }
      var cleaned := Clean(d.departure, d.arrival, d.source, d.destination);
      if cleaned.Fail? {
        return cleaned;
      }
      if seats.None? || seats.value < 0
         || d.train !in trains || d.source !in stations || d.destination !in stations
         || exists o :: o in routes && o != id && KeyOf(routes[o]) == RouteKey(d.train, d.source, d.destination, d.departure)
      {
        return Fail(IntegrityError);
      }
      SavedRouteKeepsTables(stations, trains, routes, bookings, id, d);
      routes := routes[id := Route(d.train, d.source, d.destination, d.departure, d.arrival, seats.value)];
      res := Pass;
    }

    /** Booking.objects.create: the route must exist and (route, seat_number) must be new, whatever the status. */
    method InsertBooking(b: Booking) returns (res: Outcome<Error>)
      requires Consistent()
      requires forall i :: 0 <= i < |bookings| ==> bookings[i].id != b.id
      modifies this
      ensures Consistent()
      ensures res.Pass? <==>
        && b.route in old(routes)
        && forall i :: 0 <= i < |old(bookings)| && old(bookings)[i].route == b.route ==> old(bookings)[i].seatNumber != b.seatNumber
      ensures res.Fail? ==> res.error == IntegrityError
      ensures bookings == if res.Pass? then old(bookings) + [b] else old(bookings)
      ensures stations == old(stations) && trains == old(trains) && routes == old(routes)
    {
      if b.route !in routes
         || exists i :: 0 <= i < |bookings| && bookings[i].route == b.route && bookings[i].seatNumber == b.seatNumber
      {
        return Fail(IntegrityError);
      }
      bookings := bookings + [b];
      res := Pass;
    }
  }
}
