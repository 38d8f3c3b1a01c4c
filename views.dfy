/**
 * The user-facing and admin views of the railway app: route creation, the
 * availability search, the booking flow and the owner-scoped booking lookups.
 * A request is one atomic call on the store; the requesting user is an id.
 */
module Views {
  import opened Results
  import opened Models
  import opened Database
  import Ledger

  // ---- Route creation -----------------------------------------------------

  /**
   * RouteView.post: the serializer checks that train, source and destination
   * exist and that (train, source, destination, departure_time) is new; the
   * view then sets available_seats to the train's total_seats and saves.
   */
  method CreateRoute(store: Store, id: Id, train: Id, source: Id, destination: Id,
                     departure: Timestamp, arrival: Timestamp) returns (res: Outcome<Error>)
    requires store.Valid()
    requires id !in store.routes
    modifies store
    ensures store.Valid()
    ensures store.stations == old(store.stations) && store.trains == old(store.trains)
    ensures store.bookings == old(store.bookings)
    ensures train !in old(store.trains) || source !in old(store.stations) || destination !in old(store.stations) ==>
              res == Fail(NotFound)
    ensures res.Pass? <==>
      && train in old(store.trains) && source in old(store.stations) && destination in old(store.stations)
      && (forall o :: o in old(store.routes) ==> KeyOf(old(store.routes)[o]) != RouteKey(train, source, destination, departure))
      && departure < arrival && source != destination
    ensures res.Fail? ==> store.routes == old(store.routes)
    ensures res.Pass? ==>
      && store.routes == old(store.routes)[id := Route(train, source, destination, departure, arrival, old(store.trains)[train].totalSeats)]
      && Count(store.bookings, id) == 0
  {
    if train !in store.trains || source !in store.stations || destination !in store.stations {
      return Fail(NotFound);
    }
    if exists o :: o in store.routes && KeyOf(store.routes[o]) == RouteKey(train, source, destination, departure) {
      return Fail(DuplicateKey);
    }
    ghost var stations, trains, routes, bookings := store.stations, store.trains, store.routes, store.bookings;
    var total := store.trains[train].totalSeats;
    res := store.SaveRoute(id, RouteDraft(train, source, destination, departure, arrival, Some(total)));
    if res.Pass? {
      Ledger.NewRouteKeepsInvariant(stations, trains, routes, bookings, id, store.routes[id]);
    }
  }

  // ---- Availability search ------------------------------------------------

  /**
   * TrainAvailabilityView.get: both query parameters are required (a missing
   * or empty one is None); the answer is every route between the two stations
   * that still has a seat.
   */
  function Availability(routes: map<Id, Route>, source: Option<Id>, destination: Option<Id>): (r: Result<map<Id, Route>, Error>)
    ensures r.Err? <==> source.None? || destination.None?
    ensures r.Err? ==> r.error == MissingParameter
    ensures r.Ok? ==> forall id :: id in r.value <==>
      id in routes && routes[id].source == source.value && routes[id].destination == destination.value
      && routes[id].availableSeats > 0
    ensures r.Ok? ==> forall id :: id in r.value ==> r.value[id] == routes[id]
  {
    if source.None? || destination.None? then Err(MissingParameter)
    else Ok(map id | id in routes && routes[id].source == source.value && routes[id].destination == destination.value
                     && routes[id].availableSeats > 0 :: routes[id])
  }

  /** Under the store invariant, every route the search returns has a free seat number to hand out. */
  lemma AvailableRoutesHaveFreeSeat(stations: map<Id, Station>, trains: map<Id, Train>, routes: map<Id, Route>,
                                    bookings: seq<Booking>, source: Id, destination: Id, rid: Id)
    requires Invariant(stations, trains, routes, bookings)
    requires var found := Availability(routes, Some(source), Some(destination)); found.Ok? && rid in found.value
    ensures exists s :: 1 <= s <= Capacity(trains, routes, rid) && s !in ConfirmedSeats(bookings, rid)
  {
    Ledger.FreeSeatWhileCounterPositive(stations, trains, routes, bookings, rid);
  }

  // ---- Seat allocation ----------------------------------------------------

  /** The scan of BookSeatView.post: the lowest number in 1..total that is not booked. */
  method FirstFreeSeat(booked: set<nat>, total: nat) returns (seat: Option<nat>)
    ensures seat.Some? ==> IsLeastFree(booked, total, seat.value)
    ensures seat.None? ==> forall i :: 1 <= i <= total ==> i in booked
  {
    seat := None;
    for i := 1 to total + 1
      invariant forall j :: 1 <= j < i ==> j in booked
    {
      if i !in booked {
        seat := Some(i);
        break;
      }
    }
  }

  /**
   * The writes of the booking flow: insert the CONFIRMED booking, then
   * decrement the route's counter and save the route. Neither write can fail
   * here: the seat is held by no booking of the route, and the route was
   * stored clean.
   */
  method RecordBooking(store: Store, booking: Booking)
    requires store.Valid()
    requires booking.route in store.routes && store.routes[booking.route].availableSeats > 0
    requires booking.status == Confirmed
    requires 1 <= booking.seatNumber <= Capacity(store.trains, store.routes, booking.route)
    requires booking.seatNumber !in ConfirmedSeats(store.bookings, booking.route)
    requires forall i :: 0 <= i < |store.bookings| ==> store.bookings[i].id != booking.id
    modifies store
    ensures store.Valid()
    ensures store.stations == old(store.stations) && store.trains == old(store.trains)
    ensures store.bookings == old(store.bookings) + [booking]
    ensures store.routes == Ledger.Decremented(old(store.routes), booking.route)
  {
    ghost var stations, trains, routes, bookings := store.stations, store.trains, store.routes, store.bookings;
    var route := store.routes[booking.route];
    Ledger.FreeSeatHeldByNoBooking(store.bookings, booking.route, booking.seatNumber);
    var inserted := store.InsertBooking(booking);
    assert inserted.Pass?;
    ResaveStoredRoute(store.stations, store.trains, store.routes, store.bookings, booking.route, route.availableSeats - 1);
    var saved := store.SaveRoute(booking.route, RouteDraft(route.train, route.source, route.destination,
                                                           route.departure, route.arrival, Some(route.availableSeats - 1)));
    assert saved.Pass?;
    Ledger.BookingKeepsInvariant(stations, trains, routes, bookings, booking);
  }

  /**
   * BookSeatView.post, one atomic call: look up the route, refuse when its
   * counter is not positive, take the lowest seat number no CONFIRMED booking
   * on the route holds, insert a CONFIRMED booking for it and decrement the
   * counter. The booking id and the creation time are supplied by the caller.
   */
  method BookSeat(store: Store, user: Id, routeId: Id, bookingId: BookingId, now: Timestamp)
    returns (res: Result<Booking, Error>)
    requires store.Valid()
    requires forall i :: 0 <= i < |store.bookings| ==> store.bookings[i].id != bookingId
    modifies store
    ensures store.Valid()
    ensures store.stations == old(store.stations) && store.trains == old(store.trains)
    ensures res.Err? ==> store.routes == old(store.routes) && store.bookings == old(store.bookings)
    ensures res.Err? ==> res.error in {NotFound, NoSeatsAvailable, NoFreeSeat}
    ensures res == Err(NotFound) <==> routeId !in old(store.routes)
    ensures res == Err(NoSeatsAvailable) <==> routeId in old(store.routes) && old(store.routes)[routeId].availableSeats == 0
    ensures res == Err(NoFreeSeat) ==>
      && routeId in old(store.routes)
      && forall s :: 1 <= s <= Capacity(old(store.trains), old(store.routes), routeId) ==>
           s in ConfirmedSeats(old(store.bookings), routeId)
    ensures res.Ok? ==>
      && routeId in old(store.routes) && old(store.routes)[routeId].availableSeats > 0
      && res.value == Booking(bookingId, user, routeId, now, res.value.seatNumber, Confirmed)
      && IsLeastFree(ConfirmedSeats(old(store.bookings), routeId),
                     Capacity(old(store.trains), old(store.routes), routeId), res.value.seatNumber)
      && store.bookings == old(store.bookings) + [res.value]
      && store.routes == Ledger.Decremented(old(store.routes), routeId)
  {
    if routeId !in store.routes {
      return Err(NotFound);
    }
    var route := store.routes[routeId];
    if route.availableSeats <= 0 {
      return Err(NoSeatsAvailable);
    }
    var booked := ConfirmedSeats(store.bookings, routeId);
    var total := store.trains[route.train].totalSeats;
    var seat := FirstFreeSeat(booked, total);
    if seat.None? {
      return Err(NoFreeSeat);
    }
    var booking := Booking(bookingId, user, routeId, now, seat.value, Confirmed);
    RecordBooking(store, booking);
    res := Ok(booking);
  }

  // ---- Booking lookups ----------------------------------------------------

  /** UserBookingsView.get: the requester's bookings, in table order. */
  function UserBookings(bookings: seq<Booking>, user: Id): (r: seq<Booking>)
    ensures |r| <= |bookings|
    ensures forall b :: b in r <==> b in bookings && b.user == user
    ensures multiset(r) <= multiset(bookings)
    ensures forall b :: b in bookings && b.user == user ==> multiset(r)[b] == multiset(bookings)[b]
  {
    if bookings == [] then []
    else
      assert bookings == [bookings[0]] + bookings[1..];
      (if bookings[0].user == user then [bookings[0]] else []) + UserBookings(bookings[1..], user)
  }

  /** BookingDetailView.get: the booking with this id only if the requester owns it; NotFound otherwise. */
  function BookingDetail(bookings: seq<Booking>, bookingId: BookingId, user: Id): (r: Result<Booking, Error>)
    ensures r.Ok? ==> r.value in bookings && r.value.id == bookingId && r.value.user == user
    ensures r.Err? ==> r.error == NotFound && forall b :: b in bookings ==> !(b.id == bookingId && b.user == user)
  {
    if bookings == [] then Err(NotFound)
    else if bookings[0].id == bookingId && bookings[0].user == user then Ok(bookings[0])
    else BookingDetail(bookings[1..], bookingId, user)
  }

  /**
   * The detail view finds a booking exactly when the owner's listing holds a
   * booking with that id; a booking of another user reads as NotFound.
   */
  lemma DetailAgreesWithListing(bookings: seq<Booking>, bookingId: BookingId, user: Id)
    requires BookingIdsUnique(bookings)
    ensures BookingDetail(bookings, bookingId, user).Ok? <==>
      exists b :: b in UserBookings(bookings, user) && b.id == bookingId
    ensures forall i :: 0 <= i < |bookings| && bookings[i].id == bookingId && bookings[i].user != user ==>
      BookingDetail(bookings, bookingId, user) == Err(NotFound)
  {
  }

  // ---- A worked scenario ----------------------------------------------------

  /** Two stations, a train "12951" with two seats, and one route between the stations. */
  method TwoSeatRoute() returns (store: Store)
    ensures fresh(store) && store.Valid()
    ensures store.trains == map[1 := Train("Rajdhani", "12951", 2)]
    ensures store.routes == map[1 := Route(1, 1, 2, 0, 16, 2)]
    ensures store.bookings == []
  {
    store := new Store();
    var ok := store.AddStation(1, Station("New Delhi", "NDLS", "Delhi"));
    ok := store.AddStation(2, Station("Mumbai Central", "BCT", "Mumbai"));
    ok := store.AddTrain(1, "Rajdhani", "12951", 2);
    ok := CreateRoute(store, 1, 1, 1, 2, 0, 16);
  }

  /** Decrementing the counter of a one-route table. */
  lemma DecrementOnlyRoute(r: Route)
    requires r.availableSeats > 0
    ensures Ledger.Decremented(map[1 := r], 1) == map[1 := r.(availableSeats := r.availableSeats - 1)]
  {
  }

  /**
   * On the two-seat route with seats 1..k held, the next booking gets seat
   * k + 1, leaves seats 1..k+1 held and one seat fewer on the counter.
   */
  method BookNextSeat(store: Store, k: nat, user: Id, bookingId: BookingId, now: Timestamp)
    returns (res: Result<Booking, Error>)
    requires store.Valid() && k < 2
    requires store.trains == map[1 := Train("Rajdhani", "12951", 2)]
    requires store.routes == map[1 := Route(1, 1, 2, 0, 16, 2 - k)]
    requires ConfirmedSeats(store.bookings, 1) == SeatRange(k)
    requires forall i :: 0 <= i < |store.bookings| ==> store.bookings[i].id != bookingId
    modifies store
    ensures res == Ok(Booking(bookingId, user, 1, now, k + 1, Confirmed))
    ensures store.Valid()
    ensures store.trains == map[1 := Train("Rajdhani", "12951", 2)]
    ensures store.routes == map[1 := Route(1, 1, 2, 0, 16, 1 - k)]
    ensures store.bookings == old(store.bookings) + [res.value]
    ensures ConfirmedSeats(store.bookings, 1) == SeatRange(k + 1)
  {
    var next := Booking(bookingId, user, 1, now, k + 1, Confirmed);
    ghost var held := store.bookings;
    Ledger.NextSequentialSeat(held, 1, k, 2, next);
    assert Capacity(store.trains, store.routes, 1) == 2;
    res := BookSeat(store, user, 1, bookingId, now);
    assert res.Ok?;
    Ledger.LeastFreeUnique(ConfirmedSeats(held, 1), 2, res.value.seatNumber, k + 1);
    assert res.value == next;
    assert store.bookings == held + [next];
    DecrementOnlyRoute(Route(1, 1, 2, 0, 16, 2 - k));
  }

  /** Once both seats are taken the counter is 0 and the booking is refused. */
  method BookOnFullRoute(store: Store, user: Id, bookingId: BookingId, now: Timestamp)
    returns (res: Result<Booking, Error>)
    requires store.Valid()
    requires store.routes == map[1 := Route(1, 1, 2, 0, 16, 0)]
    requires forall i :: 0 <= i < |store.bookings| ==> store.bookings[i].id != bookingId
    modifies store
    ensures res == Err(NoSeatsAvailable)
  {
    res := BookSeat(store, user, 1, bookingId, now);
  }

  /**
   * On the two-seat route, the first two bookings get seats 1 and 2 and empty
   * the counter, and the third is refused.
   */
  method TwoSeatScenario() returns (first: Result<Booking, Error>, second: Result<Booking, Error>, third: Result<Booking, Error>)
    ensures first.Ok? && first.value.seatNumber == 1
    ensures second.Ok? && second.value.seatNumber == 2
    ensures third == Err(NoSeatsAvailable)
  {
    var store := TwoSeatRoute();
    assert ConfirmedSeats(store.bookings, 1) == {} == SeatRange(0);
    first := BookNextSeat(store, 0, 100, 1, 0);
    assert store.bookings == [first.value];
    second := BookNextSeat(store, 1, 200, 2, 1);
    assert store.bookings == [first.value, second.value];
    third := BookOnFullRoute(store, 300, 3, 2);
  }
}
