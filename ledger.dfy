/**
 * Seat bookkeeping of a route: how the CONFIRMED count and the set of held
 * seat numbers grow when a booking is appended, why a positive counter always
 * leaves a free seat, and why creating a route or booking a seat keeps the
 * store invariant.
 */
module Ledger {
  import opened Results
  import opened Models

  /** Appending a booking adds one to the count of its route, and nothing to any other route. */
  lemma CountAppend(bookings: seq<Booking>, b: Booking, rid: Id)
    ensures Count(bookings + [b], rid) == Count(bookings, rid) + (if Occupies(b, rid) then 1 else 0)
  {
    assert (bookings + [b])[..|bookings|] == bookings;
  }

  /** A route that no booking references has no CONFIRMED bookings. */
  lemma {:induction false} CountUnreferenced(bookings: seq<Booking>, rid: Id)
    requires forall i :: 0 <= i < |bookings| ==> bookings[i].route != rid
    ensures Count(bookings, rid) == 0
  {
    if bookings != [] {
      CountUnreferenced(bookings[..|bookings| - 1], rid);
    }
  }

  /** The held seats after an append are the held seats before, plus the new booking's if it occupies the route. */
  lemma ConfirmedSeatsAppend(bookings: seq<Booking>, b: Booking, rid: Id)
    ensures ConfirmedSeats(bookings + [b], rid) ==
      ConfirmedSeats(bookings, rid) + (if Occupies(b, rid) then {b.seatNumber} else {})
  {
  }

  /** With (route, seat) unique, a route holds as many distinct seat numbers as it has CONFIRMED bookings. */
  lemma {:induction false} ConfirmedSeatsSize(bookings: seq<Booking>, rid: Id)
    requires SeatsUnique(bookings)
    ensures |ConfirmedSeats(bookings, rid)| == Count(bookings, rid)
  {
    if bookings != [] {
      var n := |bookings| - 1;
      var prefix, last := bookings[..n], bookings[n];
      assert bookings == prefix + [last];
      assert SeatsUnique(prefix);
      ConfirmedSeatsSize(prefix, rid);
      ConfirmedSeatsAppend(prefix, last, rid);
    }
  }

  /** Pigeonhole: fewer than total seat numbers, all within 1..total, leave one of 1..total free. */
  lemma {:induction false} FreeSeatExists(booked: set<nat>, total: nat)
    requires forall s :: s in booked ==> 1 <= s <= total
    requires |booked| < total
    ensures exists s :: 1 <= s <= total && s !in booked
  {
    if total in booked {
      FreeSeatExists(booked - {total}, total - 1);
      var s :| 1 <= s <= total - 1 && s !in booked - {total};
      assert s !in booked;
    } else {
      assert 1 <= total && total !in booked;
    }
  }

  /** Only the first free number satisfies the first-fit choice. */
  lemma LeastFreeUnique(booked: set<nat>, total: nat, s: nat, t: nat)
    requires IsLeastFree(booked, total, s) && IsLeastFree(booked, total, t)
    ensures s == t
  {
  }

  /** Under the invariant, a route whose counter is positive has a free seat number in 1..total_seats. */
  lemma FreeSeatWhileCounterPositive(stations: map<Id, Station>, trains: map<Id, Train>,
                                     routes: map<Id, Route>, bookings: seq<Booking>, rid: Id)
    requires Invariant(stations, trains, routes, bookings)
    requires rid in routes && routes[rid].availableSeats > 0
    ensures exists s :: 1 <= s <= Capacity(trains, routes, rid) && s !in ConfirmedSeats(bookings, rid)
  {
    var booked := ConfirmedSeats(bookings, rid);
    ConfirmedSeatsSize(bookings, rid);
    forall s | s in booked
      ensures 1 <= s <= Capacity(trains, routes, rid)
    {
      var b :| b in bookings && Occupies(b, rid) && b.seatNumber == s;
      var k :| 0 <= k < |bookings| && bookings[k] == b;
    }
    FreeSeatExists(booked, Capacity(trains, routes, rid));
  }

  /** Every booking is CONFIRMED, so a seat the CONFIRMED scan leaves free is held by no booking of the route at all. */
  lemma FreeSeatHeldByNoBooking(bookings: seq<Booking>, rid: Id, s: nat)
    requires AllConfirmed(bookings)
    requires s !in ConfirmedSeats(bookings, rid)
    ensures forall i :: 0 <= i < |bookings| && bookings[i].route == rid ==> bookings[i].seatNumber != s
  {
    forall i | 0 <= i < |bookings| && bookings[i].route == rid
      ensures bookings[i].seatNumber != s
    {
      assert Occupies(bookings[i], rid);
    }
  }

  /**
   * Why the invariant needs AllConfirmed: a CANCELLED booking keeps its
   * (route, seat) row, the CONFIRMED scan calls that seat free, and inserting
   * it again would break the unique constraint.
   */
  lemma CancelledSeatLooksFree()
    ensures var held := [Booking(0, 7, 1, 0, 1, Cancelled)];
      && IsLeastFree(ConfirmedSeats(held, 1), 2, 1)
      && !SeatsUnique(held + [Booking(1, 8, 1, 0, 1, Confirmed)])
  {
    var held := [Booking(0, 7, 1, 0, 1, Cancelled)];
    assert ConfirmedSeats(held, 1) == {};
    var both := held + [Booking(1, 8, 1, 0, 1, Confirmed)];
    assert both[0].route == both[1].route && both[0].seatNumber == both[1].seatNumber;
  }

  /** The route with available_seats decremented: what the booking flow saves. */
  function Decremented(routes: map<Id, Route>, rid: Id): (r: map<Id, Route>)
    requires rid in routes && routes[rid].availableSeats > 0
    ensures r.Keys == routes.Keys
    ensures r[rid].availableSeats == routes[rid].availableSeats - 1
    ensures KeyOf(r[rid]) == KeyOf(routes[rid]) && r[rid].arrival == routes[rid].arrival
    ensures forall o :: o in routes && o != rid ==> r[o] == routes[o]
  {
    routes[rid := routes[rid].(availableSeats := routes[rid].availableSeats - 1)]
  }

  /**
   * Booking the first free seat of a route whose counter is positive, and
   * decrementing that counter, keeps the whole invariant.
   */
  lemma BookingKeepsInvariant(stations: map<Id, Station>, trains: map<Id, Train>,
                              routes: map<Id, Route>, bookings: seq<Booking>, b: Booking)
    requires Invariant(stations, trains, routes, bookings)
    requires b.route in routes && routes[b.route].availableSeats > 0
    requires b.status == Confirmed
    requires 1 <= b.seatNumber <= Capacity(trains, routes, b.route)
    requires b.seatNumber !in ConfirmedSeats(bookings, b.route)
    requires forall i :: 0 <= i < |bookings| ==> bookings[i].id != b.id
    ensures Invariant(stations, trains, Decremented(routes, b.route), bookings + [b])
  {
    var rid := b.route;
    var routes' := Decremented(routes, rid);
    var bookings' := bookings + [b];
    FreeSeatHeldByNoBooking(bookings, rid, b.seatNumber);
    assert forall r :: Capacity(trains, routes', r) == Capacity(trains, routes, r);
    forall r | r in routes'
      ensures routes'[r].availableSeats + Count(bookings', r) == Capacity(trains, routes', r)
    {
      CountAppend(bookings, b, r);
    }
    assert SeatsUnique(bookings');
  }

  /**
   * Creating a route whose counter is its train's capacity keeps the invariant,
   * and the new route starts with no CONFIRMED booking.
   */
  lemma NewRouteKeepsInvariant(stations: map<Id, Station>, trains: map<Id, Train>,
                               routes: map<Id, Route>, bookings: seq<Booking>, id: Id, r: Route)
    requires Invariant(stations, trains, routes, bookings)
    requires id !in routes
    requires r.train in trains && r.source in stations && r.destination in stations
    requires Clean(r.departure, r.arrival, r.source, r.destination) == Pass
    requires forall o :: o in routes ==> KeyOf(routes[o]) != KeyOf(r)
    requires r.availableSeats == trains[r.train].totalSeats
    ensures Invariant(stations, trains, routes[id := r], bookings)
    ensures Count(bookings, id) == 0
  {
    CountUnreferenced(bookings, id);
    assert forall o :: o in routes ==> Capacity(trains, routes[id := r], o) == Capacity(trains, routes, o);
  }

  /**
   * First fit on a route whose held seats are exactly 1..k hands out k + 1,
   * after which the held seats are 1..k+1: successive bookings on an empty
   * route get seats 1, 2, 3, ...
   */
  lemma NextSequentialSeat(bookings: seq<Booking>, rid: Id, k: nat, total: nat, b: Booking)
    requires ConfirmedSeats(bookings, rid) == SeatRange(k)
    requires k < total
    requires b.route == rid && b.status == Confirmed && b.seatNumber == k + 1
    ensures IsLeastFree(ConfirmedSeats(bookings, rid), total, k + 1)
    ensures ConfirmedSeats(bookings + [b], rid) == SeatRange(k + 1)
  {
    ConfirmedSeatsAppend(bookings, b, rid);
  }
}
