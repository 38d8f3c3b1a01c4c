/**
 * The four tables of the railway app (Station, Train, Route, Booking), the
 * validation that Route.clean performs, the table constraints stated as
 * predicates over the stored rows, and the seat bookkeeping of a route.
 */
module Models {
  import opened Results

  /** An autoincrement primary key. */
  type Id = int

  /** A DateTimeField, as an instant on an integer time line. */
  type Timestamp = int

  /** The UUID primary key of a booking, as an opaque number. */
  type BookingId = nat

  datatype Station = Station(name: string, code: string, city: string)

  /** total_seats is a PositiveIntegerField: zero or more. */
  datatype Train = Train(name: string, trainNumber: string, totalSeats: nat)

  /** A stored route row; available_seats is a PositiveIntegerField. */
  datatype Route = Route(train: Id, source: Id, destination: Id,
                         departure: Timestamp, arrival: Timestamp, availableSeats: nat)

  /** A route instance before it is saved: available_seats may still be None or out of range. */
  datatype RouteDraft = RouteDraft(train: Id, source: Id, destination: Id,
                                   departure: Timestamp, arrival: Timestamp, availableSeats: Option<int>)

  /** The choices of Booking.status. */
  datatype Status = Confirmed | Cancelled | Waiting

  /** The default of Booking.status. */
  const DefaultStatus: Status := Confirmed

  datatype Booking = Booking(id: BookingId, user: Id, route: Id, bookingTime: Timestamp,
                             seatNumber: nat, status: Status)

  datatype Error =
    | NotFound            // DoesNotExist: a looked-up row is absent (or not owned by the requester)
    | InvalidTimes        // Route.clean: arrival not after departure
    | SameEndpoints       // Route.clean: source equals destination
    | DuplicateKey        // a serializer uniqueness validator refused the input
    | NegativeValue       // a PositiveIntegerField was given a negative number
    | IntegrityError      // a database constraint refused the write
    | MissingParameter    // a required query parameter is absent or empty
    | NoSeatsAvailable    // the route's counter is zero
    | NoFreeSeat          // every seat number of the train is taken

  /** Route.clean: the time rule is checked first, then the endpoint rule. */
  function Clean(departure: Timestamp, arrival: Timestamp, source: Id, destination: Id): (r: Outcome<Error>)
    ensures r.Pass? <==> departure < arrival && source != destination
    ensures arrival <= departure ==> r == Fail(InvalidTimes)
    ensures departure < arrival && source == destination ==> r == Fail(SameEndpoints)
  {
    if arrival <= departure then Fail(InvalidTimes)
    else if source == destination then Fail(SameEndpoints)
    else Pass
  }

  /** The columns of Route's unique_together. */
  datatype RouteKey = RouteKey(train: Id, source: Id, destination: Id, departure: Timestamp)

  function KeyOf(r: Route): RouteKey {
    RouteKey(r.train, r.source, r.destination, r.departure)
  }

  // ---- Table constraints ------------------------------------------------

  /** Station.name and Station.code are unique columns. */
  ghost predicate StationsUnique(stations: map<Id, Station>) {
    forall a, b :: a in stations && b in stations && a != b ==>
      stations[a].name != stations[b].name && stations[a].code != stations[b].code
  }

  /** Train.train_number is a unique column. */
  ghost predicate TrainNumbersUnique(trains: map<Id, Train>) {
    forall a, b :: a in trains && b in trains && a != b ==> trains[a].trainNumber != trains[b].trainNumber
  }

  /** Every stored route references existing rows and passed Route.clean. */
  ghost predicate RoutesWellFormed(stations: map<Id, Station>, trains: map<Id, Train>, routes: map<Id, Route>) {
    forall id :: id in routes ==>
      && routes[id].train in trains
      && routes[id].source in stations
      && routes[id].destination in stations
      && Clean(routes[id].departure, routes[id].arrival, routes[id].source, routes[id].destination) == Pass
  }

  /** Route's unique_together on (train, source, destination, departure_time). */
  ghost predicate RouteKeysUnique(routes: map<Id, Route>) {
    forall a, b :: a in routes && b in routes && a != b ==> KeyOf(routes[a]) != KeyOf(routes[b])
  }

  /** Booking.route is a foreign key. */
  ghost predicate BookingsReferenceRoutes(routes: map<Id, Route>, bookings: seq<Booking>) {
    forall i :: 0 <= i < |bookings| ==> bookings[i].route in routes
  }

  /** booking_id is the primary key. */
  ghost predicate BookingIdsUnique(bookings: seq<Booking>) {
    forall i, j :: 0 <= i < j < |bookings| ==> bookings[i].id != bookings[j].id
  }

  /** Booking's unique_together on (route, seat_number), whatever the status. */
  ghost predicate SeatsUnique(bookings: seq<Booking>) {
    forall i, j :: 0 <= i < j < |bookings| && bookings[i].route == bookings[j].route ==>
      bookings[i].seatNumber != bookings[j].seatNumber
  }

  /** What the table constraints and Route.save (which runs clean) enforce. */
  ghost predicate TablesConsistent(stations: map<Id, Station>, trains: map<Id, Train>,
                                   routes: map<Id, Route>, bookings: seq<Booking>) {
    && StationsUnique(stations)
    && TrainNumbersUnique(trains)
    && RoutesWellFormed(stations, trains, routes)
    && RouteKeysUnique(routes)
    && BookingsReferenceRoutes(routes, bookings)
    && BookingIdsUnique(bookings)
    && SeatsUnique(bookings)
  }

  // ---- Seat bookkeeping -------------------------------------------------

  /** The number of seats of the train that runs a route (0 for an unknown route). */
  function Capacity(trains: map<Id, Train>, routes: map<Id, Route>, rid: Id): nat {
    if rid in routes && routes[rid].train in trains then trains[routes[rid].train].totalSeats else 0
  }

  /** A booking holds a seat of a route when it is on that route and CONFIRMED. */
  predicate Occupies(b: Booking, rid: Id) {
    b.route == rid && b.status == Confirmed
  }

  /** The number of CONFIRMED bookings on a route. */
  function Count(bookings: seq<Booking>, rid: Id): nat {
    if bookings == [] then 0
    else Count(bookings[..|bookings| - 1], rid) + (if Occupies(bookings[|bookings| - 1], rid) then 1 else 0)
  }

  /** The seat numbers held by CONFIRMED bookings on a route. */
  function ConfirmedSeats(bookings: seq<Booking>, rid: Id): (r: set<nat>)
    ensures forall s :: s in r <==>
      exists i :: 0 <= i < |bookings| && bookings[i].route == rid && bookings[i].status == Confirmed
                  && bookings[i].seatNumber == s
  {
    set b | b in bookings && Occupies(b, rid) :: b.seatNumber
  }

  /** The seat numbers a train offers: 1 to n. */
  function SeatRange(n: nat): (r: set<int>)
    ensures forall i :: i in r <==> 1 <= i <= n
    ensures |r| == n
  {
    if n == 0 then {} else SeatRange(n - 1) + {n}
  }

  /** The first-fit choice: s is the lowest number in 1..total not in booked. */
  ghost predicate IsLeastFree(booked: set<nat>, total: nat, s: nat) {
    1 <= s <= total && s !in booked && forall j :: 1 <= j < s ==> j in booked
  }

  /** Every seat number lies between 1 and the capacity of the booking's route. */
  ghost predicate SeatsInRange(trains: map<Id, Train>, routes: map<Id, Route>, bookings: seq<Booking>) {
    forall i :: 0 <= i < |bookings| ==> 1 <= bookings[i].seatNumber <= Capacity(trains, routes, bookings[i].route)
  }

  /** The only status the application ever writes. */
  ghost predicate AllConfirmed(bookings: seq<Booking>) {
    forall i :: 0 <= i < |bookings| ==> bookings[i].status == Confirmed
  }

  /** For every route, available_seats + #CONFIRMED bookings == total_seats. */
  ghost predicate Balanced(trains: map<Id, Train>, routes: map<Id, Route>, bookings: seq<Booking>) {
    forall rid :: rid in routes ==> routes[rid].availableSeats + Count(bookings, rid) == Capacity(trains, routes, rid)
  }

  /** The invariant every operation of the application keeps. */
  ghost predicate Invariant(stations: map<Id, Station>, trains: map<Id, Train>,
                            routes: map<Id, Route>, bookings: seq<Booking>) {
    && TablesConsistent(stations, trains, routes, bookings)
    && SeatsInRange(trains, routes, bookings)
    && AllConfirmed(bookings)
    && Balanced(trains, routes, bookings)
  }
}
