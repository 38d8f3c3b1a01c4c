# Railway reservation core, modelled in Dafny

This project models the seat-booking core of a railway reservation backend (a Django REST app). Admins create
stations, trains and scheduled routes. Each route carries an `available_seats` counter that starts at the train's
`total_seats`. An authenticated user books a seat on a route. The booking flow looks the route up and refuses when
the counter is not positive. It then takes the lowest seat number in `1..total_seats` that no CONFIRMED booking on
the route holds, inserts a CONFIRMED booking and decrements the counter. Users can list their own bookings and look
one up by id; a booking of another user reads as not found. Admin paths are guarded by an API-key middleware and by
role-based permission classes.

Modules, one per source file or component:

- `Results` (`results.dfy`): `Option`, `Result` and `Outcome`.
- `Users` (`users.dfy`): the custom user model. It has the role choices `USER` and `ADMIN`, defaults to `USER`,
  keeps emails unique and derives the `is_admin` property.
- `Access` (`access.dfy`): the admin API-key middleware and the permission classes `IsAuthenticated`,
  `IsAdminUser` and `AdminAPIKeyPermission`. The configured header name and key are passed in as a `Config` value.
- `Models` (`models.dfy`): the four tables as datatypes and `Route.clean`. The table constraints and the seat
  invariants are stated as predicates over the stored rows.
- `Database` (`database.dfy`): class `Store`, which holds the four tables and updates them in place. It covers
  station and train creation, `Route.save` and booking insertion. Every write either succeeds whole or changes
  nothing.
- `Ledger` (`ledger.dfy`): lemmas about the seat bookkeeping. They show how the CONFIRMED count grows, that a
  positive counter always leaves a free seat (pigeonhole), and that creating a route or booking a seat keeps the
  invariant.
- `Views` (`views.dfy`): route creation, the availability search, the booking flow (`BookSeat`, with the first-fit
  scan as its own loop) and the owner-scoped lookups. It ends with the two-seat scenario: seat 1, then seat 2, then
  "no seats available".

The invariant (`Models.Invariant`, `Store.Valid`) is kept by `Store.AddStation`, `Store.AddTrain`, `Views.CreateRoute` and `Views.BookSeat`. The two store primitives `Store.SaveRoute` and `Store.InsertBooking` keep only its first part (`Store.Consistent`). The invariant has four parts:

- the table constraints, together with what `Route.save` enforces by running `clean`: unique station name and code, unique train number, foreign keys, every stored route
  clean, unique `(train, source, destination, departure_time)`, unique booking id, and unique `(route, seat_number)`
  whatever the status;
- every seat number lies in `1..total_seats` of its route's train;
- every booking is CONFIRMED;
- for every route, `available_seats + #CONFIRMED bookings == total_seats`.

The third part is needed because the seat scan skips only CONFIRMED seats, while the unique constraint counts
bookings of every status. The two agree only while every booking is CONFIRMED, and CONFIRMED is the only status the
code ever writes: the booking flow sets CONFIRMED explicitly, which is also the status field's default (`Models.DefaultStatus`). `Ledger.CancelledSeatLooksFree` shows what would break without it.

Facts of the code the model keeps:

- `total_seats` is a `PositiveIntegerField`, so a train with 0 seats is accepted.
- When no seat number is free, the code answers with the "No available seat found" error, not a server error.
- The unique constraint on `(route, seat_number)` covers all statuses, not only CONFIRMED bookings.
- The middleware reads a missing header as `""`, so with an empty configured key a request without the header
  passes the middleware. The permission class still refuses it (`Access.PermissionAgreesWithMiddleware`).

## Model

| member | source | states |
|---|---|---|
| `Users.IsAdmin` | users/models.py:18-20 | `is_admin` holds exactly when the role is a valid choice other than the default `USER`, that is, `ADMIN` |
| `Users.NewUser` | users/models.py:7-13 | a user created with only an email gets the default role, which is a valid choice and not admin |
| `Users.Register` | users/models.py:12-13 | a new user row is refused exactly when its email is taken; otherwise it is added with the default role `USER`, other rows are unchanged, and email uniqueness and role validity are kept |
| `Access.MetaChar` | railway/middleware.py:15 | one header-name character in its META form: `-` becomes `_`, lower-case ASCII letters are upper-cased, everything else is kept |
| `Access.MetaName` | railway/middleware.py:15 | the rewritten name has the same length, is rewritten character by character, and contains no `-` and no lower-case ASCII letter |
| `Access.HeaderKey` | railway/middleware.py:15 | the META key is `HTTP_` followed by the rewritten header name |
| `Access.DefaultHeaderKey` | railway/middleware.py:14-15 | `X-API-KEY` becomes `HTTP_X_API_KEY` |
| `Access.Middleware` | railway/middleware.py:11-29 | a request outside `/api/railway/admin/` is forwarded; an admin-path request is forwarded iff the supplied value (or `""` when missing) equals the key, otherwise it gets a 401 |
| `Access.NonAdminPathIgnoresHeaders` | railway/middleware.py:13 | outside the admin prefix the decision is `Forward` whatever the headers |
| `Access.PermissionAgreesWithMiddleware` | railway/views.py:22-26 | the permission class admits only what the middleware forwards; the two agree when the key is non-empty; with an empty key a missing header passes the middleware but not the permission |
| `Access.KeyPermission` | railway/views.py:22-26 | `AdminAPIKeyPermission`: an absent header never passes, not even an empty configured key; a passing header carries exactly the key |
| `Access.AdminUserPermission` | railway/views.py:15-18 | `IsAdminUser`: only an authenticated user with a valid role passes, and a `USER` never does |
| `Access.AdminViewPermitted` | railway/views.py:31 | the admin views' three permission classes together pass iff the user is an admin and the key matches; a request without the header is refused |
| `Access.AdminRequestNeedsRoleAndKey` | railway/views.py:15-31 | an admin request is admitted iff the requester is an authenticated ADMIN and sent the exact key; a `USER` is refused even with the key, and so is a request without the header |
| `Models.Clean` | railway/models.py:41-48 | `clean` passes iff arrival is after departure and the endpoints differ; the time rule is reported first |
| `Models.ConfirmedSeats` | railway/views.py:131-132 | the booked-seat set holds exactly the seat numbers of the CONFIRMED bookings on the route |
| `Models.SeatRange` | railway/views.py:137 | the scanned numbers `1..total` form a set of exactly `total` numbers |
| `Database.SavedRoute` | railway/models.py:50-55 | the draft is stored iff it passes `clean`, its train and stations exist, its counter is non-negative (or it is a new row given none) and its route key is new; save fills `available_seats` from the train only for a new row given none, keeps an explicit or existing value, stores only rows that pass `clean`, and stores only rows that satisfy the foreign keys and the route key uniqueness |
| `Database.SavedRouteKeepsTables` | railway/models.py:50-55 | storing the row save produces keeps every table constraint |
| `Database.ResaveStoredRoute` | railway/views.py:157-158 | saving a stored route again with a new non-negative counter passes `clean` and every constraint |
| `Database.Store.AddStation` | railway/models.py:10-11 | a station is stored iff its name and code are both new; nothing else changes and the invariant is kept |
| `Database.Store.AddTrain` | railway/models.py:20-21 | a train is stored iff `total_seats >= 0` and its number is new; nothing else changes and the invariant is kept |
| `Database.Store.SaveRoute` | railway/models.py:50-55 | the routes table becomes the old one updated with the row `SavedRoute` gives, or stays as it was on an error; the database constraints are kept |
| `Database.Store.InsertBooking` | railway/models.py:71 | a booking is appended iff its route exists and no booking of any status on that route has its seat number; otherwise nothing changes |
| `Ledger.CountAppend` | railway/views.py:149-154 | appending a booking adds one to its route's CONFIRMED count if it is CONFIRMED, and nothing to other routes |
| `Ledger.CountUnreferenced` | railway/views.py:73-76 | a route no booking references has zero CONFIRMED bookings |
| `Ledger.ConfirmedSeatsAppend` | railway/views.py:131-132 | the held seat numbers after an append are the old ones plus the new booking's seat if it is CONFIRMED on the route |
| `Ledger.ConfirmedSeatsSize` | railway/models.py:71 | with `(route, seat_number)` unique, a route holds as many distinct seat numbers as it has CONFIRMED bookings |
| `Ledger.FreeSeatExists` | railway/views.py:137-146 | fewer than `total` taken numbers in `1..total` leave a free one |
| `Ledger.LeastFreeUnique` | railway/views.py:137-140 | the first-fit choice is unique |
| `Ledger.FreeSeatWhileCounterPositive` | railway/views.py:124-146 | under the invariant, a route with a positive counter has a free seat number, so "No available seat found" cannot happen |
| `Ledger.FreeSeatHeldByNoBooking` | railway/views.py:131-154 | when every booking is CONFIRMED, a seat the scan finds free is held by no booking of the route, so the insert cannot hit the unique constraint |
| `Ledger.CancelledSeatLooksFree` | railway/models.py:64-71 | a CANCELLED booking's seat looks free to the scan, yet inserting it again would break `(route, seat_number)` uniqueness |
| `Ledger.Decremented` | railway/views.py:157 | only the booked route's counter drops by one; its key fields and all other routes stay the same |
| `Ledger.BookingKeepsInvariant` | railway/views.py:149-158 | adding a CONFIRMED booking on a free in-range seat and decrementing a positive counter keeps the whole invariant |
| `Ledger.NewRouteKeepsInvariant` | railway/views.py:73-76 | a new valid route whose counter equals the train's capacity keeps the invariant and has no CONFIRMED bookings |
| `Ledger.NextSequentialSeat` | railway/views.py:137-140 | when seats `1..k` are held, first fit gives `k+1` and the held seats become `1..k+1`, so an empty route hands out 1, 2, 3, ... |
| `Views.CreateRoute` | railway/views.py:69-78 | the route is stored iff the train and both stations exist, the route key is new and `clean` passes; it starts with `available_seats == total_seats` and no bookings; the invariant is kept |
| `Views.Availability` | railway/views.py:89-106 | a missing source or destination is an error; otherwise the result is exactly the routes between the two stations with `available_seats > 0` |
| `Views.AvailableRoutesHaveFreeSeat` | railway/views.py:99-103 | under the invariant, every route the search returns still has a free seat number |
| `Views.FirstFreeSeat` | railway/views.py:134-140 | the loop returns the least number in `1..total` that is not booked, or nothing when all are booked |
| `Views.RecordBooking` | railway/views.py:148-158 | the insert and the route save both succeed: exactly one booking is appended, only that route's counter drops by one, and the invariant is kept |
| `Views.BookSeat` | railway/views.py:112-176 | NotFound iff the route is missing; NoSeatsAvailable iff its counter is 0; NoFreeSeat only when every number is held; errors write nothing; success appends exactly one CONFIRMED booking for the user on the least free seat and decrements only that route's counter; the invariant is kept |
| `Views.UserBookings` | railway/views.py:197-200 | the listing holds exactly the bookings whose user is the requester, each as many times as the table holds it (once, since booking ids are unique), and nothing else |
| `Views.BookingDetail` | railway/views.py:182-191 | a booking is returned only if both its id and its owner match; otherwise NotFound, and then no such booking exists |
| `Views.DetailAgreesWithListing` | railway/views.py:182-198 | the detail lookup succeeds iff the owner's listing holds that id; another user's booking reads as NotFound |
| `Views.TwoSeatRoute` | railway/views.py:69-78 | two stations, a two-seat train and a route between them give a counter of 2 and no bookings |
| `Views.BookNextSeat` | railway/views.py:131-158 | on the two-seat route with seats `1..k` held, the next booking gets seat `k+1`, holds seats `1..k+1` and leaves one seat fewer on the counter |
| `Views.BookOnFullRoute` | railway/views.py:124-128 | once the counter is 0 the booking is refused with NoSeatsAvailable |
| `Views.TwoSeatScenario` | railway/views.py:124-163 | on a two-seat route, successive bookings get seat 1, then seat 2, and the third gets NoSeatsAvailable |

## Left out

- Concurrency: `transaction.atomic` and `select_for_update` are not modelled. `BookSeat` is one atomic call on a single-threaded store, so per-route locking and rollback of an interleaved transaction are out of reach.
- The `IntegrityError` branch of the booking flow (HTTP 500) is not a separate outcome. `Store.InsertBooking` models the constraint failure, and `Views.RecordBooking` proves it cannot occur under the invariant.
- HTTP requests, responses and status codes are not modelled. Outcomes are `Result`/`Outcome` values with an `Error` datatype.
- Serializers are not modelled. Their relevant facts are built into the operations: `available_seats` cannot be set by the client, `route_id` is an integer, and references and unique fields are validated. The way DRF gathers all field errors at once, and `max_length` limits, are not modelled.
- Authentication is not modelled: the requesting user is an id, or a `Requester` value for the permission classes.
- Timestamps are integers. Primary keys (autoincrement ids and the `uuid4` booking id) are fresh-id parameters that the caller supplies.
- Users.Register: the unique `username` column inherited from Django's `AbstractUser` is not modelled, so a new email with a taken username is accepted here but refused by the database.
- Database.Store.AddTrain: the upper bound of the `total_seats` integer column (and the serializer's matching `max_value`) is not modelled, because integers are unbounded here; an oversized capacity is stored instead of refused.
- Access.HeaderKey: requires an ASCII header name, because the Unicode behaviour of Python's `str.upper()` is not modelled.
- The debug `print` calls in the middleware are not modelled.
- Cancellation and the WAITING status are not modelled, because no code performs them. The status enum is modelled, but no operation moves a booking out of CONFIRMED.
- Database.SavedRoute: `clean` also loads the two stations, and a missing station raises a lookup error there. The model reports a missing station at the foreign-key check of the insert, as an integrity error. Both write nothing.
- Views.CreateRoute: in the source, a `ValidationError` raised by `clean` inside `save` is not caught by the view. The model reports it as a failed outcome and writes nothing.
- Views.Availability: the query parameters are `Option<Id>`, with an absent or empty parameter as `None`. A non-numeric parameter is not modelled; the ORM would fail on it.
- Views.UserBookings: returns bookings in table order. The ORM leaves the order unspecified.
- The admin `GET` listings of stations, trains and routes are not modelled. They return whole tables.
- Cascading deletes are not modelled, because the core has no delete path.
