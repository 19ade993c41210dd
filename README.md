# Hotel booking engine — a Dafny model

This project models the booking lifecycle of a hotel-reservation backend (Express, MongoDB
through Mongoose, Redis as a read-through cache). It covers these parts:

- The three booking operations and two listings of `booking.controller.js`:
  - `createBooking`, `getBookingById` and `cancelBooking`;
  - `getUserBookings` and `getAllBookings`.
- The helpers those operations use:
  - `checkDateConflict`, the half-open overlap query;
  - `calculateNights`, which rounds up the whole days between two instants.
- The two Mongoose schemas the operations depend on:
  - the booking schema, with its `checkOut > checkIn` validator, status enum and defaults;
  - the room schema, with its `trim`/`lowercase` setters, price bound, description limit and image-URL validator.
- The Redis wrappers of `cacheManger.js`.
- The e-mail validator.

The central property is the one the booking engine exists for. No two "booked" bookings of
the same room have overlapping stays, where a stay is the half-open interval
`[checkIn, checkOut)`. The invariant of `BookingController.BookingEngine` states it. Every
state-changing operation keeps it:

- `CreateBooking` and `CancelBooking` carry it in their contracts.
- The pure lemmas `CreatePreservesNoDoubleBooking` and `CancelPreservesStoreInvariant`
  prove it about the outcome functions.

Layout, one module per source file:

| file | module | models |
|---|---|---|
| `wrappers.dfy` | `Wrappers` | `Option`, `Result` |
| `js_text.dfy` | `JsText` | JavaScript's `\s` whitespace, `String.prototype.trim`, lower-casing |
| `object_ids.dfy` | `ObjectIds` | `mongoose.Types.ObjectId.isValid` on strings, and the cast a lookup or a document applies to an id string |
| `nights.dfy` | `Nights` | `calculateNights` |
| `booking_model.dfy` | `BookingModel` | the booking schema |
| `room_model.dfy` | `RoomModel` | the room schema |
| `date_conflict.dfy` | `DateConflict` | `checkDateConflict` |
| `email_validator.dfy` | `EmailValidator` | `isValidEmail` |
| `cache_manager.dfy` | `CacheManager` | `setCache`, `getCache`, `deleteCache`, `deleteCacheByPattern`, `clearAllCache` |
| `booking_controller.dfy` | `BookingController` | the five handlers, as the class `BookingEngine` |
| `scenarios.dfy` | `BookingScenarios` | client runs of the engine (the adjoining-stays walk-through, a stale admin list) |

Modelling choices:

- **Dates** are integers: milliseconds since the epoch, as `Date` values compare and subtract.
- **The booking collection** is a map from id to `Booking`, plus the scan order in which
  `find`/`findOne` visit the documents. The first match of `findOne` is the first match in
  that order.
- **Rooms** are read-only for this core. They are a `map<string, Room>` parameter, keyed
  by the printed form of each room's ObjectId.
- **Ids.** Mongoose casts an id string to an ObjectId wherever it is used as one:
  - the `findById` lookups;
  - the `room` filter of the conflict query;
  - the `user` and `room` fields of a new booking.

  An ObjectId prints as 24 lower-case hex digits, so a cast accepts either case and yields
  the lower-case form (`ObjectIds.CastId`). The model casts at each of these places. Stored
  ids and references are always in printed form, which the store invariant records. Two
  spellings of one id therefore reach the same room and the same booking, and find the same
  conflicts. The caller's id comes from the token, which carries `user._id`, so it is
  already in printed form. The ownership checks compare it, as the source does, with the
  stored owner printed as a string.
- **Outside inputs become parameters:**
  - the caller's id, which the JWT middleware supplies;
  - the id a new document receives;
  - the clock `now`.
- **The Redis cache** is `CacheManager.Cache`, a map from key to value and expiry instant.
  Its flag `reachable` says whether Redis answers. Every wrapper swallows its errors, so
  while `reachable` is false:
  - a set, a delete, a delete-by-pattern or a flush changes nothing;
  - a get is a miss.
- **Handler results** are `Result<_, BookingController.Error>`. There is one error
  constructor per HTTP answer other than success. `InternalError` is the handler's 500 path.

Behaviours of the code that the model keeps, although a reader might expect otherwise:

- `cancelBooking` refuses only a booking whose status is already `cancelled`. A `completed`
  booking can be cancelled too, not only a `booked` one: `CancelTransitions` proves that
  `Completed` goes to `Cancelled`.
- The handlers that change bookings invalidate only `user:<id>:bookings`. They never
  invalidate `bookings:all`, so the administrators' list can stay stale for up to 1800
  seconds after a create or a cancel. `BookingScenarios.StaleAdministratorsList` plays this out.
- A `roomId` that is present but is not an ObjectId makes `Room.findById` throw a cast
  error. The handler answers 500 (`InternalError`), not 404.
- The check-in date is not compared with the current time. That check is commented out in
  the source.
- The list handlers sort on `createdAt`. Booking documents have no such field: the schema
  spells it `cratedAt`. The sort therefore does not order anything. The model returns the
  store's scan order, which is one order the source may return.

## Model

| member | source | states |
|---|---|---|
| Nights.CalculateNights | backend/controller/booking/helper/calculateNights.js:1-8 | the result is the ceiling of the difference in days: the smallest n with checkOut - checkIn <= n days, so (n-1) days < difference <= n days |
| Nights.CeilDivUnique | backend/controller/booking/helper/calculateNights.js:6 | the bracket (q-1)·d < a <= q·d determines q, so the rounding up is the only integer that satisfies it |
| Nights.NightsPositive | backend/controller/booking/helper/calculateNights.js:5-7 | a check-out strictly after check-in gives at least one night |
| Nights.ExactDays | backend/controller/booking/helper/calculateNights.js:5-7 | a stay of exactly k whole days (any integer k) is k nights |
| Nights.SameInstantIsZero | backend/controller/booking/helper/calculateNights.js:5-7 | equal instants give zero nights |
| Nights.PartialDayIsOneNight | backend/controller/booking/helper/calculateNights.js:5-7 | any stay longer than zero and at most one day is charged one night |
| Nights.NightsMonotone | backend/controller/booking/helper/calculateNights.js:5-7 | a later check-out never gives fewer nights |
| Nights.TenthToThirteenth | backend/controller/booking/helper/calculateNights.js:5-7 | midnight 10 January 2024 to midnight 13 January 2024 (UTC) is 3 nights |
| ObjectIds.IsValidObjectId | backend/controller/booking/booking.controller.js:135 | `ObjectId.isValid` on a request id: exactly 24 hex digits of either case |
| ObjectIds.CastId | backend/controller/booking/booking.controller.js:30 | the cast `findById` applies to an id string: a valid id casts to the printed form of an ObjectId (24 lower-case hex digits), of the same length |
| ObjectIds.PrintedIdIsFixed | backend/controller/booking/booking.controller.js:147 | the printed form of an ObjectId is a valid id, and casting it gives it back |
| ObjectIds.CastKeepsValidity | backend/controller/booking/booking.controller.js:30 | a string casts to an ObjectId exactly when its cast form does, and casting twice is casting once |
| ObjectIds.CastExample | backend/controller/booking/booking.controller.js:30 | "65A000000000000000000001" is a valid id and casts to "65a000000000000000000001" |
| BookingModel.ParseStatusExact | models/bookingModel.js:32-36 | a status string is accepted exactly when it is one of "booked", "cancelled", "completed", and it maps back to the same name |
| BookingModel.NewBooking | models/bookingModel.js:2-46 | a document is accepted iff no path fails validation: all required fields present, checkOut > checkIn (which fails when checkIn is absent), totalPrice >= 0, a known status; the errors reported are exactly the failing paths; the user and room references are stored cast to ObjectIds, the dates and price as given; status defaults to "booked", cratedAt and updatedAt default to now, numberOfNights is kept |
| BookingModel.ValidatorsMatchValidity | models/bookingModel.js:3-31 | the schema's validators accept a booking's fields exactly when the booking with its references cast is valid; every valid stored booking passes them, and re-creating it from its own fields gives it back |
| RoomModel.NewRoom | backend/models/roomModel.js:3-62 | a room is accepted iff no path fails (hotel name, location, price, createdBy present; price >= 0; description at most 1000 characters; every image an http(s) URL); the errors are exactly the failing paths; the hotel name is trimmed, the location lower-cased and trimmed, createdBy cast to an ObjectId, available defaults to true |
| RoomModel.NormalizedLocationIsCanonical | backend/models/roomModel.js:9-14 | a stored location has no surrounding whitespace and is unchanged by lower-casing, so normalising twice is normalising once |
| RoomModel.IsImageUrl | backend/models/roomModel.js:31 | `/^https?:\/\/.+/`: "http://" or "https://" followed by at least one character that is not a line terminator |
| RoomModel.ImageUrlExamples | backend/models/roomModel.js:28-34 | the pattern accepts "http://x" and an https URL; it refuses "http://" (nothing after the scheme), "ftp://x", "https:/x" and a line break right after the scheme |
| JsText.Trim | backend/models/roomModel.js:7 | `String.prototype.trim`: both ends stripped of JavaScript whitespace (the `\s` set, including the line terminators, no-break spaces and the byte-order mark) |
| JsText.LowerCase | backend/models/roomModel.js:12 | `toLowerCase` on ASCII letters: same length, each letter A–Z mapped to a–z, every other character kept |
| JsText.TrimIsMiddle | backend/models/roomModel.js:7 | trim leaves a contiguous middle piece of the string whose removed ends are all whitespace and whose own ends are not whitespace |
| JsText.TrimIdempotent | backend/models/roomModel.js:7 | trimming a trimmed string changes nothing |
| JsText.LowerCaseTrimCommute | backend/models/roomModel.js:12-13 | lower-casing and trimming commute, so the order in which the two setters run does not matter |
| DateConflict.Overlaps | controller/booking/helper/dateConflict.js:5-10 | the `$or` clause: the stored stay starts before the requested check-out and ends after the requested check-in (half-open intervals) |
| DateConflict.Conflicts | controller/booking/helper/dateConflict.js:2-10 | the query's filter: the booking's room is the ObjectId `roomId` casts to, its status is "booked", and its stay overlaps the requested one |
| DateConflict.CheckDateConflict | controller/booking/helper/dateConflict.js:1-13 | the query finds nothing exactly when no booking of the room (matched by the ObjectId `roomId` casts to) with status "booked" has checkIn < requested checkOut and checkOut > requested checkIn; otherwise it returns the first such booking in scan order |
| DateConflict.SpellingDoesNotMatter | controller/booking/helper/dateConflict.js:3 | two room ids that cast to the same ObjectId (for instance the same digits in either case) find the same conflict |
| DateConflict.OverlapSymmetric | controller/booking/helper/dateConflict.js:6-9 | the overlap test is symmetric between the stored stay and the requested one |
| DateConflict.TouchingStaysDoNotOverlap | controller/booking/helper/dateConflict.js:6-9 | a stay that ends when the other begins does not conflict, so back-to-back bookings are allowed |
| DateConflict.OnlyActiveBookingsOfTheRoom | controller/booking/helper/dateConflict.js:3-4 | bookings of other rooms, and cancelled or completed ones, never block |
| EmailValidator.IsValidEmail | backend/controller/utils/emailValidator.js:3-4 | the regex test: the string splits as a non-empty run without whitespace or "@", "@", a non-empty run of the same kind, ".", and a final non-empty run of the same kind (a run may hold further dots) |
| EmailValidator.EmailCharacterization | backend/controller/utils/emailValidator.js:1-5 | the regex accepts exactly the strings with one "@" that is not first, no whitespace anywhere, and a "." in the domain with at least one character on each side |
| EmailValidator.AcceptedHasShape | backend/controller/utils/emailValidator.js:3-4 | every accepted string has that shape |
| EmailValidator.ShapeIsAccepted | backend/controller/utils/emailValidator.js:3-4 | every string of that shape is accepted |
| EmailValidator.EmailExamples | backend/controller/utils/emailValidator.js:3-4 | "a@b.c" and "a@b..c" pass; "a@b", "@b.c", "a@.b" and "a b@c.d" fail |
| CacheManager.Cache.constructor | backend/controller/utils/cacheManger.js:1-2 | a fresh client holds no entries |
| CacheManager.Cache.Set | backend/controller/utils/cacheManger.js:4-10 | when Redis answers, the key holds the value until now + ttl seconds (default 3600) and reads back as that value before then; other keys are untouched; a failure changes nothing |
| CacheManager.Cache.Get | backend/controller/utils/cacheManger.js:13-27 | a hit exactly when Redis answers and holds an unexpired entry for the key, returning that entry's value; a failure is a miss |
| CacheManager.Cache.Delete | backend/controller/utils/cacheManger.js:29-37 | when Redis answers, the key is gone and reads miss at every time; other keys are untouched; a failure changes nothing |
| CacheManager.Cache.DeleteByPattern | backend/controller/utils/cacheManger.js:39-49 | when Redis answers, exactly the live keys with the prefix are deleted, no live key with the prefix remains, keys without it are untouched; when no key matches nothing changes |
| CacheManager.Cache.Clear | backend/controller/utils/cacheManger.js:51-58 | when Redis answers, every key is gone; a failure changes nothing |
| BookingController.UserBookingsKeyInjective | backend/controller/booking/booking.controller.js:78 | distinct users get distinct list keys, so invalidating one user's list never touches another's |
| BookingController.UserKeysAreNotTheAllKey | backend/controller/booking/booking.controller.js:103 | no user's list key is "bookings:all", and the user keys share the prefix "user:" while "bookings:all" does not |
| BookingController.OfUser | backend/controller/booking/booking.controller.js:113 | the listing holds exactly the bookings of the store whose user is the caller, each as many times as the store holds it |
| BookingController.CreateOutcome | backend/controller/booking/booking.controller.js:20-98 | the createBooking ladder: missing field 400; an id that does not cast 500; room not found 404; unavailable 400; checkOut <= checkIn 400; a conflict 400 with the blocking dates; then the document built with nights × rate, whose failed validation or duplicate id is 500; otherwise the booking and the room summary |
| BookingController.FindOwnBooking | backend/controller/booking/booking.controller.js:132-151 | the getBookingById checks in order: an id that `ObjectId.isValid` refuses 400, no booking under its cast 404, a booking of another user 403, otherwise the booking |
| BookingController.CancelOutcome | backend/controller/booking/booking.controller.js:167-192 | the same checks, then 400 for a booking already "cancelled"; otherwise the booking with status "cancelled" and updatedAt now |
| BookingController.CreateSeesTheObjectId | backend/controller/booking/booking.controller.js:30 | two room ids that cast to the same ObjectId get the same createBooking answer, conflicts included |
| BookingController.UpperCaseRoomIdStillConflicts | controller/booking/helper/dateConflict.js:3 | a "booked" stay of room "65a0…01" over [0,10) blocks a request for "65A0…01" over [2,5), answered with the stay's dates |
| BookingController.FindSeesTheObjectId | backend/controller/booking/booking.controller.js:139 | two booking ids that cast to the same ObjectId get the same getBookingById and cancelBooking answers |
| BookingController.CreateGuardOrder | backend/controller/booking/booking.controller.js:25-53 | the refusals come in the source's order: a missing field whatever else holds; then unknown room (looked up by its cast id); then unavailable room; then checkOut <= checkIn, which is decided without reading the bookings |
| BookingController.ConflictReportsBlockingStay | backend/controller/booking/booking.controller.js:55-64 | a conflict answer reports the dates of a "booked" stay of the same room that overlaps the requested one |
| BookingController.CreatedBookingShape | backend/controller/booking/booking.controller.js:66-90 | a created booking is "booked", owned by the caller, for the requested room (its cast id) and dates, at least one night, priced nights × the room's rate, stamped now, under a fresh id, valid for the schema, and clear of every "booked" stay of the room |
| BookingController.ValidRoomPassesSchema | backend/controller/booking/booking.controller.js:68-77 | for a valid room and a caller whose id is an ObjectId, the save step never fails when the new id is fresh |
| BookingController.InsertKeepsNoDoubleBooking | backend/controller/booking/booking.controller.js:55-77 | adding a stay that overlaps no "booked" stay of its room keeps every room free of double bookings |
| BookingController.InsertClearStay | backend/controller/booking/booking.controller.js:68-77 | adding a valid booking clear of the room's stays under a fresh id keeps the whole store invariant |
| BookingController.CreatePreservesNoDoubleBooking | backend/controller/booking/booking.controller.js:20-98 | a successful create under a fresh printed id keeps the store invariant: distinct printed ids, every booking valid with printed references, no double booking |
| BookingController.CancelPreservesStoreInvariant | backend/controller/booking/booking.controller.js:167-207 | a successful cancel keeps the store invariant |
| BookingController.CancelFreesStay | backend/controller/booking/booking.controller.js:188-193 | after cancelling a "booked" booking, no remaining booking blocks its room for its dates |
| BookingController.CancelTransitions | backend/controller/booking/booking.controller.js:188-192 | for the owner of an existing booking, cancel is refused exactly when the status is "cancelled"; otherwise "booked" or "completed" becomes "cancelled" with updatedAt = now and nothing else changes |
| BookingController.BookingEngine.constructor | backend/controller/booking/booking.controller.js:1-7 | an empty collection satisfies the invariant |
| BookingController.BookingEngine.CreateBooking | backend/controller/booking/booking.controller.js:20-98 | answers what the createBooking ladder answers for the store before the call; on success stores exactly the new booking under the new id (a printed ObjectId, as the store generates) and drops the caller's cached list when Redis answers; on refusal changes nothing; keeps the invariant |
| BookingController.BookingEngine.GetBookingById | backend/controller/booking/booking.controller.js:132-164 | answers what the getBookingById checks answer: a malformed id is 400, an id whose cast the store does not hold 404, another user's booking 403; otherwise the booking stored under the cast id, which belongs to the caller |
| BookingController.BookingEngine.CancelBooking | backend/controller/booking/booking.controller.js:167-207 | answers what the cancel checks answer; on success replaces only the booking stored under the cast id by its cancelled copy and drops the caller's cached list when Redis answers; frees a "booked" stay's dates; keeps the invariant |
| BookingController.BookingEngine.GetUserBookings | backend/controller/booking/booking.controller.js:100-130 | an unexpired cached list is returned as it is; otherwise the caller's bookings are read from the store, in scan order, and cached for 1800 seconds when Redis answers |
| BookingController.BookingEngine.GetAllBookings | backend/controller/booking/booking.controller.js:209-239 | an unexpired cached list is returned as it is; otherwise every booking is read from the store, in scan order, and cached under "bookings:all" for 1800 seconds when Redis answers |

## Left out

- HTTP plumbing is not modelled: status codes become `Error` constructors, and response bodies and console logging are dropped.
- JavaScript `Date` parsing is left out, including the `Invalid Date` a malformed date string gives. Request dates arrive already as millisecond instants.
- Nights.CalculateNights: computes the exact ceiling over the integers. The source divides in floating point before `Math.ceil`, so a quotient that rounds onto a whole number could differ by one night; floating-point rounding is not modelled.
- BookingController.BookingEngine.CreateBooking: the source's `!checkIn` / `!checkOut` test also rejects a date sent as `0` or `""`. The model treats only an absent date as missing, and only `""` for the room id.
- BookingController.BookingEngine.GetBookingById: does not model `populate`. The source returns the room and the user's name and e-mail populated. When the referenced user was deleted, `booking.user._id` throws and the handler answers 500. Users are not part of this model.
- BookingController.BookingEngine.GetUserBookings: returns bookings without the populated room summary. The `sort({ createdAt: -1 })` names a field the documents do not have, so the order the source returns is unspecified. The model returns the store's scan order and states the list exactly in that order.
- BookingController.BookingEngine.GetAllBookings: the same two points as `GetUserBookings`: no populated summaries, and the store's scan order where the source's order is unspecified.
- Concurrency is left out. Two concurrent `createBooking` calls can both pass the conflict check before either saves. The model's operations are atomic, so the no-double-booking invariant holds for sequential calls only.
- Database failures other than the cast error and save validation are left out (connection loss, timeouts). Each would answer 500.
- CacheManager.Cache: stores values as they are. The source stores `JSON.stringify(value)` and returns `JSON.parse` of it, so `Date` fields come back as strings.
- CacheManager.Cache: models Redis failure as a per-client flag (`reachable`), not per call. Expiry is compared against an explicit clock. An expired entry stays in the map but is never returned.
- CacheManager.Cache.DeleteByPattern: handles prefix patterns (`prefix*`) only. Other Redis glob syntax is not modelled.
- CacheManager.Cache.Set: a non-positive expiry, which Redis refuses, is treated like any other failure, as a no-op. Redis's error reply itself is not modelled.
- `getCache` also treats an empty cached string as a miss. The model cannot express this, because stored values are never serialised.
- ObjectIds.IsValidObjectId: accepts the 24-hex-digit form only, in either case. `ObjectId.isValid` also accepts a 12-byte string, which this model treats as invalid.
- DateConflict.CheckDateConflict: a room id that does not cast makes the source's query throw. The model has no error result for the query. Its one caller, `createBooking`, answers 500 for such an id before it reaches the query.
- JsText.LowerCase: maps ASCII letters only. JavaScript's `toLowerCase` is full Unicode.
- The room description limit counts code points. JavaScript counts UTF-16 code units.
- Prices are integers. The source's `Number` prices are doubles, and the total is `nights * pricePerNight` in floating point.
- `cancelBooking` saves the document again, which re-runs the schema validators. The store invariant says every stored booking is valid, so this save cannot fail in the model and is not represented as an error path.
- These parts of the repository are not part of this model:
  - the user, admin and room controllers;
  - JWT issuing and the authentication middleware;
  - route tables and database connection code;
  - the older copy of the cache helpers under `controller/utils/`.
