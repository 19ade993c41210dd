/**
 * The booking lifecycle engine: creating, reading, listing and cancelling bookings over a
 * booking store, with the cache invalidation the handlers perform. Each handler answers
 * with a result value instead of an HTTP response. The verified identity of the caller
 * arrives as `userId`; the clock arrives as `now` (milliseconds); the room collection, which
 * the engine only reads, arrives as `rooms`; the id the store gives a new document arrives
 * as `newId`.
 */
module BookingController {
  import opened Wrappers
  import opened ObjectIds
  import opened Nights
  import opened BookingModel
  import opened RoomModel
  import opened DateConflict
  import opened CacheManager

  /** Lifetime, in seconds, of a cached booking list. */
  const ListTtlSeconds: int := 1800

  /** Cache key of the administrators' list of every booking. */
  const AllBookingsKey: string := "bookings:all"

  /** Cache key of one user's booking list. */
  function UserBookingsKey(userId: string): string {
    "user:" + userId + ":bookings"
  }

  /** Distinct users have distinct list keys. */
  lemma UserBookingsKeyInjective(a: string, b: string)
    requires UserBookingsKey(a) == UserBookingsKey(b)
    ensures a == b
  {
    var ka, kb := UserBookingsKey(a), UserBookingsKey(b);
    assert |a| == |b|;
    assert a == ka[5..5 + |a|];
    assert b == kb[5..5 + |b|];
  }

  /** A user's list key is never the administrators' key, and only user keys match `user:*`. */
  lemma UserKeysAreNotTheAllKey(userId: string)
    ensures UserBookingsKey(userId) != AllBookingsKey
    ensures HasPrefix(UserBookingsKey(userId), "user:") && !HasPrefix(AllBookingsKey, "user:")
  {
    assert UserBookingsKey(userId)[0] == 'u';
    assert UserBookingsKey(userId)[..5] == "user:";
  }

  /** The ways a handler can fail. */
  datatype Error =
    | MissingFields                                          // 400, a required request field is missing
    | RoomNotFound                                           // 404
    | RoomUnavailable                                        // 400, the room's `available` flag is off
    | InvalidDateRange                                       // 400, check-out not after check-in
    | AlreadyBooked(conflictCheckIn: int, conflictCheckOut: int)  // 400, with the blocking stay
    | InvalidBookingId                                       // 400
    | BookingNotFound                                        // 404
    | AccessDenied                                           // 403, the booking belongs to another user
    | AlreadyCancelled                                       // 400
    | InternalError                                          // 500, a store call threw

  /** The summary of the room attached to a newly created booking. */
  datatype RoomDetails = RoomDetails(hotelName: string, location: string, pricePerNight: int)

  datatype Created = Created(booking: Booking, roomDetails: RoomDetails)

  /** The stored bookings in the store's scan order. */
  function Rows(order: seq<string>, m: map<string, Booking>): (r: seq<Booking>)
    requires forall id :: id in order ==> id in m
    ensures |r| == |order| && forall i :: 0 <= i < |order| ==> r[i] == m[order[i]]
  {
    if order == [] then [] else [m[order[0]]] + Rows(order[1..], m)
  }

  /** The bookings of `rows` that belong to `userId`, in the same order. */
  function OfUser(rows: seq<Booking>, userId: string): (r: seq<Booking>)
    ensures forall b :: b in r <==> b in rows && b.user == userId
    ensures forall b :: multiset(r)[b] == if b.user == userId then multiset(rows)[b] else 0
  {
    if rows == [] then []
    else
      var rest := OfUser(rows[1..], userId);
      assert multiset(rows) == multiset{rows[0]} + multiset(rows[1..]) by {
        assert rows == [rows[0]] + rows[1..];
      }
      if rows[0].user == userId then
        assert multiset([rows[0]] + rest) == multiset{rows[0]} + multiset(rest);
        [rows[0]] + rest
      else rest
  }

  /** For every room, its "booked" stays are pairwise disjoint as half-open intervals. */
  ghost predicate NoDoubleBooking(m: map<string, Booking>) {
    forall i, j :: i in m && j in m && i != j && m[i].room == m[j].room
      && m[i].status == Booked && m[j].status == Booked
      ==> !Overlaps(m[i].checkIn, m[i].checkOut, m[j].checkIn, m[j].checkOut)
  }

  /** The store's invariant: the scan order lists every id once, every id is the printed form
      of an ObjectId, every booking passed the schema, and no room is double-booked. */
  ghost predicate StoreInvariant(order: seq<string>, m: map<string, Booking>) {
    && (forall i, j :: 0 <= i < j < |order| ==> order[i] != order[j])
    && (forall id :: id in order <==> id in m)
    && (forall id :: id in m ==> IsObjectIdString(id))
    && (forall id :: id in m ==> BookingValid(m[id]))
    && NoDoubleBooking(m)
  }

  /** What `createBooking` answers, given the store's rows and ids before the call. The room
      lookup, the conflict query and the new document all cast `roomId` to an ObjectId; rooms
      are keyed by the printed form of their ids. */
  function CreateOutcome(rows: seq<Booking>, taken: set<string>, userId: string, roomId: string,
                         checkIn: Option<int>, checkOut: Option<int>, rooms: map<string, Room>,
                         newId: string, now: int): Result<Created, Error>
  {
    if roomId == "" || checkIn.None? || checkOut.None? then Err(MissingFields)
    else if !IsValidObjectId(roomId) then Err(InternalError)
    else if CastId(roomId) !in rooms then Err(RoomNotFound)
    else if !rooms[CastId(roomId)].available then Err(RoomUnavailable)
    else if checkOut.value <= checkIn.value then Err(InvalidDateRange)
    else
      var conflict := CheckDateConflict(rows, roomId, checkIn.value, checkOut.value);
      if conflict.Some? then Err(AlreadyBooked(conflict.value.checkIn, conflict.value.checkOut))
      else
        var room := rooms[CastId(roomId)];
        var nights := CalculateNights(checkIn.value, checkOut.value);
        var doc := NewBooking(BookingInput(Some(userId), Some(roomId), checkIn, checkOut,
                                           Some(nights * room.pricePerNight), None, Some(nights)), now);
        if doc.Err? || newId in taken then Err(InternalError)
        else Ok(Created(doc.value, RoomDetails(room.hotelName, room.location, room.pricePerNight)))
  }

  /** The checks `getBookingById` makes, in order: the id's shape, existence (the lookup casts
      the id), ownership (the stored owner printed as a string against the caller's id). */
  function FindOwnBooking(m: map<string, Booking>, id: string, userId: string): Result<Booking, Error> {
    if !IsValidObjectId(id) then Err(InvalidBookingId)
    else if CastId(id) !in m then Err(BookingNotFound)
    else if m[CastId(id)].user != userId then Err(AccessDenied)
    else Ok(m[CastId(id)])
  }

  /** What `cancelBooking` answers: the same checks, then a refusal for a booking already
      cancelled, otherwise the booking moved to "cancelled" and stamped `now`. */
  function CancelOutcome(m: map<string, Booking>, id: string, userId: string, now: int): Result<Booking, Error> {
    match FindOwnBooking(m, id, userId)
    case Err(e) => Err(e)
    case Ok(b) => if b.status == Cancelled then Err(AlreadyCancelled) else Ok(b.(status := Cancelled, updatedAt := now))
  }

  /** `createBooking` sees the room's ObjectId, not its spelling: two room ids that cast to
      the same ObjectId get the same answer, conflicts included. */
  lemma CreateSeesTheObjectId(rows: seq<Booking>, taken: set<string>, userId: string, a: string, b: string,
                              checkIn: Option<int>, checkOut: Option<int>, rooms: map<string, Room>,
                              newId: string, now: int)
    requires IsValidObjectId(a) && CastId(a) == CastId(b)
    ensures CreateOutcome(rows, taken, userId, a, checkIn, checkOut, rooms, newId, now)
         == CreateOutcome(rows, taken, userId, b, checkIn, checkOut, rooms, newId, now)
  {
    CastKeepsValidity(a);
    CastKeepsValidity(b);
    if checkIn.Some? && checkOut.Some? {
      SpellingDoesNotMatter(rows, a, b, checkIn.value, checkOut.value);
    }
  }

  /** A stay of a room held under the printed id blocks a request that spells the id in
      upper case. */
  lemma UpperCaseRoomIdStillConflicts(rooms: map<string, Room>, newId: string, now: int)
    requires "65a000000000000000000001" in rooms && rooms["65a000000000000000000001"].available
    ensures var stay := Booking("65a0000000000000000000b1", "65a000000000000000000001", 0, 10, 0, Booked, Some(1), 0, 0);
      CreateOutcome([stay], {}, "65a0000000000000000000b2", "65A000000000000000000001", Some(2), Some(5), rooms, newId, now)
        == Err(AlreadyBooked(0, 10))
  {
    var upper, room := "65A000000000000000000001", "65a000000000000000000001";
    var stay := Booking("65a0000000000000000000b1", room, 0, 10, 0, Booked, Some(1), 0, 0);
    CastExample();
    assert Conflicts(stay, upper, 2, 5);
    assert CheckDateConflict([stay], upper, 2, 5) == Some(stay);
  }

  /** The booking lookups see the ObjectId too: ids that cast alike find the same booking. */
  lemma FindSeesTheObjectId(m: map<string, Booking>, a: string, b: string, userId: string, now: int)
    requires IsValidObjectId(a) && CastId(a) == CastId(b)
    ensures FindOwnBooking(m, a, userId) == FindOwnBooking(m, b, userId)
    ensures CancelOutcome(m, a, userId, now) == CancelOutcome(m, b, userId, now)
  {
    CastKeepsValidity(a);
    CastKeepsValidity(b);
  }

  /** The order in which `createBooking` rejects a request. A missing field is reported
      whatever the store and the rooms hold; a range that is empty or reversed is reported
      without looking at the bookings at all. */
  lemma CreateGuardOrder(rows: seq<Booking>, taken: set<string>, userId: string, roomId: string,
                         checkIn: Option<int>, checkOut: Option<int>, rooms: map<string, Room>,
                         newId: string, now: int)
    ensures var r := CreateOutcome(rows, taken, userId, roomId, checkIn, checkOut, rooms, newId, now);
      && (roomId == "" || checkIn.None? || checkOut.None? <==> r == Err(MissingFields))
      && (r == Err(RoomNotFound) <==> r != Err(MissingFields) && IsValidObjectId(roomId) && CastId(roomId) !in rooms)
      && (r == Err(RoomUnavailable) <==>
            r != Err(MissingFields) && IsValidObjectId(roomId) && CastId(roomId) in rooms && !rooms[CastId(roomId)].available)
      && (r == Err(InvalidDateRange) <==>
            r != Err(MissingFields) && IsValidObjectId(roomId) && CastId(roomId) in rooms && rooms[CastId(roomId)].available
            && checkOut.value <= checkIn.value)
      && (r == Err(InvalidDateRange) ==>
            forall rows' :: CreateOutcome(rows', taken, userId, roomId, checkIn, checkOut, rooms, newId, now) == r)
  {
  }

  /** A conflict is reported with the stay of a "booked" booking of the same room that
      overlaps the requested one. */
  lemma ConflictReportsBlockingStay(rows: seq<Booking>, taken: set<string>, userId: string, roomId: string,
                                    checkIn: Option<int>, checkOut: Option<int>, rooms: map<string, Room>,
                                    newId: string, now: int, a: int, b: int)
    requires CreateOutcome(rows, taken, userId, roomId, checkIn, checkOut, rooms, newId, now) == Err(AlreadyBooked(a, b))
    ensures checkIn.Some? && checkOut.Some? && checkIn.value < checkOut.value
    ensures exists x :: (x in rows && x.room == CastId(roomId) && x.status == Booked && x.checkIn == a && x.checkOut == b
      && Overlaps(a, b, checkIn.value, checkOut.value))
  {
    var c := CheckDateConflict(rows, roomId, checkIn.value, checkOut.value);
    assert c.Some?;
    assert c.value in rows;
  }

  /** A created booking: "booked", owned by the caller, for the requested room and stay, at
      least one night, priced nights times the room's rate, under a fresh id, and clear of
      every "booked" stay of the room. */
  lemma CreatedBookingShape(rows: seq<Booking>, taken: set<string>, userId: string, roomId: string,
                            checkIn: Option<int>, checkOut: Option<int>, rooms: map<string, Room>,
                            newId: string, now: int)
    requires CreateOutcome(rows, taken, userId, roomId, checkIn, checkOut, rooms, newId, now).Ok?
    ensures var b := CreateOutcome(rows, taken, userId, roomId, checkIn, checkOut, rooms, newId, now).value.booking;
      && newId !in taken
      && CastId(roomId) in rooms && rooms[CastId(roomId)].available
      && b.user == CastId(userId) && b.room == CastId(roomId) && b.status == Booked
      && b.checkIn == checkIn.value && b.checkOut == checkOut.value && b.checkIn < b.checkOut
      && b.numberOfNights == Some(CalculateNights(b.checkIn, b.checkOut))
      && CalculateNights(b.checkIn, b.checkOut) >= 1
      && b.totalPrice == CalculateNights(b.checkIn, b.checkOut) * rooms[CastId(roomId)].pricePerNight
      && b.cratedAt == now && b.updatedAt == now
      && BookingValid(b)
      && forall x :: x in rows && x.room == CastId(roomId) && x.status == Booked ==> !Overlaps(x.checkIn, x.checkOut, b.checkIn, b.checkOut)
  {
    NightsPositive(checkIn.value, checkOut.value);
  }

  /** With a valid room, the schema never refuses the document `createBooking` builds for a
      caller whose id is an ObjectId: the save step fails only on an id collision. */
  lemma ValidRoomPassesSchema(rows: seq<Booking>, taken: set<string>, userId: string, roomId: string,
                              checkIn: Option<int>, checkOut: Option<int>, rooms: map<string, Room>,
                              newId: string, now: int)
    requires IsValidObjectId(userId) && newId !in taken
    requires IsValidObjectId(roomId) && CastId(roomId) in rooms && RoomValid(rooms[CastId(roomId)])
    ensures CreateOutcome(rows, taken, userId, roomId, checkIn, checkOut, rooms, newId, now) != Err(InternalError)
  {
    if checkIn.Some? && checkOut.Some? && checkIn.value < checkOut.value {
      var nights := CalculateNights(checkIn.value, checkOut.value);
      NightsPositive(checkIn.value, checkOut.value);
      var price := rooms[CastId(roomId)].pricePerNight;
      assert nights * price >= 0 by {
        if price > 0 {
          MulMonotone(0, nights, price);
        }
      }
    }
  }

  /** Adding, under a fresh id, a booking whose stay is clear of every "booked" stay of its
      room keeps the rooms free of double bookings. */
  lemma InsertKeepsNoDoubleBooking(order: seq<string>, m: map<string, Booking>, newId: string, b: Booking)
    requires forall id :: id in order <==> id in m
    requires NoDoubleBooking(m) && newId !in m
    requires forall x :: x in Rows(order, m) && x.room == b.room && x.status == Booked ==>
      !Overlaps(x.checkIn, x.checkOut, b.checkIn, b.checkOut)
    ensures NoDoubleBooking(m[newId := b])
  {
    var rows := Rows(order, m);
    var m' := m[newId := b];
    forall i, j | i in m' && j in m' && i != j && m'[i].room == m'[j].room
      && m'[i].status == Booked && m'[j].status == Booked
      ensures !Overlaps(m'[i].checkIn, m'[i].checkOut, m'[j].checkIn, m'[j].checkOut)
    {
      if i == newId {
        var k :| 0 <= k < |order| && order[k] == j;
        assert rows[k] == m[j];
      } else if j == newId {
        var k :| 0 <= k < |order| && order[k] == i;
        assert rows[k] == m[i];
      }
    }
  }

  /** Inserting, under a fresh id, a valid booking whose stay is clear of every "booked"
      stay of its room keeps the store's invariant. */
  lemma InsertClearStay(order: seq<string>, m: map<string, Booking>, newId: string, b: Booking)
    requires StoreInvariant(order, m) && newId !in m && IsObjectIdString(newId) && BookingValid(b)
    requires forall x :: x in Rows(order, m) && x.room == b.room && x.status == Booked ==>
      !Overlaps(x.checkIn, x.checkOut, b.checkIn, b.checkOut)
    ensures StoreInvariant(order + [newId], m[newId := b])
  {
    InsertKeepsNoDoubleBooking(order, m, newId, b);
    var order', m' := order + [newId], m[newId := b];
    forall i, j | 0 <= i < j < |order'| ensures order'[i] != order'[j] {
      if j == |order| {
        assert order[i] in m;
      }
    }
    forall id ensures id in order' <==> id in m' {
      assert id in order' <==> id in order || id == newId;
    }
    forall id | id in m' ensures IsObjectIdString(id) && BookingValid(m'[id]) {
      if id != newId {
        assert m'[id] == m[id];
      }
    }
  }

  /** Headline invariant: inserting what `createBooking` creates keeps every room free of
      overlapping "booked" stays. */
  lemma CreatePreservesNoDoubleBooking(order: seq<string>, m: map<string, Booking>, userId: string, roomId: string,
                                       checkIn: Option<int>, checkOut: Option<int>, rooms: map<string, Room>,
                                       newId: string, now: int)
    requires StoreInvariant(order, m) && IsObjectIdString(newId)
    requires CreateOutcome(Rows(order, m), m.Keys, userId, roomId, checkIn, checkOut, rooms, newId, now).Ok?
    ensures var c := CreateOutcome(Rows(order, m), m.Keys, userId, roomId, checkIn, checkOut, rooms, newId, now).value;
      StoreInvariant(order + [newId], m[newId := c.booking])
  {
    var b := CreateOutcome(Rows(order, m), m.Keys, userId, roomId, checkIn, checkOut, rooms, newId, now).value.booking;
    CreatedBookingShape(Rows(order, m), m.Keys, userId, roomId, checkIn, checkOut, rooms, newId, now);
    InsertClearStay(order, m, newId, b);
  }

  /** Cancelling keeps the invariant: it only takes a booking out of "booked". */
  lemma CancelPreservesStoreInvariant(order: seq<string>, m: map<string, Booking>, id: string, userId: string, now: int)
    requires StoreInvariant(order, m)
    requires CancelOutcome(m, id, userId, now).Ok?
    ensures CastId(id) in m && StoreInvariant(order, m[CastId(id) := CancelOutcome(m, id, userId, now).value])
  {
  }

  /** Cancelling a "booked" booking frees its stay: asking for exactly that stay in that
      room then finds no conflict. */
  lemma CancelFreesStay(order: seq<string>, m: map<string, Booking>, id: string, userId: string, now: int)
    requires StoreInvariant(order, m)
    requires CancelOutcome(m, id, userId, now).Ok? && CastId(id) in m && m[CastId(id)].status == Booked
    ensures var c := CancelOutcome(m, id, userId, now).value;
      CheckDateConflict(Rows(order, m[CastId(id) := c]), c.room, c.checkIn, c.checkOut) == None
  {
    var key := CastId(id);
    var c := CancelOutcome(m, id, userId, now).value;
    PrintedIdIsFixed(c.room);
    var m' := m[key := c];
    var rows := Rows(order, m');
    forall x | x in rows ensures !Conflicts(x, c.room, c.checkIn, c.checkOut) {
      var k :| 0 <= k < |rows| && rows[k] == x;
      var j := order[k];
      if j != key && x.room == c.room && x.status == Booked {
        assert m[j] == x;
        assert !Overlaps(x.checkIn, x.checkOut, m[key].checkIn, m[key].checkOut);
      }
    }
  }

  /** Cancelling is refused for a booking already cancelled, and allowed from both
      "booked" and "completed". */
  lemma CancelTransitions(m: map<string, Booking>, id: string, userId: string, now: int)
    requires FindOwnBooking(m, id, userId).Ok?
    ensures m[CastId(id)].status == Cancelled <==> CancelOutcome(m, id, userId, now) == Err(AlreadyCancelled)
    ensures m[CastId(id)].status != Cancelled ==>
      CancelOutcome(m, id, userId, now) == Ok(m[CastId(id)].(status := Cancelled, updatedAt := now))
  {
  }

  class BookingEngine {
    /** The booking collection, by id. */
    var bookings: map<string, Booking>
    /** The ids in the order the store scans them (insertion order). */
    var order: seq<string>
    /** The cache the handlers read through and invalidate. */
    const cache: Cache<seq<Booking>>

    ghost predicate Valid()
      reads this
    {
      StoreInvariant(order, bookings)
    }

    /** Every stored booking, in scan order. */
    function AllRows(): seq<Booking>
      reads this
      requires Valid()
    {
      Rows(order, bookings)
    }

    constructor (cache: Cache<seq<Booking>>)
      ensures Valid() && bookings == map[] && order == [] && this.cache == cache
    {
      bookings := map[];
      order := [];
      this.cache := cache;
    }

    /** `createBooking`. */
    method CreateBooking(userId: string, roomId: string, checkIn: Option<int>, checkOut: Option<int>,
                         rooms: map<string, Room>, newId: string, now: int) returns (r: Result<Created, Error>)
      requires Valid() && IsObjectIdString(newId)
      modifies this, cache
      ensures Valid()
      ensures r == CreateOutcome(old(AllRows()), old(bookings.Keys), userId, roomId, checkIn, checkOut, rooms, newId, now)
      ensures r.Ok? ==> bookings == old(bookings)[newId := r.value.booking] && order == old(order) + [newId]
      ensures r.Ok? ==> cache.entries == if cache.reachable then old(cache.entries) - {UserBookingsKey(userId)} else old(cache.entries)
      ensures r.Err? ==> bookings == old(bookings) && order == old(order) && cache.entries == old(cache.entries)
      ensures cache.reachable == old(cache.reachable)
    {
      if roomId == "" || checkIn.None? || checkOut.None? {
        return Err(MissingFields);
      }
      // The lookup casts the id; a malformed one makes the query throw.
      if !IsValidObjectId(roomId) {
        return Err(InternalError);
      }
      if CastId(roomId) !in rooms {
        return Err(RoomNotFound);
      }
      var room := rooms[CastId(roomId)];
      if !room.available {
        return Err(RoomUnavailable);
      }
      var ci, co := checkIn.value, checkOut.value;
      if co <= ci {
        return Err(InvalidDateRange);
      }
      var conflict := CheckDateConflict(Rows(order, bookings), roomId, ci, co);
      if conflict.Some? {
        return Err(AlreadyBooked(conflict.value.checkIn, conflict.value.checkOut));
      }
      var nights := CalculateNights(ci, co);
      var totalPrice := nights * room.pricePerNight;
      var doc := NewBooking(BookingInput(Some(userId), Some(roomId), checkIn, checkOut, Some(totalPrice), None, Some(nights)), now);
      // Saving fails on a schema violation or on a duplicate id.
      if doc.Err? || newId in bookings {
        return Err(InternalError);
      }
      CreatePreservesNoDoubleBooking(order, bookings, userId, roomId, checkIn, checkOut, rooms, newId, now);
      bookings := bookings[newId := doc.value];
      order := order + [newId];
      cache.Delete(UserBookingsKey(userId));
      r := Ok(Created(doc.value, RoomDetails(room.hotelName, room.location, room.pricePerNight)));
    }

    /** `getBookingById`: reads only. */
    method GetBookingById(id: string, userId: string) returns (r: Result<Booking, Error>)
      ensures r == FindOwnBooking(bookings, id, userId)
      ensures r.Ok? ==> CastId(id) in bookings && r.value == bookings[CastId(id)] && r.value.user == userId
    {
      if !IsValidObjectId(id) {
        return Err(InvalidBookingId);
      }
      if CastId(id) !in bookings {
        return Err(BookingNotFound);
      }
      var booking := bookings[CastId(id)];
      if booking.user != userId {
        return Err(AccessDenied);
      }
      r := Ok(booking);
    }

    /** `cancelBooking`. */
    method CancelBooking(id: string, userId: string, now: int) returns (r: Result<Booking, Error>)
      requires Valid()
      modifies this, cache
      ensures Valid()
      ensures r == CancelOutcome(old(bookings), id, userId, now)
      ensures r.Ok? ==> bookings == old(bookings)[CastId(id) := r.value] && order == old(order)
      ensures r.Ok? ==> cache.entries == if cache.reachable then old(cache.entries) - {UserBookingsKey(userId)} else old(cache.entries)
      ensures r.Err? ==> bookings == old(bookings) && order == old(order) && cache.entries == old(cache.entries)
      ensures cache.reachable == old(cache.reachable)
      ensures r.Ok? && old(bookings)[CastId(id)].status == Booked ==>
        CheckDateConflict(AllRows(), r.value.room, r.value.checkIn, r.value.checkOut) == None
    {
      if !IsValidObjectId(id) {
        return Err(InvalidBookingId);
      }
      var key := CastId(id);
      if key !in bookings {
        return Err(BookingNotFound);
      }
      var booking := bookings[key];
      if booking.user != userId {
        return Err(AccessDenied);
      }
      if booking.status == Cancelled {
        return Err(AlreadyCancelled);
      }
      CancelPreservesStoreInvariant(order, bookings, id, userId, now);
      if booking.status == Booked {
        CancelFreesStay(order, bookings, id, userId, now);
      }
      booking := booking.(status := Cancelled, updatedAt := now);
      bookings := bookings[key := booking];
      cache.Delete(UserBookingsKey(userId));
      r := Ok(booking);
    }

    /** `getUserBookings`: the cached list on a hit; otherwise the caller's bookings from the
        store, which are then cached for 1800 seconds. */
    method GetUserBookings(userId: string, now: int) returns (list: seq<Booking>, fromCache: bool)
      requires Valid()
      modifies cache
      ensures cache.reachable == old(cache.reachable)
      ensures fromCache == old(cache.Lookup(UserBookingsKey(userId), now)).Some?
      ensures fromCache ==> list == old(cache.Lookup(UserBookingsKey(userId), now)).value && cache.entries == old(cache.entries)
      ensures !fromCache ==> list == OfUser(AllRows(), userId)
      ensures !fromCache && cache.reachable ==> cache.entries == old(cache.entries)[UserBookingsKey(userId) := Entry(list, now + ListTtlSeconds * 1000)]
      ensures !fromCache && !cache.reachable ==> cache.entries == old(cache.entries)
    {
      var key := UserBookingsKey(userId);
      var cached := cache.Get(key, now);
      if cached.Some? {
        return cached.value, true;
      }
      list := OfUser(Rows(order, bookings), userId);
      fromCache := false;
      cache.Set(key, list, now, ListTtlSeconds);
    }

    /** `getAllBookings`: the same read-through pattern under the key "bookings:all". */
    method GetAllBookings(now: int) returns (list: seq<Booking>, fromCache: bool)
      requires Valid()
      modifies cache
      ensures cache.reachable == old(cache.reachable)
      ensures fromCache == old(cache.Lookup(AllBookingsKey, now)).Some?
      ensures fromCache ==> list == old(cache.Lookup(AllBookingsKey, now)).value && cache.entries == old(cache.entries)
      ensures !fromCache ==> list == AllRows()
      ensures !fromCache && cache.reachable ==> cache.entries == old(cache.entries)[AllBookingsKey := Entry(list, now + ListTtlSeconds * 1000)]
      ensures !fromCache && !cache.reachable ==> cache.entries == old(cache.entries)
    {
      var cached := cache.Get(AllBookingsKey, now);
      if cached.Some? {
        return cached.value, true;
      }
      list := Rows(order, bookings);
      fromCache := false;
      cache.Set(AllBookingsKey, list, now, ListTtlSeconds);
    }
  }
}
