/** Client-side runs of the engine that only use the handlers' contracts: the adjoining-stays
    walk-through (a room at 100 per night over 10 to 15 January 2024) and the stale
    administrators' list. */
module BookingScenarios {
  import opened Wrappers
  import opened ObjectIds
  import opened Nights
  import opened BookingModel
  import opened RoomModel
  import opened DateConflict
  import opened CacheManager
  import opened BookingController

  const RoomR: string := "65a000000000000000000001"
  const UserA: string := "65a0000000000000000000a1"
  const UserB: string := "65a0000000000000000000b2"
  const UserC: string := "65a0000000000000000000c3"

  /** Midnight UTC of 10, 12, 13, 14 and 15 January 2024, in milliseconds. */
  const Jan10: int := 1704844800000
  const Jan12: int := Jan10 + 2 * MsPerDay
  const Jan13: int := Jan10 + 3 * MsPerDay
  const Jan14: int := Jan10 + 4 * MsPerDay
  const Jan15: int := Jan10 + 5 * MsPerDay

  /** The room's id and A's id are printed ObjectIds, which the casts leave as they are. */
  lemma RoomAndAAreFixed()
    ensures IsValidObjectId(RoomR) && CastId(RoomR) == RoomR
    ensures IsValidObjectId(UserA) && CastId(UserA) == UserA
  {
    assert IsObjectIdString(RoomR) && IsObjectIdString(UserA);
    PrintedIdIsFixed(RoomR);
    PrintedIdIsFixed(UserA);
  }

  lemma BAndCAreFixed()
    ensures IsValidObjectId(UserB) && CastId(UserB) == UserB
    ensures IsValidObjectId(UserC) && CastId(UserC) == UserC
  {
    assert IsObjectIdString(UserB) && IsObjectIdString(UserC);
    PrintedIdIsFixed(UserB);
    PrintedIdIsFixed(UserC);
  }

  /** The ids the store gives the documents created below. */
  const IdA: string := "65b000000000000000000001"
  const IdB: string := "65b000000000000000000002"
  const IdC: string := "65b000000000000000000003"
  const IdD: string := "65b000000000000000000004"
  const IdE: string := "65b000000000000000000005"

  /** A's booking id is a printed ObjectId, so the lookups find it as it is spelled. */
  lemma IdAIsFixed()
    ensures IsObjectIdString(IdA) && IsValidObjectId(IdA) && CastId(IdA) == IdA
  {
    PrintedIdIsFixed(IdA);
  }

  lemma FirstIdsArePrinted()
    ensures IsObjectIdString(IdB) && IsObjectIdString(IdC)
  {
  }

  lemma LaterIdsArePrinted()
    ensures IsObjectIdString(IdD) && IsObjectIdString(IdE)
  {
  }

  /** The bookings of A (10 to 13) and C (13 to 15) as the engine stores them. */
  const BookingA: Booking := Booking(UserA, RoomR, Jan10, Jan13, 300, Booked, Some(3), 1, 1)
  const BookingC: Booking := Booking(UserC, RoomR, Jan13, Jan15, 200, Booked, Some(2), 3, 3)

  function ScenarioRooms(): map<string, Room> {
    map[RoomR := Room("Sea View", "goa", 100, true, None, [], UserA, 0, 0)]
  }

  /** A books 10 to 13: three nights at 100. */
  method BookFirstStay() returns (engine: BookingEngine)
    ensures fresh(engine) && fresh(engine.cache)
    ensures engine.Valid() && engine.cache.reachable
    ensures engine.bookings == map[IdA := BookingA] && engine.order == [IdA]
  {
    RoomAndAAreFixed();
    IdAIsFixed();
    var cache := new Cache<seq<Booking>>(true);
    engine := new BookingEngine(cache);
    ExactDays(Jan10, 3);
    var r := engine.CreateBooking(UserA, RoomR, Some(Jan10), Some(Jan13), ScenarioRooms(), IdA, 1);
    assert r == Ok(Created(BookingA, RoomDetails("Sea View", "goa", 100)));
  }

  /** B asks for 12 to 14: refused, with A's stay as the blocking one. */
  method RefuseOverlappingStay(engine: BookingEngine)
    requires engine.Valid() && engine.cache.reachable
    requires engine.bookings == map[IdA := BookingA] && engine.order == [IdA]
    modifies engine, engine.cache
    ensures engine.Valid() && engine.cache.reachable
    ensures engine.bookings == map[IdA := BookingA] && engine.order == [IdA]
  {
    RoomAndAAreFixed();
    FirstIdsArePrinted();
    var r := engine.CreateBooking(UserB, RoomR, Some(Jan12), Some(Jan14), ScenarioRooms(), IdB, 2);
    assert r == Err(AlreadyBooked(Jan10, Jan13));
  }

  /** C books 13 to 15: touching A's stay is allowed. */
  method BookAdjoiningStay(engine: BookingEngine)
    requires engine.Valid() && engine.cache.reachable
    requires engine.bookings == map[IdA := BookingA] && engine.order == [IdA]
    modifies engine, engine.cache
    ensures engine.Valid() && engine.cache.reachable
    ensures engine.bookings == map[IdA := BookingA, IdC := BookingC] && engine.order == [IdA, IdC]
  {
    RoomAndAAreFixed();
    BAndCAreFixed();
    FirstIdsArePrinted();
    ExactDays(Jan13, 2);
    var r := engine.CreateBooking(UserC, RoomR, Some(Jan13), Some(Jan15), ScenarioRooms(), IdC, 3);
    assert r.Ok? && r.value.booking == BookingC;
  }

  /** B can neither read A's booking nor cancel it. */
  method OthersAreRefused(engine: BookingEngine)
    requires engine.Valid() && engine.cache.reachable
    requires engine.bookings == map[IdA := BookingA, IdC := BookingC] && engine.order == [IdA, IdC]
    modifies engine, engine.cache
    ensures engine.Valid() && engine.cache.reachable
    ensures engine.bookings == map[IdA := BookingA, IdC := BookingC] && engine.order == [IdA, IdC]
  {
    IdAIsFixed();
    var g := engine.GetBookingById(IdA, UserB);
    assert g == Err(AccessDenied);
    var d := engine.CancelBooking(IdA, UserB, 4);
    assert d == Err(AccessDenied);
  }

  /** A cancels the booking. */
  method CancelOnce(engine: BookingEngine)
    requires engine.Valid() && engine.cache.reachable
    requires engine.bookings == map[IdA := BookingA, IdC := BookingC] && engine.order == [IdA, IdC]
    modifies engine, engine.cache
    ensures engine.Valid() && engine.cache.reachable
    ensures engine.bookings == map[IdA := BookingA.(status := Cancelled, updatedAt := 4), IdC := BookingC]
    ensures engine.order == [IdA, IdC]
  {
    IdAIsFixed();
    assert FindOwnBooking(engine.bookings, IdA, UserA) == Ok(BookingA);
    assert CancelOutcome(engine.bookings, IdA, UserA, 4) == Ok(BookingA.(status := Cancelled, updatedAt := 4));
    var r := engine.CancelBooking(IdA, UserA, 4);
  }

  /** A second cancellation is refused and changes nothing. */
  method CancelTwiceRefused(engine: BookingEngine)
    requires engine.Valid() && engine.cache.reachable
    requires engine.bookings == map[IdA := BookingA.(status := Cancelled, updatedAt := 4), IdC := BookingC]
    requires engine.order == [IdA, IdC]
    modifies engine, engine.cache
    ensures engine.Valid() && engine.cache.reachable
    ensures engine.bookings == map[IdA := BookingA.(status := Cancelled, updatedAt := 4), IdC := BookingC]
    ensures engine.order == [IdA, IdC]
  {
    IdAIsFixed();
    assert CancelOutcome(engine.bookings, IdA, UserA, 5) == Err(AlreadyCancelled);
    var r := engine.CancelBooking(IdA, UserA, 5);
  }

  /** With A's booking cancelled and C holding 13 to 15, B's request for 10 to 13 passes
      every check of the createBooking ladder. */
  lemma RebookSucceeds(keys: set<string>)
    requires IdD !in keys
    ensures CreateOutcome([BookingA.(status := Cancelled, updatedAt := 4), BookingC], keys,
                          UserB, RoomR, Some(Jan10), Some(Jan13), ScenarioRooms(), IdD, 6).Ok?
  {
    RoomAndAAreFixed();
    BAndCAreFixed();
    LaterIdsArePrinted();
    ExactDays(Jan10, 3);
    assert CheckDateConflict([BookingA.(status := Cancelled, updatedAt := 4), BookingC], RoomR, Jan10, Jan13) == None;
  }

  /** After the cancellation B can book 10 to 13: C's stay only touches it. */
  method RebookFreedStay(engine: BookingEngine)
    requires engine.Valid() && engine.cache.reachable
    requires engine.bookings == map[IdA := BookingA.(status := Cancelled, updatedAt := 4), IdC := BookingC]
    requires engine.order == [IdA, IdC]
    modifies engine, engine.cache
    ensures engine.Valid() && engine.cache.reachable
    ensures engine.order == [IdA, IdC, IdD]
  {
    LaterIdsArePrinted();
    assert engine.AllRows() == [BookingA.(status := Cancelled, updatedAt := 4), BookingC];
    RebookSucceeds(engine.bookings.Keys);
    var r := engine.CreateBooking(UserB, RoomR, Some(Jan10), Some(Jan13), ScenarioRooms(), IdD, 6);
    assert r.Ok?;
  }

  /** A stay that ends when it starts is refused whatever the store holds. */
  method RefuseEmptyStay(engine: BookingEngine)
    requires engine.Valid() && engine.cache.reachable
    modifies engine, engine.cache
  {
    RoomAndAAreFixed();
    BAndCAreFixed();
    LaterIdsArePrinted();
    var r := engine.CreateBooking(UserB, RoomR, Some(Jan10), Some(Jan10), ScenarioRooms(), IdE, 7);
    assert r == Err(InvalidDateRange);
  }

  method AdjoiningStaysWalkThrough() {
    var engine := BookFirstStay();
    RefuseOverlappingStay(engine);
    BookAdjoiningStay(engine);
    OthersAreRefused(engine);
    CancelOnce(engine);
    CancelTwiceRefused(engine);
    RebookFreedStay(engine);
    RefuseEmptyStay(engine);
  }

  /** An engine holding no bookings, whose administrators' list and A's list are both
      cached empty at time 0. */
  method CacheEmptyLists() returns (engine: BookingEngine)
    ensures fresh(engine) && fresh(engine.cache)
    ensures engine.Valid() && engine.cache.reachable && engine.bookings == map[]
    ensures engine.cache.Lookup(AllBookingsKey, 2) == Some([])
  {
    var cache := new Cache<seq<Booking>>(true);
    engine := new BookingEngine(cache);
    var all, _ := engine.GetAllBookings(0);
    assert all == [];
    var mine, _ := engine.GetUserBookings(UserA, 0);
    UserKeysAreNotTheAllKey(UserA);
  }

  /** A creates a booking: A's cached list is dropped, the administrators' list is not. */
  method CreateKeepsAdminListCached(engine: BookingEngine) returns (b: Booking)
    requires engine.Valid() && engine.cache.reachable && engine.bookings == map[]
    requires engine.cache.Lookup(AllBookingsKey, 2) == Some([])
    modifies engine, engine.cache
    ensures engine.Valid() && engine.cache.reachable
    ensures engine.cache.Lookup(AllBookingsKey, 2) == Some([])
    ensures engine.cache.Lookup(UserBookingsKey(UserA), 2) == None
    ensures b in engine.AllRows() && b.user == UserA
  {
    RoomAndAAreFixed();
    IdAIsFixed();
    ExactDays(Jan10, 3);
    assert engine.AllRows() == [];
    var r := engine.CreateBooking(UserA, RoomR, Some(Jan10), Some(Jan13), ScenarioRooms(), IdA, 1);
    assert r.Ok?;
    UserKeysAreNotTheAllKey(UserA);
    b := r.value.booking;
    assert engine.AllRows() == [b];
  }

  /** Creating a booking clears the creator's list but not the administrators' list, which
      keeps answering from the cache without the new booking until it expires. */
  method StaleAdministratorsList() {
    var engine := CacheEmptyLists();
    var b := CreateKeepsAdminListCached(engine);
    UserKeysAreNotTheAllKey(UserA);
    var adminEntry := engine.cache.entries[AllBookingsKey];
    var mine, hit := engine.GetUserBookings(UserA, 2);
    assert !hit && b in mine;
    assert engine.cache.entries[AllBookingsKey] == adminEntry;
    var after, fromCache := engine.GetAllBookings(2);
    assert fromCache && after == [] && b !in after;
  }
}
