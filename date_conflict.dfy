/** `checkDateConflict`: the first active booking of a room whose stay overlaps a requested one. */
module DateConflict {
  import opened Wrappers
  import opened ObjectIds
  import opened BookingModel

  /** Half-open overlap of `[aIn, aOut)` and `[bIn, bOut)`, written as the query writes it:
      the existing stay starts before the requested check-out and ends after the requested check-in. */
  predicate Overlaps(aIn: int, aOut: int, bIn: int, bOut: int) {
    aIn < bOut && aOut > bIn
  }

  /** The query's filter: same room (the filter casts `roomId` to an ObjectId, so any spelling
      of the room's id matches), status "booked", overlapping stay. */
  predicate Conflicts(b: Booking, roomId: string, checkIn: int, checkOut: int) {
    b.room == CastId(roomId) && b.status == Booked && Overlaps(b.checkIn, b.checkOut, checkIn, checkOut)
  }

  /** The first booking of `bookings` (in the store's scan order) that passes the filter,
      or `None` when no booking does. */
  function CheckDateConflict(bookings: seq<Booking>, roomId: string, checkIn: int, checkOut: int): (r: Option<Booking>)
    ensures r.None? <==> forall b :: b in bookings ==> !Conflicts(b, roomId, checkIn, checkOut)
    ensures r.Some? ==>
      exists i :: (0 <= i < |bookings| && bookings[i] == r.value
        && Conflicts(r.value, roomId, checkIn, checkOut)
        && forall j :: 0 <= j < i ==> !Conflicts(bookings[j], roomId, checkIn, checkOut))
  {
    if |bookings| == 0 then None
    else if Conflicts(bookings[0], roomId, checkIn, checkOut) then Some(bookings[0])
    else
      var r := CheckDateConflict(bookings[1..], roomId, checkIn, checkOut);
      assert forall b :: b in bookings ==> b == bookings[0] || b in bookings[1..];
      if r.Some? then
        ghost var i :| 0 <= i < |bookings[1..]| && bookings[1..][i] == r.value
          && Conflicts(r.value, roomId, checkIn, checkOut)
          && forall j :: 0 <= j < i ==> !Conflicts(bookings[1..][j], roomId, checkIn, checkOut);
        assert bookings[i + 1] == r.value;
        r
      else r
  }

  /** Swapping the existing and the requested stay does not change the answer. */
  lemma OverlapSymmetric(aIn: int, aOut: int, bIn: int, bOut: int)
    ensures Overlaps(aIn, aOut, bIn, bOut) == Overlaps(bIn, bOut, aIn, aOut)
  {
  }

  /** Stays that only touch at an endpoint (one's check-out is the other's check-in) never conflict. */
  lemma TouchingStaysDoNotOverlap(aIn: int, aOut: int, bIn: int, bOut: int)
    requires aOut == bIn || bOut == aIn
    ensures !Overlaps(aIn, aOut, bIn, bOut)
  {
  }

  /** A cancelled or completed booking, or one of another room, is never reported, whatever its dates. */
  lemma OnlyActiveBookingsOfTheRoom(bookings: seq<Booking>, roomId: string, checkIn: int, checkOut: int)
    requires forall b :: b in bookings ==> b.room != CastId(roomId) || b.status != Booked
    ensures CheckDateConflict(bookings, roomId, checkIn, checkOut) == None
  {
  }

  /** The filter sees the ObjectId, not its spelling: ids that cast alike find the same conflict. */
  lemma {:induction false} SpellingDoesNotMatter(bookings: seq<Booking>, a: string, b: string, checkIn: int, checkOut: int)
    requires CastId(a) == CastId(b)
    ensures CheckDateConflict(bookings, a, checkIn, checkOut) == CheckDateConflict(bookings, b, checkIn, checkOut)
  {
    if |bookings| > 0 {
      SpellingDoesNotMatter(bookings[1..], a, b, checkIn, checkOut);
    }
  }
}
