/** The Booking schema: the record, its status enum and default, its required fields and validators. */
module BookingModel {
  import opened Wrappers
  import opened ObjectIds

  /** The `status` enum. */
  datatype Status = Booked | Cancelled | Completed

  function StatusName(s: Status): string {
    match s
    case Booked => "booked"
    case Cancelled => "cancelled"
    case Completed => "completed"
  }

  /** Casting a string to the enum: anything outside the three names is refused. */
  function ParseStatus(s: string): Option<Status> {
    if s == "booked" then Some(Booked)
    else if s == "cancelled" then Some(Cancelled)
    else if s == "completed" then Some(Completed)
    else None
  }

  /** The enum accepts exactly the three names, each for its own status. */
  lemma ParseStatusExact(s: string, st: Status)
    ensures ParseStatus(s) == Some(st) <==> s == StatusName(st)
  {
  }

  /** A stored booking. Instants are millisecond timestamps, prices whole currency units.
      The creation instant keeps the schema's own spelling, `cratedAt`. */
  datatype Booking = Booking(
    user: string,
    room: string,
    checkIn: int,
    checkOut: int,
    totalPrice: int,
    status: Status,
    numberOfNights: Option<int>,
    cratedAt: int,
    updatedAt: int)

  /** What every stored booking satisfies: references held as ObjectIds (so printed in
      lower case), check-out strictly after check-in and a non-negative total price. */
  predicate BookingValid(b: Booking) {
    && IsObjectIdString(b.user)
    && IsObjectIdString(b.room)
    && b.checkOut > b.checkIn
    && b.totalPrice >= 0
  }

  /** The fields a new booking document is built from; `None` is an absent field. */
  datatype BookingInput = BookingInput(
    user: Option<string>,
    room: Option<string>,
    checkIn: Option<int>,
    checkOut: Option<int>,
    totalPrice: Option<int>,
    status: Option<string>,
    numberOfNights: Option<int>)

  /** The schema paths a validation error can name. */
  datatype BookingPath = UserPath | RoomPath | CheckInPath | CheckOutPath | TotalPricePath | StatusPath

  /** The paths whose validator fails. The check-out validator compares with check-in,
      so it also fails when check-in is absent. `numberOfNights` has no validator. */
  function BookingErrors(inp: BookingInput): set<BookingPath> {
    (if inp.user.None? || !IsValidObjectId(inp.user.value) then {UserPath} else {})
    + (if inp.room.None? || !IsValidObjectId(inp.room.value) then {RoomPath} else {})
    + (if inp.checkIn.None? then {CheckInPath} else {})
    + (if inp.checkOut.None? || inp.checkIn.None? || inp.checkOut.value <= inp.checkIn.value
       then {CheckOutPath} else {})
    + (if inp.totalPrice.None? || inp.totalPrice.value < 0 then {TotalPricePath} else {})
    + (if inp.status.Some? && ParseStatus(inp.status.value).None? then {StatusPath} else {})
  }

  /** `new Booking(fields)` followed by validation on save: the references cast to
      ObjectIds, defaults applied (status "booked", both timestamps `now`), then either the
      document or the failing paths. */
  function NewBooking(inp: BookingInput, now: int): (r: Result<Booking, set<BookingPath>>)
    ensures r.Ok? <==> BookingErrors(inp) == {}
    ensures r.Err? ==> r.error == BookingErrors(inp)
    ensures r.Ok? ==> BookingValid(r.value)
    ensures r.Ok? ==> r.value.user == CastId(inp.user.value) && r.value.room == CastId(inp.room.value)
    ensures r.Ok? ==> r.value.checkIn == inp.checkIn.value && r.value.checkOut == inp.checkOut.value
    ensures r.Ok? ==> r.value.totalPrice == inp.totalPrice.value
    ensures r.Ok? ==> r.value.status == (if inp.status.None? then Booked else ParseStatus(inp.status.value).value)
    ensures r.Ok? ==> r.value.cratedAt == now && r.value.updatedAt == now
    ensures r.Ok? ==> r.value.numberOfNights == inp.numberOfNights
  {
    var errs := BookingErrors(inp);
    if errs != {} then Err(errs)
    else
      assert UserPath !in errs && RoomPath !in errs && CheckInPath !in errs;
      assert CheckOutPath !in errs && TotalPricePath !in errs && StatusPath !in errs;
      Ok(Booking(
        CastId(inp.user.value), CastId(inp.room.value), inp.checkIn.value, inp.checkOut.value, inp.totalPrice.value,
        if inp.status.None? then Booked else ParseStatus(inp.status.value).value,
        inp.numberOfNights, now, now))
  }

  /** The document fields of a stored booking. */
  function InputOf(b: Booking): BookingInput {
    BookingInput(Some(b.user), Some(b.room), Some(b.checkIn), Some(b.checkOut), Some(b.totalPrice),
      Some(StatusName(b.status)), b.numberOfNights)
  }

  /** The validators accept a booking's fields exactly when the booking with its references
      cast is valid; a valid booking passes them, and rebuilding it from its fields gives it back. */
  lemma ValidatorsMatchValidity(b: Booking)
    ensures BookingErrors(InputOf(b)) == {} <==> BookingValid(b.(user := CastId(b.user), room := CastId(b.room)))
    ensures BookingValid(b) ==> BookingErrors(InputOf(b)) == {}
    ensures BookingValid(b) && b.cratedAt == b.updatedAt ==> NewBooking(InputOf(b), b.cratedAt) == Ok(b)
  {
    var inp := InputOf(b);
    ParseStatusExact(StatusName(b.status), b.status);
    CastKeepsValidity(b.user);
    CastKeepsValidity(b.room);
    if BookingValid(b) {
      PrintedIdIsFixed(b.user);
      PrintedIdIsFixed(b.room);
    }
    if BookingErrors(inp) == {} {
      assert UserPath !in BookingErrors(inp) && RoomPath !in BookingErrors(inp);
      assert CheckOutPath !in BookingErrors(inp) && TotalPricePath !in BookingErrors(inp);
    }
  }
}
