/** The Room schema: required fields, defaults, bounds, the image URL shape and the
    trim/lower-case setters. */
module RoomModel {
  import opened Wrappers
  import opened JsText
  import opened ObjectIds

  const MaxDescriptionLength: int := 1000

  /** `/^https?:\/\/.+/`: "http://" or "https://" and then one character that is not a line
      terminator. The pattern is not anchored at the end, so what follows is not examined. */
  predicate IsImageUrl(u: string) {
    || (|u| > 7 && u[..7] == "http://" && !IsLineTerminator(u[7]))
    || (|u| > 8 && u[..8] == "https://" && !IsLineTerminator(u[8]))
  }

  /** A stored room. */
  datatype Room = Room(
    hotelName: string,
    location: string,
    pricePerNight: int,
    available: bool,
    description: Option<string>,
    images: seq<string>,
    createdBy: string,
    createdAt: int,
    updatedAt: int)

  /** What the schema's validators guarantee of a stored room. */
  predicate RoomValid(r: Room) {
    && r.hotelName != ""
    && r.location != ""
    && r.pricePerNight >= 0
    && (r.description.Some? ==> |r.description.value| <= MaxDescriptionLength)
    && (forall i :: 0 <= i < |r.images| ==> IsImageUrl(r.images[i]))
    && IsObjectIdString(r.createdBy)
  }

  /** What the setters guarantee of a stored room: a trimmed hotel name and a trimmed,
      lower-case location. */
  predicate RoomNormalized(r: Room) {
    && IsTrimmed(r.hotelName)
    && IsTrimmed(r.location)
    && LowerCase(r.location) == r.location
  }

  /** The fields a new room document is built from; `None` is an absent field. */
  datatype RoomInput = RoomInput(
    hotelName: Option<string>,
    location: Option<string>,
    pricePerNight: Option<int>,
    available: Option<bool>,
    description: Option<string>,
    images: seq<string>,
    createdBy: Option<string>)

  datatype RoomPath = HotelNamePath | LocationPath | PricePath | DescriptionPath | ImagesPath | CreatedByPath

  /** The `location` setters: lower-case, then trim. */
  function NormalizeLocation(s: string): string {
    Trim(LowerCase(s))
  }

  /** The paths whose validator fails, judged on the values after the setters ran: a
      required string is missing when it is absent or empty. */
  function RoomErrors(inp: RoomInput): set<RoomPath> {
    (if inp.hotelName.None? || Trim(inp.hotelName.value) == "" then {HotelNamePath} else {})
    + (if inp.location.None? || NormalizeLocation(inp.location.value) == "" then {LocationPath} else {})
    + (if inp.pricePerNight.None? || inp.pricePerNight.value < 0 then {PricePath} else {})
    + (if inp.description.Some? && |inp.description.value| > MaxDescriptionLength then {DescriptionPath} else {})
    + (if exists i :: 0 <= i < |inp.images| && !IsImageUrl(inp.images[i]) then {ImagesPath} else {})
    + (if inp.createdBy.None? || !IsValidObjectId(inp.createdBy.value) then {CreatedByPath} else {})
  }

  /** A normalised location is trimmed and already lower-case. */
  lemma NormalizedLocationIsCanonical(s: string)
    ensures IsTrimmed(NormalizeLocation(s))
    ensures LowerCase(NormalizeLocation(s)) == NormalizeLocation(s)
    ensures NormalizeLocation(NormalizeLocation(s)) == NormalizeLocation(s)
  {
    TrimIsMiddle(LowerCase(s));
    LowerCaseTrimCommute(s);
    LowerCaseIdempotent(Trim(s));
    TrimIdempotent(LowerCase(s));
  }

  /** `new Room(fields)` followed by validation on save: setters, the default
      `available: true`, both timestamps `now`, then either the document or the failing paths. */
  function NewRoom(inp: RoomInput, now: int): (r: Result<Room, set<RoomPath>>)
    ensures r.Ok? <==> RoomErrors(inp) == {}
    ensures r.Err? ==> r.error == RoomErrors(inp)
    ensures r.Ok? ==> RoomValid(r.value) && RoomNormalized(r.value)
    ensures r.Ok? ==> r.value.available == (inp.available.None? || inp.available.value)
    ensures r.Ok? ==> r.value.hotelName == Trim(inp.hotelName.value)
    ensures r.Ok? ==> r.value.location == NormalizeLocation(inp.location.value)
    ensures r.Ok? ==> r.value.pricePerNight == inp.pricePerNight.value && r.value.images == inp.images
    ensures r.Ok? ==> r.value.createdBy == CastId(inp.createdBy.value)
  {
    var errs := RoomErrors(inp);
    if errs != {} then Err(errs)
    else
      assert HotelNamePath !in errs && LocationPath !in errs && PricePath !in errs;
      assert DescriptionPath !in errs && ImagesPath !in errs && CreatedByPath !in errs;
      TrimIsMiddle(inp.hotelName.value);
      NormalizedLocationIsCanonical(inp.location.value);
      Ok(Room(
        Trim(inp.hotelName.value), NormalizeLocation(inp.location.value), inp.pricePerNight.value,
        if inp.available.None? then true else inp.available.value,
        inp.description, inp.images, CastId(inp.createdBy.value), now, now))
  }

  /** Which strings the image validator accepts and refuses. */
  lemma ImageUrlExamples()
    ensures IsImageUrl("http://x") && IsImageUrl("https://example.com/a.png")
    ensures !IsImageUrl("http://") && !IsImageUrl("ftp://x") && !IsImageUrl("https:/x")
    ensures !IsImageUrl("http://\nx")
  {
    assert "http://x"[..7] == "http://";
    assert "https://example.com/a.png"[..8] == "https://";
    assert "https:/x"[..7][4] != "http://"[4];
  }
}
