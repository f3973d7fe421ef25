/**
 What each route handler decides, as functions of the tables it reads, and
 the properties of those decisions. The store class applies them.
 */
module Decisions {
  import opened Crypto
  import opened Records
  import opened Clash

  // ---------------------------------------------------------------------------
  // POST /bookings: the payload is saved as it is, after the schema's checks.

  /** The schema's `required` check on a string: present and not empty. */
  predicate RequiredText(s: Option<string>)
  {
    s.Some? && s.value != ""
  }

  /** Every field the booking schema marks as required is supplied. */
  predicate HasRequiredFields(p: BookingPayload)
  {
    && RequiredText(p.userEmail)
    && RequiredText(p.userName)
    && RequiredText(p.roomNumber)
    && p.startTime.Some?
    && p.endTime.Some?
    && p.price.Some?
  }

  /** The payload that carries exactly the fields of a stored booking. */
  function AsPayload(b: Booking): BookingPayload
  {
    BookingPayload(Some(b.userEmail), Some(b.userName), Some(b.roomNumber),
                   Some(b.startTime), Some(b.endTime), Some(b.price), b.paymentType, b.tip)
  }

  /** The document a payload becomes, or None when the schema rejects it. */
  function ToBooking(p: BookingPayload): (r: Option<Booking>)
    ensures r.Some? <==> HasRequiredFields(p)
    ensures r.Some? ==> AsPayload(r.value) == p
  {
    if HasRequiredFields(p) then
      Some(Booking(p.userEmail.value, p.userName.value, p.roomNumber.value,
                   p.startTime.value, p.endTime.value, p.price.value, p.paymentType, p.tip))
    else
      None
  }

  /** A booking whose text fields are not empty is stored back unchanged from its own payload. */
  lemma ToBookingOfAsPayload(b: Booking)
    requires b.userEmail != "" && b.userName != "" && b.roomNumber != ""
    ensures ToBooking(AsPayload(b)) == Some(b)
  {
  }

  // ---------------------------------------------------------------------------
  // PUT /bookings/:id: look the booking up, count the clashes, look the room up,
  // then set the supplied fields.

  function Pick<T>(supplied: Option<T>, current: T): T
  {
    if supplied.Some? then supplied.value else current
  }

  function PickOptional<T>(supplied: Option<T>, current: Option<T>): Option<T>
  {
    if supplied.Some? then supplied else current
  }

  /** `$set` of the update payload on a stored booking: the room and range stored are the ones the handler checked. */
  function Merge(b: Booking, u: BookingUpdate): (r: Booking)
    ensures r.roomNumber == u.roomNumber && r.startTime == u.startTime && r.endTime == u.endTime
  {
    Booking(Pick(u.userEmail, b.userEmail), Pick(u.userName, b.userName),
            u.roomNumber, u.startTime, u.endTime,
            Pick(u.price, b.price), PickOptional(u.paymentType, b.paymentType), PickOptional(u.tip, b.tip))
  }

  /** An update payload that restates a booking's room and range and supplies nothing else. */
  function SameRange(b: Booking): BookingUpdate
  {
    BookingUpdate(b.roomNumber, b.startTime, b.endTime, None, None, None, None, None)
  }

  /** The handler's chain of checks, in the order the source makes them. */
  function UpdateOutcome(bookings: map<BookingId, Booking>, rooms: seq<Room>, id: BookingId, u: BookingUpdate): (r: Outcome)
    ensures id !in bookings ==> r == Fail(BookingNotFound)
    ensures id in bookings && |ClashIds(bookings, u.roomNumber, u.startTime, u.endTime)| > 1 ==> r == Fail(RoomAlreadyBooked)
    ensures r == Fail(RoomDoesNotExist) <==>
      id in bookings && |ClashIds(bookings, u.roomNumber, u.startTime, u.endTime)| <= 1 && FindRoom(rooms, u.roomNumber).None?
    ensures r == Pass <==>
      id in bookings && |ClashIds(bookings, u.roomNumber, u.startTime, u.endTime)| <= 1 && FindRoom(rooms, u.roomNumber).Some?
  {
    if id !in bookings then Fail(BookingNotFound)
    else if |ClashIds(bookings, u.roomNumber, u.startTime, u.endTime)| > 1 then Fail(RoomAlreadyBooked)
    else if FindRoom(rooms, u.roomNumber).None? then Fail(RoomDoesNotExist)
    else Pass
  }

  /** The bookings table after the handler has run. */
  function AfterUpdate(bookings: map<BookingId, Booking>, rooms: seq<Room>, id: BookingId, u: BookingUpdate): (r: map<BookingId, Booking>)
    ensures r.Keys == bookings.Keys
    ensures UpdateOutcome(bookings, rooms, id, u) != Pass ==> r == bookings
  {
    if UpdateOutcome(bookings, rooms, id, u) == Pass then bookings[id := Merge(bookings[id], u)] else bookings
  }

  /** The payload's room and range replace the stored ones; every other field takes the payload's value when supplied and is kept otherwise. */
  lemma MergeSetsOnlySuppliedFields(b: Booking, u: BookingUpdate)
    ensures Merge(b, u).roomNumber == u.roomNumber
    ensures Merge(b, u).startTime == u.startTime && Merge(b, u).endTime == u.endTime
    ensures u.userEmail.Some? ==> Merge(b, u).userEmail == u.userEmail.value
    ensures u.userName.Some? ==> Merge(b, u).userName == u.userName.value
    ensures u.price.Some? ==> Merge(b, u).price == u.price.value
    ensures u.paymentType.Some? ==> Merge(b, u).paymentType == u.paymentType
    ensures u.tip.Some? ==> Merge(b, u).tip == u.tip
    ensures u.userEmail.None? ==> Merge(b, u).userEmail == b.userEmail
    ensures u.userName.None? ==> Merge(b, u).userName == b.userName
    ensures u.price.None? ==> Merge(b, u).price == b.price
    ensures u.paymentType.None? ==> Merge(b, u).paymentType == b.paymentType
    ensures u.tip.None? ==> Merge(b, u).tip == b.tip
  {
  }

  /** Setting the same fields twice is setting them once. */
  lemma MergeIdempotent(b: Booking, u: BookingUpdate)
    ensures Merge(Merge(b, u), u) == Merge(b, u)
  {
  }

  /** Restating a booking's own room and range, with nothing else, leaves it as it was. */
  lemma MergeSameRangeIsIdentity(b: Booking)
    ensures Merge(b, SameRange(b)) == b
  {
  }

  /** An unknown id answers "Booking not found" and leaves the table as it was. */
  lemma UpdateUnknownIdNotFound(bookings: map<BookingId, Booking>, rooms: seq<Room>, id: BookingId, u: BookingUpdate)
    requires id !in bookings
    ensures UpdateOutcome(bookings, rooms, id, u) == Fail(BookingNotFound)
    ensures AfterUpdate(bookings, rooms, id, u) == bookings
  {
  }

  /**
   For a stored booking, "Room is already booked" is the answer exactly when two
   distinct bookings clash with the new range; the booking itself may be one of them.
   */
  lemma UpdateRejectsIffTwoClash(bookings: map<BookingId, Booking>, rooms: seq<Room>, id: BookingId, u: BookingUpdate)
    requires id in bookings
    ensures UpdateOutcome(bookings, rooms, id, u) == Fail(RoomAlreadyBooked) <==>
      exists i, j :: i in bookings && j in bookings && i != j &&
        Clashes(bookings[i], u.roomNumber, u.startTime, u.endTime) && Clashes(bookings[j], u.roomNumber, u.startTime, u.endTime)
  {
    ClashCountAboveOneIffTwoClash(bookings, u.roomNumber, u.startTime, u.endTime);
  }

  /** The clash check comes first: with a missing room and two clashes the answer is still "already booked". */
  lemma ClashCheckPrecedesRoomCheck(bookings: map<BookingId, Booking>, rooms: seq<Room>, id: BookingId, u: BookingUpdate)
    requires id in bookings
    requires |ClashIds(bookings, u.roomNumber, u.startTime, u.endTime)| > 1
    requires FindRoom(rooms, u.roomNumber).None?
    ensures UpdateOutcome(bookings, rooms, id, u) == Fail(RoomAlreadyBooked)
  {
  }

  /**
   A booking whose own stored range does not clash may be moved onto a range
   that clashes with exactly one other booking: the update is accepted and the
   table then holds two overlapping bookings on one room.
   */
  lemma SingleOtherClashTolerated(bookings: map<BookingId, Booking>, rooms: seq<Room>, id: BookingId, other: BookingId, u: BookingUpdate)
    requires id in bookings && other in bookings && other != id
    requires Clashes(bookings[other], u.roomNumber, u.startTime, u.endTime)
    requires forall k :: k in bookings && k != other ==> !Clashes(bookings[k], u.roomNumber, u.startTime, u.endTime)
    requires FindRoom(rooms, u.roomNumber).Some?
    ensures UpdateOutcome(bookings, rooms, id, u) == Pass
    ensures !NoOverlap(AfterUpdate(bookings, rooms, id, u))
  {
    var ids := ClashIds(bookings, u.roomNumber, u.startTime, u.endTime);
    AtMostSelf(ids, other);
    var after := AfterUpdate(bookings, rooms, id, u);
    assert after[id] == Merge(bookings[id], u);
    assert Clashes(after[other], after[id].roomNumber, after[id].startTime, after[id].endTime);
  }

  /**
   Updating a booking to its own room and range is accepted when no other
   booking clashes with it: it is counted once among the clashes, and once is tolerated.
   */
  lemma SameRangeAccepted(bookings: map<BookingId, Booking>, rooms: seq<Room>, id: BookingId, u: BookingUpdate)
    requires id in bookings
    requires u.roomNumber == bookings[id].roomNumber
    requires u.startTime == bookings[id].startTime && u.endTime == bookings[id].endTime
    requires forall k :: k in bookings && k != id ==> !Clashes(bookings[k], u.roomNumber, u.startTime, u.endTime)
    requires FindRoom(rooms, u.roomNumber).Some?
    ensures UpdateOutcome(bookings, rooms, id, u) == Pass
  {
    AtMostSelf(ClashIds(bookings, u.roomNumber, u.startTime, u.endTime), id);
  }

  /** A booking that clashes with its own new range and one other booking is rejected, whether or not the room exists. */
  lemma SelfAndOtherClashRejected(bookings: map<BookingId, Booking>, rooms: seq<Room>, id: BookingId, other: BookingId, u: BookingUpdate)
    requires id in bookings && other in bookings && other != id
    requires Clashes(bookings[id], u.roomNumber, u.startTime, u.endTime)
    requires Clashes(bookings[other], u.roomNumber, u.startTime, u.endTime)
    ensures UpdateOutcome(bookings, rooms, id, u) == Fail(RoomAlreadyBooked)
  {
    AtLeastTwo(ClashIds(bookings, u.roomNumber, u.startTime, u.endTime), id, other);
  }

  /**
   An accepted update clashes with at most one booking other than itself, and
   with none when its stored range already clashed with the new one.
   */
  lemma AcceptedUpdateClashesAtMostOneOther(bookings: map<BookingId, Booking>, rooms: seq<Room>, id: BookingId, u: BookingUpdate)
    requires UpdateOutcome(bookings, rooms, id, u) == Pass
    ensures id in bookings
    ensures |ClashIds(bookings, u.roomNumber, u.startTime, u.endTime) - {id}| <= 1
    ensures Clashes(bookings[id], u.roomNumber, u.startTime, u.endTime) ==>
      forall k :: k in bookings && k != id ==> !Clashes(bookings[k], u.roomNumber, u.startTime, u.endTime)
  {
    var ids := ClashIds(bookings, u.roomNumber, u.startTime, u.endTime);
    if Clashes(bookings[id], u.roomNumber, u.startTime, u.endTime) {
      forall k | k in bookings && k != id
        ensures !Clashes(bookings[k], u.roomNumber, u.startTime, u.endTime)
      {
        if Clashes(bookings[k], u.roomNumber, u.startTime, u.endTime) {
          AtLeastTwo(ids, id, k);
        }
      }
    }
  }

  /** A successful update changes the one booking it names and no other. */
  lemma UpdateChangesOnlyThatBooking(bookings: map<BookingId, Booking>, rooms: seq<Room>, id: BookingId, u: BookingUpdate)
    ensures AfterUpdate(bookings, rooms, id, u).Keys == bookings.Keys
    ensures forall k :: k in bookings && k != id ==> AfterUpdate(bookings, rooms, id, u)[k] == bookings[k]
    ensures UpdateOutcome(bookings, rooms, id, u) == Pass ==> AfterUpdate(bookings, rooms, id, u)[id] == Merge(bookings[id], u)
    ensures UpdateOutcome(bookings, rooms, id, u) != Pass ==> AfterUpdate(bookings, rooms, id, u) == bookings
  {
  }

  // ---------------------------------------------------------------------------
  // Rooms: GET /rooms/:roomNumber and POST /rooms.

  /** Room i has the number and no earlier room has it. */
  predicate FirstWithNumber(rooms: seq<Room>, i: int, roomNumber: string)
    requires 0 <= i < |rooms|
  {
    rooms[i].roomNumber == roomNumber && forall j :: 0 <= j < i ==> rooms[j].roomNumber != roomNumber
  }

  /** The first room, in insertion order, with the given number (findOne). */
  function FindRoom(rooms: seq<Room>, roomNumber: string): (r: Option<Room>)
    ensures r.Some? <==> exists i :: 0 <= i < |rooms| && rooms[i].roomNumber == roomNumber
    ensures r.Some? ==> exists i :: 0 <= i < |rooms| && rooms[i] == r.value && FirstWithNumber(rooms, i, roomNumber)
  {
    if rooms == [] then None
    else if rooms[0].roomNumber == roomNumber then Some(rooms[0])
    else
      var r := FindRoom(rooms[1..], roomNumber);
      assert forall i :: 0 < i < |rooms| ==> rooms[i] == rooms[1..][i - 1];
      r
  }

  /**
   A room added at the end is what a lookup of its number finds, unless an
   earlier room already has that number, in which case the earlier one still answers.
   */
  lemma {:induction false} FindRoomAfterAppend(rooms: seq<Room>, room: Room)
    ensures FindRoom(rooms, room.roomNumber).None? ==> FindRoom(rooms + [room], room.roomNumber) == Some(room)
    ensures FindRoom(rooms, room.roomNumber).Some? ==> FindRoom(rooms + [room], room.roomNumber) == FindRoom(rooms, room.roomNumber)
  {
    if rooms != [] {
      assert (rooms + [room])[1..] == rooms[1..] + [room];
      FindRoomAfterAppend(rooms[1..], room);
    }
  }

  /** Where uploaded images are served from. */
  const ImagesBase := "http://localhost:8080/images/"

  /** The room's imageUrl: set exactly when a file was uploaded, and naming that file under the images path. */
  function ImageUrl(uploaded: Option<string>): (url: Option<string>)
    ensures url.Some? <==> uploaded.Some?
    ensures url.Some? ==> |ImagesBase| <= |url.value| && url.value[..|ImagesBase|] == ImagesBase
    ensures url.Some? ==> url.value[|ImagesBase|..] == uploaded.value
  {
    if uploaded.Some? then Some(ImagesBase + uploaded.value) else None
  }

  /** Every field the room schema marks as required is supplied. */
  predicate RoomHasRequiredFields(p: RoomPayload)
  {
    RequiredText(p.roomNumber) && RequiredText(p.roomType) && p.pricePerHour.Some?
  }

  /** The form fields that a stored room was made from. */
  function AsRoomPayload(room: Room): RoomPayload
  {
    RoomPayload(Some(room.roomNumber), Some(room.roomType), Some(room.pricePerHour))
  }

  /** The room document POST /rooms saves, or the schema's rejection. */
  function ToRoom(p: RoomPayload, uploaded: Option<string>): (r: Result<Room>)
    ensures r.Ok? <==> RoomHasRequiredFields(p)
    ensures r.Ok? ==> AsRoomPayload(r.value) == p && r.value.imageUrl == ImageUrl(uploaded)
    ensures r.Err? ==> r.failure == ValidationError
  {
    if RoomHasRequiredFields(p) then
      Ok(Room(p.roomNumber.value, p.roomType.value, p.pricePerHour.value, ImageUrl(uploaded)))
    else
      Err(ValidationError)
  }

  // ---------------------------------------------------------------------------
  // POST /signup and POST /login.

  /** The user document signup stores. */
  function NewUser(name: string, email: string, password: string, salt: Salt): User
  {
    User(name, email, Hash(password, salt))
  }

  /** Signup is refused when a user with that email exists. */
  function SignupOutcome(users: map<string, User>, email: string): (r: Outcome)
    ensures r == Pass <==> email !in users
    ensures r != Pass ==> r == Fail(UserAlreadyExists)
  {
    if email in users then Fail(UserAlreadyExists) else Pass
  }

  /** Login succeeds for a known email whose digest matches; every other case gets one and the same answer. */
  function LoginOutcome(users: map<string, User>, email: string, password: string): (r: Outcome)
    ensures r == Pass <==> email in users && Compare(password, users[email].password)
    ensures r != Pass ==> r == Fail(InvalidCredentials)
  {
    if email !in users then Fail(InvalidCredentials)
    else if !Compare(password, users[email].password) then Fail(InvalidCredentials)
    else Pass
  }

  /**
   After a signup with a fresh email, logging in with the same password succeeds,
   any other password gets "Invalid Credentials", and a second signup is refused.
   */
  lemma SignupThenLogin(users: map<string, User>, name: string, email: string, password: string, salt: Salt, other: string)
    requires SignupOutcome(users, email) == Pass
    requires other != password
    ensures LoginOutcome(users[email := NewUser(name, email, password, salt)], email, password) == Pass
    ensures LoginOutcome(users[email := NewUser(name, email, password, salt)], email, other) == Fail(InvalidCredentials)
    ensures SignupOutcome(users[email := NewUser(name, email, password, salt)], email) == Fail(UserAlreadyExists)
  {
  }
}
