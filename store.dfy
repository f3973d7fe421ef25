/**
 The document store as in-memory tables, and the route handlers as methods
 that read and change them. Each handler runs as one atomic step.
 */
module Backend {
  import opened Crypto
  import opened Records
  import opened Clash
  import opened Decisions

  class Store {
    /** Booking documents by id. */
    var bookings: map<BookingId, Booking>
    /** Room documents in insertion order; room numbers need not be unique. */
    var rooms: seq<Room>
    /** User documents by email. */
    var users: map<string, User>
    /** The id the next created booking receives. */
    var nextId: BookingId

    /** Every stored id was handed out before. */
    ghost predicate Valid()
      reads this
    {
      forall id :: id in bookings ==> id < nextId
    }

    constructor ()
      ensures Valid()
      ensures bookings == map[] && rooms == [] && users == map[]
    {
      bookings, rooms, users, nextId := map[], [], map[], 0;
    }

    // POST /signup
    method Signup(name: string, email: string, password: string, salt: Salt) returns (o: Outcome)
      requires Valid()
      modifies this`users
      ensures Valid()
      ensures o == SignupOutcome(old(users), email)
      ensures users == if o == Pass then old(users)[email := NewUser(name, email, password, salt)] else old(users)
    {
      if email in users {
        return Fail(UserAlreadyExists);
      }
      users := users[email := User(name, email, Hash(password, salt))];
      return Pass;
    }

    // POST /login
    method Login(email: string, password: string) returns (o: Outcome)
      ensures o == Pass <==> email in users && Compare(password, users[email].password)
      ensures o != Pass ==> o == Fail(InvalidCredentials)
    {
      if email !in users {
        return Fail(InvalidCredentials);
      }
      var isMatch := Compare(password, users[email].password);
      if !isMatch {
        return Fail(InvalidCredentials);
      }
      return Pass;
    }

    // GET /rooms
    method ListRooms() returns (all: seq<Room>)
      ensures all == rooms
    {
      all := rooms;
    }

    // GET /rooms/:roomNumber
    method GetRoom(roomNumber: string) returns (r: Result<Room>)
      ensures r.Ok? <==> exists i :: 0 <= i < |rooms| && rooms[i].roomNumber == roomNumber
      ensures r.Ok? ==> exists i :: 0 <= i < |rooms| && rooms[i] == r.value && FirstWithNumber(rooms, i, roomNumber)
      ensures r.Err? ==> r.failure == RoomNotFound
    {
      var room := FindRoom(rooms, roomNumber);
      if room.Some? {
        r := Ok(room.value);
      } else {
        r := Err(RoomNotFound);
      }
    }

    // POST /rooms
    method CreateRoom(p: RoomPayload, uploaded: Option<string>) returns (r: Result<Room>)
      requires Valid()
      modifies this`rooms
      ensures Valid()
      ensures r == ToRoom(p, uploaded)
      ensures rooms == if r.Ok? then old(rooms) + [r.value] else old(rooms)
    {
      r := ToRoom(p, uploaded);
      if r.Ok? {
        rooms := rooms + [r.value];
      }
    }

    // GET /bookings
    method ListBookings() returns (all: map<BookingId, Booking>)
      ensures all == bookings
    {
      all := bookings;
    }

    // GET /bookings/:id
    method ReadBooking(id: BookingId) returns (r: Result<Booking>)
      ensures r.Ok? <==> id in bookings
      ensures r.Ok? ==> r.value == bookings[id]
      ensures r.Err? ==> r.failure == BookingNotFound
    {
      if id in bookings {
        r := Ok(bookings[id]);
      } else {
        r := Err(BookingNotFound);
      }
    }

    // POST /bookings
    method CreateBooking(p: BookingPayload) returns (r: Result<BookingId>)
      requires Valid()
      modifies this`bookings, this`nextId
      ensures Valid()
      ensures r.Ok? <==> HasRequiredFields(p)
      ensures r.Ok? ==> r.value !in old(bookings) && bookings == old(bookings)[r.value := ToBooking(p).value]
      ensures r.Err? ==> r.failure == ValidationError && bookings == old(bookings)
    {
      var booking := ToBooking(p);
      if booking.None? {
        return Err(ValidationError);
      }
      var id := nextId;
      bookings := bookings[id := booking.value];
      nextId := nextId + 1;
      return Ok(id);
    }

    // PUT /bookings/:id
    method UpdateBooking(id: BookingId, u: BookingUpdate) returns (o: Outcome)
      requires Valid()
      modifies this`bookings
      ensures Valid()
      ensures o == UpdateOutcome(old(bookings), rooms, id, u)
      ensures bookings == AfterUpdate(old(bookings), rooms, id, u)
    {
      if id !in bookings {
        return Fail(BookingNotFound);
      }
      var booking := bookings[id];
      var room := FindRoom(rooms, u.roomNumber);
      var existing := ClashIds(bookings, u.roomNumber, u.startTime, u.endTime);
      if |existing| > 1 {
        return Fail(RoomAlreadyBooked);
      } else if room.None? {
        return Fail(RoomDoesNotExist);
      }
      bookings := bookings[id := Merge(booking, u)];
      return Pass;
    }

    // DELETE /bookings/:id
    method DeleteBooking(id: BookingId) returns (o: Outcome)
      requires Valid()
      modifies this`bookings
      ensures Valid()
      ensures o == if id in old(bookings) then Pass else Fail(BookingNotFound)
      ensures bookings == old(bookings) - {id}
      ensures id !in old(bookings) ==> bookings == old(bookings)
    {
      if id !in bookings {
        return Fail(BookingNotFound);
      }
      bookings := bookings - {id};
      return Pass;
    }
  }

  /** Deleting a booking and then reading its id answers "Booking not found". */
  method DeleteThenRead(store: Store, id: BookingId) returns (deleted: Outcome, read: Result<Booking>)
    requires store.Valid()
    modifies store
    ensures deleted == Pass <==> id in old(store.bookings)
    ensures read == Err(BookingNotFound)
  {
    deleted := store.DeleteBooking(id);
    read := store.ReadBooking(id);
  }

  /**
   Room 101 is created, booked for one hour, and the booking is then updated
   with its own room and times: the update is accepted.
   */
  method UnchangedUpdateAccepted(t0: int) returns (o: Outcome)
    ensures o == Pass
  {
    var store := new Store();
    var room := store.CreateRoom(RoomPayload(Some("101"), Some("Deluxe"), Some(50)), None);
    var created := store.CreateBooking(BookingPayload(Some("a@x.com"), Some("A"), Some("101"),
                                                      Some(t0), Some(t0 + 3600), Some(50), None, None));
    var id := created.value;
    var b := store.bookings[id];
    assert FindRoom(store.rooms, "101").Some? by {
      assert store.rooms[0].roomNumber == "101";
    }
    SameRangeAccepted(store.bookings, store.rooms, id, SameRange(b));
    o := store.UpdateBooking(id, SameRange(b));
  }
}
