/**
 The documents of the booking backend (users, rooms, bookings), the request
 payloads the handlers receive, and the outcomes they answer with.
 */
module Records {
  import opened Crypto

  datatype Option<+T> = None | Some(value: T)

  datatype Result<+T> = Ok(value: T) | Err(failure: Failure)

  /** The answer of a handler that reports success with a message only. */
  datatype Outcome = Pass | Fail(failure: Failure)

  /** The store's identity of a booking (its _id). */
  type BookingId = nat

  /** A booking document; times are instants on an integer clock. */
  datatype Booking = Booking(
    userEmail: string,
    userName: string,
    roomNumber: string,
    startTime: int,
    endTime: int,
    price: int,
    paymentType: Option<string>,
    tip: Option<int>)

  /** A room document; imageUrl is present only when an image was uploaded. */
  datatype Room = Room(
    roomNumber: string,
    roomType: string,
    pricePerHour: int,
    imageUrl: Option<string>)

  /** A user document; the password is kept only as a digest. */
  datatype User = User(name: string, email: string, password: Digest)

  /** The body of POST /bookings: any field may be missing. */
  datatype BookingPayload = BookingPayload(
    userEmail: Option<string>,
    userName: Option<string>,
    roomNumber: Option<string>,
    startTime: Option<int>,
    endTime: Option<int>,
    price: Option<int>,
    paymentType: Option<string>,
    tip: Option<int>)

  /**
   The body of PUT /bookings/:id. The room and the range are what the handler
   queries with; every other field is set only when it is supplied.
   */
  datatype BookingUpdate = BookingUpdate(
    roomNumber: string,
    startTime: int,
    endTime: int,
    userEmail: Option<string>,
    userName: Option<string>,
    price: Option<int>,
    paymentType: Option<string>,
    tip: Option<int>)

  /** The form fields of POST /rooms. */
  datatype RoomPayload = RoomPayload(
    roomNumber: Option<string>,
    roomType: Option<string>,
    pricePerHour: Option<int>)

  /** The failures the handlers answer with, each with its status code and message. */
  datatype Failure =
    | ValidationError
    | BookingNotFound
    | RoomNotFound
    | RoomAlreadyBooked
    | RoomDoesNotExist
    | UserAlreadyExists
    | InvalidCredentials
  {
    function Code(): nat
    {
      match this
      case BookingNotFound | RoomNotFound => 404
      case _ => 400
    }

    /** The message of the JSON body; the store's own text for a validation error is abstracted to a fixed one. */
    function Message(): string
    {
      match this
      case ValidationError => "validation failed"
      case BookingNotFound => "Booking not found"
      case RoomNotFound => "Room not found"
      case RoomAlreadyBooked => "Room is already booked"
      case RoomDoesNotExist => "Room does not exist"
      case UserAlreadyExists => "User already exists"
      case InvalidCredentials => "Invalid Credentials"
    }
  }

  /**
   The status code and message of a reply name its failure, so a client can
   tell every failure apart, and two paths that answer the same failure are
   indistinguishable.
   */
  lemma ReplyIdentifiesFailure(f: Failure, g: Failure)
    ensures f.Code() == g.Code() && f.Message() == g.Message() <==> f == g
  {
  }
}
