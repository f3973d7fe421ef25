# Hotel-room booking backend, modelled in Dafny

This project models the bookkeeping of a small HTTP backend for booking hotel rooms (`index.js`).
The model covers these handlers: user signup and login, room creation and lookup, and the booking
create / read / update / delete routes. The document store becomes three in-memory tables:

- bookings: a map from booking id to booking document;
- rooms: a sequence of room documents in insertion order. Nothing makes room numbers unique, so a second room with the same number is stored too, and a lookup by number answers the first one;
- users: a map from email to user document.

The handlers that change a table are methods of the class `Backend.Store`. Each handler runs as one
atomic step. What a handler decides is a pure function in `Decisions`, and the properties are lemmas
about those functions.

Files:

- `crypto.dfy`: an ideal stand-in for bcrypt. A digest matches exactly the password it was made from.
- `records.dfy`: the documents, the request payloads, and the failures with their status codes and messages.
- `clash.dfy`: the update handler's overlap query (`start < newEnd && end > newStart`), the set of clashing ids, and the "no two bookings overlap" invariant.
- `decisions.dfy`: the decision of each handler, and the lemmas about them.
- `store.dfy`: the store class and its handler methods, plus two client scenarios.

The update handler is modelled exactly as written. It counts every booking on the payload's room that
overlaps the new range, including the booking being updated. It answers "Room is already booked" only
when the count is more than one. Because of this, a booking can be moved onto a range that clashes
with exactly one other booking: `SingleOtherClashTolerated` proves that this update is accepted and
that the table afterwards breaks the no-overlap invariant. The clash check also comes before the
room-existence check.

Three more facts about the handlers, each visible in the code:

- The update handler checks overlap before it checks that the room exists (index.js:280-283).
- A successful update answers with the store's write acknowledgement (index.js:286-287). The model reduces that acknowledgement to `Pass`.
- Update does not stop two bookings on one room from overlapping (see `SingleOtherClashTolerated`), and create never checks overlap (index.js:231-237).

## Model

| member | source | states |
|---|---|---|
| `Crypto.Hash` | index.js:77-78 | the stored digest keeps its salt and matches a password exactly when it is the password that was hashed |
| `Crypto.Compare` | index.js:100 | the password check of login: true exactly when the digest is the hash of that password (stated by `Crypto.MatchingDigestIsHash`) |
| `Crypto.MatchingDigestIsHash` | index.js:100 | a password matches a digest exactly when the digest is that password's hash under the digest's own salt |
| `Records.ReplyIdentifiesFailure` | index.js:280-283 | two failures give the same status code and message exactly when they are the same failure, so the replies tell every failure apart |
| `Clash.Overlaps` | index.js:276-277 | the query's test on a stored range: it starts before the new end and ends after the new start (its meaning is stated by `Clash.OverlapsIffSharedInstant`) |
| `Clash.Clashes` | index.js:274-278 | a stored booking matches the query: same room number and the overlap test |
| `Clash.ClashIds` | index.js:274-278 | the ids the query returns: exactly the stored bookings that clash, the booking being updated included |
| `Clash.OverlapsIffSharedInstant` | index.js:274-278 | for ranges that start before they end, the query's test holds exactly when the half-open ranges share an instant |
| `Clash.InvertedRangeClashesWithoutSharedInstant` | index.js:274-278 | nothing orders start and end, and a stored range [5, 3) is reported as clashing with [0, 10) although they share no instant |
| `Clash.TouchingRangesNeverClash` | index.js:274-278 | a stored range that ends where the new one starts, or starts where it ends, never clashes |
| `Clash.ClashCountAboveOneIffTwoClash` | index.js:274-280 | the number of matches exceeds one exactly when two distinct bookings on the room clash with the range |
| `Decisions.ToBooking` | index.js:128-140 | a payload is stored exactly when every required field is present (required text non-empty), and the document carries the payload's values unchanged |
| `Decisions.ToBookingOfAsPayload` | index.js:231-235 | a booking's own fields, sent as a payload, produce that same booking |
| `Decisions.Merge` | index.js:286 | the room and range stored by an update are exactly the ones the handler checked for clashes (the other fields: `Decisions.MergeSetsOnlySuppliedFields`) |
| `Decisions.UpdateOutcome` | index.js:267-284 | the order of the chain: an unknown id answers "Booking not found"; otherwise more than one clash answers "Room is already booked" whatever the room; otherwise a missing room answers "Room does not exist"; the update passes exactly when the id is known, at most one booking clashes and the room exists |
| `Decisions.AfterUpdate` | index.js:286 | the table after the handler keeps every id, and is unchanged unless the update passes |
| `Decisions.MergeSetsOnlySuppliedFields` | index.js:286 | the update sets the payload's room and range; every other field takes the payload's value when supplied and keeps the stored value otherwise |
| `Decisions.MergeIdempotent` | index.js:286 | applying the same update twice gives the same booking as applying it once |
| `Decisions.MergeSameRangeIsIdentity` | index.js:286 | an update restating a booking's own room and range, with nothing else, leaves the booking as it was |
| `Decisions.UpdateUnknownIdNotFound` | index.js:267-271 | an unknown id answers "Booking not found" and leaves the bookings table unchanged |
| `Decisions.UpdateRejectsIffTwoClash` | index.js:274-281 | for a stored booking, "Room is already booked" is the answer exactly when two distinct bookings clash with the new range, the updated booking possibly one of them |
| `Decisions.ClashCheckPrecedesRoomCheck` | index.js:280-283 | more than one clash together with a missing room answers "Room is already booked", not "Room does not exist" |
| `Decisions.SingleOtherClashTolerated` | index.js:274-286 | moving a booking onto a range that clashes with exactly one other booking is accepted, and leaves two overlapping bookings on the room |
| `Decisions.SameRangeAccepted` | index.js:273-286 | updating a booking to its own room and range, with no other clash and an existing room, is accepted |
| `Decisions.SelfAndOtherClashRejected` | index.js:274-281 | a booking that clashes with its new range and one other booking is rejected as already booked, whether or not the room exists |
| `Decisions.AcceptedUpdateClashesAtMostOneOther` | index.js:274-286 | an accepted update clashes with at most one other booking, and with none when the booking's stored range already clashes with the new one |
| `Decisions.UpdateChangesOnlyThatBooking` | index.js:286 | the update keeps every id, leaves every other booking as it was, on success stores the merged booking under the updated id, and otherwise leaves the table unchanged |
| `Decisions.FindRoom` | index.js:162 | a room is found exactly when some room has the number, and it is the first such room in insertion order |
| `Decisions.FindRoomAfterAppend` | index.js:257-258 | after a room is added, a lookup of its number finds it, unless an earlier room with that number still answers |
| `Decisions.ImageUrl` | index.js:254-256 | imageUrl is set exactly when a file was uploaded, and it is the images path followed by the stored file name |
| `Decisions.ToRoom` | index.js:114-122 | a room is saved exactly when number, type and price are present, with those values and the upload's imageUrl; otherwise a validation error |
| `Decisions.SignupOutcome` | index.js:64-67 | signup goes ahead exactly when no user has the email, and otherwise answers "User already exists" |
| `Decisions.LoginOutcome` | index.js:94-106 | login succeeds exactly when the email is known and the password matches its digest, and every failure is the same "Invalid Credentials" |
| `Decisions.SignupThenLogin` | index.js:60-111 | after signup with a new email, login with that password succeeds, any other password fails, and a second signup is refused |
| `Backend.Store.constructor` | index.js:124-143 | the store starts with no bookings, rooms or users |
| `Backend.Store.Signup` | index.js:60-87 | answers the signup decision and adds the hashed user only when it passes; nothing else changes |
| `Backend.Store.Login` | index.js:90-111 | succeeds exactly for a known email with a matching password, and otherwise answers "Invalid Credentials"; changes nothing |
| `Backend.Store.ListRooms` | index.js:151-158 | returns every stored room, in insertion order |
| `Backend.Store.GetRoom` | index.js:160-171 | returns the first room with the number, or "Room not found" when there is none |
| `Backend.Store.CreateRoom` | index.js:251-263 | appends the room the form describes when the schema accepts it, and otherwise answers a validation error with the rooms unchanged |
| `Backend.Store.ListBookings` | index.js:219-226 | returns every stored booking by id |
| `Backend.Store.ReadBooking` | index.js:172-183 | returns the stored booking for a known id, and "Booking not found" for an unknown one |
| `Backend.Store.CreateBooking` | index.js:231-238 | stores the payload under a fresh id exactly when the required fields are present, with no overlap or room check; otherwise nothing changes |
| `Backend.Store.UpdateBooking` | index.js:267-293 | answers the update decision and leaves the bookings table as the decision says, changing only that booking and only on success |
| `Backend.Store.DeleteBooking` | index.js:295-308 | removes exactly the named booking, and answers "Booking not found" with nothing changed when the id is unknown |
| `Backend.DeleteThenRead` | index.js:295-303 | after a delete, reading the same id answers "Booking not found" |
| `Backend.UnchangedUpdateAccepted` | index.js:267-293 | room 101 created, booked for an hour, and updated with its own room and times: the update is accepted |

## Left out

- HTTP plumbing is not modelled: the cookie route, CORS headers, body parsing, static serving of `/images` and status-code mapping beyond the codes and messages in `Records.Failure`.
- The database connection and Mongoose internals are not modelled. This covers the casting of strings to dates (times are integers), the shape of ObjectIds (ids are naturals handed out by a counter), the cast errors for malformed ids, the `createdAt`/`updatedAt` timestamps, and the `populate("roomNumber")` join in the booking listing.
- Store failures and the resulting 500 (or, for `updateOne`, 400) answers are not modelled. In particular the text of a validation error is abstracted to one fixed message.
- bcrypt is modelled as an ideal hash: the salt is an input (not drawn at random with cost 10), and a digest matches only its own password.
- `models/User.js` is not part of this model. Validation of the user document on save is not modelled, so signup always stores the user once the email is new.
- The multer disk storage is not modelled, and neither is the `Date.now()` file name or the creation of the images directory. The stored file name is an input to `CreateRoom`.
- Concurrent requests are not modelled, including the race between the clash query and `updateOne`: each handler is atomic.
- The contact endpoint and console logging are not modelled.
- Update payloads always carry a room number and a start and end time. What the queries do when the body lacks them depends on how Mongoose casts `undefined` in a filter, and is not modelled. Setting a field to `null` through `$set` is not modelled either.
- Prices, hourly rates and tips are integers. JavaScript's floating-point numbers are not modelled.
