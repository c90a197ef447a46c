/** The in-memory HTTP variant of the store (server.js): the module-level
    `rooms`, `bookings` and `users` arrays and one method per route, each
    returning the HTTP status and the JSON body. */
module Server {
  import opened Types
  import opened Catalog
  import opened Accounts
  import opened Availability

  /** A reply: a status code with the JSON value, or a status code with
      the `message` of the error body. */
  datatype Response<+T> = Reply(code: nat, body: T) | Failure(code: nat, message: string)

  /** The body of `POST /api/bookings`; `addons` may be absent. */
  datatype BookingBody = BookingBody(
    roomId: string,
    startDate: Day,
    endDate: Day,
    userId: string,
    guestName: string,
    totalPrice: int,
    addons: Option<seq<Addon>>)

  /** `addons || []`. */
  function AddonsOrEmpty(addons: Option<seq<Addon>>): seq<Addon>
  {
    match addons
    case None => []
    case Some(a) => a
  }

  /** The room `POST /api/rooms` stores: the body, with the fresh id and
      zero rating and reviews written over whatever the body carried. */
  function StoredRoom(body: Room, id: string): Room
  {
    body.(id := id, rating := 0.0, reviews := 0)
  }

  class Api {
    var rooms: seq<Room>
    var bookings: seq<Booking>
    var users: seq<UserRecord>

    constructor ()
      ensures rooms == ServerRooms && bookings == []
      ensures users == [AdminRecord]
    {
      rooms := ServerRooms;
      bookings := [];
      users := [AdminRecord];
    }

    /** `POST /api/auth/login`: 401 unless some user matches (email up to
        case, password exactly); on success 200 and that user without the
        password. The server keeps no session. */
    method Login(email: string, password: string) returns (res: Response<User>)
      ensures res.Failure? <==> CredentialsMatch(users, email, password).None?
      ensures res.Failure? ==> res.code == 401
      ensures res.Reply? ==>
        res.code == 200 && res.body == WithoutPassword(users[CredentialsMatch(users, email, password).value])
    {
      var found := CredentialsMatch(users, email, password);
      if found.None? {
        return Failure(401, "Invalid credentials");
      }
      res := Reply(200, WithoutPassword(users[found.value]));
    }

    /** `POST /api/auth/signup`: 400 when the email is taken (up to case),
        otherwise append a customer and answer 201 with it, without password. */
    method Signup(name: string, email: string, password: string, id: string) returns (res: Response<User>)
      modifies this`users
      ensures EmailTaken(old(users), email) ==> res == Failure(400, "User already exists") && users == old(users)
      ensures !EmailTaken(old(users), email) ==>
        users == old(users) + [UserRecord(id, name, email, password, Customer)]
        && res == Reply(201, User(id, name, email, Customer))
      ensures UniqueEmails(old(users)) ==> UniqueEmails(users)
    {
      if EmailTaken(users, email) {
        return Failure(400, "User already exists");
      }
      var rec := UserRecord(id, name, email, password, Customer);
      if UniqueEmails(users) {
        AppendFreshEmailKeepsUnique(users, rec);
      }
      users := users + [rec];
      res := Reply(201, WithoutPassword(rec));
    }

    /** `GET /api/rooms`: every room, in stored order. */
    method GetRooms() returns (res: Response<seq<Room>>)
      ensures res == Reply(200, rooms)
    {
      res := Reply(200, rooms);
    }

    /** `POST /api/rooms`: store the body under a fresh id with rating and
        reviews zeroed, answer 201 with the stored room. */
    method PostRoom(body: Room, id: string) returns (res: Response<Room>)
      modifies this`rooms
      ensures res.Reply? && res.code == 201
      ensures res.body.id == id && res.body.rating == 0.0 && res.body.reviews == 0
      ensures res.body.(id := body.id, rating := body.rating, reviews := body.reviews) == body
      ensures rooms == old(rooms) + [res.body]
    {
      var room := StoredRoom(body, id);
      rooms := rooms + [room];
      res := Reply(201, room);
    }

    /** `GET /api/bookings`: every booking, unfiltered. */
    method GetBookings() returns (res: Response<seq<Booking>>)
      ensures res == Reply(200, bookings)
    {
      res := Reply(200, bookings);
    }

    /** `POST /api/bookings`: 409 and no change when the range is taken;
        otherwise append a confirmed booking (missing add-ons become the
        empty list) and answer 201 with it. */
    method PostBooking(body: BookingBody, id: string, createdAt: string) returns (res: Response<Booking>)
      modifies this`bookings
      ensures !CheckAvailability(old(bookings), body.roomId, body.startDate, body.endDate) ==>
        res == Failure(409, "Room not available for selected dates") && bookings == old(bookings)
      ensures CheckAvailability(old(bookings), body.roomId, body.startDate, body.endDate) ==>
        res.Reply? && res.code == 201 && bookings == old(bookings) + [res.body]
        && res.body == Booking(id, body.roomId, body.userId, body.guestName, body.startDate, body.endDate,
                               AddonsOrEmpty(body.addons), body.totalPrice, Confirmed, createdAt)
      ensures NoDoubleBooking(old(bookings)) ==> NoDoubleBooking(bookings)
    {
      if !CheckAvailability(bookings, body.roomId, body.startDate, body.endDate) {
        return Failure(409, "Room not available for selected dates");
      }
      var b := Booking(id, body.roomId, body.userId, body.guestName, body.startDate, body.endDate,
                       AddonsOrEmpty(body.addons), body.totalPrice, Confirmed, createdAt);
      if NoDoubleBooking(bookings) {
        AppendAvailableKeepsNoDoubleBooking(bookings, b);
      }
      bookings := bookings + [b];
      res := Reply(201, b);
    }

    /** `PATCH /api/bookings/:id`: 404 and no change for an unknown id;
        otherwise set the status of the first booking with that id and
        answer with it. */
    method PatchBooking(id: string, status: BookingStatus) returns (res: Response<Booking>)
      modifies this`bookings
      ensures FindIndex(old(bookings), (b: Booking) => b.id == id).None? ==>
        res == Failure(404, "Booking not found") && bookings == old(bookings)
      ensures FindIndex(old(bookings), (b: Booking) => b.id == id).Some? ==>
        var k := FindIndex(old(bookings), (b: Booking) => b.id == id).value;
        bookings == SetStatus(old(bookings), k, status) && res == Reply(200, bookings[k])
      ensures status == Cancelled && NoDoubleBooking(old(bookings)) ==> NoDoubleBooking(bookings)
    {
      var found := FindIndex(bookings, (b: Booking) => b.id == id);
      if found.None? {
        return Failure(404, "Booking not found");
      }
      var k := found.value;
      if status == Cancelled && NoDoubleBooking(bookings) {
        CancelKeepsNoDoubleBooking(bookings, k);
      }
      bookings := SetStatus(bookings, k, status);
      res := Reply(200, bookings[k]);
    }
  }
}
