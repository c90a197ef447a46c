/** The client-side store (services/mockDb.ts): rooms, bookings, users and
    the session slot, each a collection the operations replace or extend. */
module MockDb {
  import opened Types
  import opened Catalog
  import opened Accounts
  import opened Availability

  const UnavailableMessage := "Room is no longer available for these dates."
  const InvalidLoginMessage := "Invalid email or password"
  const DuplicateEmailMessage := "User with this email already exists"

  /** Every booking id occurs once. */
  ghost predicate UniqueBookingIds(bookings: seq<Booking>)
  {
    forall i, j :: 0 <= i < |bookings| && 0 <= j < |bookings| && i != j ==> bookings[i].id != bookings[j].id
  }

  predicate BookingIdFree(bookings: seq<Booking>, id: string)
  {
    forall k :: 0 <= k < |bookings| ==> bookings[k].id != id
  }

  predicate UserIdFree(users: seq<UserRecord>, id: string)
  {
    forall k :: 0 <= k < |users| ==> users[k].id != id
  }

  /** A session user is a stored account seen without its password. */
  ghost predicate SessionOfStoredUser(users: seq<UserRecord>, session: Option<User>)
  {
    session.Some? ==> exists k :: 0 <= k < |users| && WithoutPassword(users[k]) == session.value
  }

  class Store {
    var rooms: seq<Room>
    var bookings: seq<Booking>
    var users: seq<UserRecord>
    var session: Option<User>

    /** Booking ids are unique, no two users share an email, and the
        session, if any, is one of the stored users. */
    ghost predicate Valid()
      reads this
    {
      UniqueBookingIds(bookings) && UniqueEmails(users) && SessionOfStoredUser(users, session)
    }

    /** `initDb` on empty storage: the seed rooms, no bookings, the
        administrator account, nobody logged in. */
    constructor ()
      ensures Valid()
      ensures rooms == InitialRooms && bookings == [] && users == [AdminRecord] && session == None
    {
      rooms := InitialRooms;
      bookings := [];
      users := [AdminRecord];
      session := None;
    }

    /** `createBooking`: re-check availability; on a conflict fail and
        store nothing, otherwise append the request as a confirmed booking. */
    method CreateBooking(req: BookingRequest, id: string, createdAt: string) returns (r: Result<Booking>)
      requires Valid()
      requires BookingIdFree(bookings, id)
      modifies this`bookings
      ensures Valid()
      ensures !CheckAvailability(old(bookings), req.roomId, req.startDate, req.endDate) ==>
        r == Err(UnavailableMessage) && bookings == old(bookings)
      ensures CheckAvailability(old(bookings), req.roomId, req.startDate, req.endDate) ==>
        r == Ok(NewBooking(req, id, Confirmed, createdAt)) && bookings == old(bookings) + [r.value]
      ensures r.Ok? && req.startDate < req.endDate ==>
        !CheckAvailability(bookings, req.roomId, req.startDate, req.endDate)
      ensures NoDoubleBooking(old(bookings)) ==> NoDoubleBooking(bookings)
    {
      if !CheckAvailability(bookings, req.roomId, req.startDate, req.endDate) {
        return Err(UnavailableMessage);
      }
      var b := NewBooking(req, id, Confirmed, createdAt);
      if NoDoubleBooking(bookings) {
        AppendAvailableKeepsNoDoubleBooking(bookings, b);
      }
      bookings := bookings + [b];
      if req.startDate < req.endDate {
        StoredBookingBlocksItsRange(bookings, |bookings| - 1);
      }
      r := Ok(b);
    }

    /** `updateBookingStatus`: set the status of the first booking with
        that id; an unknown id changes nothing and is not an error. Any
        status is accepted, so only a cancellation is sure to keep the
        reservation invariant. */
    method UpdateBookingStatus(bookingId: string, status: BookingStatus)
      requires Valid()
      modifies this`bookings
      ensures Valid()
      ensures |bookings| == |old(bookings)|
      ensures BookingIdFree(old(bookings), bookingId) ==> bookings == old(bookings)
      ensures forall k :: 0 <= k < |bookings| ==>
        bookings[k] == if old(bookings)[k].id == bookingId then old(bookings)[k].(status := status) else old(bookings)[k]
      ensures status == Cancelled && NoDoubleBooking(old(bookings)) ==> NoDoubleBooking(bookings)
    {
      var found := FindIndex(bookings, (b: Booking) => b.id == bookingId);
      if found.Some? {
        var idx := found.value;
        if status == Cancelled && NoDoubleBooking(bookings) {
          CancelKeepsNoDoubleBooking(bookings, idx);
        }
        bookings := SetStatus(bookings, idx, status);
      }
    }

    /** `addRoom`: append the room exactly as given. */
    method AddRoom(room: Room)
      requires Valid()
      modifies this`rooms
      ensures Valid()
      ensures rooms == old(rooms) + [room]
    {
      rooms := rooms + [room];
    }

    /** `login`: the first user whose email matches up to case and whose
        password matches exactly becomes the session, without password;
        otherwise fail and change nothing. */
    method Login(email: string, password: string) returns (r: Result<User>)
      requires Valid()
      modifies this`session
      ensures Valid()
      ensures CredentialsMatch(users, email, password).None? ==>
        r == Err(InvalidLoginMessage) && session == old(session)
      ensures CredentialsMatch(users, email, password).Some? ==>
        var u := WithoutPassword(users[CredentialsMatch(users, email, password).value]);
        r == Ok(u) && session == Some(u) && CurrentUser() == Some(u)
    {
      var found := CredentialsMatch(users, email, password);
      if found.None? {
        return Err(InvalidLoginMessage);
      }
      var u := WithoutPassword(users[found.value]);
      session := Some(u);
      r := Ok(u);
    }

    /** `signup`: refuse an email already taken (up to case); otherwise
        store a new customer and log them in. */
    method Signup(name: string, email: string, password: string, id: string) returns (r: Result<User>)
      requires Valid()
      modifies this`users, this`session
      ensures Valid()
      ensures EmailTaken(old(users), email) ==>
        r == Err(DuplicateEmailMessage) && users == old(users) && session == old(session)
      ensures !EmailTaken(old(users), email) ==>
        users == old(users) + [UserRecord(id, name, email, password, Customer)]
        && r == Ok(User(id, name, email, Customer)) && session == Some(r.value)
        && CurrentUser() == Some(r.value)
    {
      if EmailTaken(users, email) {
        return Err(DuplicateEmailMessage);
      }
      var rec := UserRecord(id, name, email, password, Customer);
      AppendFreshEmailKeepsUnique(users, rec);
      users := users + [rec];
      var u := WithoutPassword(rec);
      session := Some(u);
      assert WithoutPassword(users[|users| - 1]) == u;
      r := Ok(u);
    }

    /** `logout`: empty the session slot. */
    method Logout()
      requires Valid()
      modifies this`session
      ensures Valid()
      ensures session == None && CurrentUser() == None
    {
      session := None;
    }

    /** `getCurrentUser`: nobody when the session slot is empty, and
        otherwise a stored account without its password. */
    function CurrentUser(): (u: Option<User>)
      requires Valid()
      reads this
      ensures u.None? <==> session.None?
      ensures u.Some? ==> exists k :: 0 <= k < |users| && WithoutPassword(users[k]) == u.value
    {
      session
    }
  }
}
