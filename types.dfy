/** The records of the booking system (types.ts) and the two small
    wrappers every layer uses: an optional value and a result that either
    carries a value or the message of the error the source throws. */
module Types {

  datatype Option<+T> = None | Some(value: T)

  /** A call that succeeds with a value or fails with the message the
      source puts in its thrown `Error`. */
  datatype Result<+T> = Ok(value: T) | Err(message: string)

  /** A calendar date `YYYY-MM-DD`, as a day number: comparing two ISO
      date strings, or the `Date` objects parsed from them, is comparing
      their day numbers. */
  type Day = int

  datatype UserRole = Guest | Customer | Admin

  datatype RoomType = Standard | Deluxe | Suite

  datatype BookingStatus = Pending | Confirmed | Cancelled | Completed

  datatype AddonKind = PerNight | OneTime

  /** A catalog add-on; a booking keeps its own copy of each one. */
  datatype Addon = Addon(id: string, name: string, price: int, kind: AddonKind)

  datatype Room = Room(
    id: string,
    name: string,
    roomType: RoomType,
    price: int,
    capacity: int,
    description: string,
    amenities: seq<string>,
    imageUrl: string,
    rating: real,
    reviews: int)

  /** The user as the application sees it: no password. */
  datatype User = User(id: string, name: string, email: string, role: UserRole)

  /** The stored user record, which also holds the (plain-text) password. */
  datatype UserRecord = UserRecord(id: string, name: string, email: string, password: string, role: UserRole)

  datatype Booking = Booking(
    id: string,
    roomId: string,
    userId: string,
    guestName: string,
    startDate: Day,
    endDate: Day,
    addons: seq<Addon>,
    totalPrice: int,
    status: BookingStatus,
    createdAt: string)

  /** What a caller hands to `createBooking`: a booking without its id,
      status and creation time. */
  datatype BookingRequest = BookingRequest(
    roomId: string,
    userId: string,
    guestName: string,
    startDate: Day,
    endDate: Day,
    addons: seq<Addon>,
    totalPrice: int)

  /** The session object: the stored record minus its password. */
  function WithoutPassword(u: UserRecord): User
  {
    User(u.id, u.name, u.email, u.role)
  }

  /** The booking `createBooking` stores for a request. */
  function NewBooking(req: BookingRequest, id: string, status: BookingStatus, createdAt: string): Booking
  {
    Booking(id, req.roomId, req.userId, req.guestName, req.startDate, req.endDate,
            req.addons, req.totalPrice, status, createdAt)
  }

  /** Array `find`/`findIndex`: the index of the first element satisfying `p`. */
  function FindIndex<T>(s: seq<T>, p: T -> bool): (r: Option<nat>)
    ensures r.Some? ==> r.value < |s| && p(s[r.value])
    ensures r.Some? ==> forall k :: 0 <= k < r.value ==> !p(s[k])
    ensures r.None? ==> forall k :: 0 <= k < |s| ==> !p(s[k])
  {
    if s == [] then None
    else if p(s[0]) then Some(0)
    else match FindIndex(s[1..], p)
      case None => None
      case Some(k) => Some(k + 1)
  }
}
