/** The availability check (`checkAvailability` in services/mockDb.ts and
    in server.js, which agree) and the invariant it protects: no two
    bookings of one room that are not cancelled share a night. */
module Availability {
  import opened Types

  /** A booking takes part in overlap checks unless it is cancelled. */
  predicate Active(b: Booking)
  {
    b.status != Cancelled
  }

  /** The half-open ranges [start, end) and [b.startDate, b.endDate)
      intersect: `startDate < bEnd && endDate > bStart`. */
  predicate Overlaps(start: Day, end: Day, b: Booking)
  {
    start < b.endDate && end > b.startDate
  }

  /** Booking `b` makes `roomId` unavailable for [start, end). */
  predicate Blocks(b: Booking, roomId: string, start: Day, end: Day)
  {
    b.roomId == roomId && Active(b) && Overlaps(start, end, b)
  }

  /** `!bookings.some(b => ...)`: true exactly when no booking of the
      room that is not cancelled overlaps [start, end). */
  function CheckAvailability(bookings: seq<Booking>, roomId: string, start: Day, end: Day): (available: bool)
    ensures available <==> forall k :: 0 <= k < |bookings| ==> !Blocks(bookings[k], roomId, start, end)
  {
    if bookings == [] then true
    else !Blocks(bookings[0], roomId, start, end) && CheckAvailability(bookings[1..], roomId, start, end)
  }

  /** Two distinct stored bookings collide: same room, neither cancelled,
      ranges overlap. */
  ghost predicate Collide(bookings: seq<Booking>, i: nat, j: nat)
    requires i < |bookings| && j < |bookings|
  {
    i != j && Active(bookings[i])
    && Blocks(bookings[j], bookings[i].roomId, bookings[i].startDate, bookings[i].endDate)
  }

  /** The reservation invariant: no two non-cancelled bookings of the
      same room overlap. */
  ghost predicate NoDoubleBooking(bookings: seq<Booking>)
  {
    forall i: nat, j: nat :: i < |bookings| && j < |bookings| ==> !Collide(bookings, i, j)
  }

  /** Checkout and check-in on the same day do not conflict: a stay that
      ends when `b` starts, or starts when `b` ends, is never blocked by it. */
  lemma AdjacentStaysDoNotConflict(b: Booking, roomId: string, start: Day, end: Day)
    requires end == b.startDate || start == b.endDate
    ensures !Blocks(b, roomId, start, end)
  {
  }

  /** Bookings of other rooms and cancelled bookings never block a range;
      so a room without bookings is free for every range. */
  lemma OnlyActiveSameRoomBookingsBlock(bookings: seq<Booking>, roomId: string, start: Day, end: Day)
    requires forall k :: 0 <= k < |bookings| ==> bookings[k].roomId != roomId || bookings[k].status == Cancelled
    ensures CheckAvailability(bookings, roomId, start, end)
  {
  }

  /** Appending a booking that was checked available (and is active)
      keeps the invariant: the check-then-append of `createBooking`. */
  lemma {:induction false} AppendAvailableKeepsNoDoubleBooking(bookings: seq<Booking>, b: Booking)
    requires NoDoubleBooking(bookings)
    requires CheckAvailability(bookings, b.roomId, b.startDate, b.endDate)
    ensures NoDoubleBooking(bookings + [b])
  {
    var all := bookings + [b];
    var n := |bookings|;
    forall i: nat, j: nat | i < |all| && j < |all|
      ensures !Collide(all, i, j)
    {
      if i == n && j < n {
        assert !Blocks(bookings[j], b.roomId, b.startDate, b.endDate);
      } else if j == n && i < n {
        assert !Blocks(bookings[i], b.roomId, b.startDate, b.endDate);
      } else if i < n && j < n {
        assert !Collide(bookings, i, j);
      }
    }
  }

  /** Once stored, an active booking with a non-empty range makes that
      very range unavailable. */
  lemma StoredBookingBlocksItsRange(bookings: seq<Booking>, k: nat)
    requires k < |bookings| && Active(bookings[k])
    requires bookings[k].startDate < bookings[k].endDate
    ensures !CheckAvailability(bookings, bookings[k].roomId, bookings[k].startDate, bookings[k].endDate)
  {
    assert Blocks(bookings[k], bookings[k].roomId, bookings[k].startDate, bookings[k].endDate);
  }

  /** Setting the status of booking `k` to `status`. */
  function SetStatus(bookings: seq<Booking>, k: nat, status: BookingStatus): seq<Booking>
    requires k < |bookings|
  {
    bookings[k := bookings[k].(status := status)]
  }

  /** Cancelling a booking keeps the invariant. */
  lemma {:induction false} CancelKeepsNoDoubleBooking(bookings: seq<Booking>, k: nat)
    requires k < |bookings|
    requires NoDoubleBooking(bookings)
    ensures NoDoubleBooking(SetStatus(bookings, k, Cancelled))
  {
    var after := SetStatus(bookings, k, Cancelled);
    forall i: nat, j: nat | i < |after| && j < |after|
      ensures !Collide(after, i, j)
    {
      assert !Collide(bookings, i, j);
    }
  }

  /** Cancelling an active booking frees its range at once: with the
      invariant in force, nothing else holds those nights. */
  lemma {:induction false} CancelFreesRange(bookings: seq<Booking>, k: nat)
    requires k < |bookings| && Active(bookings[k])
    requires NoDoubleBooking(bookings)
    ensures CheckAvailability(SetStatus(bookings, k, Cancelled),
                              bookings[k].roomId, bookings[k].startDate, bookings[k].endDate)
  {
    var after := SetStatus(bookings, k, Cancelled);
    var b := bookings[k];
    forall j | 0 <= j < |after|
      ensures !Blocks(after[j], b.roomId, b.startDate, b.endDate)
    {
      if j != k {
        assert !Collide(bookings, k, j);
      }
    }
  }

  /** The limit of `updateBookingStatus`: it accepts any status, and
      re-activating a cancelled booking whose nights were since sold again
      breaks the invariant. */
  lemma ReactivationCanDoubleBook()
    ensures exists bookings: seq<Booking>, k: nat ::
      k < |bookings| && NoDoubleBooking(bookings) && !NoDoubleBooking(SetStatus(bookings, k, Confirmed))
  {
    var first := Booking("bk_1", "r1", "u1", "Ann", 10, 12, [], 198, Cancelled, "t1");
    var second := Booking("bk_2", "r1", "u2", "Bob", 11, 13, [], 198, Confirmed, "t2");
    var bookings := [first, second];
    forall i: nat, j: nat | i < |bookings| && j < |bookings|
      ensures !Collide(bookings, i, j)
    {
    }
    assert Collide(SetStatus(bookings, 0, Confirmed), 0, 1);
  }
}
