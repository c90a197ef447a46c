/** The booking wizard (components/BookingModal.tsx): its state (the two
    date inputs, the selected add-on ids, the error line and the current
    step) and the handlers that move it from dates to add-ons to payment
    and on to success, calling into the client-side store. */
module BookingModal {
  import opened Types
  import opened Catalog
  import opened Availability
  import opened Pricing
  import opened MockDb

  datatype Step = DatesStep | AddonsStep | PaymentStep | ProcessingStep | SuccessStep

  const MissingDatesMessage := "Please select both dates."
  const InvertedDatesMessage := "Check-out must be after check-in."
  const TakenDatesMessage := "These dates are not available. Please try another range."
  const FallbackMessage := "Booking failed"
  /** The message of the `TypeError` raised by reading `user!.id` when
      there is no user. */
  const NullUserMessage := "Cannot read properties of null (reading 'id')"

  predicate NoDuplicates(ids: seq<string>)
  {
    forall i, j :: 0 <= i < j < |ids| ==> ids[i] != ids[j]
  }

  /** `filter(a => a !== id)`: every other id, in order. */
  function Without(ids: seq<string>, id: string): (r: seq<string>)
    ensures forall x :: x in r <==> x in ids && x != id
    ensures |r| <= |ids|
  {
    if ids == [] then []
    else (if ids[0] == id then [] else [ids[0]]) + Without(ids[1..], id)
  }

  /** `toggleAddon`'s new selection: drop a selected id, append an
      unselected one. */
  function Toggle(ids: seq<string>, id: string): (r: seq<string>)
    ensures id in r <==> id !in ids
    ensures forall x :: x != id ==> (x in r <==> x in ids)
  {
    if id in ids then Without(ids, id) else ids + [id]
  }

  lemma {:induction false} WithoutKeepsNoDuplicates(ids: seq<string>, id: string)
    requires NoDuplicates(ids)
    ensures NoDuplicates(Without(ids, id))
  {
    if ids != [] {
      var rest := ids[1..];
      assert NoDuplicates(rest);
      WithoutKeepsNoDuplicates(rest, id);
      assert ids[0] !in rest;
      assert ids[0] !in Without(rest, id);
    }
  }

  /** Toggling never puts an id in the selection twice. */
  lemma ToggleKeepsNoDuplicates(ids: seq<string>, id: string)
    requires NoDuplicates(ids)
    ensures NoDuplicates(Toggle(ids, id))
  {
    if id in ids {
      WithoutKeepsNoDuplicates(ids, id);
    }
  }

  lemma {:induction false} WithoutAbsentIsIdentity(ids: seq<string>, id: string)
    requires id !in ids
    ensures Without(ids, id) == ids
  {
    if ids != [] {
      WithoutAbsentIsIdentity(ids[1..], id);
    }
  }

  lemma {:induction false} WithoutAppended(ids: seq<string>, id: string)
    ensures Without(ids + [id], id) == Without(ids, id)
  {
    if ids == [] {
      assert Without([id], id) == [] + Without([], id);
    } else {
      assert (ids + [id])[1..] == ids[1..] + [id];
      WithoutAppended(ids[1..], id);
    }
  }

  /** Toggling the same id twice restores the selection: the same ids
      when it was selected (now at the end), and exactly the same list
      when it was not. */
  lemma ToggleTwiceRestores(ids: seq<string>, id: string)
    ensures forall x :: x in Toggle(Toggle(ids, id), id) <==> x in ids
    ensures id !in ids ==> Toggle(Toggle(ids, id), id) == ids
  {
    if id !in ids {
      WithoutAppended(ids, id);
      WithoutAbsentIsIdentity(ids, id);
    }
  }

  class Wizard {
    const room: Room
    const user: Option<User>
    const db: Store
    var startDate: Option<Day>
    var endDate: Option<Day>
    var selectedAddons: seq<string>
    var error: string
    var step: Step

    /** Past the dates step the two dates are set and in order; the
        selection never holds an id twice. */
    ghost predicate Valid()
      reads this, db
    {
      db.Valid() && NoDuplicates(selectedAddons)
      && (step != DatesStep ==> startDate.Some? && endDate.Some? && startDate.value < endDate.value)
    }

    constructor (room: Room, user: Option<User>, db: Store)
      requires db.Valid()
      ensures Valid()
      ensures this.room == room && this.user == user && this.db == db
      ensures startDate == None && endDate == None && selectedAddons == [] && error == "" && step == DatesStep
    {
      this.room := room;
      this.user := user;
      this.db := db;
      startDate, endDate := None, None;
      selectedAddons := [];
      error := "";
      step := DatesStep;
    }

    /** The date inputs, shown only on the dates step; an emptied input
        is `None`. */
    method SetDates(start: Option<Day>, end: Option<Day>)
      requires Valid() && step == DatesStep
      modifies this`startDate, this`endDate
      ensures Valid()
      ensures startDate == start && endDate == end
    {
      startDate, endDate := start, end;
    }

    /** `handleCheckDates`: clear the error, then refuse a missing date, a
        check-out not after check-in, or a range the room is not free for;
        only when all three pass move on to the add-ons. */
    method HandleCheckDates()
      requires Valid()
      modifies this`error, this`step
      ensures Valid()
      ensures startDate.None? || endDate.None? ==> error == MissingDatesMessage && step == old(step)
      ensures startDate.Some? && endDate.Some? && startDate.value >= endDate.value ==>
        error == InvertedDatesMessage && step == old(step)
      ensures startDate.Some? && endDate.Some? && startDate.value < endDate.value ==>
        if CheckAvailability(db.bookings, room.id, startDate.value, endDate.value)
        then error == "" && step == AddonsStep
        else error == TakenDatesMessage && step == old(step)
    {
      error := "";
      if startDate.None? || endDate.None? {
        error := MissingDatesMessage;
        return;
      }
      if startDate.value >= endDate.value {
        error := InvertedDatesMessage;
        return;
      }
      if !CheckAvailability(db.bookings, room.id, startDate.value, endDate.value) {
        error := TakenDatesMessage;
        return;
      }
      step := AddonsStep;
    }

    /** `toggleAddon`. */
    method ToggleAddon(id: string)
      requires Valid()
      modifies this`selectedAddons
      ensures Valid()
      ensures selectedAddons == Toggle(old(selectedAddons), id)
    {
      ToggleKeepsNoDuplicates(selectedAddons, id);
      selectedAddons := Toggle(selectedAddons, id);
    }

    /** `handleAddonsNext`: without a user, ask the caller to navigate to
        the login page and stay; with one, go to payment. */
    method HandleAddonsNext() returns (navigateToLogin: bool)
      requires Valid() && step == AddonsStep
      modifies this`step
      ensures Valid()
      ensures navigateToLogin <==> user.None?
      ensures step == if user.None? then AddonsStep else PaymentStep
    {
      if user.None? {
        return true;
      }
      step := PaymentStep;
      navigateToLogin := false;
    }

    /** The Back button of the add-ons step. */
    method BackToDates()
      requires Valid() && step == AddonsStep
      modifies this`step
      ensures Valid() && step == DatesStep
    {
      step := DatesStep;
    }

    /** The Back button of the payment step. */
    method BackToAddons()
      requires Valid() && step == PaymentStep
      modifies this`step
      ensures Valid() && step == AddonsStep
    {
      step := AddonsStep;
    }

    /** `handlePayment`: pass through `processing`, book the selected
        dates for the user with the catalog entries of the selected ids
        and `calculateTotal()`, and end in `success`; any failure returns
        to `payment` with the error's message. */
    method HandlePayment(bookingId: string, createdAt: string)
      requires Valid() && step == PaymentStep
      requires BookingIdFree(db.bookings, bookingId)
      modifies this`step, this`error, db`bookings
      ensures Valid()
      ensures step == SuccessStep || step == PaymentStep
      ensures step == SuccessStep ==> error == old(error)
      ensures user.None? ==>
        step == PaymentStep && error == NullUserMessage && db.bookings == old(db.bookings)
      ensures user.Some? ==>
        var req := BookingRequest(room.id, user.value.id, user.value.name, startDate.value, endDate.value,
                                  CatalogEntries(selectedAddons),
                                  CalculateTotal(startDate, endDate, room.price, selectedAddons));
        if CheckAvailability(old(db.bookings), room.id, startDate.value, endDate.value)
        then step == SuccessStep && db.bookings == old(db.bookings) + [NewBooking(req, bookingId, Confirmed, createdAt)]
        else step == PaymentStep && error == UnavailableMessage && db.bookings == old(db.bookings)
    {
      step := ProcessingStep;
      var finalAddons := CatalogEntries(selectedAddons);
      if user.None? {
        error := NullUserMessage;
        step := PaymentStep;
        return;
      }
      var req := BookingRequest(room.id, user.value.id, user.value.name, startDate.value, endDate.value,
                                finalAddons, CalculateTotal(startDate, endDate, room.price, selectedAddons));
      var r := db.CreateBooking(req, bookingId, createdAt);
      if r.Ok? {
        step := SuccessStep;
      } else {
        error := if r.message == "" then FallbackMessage else r.message;
        step := PaymentStep;
      }
    }
  }
}
