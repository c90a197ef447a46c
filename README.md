# StaySimple reservation engine, modelled in Dafny

StaySimple is a small hotel-booking application. Guests browse rooms,
filter them by type and capacity, and book a date range with optional
add-ons (breakfast per night, shuttle, champagne, late checkout). An
administrator sees every booking, the revenue, a bookings-per-day chart,
and can cancel bookings and add rooms. Bookings live in a client-side
store (`services/mockDb.ts`); an in-memory HTTP server (`server.js`)
offers the same operations as routes.

This project models that core:

- `types.dfy` (module `Types`): the records of `types.ts`, plus `Option`,
  `Result` and the array `find`/`findIndex` search.
- `catalog.dfy` (module `Catalog`): the seed rooms, the add-on catalog and
  the administrator account of `constants.ts`, and the single seed room of
  the server.
- `availability.dfy` (module `Availability`): `checkAvailability` and the
  reservation invariant it protects: no two non-cancelled bookings of one
  room share a night.
- `accounts.dfy` (module `Accounts`): case-insensitive email matching, login
  lookup and the signup duplicate check.
- `mock_db.dfy` (module `MockDb`): the client-side store as a class whose
  methods replace its collections.
- `server.dfy` (module `Server`): the HTTP routes as methods of a class over
  the server's three arrays, each returning a status code and a body.
- `pricing.dfy` (module `Pricing`): nights, the add-on total and the total
  price the booking wizard computes.
- `booking_modal.dfy` (module `BookingModal`): the booking wizard's state
  machine (dates, add-ons, payment, processing, success) as a class.
- `admin_dashboard.dfy` (module `AdminDashboard`): the listing, the revenue
  figure, the chart, the cancel button and the add-room form.
- `room_list.dfy` (module `RoomList`): the room filters and the amenity
  chips.

Dates are ISO `YYYY-MM-DD` strings in the source. Comparing two such
strings, or the `Date` values parsed from them, agrees with comparing day
numbers, so a date is an integer day (`Types.Day`). An empty date input
of the wizard is `None`.

Where the code and its comments disagree, the model follows the code:

- The overlap test is the strict `startDate < bEnd && endDate > bStart`
  (services/mockDb.ts:62), not the inclusive rule in the comment on the
  line above. A check-out and a check-in on the same day do not conflict.
- `updateBookingStatus` ignores an unknown booking id without an error.
  It accepts any status and enforces no rule about which transitions
  are allowed.
- A booking's `totalPrice` is whatever the caller passes; the store does
  not recompute it.

## Model

| member | source | states |
|---|---|---|
| Types.FindIndex | services/mockDb.ts:91 | the index returned satisfies the predicate and no earlier element does; `None` exactly when no element satisfies it |
| Catalog.FindAddon | components/BookingModal.tsx:35 | the add-on found is in the catalog with the requested id; `None` only when no catalog entry has that id |
| Availability.CheckAvailability | services/mockDb.ts:50-64 | a range is available exactly when no booking of that room that is not cancelled overlaps it |
| Availability.AdjacentStaysDoNotConflict | services/mockDb.ts:62 | a stay that ends on the day another begins, or begins on the day it ends, is never blocked by it |
| Availability.OnlyActiveSameRoomBookingsBlock | services/mockDb.ts:56 | bookings of other rooms and cancelled bookings never make a room unavailable |
| Availability.AppendAvailableKeepsNoDoubleBooking | services/mockDb.ts:70-83 | appending a booking whose range was checked available keeps the no-double-booking invariant |
| Availability.StoredBookingBlocksItsRange | services/mockDb.ts:55-63 | once stored, an active booking with a non-empty range makes that very range unavailable |
| Availability.CancelKeepsNoDoubleBooking | services/mockDb.ts:88-96 | cancelling any booking keeps the invariant |
| Availability.CancelFreesRange | services/mockDb.ts:56 | under the invariant, cancelling an active booking makes its own range available again |
| Availability.ReactivationCanDoubleBook | services/mockDb.ts:88-96 | there are bookings satisfying the invariant where setting a cancelled booking back to confirmed breaks it |
| Accounts.LowerFoldsOnlyCase | services/mockDb.ts:120 | lower-casing keeps the length, changes only upper-case letters and is idempotent |
| Accounts.CaseOnlyDifferenceIsSameEmail | services/mockDb.ts:136 | two addresses that differ only in letter case are the same email |
| Accounts.CredentialsMatch | services/mockDb.ts:120 | the user found has the given email up to case and exactly the given password; `None` exactly when no user has both |
| Accounts.AppendFreshEmailKeepsUnique | services/mockDb.ts:136-149 | adding a user whose email is not taken keeps all emails distinct up to case |
| Accounts.LoginMatchIsTheOnlyAccount | services/mockDb.ts:120 | with distinct emails, no account other than the one matched has the login email |
| Accounts.LoginMatchMeansEmailTaken | services/mockDb.ts:132-138 | an email that logs in is taken, in any letter case, so signing up with it again is refused |
| MockDb.Store.constructor | services/mockDb.ts:12-26 | the store starts with the seed rooms, no bookings, the administrator account and no session, and satisfies its invariant |
| MockDb.Store.CreateBooking | services/mockDb.ts:66-86 | an unavailable range fails with the message "Room is no longer available for these dates." and stores nothing; otherwise the request is appended as a confirmed booking, after which its range is unavailable; unique ids and the no-double-booking invariant are kept |
| MockDb.Store.UpdateBookingStatus | services/mockDb.ts:88-96 | the booking with that id gets the new status and every other booking is unchanged; an unknown id changes nothing; a cancellation keeps the invariant |
| MockDb.Store.AddRoom | services/mockDb.ts:98-103 | the room is appended exactly as given; the store's invariant is kept |
| MockDb.Store.Login | services/mockDb.ts:116-130 | without a matching user it fails and keeps the session; otherwise the matched user, without password, is returned and becomes the session that `getCurrentUser` reports |
| MockDb.Store.Signup | services/mockDb.ts:132-154 | a taken email fails and changes nothing; otherwise a customer is appended and becomes the session that `getCurrentUser` reports; emails stay distinct |
| MockDb.Store.Logout | services/mockDb.ts:156-158 | the session is empty afterwards and `getCurrentUser` reports nobody |
| MockDb.Store.CurrentUser | services/mockDb.ts:160-163 | nobody exactly when the session slot is empty; otherwise a stored account without its password |
| Server.Api.constructor | server.js:22-47 | the server starts with its one seed room, no bookings and the administrator |
| Server.Api.Login | server.js:64-74 | 401 exactly when no user matches; otherwise 200 with the matched user without password; nothing is stored |
| Server.Api.Signup | server.js:76-94 | 400 and no change for a taken email; otherwise 201 and the new customer appended; emails stay distinct |
| Server.Api.GetRooms | server.js:97-99 | 200 with all rooms in stored order |
| Server.Api.PostRoom | server.js:101-106 | 201; the stored room is the body with a fresh id and zero rating and reviews, and every other field kept |
| Server.Api.GetBookings | server.js:109-112 | 200 with all bookings, unfiltered |
| Server.Api.PostBooking | server.js:114-136 | 409 and no change when the range is taken; otherwise 201 with a confirmed booking appended, absent add-ons becoming the empty list; the invariant is kept |
| Server.Api.PatchBooking | server.js:138-149 | 404 and no change for an unknown id; otherwise the first booking with that id gets the status and is returned; a cancellation keeps the invariant |
| Pricing.GetDays | components/BookingModal.tsx:24-30 | no nights while either date is missing |
| Pricing.GetDaysIsDistance | components/BookingModal.tsx:24-30 | the nights do not depend on the order of the dates, are the positive difference for a valid stay, and are zero only for equal dates |
| Pricing.ContributionSplit | components/BookingModal.tsx:35-37 | one selected id costs its nightly price times the nights plus its one-time fee, and nothing when it is not in the catalog |
| Pricing.AddonsTotalClosedForm | components/BookingModal.tsx:32-39 | the add-on total is the nights times the per-night prices plus the one-time fees of the selected catalog add-ons |
| Pricing.CatalogEntries | components/BookingModal.tsx:88-90 | the stored snapshots are catalog entries of selected ids, never more than the ids selected |
| Pricing.CatalogEntriesComplete | components/BookingModal.tsx:88-90 | every selected id that is in the catalog has its entry among the snapshots |
| Pricing.CatalogEntriesAppend | components/BookingModal.tsx:88-90 | the snapshots follow the selection order: a selection's entries are those of its first part followed by those of the rest |
| Pricing.CatalogEntriesSingle | components/BookingModal.tsx:89-90 | one selected id yields its catalog entry, or nothing when it is not in the catalog |
| Pricing.AddonsTotalMatchesSnapshots | components/BookingModal.tsx:32-39 | the add-on total charged equals the cost of the add-on snapshots the booking stores |
| Pricing.CalculateTotalClosedForm | components/BookingModal.tsx:41-45 | with both dates set, the total is the nights times the room rate plus the per-night add-on prices, plus the one-time fees |
| Pricing.MissingDateChargesOnlyOneTimeFees | components/BookingModal.tsx:41-45 | while a date is missing, the total is just the one-time add-on fees |
| Pricing.ThreeNightsWithBreakfastAndShuttle | components/BookingModal.tsx:41-45 | three nights at 100 with breakfast and the shuttle cost 425 |
| BookingModal.Without | components/BookingModal.tsx:77 | removing an id keeps exactly the other ids |
| BookingModal.Toggle | components/BookingModal.tsx:75-81 | the toggled id is selected afterwards exactly when it was not before; other ids keep their state |
| BookingModal.ToggleKeepsNoDuplicates | components/BookingModal.tsx:75-81 | toggling never selects an id twice |
| BookingModal.ToggleTwiceRestores | components/BookingModal.tsx:75-81 | toggling an id twice restores the set of selected ids, and the very same list when the id was not selected |
| BookingModal.Wizard.constructor | components/BookingModal.tsx:15-19 | the wizard starts on the dates step with empty dates, no add-ons and no error |
| BookingModal.Wizard.SetDates | components/BookingModal.tsx:192-208 | the date inputs take the entered values |
| BookingModal.Wizard.HandleCheckDates | components/BookingModal.tsx:47-65 | a missing date, a check-out not after check-in, or a taken range each sets its message and stays; otherwise the error is cleared and the add-ons step follows |
| BookingModal.Wizard.ToggleAddon | components/BookingModal.tsx:75-81 | the selection becomes its toggle and keeps no duplicates |
| BookingModal.Wizard.HandleAddonsNext | components/BookingModal.tsx:67-73 | without a user it asks for the login page and stays; with one it moves to payment |
| BookingModal.Wizard.BackToDates | components/BookingModal.tsx:252 | the add-ons step goes back to the dates step |
| BookingModal.Wizard.BackToAddons | components/BookingModal.tsx:286 | the payment step goes back to the add-ons step |
| BookingModal.Wizard.HandlePayment | components/BookingModal.tsx:83-110 | a booking for the user, the dates, the catalog add-ons and the computed total is created and the wizard ends in success; an unavailable range or a missing user returns to payment with the error's message and stores nothing |
| AdminDashboard.Reverse | components/AdminDashboard.tsx:19 | the listing holds every booking, newest first |
| AdminDashboard.ActiveOnly | components/AdminDashboard.tsx:96 | keeps exactly the bookings that are not cancelled |
| AdminDashboard.RevenueIsSumOfActivePrices | components/AdminDashboard.tsx:96 | the revenue is the sum of the prices of the bookings that are not cancelled |
| AdminDashboard.RevenueOfReversed | components/AdminDashboard.tsx:19 | listing newest first does not change the revenue |
| AdminDashboard.CancelLowersRevenue | components/AdminDashboard.tsx:96 | cancelling an active booking lowers the revenue by exactly its price |
| AdminDashboard.NewBookingAddsItsPrice | components/AdminDashboard.tsx:96 | a new confirmed booking raises the revenue by exactly its price |
| AdminDashboard.GroupByStartDate | components/AdminDashboard.tsx:47-54 | one point per distinct start date, counting the bookings that start on it; the counts add up to the number of bookings |
| AdminDashboard.Insert | components/AdminDashboard.tsx:55 | inserting adds exactly one element and loses none |
| AdminDashboard.InsertKeepsStrictlySorted | components/AdminDashboard.tsx:55 | inserting a point with a new date into a date-sorted list keeps it sorted |
| AdminDashboard.SortByName | components/AdminDashboard.tsx:55 | the sorted points are a permutation of the points, sorted by date when the dates are distinct |
| AdminDashboard.LastSeven | components/AdminDashboard.tsx:55 | the last seven points in order, or all of them when there are at most seven |
| AdminDashboard.ChartData | components/AdminDashboard.tsx:47-55 | at most seven points, sorted by date, each counting the bookings that start on it; any start date left out is older than all seven shown |
| AdminDashboard.CancelAction | components/AdminDashboard.tsx:168-170 | the Cancel button exists exactly for a booking that is not cancelled, and asks for the cancelled status |
| AdminDashboard.HandleAddRoom | components/AdminDashboard.tsx:28-45 | the store gains a standard room for two with the entered name and price and no rating or reviews |
| AdminDashboard.HandleCancel | components/AdminDashboard.tsx:23-26 | the booking is cancelled, every other booking is unchanged, the invariant holds, and the refreshed listing is newest first |
| RoomList.FilterRooms | components/RoomList.tsx:13-19 | a room is listed exactly when it matches both drop-downs |
| RoomList.FilterKeepsOrder | components/RoomList.tsx:14 | the listed rooms keep their order in the room list |
| RoomList.NoFilterListsEveryRoom | components/RoomList.tsx:15-16 | with both drop-downs on "all" every room is listed |
| RoomList.FilterIsSoundAndComplete | components/RoomList.tsx:15-17 | only rooms of the chosen type and at least the chosen capacity are listed, and every such room is |
| RoomList.AmenityChipsAccountForAll | components/RoomList.tsx:91-97 | at most three chips from the front of the list; a "+k" badge exactly when amenities are hidden, counting them |

## Left out

- Persistence in `localStorage` and the JSON round trip through it are not modelled: the store's collections are fields of a class.
- The simulated network delays (`setTimeout` promises) and all `async` interleavings are left out; every operation runs to completion atomically.
- The booking wizard's `processing` step is entered and left within one `HandlePayment` call, so no state in the model rests on it.
- Ids from `Date.now()` and `Math.random()`, and `createdAt` from `new Date()`, are parameters. `MockDb.Store.CreateBooking` and `BookingModal.Wizard.HandlePayment` require the new booking id to be unused, which the source relies on its random suffix for.
- BookingModal.Wizard.HandlePayment: with no user, the error shown is the message of the `TypeError` from reading `user!.id`; the model uses the wording of the V8 engine, and other JavaScript engines word it differently.
- `toLowerCase` is modelled on ASCII letters only; Unicode case mapping is not.
- Prices are integers; the dashboard's `Number(newRoomPrice)` and fractional prices are not modelled. Ratings are `real`.
- The date inputs' `min={today}` bound is a browser-side constraint and is not modelled.
- Server.Api.Login and Server.Api.Signup: a request without an email makes the source throw, which Express answers with 500; the model always has an email.
- Server.Api.PatchBooking: the body's `status` may be any JSON value in the source; the model accepts only the four statuses.
- Server.Api.PostRoom: the body may carry any fields in the source; the model takes a complete room.
- `server.js`'s `checkAvailability` (server.js:50-59) is the same predicate as the client store's and is modelled once, as `Availability.CheckAvailability`.
- The wizard's `onSuccess`, `onClose` and `onNavigateLogin` callbacks are not modelled beyond `HandleAddonsNext` returning whether to navigate to login.
- The admin dashboard's view tabs, `refreshData`'s re-read of rooms, and the rendering are not modelled.
- `App.tsx`, `components/Layout.tsx`, `components/ConciergeChat.tsx` and `services/geminiService.ts` are not part of this model.
- AdminDashboard.SortByName: the comparator is `localeCompare` on ISO date strings, modelled as day-number order; the sort's stability for equal dates is not modelled, as grouping leaves no equal dates.
