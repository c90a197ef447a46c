/** The administrator's dashboard (components/AdminDashboard.tsx): the
    bookings listing, the revenue figure, the bookings-per-day chart, the
    cancel action and the add-room form, over the client-side store. */
module AdminDashboard {
  import opened Types
  import opened Availability
  import opened MockDb

  /** `reverse`: the listing shows the newest booking first. */
  function Reverse(bookings: seq<Booking>): (r: seq<Booking>)
    ensures |r| == |bookings|
    ensures forall i :: 0 <= i < |r| ==> r[i] == bookings[|bookings| - 1 - i]
  {
    if bookings == [] then [] else Reverse(bookings[1..]) + [bookings[0]]
  }

  /** `filter(b => b.status !== CANCELLED)`. */
  function ActiveOnly(bookings: seq<Booking>): (r: seq<Booking>)
    ensures forall b :: b in r <==> b in bookings && Active(b)
  {
    if bookings == [] then []
    else (if Active(bookings[0]) then [bookings[0]] else []) + ActiveOnly(bookings[1..])
  }

  /** `reduce((acc, b) => acc + b.totalPrice, 0)`. */
  function SumPrices(bookings: seq<Booking>): int
  {
    if bookings == [] then 0 else SumPrices(bookings[..|bookings| - 1]) + bookings[|bookings| - 1].totalPrice
  }

  /** The revenue figure. */
  function Revenue(bookings: seq<Booking>): int
  {
    SumPrices(ActiveOnly(bookings))
  }

  /** Revenue counted booking by booking: the price of each booking that
      is not cancelled, nothing for a cancelled one. */
  function RevenueOf(bookings: seq<Booking>): int
  {
    if bookings == [] then 0
    else (if Active(bookings[0]) then bookings[0].totalPrice else 0) + RevenueOf(bookings[1..])
  }

  lemma {:induction false} SumPricesPrepend(b: Booking, rest: seq<Booking>)
    ensures SumPrices([b] + rest) == b.totalPrice + SumPrices(rest)
  {
    if rest != [] {
      var all := [b] + rest;
      assert all[..|all| - 1] == [b] + rest[..|rest| - 1];
      SumPricesPrepend(b, rest[..|rest| - 1]);
    } else {
      assert ([b] + rest)[..0] == [];
    }
  }

  /** The figure is the sum of `totalPrice` over the bookings that are not
      cancelled. */
  lemma {:induction false} RevenueIsSumOfActivePrices(bookings: seq<Booking>)
    ensures Revenue(bookings) == RevenueOf(bookings)
  {
    if bookings != [] {
      RevenueIsSumOfActivePrices(bookings[1..]);
      if Active(bookings[0]) {
        SumPricesPrepend(bookings[0], ActiveOnly(bookings[1..]));
      } else {
        assert ActiveOnly(bookings) == ActiveOnly(bookings[1..]);
      }
    }
  }

  lemma {:induction false} RevenueOfAppend(a: seq<Booking>, b: seq<Booking>)
    ensures RevenueOf(a + b) == RevenueOf(a) + RevenueOf(b)
  {
    if a != [] {
      assert (a + b)[1..] == a[1..] + b;
      RevenueOfAppend(a[1..], b);
    } else {
      assert a + b == b;
    }
  }

  /** Listing the bookings newest first does not change the revenue. */
  lemma {:induction false} RevenueOfReversed(bookings: seq<Booking>)
    ensures Revenue(Reverse(bookings)) == Revenue(bookings)
  {
    RevenueIsSumOfActivePrices(bookings);
    RevenueIsSumOfActivePrices(Reverse(bookings));
    RevenueOfReversedSum(bookings);
  }

  lemma {:induction false} RevenueOfReversedSum(bookings: seq<Booking>)
    ensures RevenueOf(Reverse(bookings)) == RevenueOf(bookings)
  {
    if bookings != [] {
      RevenueOfReversedSum(bookings[1..]);
      RevenueOfAppend(Reverse(bookings[1..]), [bookings[0]]);
      assert [bookings[0]][1..] == [];
    }
  }

  /** Cancelling an active booking lowers the revenue by exactly its price. */
  lemma {:induction false} CancelLowersRevenue(bookings: seq<Booking>, k: nat)
    requires k < |bookings| && Active(bookings[k])
    ensures Revenue(SetStatus(bookings, k, Cancelled)) == Revenue(bookings) - bookings[k].totalPrice
  {
    var after := SetStatus(bookings, k, Cancelled);
    RevenueIsSumOfActivePrices(bookings);
    RevenueIsSumOfActivePrices(after);
    assert bookings == bookings[..k] + [bookings[k]] + bookings[k + 1..];
    assert after == bookings[..k] + [after[k]] + bookings[k + 1..];
    RevenueOfAppend(bookings[..k] + [bookings[k]], bookings[k + 1..]);
    RevenueOfAppend(bookings[..k], [bookings[k]]);
    RevenueOfAppend(bookings[..k] + [after[k]], bookings[k + 1..]);
    RevenueOfAppend(bookings[..k], [after[k]]);
    assert [bookings[k]][1..] == [] && [after[k]][1..] == [];
  }

  /** A new confirmed booking adds exactly its price to the revenue. */
  lemma NewBookingAddsItsPrice(bookings: seq<Booking>, b: Booking)
    requires b.status == Confirmed
    ensures Revenue(bookings + [b]) == Revenue(bookings) + b.totalPrice
  {
    RevenueIsSumOfActivePrices(bookings);
    RevenueIsSumOfActivePrices(bookings + [b]);
    RevenueOfAppend(bookings, [b]);
    assert [b][1..] == [];
  }

  /** One bar of the chart: a start date and how many bookings start on it. */
  datatype ChartPoint = ChartPoint(name: Day, bookings: nat)

  /** How many of the bookings start on `day`. */
  function CountOn(bookings: seq<Booking>, day: Day): nat
  {
    if bookings == [] then 0
    else CountOn(bookings[..|bookings| - 1], day) + (if bookings[|bookings| - 1].startDate == day then 1 else 0)
  }

  /** The sum of the bars. */
  function TotalCount(points: seq<ChartPoint>): nat
  {
    if points == [] then 0 else TotalCount(points[..|points| - 1]) + points[|points| - 1].bookings
  }

  predicate DistinctNames(points: seq<ChartPoint>)
  {
    forall i, j :: 0 <= i < j < |points| ==> points[i].name != points[j].name
  }

  predicate StrictlySorted(points: seq<ChartPoint>)
  {
    forall i, j :: 0 <= i < j < |points| ==> points[i].name < points[j].name
  }

  lemma {:induction false} TotalCountAppend(points: seq<ChartPoint>, p: ChartPoint)
    ensures TotalCount(points + [p]) == TotalCount(points) + p.bookings
  {
    assert (points + [p])[..|points|] == points;
  }

  lemma {:induction false} TotalCountBump(points: seq<ChartPoint>, k: nat)
    requires k < |points|
    ensures TotalCount(points[k := points[k].(bookings := points[k].bookings + 1)]) == TotalCount(points) + 1
  {
    var bumped := points[k := points[k].(bookings := points[k].bookings + 1)];
    var n := |points|;
    if k == n - 1 {
      assert bumped[..n - 1] == points[..n - 1];
    } else {
      var init := points[..n - 1];
      TotalCountBump(init, k);
      assert bumped[..n - 1] == init[k := init[k].(bookings := init[k].bookings + 1)];
    }
  }

  /** Some point is labelled `day`. */
  predicate HasPoint(points: seq<ChartPoint>, day: Day)
  {
    exists k :: 0 <= k < |points| && points[k].name == day
  }

  /** What the chart's accumulator holds after the bookings `seen`: one
      point per distinct start date, each counting the bookings that start
      on it, all of `seen` counted. */
  ghost predicate Grouped(seen: seq<Booking>, acc: seq<ChartPoint>)
  {
    && DistinctNames(acc)
    && (forall k :: 0 <= k < |acc| ==> acc[k].bookings == CountOn(seen, acc[k].name) > 0)
    && (forall j :: 0 <= j < |seen| ==> HasPoint(acc, seen[j].startDate))
    && TotalCount(acc) == |seen|
  }

  lemma CountOnAppend(seen: seq<Booking>, b: Booking, day: Day)
    ensures CountOn(seen + [b], day) == CountOn(seen, day) + (if b.startDate == day then 1 else 0)
  {
    assert (seen + [b])[..|seen|] == seen;
  }

  /** A booking whose start date already has a point bumps that point. */
  lemma {:induction false} GroupedBump(seen: seq<Booking>, b: Booking, acc: seq<ChartPoint>, k: nat)
    requires Grouped(seen, acc)
    requires k < |acc| && acc[k].name == b.startDate
    ensures Grouped(seen + [b], acc[k := acc[k].(bookings := acc[k].bookings + 1)])
  {
    var after := acc[k := acc[k].(bookings := acc[k].bookings + 1)];
    var all := seen + [b];
    TotalCountBump(acc, k);
    forall m | 0 <= m < |after|
      ensures after[m].bookings == CountOn(all, after[m].name) > 0
    {
      CountOnAppend(seen, b, after[m].name);
    }
    forall j | 0 <= j < |all|
      ensures HasPoint(after, all[j].startDate)
    {
      if j < |seen| {
        var m :| 0 <= m < |acc| && acc[m].name == seen[j].startDate;
        assert after[m].name == all[j].startDate;
      } else {
        assert after[k].name == all[j].startDate;
      }
    }
  }

  /** A booking whose start date has no point yet gets a new point of 1. */
  lemma {:induction false} GroupedPush(seen: seq<Booking>, b: Booking, acc: seq<ChartPoint>)
    requires Grouped(seen, acc)
    requires forall k :: 0 <= k < |acc| ==> acc[k].name != b.startDate
    ensures Grouped(seen + [b], acc + [ChartPoint(b.startDate, 1)])
  {
    var p := ChartPoint(b.startDate, 1);
    var after := acc + [p];
    var all := seen + [b];
    TotalCountAppend(acc, p);
    forall m | 0 <= m < |after|
      ensures after[m].bookings == CountOn(all, after[m].name) > 0
    {
      CountOnAppend(seen, b, after[m].name);
      if m == |acc| {
        assert !HasPoint(acc, b.startDate);
        assert CountOn(seen, b.startDate) == 0 by {
          CountAbsent(seen, acc, b.startDate);
        }
      }
    }
    forall j | 0 <= j < |all|
      ensures HasPoint(after, all[j].startDate)
    {
      if j < |seen| {
        var m :| 0 <= m < |acc| && acc[m].name == seen[j].startDate;
        assert after[m].name == all[j].startDate;
      } else {
        assert after[|acc|].name == all[j].startDate;
      }
    }
  }

  /** A date without a point is the start of none of the bookings seen. */
  lemma {:induction false} CountAbsent(seen: seq<Booking>, acc: seq<ChartPoint>, day: Day)
    requires forall j :: 0 <= j < |seen| ==> HasPoint(acc, seen[j].startDate)
    requires !HasPoint(acc, day)
    ensures CountOn(seen, day) == 0
  {
    if seen != [] {
      var init := seen[..|seen| - 1];
      assert forall j :: 0 <= j < |init| ==> init[j] == seen[j];
      CountAbsent(init, acc, day);
      assert seen[|seen| - 1].startDate != day;
    }
  }

  /** The chart's `reduce`: one point per distinct start date, found with
      `find` and bumped in place, or pushed with a count of 1. */
  method GroupByStartDate(bookings: seq<Booking>) returns (acc: seq<ChartPoint>)
    ensures DistinctNames(acc)
    ensures forall k :: 0 <= k < |acc| ==> acc[k].bookings == CountOn(bookings, acc[k].name) > 0
    ensures forall i :: 0 <= i < |bookings| ==> HasPoint(acc, bookings[i].startDate)
    ensures TotalCount(acc) == |bookings|
  {
    acc := [];
    var i := 0;
    while i < |bookings|
      invariant 0 <= i <= |bookings|
      invariant Grouped(bookings[..i], acc)
    {
      var b := bookings[i];
      assert bookings[..i + 1] == bookings[..i] + [b];
      var found := FindIndex(acc, (p: ChartPoint) => p.name == b.startDate);
      if found.Some? {
        GroupedBump(bookings[..i], b, acc, found.value);
        acc := acc[found.value := acc[found.value].(bookings := acc[found.value].bookings + 1)];
      } else {
        GroupedPush(bookings[..i], b, acc);
        acc := acc + [ChartPoint(b.startDate, 1)];
      }
      i := i + 1;
    }
    assert bookings[..i] == bookings;
  }

  /** Put `p` in its place in a list sorted by name. */
  function Insert(p: ChartPoint, sorted: seq<ChartPoint>): (r: seq<ChartPoint>)
    ensures multiset(r) == multiset(sorted) + multiset{p}
    ensures forall x :: x in r <==> x == p || x in sorted
  {
    if sorted == [] || p.name <= sorted[0].name then [p] + sorted
    else
      assert sorted == [sorted[0]] + sorted[1..];
      [sorted[0]] + Insert(p, sorted[1..])
  }

  lemma {:induction false} InsertKeepsStrictlySorted(p: ChartPoint, sorted: seq<ChartPoint>)
    requires StrictlySorted(sorted)
    requires forall q :: q in sorted ==> q.name != p.name
    ensures StrictlySorted(Insert(p, sorted))
  {
    if sorted == [] || p.name <= sorted[0].name {
      var r := [p] + sorted;
      forall a, b | 0 <= a < b < |r|
        ensures r[a].name < r[b].name
      {
        if a == 0 {
          assert r[b] == sorted[b - 1];
          assert sorted[0] in sorted;
        }
      }
    } else {
      var tail := sorted[1..];
      InsertKeepsStrictlySorted(p, tail);
      var inserted := Insert(p, tail);
      var r := [sorted[0]] + inserted;
      forall a, b | 0 <= a < b < |r|
        ensures r[a].name < r[b].name
      {
        if a == 0 {
          var x := inserted[b - 1];
          assert x in inserted;
          if x != p {
            var m :| 0 <= m < |tail| && tail[m] == x;
            assert sorted[m + 1] == x;
          }
        } else {
          assert r[a] == inserted[a - 1] && r[b] == inserted[b - 1];
        }
      }
    }
  }

  /** `sort((a, b) => a.name.localeCompare(b.name))`: ISO dates compare
      as their day numbers. */
  function SortByName(points: seq<ChartPoint>): (r: seq<ChartPoint>)
    ensures multiset(r) == multiset(points)
    ensures forall x :: x in r <==> x in points
    ensures DistinctNames(points) ==> StrictlySorted(r)
  {
    if points == [] then []
    else
      var rest := SortByName(points[1..]);
      assert points == [points[0]] + points[1..];
      if DistinctNames(points) then
        FreshNameAmongRest(points, rest);
        InsertKeepsStrictlySorted(points[0], rest);
        Insert(points[0], rest)
      else
        Insert(points[0], rest)
  }

  lemma FreshNameAmongRest(points: seq<ChartPoint>, rest: seq<ChartPoint>)
    requires points != [] && DistinctNames(points)
    requires forall x :: x in rest <==> x in points[1..]
    ensures forall q :: q in rest ==> q.name != points[0].name
  {
    forall q | q in rest
      ensures q.name != points[0].name
    {
      var m :| 0 <= m < |points[1..]| && points[1..][m] == q;
      assert points[m + 1] == q;
    }
  }

  /** `slice(-7)`: the last seven points, or all of them when fewer. */
  function LastSeven(points: seq<ChartPoint>): (r: seq<ChartPoint>)
    ensures |r| == if |points| <= 7 then |points| else 7
    ensures r == points[|points| - |r|..]
  {
    if |points| <= 7 then points else points[|points| - 7..]
  }

  /** `chartData`: bookings per start date, sorted by date, the latest
      seven dates only. */
  method ChartData(bookings: seq<Booking>) returns (chart: seq<ChartPoint>)
    ensures |chart| <= 7
    ensures StrictlySorted(chart)
    ensures forall k :: 0 <= k < |chart| ==> chart[k].bookings == CountOn(bookings, chart[k].name) > 0
    ensures forall i :: 0 <= i < |bookings| ==>
      HasPoint(chart, bookings[i].startDate) || (|chart| == 7 && bookings[i].startDate < chart[0].name)
  {
    var groups := GroupByStartDate(bookings);
    var sorted := SortByName(groups);
    chart := LastSeven(sorted);
    SuffixComesFromGroups(groups, sorted, chart, bookings);
    forall i | 0 <= i < |bookings|
      ensures HasPoint(chart, bookings[i].startDate) || (|chart| == 7 && bookings[i].startDate < chart[0].name)
    {
      LatestDatesKept(groups, sorted, chart, bookings[i].startDate);
    }
  }

  /** Every point of the chart is one of the grouped points, so it counts
      the bookings of its date. */
  lemma SuffixComesFromGroups(groups: seq<ChartPoint>, sorted: seq<ChartPoint>, chart: seq<ChartPoint>,
                              bookings: seq<Booking>)
    requires forall k :: 0 <= k < |groups| ==> groups[k].bookings == CountOn(bookings, groups[k].name) > 0
    requires multiset(sorted) == multiset(groups)
    requires chart == LastSeven(sorted)
    ensures forall k :: 0 <= k < |chart| ==> chart[k].bookings == CountOn(bookings, chart[k].name) > 0
  {
    forall k | 0 <= k < |chart|
      ensures chart[k].bookings == CountOn(bookings, chart[k].name) > 0
    {
      assert chart[k] in sorted;
      assert chart[k] in multiset(groups);
      var g :| 0 <= g < |groups| && groups[g] == chart[k];
    }
  }

  /** A date that has a point before slicing is either still charted or
      older than every charted date, and then seven dates are charted. */
  lemma LatestDatesKept(groups: seq<ChartPoint>, sorted: seq<ChartPoint>, chart: seq<ChartPoint>, day: Day)
    requires HasPoint(groups, day)
    requires multiset(sorted) == multiset(groups) && StrictlySorted(sorted)
    requires chart == LastSeven(sorted)
    ensures HasPoint(chart, day) || (|chart| == 7 && day < chart[0].name)
  {
    var g :| 0 <= g < |groups| && groups[g].name == day;
    assert groups[g] in multiset(sorted);
    var m :| 0 <= m < |sorted| && sorted[m] == groups[g];
    var cut := |sorted| - |chart|;
    assert chart == sorted[cut..];
    if m >= cut {
      assert chart[m - cut].name == day;
    } else {
      assert sorted[m].name < sorted[cut].name;
    }
  }

  /** The Cancel button: offered only for a booking not already
      cancelled, and it asks for the status `CANCELLED`. */
  function CancelAction(b: Booking): (request: Option<BookingStatus>)
    ensures request.Some? <==> Active(b)
    ensures request.Some? ==> request.value == Cancelled
  {
    if b.status != Cancelled then Some(Cancelled) else None
  }

  /** `handleAddRoom`'s record: a standard room for two with the entered
      name and price, the default description, amenities and picture,
      and no rating or reviews yet. */
  function FormRoom(id: string, name: string, price: int): Room
  {
    Room(id, name, Standard, price, 2, "New room added by admin.", ["Wifi"],
         "https://picsum.photos/800/600", 0.0, 0)
  }

  /** `handleAddRoom`: the store gains the form's room at the end. */
  method HandleAddRoom(db: Store, id: string, name: string, price: int)
    requires db.Valid()
    modifies db`rooms
    ensures db.Valid()
    ensures db.rooms == old(db.rooms) + [FormRoom(id, name, price)]
    ensures var r := db.rooms[|db.rooms| - 1];
      r.roomType == Standard && r.capacity == 2 && r.rating == 0.0 && r.reviews == 0
      && r.name == name && r.price == price
  {
    db.AddRoom(FormRoom(id, name, price));
  }

  /** `handleStatusChange` from the Cancel button: the booking is cancelled,
      the reservation invariant still holds, and the refreshed listing is
      the stored bookings newest first. */
  method HandleCancel(db: Store, b: Booking) returns (listing: seq<Booking>)
    requires db.Valid() && CancelAction(b).Some?
    modifies db`bookings
    ensures db.Valid()
    ensures NoDoubleBooking(old(db.bookings)) ==> NoDoubleBooking(db.bookings)
    ensures |db.bookings| == |old(db.bookings)|
    ensures forall k :: 0 <= k < |db.bookings| ==>
      db.bookings[k] == if old(db.bookings)[k].id == b.id then old(db.bookings)[k].(status := Cancelled) else old(db.bookings)[k]
    ensures listing == Reverse(db.bookings)
  {
    db.UpdateBookingStatus(b.id, CancelAction(b).value);
    listing := Reverse(db.bookings);
  }
}
