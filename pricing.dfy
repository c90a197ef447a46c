/** Pricing in the booking wizard (components/BookingModal.tsx): nights,
    the add-on total and the total the wizard hands to `createBooking`. */
module Pricing {
  import opened Types
  import opened Catalog

  /** `getDays`: 0 while either date input is empty, otherwise the
      whole number of days between the two dates, in either order. */
  function GetDays(start: Option<Day>, end: Option<Day>): (days: nat)
    ensures start.None? || end.None? ==> days == 0
  {
    if start.None? || end.None? then 0
    else if end.value >= start.value then end.value - start.value
    else start.value - end.value
  }

  /** The number of nights does not depend on which date is which, and
      for a valid stay it is the positive difference of the dates. */
  lemma GetDaysIsDistance(start: Day, end: Day)
    ensures GetDays(Some(start), Some(end)) == GetDays(Some(end), Some(start))
    ensures start < end ==> GetDays(Some(start), Some(end)) == end - start > 0
    ensures GetDays(Some(start), Some(end)) == 0 <==> start == end
  {
  }

  /** What one add-on costs for a stay of `days` nights. */
  function AddonCost(a: Addon, days: nat): int
  {
    if a.kind == PerNight then a.price * days else a.price
  }

  /** What one selected id adds: nothing when it is not in the catalog. */
  function Contribution(id: string, days: nat): int
  {
    match FindAddon(id)
    case None => 0
    case Some(a) => AddonCost(a, days)
  }

  /** `calculateAddonsTotal`: the `reduce` over the selected ids, from the
      left, starting at 0. */
  function AddonsTotal(selected: seq<string>, days: nat): int
  {
    if selected == [] then 0
    else AddonsTotal(selected[..|selected| - 1], days) + Contribution(selected[|selected| - 1], days)
  }

  /** `calculateTotal`: nights times the room rate plus the add-ons. */
  function CalculateTotal(start: Option<Day>, end: Option<Day>, rate: int, selected: seq<string>): int
  {
    GetDays(start, end) * rate + AddonsTotal(selected, GetDays(start, end))
  }

  /** The summed nightly price of the selected catalog add-ons charged per night. */
  function NightlyAddonRate(selected: seq<string>): int
  {
    if selected == [] then 0
    else
      var rest := NightlyAddonRate(selected[1..]);
      match FindAddon(selected[0])
      case Some(a) => if a.kind == PerNight then a.price + rest else rest
      case None => rest
  }

  /** The summed price of the selected catalog add-ons charged once. */
  function OneTimeFees(selected: seq<string>): int
  {
    if selected == [] then 0
    else
      var rest := OneTimeFees(selected[1..]);
      match FindAddon(selected[0])
      case Some(a) => if a.kind == OneTime then a.price + rest else rest
      case None => rest
  }

  lemma {:induction false} NightlyAddonRateAppend(selected: seq<string>, id: string)
    ensures NightlyAddonRate(selected + [id]) == NightlyAddonRate(selected) + NightlyAddonRate([id])
  {
    if selected != [] {
      assert (selected + [id])[1..] == selected[1..] + [id];
      NightlyAddonRateAppend(selected[1..], id);
    }
  }

  lemma {:induction false} OneTimeFeesAppend(selected: seq<string>, id: string)
    ensures OneTimeFees(selected + [id]) == OneTimeFees(selected) + OneTimeFees([id])
  {
    if selected != [] {
      assert (selected + [id])[1..] == selected[1..] + [id];
      OneTimeFeesAppend(selected[1..], id);
    }
  }

  /** One selected id contributes its nightly price times the nights
      plus its one-time fee. */
  lemma ContributionSplit(id: string, days: nat)
    ensures Contribution(id, days) == days * NightlyAddonRate([id]) + OneTimeFees([id])
  {
    assert [id][1..] == [];
  }

  /** The add-on total in closed form: per-night add-ons cost their price
      every night, one-time add-ons cost their price once, and ids that
      are not in the catalog cost nothing. */
  lemma {:induction false} AddonsTotalClosedForm(selected: seq<string>, days: nat)
    ensures AddonsTotal(selected, days) == days * NightlyAddonRate(selected) + OneTimeFees(selected)
  {
    if selected != [] {
      var init, last := selected[..|selected| - 1], selected[|selected| - 1];
      AddonsTotalClosedForm(init, days);
      SplitLast(selected);
      ContributionSplit(last, days);
      SumOfClosedForms(days, AddonsTotal(init, days), Contribution(last, days),
                       NightlyAddonRate(init), NightlyAddonRate([last]), OneTimeFees(init), OneTimeFees([last]));
    }
  }

  /** Both sums split off the last selected id. */
  lemma SplitLast(selected: seq<string>)
    requires selected != []
    ensures var init, last := selected[..|selected| - 1], selected[|selected| - 1];
      NightlyAddonRate(selected) == NightlyAddonRate(init) + NightlyAddonRate([last])
      && OneTimeFees(selected) == OneTimeFees(init) + OneTimeFees([last])
  {
    var init, last := selected[..|selected| - 1], selected[|selected| - 1];
    assert selected == init + [last];
    NightlyAddonRateAppend(init, last);
    OneTimeFeesAppend(init, last);
  }

  lemma SumOfClosedForms(days: nat, t1: int, t2: int, n1: int, n2: int, f1: int, f2: int)
    requires t1 == days * n1 + f1 && t2 == days * n2 + f2
    ensures t1 + t2 == days * (n1 + n2) + (f1 + f2)
  {
  }

  /** The add-on snapshots a booking stores: the catalog entry of every
      selected id that has one (`map(find).filter(Boolean)`). */
  function CatalogEntries(selected: seq<string>): (entries: seq<Addon>)
    ensures |entries| <= |selected|
    ensures forall a :: a in entries ==> a in Addons && a.id in selected
  {
    if selected == [] then []
    else
      var init := CatalogEntries(selected[..|selected| - 1]);
      match FindAddon(selected[|selected| - 1])
      case None => init
      case Some(a) => init + [a]
  }

  /** No selected catalog add-on is dropped: every selected id that is in
      the catalog has its entry among the snapshots. */
  lemma {:induction false} CatalogEntriesComplete(selected: seq<string>)
    ensures forall id :: id in selected && FindAddon(id).Some? ==> FindAddon(id).value in CatalogEntries(selected)
  {
    if selected != [] {
      var init, last := selected[..|selected| - 1], selected[|selected| - 1];
      CatalogEntriesComplete(init);
      CatalogEntriesGrow(selected);
      assert selected == init + [last];
    }
  }

  /** One more selected id keeps the earlier entries and adds its own. */
  lemma CatalogEntriesGrow(selected: seq<string>)
    requires selected != []
    ensures var init, last := selected[..|selected| - 1], selected[|selected| - 1];
      (forall a :: a in CatalogEntries(init) ==> a in CatalogEntries(selected))
      && (FindAddon(last).Some? ==> FindAddon(last).value in CatalogEntries(selected))
  {
  }

  /** Snapshots follow the selection order: the entries of a selection
      are those of its first part followed by those of its second part. */
  lemma {:induction false} CatalogEntriesAppend(first: seq<string>, second: seq<string>)
    ensures CatalogEntries(first + second) == CatalogEntries(first) + CatalogEntries(second)
    decreases |second|
  {
    if second == [] {
      assert first + second == first;
    } else {
      var init := second[..|second| - 1];
      assert (first + second)[..|first + second| - 1] == first + init;
      assert (first + second)[|first + second| - 1] == second[|second| - 1];
      CatalogEntriesAppend(first, init);
    }
  }

  /** A single selected id yields its catalog entry, or nothing when it
      is not in the catalog. */
  lemma CatalogEntriesSingle(id: string)
    ensures CatalogEntries([id]) == if FindAddon(id).Some? then [FindAddon(id).value] else []
  {
    assert [id][..0] == [];
  }

  /** What a list of stored add-on snapshots costs for `days` nights. */
  function SnapshotCost(addons: seq<Addon>, days: nat): int
  {
    if addons == [] then 0
    else SnapshotCost(addons[..|addons| - 1], days) + AddonCost(addons[|addons| - 1], days)
  }

  lemma {:induction false} SnapshotCostAppend(addons: seq<Addon>, a: Addon, days: nat)
    ensures SnapshotCost(addons + [a], days) == SnapshotCost(addons, days) + AddonCost(a, days)
  {
    assert (addons + [a])[..|addons + [a]| - 1] == addons;
  }

  /** A booking's total is reproducible from what it stores: the add-on
      total over the selected ids equals the cost of the snapshots kept
      in the booking, so later catalog changes cannot alter it. */
  lemma {:induction false} AddonsTotalMatchesSnapshots(selected: seq<string>, days: nat)
    ensures AddonsTotal(selected, days) == SnapshotCost(CatalogEntries(selected), days)
  {
    if selected != [] {
      var init := selected[..|selected| - 1];
      AddonsTotalMatchesSnapshots(init, days);
      match FindAddon(selected[|selected| - 1])
      case None =>
      case Some(a) => SnapshotCostAppend(CatalogEntries(init), a, days);
    }
  }

  /** The total in closed form: every night costs the room rate plus the
      per-night add-ons, and the one-time add-ons are charged once. */
  lemma CalculateTotalClosedForm(start: Day, end: Day, rate: int, selected: seq<string>)
    ensures var nights := GetDays(Some(start), Some(end));
      CalculateTotal(Some(start), Some(end), rate, selected)
      == nights * (rate + NightlyAddonRate(selected)) + OneTimeFees(selected)
  {
    var nights := GetDays(Some(start), Some(end));
    AddonsTotalClosedForm(selected, nights);
    Distribute(nights, rate, NightlyAddonRate(selected));
  }

  lemma Distribute(n: int, a: int, b: int)
    ensures n * a + n * b == n * (a + b)
  {
  }

  /** Without both dates there are no nights, so only the one-time add-ons
      are charged. */
  lemma MissingDateChargesOnlyOneTimeFees(start: Option<Day>, end: Option<Day>, rate: int, selected: seq<string>)
    requires start.None? || end.None?
    ensures CalculateTotal(start, end, rate, selected) == OneTimeFees(selected)
  {
    AddonsTotalClosedForm(selected, 0);
  }

  /** Three nights at 100 with the breakfast buffet (25 per night) and the
      airport shuttle (50 once) cost 300 + 75 + 50 = 425. */
  lemma ThreeNightsWithBreakfastAndShuttle()
    ensures CalculateTotal(Some(10), Some(13), 100, ["breakfast", "shuttle"]) == 425
  {
    var selected := ["breakfast", "shuttle"];
    assert FindAddon("breakfast") == Some(Addons[0]);
    assert FindAddon("shuttle") == Some(Addons[1]);
    assert selected[..1] == ["breakfast"] && ["breakfast"][..0] == [];
    assert AddonsTotal(["breakfast"], 3) == 75;
    assert AddonsTotal(selected, 3) == 125;
  }
}
