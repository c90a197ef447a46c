/** The room list (components/RoomList.tsx): the type and capacity
    filters over the rooms, and the amenity chips shown on each card. */
module RoomList {
  import opened Types

  /** The type drop-down: 'all' or one room type. */
  datatype TypeFilter = AnyType | OfType(roomType: RoomType)

  /** The guests drop-down: 'all' or a minimum capacity. */
  datatype CapacityFilter = AnyCapacity | AtLeast(guests: int)

  predicate TypeMatch(room: Room, filter: TypeFilter)
  {
    filter.AnyType? || room.roomType == filter.roomType
  }

  predicate CapacityMatch(room: Room, filter: CapacityFilter)
  {
    filter.AnyCapacity? || room.capacity >= filter.guests
  }

  /** `filteredRooms`: the rooms matching both filters, in list order. */
  function FilterRooms(rooms: seq<Room>, byType: TypeFilter, byCapacity: CapacityFilter): (r: seq<Room>)
    ensures forall x :: x in r <==> x in rooms && TypeMatch(x, byType) && CapacityMatch(x, byCapacity)
    ensures |r| <= |rooms|
  {
    if rooms == [] then []
    else
      (if TypeMatch(rooms[0], byType) && CapacityMatch(rooms[0], byCapacity) then [rooms[0]] else [])
      + FilterRooms(rooms[1..], byType, byCapacity)
  }

  /** `sub` is `s` with some elements left out, the rest in their order. */
  predicate IsSubsequence(sub: seq<Room>, s: seq<Room>)
    decreases |s|
  {
    if sub == [] then true
    else if s == [] then false
    else if sub[0] == s[0] then IsSubsequence(sub[1..], s[1..])
    else IsSubsequence(sub, s[1..])
  }

  /** Dropping the first element of `s` cannot hurt: a subsequence of the
      tail is a subsequence of the whole. */
  lemma {:induction false} SubsequenceOfTail(sub: seq<Room>, s: seq<Room>)
    requires s != [] && IsSubsequence(sub, s[1..])
    ensures IsSubsequence(sub, s)
    decreases |s|, 0
  {
    if sub != [] && sub[0] == s[0] {
      SubsequenceDropHead(sub, s[1..]);
    }
  }

  lemma {:induction false} SubsequenceDropHead(sub: seq<Room>, s: seq<Room>)
    requires sub != [] && IsSubsequence(sub, s)
    ensures IsSubsequence(sub[1..], s)
    decreases |s|, 1
  {
    if sub[0] == s[0] {
      SubsequenceOfTail(sub[1..], s);
    } else {
      SubsequenceDropHead(sub, s[1..]);
      SubsequenceOfTail(sub[1..], s);
    }
  }

  /** The filter keeps the rooms in their listed order and adds nothing. */
  lemma {:induction false} FilterKeepsOrder(rooms: seq<Room>, byType: TypeFilter, byCapacity: CapacityFilter)
    ensures IsSubsequence(FilterRooms(rooms, byType, byCapacity), rooms)
    decreases |rooms|
  {
    if rooms != [] {
      var rest := FilterRooms(rooms[1..], byType, byCapacity);
      FilterKeepsOrder(rooms[1..], byType, byCapacity);
      if TypeMatch(rooms[0], byType) && CapacityMatch(rooms[0], byCapacity) {
        assert FilterRooms(rooms, byType, byCapacity) == [rooms[0]] + rest;
        assert ([rooms[0]] + rest)[1..] == rest;
      } else {
        assert FilterRooms(rooms, byType, byCapacity) == rest;
        SubsequenceOfTail(rest, rooms);
      }
    }
  }

  /** With both drop-downs on 'all' every room is listed, in order. */
  lemma {:induction false} NoFilterListsEveryRoom(rooms: seq<Room>)
    ensures FilterRooms(rooms, AnyType, AnyCapacity) == rooms
  {
    if rooms != [] {
      NoFilterListsEveryRoom(rooms[1..]);
      assert rooms == [rooms[0]] + rooms[1..];
    }
  }

  /** A type filter lists only rooms of that type, a capacity filter only
      rooms for at least that many guests, and every room meeting both is
      listed. */
  lemma FilterIsSoundAndComplete(rooms: seq<Room>, byType: TypeFilter, byCapacity: CapacityFilter)
    ensures byType.OfType? ==>
      forall x :: x in FilterRooms(rooms, byType, byCapacity) ==> x.roomType == byType.roomType
    ensures byCapacity.AtLeast? ==>
      forall x :: x in FilterRooms(rooms, byType, byCapacity) ==> x.capacity >= byCapacity.guests
    ensures forall x :: x in rooms && TypeMatch(x, byType) && CapacityMatch(x, byCapacity) ==>
      x in FilterRooms(rooms, byType, byCapacity)
  {
  }

  /** The amenity chips: the first three amenities. */
  function ShownAmenities(amenities: seq<string>): seq<string>
  {
    amenities[..if |amenities| < 3 then |amenities| else 3]
  }

  /** The "+k" badge, present when more than three amenities exist. */
  function MoreBadge(amenities: seq<string>): Option<nat>
  {
    if |amenities| > 3 then Some(|amenities| - 3) else None
  }

  /** A card shows at most three amenities, from the front of the list;
      the badge appears exactly when some are hidden and counts them, so
      chips plus badge account for every amenity. */
  lemma AmenityChipsAccountForAll(amenities: seq<string>)
    ensures |ShownAmenities(amenities)| <= 3
    ensures ShownAmenities(amenities) <= amenities
    ensures MoreBadge(amenities).Some? <==> |ShownAmenities(amenities)| < |amenities|
    ensures |ShownAmenities(amenities)| + (if MoreBadge(amenities).Some? then MoreBadge(amenities).value else 0)
      == |amenities|
  {
  }
}
