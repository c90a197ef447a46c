/** Seed data and the add-on catalog (constants.ts), and the seed data
    of the HTTP server variant (server.js). */
module Catalog {
  import opened Types

  const Addons: seq<Addon> := [
    Addon("breakfast", "Daily Breakfast Buffet", 25, PerNight),
    Addon("shuttle", "Airport Shuttle", 50, OneTime),
    Addon("champagne", "Bottle of Champagne", 85, OneTime),
    Addon("late_checkout", "Late Checkout (2PM)", 40, OneTime)
  ]

  const InitialRooms: seq<Room> := [
    Room("r1", "Cozy Standard", Standard, 99, 2,
         "A comfortable room perfect for solo travelers or couples. Features a queen bed and garden view.",
         ["Wifi", "TV", "Coffee Maker"], "https://picsum.photos/800/600?random=1", 4.5, 124),
    Room("r2", "Standard Twin", Standard, 109, 2,
         "Two twin beds with modern decor and essential amenities.",
         ["Wifi", "TV", "Desk"], "https://picsum.photos/800/600?random=2", 4.3, 89),
    Room("r3", "Deluxe Ocean", Deluxe, 189, 2,
         "Spacious room with a balcony overlooking the ocean. Includes a king-size bed.",
         ["Wifi", "Ocean View", "Minibar", "Bathrobe"], "https://picsum.photos/800/600?random=3", 4.8, 215),
    Room("r4", "Family Suite", Suite, 299, 4,
         "Large suite with separate living area, kitchenette, and sleeping arrangements for four.",
         ["Wifi", "Kitchenette", "Living Area", "2 Bathrooms"], "https://picsum.photos/800/600?random=4", 4.7, 156),
    Room("r5", "Penthouse Suite", Suite, 450, 2,
         "Top floor luxury with private terrace and premium service.",
         ["Wifi", "Private Terrace", "Jacuzzi", "Room Service"], "https://picsum.photos/800/600?random=5", 5.0, 42)
  ]

  /** The administrator account the client-side store seeds, with its password. */
  const AdminRecord: UserRecord :=
    UserRecord("admin1", "Hotel Manager", "admin@staysimple.com", "admin123", Admin)

  /** The server variant seeds a single room, with a shorter description. */
  const ServerRooms: seq<Room> := [
    Room("r1", "Cozy Standard", Standard, 99, 2,
         "A comfortable room perfect for solo travelers or couples.",
         ["Wifi", "TV", "Coffee Maker"], "https://picsum.photos/800/600?random=1", 4.5, 124)
  ]

  /** `ADDONS.find(a => a.id === id)`. */
  function FindAddon(id: string): (r: Option<Addon>)
    ensures r.Some? ==> r.value in Addons && r.value.id == id
    ensures r.None? ==> forall a :: a in Addons ==> a.id != id
  {
    match FindIndex(Addons, (a: Addon) => a.id == id)
    case None => None
    case Some(k) => Some(Addons[k])
  }
}
