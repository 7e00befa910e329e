# Hotel registry

A Dafny model of the front desk of a small in-memory hotel management system
(`HotelManagementSystem.java`). The registry keeps:

- an ordered list of rooms. Each room has a number, a `booked` flag and a pointer to its current guest;
- a guest directory keyed by guest id;
- a reservation table keyed by reservation id;
- the reservation id counter, which starts at 1.

Check-in, check-out, making a reservation and booking a room each look a room up by number
(first match in insertion order), check its `booked` flag, and then either change the state
or change nothing. Cancelling a reservation checks only that its id is a key. The outcome is
returned as a value (`Outcome`, `GuestInfo`) where the program prints a message.

The model is imperative, like the program. `Room` and `Guest` are classes whose fields the
operations update in place. `Hotel` is a class holding `rooms: seq<Room>`, the two maps and
the counter. `Reservation` is an immutable record holding references to its guest and room.
The two lookups and the available-room listing are specified by pure first-match and
filter functions over the room sequence. The loop methods are proved against those functions.
`Hotel.Valid()` is the registry invariant every mutating operation keeps:

- the counter is at least 1;
- a booked room has a guest;
- the guest a room points at has no room of its own (no operation ever gives a guest a room);
- every directory entry is keyed by its guest's id;
- every reservation is stored under its own id, that id is in `[1, counter)`, and its room is one of the hotel's rooms.

So a new reservation id is never already in use, and since no operation lowers the counter,
an id is never issued twice.

`scenario.dfy` drives sessions through the contracts alone: check-in and the listing,
several reservations on one free room, cancelling and re-reserving, and check-out.

### Behaviour worth knowing

- `checkIn` never calls `guest.setRoom`. A guest's `room` field is therefore only ever set to
  null, and the guest information display reports "not assigned" for every guest it finds.
  The invariant above proves this: `Hotel.DisplayGuestInformation` ensures that a found guest
  has no room number.
- `checkOut` clears the `booked` flag and the guest's room, but it leaves `room.guest` in place.
  A checked-out guest is still found by id until someone else checks in to that room.
- `makeReservation` checks only the `booked` flag and never sets it. A free room can collect
  any number of reservations and stays in the listing.
- A successful `makeReservation` reports the guest's name and the room number, not the new
  reservation id. The model states the id in the contract.

## Model

| member | source | states |
|---|---|---|
| HotelRegistry.Guest.constructor | src/HotelManagementSystem.java:12-15 | a new guest has the given name and id, and no room |
| HotelRegistry.Guest.SetRoom | src/HotelManagementSystem.java:29-31 | the guest's room becomes the argument; nothing else of the guest changes |
| HotelRegistry.Room.constructor | src/HotelManagementSystem.java:178-181 | a new room has the given number, is not booked and has no guest |
| HotelRegistry.Room.SetGuest | src/HotelManagementSystem.java:195-197 | the room's guest pointer becomes the argument; the flag is untouched |
| HotelRegistry.Room.Book | src/HotelManagementSystem.java:199-201 | the room is booked afterwards; its guest is untouched |
| HotelRegistry.Room.Unbook | src/HotelManagementSystem.java:203-205 | the room is free afterwards; its guest is untouched |
| HotelRegistry.FirstRoomIndex | src/HotelManagementSystem.java:76-83 | the result is the least index whose room has the number. No index is returned exactly when no room has it. Duplicates resolve to the first |
| HotelRegistry.FirstGuestIndex | src/HotelManagementSystem.java:140-148 | the result is the least index whose room points at a guest with the id. No index is returned exactly when no room does. Only the rooms are consulted |
| HotelRegistry.FreeIndices | src/HotelManagementSystem.java:113-117 | the positions it returns are in range and strictly increasing, and they are exactly the positions of rooms that are not booked |
| HotelRegistry.AvailableNumbersInRoomOrder | src/HotelManagementSystem.java:111-118 | the listing has one entry per free room: the k-th entry is the number of the k-th free room in insertion order |
| HotelRegistry.AvailableNumbersMembership | src/HotelManagementSystem.java:111-118 | a number is listed if and only if some room that is not booked carries it |
| HotelRegistry.Hotel.constructor | src/HotelManagementSystem.java:65-70 | a new registry has no rooms, an empty directory, no reservations and counter 1, and satisfies the invariant |
| HotelRegistry.Hotel.AddRoom | src/HotelManagementSystem.java:72-74 | the room is appended to the list without a duplicate check; maps and counter unchanged; the invariant is kept |
| HotelRegistry.Hotel.GetRoomByNumber | src/HotelManagementSystem.java:76-83 | returns the first room in insertion order with the number, or null when none has it; changes nothing |
| HotelRegistry.Hotel.CheckIn | src/HotelManagementSystem.java:86-96 | for a guest without a room, succeeds iff the room exists and was not booked. On success that room is booked with the given guest, and the directory entry for the guest's id is overwritten. On failure the directory is unchanged. No other room, no reservation and not the counter changes, and no guest's room field is touched |
| HotelRegistry.Hotel.CheckOut | src/HotelManagementSystem.java:98-108 | succeeds iff the room exists and was booked. On success the room is freed, keeps pointing at its guest, and that guest's room becomes null. No other room or guest changes. The directory, the reservations and the counter never change |
| HotelRegistry.Hotel.DisplayAvailableRooms | src/HotelManagementSystem.java:111-118 | returns the listing of the free rooms' numbers in room order (the two lemmas above characterise it), and changes nothing |
| HotelRegistry.Hotel.NewReservation | src/HotelManagementSystem.java:35-44 | the new reservation gets the current counter as its id and records the guest and room; the counter goes up by one |
| HotelRegistry.Hotel.MakeReservation | src/HotelManagementSystem.java:120-129 | succeeds iff the room exists and is not booked, whatever reservations it already has. On success the old counter, which is not yet a key, is stored as a key, and the counter goes up by one. On failure the table and the counter are unchanged. No room's flag or guest ever changes |
| HotelRegistry.Hotel.CancelReservation | src/HotelManagementSystem.java:131-139 | succeeds iff the id is a key. The table afterwards is the old table minus that id, so nothing changes on failure. Rooms, directory and counter are untouched |
| HotelRegistry.Hotel.GetGuestById | src/HotelManagementSystem.java:140-148 | returns the guest of the first room whose guest has the id, or null. The result carries that id and sits in some room. Changes nothing |
| HotelRegistry.Hotel.DisplayGuestInformation | src/HotelManagementSystem.java:150-165 | reports not-found iff the room scan finds no guest. Otherwise it reports the guest's id, name and room number, or "not assigned" when the guest's room is null; under the invariant a found guest is always "not assigned" |
| HotelRegistry.Hotel.BookRoom | src/HotelManagementSystem.java:234-246 | the menu's "book a room". It succeeds iff the room exists and was not booked. On success the room is booked with a fresh placeholder guest ("", -1) that has no room. The directory, the other rooms and the reservations are untouched |

## Left out

- The menu loop, `Scanner` input, `System.exit` and the `scanner.close()` inside the loop (lines 208-297) are input/output plumbing. Only the "book a room" branch is modelled, as `Hotel.BookRoom`.
- The printed messages are not modelled. Each operation returns an `Outcome` or a `GuestInfo` value instead. The guest name and room number in the success messages are not returned.
- The hotel's name and `getName` (lines 60, 168-170) hold no behaviour. The plain getters are modelled as direct field reads.
- `Reservation.counter` is a static field shared by all hotels. With a single hotel it is modelled as the field `Hotel.counter`.
- HotelRegistry.Hotel.NewReservation: the counter is an unbounded integer, so the 32-bit wrap-around of `counter++` after 2^31 - 1 reservations (which would make ids negative and eventually reusable) is not modelled.
- HotelRegistry.Hotel.MakeReservation: the same unbounded counter. The contract "the new id is not yet a key" holds only below 2^31 - 1 reservations in the program.
- HotelRegistry.Hotel.AddRoom: requires a booked room handed to it to have a guest. Every room the program adds is a new, free room (lines 214-218). A booked room without a guest would make `checkOut` dereference null at line 103; that exception path is not modelled.
- The mutating operations require `Hotel.Valid()`, the registry invariant that the constructor establishes and every operation keeps. Code outside the registry that sets a room's flag or guest directly could break it. In the program, only the "book a room" branch does so, and it is modelled as `Hotel.BookRoom`, which keeps the invariant.
- HotelRegistry.Hotel.AddRoom, HotelRegistry.Hotel.CheckIn, HotelRegistry.Hotel.MakeReservation: their `Room` and `Guest` parameters are non-null, while the Java methods accept null. Every call in the program passes a new object (lines 214-218, 258, 274). The exception paths that null would take are not modelled: `checkIn(n, null)` books the room with no guest and then throws at line 91; `makeReservation(n, null)` stores the reservation and then throws at line 125; `addRoom(null)` makes every later scan throw at line 78.
- HotelRegistry.Hotel.CheckIn: requires the guest to have no room, and `Hotel.AddRoom` requires the same of a room's guest. Every guest in the program is created by `new Guest` with no room (lines 239, 258, 274), and `setRoom` is only ever called with null (line 103). A guest given a room beforehand would be displayed with that room number; that case is not modelled.
