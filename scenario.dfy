/** Front-desk sessions driven through the registry's contracts alone: they show
    what a caller can conclude about rooms, the listing, reservation ids and the
    guest lookup after a sequence of operations. */
module FrontDeskScenario {
  import opened HotelRegistry

  /** A hotel with rooms 101 and 102, both free. */
  method TwoRooms() returns (hotel: Hotel, r101: Room, r102: Room)
    ensures fresh(hotel) && fresh(r101) && fresh(r102)
    ensures hotel.Valid() && hotel.rooms == [r101, r102]
    ensures r101.number == 101 && !r101.booked && r101.guest == null
    ensures r102.number == 102 && !r102.booked && r102.guest == null
    ensures hotel.guestMap == map[] && hotel.reservationMap == map[] && hotel.counter == 1
    ensures RoomWith(hotel.rooms, 101) == r101 && RoomWith(hotel.rooms, 102) == r102
  {
    hotel := new Hotel();
    r101 := new Room(101);
    r102 := new Room(102);
    hotel.AddRoom(r101);
    hotel.AddRoom(r102);
    assert FirstRoomIndex(hotel.rooms, 102) == Some(1);
  }

  /** The listing of a two-room hotel, read off the two rooms' flags. */
  lemma ListingOfTwo(rooms: seq<Room>, a: Room, b: Room)
    requires rooms == [a, b]
    ensures AvailableNumbers(rooms) ==
      (if a.booked then [] else [a.number]) + (if b.booked then [] else [b.number])
  {
    assert rooms[..1] == [a] && rooms[..1][..0] == [];
    assert AvailableNumbers(rooms[..1]) == if a.booked then [] else [a.number];
  }

  method CheckInThenListing()
  {
    var hotel, r101, r102 := TwoRooms();
    var alice := new Guest("A", 1);
    var outcome := hotel.CheckIn(101, alice);
    assert outcome == Ok && r101.booked && r101.guest == alice;
    assert hotel.guestMap == map[1 := alice];
    assert r102 in hotel.rooms && !r102.booked;
    ListingOfTwo(hotel.rooms, r101, r102);
    var listing := hotel.DisplayAvailableRooms();
    assert listing == [102];
  }

  method SecondCheckInFails()
  {
    var hotel, r101, r102 := TwoRooms();
    var alice := new Guest("A", 1);
    var outcome := hotel.CheckIn(101, alice);
    assert outcome == Ok && r101.guest == alice;

    // A second check-in to the same room fails and changes nothing.
    var other := new Guest("C", 3);
    outcome := hotel.CheckIn(101, other);
    assert outcome == InvalidRoomOrBooked;
    assert r101.guest == alice && hotel.guestMap == map[1 := alice];

    // The guest information of a checked-in guest never shows a room.
    var info := hotel.DisplayGuestInformation(1);
    assert info == GuestFound(1, "A", None);
  }

  method ReservationsKeepRoomsFree()
  {
    var hotel, r101, r102 := TwoRooms();
    var bob := new Guest("B", 2);
    var outcome := hotel.MakeReservation(102, bob);
    assert outcome == Ok;
    assert hotel.reservationMap == map[1 := Reservation(1, bob, r102)];

    // A second reservation for the same free room is accepted under the next id.
    var carol := new Guest("C", 3);
    outcome := hotel.MakeReservation(102, carol);
    assert outcome == Ok && hotel.reservationMap.Keys == {1, 2};
    ListingOfTwo(hotel.rooms, r101, r102);
    var listing := hotel.DisplayAvailableRooms();
    assert listing == [101, 102];
  }

  method ReservedGuestIsNotFound()
  {
    var hotel, r101, r102 := TwoRooms();
    var bob := new Guest("B", 2);
    var outcome := hotel.MakeReservation(102, bob);
    assert outcome == Ok;

    // A guest who only holds a reservation is not found.
    var found := hotel.GetGuestById(2);
    assert found == null;
  }

  /** Three reservations, with ids 1, 2 and 3, on the rooms of TwoRooms. */
  method ThreeReservations() returns (hotel: Hotel, guest: Guest)
    ensures fresh(hotel) && hotel.Valid()
    ensures hotel.reservationMap.Keys == {1, 2, 3} && hotel.counter == 4
    ensures var room := RoomWith(hotel.rooms, 102); room != null && !room.booked
  {
    var r101, r102;
    hotel, r101, r102 := TwoRooms();
    guest := new Guest("B", 2);
    var outcome := hotel.MakeReservation(102, guest);
    outcome := hotel.MakeReservation(101, guest);
    outcome := hotel.MakeReservation(102, guest);
  }

  method CancelledIdsAreNotReused()
  {
    var hotel, bob := ThreeReservations();
    var outcome := hotel.CancelReservation(2);
    assert outcome == Ok && hotel.reservationMap.Keys == {1, 3};
    outcome := hotel.CancelReservation(2);
    assert outcome == InvalidReservationId;
    outcome := hotel.MakeReservation(102, bob);
    assert outcome == Ok && hotel.reservationMap.Keys == {1, 3, 4};
  }

  method CheckOutFreesRoom()
  {
    var hotel, r101, r102 := TwoRooms();
    var alice := new Guest("A", 1);
    var outcome := hotel.CheckIn(101, alice);
    assert outcome == Ok;
    outcome := hotel.CheckOut(101);
    assert outcome == Ok && !r101.booked && alice.room == null;
    assert r102 in hotel.rooms && !r102.booked;
    ListingOfTwo(hotel.rooms, r101, r102);
    var listing := hotel.DisplayAvailableRooms();
    assert listing == [101, 102];
  }

  method CheckOutLeavesGuestFindable()
  {
    var hotel, r101, r102 := TwoRooms();
    var alice := new Guest("A", 1);
    var outcome := hotel.CheckIn(101, alice);
    assert outcome == Ok;
    outcome := hotel.CheckOut(101);
    assert outcome == Ok && r101.guest == alice;

    // The room still points at its former guest, who is therefore still found.
    var found := hotel.GetGuestById(1);
    assert found == alice;
  }

  method SecondCheckOutFails()
  {
    var hotel, r101, r102 := TwoRooms();
    var alice := new Guest("A", 1);
    var outcome := hotel.CheckIn(101, alice);
    outcome := hotel.CheckOut(101);
    assert outcome == Ok;
    outcome := hotel.CheckOut(101);
    assert outcome == InvalidRoomOrNotBooked;
  }
}
