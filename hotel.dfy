/** A model of the hotel front desk of HotelManagementSystem.java: rooms with an
    occupancy flag and a current-guest pointer, a guest directory keyed by guest id,
    a reservation table keyed by reservation id, and the reservation id counter.
    Rooms and guests are objects whose fields the operations update in place;
    reservations are immutable records. */
module HotelRegistry {

  datatype Option<+T> = None | Some(value: T)

  /** What an operation reports instead of the text it prints. */
  datatype Outcome =
    | Ok
    | InvalidRoomOrBooked      // "Invalid room number or room already booked."
    | InvalidRoomOrNotBooked   // "Invalid room number or room is not booked."
    | InvalidReservationId     // "Invalid reservation ID."

  /** What the guest information display shows. */
  datatype GuestInfo =
    | GuestNotFound
    | GuestFound(id: int, name: string, roomNumber: Option<int>)

  class Guest {
    const name: string
    const id: int
    var room: Room?

    constructor (name: string, id: int)
      ensures this.name == name && this.id == id && room == null
    {
      this.name := name;
      this.id := id;
      room := null;
    }

    method SetRoom(room: Room?)
      modifies this`room
      ensures this.room == room
    {
      this.room := room;
    }
  }

  class Room {
    const number: int
    var booked: bool
    var guest: Guest?

    constructor (number: int)
      ensures this.number == number && !booked && guest == null
    {
      this.number := number;
      booked := false;
      guest := null;
    }

    method SetGuest(guest: Guest?)
      modifies this`guest
      ensures this.guest == guest
    {
      this.guest := guest;
    }

    method Book()
      modifies this`booked
      ensures booked
    {
      booked := true;
    }

    method Unbook()
      modifies this`booked
      ensures !booked
    {
      booked := false;
    }
  }

  /** The room number the guest display shows, or None for "Not assigned". */
  function RoomNumberOf(room: Room?): Option<int>
  {
    if room != null then Some(room.number) else None
  }

  /** A reservation links a guest to a room under the id it was given at creation. */
  datatype Reservation = Reservation(id: int, guest: Guest, room: Room)

  // ---------------------------------------------------------------------------
  // Specification of the two first-match scans over the room list.
  // ---------------------------------------------------------------------------

  /** Index of the first room, in insertion order, that has the given number. */
  function FirstRoomIndex(rooms: seq<Room>, number: int): (r: Option<nat>)
    ensures r.Some? ==> r.value < |rooms| && rooms[r.value].number == number
    ensures r.Some? ==> forall j :: 0 <= j < r.value ==> rooms[j].number != number
    ensures r.None? <==> forall j :: 0 <= j < |rooms| ==> rooms[j].number != number
  {
    if rooms == [] then None
    else if rooms[0].number == number then Some(0)
    else match FirstRoomIndex(rooms[1..], number)
      case None => None
      case Some(k) => Some(k + 1)
  }

  /** The room a lookup by number finds, or null. */
  function RoomWith(rooms: seq<Room>, number: int): Room?
  {
    match FirstRoomIndex(rooms, number)
    case None => null
    case Some(i) => rooms[i]
  }

  /** Whether a room currently points at a guest with the given id. */
  predicate HoldsGuest(room: Room, guestId: int)
    reads room
  {
    room.guest != null && room.guest.id == guestId
  }

  /** Index of the first room, in insertion order, whose current guest has the given id. */
  function FirstGuestIndex(rooms: seq<Room>, guestId: int): (r: Option<nat>)
    reads rooms
    ensures r.Some? ==> r.value < |rooms| && HoldsGuest(rooms[r.value], guestId)
    ensures r.Some? ==> forall j :: 0 <= j < r.value ==> !HoldsGuest(rooms[j], guestId)
    ensures r.None? <==> forall j :: 0 <= j < |rooms| ==> !HoldsGuest(rooms[j], guestId)
  {
    if rooms == [] then None
    else if HoldsGuest(rooms[0], guestId) then Some(0)
    else match FirstGuestIndex(rooms[1..], guestId)
      case None => None
      case Some(k) => Some(k + 1)
  }

  /** The guest a lookup by id finds, or null. */
  function GuestWith(rooms: seq<Room>, guestId: int): Guest?
    reads rooms
  {
    match FirstGuestIndex(rooms, guestId)
    case None => null
    case Some(i) => rooms[i].guest
  }

  // ---------------------------------------------------------------------------
  // Specification of the available-room listing.
  // ---------------------------------------------------------------------------

  /** Positions of the free rooms: strictly increasing, and exactly the free ones. */
  ghost function FreeIndices(rooms: seq<Room>): (idx: seq<nat>)
    reads rooms
    ensures forall k :: 0 <= k < |idx| ==> idx[k] < |rooms|
    ensures forall k, l :: 0 <= k < l < |idx| ==> idx[k] < idx[l]
    ensures forall i :: 0 <= i < |rooms| ==> (i in idx <==> !rooms[i].booked)
  {
    if rooms == [] then []
    else
      var prefix := rooms[..|rooms| - 1];
      FreeIndices(prefix) + (if rooms[|rooms| - 1].booked then [] else [|rooms| - 1])
  }

  /** Numbers of the rooms that are not booked, in room order. */
  function AvailableNumbers(rooms: seq<Room>): (r: seq<int>)
    reads rooms
  {
    if rooms == [] then []
    else
      var last := rooms[|rooms| - 1];
      AvailableNumbers(rooms[..|rooms| - 1]) + (if last.booked then [] else [last.number])
  }

  /** The listing is the numbers of the free rooms, taken in room order. */
  lemma {:induction false} AvailableNumbersInRoomOrder(rooms: seq<Room>)
    ensures |AvailableNumbers(rooms)| == |FreeIndices(rooms)|
    ensures forall k :: 0 <= k < |FreeIndices(rooms)| ==>
              AvailableNumbers(rooms)[k] == rooms[FreeIndices(rooms)[k]].number
  {
    if rooms != [] {
      var prefix := rooms[..|rooms| - 1];
      AvailableNumbersInRoomOrder(prefix);
      assert forall k :: 0 <= k < |FreeIndices(prefix)| ==> rooms[FreeIndices(prefix)[k]] == prefix[FreeIndices(prefix)[k]];
    }
  }

  /** A number is listed exactly when some free room carries it. */
  lemma {:induction false} AvailableNumbersMembership(rooms: seq<Room>, x: int)
    ensures x in AvailableNumbers(rooms) <==> exists i :: 0 <= i < |rooms| && !rooms[i].booked && rooms[i].number == x
  {
    AvailableNumbersInRoomOrder(rooms);
    var avail, idx := AvailableNumbers(rooms), FreeIndices(rooms);
    if x in avail {
      var k :| 0 <= k < |avail| && avail[k] == x;
      assert idx[k] in idx;
    }
    if i :| 0 <= i < |rooms| && !rooms[i].booked && rooms[i].number == x {
      var k :| 0 <= k < |idx| && idx[k] == i;
      assert avail[k] == x;
    }
  }

  // ---------------------------------------------------------------------------
  // The registry.
  // ---------------------------------------------------------------------------

  class Hotel {
    var rooms: seq<Room>
    var guestMap: map<int, Guest>
    var reservationMap: map<int, Reservation>
    /** The next reservation id; the source keeps it in a static field. */
    var counter: int

    ghost predicate Valid()
      reads this, rooms, Occupants()
    {
      && counter >= 1
      && (forall i :: 0 <= i < |rooms| && rooms[i].booked ==> rooms[i].guest != null)
      // No operation ever gives a guest a room, so the rooms' guests have none.
      && (forall i :: 0 <= i < |rooms| && rooms[i].guest != null ==> rooms[i].guest.room == null)
      && (forall k :: k in guestMap ==> guestMap[k].id == k)
      && (forall k :: k in reservationMap ==>
            reservationMap[k].id == k && 1 <= k < counter && reservationMap[k].room in rooms)
    }

    /** The guests the rooms currently point at. */
    ghost function Occupants(): set<Guest>
      reads this, rooms
    {
      set i | 0 <= i < |rooms| && rooms[i].guest != null :: rooms[i].guest
    }

    constructor ()
      ensures Valid()
      ensures rooms == [] && guestMap == map[] && reservationMap == map[] && counter == 1
    {
      rooms := [];
      guestMap := map[];
      reservationMap := map[];
      counter := 1;
    }

    method AddRoom(room: Room)
      requires Valid()
      requires room.booked ==> room.guest != null
      requires room.guest != null ==> room.guest.room == null
      modifies this`rooms
      ensures Valid()
      ensures rooms == old(rooms) + [room]
      ensures guestMap == old(guestMap) && reservationMap == old(reservationMap) && counter == old(counter)
    {
      rooms := rooms + [room];
    }

    method GetRoomByNumber(roomNumber: int) returns (room: Room?)
      ensures room == RoomWith(rooms, roomNumber)
      ensures room != null ==> room in rooms && room.number == roomNumber
    {
      var i := 0;
      while i < |rooms|
        invariant 0 <= i <= |rooms|
        invariant forall j :: 0 <= j < i ==> rooms[j].number != roomNumber
      {
        if rooms[i].number == roomNumber {
          return rooms[i];
        }
        i := i + 1;
      }
      return null;
    }

    method CheckIn(roomNumber: int, guest: Guest) returns (outcome: Outcome)
      requires Valid()
      requires guest.room == null
      modifies this`guestMap, rooms
      ensures Valid()
      ensures rooms == old(rooms) && reservationMap == old(reservationMap) && counter == old(counter)
      ensures outcome == Ok || outcome == InvalidRoomOrBooked
      ensures var room := RoomWith(rooms, roomNumber);
        && (outcome == Ok <==> room != null && !old(room.booked))
        && (outcome == Ok ==> room.booked && room.guest == guest)
        && guestMap == (if outcome == Ok then old(guestMap)[guest.id := guest] else old(guestMap))
        && (forall r :: r in rooms && (outcome != Ok || r != room) ==>
              r.booked == old(r.booked) && r.guest == old(r.guest))
    {
      var room := GetRoomByNumber(roomNumber);
      if room != null && !room.booked {
        room.SetGuest(guest);
        room.Book();
        guestMap := guestMap[guest.id := guest];
        outcome := Ok;
      } else {
        outcome := InvalidRoomOrBooked;
      }
    }

    method CheckOut(roomNumber: int) returns (outcome: Outcome)
      requires Valid()
      modifies rooms, Occupants()
      ensures Valid()
      ensures rooms == old(rooms) && guestMap == old(guestMap)
      ensures reservationMap == old(reservationMap) && counter == old(counter)
      ensures outcome == Ok || outcome == InvalidRoomOrNotBooked
      ensures var room := RoomWith(rooms, roomNumber);
        && (outcome == Ok <==> room != null && old(room.booked))
        && (outcome == Ok ==>
              !room.booked && room.guest == old(room.guest) && room.guest != null && room.guest.room == null)
        && (forall r :: r in rooms && (outcome != Ok || r != room) ==>
              r.booked == old(r.booked) && r.guest == old(r.guest))
        && (forall g :: g in old(Occupants()) && (outcome != Ok || g != old(room.guest)) ==>
              g.room == old(g.room))
    {
      var room := GetRoomByNumber(roomNumber);
      if room != null && room.booked {
        var guest := room.guest;
        room.Unbook();
        guest.SetRoom(null);
        outcome := Ok;
      } else {
        outcome := InvalidRoomOrNotBooked;
      }
    }

    method DisplayAvailableRooms() returns (numbers: seq<int>)
      ensures numbers == AvailableNumbers(rooms)
    {
      numbers := [];
      var i := 0;
      while i < |rooms|
        invariant 0 <= i <= |rooms|
        invariant numbers == AvailableNumbers(rooms[..i])
      {
        assert rooms[..i + 1][..i] == rooms[..i];
        if !rooms[i].booked {
          numbers := numbers + [rooms[i].number];
        }
        i := i + 1;
      }
      assert rooms[..i] == rooms;
    }

    /** The reservation constructor: takes the next id from the counter. */
    method NewReservation(guest: Guest, room: Room) returns (reservation: Reservation)
      modifies this`counter
      ensures reservation == Reservation(old(counter), guest, room)
      ensures counter == old(counter) + 1
    {
      reservation := Reservation(counter, guest, room);
      counter := counter + 1;
    }

    method MakeReservation(roomNumber: int, guest: Guest) returns (outcome: Outcome)
      requires Valid()
      modifies this`reservationMap, this`counter
      ensures Valid()
      ensures rooms == old(rooms) && guestMap == old(guestMap)
      ensures forall r :: r in rooms ==> r.booked == old(r.booked) && r.guest == old(r.guest)
      ensures outcome == Ok || outcome == InvalidRoomOrBooked
      ensures var room := RoomWith(rooms, roomNumber);
        && (outcome == Ok <==> room != null && !room.booked)
        && (outcome == Ok ==>
              && old(counter) !in old(reservationMap)
              && reservationMap == old(reservationMap)[old(counter) := Reservation(old(counter), guest, room)]
              && counter == old(counter) + 1)
        && (outcome != Ok ==> reservationMap == old(reservationMap) && counter == old(counter))
    {
      var room := GetRoomByNumber(roomNumber);
      if room != null && !room.booked {
        var reservation := NewReservation(guest, room);
        reservationMap := reservationMap[reservation.id := reservation];
        outcome := Ok;
      } else {
        outcome := InvalidRoomOrBooked;
      }
    }

    method CancelReservation(reservationId: int) returns (outcome: Outcome)
      requires Valid()
      modifies this`reservationMap
      ensures Valid()
      ensures rooms == old(rooms) && guestMap == old(guestMap) && counter == old(counter)
      ensures outcome == Ok || outcome == InvalidReservationId
      ensures outcome == Ok <==> reservationId in old(reservationMap)
      ensures reservationMap == old(reservationMap) - {reservationId}
      ensures outcome != Ok ==> reservationMap == old(reservationMap)
    {
      if reservationId in reservationMap {
        reservationMap := reservationMap - {reservationId};
        outcome := Ok;
      } else {
        outcome := InvalidReservationId;
      }
    }

    method GetGuestById(guestId: int) returns (guest: Guest?)
      ensures guest == GuestWith(rooms, guestId)
      ensures guest != null ==> guest.id == guestId && exists i :: 0 <= i < |rooms| && rooms[i].guest == guest
    {
      var i := 0;
      while i < |rooms|
        invariant 0 <= i <= |rooms|
        invariant forall j :: 0 <= j < i ==> !HoldsGuest(rooms[j], guestId)
      {
        var candidate := rooms[i].guest;
        if candidate != null && candidate.id == guestId {
          return candidate;
        }
        i := i + 1;
      }
      return null;
    }

    method DisplayGuestInformation(guestId: int) returns (info: GuestInfo)
      requires Valid()
      ensures info.GuestFound? ==> info.roomNumber == None
      ensures var g := GuestWith(rooms, guestId);
        && (info.GuestNotFound? <==> g == null)
        && (g != null ==>
              info == GuestFound(guestId, g.name, RoomNumberOf(g.room)))
    {
      var guest := GetGuestById(guestId);
      if guest != null {
        var room := guest.room;
        info := GuestFound(guest.id, guest.name, RoomNumberOf(room));
      } else {
        info := GuestNotFound;
      }
    }

    /** The menu's "book a room": a check-in with a placeholder guest ("", -1)
        that leaves the guest directory alone. */
    method BookRoom(roomNumber: int) returns (outcome: Outcome)
      requires Valid()
      modifies rooms
      ensures Valid()
      ensures rooms == old(rooms) && guestMap == old(guestMap)
      ensures reservationMap == old(reservationMap) && counter == old(counter)
      ensures outcome == Ok || outcome == InvalidRoomOrBooked
      ensures var room := RoomWith(rooms, roomNumber);
        && (outcome == Ok <==> room != null && !old(room.booked))
        && (outcome == Ok ==>
              && room.booked && room.guest != null && fresh(room.guest)
              && room.guest.name == "" && room.guest.id == -1 && room.guest.room == null)
        && (forall r :: r in rooms && (outcome != Ok || r != room) ==>
              r.booked == old(r.booked) && r.guest == old(r.guest))
    {
      var room := GetRoomByNumber(roomNumber);
      if room != null && !room.booked {
        var placeholder := new Guest("", -1);
        room.SetGuest(placeholder);
        room.Book();
        outcome := Ok;
      } else {
        outcome := InvalidRoomOrBooked;
      }
    }
  }
}
