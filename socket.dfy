/** The real-time layer: the socket server's state (whether it has been
    initialised, which connections are in which room, and everything sent so
    far, as an outbox) and the four connection handlers, which also read and
    write the store. */
module Socket {
  import opened Wrappers
  import opened RideModel
  import opened Store

  /** Where an emit goes: one connection (or nobody, for an undefined id), a
      room, or a room except the sending connection. */
  datatype Target = ToSocket(socketId: Option<SocketId>) | ToRoom(room: string) | ToRoomExcept(room: string, sender: SocketId)

  /** The data sent with an event. */
  datatype Payload =
    | RidePayload(view: RideView)
    | LocationPayload(latitude: real, longitude: real, riderId: RiderId)
    | ChatPayload(msg: string, sentBy: Option<string>, time: string)
    | ErrorPayload(message: string)

  datatype Emit = Emit(target: Target, event: string, payload: Payload)

  class Bus {
    /** The module-level `io`: unset until the server is initialised. */
    var ioReady: bool
    var rooms: map<string, set<SocketId>>
    var outbox: seq<Emit>

    constructor ()
      ensures !ioReady && rooms == map[] && outbox == []
    {
      ioReady, rooms, outbox := false, map[], [];
    }

    /** `initializeSocket`. */
    method Initialize()
      modifies this
      ensures ioReady && rooms == old(rooms) && outbox == old(outbox)
    {
      ioReady := true;
    }

    /** `sendMessageToSocketId`: nothing happens before initialisation;
        afterwards exactly one emit of `event` with `data` to that id. */
    method SendMessageToSocketId(socketId: Option<SocketId>, event: string, data: Payload)
      modifies this
      ensures old(ioReady) ==> outbox == old(outbox) + [Emit(ToSocket(socketId), event, data)]
      ensures !old(ioReady) ==> outbox == old(outbox)
      ensures ioReady == old(ioReady) && rooms == old(rooms)
    {
      if ioReady {
        outbox := outbox + [Emit(ToSocket(socketId), event, data)];
      }
    }
  }

  // ------------------------------------------------------------ join

  /** The user collection after a `join`: only a "user" join of a known user
      changes it, and only that user's connection id. */
  function JoinUsers(users: map<UserId, User>, conn: SocketId, userId: UserId, userType: string): map<UserId, User> {
    if userType == "user" && userId in users then users[userId := users[userId].(socketId := Some(conn))]
    else users
  }

  function JoinRiders(riders: map<RiderId, Rider>, conn: SocketId, userId: RiderId, userType: string): map<RiderId, Rider> {
    if userType == "rider" && userId in riders then riders[userId := riders[userId].(socketId := Some(conn))]
    else riders
  }

  /** `join`: record the connection id on the user's or the rider's account. */
  method Join(db: Db, conn: SocketId, userId: string, userType: string)
    requires db.Valid()
    modifies db
    ensures db.Valid()
    ensures db.users == JoinUsers(old(db.users), conn, userId, userType)
    ensures db.riders == JoinRiders(old(db.riders), conn, userId, userType)
    ensures db.rides == old(db.rides) && db.rideOrder == old(db.rideOrder) && db.riderOrder == old(db.riderOrder)
  {
    if userType == "user" {
      if userId in db.users {
        db.users := db.users[userId := db.users[userId].(socketId := Some(conn))];
      }
    } else if userType == "rider" {
      if userId in db.riders {
        db.riders := db.riders[userId := db.riders[userId].(socketId := Some(conn))];
      }
    }
  }

  /** The registry keeps the last connection: after two joins of the same
      account, its id is the second connection's, and no other account
      changed. Any other `userType` changes nothing. */
  lemma JoinLastWins(users: map<UserId, User>, riders: map<RiderId, Rider>,
                     c1: SocketId, c2: SocketId, id: string, userType: string)
    ensures userType == "user" && id in users ==>
              var after := JoinUsers(JoinUsers(users, c1, id, userType), c2, id, userType);
              after.Keys == users.Keys && after[id].socketId == Some(c2)
              && after[id] == users[id].(socketId := Some(c2))
              && (forall other :: other in users && other != id ==> after[other] == users[other])
    ensures userType == "rider" && id in riders ==>
              var after := JoinRiders(JoinRiders(riders, c1, id, userType), c2, id, userType);
              after.Keys == riders.Keys && after[id].socketId == Some(c2)
              && after[id] == riders[id].(socketId := Some(c2))
              && (forall other :: other in riders && other != id ==> after[other] == riders[other])
    ensures userType != "user" && userType != "rider" ==>
              JoinUsers(users, c1, id, userType) == users && JoinRiders(riders, c1, id, userType) == riders
  {
  }

  // ------------------------------------------------------------ location

  /** The `location` argument: either coordinate may be missing. */
  datatype LocationData = LocationData(ltd: Option<real>, lng: Option<real>)

  /** The guard: a location with both coordinates truthy (0 is falsy). */
  predicate ValidLocation(location: Option<LocationData>) {
    location.Some? && location.value.ltd.Some? && location.value.ltd.value != 0.0
    && location.value.lng.Some? && location.value.lng.value != 0.0
  }

  const InvalidLocationData := "Invalid location data"

  /** The statuses the active-ride query asks for; "started" is not one of
      the five statuses, so it never matches. */
  const ActiveStatusNames: seq<string> := ["accepted", "ongoing", "started"]

  predicate IsActiveFor(r: Ride, riderId: RiderId) {
    r.rider == Some(riderId) && StatusName(r.status) in ActiveStatusNames
  }

  /** The active-ride query: ids of `order` whose ride is assigned to the
      rider and active, in store order. */
  function ActiveRideIds(order: seq<RideId>, rides: map<RideId, Ride>, riderId: RiderId): (ids: seq<RideId>)
    requires forall i :: 0 <= i < |order| ==> order[i] in rides
    ensures forall k :: 0 <= k < |ids| ==> ids[k] in order && IsActiveFor(rides[ids[k]], riderId)
    ensures forall i :: 0 <= i < |order| && IsActiveFor(rides[order[i]], riderId) ==> order[i] in ids
  {
    if order == [] then []
    else
      var rest := ActiveRideIds(order[1..], rides, riderId);
      if IsActiveFor(rides[order[0]], riderId) then [order[0]] + rest else rest
  }

  /** The rides the location goes to are exactly the ride's assigned to the
      rider that are `accepted` or `ongoing`. */
  lemma ActiveRidesExactly(db_rides: map<RideId, Ride>, order: seq<RideId>, riderId: RiderId, id: RideId)
    requires forall id :: id in db_rides <==> id in order
    ensures id in ActiveRideIds(order, db_rides, riderId) <==>
              id in db_rides && db_rides[id].rider == Some(riderId)
              && (db_rides[id].status == Accepted || db_rides[id].status == Ongoing)
  {
    if id in db_rides {
      var i :| 0 <= i < |order| && order[i] == id;
      var st := db_rides[id].status;
      assert StatusName(st) in ActiveStatusNames <==> st == Accepted || st == Ongoing;
    }
  }

  /** One `rider-location-update` per ride id, in order. */
  function LocationEmits(ids: seq<RideId>, ltd: real, lng: real, riderId: RiderId): (es: seq<Emit>)
    ensures |es| == |ids|
    ensures forall k :: 0 <= k < |ids| ==>
              es[k] == Emit(ToRoom(ids[k]), "rider-location-update", LocationPayload(ltd, lng, riderId))
  {
    if ids == [] then []
    else LocationEmits(ids[..|ids| - 1], ltd, lng, riderId)
         + [Emit(ToRoom(ids[|ids| - 1]), "rider-location-update", LocationPayload(ltd, lng, riderId))]
  }

  /** The rider collection after a valid update: the point is stored as
      `[lng, ltd]` on a known rider. */
  function WithLocation(riders: map<RiderId, Rider>, riderId: RiderId, ltd: real, lng: real): map<RiderId, Rider> {
    if riderId in riders then riders[riderId := riders[riderId].(location := Some(GeoPoint([lng, ltd])))]
    else riders
  }

  /** `update-location-rider`. */
  method UpdateLocationRider(db: Db, bus: Bus, conn: SocketId, userId: RiderId, location: Option<LocationData>)
    requires db.Valid()
    modifies db, bus
    ensures db.Valid()
    ensures !ValidLocation(location) ==>
              bus.outbox == old(bus.outbox) + [Emit(ToSocket(Some(conn)), "error", ErrorPayload(InvalidLocationData))]
              && db.riders == old(db.riders)
    ensures ValidLocation(location) ==>
              var ltd, lng := location.value.ltd.value, location.value.lng.value;
              db.riders == WithLocation(old(db.riders), userId, ltd, lng)
              && bus.outbox == old(bus.outbox)
                               + LocationEmits(ActiveRideIds(db.rideOrder, db.rides, userId), ltd, lng, userId)
    ensures db.rides == old(db.rides) && db.rideOrder == old(db.rideOrder)
    ensures db.users == old(db.users) && db.riderOrder == old(db.riderOrder)
    ensures bus.rooms == old(bus.rooms) && bus.ioReady == old(bus.ioReady)
  {
    if !ValidLocation(location) {
      bus.outbox := bus.outbox + [Emit(ToSocket(Some(conn)), "error", ErrorPayload(InvalidLocationData))];
      return;
    }
    var ltd, lng := location.value.ltd.value, location.value.lng.value;
    if userId in db.riders {
      db.riders := db.riders[userId := db.riders[userId].(location := Some(GeoPoint([lng, ltd])))];
    }
    var activeRides := ActiveRideIds(db.rideOrder, db.rides, userId);
    EmitLocations(bus, activeRides, ltd, lng, userId);
  }

  /** The `forEach` over the active rides: one emit to each ride's room. */
  method EmitLocations(bus: Bus, activeRides: seq<RideId>, ltd: real, lng: real, riderId: RiderId)
    modifies bus
    ensures bus.outbox == old(bus.outbox) + LocationEmits(activeRides, ltd, lng, riderId)
    ensures bus.rooms == old(bus.rooms) && bus.ioReady == old(bus.ioReady)
  {
    var i := 0;
    while i < |activeRides|
      invariant 0 <= i <= |activeRides|
      invariant bus.outbox == old(bus.outbox) + LocationEmits(activeRides[..i], ltd, lng, riderId)
      invariant bus.rooms == old(bus.rooms) && bus.ioReady == old(bus.ioReady)
    {
      bus.outbox := bus.outbox
                    + [Emit(ToRoom(activeRides[i]), "rider-location-update", LocationPayload(ltd, lng, riderId))];
      assert activeRides[..i + 1][..i] == activeRides[..i];
      i := i + 1;
    }
    assert activeRides[..i] == activeRides;
  }

  // ------------------------------------------------------------ rooms

  function WithMember(rooms: map<string, set<SocketId>>, room: string, conn: SocketId): map<string, set<SocketId>> {
    rooms[room := (if room in rooms then rooms[room] else {}) + {conn}]
  }

  /** `join-room`. */
  method JoinRoom(bus: Bus, conn: SocketId, roomId: string)
    modifies bus
    ensures bus.rooms == WithMember(old(bus.rooms), roomId, conn)
    ensures bus.outbox == old(bus.outbox) && bus.ioReady == old(bus.ioReady)
  {
    bus.rooms := WithMember(bus.rooms, roomId, conn);
  }

  /** Joining adds exactly that connection to that room, and joining again
      changes nothing. */
  lemma JoinRoomEffect(rooms: map<string, set<SocketId>>, room: string, conn: SocketId)
    ensures var after := WithMember(rooms, room, conn);
            conn in after[room]
            && (room in rooms ==> after[room] == rooms[room] + {conn})
            && (forall r :: r in rooms && r != room ==> r in after && after[r] == rooms[r])
            && WithMember(after, room, conn) == after
  {
    var after := WithMember(rooms, room, conn);
    assert after[room] + {conn} == after[room];
  }

  // ------------------------------------------------------------ chat

  /** The `by` field as the enum validator sees it: absent is allowed,
      present must be "user" or "rider". */
  function SenderField(userType: Option<string>): (r: Option<Option<Sender>>)
    ensures r.Some? <==> userType.None? || userType.value == "user" || userType.value == "rider"
    ensures r.Some? && userType.Some? ==> r.value.Some? && SenderName(r.value.value) == userType.value
  {
    if userType.None? then Some(None)
    else match ParseSender(userType.value)
      case Some(s) => Some(Some(s))
      case None => None
  }

  /** The ride collection after the save in `message`: the entry is appended
      to a known ride when its sender passes validation; otherwise the save
      fails and nothing is stored. */
  function AfterMessage(rides: map<RideId, Ride>, rideId: RideId, msg: string, userType: Option<string>,
                        time: string, date: string, now: int): (after: map<RideId, Ride>)
    ensures after.Keys == rides.Keys
  {
    if rideId in rides && SenderField(userType).Some? then
      rides[rideId := rides[rideId].(messages := rides[rideId].messages
                                       + [Message(msg, SenderField(userType).value, time, date, now)])]
    else rides
  }

  /** The `message` handler: `date` and `now` are the server clock's readings. */
  method ChatMessage(db: Db, bus: Bus, conn: SocketId, rideId: RideId, msg: string, userType: Option<string>,
                 time: string, date: string, now: int)
    requires db.Valid()
    modifies db, bus
    ensures db.Valid()
    ensures bus.outbox == old(bus.outbox) + [Emit(ToRoomExcept(rideId, conn), "receiveMessage", ChatPayload(msg, userType, time))]
    ensures db.rides == AfterMessage(old(db.rides), rideId, msg, userType, time, date, now)
    ensures db.rideOrder == old(db.rideOrder) && db.users == old(db.users)
    ensures db.riders == old(db.riders) && db.riderOrder == old(db.riderOrder)
    ensures bus.rooms == old(bus.rooms) && bus.ioReady == old(bus.ioReady)
  {
    bus.outbox := bus.outbox + [Emit(ToRoomExcept(rideId, conn), "receiveMessage", ChatPayload(msg, userType, time))];
    if rideId !in db.rides {
      return;
    }
    var sender := SenderField(userType);
    if sender.None? {
      return;
    }
    var ride := db.rides[rideId];
    db.rides := db.rides[rideId := ride.(messages := ride.messages + [Message(msg, sender.value, time, date, now)])];
  }

  /** A stored message is appended once, at the end, leaving the earlier
      entries and every other ride as they were; nothing else of the ride
      changes. */
  lemma MessageAppends(rides: map<RideId, Ride>, rideId: RideId, msg: string, userType: Option<string>,
                       time: string, date: string, now: int)
    requires rideId in rides && SenderField(userType).Some?
    ensures var after := AfterMessage(rides, rideId, msg, userType, time, date, now);
            var before := rides[rideId].messages;
            var ms := after[rideId].messages;
            |ms| == |before| + 1 && ms[..|before|] == before
            && ms[|before|].msg == msg && ms[|before|].time == time
            && ms[|before|].date == date && ms[|before|].timestamp == now
            && after[rideId].(messages := before) == rides[rideId]
            && (forall id :: id in rides && id != rideId ==> after[id] == rides[id])
  {
    var before := rides[rideId].messages;
    var ms := AfterMessage(rides, rideId, msg, userType, time, date, now)[rideId].messages;
    assert ms[..|before|] == before;
  }
}
