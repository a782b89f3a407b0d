/** The ride controller: the HTTP handlers of the ride routes. Each handler
    answers with a status code and a body, and may change the store and send
    socket events; the background work of `createRide` runs, in this model,
    right after the answer is decided. The request validators of the routes
    run before these handlers and are not part of this model. */
module RideController {
  import opened Wrappers
  import opened JsRuntime
  import opened RideModel
  import opened MapService
  import opened Store
  import opened Socket
  import RideService

  /** The `populate`d account fields a chat needs. */
  datatype Contact = Contact(id: string, socketId: Option<SocketId>, firstname: string, lastname: string, phone: string)
  datatype ChatDetails = ChatDetails(user: Option<Contact>, rider: Option<Contact>, messages: seq<Message>)

  /** The public view of a rider on a shared ride. */
  datatype SharedRider = SharedRider(firstname: string, lastname: string, phone: string, vehicle: Vehicle)
  datatype ShareDetails = ShareDetails(id: RideId, pickup: string, destination: string, fare: int,
                                       rider: Option<SharedRider>)

  datatype Body = RideBody(view: RideView) | MessageBody(message: string)
                | ChatBody(chat: ChatDetails) | ShareBody(share: ShareDetails)

  datatype Reply = Reply(status: int, body: Body)

  // ------------------------------------------------------------ chat details

  function UserContact(users: map<UserId, User>, id: UserId): (c: Option<Contact>)
    ensures c.Some? <==> id in users
    ensures c.Some? ==> c.value.id == users[id].id && c.value.socketId == users[id].socketId
                        && c.value.firstname == users[id].firstname && c.value.lastname == users[id].lastname
                        && c.value.phone == users[id].phone
  {
    if id in users then
      var u := users[id];
      Some(Contact(u.id, u.socketId, u.firstname, u.lastname, u.phone))
    else None
  }

  function RiderContact(riders: map<RiderId, Rider>, id: Option<RiderId>): (c: Option<Contact>)
    ensures c.Some? <==> id.Some? && id.value in riders
    ensures c.Some? ==> c.value.id == riders[id.value].id && c.value.socketId == riders[id.value].socketId
                        && c.value.firstname == riders[id.value].firstname
                        && c.value.lastname == riders[id.value].lastname
                        && c.value.phone == riders[id.value].phone
  {
    if id.Some? && id.value in riders then
      var d := riders[id.value];
      Some(Contact(d.id, d.socketId, d.firstname, d.lastname, d.phone))
    else None
  }

  /** `chatDetails`: both parties' contact fields (absent when the account is
      not there) and the messages in stored order. */
  function ChatDetailsReply(rides: map<RideId, Ride>, users: map<UserId, User>,
                            riders: map<RiderId, Rider>, id: RideId): (reply: Reply)
    ensures id !in rides ==> reply == Reply(400, MessageBody("Ride not found"))
    ensures id in rides ==>
              reply.status == 200 && reply.body.ChatBody?
              && reply.body.chat.messages == rides[id].messages
              && reply.body.chat.user == UserContact(users, rides[id].user)
              && reply.body.chat.rider == RiderContact(riders, rides[id].rider)
  {
    if id !in rides then Reply(400, MessageBody("Ride not found"))
    else
      var ride := rides[id];
      Reply(200, ChatBody(ChatDetails(UserContact(users, ride.user), RiderContact(riders, ride.rider), ride.messages)))
  }

  // ------------------------------------------------------------ share details

  const RideNotFoundOrEnded := "Ride not found or has ended"

  predicate Shareable(s: Status) {
    s == Accepted || s == Ongoing
  }

  function SharedRiderOf(riders: map<RiderId, Rider>, id: Option<RiderId>): Option<SharedRider> {
    if id.Some? && id.value in riders then
      var d := riders[id.value];
      Some(SharedRider(d.firstname, d.lastname, d.phone, d.vehicle))
    else None
  }

  /** `getShareDetails`: only an accepted or ongoing ride is shared. */
  function ShareDetailsReply(rides: map<RideId, Ride>, riders: map<RiderId, Rider>, id: RideId): (reply: Reply)
    ensures reply.status == 200 <==> id in rides && Shareable(rides[id].status)
    ensures reply.status != 200 ==> reply == Reply(404, MessageBody(RideNotFoundOrEnded))
    ensures reply.status == 200 ==>
              reply.body.ShareBody? && reply.body.share.id == id
              && reply.body.share.pickup == rides[id].pickup
              && reply.body.share.destination == rides[id].destination
              && reply.body.share.fare == rides[id].fare
    ensures reply.status == 200 ==>
              (reply.body.share.rider.Some? <==> rides[id].rider.Some? && rides[id].rider.value in riders)
    ensures reply.status == 200 && reply.body.share.rider.Some? ==>
              var d := riders[rides[id].rider.value];
              reply.body.share.rider.value.firstname == d.firstname
              && reply.body.share.rider.value.lastname == d.lastname
              && reply.body.share.rider.value.phone == d.phone
              && reply.body.share.rider.value.vehicle == d.vehicle
  {
    if id in rides && Shareable(rides[id].status) then
      var ride := rides[id];
      Reply(200, ShareBody(ShareDetails(id, ride.pickup, ride.destination, ride.fare,
                                        SharedRiderOf(riders, ride.rider))))
    else Reply(404, MessageBody(RideNotFoundOrEnded))
  }

  /** A shared ride leaks nothing else: the answer is the same whatever the
      ride's OTP, passenger and messages, and whatever the rider's connection
      id, location and history. */
  lemma ShareDetailsDiscloseNoSecrets(rides: map<RideId, Ride>, riders: map<RiderId, Rider>, id: RideId,
                                      otp: string, user: UserId, messages: seq<Message>,
                                      socketId: Option<SocketId>, location: Option<GeoPoint>, history: seq<RideId>)
    requires id in rides
    ensures var ride := rides[id];
            var rides2 := rides[id := ride.(otp := otp, user := user, messages := messages)];
            var riders2 := if ride.rider.Some? && ride.rider.value in riders
                           then riders[ride.rider.value := riders[ride.rider.value].(socketId := socketId,
                                                                                      location := location,
                                                                                      rides := history)]
                           else riders;
            ShareDetailsReply(rides2, riders2, id) == ShareDetailsReply(rides, riders, id)
  {
  }

  // ------------------------------------------------------------ fan-out

  /** What `sendMessageToSocketId` to each rider adds to the outbox, in order. */
  function Notifications(riders: seq<Rider>, event: string, data: Payload, ioReady: bool): (es: seq<Emit>)
    ensures ioReady ==> |es| == |riders|
    ensures ioReady ==> forall k :: 0 <= k < |riders| ==>
                          es[k] == Emit(ToSocket(riders[k].socketId), event, data)
    ensures !ioReady ==> es == []
  {
    if !ioReady || riders == [] then []
    else Notifications(riders[..|riders| - 1], event, data, ioReady)
         + [Emit(ToSocket(riders[|riders| - 1].socketId), event, data)]
  }

  /** `ridersInRadius.map(rider => sendMessageToSocketId(...))`. */
  method NotifyRiders(bus: Bus, riders: seq<Rider>, event: string, data: Payload)
    modifies bus
    ensures bus.outbox == old(bus.outbox) + Notifications(riders, event, data, old(bus.ioReady))
    ensures bus.rooms == old(bus.rooms) && bus.ioReady == old(bus.ioReady)
  {
    var i := 0;
    while i < |riders|
      invariant 0 <= i <= |riders|
      invariant bus.outbox == old(bus.outbox) + Notifications(riders[..i], event, data, old(bus.ioReady))
      invariant bus.rooms == old(bus.rooms) && bus.ioReady == old(bus.ioReady)
    {
      bus.SendMessageToSocketId(riders[i].socketId, event, data);
      assert riders[..i + 1][..i] == riders[..i];
      i := i + 1;
    }
    assert riders[..i] == riders;
  }

  /** The radius used for both the new-ride and the cancellation fan-out. */
  const SearchRadiusKm := 4.0

  // ------------------------------------------------------------ create

  /** The passenger's history after a successful create: the ride id pushed
      onto it when the account exists. */
  function UsersAfterCreate(users: map<UserId, User>, userId: UserId, rideId: RideId): map<UserId, User> {
    if userId in users then users[userId := users[userId].(rides := users[userId].rides + [rideId])]
    else users
  }

  /** `createRide`: create the ride, record it on the passenger's account,
      answer 201 with the new document (which still holds its OTP), then look
      up the pickup point and send `new-ride`, without the OTP, to every rider
      of the requested class within the search radius. A failed lookup ends
      the background work silently. `geo` is the geocoding answer for the
      pickup address, `within` the store's containment test. */
  method CreateRide(db: Db, bus: Bus, id: RideId, userId: UserId, pickup: string, destination: string,
                    vehicleType: string, resp: DistanceMatrixResponse, otpDraw: nat,
                    geo: GeocodeResponse, within: (GeoPoint, CenterSphere) -> bool)
    returns (reply: Reply)
    requires db.Valid() && id !in db.rides && 100000 <= otpDraw < 1000000
    modifies db, bus
    ensures db.Valid()
    ensures var r := RideService.CreateRideOutcome(id, userId, pickup, destination, vehicleType, resp, otpDraw);
            (r.Failure? ==> reply == Reply(500, MessageBody(r.error))
                            && db.rides == old(db.rides) && db.rideOrder == old(db.rideOrder)
                            && db.users == old(db.users) && bus.outbox == old(bus.outbox))
            && (r.Success? ==> reply == Reply(201, RideBody(ReadWithOtp(r.value)))
                               && db.rides == old(db.rides)[id := r.value]
                               && db.rideOrder == old(db.rideOrder) + [id]
                               && db.users == UsersAfterCreate(old(db.users), userId, id))
    ensures reply.status == 201 ==>
              var c := GetAddressCoordinate(geo);
              (c.Failure? ==> bus.outbox == old(bus.outbox))
              && (c.Success? ==>
                    bus.outbox == old(bus.outbox)
                                  + Notifications(GetRidersInTheRadius(db.Directory(), c.value.ltd, c.value.lng,
                                                                       SearchRadiusKm, vehicleType, within),
                                                  "new-ride", RidePayload(DefaultRead(db.rides[id])), old(bus.ioReady)))
    ensures db.riders == old(db.riders) && db.riderOrder == old(db.riderOrder)
    ensures bus.rooms == old(bus.rooms) && bus.ioReady == old(bus.ioReady)
  {
    var r := RideService.CreateRide(db, id, userId, pickup, destination, vehicleType, resp, otpDraw);
    if r.Failure? {
      return Reply(500, MessageBody(r.error));
    }
    if userId in db.users {
      db.users := db.users[userId := db.users[userId].(rides := db.users[userId].rides + [id])];
    }
    reply := Reply(201, RideBody(ReadWithOtp(r.value)));
    var pickupCoordinates := GetAddressCoordinate(geo);
    if pickupCoordinates.Failure? {
      return;
    }
    var ridersInRadius := GetRidersInTheRadius(db.Directory(), pickupCoordinates.value.ltd, pickupCoordinates.value.lng,
                                               SearchRadiusKm, vehicleType, within);
    var rideWithUser := DefaultRead(db.rides[id]);
    NotifyRiders(bus, ridersInRadius, "new-ride", RidePayload(rideWithUser));
  }

  // ------------------------------------------------------------ confirm

  const RideNotFoundDot := "Ride not found."
  const AcceptedByAnother := "The ride is accepted by another rider before you. Better luck next time."
  const OngoingWithAnother := "The ride is currently ongoing with another rider."
  const AlreadyCompleted := "The ride has already been completed."
  const AlreadyCancelled := "The ride has been cancelled."

  /** The status `switch`: the refusal for every status but `pending`. */
  function ConfirmGate(s: Status): (refusal: Option<string>)
    ensures refusal.None? <==> s == Pending
  {
    match s
    case Pending => None
    case Accepted => Some(AcceptedByAnother)
    case Ongoing => Some(OngoingWithAnother)
    case Completed => Some(AlreadyCompleted)
    case Cancelled => Some(AlreadyCancelled)
  }

  /** The four refusals are pairwise different, so the answer tells the
      rider which state the ride was in. */
  lemma ConfirmGateDistinct(s: Status, t: Status)
    requires s != Pending && t != Pending && s != t
    ensures ConfirmGate(s) != ConfirmGate(t)
  {
    assert |AcceptedByAnother| == 72 && |OngoingWithAnother| == 49;
    assert |AlreadyCompleted| == 36 && |AlreadyCancelled| == 28;
  }

  /** The TypeError of reading `socketId` from a ride whose passenger account
      is gone. */
  const NoUserSocket := "Cannot read properties of null (reading 'socketId')"

  /** The ride collection after the confirm handler: only a pending ride
      reaches the service. */
  function ConfirmHandlerRides(rides: map<RideId, Ride>, rideId: RideId, riderId: RiderId): (after: map<RideId, Ride>)
    ensures after.Keys == rides.Keys
  {
    if rideId in rides && rides[rideId].status == Pending then RideService.AfterConfirm(rides, rideId, riderId)
    else rides
  }

  /** `confirmRide`: 404 for an unknown ride, 400 with the status's refusal
      for a ride that is not pending; otherwise the service confirms it, the
      passenger is sent `ride-confirmed` and the answer is 200. */
  method ConfirmRide(db: Db, bus: Bus, rideId: RideId, riderId: RiderId) returns (reply: Reply)
    requires db.Valid()
    modifies db, bus
    ensures db.Valid()
    ensures rideId !in old(db.rides) ==> reply == Reply(404, MessageBody(RideNotFoundDot))
                                          && db.riders == old(db.riders) && bus.outbox == old(bus.outbox)
    ensures rideId in old(db.rides) && old(db.rides)[rideId].status == Pending ==>
              var r := RideService.ConfirmOutcome(old(db.rides), old(db.riders), rideId, riderId);
              db.riders == RideService.RidersAfterConfirm(old(db.riders), rideId, riderId)
              && (r.Failure? ==> reply == Reply(500, MessageBody(r.error)) && bus.outbox == old(bus.outbox))
              && (r.Success? && r.value.ride.user in old(db.users) ==> reply.status == 200)
              && (r.Success? && r.value.ride.user !in old(db.users) ==>
                    reply == Reply(500, MessageBody(NoUserSocket)) && bus.outbox == old(bus.outbox))
    ensures rideId in old(db.rides) && old(db.rides)[rideId].status != Pending ==>
              reply == Reply(400, MessageBody(ConfirmGate(old(db.rides)[rideId].status).value))
              && db.riders == old(db.riders) && bus.outbox == old(bus.outbox)
    ensures db.rides == ConfirmHandlerRides(old(db.rides), rideId, riderId)
    ensures reply.status == 200 ==>
              var r := RideService.ConfirmOutcome(old(db.rides), old(db.riders), rideId, riderId);
              r.Success? && reply == Reply(200, RideBody(r.value)) && r.value.ride.user in db.users
              && bus.outbox == old(bus.outbox)
                               + (if old(bus.ioReady)
                                  then [Emit(ToSocket(db.users[r.value.ride.user].socketId), "ride-confirmed", RidePayload(r.value))]
                                  else [])
    ensures reply.status in {200, 400, 404, 500}
    ensures db.users == old(db.users) && db.rideOrder == old(db.rideOrder) && db.riderOrder == old(db.riderOrder)
    ensures bus.rooms == old(bus.rooms) && bus.ioReady == old(bus.ioReady)
  {
    if rideId !in db.rides {
      return Reply(404, MessageBody(RideNotFoundDot));
    }
    var refusal := ConfirmGate(db.rides[rideId].status);
    if refusal.Some? {
      return Reply(400, MessageBody(refusal.value));
    }
    var r := RideService.ConfirmRide(db, rideId, riderId);
    if r.Failure? {
      return Reply(500, MessageBody(r.error));
    }
    if r.value.ride.user !in db.users {
      return Reply(500, MessageBody(NoUserSocket));
    }
    bus.SendMessageToSocketId(db.users[r.value.ride.user].socketId, "ride-confirmed", RidePayload(r.value));
    reply := Reply(200, RideBody(r.value));
  }

  /** A rider is assigned once: a ride that has left `pending` is untouched
      by the confirm handler, so a second confirmation, by anyone, never
      changes the rider the first one assigned. */
  lemma RiderAssignedOnce(rides: map<RideId, Ride>, rideId: RideId, first: RiderId, second: RiderId)
    requires rideId in rides
    ensures rides[rideId].status != Pending ==> ConfirmHandlerRides(rides, rideId, second) == rides
    ensures var once := ConfirmHandlerRides(rides, rideId, first);
            ConfirmHandlerRides(once, rideId, second) == once
            && (rides[rideId].status == Pending && rideId != "" ==> once[rideId].rider == Some(first))
  {
    var once := ConfirmHandlerRides(rides, rideId, first);
    if rides[rideId].status == Pending && rideId != "" {
      assert once[rideId].status == Accepted;
    }
  }

  // ------------------------------------------------------------ start

  /** `startRide`: the service's answer; on success the passenger is sent
      `ride-started`. A service error is answered with 500 and its message. */
  method StartRide(db: Db, bus: Bus, rideId: RideId, otp: string) returns (reply: Reply)
    requires db.Valid()
    modifies db, bus
    ensures db.Valid()
    ensures db.rides == RideService.AfterStart(old(db.rides), rideId, otp)
    ensures var r := RideService.StartOutcome(old(db.rides), rideId, otp);
            (r.Failure? ==> reply == Reply(500, MessageBody(r.error)) && bus.outbox == old(bus.outbox))
            && (r.Success? && r.value.ride.user in db.users ==>
                  reply == Reply(200, RideBody(r.value))
                  && bus.outbox == old(bus.outbox)
                                   + (if old(bus.ioReady)
                                      then [Emit(ToSocket(db.users[r.value.ride.user].socketId), "ride-started", RidePayload(r.value))]
                                      else []))
            && (r.Success? && r.value.ride.user !in db.users ==>
                  reply == Reply(500, MessageBody(NoUserSocket)) && bus.outbox == old(bus.outbox))
    ensures db.users == old(db.users) && db.riders == old(db.riders)
    ensures db.rideOrder == old(db.rideOrder) && db.riderOrder == old(db.riderOrder)
    ensures bus.rooms == old(bus.rooms) && bus.ioReady == old(bus.ioReady)
  {
    var r := RideService.StartRide(db, rideId, otp);
    if r.Failure? {
      return Reply(500, MessageBody(r.error));
    }
    if r.value.ride.user !in db.users {
      return Reply(500, MessageBody(NoUserSocket));
    }
    bus.SendMessageToSocketId(db.users[r.value.ride.user].socketId, "ride-started", RidePayload(r.value));
    reply := Reply(200, RideBody(r.value));
  }

  // ------------------------------------------------------------ end

  /** The passenger's connection id, if the account exists and has a truthy one. */
  function UserSocket(users: map<UserId, User>, userId: UserId): Option<SocketId> {
    if userId in users && Truthy(users[userId].socketId) then users[userId].socketId else None
  }

  /** `endRide`: the service's answer; `ride-ended` is sent only when the
      passenger has a connection id, and the answer is 200 either way. */
  method EndRide(db: Db, bus: Bus, rideId: RideId, riderId: RiderId) returns (reply: Reply)
    requires db.Valid()
    modifies db, bus
    ensures db.Valid()
    ensures db.rides == RideService.AfterEnd(old(db.rides), rideId, riderId)
    ensures var r := RideService.EndOutcome(old(db.rides), rideId, riderId);
            (r.Failure? ==> reply == Reply(500, MessageBody(r.error)) && bus.outbox == old(bus.outbox))
            && (r.Success? ==>
                  reply == Reply(200, RideBody(r.value))
                  && var sid := UserSocket(db.users, r.value.ride.user);
                     bus.outbox == old(bus.outbox)
                                   + (if sid.Some? && old(bus.ioReady)
                                      then [Emit(ToSocket(sid), "ride-ended", RidePayload(r.value))]
                                      else []))
    ensures db.users == old(db.users) && db.riders == old(db.riders)
    ensures db.rideOrder == old(db.rideOrder) && db.riderOrder == old(db.riderOrder)
    ensures bus.rooms == old(bus.rooms) && bus.ioReady == old(bus.ioReady)
  {
    var r := RideService.EndRide(db, rideId, riderId);
    if r.Failure? {
      return Reply(500, MessageBody(r.error));
    }
    var sid := UserSocket(db.users, r.value.ride.user);
    if sid.Some? {
      bus.SendMessageToSocketId(sid, "ride-ended", RidePayload(r.value));
    }
    reply := Reply(200, RideBody(r.value));
  }

  // ------------------------------------------------------------ cancel

  /** The TypeError of reading `pickup` when no ride was updated. */
  const NoRideToCancel := "Cannot read properties of null (reading 'pickup')"

  /** The ride collection after `cancelRide`: the status is set whatever it
      was. */
  function AfterCancel(rides: map<RideId, Ride>, rideId: RideId): (after: map<RideId, Ride>)
    ensures after.Keys == rides.Keys
  {
    if rideId in rides then rides[rideId := rides[rideId].(status := Cancelled)] else rides
  }

  /** `cancelRide`: cancel first, then look up the pickup point and send
      `ride-cancelled` with the updated ride to every rider of the ride's
      class within the search radius. A failed lookup is answered with 500,
      but the ride stays cancelled. `geo` is the geocoding answer for the
      ride's pickup address. */
  method CancelRide(db: Db, bus: Bus, rideId: RideId, geo: GeocodeResponse,
                    within: (GeoPoint, CenterSphere) -> bool) returns (reply: Reply)
    requires db.Valid()
    modifies db, bus
    ensures db.Valid()
    ensures db.rides == AfterCancel(old(db.rides), rideId)
    ensures rideId !in old(db.rides) ==> reply == Reply(500, MessageBody(NoRideToCancel)) && bus.outbox == old(bus.outbox)
    ensures rideId in old(db.rides) ==>
              var ride := db.rides[rideId];
              var c := GetAddressCoordinate(geo);
              (c.Failure? ==> reply == Reply(500, MessageBody(c.error)) && bus.outbox == old(bus.outbox))
              && (c.Success? ==>
                    reply == Reply(200, RideBody(DefaultRead(ride)))
                    && bus.outbox == old(bus.outbox)
                                     + Notifications(GetRidersInTheRadius(db.Directory(), c.value.ltd, c.value.lng,
                                                                          SearchRadiusKm, ride.vehicle, within),
                                                     "ride-cancelled", RidePayload(DefaultRead(ride)), old(bus.ioReady)))
    ensures db.users == old(db.users) && db.riders == old(db.riders)
    ensures db.rideOrder == old(db.rideOrder) && db.riderOrder == old(db.riderOrder)
    ensures bus.rooms == old(bus.rooms) && bus.ioReady == old(bus.ioReady)
  {
    if rideId !in db.rides {
      return Reply(500, MessageBody(NoRideToCancel));
    }
    db.rides := db.rides[rideId := db.rides[rideId].(status := Cancelled)];
    var ride := db.rides[rideId];
    var pickupCoordinates := GetAddressCoordinate(geo);
    if pickupCoordinates.Failure? {
      return Reply(500, MessageBody(pickupCoordinates.error));
    }
    var ridersInRadius := GetRidersInTheRadius(db.Directory(), pickupCoordinates.value.ltd, pickupCoordinates.value.lng,
                                               SearchRadiusKm, ride.vehicle, within);
    NotifyRiders(bus, ridersInRadius, "ride-cancelled", RidePayload(DefaultRead(ride)));
    reply := Reply(200, RideBody(DefaultRead(ride)));
  }

  // ------------------------------------------------------------ lifecycle

  /** The status moves the lifecycle allows: pending to accepted to ongoing
      to completed, cancellation from anywhere, or no move at all. */
  predicate LegalMove(from: Status, to: Status) {
    || from == to
    || (from == Pending && to == Accepted)
    || (from == Accepted && to == Ongoing)
    || (from == Ongoing && to == Completed)
    || to == Cancelled
  }

  /** What a ride was quoted and how it is identified never changes after
      creation. */
  predicate SameQuote(a: Ride, b: Ride) {
    a.id == b.id && a.user == b.user && a.pickup == b.pickup && a.destination == b.destination
    && a.fare == b.fare && a.vehicle == b.vehicle && a.distance == b.distance
    && a.duration == b.duration && a.otp == b.otp && a.messages == b.messages
  }

  /** A handler's effect on the ride collection respects the lifecycle: no
      ride appears or disappears, every status move is legal, the quote and
      the OTP are kept, and the rider only changes when a pending ride is
      accepted. */
  predicate Respects(before: map<RideId, Ride>, after: map<RideId, Ride>) {
    after.Keys == before.Keys
    && forall id :: id in before ==>
         LegalMove(before[id].status, after[id].status) && SameQuote(before[id], after[id])
         && (after[id].rider != before[id].rider ==> before[id].status == Pending && after[id].status == Accepted)
  }

  lemma ConfirmRespects(rides: map<RideId, Ride>, rideId: RideId, riderId: RiderId)
    ensures Respects(rides, ConfirmHandlerRides(rides, rideId, riderId))
  {
    var c := ConfirmHandlerRides(rides, rideId, riderId);
    forall id | id in rides
      ensures LegalMove(rides[id].status, c[id].status) && SameQuote(rides[id], c[id])
              && (c[id].rider != rides[id].rider ==> rides[id].status == Pending && c[id].status == Accepted)
    {
    }
  }

  lemma StartRespects(rides: map<RideId, Ride>, rideId: RideId, otp: string)
    ensures Respects(rides, RideService.AfterStart(rides, rideId, otp))
  {
    var s := RideService.AfterStart(rides, rideId, otp);
    forall id | id in rides
      ensures LegalMove(rides[id].status, s[id].status) && SameQuote(rides[id], s[id]) && s[id].rider == rides[id].rider
    {
      if RideService.StartOutcome(rides, rideId, otp).Success? && id == rideId {
        assert rides[id].status == Accepted && s[id].status == Ongoing;
      }
    }
  }

  lemma EndRespects(rides: map<RideId, Ride>, rideId: RideId, riderId: RiderId)
    ensures Respects(rides, RideService.AfterEnd(rides, rideId, riderId))
  {
    var e := RideService.AfterEnd(rides, rideId, riderId);
    forall id | id in rides
      ensures LegalMove(rides[id].status, e[id].status) && SameQuote(rides[id], e[id]) && e[id].rider == rides[id].rider
    {
      if RideService.EndOutcome(rides, rideId, riderId).Success? && id == rideId {
        assert rides[id].status == Ongoing && e[id].status == Completed;
      }
    }
  }

  lemma CancelRespects(rides: map<RideId, Ride>, rideId: RideId)
    ensures Respects(rides, AfterCancel(rides, rideId))
  {
  }

  /** Cancellation applies from every state, a completed ride included, and
      touches nothing but that ride's status. */
  lemma CancelFromAnyState(rides: map<RideId, Ride>, rideId: RideId)
    requires rideId in rides
    ensures AfterCancel(rides, rideId)[rideId].status == Cancelled
    ensures AfterCancel(rides, rideId)[rideId].(status := rides[rideId].status) == rides[rideId]
    ensures forall id :: id in rides && id != rideId ==> AfterCancel(rides, rideId)[id] == rides[id]
  {
  }

  /** The service's confirmation on its own does not respect the lifecycle:
      it accepts a completed ride and replaces its rider. The controller's
      status switch is what keeps the lifecycle. */
  lemma ServiceConfirmUnguarded(ride: Ride, other: RiderId)
    requires ride.status == Completed && ride.id != "" && ride.rider != Some(other)
    ensures !Respects(map[ride.id := ride], RideService.AfterConfirm(map[ride.id := ride], ride.id, other))
    ensures ConfirmHandlerRides(map[ride.id := ride], ride.id, other) == map[ride.id := ride]
  {
    var rides := map[ride.id := ride];
    var after := RideService.AfterConfirm(rides, ride.id, other);
    assert after[ride.id].status == Accepted;
    assert !LegalMove(rides[ride.id].status, after[ride.id].status);
  }
}
