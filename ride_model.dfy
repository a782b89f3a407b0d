/** The ride record of the document store, with its embedded chat log, and
    the two account records the core reads and writes (only the fields the
    ride core uses; the account schemas themselves are not part of this model). */
module RideModel {
  import opened Wrappers

  type RideId = string
  type UserId = string
  type RiderId = string
  type SocketId = string

  /** The `status` enum of a ride. */
  datatype Status = Pending | Accepted | Ongoing | Completed | Cancelled

  /** The value stored for each status. */
  function StatusName(s: Status): string {
    match s
    case Pending => "pending"
    case Accepted => "accepted"
    case Ongoing => "ongoing"
    case Completed => "completed"
    case Cancelled => "cancelled"
  }

  /** The enum validator: only the five names are accepted. */
  function ParseStatus(name: string): (r: Option<Status>)
    ensures r.Some? ==> StatusName(r.value) == name
  {
    if name == "pending" then Some(Pending)
    else if name == "accepted" then Some(Accepted)
    else if name == "ongoing" then Some(Ongoing)
    else if name == "completed" then Some(Completed)
    else if name == "cancelled" then Some(Cancelled)
    else None
  }

  /** Every status survives being stored and read back, so the five names
      are distinct. */
  lemma StatusNameRoundTrip(s: Status)
    ensures ParseStatus(StatusName(s)) == Some(s)
  {
  }

  /** A ride that is created without a status is `pending`. */
  const DefaultStatus: Status := Pending

  /** The `by` enum of a chat message (the field is `sentBy` here: `by` is a Dafny keyword). */
  datatype Sender = UserSide | RiderSide

  function SenderName(b: Sender): string {
    match b
    case UserSide => "user"
    case RiderSide => "rider"
  }

  /** The enum validator applied when a message is saved. */
  function ParseSender(name: string): (r: Option<Sender>)
    ensures r.Some? <==> name == "user" || name == "rider"
    ensures r.Some? ==> SenderName(r.value) == name
  {
    if name == "user" then Some(UserSide)
    else if name == "rider" then Some(RiderSide)
    else None
  }

  /** One chat entry. The schema gives messages no `_id` of their own, so
      there is no such field here; `sentBy` is absent when the sender gave
      none (the enum validator only checks values that are present);
      `timestamp` is the server clock reading. */
  datatype Message = Message(msg: string, sentBy: Option<Sender>, time: string, date: string, timestamp: int)

  /** A ride document. `rider` is absent until a rider confirms. `otp` is
      stored with every ride but left out of default reads (see `RideView`).
      Payment fields and the store-managed timestamps are not modelled. */
  datatype Ride = Ride(
    id: RideId,
    user: UserId,
    rider: Option<RiderId>,
    pickup: string,
    destination: string,
    fare: int,
    vehicle: string,
    status: Status,
    duration: nat,   // seconds
    distance: nat,   // meters
    otp: string,
    messages: seq<Message>)

  /** The `required` validators: a required string may not be empty. */
  predicate HasRequiredFields(r: Ride) {
    r.user != "" && r.pickup != "" && r.destination != "" && r.vehicle != "" && r.otp != ""
  }

  /** `rideModel.create(...)`: validation of the required fields, then a
      document with the schema defaults (status `pending`, no rider, no
      messages). The `fare` field is `None` when the caller had no fare for
      the requested vehicle class, which the `required` validator rejects. */
  function Create(id: RideId, user: UserId, pickup: string, destination: string,
                fare: Option<int>, vehicle: string, duration: nat, distance: nat,
                otp: string): (r: Result<Ride>)
    ensures r.Success? <==> fare.Some? && user != "" && pickup != "" && destination != ""
                            && vehicle != "" && otp != ""
    ensures r.Success? ==> HasRequiredFields(r.value)
    ensures r.Success? ==> r.value.status == DefaultStatus && r.value.rider == None && r.value.messages == []
    ensures r.Success? ==> r.value.id == id && r.value.user == user && r.value.fare == fare.value
                           && r.value.otp == otp && r.value.vehicle == vehicle
                           && r.value.pickup == pickup && r.value.destination == destination
                           && r.value.duration == duration && r.value.distance == distance
  {
    if fare.None? || user == "" || pickup == "" || destination == "" || vehicle == "" || otp == "" then
      Failure(RideValidationFailed)
    else
      Success(Ride(id, user, None, pickup, destination, fare.value, vehicle, DefaultStatus,
                   duration, distance, otp, []))
  }

  const RideValidationFailed := "Ride validation failed"

  /** A ride as a query returns it: `select: false` keeps the OTP out unless
      the query asks for `+otp`. */
  datatype RideView = RideView(ride: Ride, otpSelected: bool) {
    function Otp(): Option<string> {
      if otpSelected then Some(ride.otp) else None
    }
  }

  /** A plain query: the OTP is never part of the result. */
  function DefaultRead(r: Ride): (v: RideView)
    ensures v.Otp() == None && v.ride == r
  {
    RideView(r, false)
  }

  /** A query with `.select("+otp")`: the stored OTP is visible. */
  function ReadWithOtp(r: Ride): (v: RideView)
    ensures v.Otp() == Some(r.otp) && v.ride == r
  {
    RideView(r, true)
  }

  /** A passenger account: its live connection id and its ride history. */
  datatype User = User(id: UserId, firstname: string, lastname: string, phone: string,
                       socketId: Option<SocketId>, rides: seq<RideId>)

  /** A GeoJSON point: `coordinates` holds longitude first, then latitude. */
  datatype GeoPoint = GeoPoint(coordinates: seq<real>)

  datatype Vehicle = Vehicle(vehicleType: string, color: string, number: string)

  /** A driver account: live connection id, last known position, vehicle and
      ride history. */
  datatype Rider = Rider(id: RiderId, firstname: string, lastname: string, phone: string,
                         socketId: Option<SocketId>, location: Option<GeoPoint>,
                         vehicle: Vehicle, rides: seq<RideId>)
}
