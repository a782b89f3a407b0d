/** The rider's home screen: the state that the accept, verify and end
    handlers and the socket events change step by step, and the earnings
    summary folded over the rider's past rides. */
module RiderHome {
  import opened Wrappers
  import opened JsRuntime
  import NewRide

  // ---------------------------------------------------------------- ride card data

  /** The ride shown on the card, as the `new-ride` event delivers it. */
  datatype RideData = RideData(id: string, pickup: string, destination: string, fare: int,
                               vehicle: string, status: string, duration: int, distance: int)

  /** The placeholder ride shown when there is none. Its id is not empty. */
  const DefaultRideData := RideData("123456789012345678901234", "Place, City, State, Country",
                                    "Place, City, State, Country", 0, "car", "pending", 0, 0)

  /** The requests the screen sends to the server. */
  datatype Request =
    | ConfirmRequest(rideId: string)
    | StartRequest(rideId: string, otp: string)
    | EndRequest(rideId: string)
    | JoinRoomRequest(rideId: string)

  /** The screen's state variables. */
  datatype Screen = Screen(showBtn: string, newRide: RideData, showNewRidePanel: bool,
                           showRiderDetailsPanel: bool, loading: bool, error: string, otp: string)

  /** How the confirm request ended: accepted by the server, refused with an
      error response, or failed with no response at all (a network error or
      a timeout), in which case the error has no `response` to read. */
  datatype ConfirmReply = Confirmed | Refused | Unanswered

  /** What happens to the screen. The flags of the start and end requests
      say whether the server answered with success; a failed request is one
      that threw. */
  datatype Event =
    | Accept(reply: ConfirmReply)
    | VerifyOtp(started: bool)
    | End(ended: bool)
    | TypeOtp(typed: string)
    | NewRideEvent(data: RideData)
    | RideCancelled
    | Clear

  /** The state right after a ride has been cleared away. */
  function Cleared(s: Screen): Screen {
    s.(showBtn := "accept", loading := false, showRiderDetailsPanel := true,
       showNewRidePanel := false, newRide := DefaultRideData)
  }

  /** The state after an event: the specification of the screen's handlers.
      A refused accept shows an alert and clears the ride a second later; the
      model takes that second as having passed. An unanswered accept stops
      loading and then throws while reading the missing response, before the
      clearing is scheduled, so the ride stays on the card. */
  function Next(s: Screen, e: Event): (t: Screen)
    ensures t.newRide == s.newRide || t.newRide == DefaultRideData || e.NewRideEvent?
    ensures t.otp == s.otp || e.TypeOtp?
    ensures t.showBtn == "otp" && s.showBtn != "otp" ==> e == Accept(Confirmed)
    ensures t.showBtn == "end-ride" && s.showBtn != "end-ride" ==> e == VerifyOtp(true)
  {
    match e
    case Accept(reply) =>
      if s.newRide.id == "" then s
      else if reply == Confirmed then s.(loading := false, showBtn := "otp", showRiderDetailsPanel := false,
                                         showNewRidePanel := true)
      else if reply == Refused then Cleared(s.(loading := false))
      else s.(loading := false)
    case VerifyOtp(ok) =>
      if s.newRide.id == "" || |s.otp| != 6 then s
      else if ok then s.(showBtn := "end-ride", loading := false)
      else s.(loading := false, error := "Invalid OTP")
    case End(ok) =>
      if s.newRide.id == "" then s
      else if ok then Cleared(s)
      else s.(loading := false)
    case TypeOtp(typed) => s.(otp := NewRide.OtpField(typed))
    case NewRideEvent(data) => s.(showBtn := "accept", newRide := data, showNewRidePanel := true)
    case RideCancelled => Cleared(s)
    case Clear => Cleared(s)
  }

  /** The requests a handler itself sends, given the state it finds. */
  function Requested(s: Screen, e: Event): (r: seq<Request>)
    ensures s.newRide.id == "" ==> r == []
    ensures |r| <= 2 && forall k :: 0 <= k < |r| ==> r[k].rideId == s.newRide.id
  {
    match e
    case Accept(reply) =>
      if s.newRide.id == "" then []
      else [ConfirmRequest(s.newRide.id)] + (if reply == Confirmed then [JoinRoomRequest(s.newRide.id)] else [])
    case VerifyOtp(_) =>
      if s.newRide.id == "" || |s.otp| != 6 then [] else [StartRequest(s.newRide.id, Trim(s.otp))]
    case End(_) =>
      if s.newRide.id == "" then [] else [EndRequest(s.newRide.id)]
    case _ => []
  }

  /** The effect that depends on the card's ride joins that ride's room each
      time the ride is replaced. A ride from `new-ride` is always a new
      object; putting back the placeholder when it is already shown changes
      nothing, so the effect does not run again. */
  function Rejoined(s: Screen, e: Event): (r: seq<Request>)
    ensures r == [] || r == [JoinRoomRequest(Next(s, e).newRide.id)]
    ensures r == [] ==> Next(s, e).newRide == s.newRide
    ensures e.NewRideEvent? ==> r != []
  {
    var after := Next(s, e).newRide;
    if e.NewRideEvent? || after != s.newRide then [JoinRoomRequest(after.id)] else []
  }

  /** Everything an event sends: the handler's requests, then the effect's. */
  function Sent(s: Screen, e: Event): (r: seq<Request>)
    ensures forall k :: 0 <= k < |r| ==> r[k].rideId == s.newRide.id || r[k].rideId == Next(s, e).newRide.id
  {
    Requested(s, e) + Rejoined(s, e)
  }

  /** The room the screen joined last, if any. */
  function LastRoom(sent: seq<Request>): (room: Option<string>)
    ensures room.Some? <==> exists k :: 0 <= k < |sent| && sent[k].JoinRoomRequest?
  {
    if sent == [] then None
    else if sent[|sent| - 1].JoinRoomRequest? then Some(sent[|sent| - 1].rideId)
    else LastRoom(sent[..|sent| - 1])
  }

  // ---------------------------------------------------------------- the screen

  class RiderScreen {
    var showBtn: string
    var newRide: RideData
    var showNewRidePanel: bool
    var showRiderDetailsPanel: bool
    var loading: bool
    var error: string
    var otp: string
    /** Everything sent to the server so far, in order. */
    var sent: seq<Request>

    function State(): Screen
      reads this
    {
      Screen(showBtn, newRide, showNewRidePanel, showRiderDetailsPanel, loading, error, otp)
    }

    /** The first render: the button, the ride and the panel flag come from
        local storage when it holds them. */
    constructor (storedBtn: string, storedRide: RideData, storedPanel: bool)
      ensures State() == Screen(storedBtn, storedRide, storedPanel, true, false, "", "")
      ensures sent == [JoinRoomRequest(storedRide.id)]
      ensures LastRoom(sent) == Some(newRide.id)
    {
      showBtn, newRide, showNewRidePanel := storedBtn, storedRide, storedPanel;
      showRiderDetailsPanel, loading, error, otp := true, false, "", "";
      sent := [JoinRoomRequest(storedRide.id)];
    }

    /** `setNewRide` together with the effect that depends on the ride: a
        new value (or, when `newObject`, a new object) joins its room. */
    method SetNewRide(data: RideData, newObject: bool)
      modifies this
      ensures State() == old(State()).(newRide := data)
      ensures sent == old(sent) + (if newObject || data != old(newRide) then [JoinRoomRequest(data.id)] else [])
    {
      if newObject || data != newRide {
        sent := sent + [JoinRoomRequest(data.id)];
      }
      newRide := data;
    }

    /** `clearRideData` */
    method ClearRideData()
      modifies this
      ensures State() == Next(old(State()), Clear)
      ensures sent == old(sent) + Sent(old(State()), Clear)
    {
      showBtn := "accept";
      loading := false;
      showRiderDetailsPanel := true;
      showNewRidePanel := false;
      SetNewRide(DefaultRideData, false);
    }

    /** `acceptRide`: confirms the ride on the card, then joins its room. */
    method AcceptRide(reply: ConfirmReply)
      modifies this
      ensures State() == Next(old(State()), Accept(reply))
      ensures sent == old(sent) + Sent(old(State()), Accept(reply))
    {
      if newRide.id != "" {
        loading := true;
        sent := sent + [ConfirmRequest(newRide.id)];
        if reply == Confirmed {
          loading := false;
          showBtn := "otp";
          showRiderDetailsPanel := false;
          showNewRidePanel := true;
          sent := sent + [JoinRoomRequest(newRide.id)];
        } else {
          loading := false;
          if reply == Refused {
            ClearRideData();
          }
        }
      }
    }

    /** `verifyOTP`: starts the ride with the trimmed code. */
    method VerifyOtp(ok: bool)
      modifies this
      ensures State() == Next(old(State()), Event.VerifyOtp(ok))
      ensures sent == old(sent) + Sent(old(State()), Event.VerifyOtp(ok))
    {
      if newRide.id != "" && |otp| == 6 {
        loading := true;
        var cleanOtp := Trim(otp);
        sent := sent + [StartRequest(newRide.id, cleanOtp)];
        if ok {
          showBtn := "end-ride";
          loading := false;
        } else {
          loading := false;
          error := "Invalid OTP";
        }
      }
    }

    /** `endRide`: ends the ride and puts the placeholder ride back. */
    method EndRide(ok: bool)
      modifies this
      ensures State() == Next(old(State()), End(ok))
      ensures sent == old(sent) + Sent(old(State()), End(ok))
    {
      if newRide.id != "" {
        loading := true;
        sent := sent + [EndRequest(newRide.id)];
        if ok {
          showBtn := "accept";
          loading := false;
          showRiderDetailsPanel := true;
          showNewRidePanel := false;
          SetNewRide(DefaultRideData, false);
          showBtn := "accept";
        } else {
          loading := false;
        }
      }
    }

    /** The OTP field's change handler. */
    method SetOtp(typed: string)
      modifies this
      ensures State() == Next(old(State()), TypeOtp(typed)) && sent == old(sent)
    {
      otp := NewRide.OtpField(typed);
    }

    /** The `new-ride` socket event. */
    method OnNewRide(data: RideData)
      modifies this
      ensures State() == Next(old(State()), NewRideEvent(data))
      ensures sent == old(sent) + Sent(old(State()), NewRideEvent(data))
    {
      showBtn := "accept";
      SetNewRide(data, true);
      showNewRidePanel := true;
    }

    /** The `ride-cancelled` socket event. */
    method OnRideCancelled()
      modifies this
      ensures State() == Next(old(State()), RideCancelled)
      ensures sent == old(sent) + Sent(old(State()), RideCancelled)
    {
      ClearRideData();
    }
  }

  // ---------------------------------------------------------------- screen properties

  /** The button cycle: a confirmed accept asks for the code, a verified code
      offers to end the ride, and an ended ride offers to accept again, with
      the placeholder ride back on the card and the details panel shown. */
  lemma ButtonCycle(s: Screen)
    requires s.newRide.id != "" && |s.otp| == 6
    ensures Next(s, Accept(Confirmed)).showBtn == "otp"
    ensures Next(Next(s, Accept(Confirmed)), VerifyOtp(true)).showBtn == "end-ride"
    ensures Next(Next(Next(s, Accept(Confirmed)), VerifyOtp(true)), End(true))
            == Cleared(Next(Next(s, Accept(Confirmed)), VerifyOtp(true)))
    ensures Next(Next(Next(s, Accept(Confirmed)), VerifyOtp(true)), End(true)).showBtn == "accept"
    ensures Next(Next(Next(s, Accept(Confirmed)), VerifyOtp(true)), End(true)).newRide == DefaultRideData
  {
  }

  /** A confirmed accept keeps the ride and joins its room; a refused one
      puts the placeholder back; one that got no answer only stops loading,
      keeping the ride, the buttons and the room. */
  lemma AcceptOutcomes(s: Screen)
    requires s.newRide.id != ""
    ensures Next(s, Accept(Confirmed)).newRide == s.newRide
    ensures Sent(s, Accept(Confirmed)) == [ConfirmRequest(s.newRide.id), JoinRoomRequest(s.newRide.id)]
    ensures Next(s, Accept(Refused)) == Cleared(s)
    ensures Sent(s, Accept(Refused))
            == [ConfirmRequest(s.newRide.id)]
               + (if s.newRide == DefaultRideData then [] else [JoinRoomRequest(DefaultRideData.id)])
    ensures Next(s, Accept(Unanswered)) == s.(loading := false)
    ensures Sent(s, Accept(Unanswered)) == [ConfirmRequest(s.newRide.id)]
  {
  }

  /** The code is sent only for a ride with an id and a six-character code,
      and it is sent trimmed; otherwise nothing changes. A rejected code
      keeps the code field and shows "Invalid OTP". */
  lemma VerifyGuard(s: Screen, ok: bool)
    ensures Sent(s, VerifyOtp(ok)) != [] <==> s.newRide.id != "" && |s.otp| == 6
    ensures Sent(s, VerifyOtp(ok)) != [] ==> Sent(s, VerifyOtp(ok)) == [StartRequest(s.newRide.id, Trim(s.otp))]
    ensures Sent(s, VerifyOtp(ok)) == [] ==> Next(s, VerifyOtp(ok)) == s
    ensures Sent(s, VerifyOtp(ok)) != [] && !ok ==>
              Next(s, VerifyOtp(ok)).showBtn == s.showBtn && Next(s, VerifyOtp(ok)).error == "Invalid OTP"
  {
  }

  /** A code entered through the field is sent exactly as it stands in the
      state: the field has already removed every whitespace character. */
  lemma TypedOtpSentAsIs(s: Screen, typed: string, ok: bool)
    requires s.newRide.id != ""
    ensures var t := Next(s, TypeOtp(typed));
            |t.otp| == 6 ==> Sent(t, VerifyOtp(ok)) == [StartRequest(s.newRide.id, t.otp)]
  {
    NewRide.OtpFieldKeeps(typed);
  }

  /** `new-ride` shows the new ride with the accept buttons and joins its
      room; `ride-cancelled` puts back the placeholder ride and the details
      panel, joining the placeholder's room only when another ride was
      shown. */
  lemma SocketEvents(s: Screen, data: RideData)
    ensures Next(s, NewRideEvent(data)).showBtn == "accept"
    ensures Next(s, NewRideEvent(data)).newRide == data && Next(s, NewRideEvent(data)).showNewRidePanel
    ensures Next(s, RideCancelled) == Next(s, Clear)
    ensures Next(s, RideCancelled).newRide == DefaultRideData
    ensures Next(s, RideCancelled).showRiderDetailsPanel && !Next(s, RideCancelled).showNewRidePanel
    ensures Sent(s, NewRideEvent(data)) == [JoinRoomRequest(data.id)]
    ensures Sent(s, RideCancelled)
            == if s.newRide == DefaultRideData then [] else [JoinRoomRequest(DefaultRideData.id)]
  {
  }

  /** The room joined last is the one whose messages the screen hears. */
  lemma {:induction false} LastRoomAppend(a: seq<Request>, b: seq<Request>)
    ensures LastRoom(a + b) == if LastRoom(b).Some? then LastRoom(b) else LastRoom(a)
    decreases |b|
  {
    if b == [] {
      assert a + b == a;
    } else {
      assert (a + b)[..|a + b| - 1] == a + b[..|b| - 1];
      LastRoomAppend(a, b[..|b| - 1]);
    }
  }

  /** A handler joins a room only when it keeps the ride, and then it is the
      ride's own room. */
  lemma RequestedRoom(s: Screen, e: Event)
    ensures var room := LastRoom(Requested(s, e));
            room.Some? ==> room == Some(s.newRide.id) && Next(s, e).newRide == s.newRide
  {
    var r := Requested(s, e);
    if e.Accept? && e.reply == Confirmed && s.newRide.id != "" {
      assert r == [ConfirmRequest(s.newRide.id)] + [JoinRoomRequest(s.newRide.id)];
      assert r[..1] == [ConfirmRequest(s.newRide.id)];
    } else {
      assert forall k :: 0 <= k < |r| ==> !r[k].JoinRoomRequest?;
    }
  }

  /** The screen is always in the room of the ride on its card: whatever
      happens, the last room it joined is that ride's. */
  lemma InRideRoom(s: Screen, sent: seq<Request>, e: Event)
    requires LastRoom(sent) == Some(s.newRide.id)
    ensures LastRoom(sent + Sent(s, e)) == Some(Next(s, e).newRide.id)
  {
    var r := Requested(s, e);
    var j := Rejoined(s, e);
    LastRoomAppend(sent, r + j);
    LastRoomAppend(r, j);
    RequestedRoom(s, e);
    if j != [] {
      assert j[..0] == [];
      assert LastRoom(j) == Some(Next(s, e).newRide.id);
    }
  }

  /** The button is always one of the three modes the card knows. */
  predicate KnownButton(s: Screen) {
    s.showBtn == "accept" || s.showBtn == "otp" || s.showBtn == "end-ride"
  }

  lemma KnownButtonPreserved(s: Screen, e: Event)
    requires KnownButton(s)
    ensures KnownButton(Next(s, e))
  {
  }

  /** The placeholder ride has a non-empty id, so the id checks of the
      handlers do not stop a request for it: accepting it asks the server to
      confirm the placeholder id. */
  lemma PlaceholderPassesIdCheck(s: Screen)
    requires s.newRide == DefaultRideData
    ensures Sent(s, Accept(Refused)) == [ConfirmRequest("123456789012345678901234")]
    ensures Sent(s, End(false)) == [EndRequest("123456789012345678901234")]
  {
  }

  // ---------------------------------------------------------------- earnings

  /** A past ride as the earnings summary reads it; `day` is the calendar
      day, in local time, of its last update. */
  datatype RideRecord = RideRecord(status: string, fare: int, distance: int, day: int)

  datatype Earnings = Earnings(total: int, today: int, accepted: nat, cancelled: nat,
                               distanceTravelled: int)

  /** The number of rides with the given status. */
  function CountStatus(rides: seq<RideRecord>, status: string): nat {
    if rides == [] then 0
    else CountStatus(rides[..|rides| - 1], status) + (if rides[|rides| - 1].status == status then 1 else 0)
  }

  /** The fares of all rides, whatever their status. */
  function TotalFare(rides: seq<RideRecord>): int {
    if rides == [] then 0 else TotalFare(rides[..|rides| - 1]) + rides[|rides| - 1].fare
  }

  predicate CompletedOn(r: RideRecord, day: int) {
    r.status == "completed" && r.day == day
  }

  /** The fares of the rides completed on the given day. */
  function DayFare(rides: seq<RideRecord>, day: int): int {
    if rides == [] then 0
    else DayFare(rides[..|rides| - 1], day) + (if CompletedOn(rides[|rides| - 1], day) then rides[|rides| - 1].fare else 0)
  }

  /** The distance, in metres, of the completed rides. */
  function CompletedDistance(rides: seq<RideRecord>): int {
    if rides == [] then 0
    else CompletedDistance(rides[..|rides| - 1]) + (if rides[|rides| - 1].status == "completed" then rides[|rides| - 1].distance else 0)
  }

  /** The summary the screen shows for the rider's rides on the given day. */
  function EarningsOf(rides: seq<RideRecord>, today: int): (e: Earnings)
    ensures e.accepted + e.cancelled <= |rides|
    ensures (forall i :: 0 <= i < |rides| ==> rides[i].fare >= 0) ==> 0 <= e.today <= e.total
    ensures e.distanceTravelled * 1000 - 500 <= CompletedDistance(rides) < e.distanceTravelled * 1000 + 500
  {
    AcceptedAndCancelledBounded(rides);
    var e := Earnings(TotalFare(rides), DayFare(rides, today), CountStatus(rides, "completed"),
                      CountStatus(rides, "cancelled"), Round(CompletedDistance(rides) as real / 1000.0));
    if forall i :: 0 <= i < |rides| ==> rides[i].fare >= 0 then
      TodayWithinTotal(rides, today);
      e
    else e
  }

  /** `calculateEarnings`: one pass over the rides updating five counters. */
  method CalculateEarnings(rides: seq<RideRecord>, today: int) returns (e: Earnings)
    ensures e == EarningsOf(rides, today)
  {
    var total, todays, accepted, cancelled, distance := 0, 0, 0, 0, 0;
    for i := 0 to |rides|
      invariant total == TotalFare(rides[..i]) && todays == DayFare(rides[..i], today)
      invariant accepted == CountStatus(rides[..i], "completed")
      invariant cancelled == CountStatus(rides[..i], "cancelled")
      invariant distance == CompletedDistance(rides[..i])
    {
      assert rides[..i + 1][..i] == rides[..i];
      var ride := rides[i];
      if ride.status == "completed" {
        accepted := accepted + 1;
        distance := distance + ride.distance;
      }
      if ride.status == "cancelled" {
        cancelled := cancelled + 1;
      }
      total := total + ride.fare;
      if ride.day == today && ride.status == "completed" {
        todays := todays + ride.fare;
      }
    }
    assert rides[..|rides|] == rides;
    e := Earnings(total, todays, accepted, cancelled, Round(distance as real / 1000.0));
  }

  /** A ride is counted as completed or as cancelled, never both. */
  lemma {:induction false} AcceptedAndCancelledBounded(rides: seq<RideRecord>)
    ensures CountStatus(rides, "completed") + CountStatus(rides, "cancelled") <= |rides|
  {
    if rides != [] {
      AcceptedAndCancelledBounded(rides[..|rides| - 1]);
    }
  }

  /** With fares that are not negative, today's earnings never exceed the
      total, and neither is negative. */
  lemma {:induction false} TodayWithinTotal(rides: seq<RideRecord>, today: int)
    requires forall i :: 0 <= i < |rides| ==> rides[i].fare >= 0
    ensures 0 <= DayFare(rides, today) <= TotalFare(rides)
  {
    if rides != [] {
      TodayWithinTotal(rides[..|rides| - 1], today);
    }
  }

  /** A ride that is not completed adds its fare to the total and nothing
      else: it is neither today's earnings nor distance travelled. */
  lemma UnfinishedRideAddsFareOnly(rides: seq<RideRecord>, r: RideRecord, today: int)
    requires r.status != "completed"
    ensures TotalFare(rides + [r]) == TotalFare(rides) + r.fare
    ensures DayFare(rides + [r], today) == DayFare(rides, today)
    ensures CompletedDistance(rides + [r]) == CompletedDistance(rides)
    ensures CountStatus(rides + [r], "completed") == CountStatus(rides, "completed")
  {
    assert (rides + [r])[..|rides|] == rides;
  }

  /** Adding a completed ride never lowers the kilometres shown, however
      many metres it covers (rides carry no negative distance). */
  lemma {:induction false} DistanceInKilometres(rides: seq<RideRecord>, r: RideRecord, today: int)
    requires r.status == "completed" && r.distance >= 0
    ensures EarningsOf(rides, today).distanceTravelled <= EarningsOf(rides + [r], today).distanceTravelled
  {
    assert (rides + [r])[..|rides|] == rides;
    assert CompletedDistance(rides + [r]) == CompletedDistance(rides) + r.distance;
    RoundMonotonic(CompletedDistance(rides) as real / 1000.0, CompletedDistance(rides + [r]) as real / 1000.0);
  }
}
