/** The ride service: the fare quote, the OTP, and the four store operations
    of the ride lifecycle (create, confirm, start, end).

    Each store operation is a method on the `Db` that is specified by two
    functions of the old collections: the outcome it returns (`...Outcome`)
    and the ride collection it leaves behind (`After...`). The lifecycle
    properties are proved about those functions. */
module RideService {
  import opened Wrappers
  import opened JsRuntime
  import opened RideModel
  import opened MapService
  import opened Store

  // ------------------------------------------------------------ fare

  /** One vehicle class's tariff: base fare, rate per kilometre, rate per minute. */
  datatype Tariff = Tariff(base: real, perKm: real, perMinute: real)

  const AutoTariff := Tariff(30.0, 10.0, 2.0)
  const CarTariff := Tariff(30.0, 5.0, 1.0)
  const BikeTariff := Tariff(10.0, 2.0, 0.5)

  /** The unrounded price of a trip of `distance` meters and `duration` seconds. */
  function Price(t: Tariff, distance: nat, duration: nat): real {
    t.base + (distance as real / 1000.0) * t.perKm + (duration as real / 60.0) * t.perMinute
  }

  /** One class's fare: the price rounded half up to a whole amount. */
  function ClassFare(t: Tariff, distance: nat, duration: nat): (fare: int)
    ensures fare as real - 0.5 <= Price(t, distance, duration) < fare as real + 0.5
  {
    Round(Price(t, distance, duration))
  }

  /** The `fare` object: one amount per vehicle class. */
  datatype FareTable = FareTable(auto: int, car: int, bike: int)

  function Quote(distance: nat, duration: nat): FareTable {
    FareTable(ClassFare(AutoTariff, distance, duration), ClassFare(CarTariff, distance, duration),
              ClassFare(BikeTariff, distance, duration))
  }

  /** `fare[vehicleType]`: undefined for any key but the three classes. */
  function FareFor(table: FareTable, vehicleType: string): (r: Option<int>)
    ensures r.Some? <==> vehicleType == "auto" || vehicleType == "car" || vehicleType == "bike"
    ensures vehicleType == "auto" ==> r == Some(table.auto)
    ensures vehicleType == "car" ==> r == Some(table.car)
    ensures vehicleType == "bike" ==> r == Some(table.bike)
  {
    if vehicleType == "auto" then Some(table.auto)
    else if vehicleType == "car" then Some(table.car)
    else if vehicleType == "bike" then Some(table.bike)
    else None
  }

  /** What `getFare` returns: the fare table and the distance (meters) and
      duration (seconds) it was computed from. */
  datatype FareQuote = FareQuote(fare: FareTable, distance: nat, duration: nat)

  const PickupAndDestinationRequired := "Pickup and destination are required"
  /** The TypeError of reading `.value` from a cell that has no route. */
  const NoDistanceValue := "Cannot read properties of undefined (reading 'value')"

  /** The distance lookup found a cell with both a distance and a duration. */
  predicate RouteFound(pickup: string, destination: string, resp: DistanceMatrixResponse) {
    var dt := GetDistanceTime(pickup, destination, resp);
    dt.Success? && dt.value.distance.Some? && dt.value.duration.Some?
  }

  /** `getFare`: missing endpoints are refused before the lookup; a failed
      lookup's error propagates; otherwise each class is priced. */
  function GetFare(pickup: string, destination: string, resp: DistanceMatrixResponse): (r: Result<FareQuote>)
    ensures pickup == "" || destination == "" ==> r == Failure(PickupAndDestinationRequired)
    ensures r.Success? <==> pickup != "" && destination != "" && RouteFound(pickup, destination, resp)
    ensures pickup != "" && destination != "" && GetDistanceTime(pickup, destination, resp).Failure?
            ==> r == Failure(GetDistanceTime(pickup, destination, resp).error)
    ensures r.Success? ==>
              var cell := GetDistanceTime(pickup, destination, resp).value;
              r.value.distance == cell.distance.value && r.value.duration == cell.duration.value
              && r.value.fare == Quote(r.value.distance, r.value.duration)
  {
    if pickup == "" || destination == "" then Failure(PickupAndDestinationRequired)
    else
      match GetDistanceTime(pickup, destination, resp)
      case Failure(e) => Failure(e)
      case Success(cell) =>
        if cell.distance.None? || cell.duration.None? then Failure(NoDistanceValue)
        else Success(FareQuote(Quote(cell.distance.value, cell.duration.value),
                               cell.distance.value, cell.duration.value))
  }

  lemma PriceMonotonic(t: Tariff, d1: nat, d2: nat, s1: nat, s2: nat)
    requires t.perKm >= 0.0 && t.perMinute >= 0.0 && d1 <= d2 && s1 <= s2
    ensures Price(t, d1, s1) <= Price(t, d2, s2)
  {
    assert (d1 as real / 1000.0) * t.perKm <= (d2 as real / 1000.0) * t.perKm by {
      assert (d2 as real / 1000.0) * t.perKm - (d1 as real / 1000.0) * t.perKm
             == ((d2 - d1) as real / 1000.0) * t.perKm;
    }
    assert (s1 as real / 60.0) * t.perMinute <= (s2 as real / 60.0) * t.perMinute by {
      assert (s2 as real / 60.0) * t.perMinute - (s1 as real / 60.0) * t.perMinute
             == ((s2 - s1) as real / 60.0) * t.perMinute;
    }
  }

  /** A longer or slower trip never costs less, in any class. */
  lemma FareMonotonic(d1: nat, d2: nat, s1: nat, s2: nat)
    requires d1 <= d2 && s1 <= s2
    ensures Quote(d1, s1).auto <= Quote(d2, s2).auto
    ensures Quote(d1, s1).car <= Quote(d2, s2).car
    ensures Quote(d1, s1).bike <= Quote(d2, s2).bike
  {
    PriceMonotonic(AutoTariff, d1, d2, s1, s2);
    RoundMonotonic(Price(AutoTariff, d1, s1), Price(AutoTariff, d2, s2));
    PriceMonotonic(CarTariff, d1, d2, s1, s2);
    RoundMonotonic(Price(CarTariff, d1, s1), Price(CarTariff, d2, s2));
    PriceMonotonic(BikeTariff, d1, d2, s1, s2);
    RoundMonotonic(Price(BikeTariff, d1, s1), Price(BikeTariff, d2, s2));
  }

  /** Every fare is at least its class's base fare. */
  lemma FareAtLeastBase(distance: nat, duration: nat)
    ensures Quote(distance, duration).auto >= 30
    ensures Quote(distance, duration).car >= 30
    ensures Quote(distance, duration).bike >= 10
  {
    FareMonotonic(0, distance, 0, duration);
    assert Price(AutoTariff, 0, 0) == 30.0 && Price(CarTariff, 0, 0) == 30.0;
    assert Price(BikeTariff, 0, 0) == 10.0;
  }

  /** 5 km in 10 minutes: 30 + 5 * 5 + 10 * 1 = 65 by car, 30 + 50 + 20 = 100
      by auto, 10 + 10 + 5 = 25 by bike. */
  lemma FareExample()
    ensures Quote(5000, 600) == FareTable(100, 65, 25)
  {
    assert Price(AutoTariff, 5000, 600) == 100.0;
    assert Price(CarTariff, 5000, 600) == 65.0;
    assert Price(BikeTariff, 5000, 600) == 25.0;
  }

  // ------------------------------------------------------------ OTP

  function Pow10(n: nat): (p: nat)
    ensures p >= 1
  {
    if n == 0 then 1 else 10 * Pow10(n - 1)
  }

  predicate IsDigit(c: char) {
    '0' <= c <= '9'
  }

  predicate IsDecimal(s: string) {
    forall i :: 0 <= i < |s| ==> IsDigit(s[i])
  }

  function DigitChar(d: nat): (c: char)
    requires d < 10
    ensures IsDigit(c) && (c == '0' <==> d == 0)
  {
    (48 + d) as char
  }

  /** `Number.prototype.toString()` of a non-negative integer. */
  function NatToDecimal(n: nat): (s: string)
    ensures |s| >= 1 && IsDecimal(s)
  {
    if n < 10 then [DigitChar(n)] else NatToDecimal(n / 10) + [DigitChar(n % 10)]
  }

  /** The value of a decimal digit string. */
  function DecimalValue(s: string): nat
    requires IsDecimal(s)
  {
    if s == [] then 0 else 10 * DecimalValue(s[..|s| - 1]) + (s[|s| - 1] as int - 48)
  }

  /** Printing a number and reading it back gives the number. */
  lemma {:induction false} DecimalRoundTrip(n: nat)
    ensures DecimalValue(NatToDecimal(n)) == n
  {
    var s := NatToDecimal(n);
    if n >= 10 {
      DecimalRoundTrip(n / 10);
      assert s[..|s| - 1] == NatToDecimal(n / 10);
    }
  }

  /** A number in [10^(k-1), 10^k) prints as k digits, the first not '0'. */
  lemma {:induction false} DecimalShape(n: nat, k: nat)
    requires k >= 1 && Pow10(k - 1) <= n < Pow10(k)
    ensures |NatToDecimal(n)| == k && NatToDecimal(n)[0] != '0'
  {
    if n >= 10 {
      assert k >= 2;
      DecimalShape(n / 10, k - 1);
    }
  }

  /** `getOtp(num)`, with `draw` the number `crypto.randomInt` returned from
      [10^(num-1), 10^num). */
  function GetOtp(num: nat, draw: nat): (otp: string)
    requires num >= 1 && Pow10(num - 1) <= draw < Pow10(num)
    ensures |otp| == num && IsDecimal(otp) && otp[0] != '0' && DecimalValue(otp) == draw
  {
    DecimalShape(draw, num);
    DecimalRoundTrip(draw);
    NatToDecimal(draw)
  }

  /** The ride OTP is six digits with no leading zero, so its value lies in
      [100000, 999999], and it has no whitespace for `trim` to remove. */
  lemma RideOtpShape(draw: nat)
    requires 100000 <= draw < 1000000
    ensures Pow10(5) == 100000 && Pow10(6) == 1000000
    ensures var otp := GetOtp(6, draw);
            |otp| == 6 && otp[0] != '0' && 100000 <= DecimalValue(otp) <= 999999
            && NoWhiteSpace(otp) && Trim(otp) == otp
  {
    assert Pow10(5) == 100000 && Pow10(6) == 1000000;
    var otp := GetOtp(6, draw);
    assert NoWhiteSpace(otp) by {
      forall i | 0 <= i < |otp| ensures !IsWhiteSpace(otp[i]) {
        assert IsDigit(otp[i]);
      }
    }
    TrimNoWhiteSpace(otp);
  }

  // ------------------------------------------------------------ create

  const AllFieldsRequired := "All fields are required"
  const ErrorCreatingRide := "Error occured while creating ride."

  /** `createRide`: every input is required; a failed quote becomes one
      generic error; then the document is validated, and a validation error
      (an unknown vehicle class has no fare) reaches the caller as it is,
      because the creation promise is returned without being awaited inside
      the `try`. */
  function CreateRideOutcome(id: RideId, user: UserId, pickup: string, destination: string,
                             vehicleType: string, resp: DistanceMatrixResponse, otpDraw: nat): (r: Result<Ride>)
    requires 100000 <= otpDraw < 1000000
    ensures user == "" || pickup == "" || destination == "" || vehicleType == "" ==> r == Failure(AllFieldsRequired)
    ensures (user != "" && pickup != "" && destination != "" && vehicleType != ""
             && !RouteFound(pickup, destination, resp)) ==> r == Failure(ErrorCreatingRide)
    ensures r.Success? <==> user != "" && RouteFound(pickup, destination, resp)
                            && (vehicleType == "auto" || vehicleType == "car" || vehicleType == "bike")
  {
    RideOtpShape(otpDraw);
    if user == "" || pickup == "" || destination == "" || vehicleType == "" then Failure(AllFieldsRequired)
    else
      match GetFare(pickup, destination, resp)
      case Failure(_) => Failure(ErrorCreatingRide)
      case Success(q) =>
        Create(id, user, pickup, destination, FareFor(q.fare, vehicleType), vehicleType,
               q.duration, q.distance, GetOtp(6, otpDraw))
  }

  /** A created ride carries the requested endpoints and class, that class's
      fare and the quoted distance and duration, no rider yet, status
      `pending`, and a six-digit OTP. */
  lemma CreatedRide(id: RideId, user: UserId, pickup: string, destination: string,
                    vehicleType: string, resp: DistanceMatrixResponse, otpDraw: nat)
    requires 100000 <= otpDraw < 1000000
    requires CreateRideOutcome(id, user, pickup, destination, vehicleType, resp, otpDraw).Success?
    ensures var r := CreateRideOutcome(id, user, pickup, destination, vehicleType, resp, otpDraw).value;
            var q := GetFare(pickup, destination, resp).value;
            r.id == id && r.user == user && r.pickup == pickup && r.destination == destination
            && r.vehicle == vehicleType && Some(r.fare) == FareFor(q.fare, vehicleType)
            && r.distance == q.distance && r.duration == q.duration
            && r.status == Pending && r.rider == None && r.messages == []
            && |r.otp| == 6 && IsDecimal(r.otp) && r.otp[0] != '0'
  {
    RideOtpShape(otpDraw);
  }

  /** `createRide` on the store; `id` is the fresh id the store assigns. */
  method CreateRide(db: Db, id: RideId, user: UserId, pickup: string, destination: string,
                    vehicleType: string, resp: DistanceMatrixResponse, otpDraw: nat)
    returns (r: Result<Ride>)
    requires db.Valid() && id !in db.rides && 100000 <= otpDraw < 1000000
    modifies db
    ensures db.Valid()
    ensures r == CreateRideOutcome(id, user, pickup, destination, vehicleType, resp, otpDraw)
    ensures r.Success? ==> db.rides == old(db.rides)[id := r.value] && db.rideOrder == old(db.rideOrder) + [id]
    ensures r.Failure? ==> db.rides == old(db.rides) && db.rideOrder == old(db.rideOrder)
    ensures db.users == old(db.users) && db.riders == old(db.riders) && db.riderOrder == old(db.riderOrder)
  {
    r := CreateRideOutcome(id, user, pickup, destination, vehicleType, resp, otpDraw);
    if r.Success? {
      db.InsertRide(r.value);
    }
  }

  // ------------------------------------------------------------ confirm

  const RideIdRequired := "Ride id is required"
  const ErrorConfirmingRide := "Error occured while confirming ride."
  const RideNotFound := "Ride not found"

  /** The ride collection after `confirmRide`: the status and rider are set
      on the ride if it exists, whatever its status was. */
  function AfterConfirm(rides: map<RideId, Ride>, rideId: RideId, riderId: RiderId): (after: map<RideId, Ride>)
    ensures after.Keys == rides.Keys
    ensures rideId != "" && rideId in rides ==>
              after[rideId] == rides[rideId].(status := Accepted, rider := Some(riderId))
    ensures forall id :: id in rides && id != rideId ==> after[id] == rides[id]
  {
    if rideId != "" && rideId in rides then
      rides[rideId := rides[rideId].(status := Accepted, rider := Some(riderId))]
    else rides
  }

  /** The rider collection after `confirmRide`: the ride id is pushed onto
      the rider's history once, even when no such ride exists (the ride is
      looked up only afterwards). */
  function RidersAfterConfirm(riders: map<RiderId, Rider>, rideId: RideId, riderId: RiderId): (after: map<RiderId, Rider>)
    ensures after.Keys == riders.Keys
    ensures rideId != "" && riderId in riders ==>
              after[riderId] == riders[riderId].(rides := riders[riderId].rides + [rideId])
    ensures forall id :: id in riders && id != riderId ==> after[id] == riders[id]
    ensures rideId == "" ==> after == riders
  {
    if rideId != "" && riderId in riders then
      riders[riderId := riders[riderId].(rides := riders[riderId].rides + [rideId])]
    else riders
  }

  /** What `confirmRide` returns: the updated ride, read with its OTP. A
      missing rider document or a missing ride both surface as the generic
      confirmation error. */
  function ConfirmOutcome(rides: map<RideId, Ride>, riders: map<RiderId, Rider>,
                          rideId: RideId, riderId: RiderId): (r: Result<RideView>)
    ensures rideId == "" ==> r == Failure(RideIdRequired)
    ensures r.Success? <==> rideId != "" && rideId in rides && riderId in riders
    ensures r.Success? ==> r.value == ReadWithOtp(AfterConfirm(rides, rideId, riderId)[rideId])
    ensures r.Failure? && rideId != "" ==> r.error == ErrorConfirmingRide
  {
    if rideId == "" then Failure(RideIdRequired)
    else if riderId !in riders || rideId !in rides then Failure(ErrorConfirmingRide)
    else Success(ReadWithOtp(AfterConfirm(rides, rideId, riderId)[rideId]))
  }

  method ConfirmRide(db: Db, rideId: RideId, riderId: RiderId) returns (r: Result<RideView>)
    requires db.Valid()
    modifies db
    ensures db.Valid()
    ensures r == ConfirmOutcome(old(db.rides), old(db.riders), rideId, riderId)
    ensures db.rides == AfterConfirm(old(db.rides), rideId, riderId)
    ensures db.riders == RidersAfterConfirm(old(db.riders), rideId, riderId)
    ensures db.rideOrder == old(db.rideOrder) && db.users == old(db.users) && db.riderOrder == old(db.riderOrder)
  {
    if rideId == "" {
      return Failure(RideIdRequired);
    }
    if rideId in db.rides {
      db.rides := db.rides[rideId := db.rides[rideId].(status := Accepted, rider := Some(riderId))];
    }
    if riderId !in db.riders {
      return Failure(ErrorConfirmingRide);
    }
    var riderData := db.riders[riderId];
    db.riders := db.riders[riderId := riderData.(rides := riderData.rides + [rideId])];
    if rideId !in db.rides {
      return Failure(ErrorConfirmingRide);
    }
    r := Success(ReadWithOtp(db.rides[rideId]));
  }

  /** One confirmation adds the ride to the rider's history exactly once and
      leaves the earlier history as it was. */
  lemma ConfirmAppendsOnce(riders: map<RiderId, Rider>, rideId: RideId, riderId: RiderId)
    requires rideId != "" && riderId in riders
    ensures var h := RidersAfterConfirm(riders, rideId, riderId)[riderId].rides;
            |h| == |riders[riderId].rides| + 1 && h[..|h| - 1] == riders[riderId].rides
            && h[|h| - 1] == rideId
            && multiset(h)[rideId] == multiset(riders[riderId].rides)[rideId] + 1
  {
    var old_h := riders[riderId].rides;
    var h := RidersAfterConfirm(riders, rideId, riderId)[riderId].rides;
    assert h == old_h + [rideId];
    assert h[..|h| - 1] == old_h;
  }

  // ------------------------------------------------------------ start

  const RideIdAndOtpRequired := "Ride id and OTP are required"
  const RideNotAccepted := "Ride not accepted"
  const InvalidOtp := "Invalid OTP"

  /** What `startRide` returns: the ride as read before the update (with
      its OTP), or the first failed check. The calling rider is not checked. */
  function StartOutcome(rides: map<RideId, Ride>, rideId: RideId, otp: string): (r: Result<RideView>)
    ensures rideId == "" || otp == "" ==> r == Failure(RideIdAndOtpRequired)
    ensures rideId != "" && otp != "" && rideId !in rides ==> r == Failure(RideNotFound)
    ensures rideId != "" && otp != "" && rideId in rides && rides[rideId].status != Accepted
            ==> r == Failure(RideNotAccepted)
    ensures rideId != "" && otp != "" && rideId in rides && rides[rideId].status == Accepted
            && Trim(otp) != Trim(rides[rideId].otp)
            ==> r == Failure(InvalidOtp)
    ensures r.Success? <==> rideId != "" && otp != "" && rideId in rides
                            && rides[rideId].status == Accepted && Trim(otp) == Trim(rides[rideId].otp)
    ensures r.Success? ==> r.value == ReadWithOtp(rides[rideId])
    ensures r.Failure? ==> r.error in {RideIdAndOtpRequired, RideNotFound, RideNotAccepted, InvalidOtp}
  {
    if rideId == "" || otp == "" then Failure(RideIdAndOtpRequired)
    else if rideId !in rides then Failure(RideNotFound)
    else if rides[rideId].status != Accepted then Failure(RideNotAccepted)
    else if Trim(rides[rideId].otp) != Trim(otp) then Failure(InvalidOtp)
    else Success(ReadWithOtp(rides[rideId]))
  }

  /** The ride collection after `startRide`: only a successful start changes
      it, and only the status of that ride. */
  function AfterStart(rides: map<RideId, Ride>, rideId: RideId, otp: string): (after: map<RideId, Ride>)
    ensures after.Keys == rides.Keys
  {
    if StartOutcome(rides, rideId, otp).Success? then rides[rideId := rides[rideId].(status := Ongoing)]
    else rides
  }

  method StartRide(db: Db, rideId: RideId, otp: string) returns (r: Result<RideView>)
    requires db.Valid()
    modifies db
    ensures db.Valid()
    ensures r == StartOutcome(old(db.rides), rideId, otp)
    ensures db.rides == AfterStart(old(db.rides), rideId, otp)
    ensures db.rideOrder == old(db.rideOrder) && db.users == old(db.users)
    ensures db.riders == old(db.riders) && db.riderOrder == old(db.riderOrder)
  {
    if rideId == "" || otp == "" {
      return Failure(RideIdAndOtpRequired);
    }
    if rideId !in db.rides {
      return Failure(RideNotFound);
    }
    var ride := db.rides[rideId];
    if ride.status != Accepted {
      return Failure(RideNotAccepted);
    }
    var cleanInputOtp := Trim(otp);
    var cleanStoredOtp := Trim(ride.otp);
    if cleanStoredOtp != cleanInputOtp {
      return Failure(InvalidOtp);
    }
    db.rides := db.rides[rideId := ride.(status := Ongoing)];
    r := Success(ReadWithOtp(ride));
  }

  /** A failed start changes nothing; a successful one moves exactly that
      ride from `accepted` to `ongoing` and hands back the ride as it was. */
  lemma StartEffect(rides: map<RideId, Ride>, rideId: RideId, otp: string)
    ensures StartOutcome(rides, rideId, otp).Failure? ==> AfterStart(rides, rideId, otp) == rides
    ensures StartOutcome(rides, rideId, otp).Success? ==>
              var after := AfterStart(rides, rideId, otp);
              rides[rideId].status == Accepted && after[rideId].status == Ongoing
              && after[rideId] == rides[rideId].(status := Ongoing)
              && StartOutcome(rides, rideId, otp).value.ride.status == Accepted
              && (forall id :: id in rides && id != rideId ==> after[id] == rides[id])
  {
  }

  /** A ride starts at most once: repeating a successful start fails with
      "Ride not accepted" and changes nothing. */
  lemma StartOnce(rides: map<RideId, Ride>, rideId: RideId, otp: string, otp2: string)
    requires StartOutcome(rides, rideId, otp).Success? && otp2 != ""
    ensures var after := AfterStart(rides, rideId, otp);
            StartOutcome(after, rideId, otp2) == Failure(RideNotAccepted)
            && AfterStart(after, rideId, otp2) == after
  {
    var after := AfterStart(rides, rideId, otp);
    assert after[rideId].status == Ongoing;
  }

  /** The OTP comparison ignores surrounding whitespace only: a padded OTP is
      accepted, an OTP with a space inside is refused. */
  lemma StartOtpComparison(rides: map<RideId, Ride>, rideId: RideId)
    requires rideId != "" && rideId in rides && rides[rideId].status == Accepted
    requires rides[rideId].otp == "123456"
    ensures StartOutcome(rides, rideId, " 123456\n").Success?
    ensures StartOutcome(rides, rideId, "123 456") == Failure(InvalidOtp)
  {
    assert Trim("123456") == "123456" by {
      assert NoWhiteSpace("123456");
      TrimNoWhiteSpace("123456");
    }
    assert Trim(" 123456\n") == "123456" by {
      assert TrimStart(" 123456\n") == TrimStart(" 123456\n"[1..]);
      assert " 123456\n"[1..] == "123456\n";
      assert TrimStart("123456\n") == "123456\n";
      assert TrimEnd("123456\n") == TrimEnd("123456\n"[..6]);
      assert "123456\n"[..6] == "123456";
      assert TrimEnd("123456") == "123456";
    }
    assert Trim("123 456") == "123 456" by {
      assert TrimStart("123 456") == "123 456";
      assert TrimEnd("123 456") == "123 456";
    }
  }

  // ------------------------------------------------------------ end

  const RideNotOngoing := "Ride not ongoing"

  /** `findOne({_id, rider})`: the ride, only if the caller is its rider. */
  predicate OwnedBy(rides: map<RideId, Ride>, rideId: RideId, riderId: RiderId) {
    rideId in rides && rides[rideId].rider == Some(riderId)
  }

  /** What `endRide` returns: the ride as read before the update (with its
      OTP), provided the caller is its rider and it is ongoing. */
  function EndOutcome(rides: map<RideId, Ride>, rideId: RideId, riderId: RiderId): (r: Result<RideView>)
    ensures rideId == "" ==> r == Failure(RideIdRequired)
    ensures rideId != "" && !OwnedBy(rides, rideId, riderId) ==> r == Failure(RideNotFound)
    ensures r.Success? <==> rideId != "" && OwnedBy(rides, rideId, riderId) && rides[rideId].status == Ongoing
    ensures r.Success? ==> r.value == ReadWithOtp(rides[rideId])
    ensures r.Failure? ==> r.error in {RideIdRequired, RideNotFound, RideNotOngoing}
  {
    if rideId == "" then Failure(RideIdRequired)
    else if !OwnedBy(rides, rideId, riderId) then Failure(RideNotFound)
    else if rides[rideId].status != Ongoing then Failure(RideNotOngoing)
    else Success(ReadWithOtp(rides[rideId]))
  }

  function AfterEnd(rides: map<RideId, Ride>, rideId: RideId, riderId: RiderId): (after: map<RideId, Ride>)
    ensures after.Keys == rides.Keys
  {
    if EndOutcome(rides, rideId, riderId).Success? then rides[rideId := rides[rideId].(status := Completed)]
    else rides
  }

  method EndRide(db: Db, rideId: RideId, riderId: RiderId) returns (r: Result<RideView>)
    requires db.Valid()
    modifies db
    ensures db.Valid()
    ensures r == EndOutcome(old(db.rides), rideId, riderId)
    ensures db.rides == AfterEnd(old(db.rides), rideId, riderId)
    ensures db.rideOrder == old(db.rideOrder) && db.users == old(db.users)
    ensures db.riders == old(db.riders) && db.riderOrder == old(db.riderOrder)
  {
    if rideId == "" {
      return Failure(RideIdRequired);
    }
    if rideId !in db.rides || db.rides[rideId].rider != Some(riderId) {
      return Failure(RideNotFound);
    }
    var ride := db.rides[rideId];
    if ride.status != Ongoing {
      return Failure(RideNotOngoing);
    }
    db.rides := db.rides[rideId := ride.(status := Completed)];
    r := Success(ReadWithOtp(ride));
  }

  /** Only the assigned rider can end a ride: anyone else gets "Ride not
      found" and nothing changes; the assigned rider moves an ongoing ride
      to `completed`, and any other status is refused without a change. */
  lemma EndEffect(rides: map<RideId, Ride>, rideId: RideId, riderId: RiderId)
    requires rideId != ""
    ensures !OwnedBy(rides, rideId, riderId) ==>
              EndOutcome(rides, rideId, riderId) == Failure(RideNotFound)
              && AfterEnd(rides, rideId, riderId) == rides
    ensures OwnedBy(rides, rideId, riderId) && rides[rideId].status != Ongoing ==>
              EndOutcome(rides, rideId, riderId) == Failure(RideNotOngoing)
              && AfterEnd(rides, rideId, riderId) == rides
    ensures EndOutcome(rides, rideId, riderId).Success? ==>
              AfterEnd(rides, rideId, riderId) == rides[rideId := rides[rideId].(status := Completed)]
              && rides[rideId].rider == Some(riderId)
  {
  }
}
