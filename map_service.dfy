/** The map service: what the backend makes of the geocoding, distance-matrix
    and autocomplete answers, and the rider radius query. The HTTP calls are
    not modelled; each answer is an input value, and the store's spherical
    containment test is an input predicate. */
module MapService {
  import opened Wrappers
  import opened JsRuntime
  import opened RideModel

  // ------------------------------------------------------------ geocoding

  datatype LatLng = LatLng(lat: real, lng: real)
  datatype AddressComponent = AddressComponent(longName: Option<string>, types: seq<string>)

  /** One geocoding result. A missing `types` or `address_components` array
      is the empty sequence; `hasPlusCode` says whether `plus_code` is set. */
  datatype GeocodeResult = GeocodeResult(
    types: seq<string>,
    hasPlusCode: bool,
    components: seq<AddressComponent>,
    formattedAddress: string,
    location: LatLng)

  datatype GeocodeResponse = GeocodeResponse(status: string, results: seq<GeocodeResult>)

  /** The point handed back by `getAddressCoordinate`. */
  datatype Coordinates = Coordinates(ltd: real, lng: real)

  const UnableToFetchCoordinates := "Unable to fetch coordinates"
  /** The TypeError raised when an "OK" answer carries no result. */
  const NoFirstResult := "Cannot read properties of undefined (reading 'geometry')"

  /** `getAddressCoordinate`: the location of the first result of an "OK"
      answer; anything else is thrown. */
  function GetAddressCoordinate(resp: GeocodeResponse): (r: Result<Coordinates>)
    ensures r.Success? <==> resp.status == "OK" && |resp.results| > 0
    ensures r.Success? ==> r.value.ltd == resp.results[0].location.lat
                           && r.value.lng == resp.results[0].location.lng
    ensures resp.status != "OK" ==> r == Failure(UnableToFetchCoordinates)
    ensures resp.status == "OK" && resp.results == [] ==> r == Failure(NoFirstResult)
  {
    if resp.status == "OK" then
      if |resp.results| > 0 then
        Success(Coordinates(resp.results[0].location.lat, resp.results[0].location.lng))
      else Failure(NoFirstResult)
    else Failure(UnableToFetchCoordinates)
  }

  const PreferredTypes: seq<string> := ["street_address", "route", "premise", "subpremise", "neighborhood"]

  predicate HasAnyType(types: seq<string>, wanted: seq<string>) {
    exists i :: 0 <= i < |types| && types[i] in wanted
  }

  /** A result whose types meet the preferred list. */
  predicate IsPreferred(r: GeocodeResult) {
    HasAnyType(r.types, PreferredTypes)
  }

  /** A result that is only a plus-code fallback. */
  predicate IsPlusCode(r: GeocodeResult) {
    r.hasPlusCode && "plus_code" in r.types
  }

  /** The result `getAddressFromCoordinates` describes: the first preferred
      one; failing that, the first that is not a plus code; failing that, the
      first result. */
  function ChooseResult(results: seq<GeocodeResult>): (chosen: GeocodeResult)
    requires |results| > 0
    ensures chosen in results
    ensures (exists i :: 0 <= i < |results| && IsPreferred(results[i])) ==>
              exists i :: 0 <= i < |results| && chosen == results[i] && IsPreferred(chosen)
                          && forall j :: 0 <= j < i ==> !IsPreferred(results[j])
    ensures (forall i :: 0 <= i < |results| ==> !IsPreferred(results[i])) &&
            (exists i :: 0 <= i < |results| && !IsPlusCode(results[i])) ==>
              exists i :: 0 <= i < |results| && chosen == results[i] && !IsPlusCode(chosen)
                          && forall j :: 0 <= j < i ==> IsPlusCode(results[j])
    ensures (forall i :: 0 <= i < |results| ==> (!IsPreferred(results[i]) && IsPlusCode(results[i])))
              ==> chosen == results[0]
  {
    match FindFirst(results, r => IsPreferred(r))
    case Some(i) => results[i]
    case None =>
      match FindFirst(results, r => !IsPlusCode(r))
      case Some(i) => results[i]
      case None => results[0]
  }

  /** `getComp(types)`: the long name of the first component whose types meet
      `types`, or `null`. */
  function GetComp(comps: seq<AddressComponent>, types: seq<string>): (r: Option<string>)
    ensures (forall i :: 0 <= i < |comps| ==> !HasAnyType(comps[i].types, types)) ==> r == None
    ensures forall i :: (0 <= i < |comps| && HasAnyType(comps[i].types, types)
                         && forall j :: 0 <= j < i ==> !HasAnyType(comps[j].types, types))
                        ==> r == comps[i].longName
  {
    match FindFirst(comps, (c: AddressComponent) => HasAnyType(c.types, types))
    case Some(i) => comps[i].longName
    case None => None
  }

  /** The first address part: the street, followed by its number when there
      is one; nothing when there is no street. */
  function StreetPart(street: Option<string>, number: Option<string>): (r: Option<string>)
    ensures Truthy(r) <==> Truthy(street)
    ensures !Truthy(number) ==> r == (if Truthy(street) then street else None)
  {
    if Truthy(street) then
      Some(if Truthy(number) then street.value + " " + number.value else street.value)
    else None
  }

  /** The truthy values of `xs`, in order. */
  function Present(xs: seq<Option<string>>): (r: seq<string>)
    ensures |r| <= |xs|
    ensures forall i :: 0 <= i < |r| ==> r[i] != ""
    ensures (forall i :: 0 <= i < |xs| ==> !Truthy(xs[i])) <==> r == []
    ensures forall k :: 0 <= k < |r| ==> Some(r[k]) in xs
  {
    if xs == [] then []
    else if Truthy(xs[0]) then [xs[0].value] + Present(xs[1..])
    else Present(xs[1..])
  }

  /** Filtering a concatenation filters each half: with `Present([x])`
      being `[x.value]` for a truthy `x` and `[]` otherwise, this fixes the
      result completely. */
  lemma {:induction false} PresentAppend(xs: seq<Option<string>>, ys: seq<Option<string>>)
    ensures Present(xs + ys) == Present(xs) + Present(ys)
    decreases |xs|
  {
    if xs == [] {
      assert xs + ys == ys;
    } else {
      assert (xs + ys)[0] == xs[0];
      assert (xs + ys)[1..] == xs[1..] + ys;
      PresentAppend(xs[1..], ys);
    }
  }

  predicate TruthyAt(xs: seq<Option<string>>, i: int)
    requires 0 <= i < |xs|
  {
    Truthy(xs[i])
  }

  /** `idx` lists, in increasing order, the positions of `xs` whose values
      make up `kept`, and every truthy position is among them. */
  predicate KeptPositions(xs: seq<Option<string>>, kept: seq<string>, idx: seq<nat>) {
    && |idx| == |kept|
    && (forall k :: 0 <= k < |idx| ==> idx[k] < |xs| && TruthyAt(xs, idx[k]) && kept[k] == xs[idx[k]].value)
    && (forall k, l :: 0 <= k < l < |idx| ==> idx[k] < idx[l])
    && (forall i :: 0 <= i < |xs| && TruthyAt(xs, i) ==> exists k :: 0 <= k < |idx| && idx[k] == i)
  }

  /** The kept values are exactly the truthy ones, in order: the `k`-th
      kept value is the value at the `k`-th truthy position. */
  lemma {:induction false} PresentIndices(xs: seq<Option<string>>) returns (idx: seq<nat>)
    ensures KeptPositions(xs, Present(xs), idx)
  {
    if xs == [] {
      idx := [];
    } else {
      var rest := PresentIndices(xs[1..]);
      idx := KeptPositionsCons(xs, Present(xs[1..]), rest);
      assert Present(xs) == (if Truthy(xs[0]) then [xs[0].value] else []) + Present(xs[1..]);
    }
  }

  /** One more value in front: the positions shift by one, and the front one
      joins them when it is truthy. */
  lemma KeptPositionsCons(xs: seq<Option<string>>, tail: seq<string>, rest: seq<nat>) returns (idx: seq<nat>)
    requires xs != [] && KeptPositions(xs[1..], tail, rest)
    ensures KeptPositions(xs, (if Truthy(xs[0]) then [xs[0].value] else []) + tail, idx)
  {
    var shifted := ShiftPositions(xs, tail, rest);
    if Truthy(xs[0]) {
      idx := FrontPosition(xs, tail, shifted);
    } else {
      idx := shifted;
      assert [] + tail == tail;
    }
  }

  /** A truthy front value takes position 0, ahead of the shifted ones. */
  lemma FrontPosition(xs: seq<Option<string>>, tail: seq<string>, shifted: seq<nat>) returns (idx: seq<nat>)
    requires xs != [] && Truthy(xs[0]) && |shifted| == |tail|
    requires forall k :: 0 <= k < |shifted| ==>
               1 <= shifted[k] < |xs| && TruthyAt(xs, shifted[k]) && tail[k] == xs[shifted[k]].value
    requires forall k, l :: 0 <= k < l < |shifted| ==> shifted[k] < shifted[l]
    requires forall i :: 1 <= i < |xs| && TruthyAt(xs, i) ==> exists k :: 0 <= k < |shifted| && shifted[k] == i
    ensures KeptPositions(xs, [xs[0].value] + tail, idx)
  {
    idx := [0] + shifted;
    var kept := [xs[0].value] + tail;
    forall k | 0 <= k < |idx| ensures idx[k] < |xs| && TruthyAt(xs, idx[k]) && kept[k] == xs[idx[k]].value {
      if k > 0 {
        assert idx[k] == shifted[k - 1] && kept[k] == tail[k - 1];
      }
    }
    forall k, l | 0 <= k < l < |idx| ensures idx[k] < idx[l] {
      assert idx[l] == shifted[l - 1];
      if k > 0 { assert idx[k] == shifted[k - 1]; }
    }
    forall i | 0 <= i < |xs| && TruthyAt(xs, i) ensures exists k :: 0 <= k < |idx| && idx[k] == i {
      if i == 0 {
        assert idx[0] == 0;
      } else {
        var k :| 0 <= k < |shifted| && shifted[k] == i;
        assert idx[k + 1] == i;
      }
    }
  }

  /** Every position one further on. */
  function Shifted(rest: seq<nat>): (shifted: seq<nat>)
    ensures |shifted| == |rest|
    ensures forall k :: 0 <= k < |rest| ==> shifted[k] == rest[k] + 1
  {
    seq(|rest|, k requires 0 <= k < |rest| => rest[k] + 1)
  }

  /** The positions of the tail, one further on, pick the same values out of
      the whole sequence, in the same order. */
  lemma ShiftPositions(xs: seq<Option<string>>, tail: seq<string>, rest: seq<nat>) returns (shifted: seq<nat>)
    requires xs != [] && KeptPositions(xs[1..], tail, rest)
    ensures |shifted| == |tail|
    ensures forall k :: 0 <= k < |shifted| ==>
              1 <= shifted[k] < |xs| && TruthyAt(xs, shifted[k]) && tail[k] == xs[shifted[k]].value
    ensures forall k, l :: 0 <= k < l < |shifted| ==> shifted[k] < shifted[l]
    ensures forall i :: 1 <= i < |xs| && TruthyAt(xs, i) ==> exists k :: 0 <= k < |shifted| && shifted[k] == i
  {
    shifted := Shifted(rest);
    ShiftedValues(xs, tail, rest);
    ShiftedCovers(xs, tail, rest);
  }

  lemma ShiftedValues(xs: seq<Option<string>>, tail: seq<string>, rest: seq<nat>)
    requires xs != [] && KeptPositions(xs[1..], tail, rest)
    ensures forall k :: 0 <= k < |rest| ==>
              1 <= Shifted(rest)[k] < |xs| && TruthyAt(xs, Shifted(rest)[k]) && tail[k] == xs[Shifted(rest)[k]].value
  {
    var shifted := Shifted(rest);
    forall k | 0 <= k < |rest|
      ensures 1 <= shifted[k] < |xs| && TruthyAt(xs, shifted[k]) && tail[k] == xs[shifted[k]].value
    {
      assert xs[1..][rest[k]] == xs[shifted[k]];
      assert TruthyAt(xs[1..], rest[k]);
    }
  }

  lemma ShiftedCovers(xs: seq<Option<string>>, tail: seq<string>, rest: seq<nat>)
    requires xs != [] && KeptPositions(xs[1..], tail, rest)
    ensures forall i :: 1 <= i < |xs| && TruthyAt(xs, i) ==> exists k :: 0 <= k < |rest| && Shifted(rest)[k] == i
  {
    var shifted := Shifted(rest);
    forall i | 1 <= i < |xs| && TruthyAt(xs, i) ensures exists k :: 0 <= k < |rest| && shifted[k] == i {
      assert xs[1..][i - 1] == xs[i];
      assert TruthyAt(xs[1..], i - 1);
      var k :| 0 <= k < |rest| && rest[k] == i - 1;
      assert shifted[k] == i;
    }
  }

  /** Every truthy value is kept. */
  lemma {:induction false} PresentHas(xs: seq<Option<string>>, j: nat)
    requires j < |xs| && Truthy(xs[j])
    ensures exists b :: 0 <= b < |Present(xs)| && Present(xs)[b] == xs[j].value
  {
    if j == 0 {
      assert Present(xs) == [xs[0].value] + Present(xs[1..]);
      assert Present(xs)[0] == xs[0].value;
    } else {
      PresentHas(xs[1..], j - 1);
      var b :| 0 <= b < |Present(xs[1..])| && Present(xs[1..])[b] == xs[j].value;
      if Truthy(xs[0]) {
        assert Present(xs) == [xs[0].value] + Present(xs[1..]);
        assert Present(xs)[b + 1] == xs[j].value;
      } else {
        assert Present(xs) == Present(xs[1..]);
      }
    }
  }

  /** Present keeps the values it keeps in their original order. */
  lemma {:induction false} PresentOrder(xs: seq<Option<string>>, i: nat, j: nat)
    requires i < j < |xs| && Truthy(xs[i]) && Truthy(xs[j])
    ensures exists a, b :: 0 <= a < b < |Present(xs)|
                           && Present(xs)[a] == xs[i].value && Present(xs)[b] == xs[j].value
  {
    if i == 0 {
      PresentHas(xs[1..], j - 1);
      var b :| 0 <= b < |Present(xs[1..])| && Present(xs[1..])[b] == xs[j].value;
      assert Present(xs) == [xs[0].value] + Present(xs[1..]);
      assert Present(xs)[0] == xs[0].value && Present(xs)[b + 1] == xs[j].value;
    } else {
      PresentOrder(xs[1..], i - 1, j - 1);
      var a, b :| 0 <= a < b < |Present(xs[1..])| && Present(xs[1..])[a] == xs[i].value
                  && Present(xs[1..])[b] == xs[j].value;
      if Truthy(xs[0]) {
        assert Present(xs) == [xs[0].value] + Present(xs[1..]);
        assert Present(xs)[a + 1] == xs[i].value && Present(xs)[b + 1] == xs[j].value;
      } else {
        assert Present(xs) == Present(xs[1..]);
      }
    }
  }

  /** The components of the chosen result that the address is built from. */
  datatype AddressFields = AddressFields(
    street: Option<string>, number: Option<string>, neighborhood: Option<string>,
    city: Option<string>, state: Option<string>, country: Option<string>)

  function ReadFields(comps: seq<AddressComponent>): AddressFields {
    AddressFields(
      Or(GetComp(comps, ["route"]), GetComp(comps, ["street_address"])),
      GetComp(comps, ["street_number"]),
      GetComp(comps, ["neighborhood", "sublocality_level_1", "sublocality"]),
      Or(GetComp(comps, ["locality"]), GetComp(comps, ["administrative_area_level_2"])),
      GetComp(comps, ["administrative_area_level_1"]),
      GetComp(comps, ["country"]))
  }

  /** The address parts in the order street, neighbourhood, city, state,
      country, each kept only when present. */
  function AddressParts(f: AddressFields): (parts: seq<string>)
    ensures forall k :: 0 <= k < |parts| ==> parts[k] != ""
  {
    Keep(StreetPart(f.street, f.number)) + Keep(f.neighborhood) + Keep(f.city) + Keep(f.state) + Keep(f.country)
  }

  /** The value of a truthy string, as a one-element list; nothing otherwise. */
  function Keep(o: Option<string>): (r: seq<string>)
    ensures |r| <= 1 && (r != [] <==> Truthy(o))
  {
    if Truthy(o) then [o.value] else []
  }

  /** A house number without a street is dropped; with a street it follows
      it after a space, in the first part. */
  lemma NumberOnlyWithStreet(f: AddressFields)
    ensures !Truthy(f.street) ==> AddressParts(f) == AddressParts(f.(number := None))
    ensures Truthy(f.street) && Truthy(f.number) ==>
              AddressParts(f)[0] == f.street.value + " " + f.number.value
    ensures Truthy(f.street) && !Truthy(f.number) ==> AddressParts(f)[0] == f.street.value
  {
  }

  /** With no part at all the answer's own formatted address is used. */
  function AddressLine(f: AddressFields, formatted: string): (line: string)
    ensures AddressParts(f) == [] ==> line == formatted
    ensures AddressParts(f) != [] ==> line == Join(AddressParts(f), ", ")
  {
    var parts := AddressParts(f);
    if |parts| > 0 then Join(parts, ", ") else formatted
  }

  const UnableToFetchAddress := "Unable to fetch address"

  /** `getAddressFromCoordinates`: chooses a result and builds its address by
      pushing the present parts one after the other. */
  method GetAddressFromCoordinates(resp: GeocodeResponse) returns (r: Result<string>)
    ensures r.Failure? <==> resp.status != "OK" || resp.results == []
    ensures r.Failure? ==> r.error == UnableToFetchAddress
    ensures r.Success? ==>
              var chosen := ChooseResult(resp.results);
              r.value == AddressLine(ReadFields(chosen.components), chosen.formattedAddress)
  {
    if resp.status != "OK" || |resp.results| == 0 {
      return Failure(UnableToFetchAddress);
    }
    var chosen := ChooseResult(resp.results);
    var parts := BuildParts(ReadFields(chosen.components));
    r := Success(if |parts| > 0 then Join(parts, ", ") else chosen.formattedAddress);
  }

  /** The successive `parts.push(...)` calls. */
  method BuildParts(f: AddressFields) returns (parts: seq<string>)
    ensures parts == AddressParts(f)
  {
    ghost var done := Keep(StreetPart(f.street, f.number));
    parts := [];
    if Truthy(f.street) {
      parts := parts + [if Truthy(f.number) then f.street.value + " " + f.number.value else f.street.value];
    }
    assert parts == done;
    done := done + Keep(f.neighborhood);
    if Truthy(f.neighborhood) { parts := parts + [f.neighborhood.value]; }
    assert parts == done;
    done := done + Keep(f.city);
    if Truthy(f.city) { parts := parts + [f.city.value]; }
    assert parts == done;
    done := done + Keep(f.state);
    if Truthy(f.state) { parts := parts + [f.state.value]; }
    assert parts == done;
    done := done + Keep(f.country);
    if Truthy(f.country) { parts := parts + [f.country.value]; }
    assert parts == done;
  }

  // ------------------------------------------------------------ distance matrix

  /** One origin/destination cell; `distance` and `duration` are the `value`
      fields (meters, seconds), absent when the cell has no route. */
  datatype Element = Element(status: string, distance: Option<nat>, duration: Option<nat>)
  datatype Row = Row(elements: seq<Element>)
  datatype DistanceMatrixResponse = DistanceMatrixResponse(status: string, rows: seq<Row>)

  const OriginAndDestinationRequired := "Origin and destination are required"
  const NoRoutesFound := "No routes found"
  const UnableToFetchDistance := "Unable to fetch distance and time"
  const NoFirstRow := "Cannot read properties of undefined (reading 'elements')"
  const NoFirstElement := "Cannot read properties of undefined (reading 'status')"

  /** `getDistanceTime`: missing endpoints are refused before any lookup;
      otherwise the first cell of an "OK" answer, unless it has no route. */
  function GetDistanceTime(origin: string, destination: string, resp: DistanceMatrixResponse): (r: Result<Element>)
    ensures origin == "" || destination == "" ==> r == Failure(OriginAndDestinationRequired)
    ensures origin != "" && destination != "" && resp.status != "OK" ==> r == Failure(UnableToFetchDistance)
    ensures origin != "" && destination != "" && resp.status == "OK" && |resp.rows| > 0
            && |resp.rows[0].elements| > 0 && resp.rows[0].elements[0].status == "ZERO_RESULTS"
            ==> r == Failure(NoRoutesFound)
    ensures origin != "" && destination != "" && resp.status == "OK" && |resp.rows| == 0
            ==> r == Failure(NoFirstRow)
    ensures origin != "" && destination != "" && resp.status == "OK" && |resp.rows| > 0
            && |resp.rows[0].elements| == 0
            ==> r == Failure(NoFirstElement)
    ensures r.Success? ==> resp.status == "OK" && |resp.rows| > 0 && |resp.rows[0].elements| > 0
                           && r.value == resp.rows[0].elements[0] && r.value.status != "ZERO_RESULTS"
    ensures origin != "" && destination != "" && resp.status == "OK" && |resp.rows| > 0
            && |resp.rows[0].elements| > 0 ==>
              (r.Success? <==> resp.rows[0].elements[0].status != "ZERO_RESULTS")
    ensures r == Failure(NoRoutesFound) ==>
              (resp.status == "OK" && |resp.rows| > 0 && |resp.rows[0].elements| > 0
               && resp.rows[0].elements[0].status == "ZERO_RESULTS")
  {
    if origin == "" || destination == "" then Failure(OriginAndDestinationRequired)
    else if resp.status == "OK" then
      if |resp.rows| == 0 then Failure(NoFirstRow)
      else if |resp.rows[0].elements| == 0 then Failure(NoFirstElement)
      else if resp.rows[0].elements[0].status == "ZERO_RESULTS" then Failure(NoRoutesFound)
      else Success(resp.rows[0].elements[0])
    else Failure(UnableToFetchDistance)
  }

  // ------------------------------------------------------------ autocomplete

  datatype Prediction = Prediction(description: Option<string>)
  datatype AutocompleteResponse = AutocompleteResponse(status: string, predictions: seq<Prediction>)

  const QueryRequired := "query is required"
  const UnableToFetchSuggestions := "Unable to fetch suggestions"

  function Descriptions(ps: seq<Prediction>): (r: seq<Option<string>>)
    ensures |r| == |ps| && forall i :: 0 <= i < |ps| ==> r[i] == ps[i].description
  {
    if ps == [] then [] else [ps[0].description] + Descriptions(ps[1..])
  }

  /** `getAutoCompleteSuggestions`: an empty query is refused; an "OK" answer
      gives the truthy descriptions in prediction order. */
  function GetAutoCompleteSuggestions(input: string, resp: AutocompleteResponse): (r: Result<seq<string>>)
    ensures input == "" ==> r == Failure(QueryRequired)
    ensures input != "" && resp.status != "OK" ==> r == Failure(UnableToFetchSuggestions)
    ensures r.Success? <==> input != "" && resp.status == "OK"
    ensures r.Success? ==> r.value == Present(Descriptions(resp.predictions))
    ensures r.Success? ==> forall k :: 0 <= k < |r.value| ==> r.value[k] != ""
    ensures r.Success? ==> forall k :: 0 <= k < |r.value| ==> Prediction(Some(r.value[k])) in resp.predictions
    ensures r.Success? ==> forall i :: 0 <= i < |resp.predictions| && Truthy(resp.predictions[i].description)
                             ==> resp.predictions[i].description.value in r.value
  {
    if input == "" then Failure(QueryRequired)
    else if resp.status == "OK" then
      var ds := Descriptions(resp.predictions);
      var kept := Present(ds);
      assert forall i :: 0 <= i < |ds| && Truthy(ds[i]) ==> ds[i].value in kept by {
        forall i | 0 <= i < |ds| && Truthy(ds[i]) ensures ds[i].value in kept {
          PresentHas(ds, i);
        }
      }
      assert forall k :: 0 <= k < |kept| ==> Prediction(Some(kept[k])) in resp.predictions by {
        forall k | 0 <= k < |kept| ensures Prediction(Some(kept[k])) in resp.predictions {
          var i :| 0 <= i < |ds| && ds[i] == Some(kept[k]);
          assert resp.predictions[i] == Prediction(Some(kept[k]));
        }
      }
      Success(kept)
    else Failure(UnableToFetchSuggestions)
  }

  // ------------------------------------------------------------ rider radius

  /** The store's `$centerSphere` operand: a `[lng, ltd]` centre and a radius
      in radians of the Earth's 6371 km. */
  datatype CenterSphere = CenterSphere(center: seq<real>, radians: real)

  /** `getRidersInTheRadius`: the riders of `directory` (in its order) whose
      location lies in the sphere, as `within` decides, and whose vehicle type
      is the requested one. */
  function GetRidersInTheRadius(directory: seq<Rider>, ltd: real, lng: real, radius: real,
                                vehicleType: string, within: (GeoPoint, CenterSphere) -> bool): (found: seq<Rider>)
    ensures |found| <= |directory|
    ensures forall k :: 0 <= k < |found| ==>
              found[k] in directory && found[k].vehicle.vehicleType == vehicleType
              && found[k].location.Some?
              && within(found[k].location.value, CenterSphere([lng, ltd], radius / 6371.0))
    ensures forall i :: 0 <= i < |directory| && directory[i].vehicle.vehicleType == vehicleType
              && directory[i].location.Some?
              && within(directory[i].location.value, CenterSphere([lng, ltd], radius / 6371.0))
              ==> directory[i] in found
  {
    if directory == [] then []
    else
      var rest := GetRidersInTheRadius(directory[1..], ltd, lng, radius, vehicleType, within);
      var d := directory[0];
      if d.location.Some? && within(d.location.value, CenterSphere([lng, ltd], radius / 6371.0))
         && d.vehicle.vehicleType == vehicleType
      then [d] + rest
      else rest
  }
}
