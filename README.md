# Colibri ride core in Dafny

Colibri is a ride-hailing web app. A passenger asks for a ride between two
addresses. The backend quotes a fare per vehicle class, stores the ride with
a six-digit OTP, and notifies the riders (drivers) of that class near the
pickup point. A rider confirms the ride. The passenger reads the OTP to the
rider, who enters it to start the ride and later ends it. Passenger and rider
chat over a socket room named after the ride, and the rider's position is
pushed to the rooms of the rider's active rides.

This project models that core:

- `wrappers.dfy`: `Option` and `Result`.
- `js_runtime.dfy`: the JavaScript built-ins the core relies on.
  - `Math.round`.
  - The `\s` class, `trim` and `replace(/\s/g, '')`.
  - A global literal `replace`.
  - `split`/`join` on a separator, `find`, and truthiness of optional strings.
- `ride_model.dfy`: the ride document.
  - Its status and sender enums and its `required` validators.
  - The OTP that is hidden unless a query selects it.
  - The passenger and rider accounts the ride refers to.
- `store.dfy`: the document store, as a class `Db`.
  - It holds maps from id to document and the order in which queries return them.
- `map_service.dfy`: what the backend makes of Google's answers.
  - Geocoding and reverse geocoding: choosing a result and building its address line.
  - Distance matrix, autocomplete, and the riders-in-radius query.
- `mail_template.dfy`: `fillTemplate`, six global placeholder substitutions with defaults.
- `ride_service.dfy`: the fare quote, the OTP, and `createRide`, `confirmRide`,
  `startRide` and `endRide` on the store.
  - Each store operation is a method specified by two functions of the old
    collections: what it returns, and what the collections become.
  - The properties are proved about those functions.
- `socket.dfy`: the socket server as a class `Bus`.
  - It holds whether `io` is set, the rooms, and the outbox of emitted events.
  - Its handlers: `join`, `update-location-rider`, `join-room` and `message`.
- `ride_controller.dfy`: the HTTP handlers of the ride routes.
  - Each returns a status code and body, and changes the store and the outbox.
  - The lifecycle lemmas show that every handler keeps the legal status order
    (pending, accepted, ongoing, completed; cancellation from anywhere).
  - The service's own `confirmRide` does not keep that order; the
    controller's status `switch` is what keeps it.
- `new_ride.dfy`: the rider's ride card.
  - The OTP field, the heading and tail of an address, the button row, and the share link.
- `rider_home.dfy`: the rider's home screen.
  - A class `RiderScreen` whose methods change its state variables as the
    handlers do, proved against a transition function `Next`.
  - The earnings summary, computed by a loop proved against recursive definitions.

Inputs the code reads from the outside are parameters of the model:

- the Google API answers;
- the number `crypto.randomInt` draws;
- the server clock's readings;
- the new ride's document id;
- the geometric containment test of the store;
- the connection id of a socket;
- whether a request the frontend sends succeeds.

Behaviour of the code that the model keeps as written:

- `startRide` does not check that the caller is the ride's rider. Anyone who
  knows the ride id and OTP can start it. `endRide` does check.
- The active-ride query for location updates also asks for the status
  "started". No ride can have that status, so only accepted and ongoing rides
  get location updates (`Socket.ActiveRidesExactly`).
- The service's `confirmRide` pushes the ride id onto the rider's history
  before it checks that the ride exists. It ignores the ride's status
  (`RideController.ServiceConfirmUnguarded`).
- `cancelRide` cancels a ride in any state, a completed one included.
- When the pickup cannot be geocoded afterwards, it answers 500 with the ride
  already cancelled (`RideController.CancelRide`).
- `createRide` returns the store's creation promise without awaiting it.
  - A validation failure of the new document, such as an unknown vehicle
    class with no fare, escapes the service's `try`.
  - It reaches the controller as the store's own validation error, not as
    "Error occured while creating ride.".
- The frontend's placeholder ride has a non-empty id, so the id checks of
  `acceptRide` and `endRide` do not stop a request for it
  (`RiderHome.PlaceholderPassesIdCheck`).

## Model

| member | source | states |
|---|---|---|
| RideModel.ParseStatus | Backend/models/ride.model.js:30-34 | the status validator accepts a name only if it is the stored name of a status |
| RideModel.StatusNameRoundTrip | Backend/models/ride.model.js:30-34 | every one of the five statuses survives being stored and read back |
| RideModel.ParseSender | Backend/models/ride.model.js:60-63 | a message sender is accepted exactly when it is "user" or "rider" |
| RideModel.Create | Backend/models/ride.model.js:3-72 | creation succeeds exactly when the fare is present and user, pickup, destination, vehicle and OTP are non-empty; a new ride is pending, has no rider and no messages, and carries the given fields |
| RideModel.DefaultRead | Backend/models/ride.model.js:52-56 | a plain query never returns the OTP |
| RideModel.ReadWithOtp | Backend/models/ride.model.js:52-56 | a query selecting the OTP returns the stored one |
| MapService.GetAddressCoordinate | Backend/services/map.service.js:4-25 | success exactly for an "OK" answer with a result, giving that first result's latitude and longitude; any other status fails with "Unable to fetch coordinates", and an "OK" answer with no result fails with the TypeError of reading its first result |
| MapService.ChooseResult | Backend/services/map.service.js:36-50 | the chosen result is the first one with a preferred type; failing that, the first that is not only a plus code; failing that, the first result |
| MapService.GetComp | Backend/services/map.service.js:54-57 | the long name of the first component having one of the types, and nothing when no component has one |
| MapService.StreetPart | Backend/services/map.service.js:59-67 | the first part is present exactly when a street is; the number is appended only to a street |
| MapService.Present | Backend/services/map.service.js:124-126 | the filter keeps no empty string, keeps only values that were in the input, and keeps nothing exactly when every value is falsy |
| MapService.PresentAppend | Backend/services/map.service.js:124-126 | filtering a concatenation filters each half, so the result is fixed value by value |
| MapService.PresentIndices | Backend/services/map.service.js:124-126 | the k-th value kept is the value at the k-th truthy position, the positions increase, and every truthy position is among them |
| MapService.PresentOrder | Backend/services/map.service.js:124-126 | the values kept keep their relative order |
| MapService.PresentHas | Backend/services/map.service.js:124-126 | every truthy value is kept |
| MapService.AddressParts | Backend/services/map.service.js:66-71 | no address part is empty |
| MapService.NumberOnlyWithStreet | Backend/services/map.service.js:67 | a house number without a street is dropped; with a street the first part is street, space, number |
| MapService.AddressLine | Backend/services/map.service.js:73 | the parts joined by ", ", or the answer's formatted address when there is none |
| MapService.GetAddressFromCoordinates | Backend/services/map.service.js:27-82 | fails with "Unable to fetch address" exactly for a non-"OK" or empty answer; otherwise the address line of the chosen result |
| MapService.BuildParts | Backend/services/map.service.js:66-71 | the successive pushes build exactly the address parts |
| MapService.GetDistanceTime | Backend/services/map.service.js:84-109 | missing endpoints are refused before any lookup; a non-"OK" answer gives "Unable to fetch distance and time"; an "OK" answer without a first row or cell gives the TypeError of reading it; a "ZERO_RESULTS" first cell gives "No routes found"; success returns the first cell, exactly when it has a route |
| MapService.GetAutoCompleteSuggestions | Backend/services/map.service.js:111-134 | an empty query is refused and a non-"OK" answer fails; an "OK" answer gives the filtered descriptions (`Present`), so every truthy description in order; each suggestion is non-empty and is the description of one of the predictions |
| MapService.GetRidersInTheRadius | Backend/services/map.service.js:136-152 | exactly the riders of the vehicle class whose stored point lies in the sphere of radius/6371 radians around [lng, ltd], and no others |
| MailTemplate.FillTemplate | Backend/templates/mail.template.js:77-92 | the six global replacements in order; a template holding none of the six placeholders comes back unchanged |
| MailTemplate.FillOnePlaceholder | Backend/templates/mail.template.js:77-92 | each placeholder becomes its field's value, or the field's default when the value is missing or empty |
| MailTemplate.MissingNameDefault | Backend/templates/mail.template.js:80 | a missing name becomes "usuario" |
| MailTemplate.NoPlaceholderUnchanged | Backend/templates/mail.template.js:77-92 | a template with no placeholder is returned unchanged |
| MailTemplate.TitleSubstitutedAgain | Backend/templates/mail.template.js:79-80 | a title that holds "{{name}}" has that placeholder filled in too, since names are substituted after titles |
| MailTemplate.ApplyFromConcat | Backend/templates/mail.template.js:77-92 | with values free of `{`, a template starting with a placeholder or with brace-free text is filled piece by piece: no placeholder straddles the pieces |
| MailTemplate.FillPiece | Backend/templates/mail.template.js:77-92 | with values free of `{`, a placeholder in front of a template becomes its value, in front of the filled rest |
| MailTemplate.FillDefaultFields | Backend/templates/mail.template.js:77-92 | the module's own template, filled with values free of `{`, is the title twice, then the name, message, link, button text and note, each the field's value or its default |
| JsRuntime.ReplaceAllSkip | Backend/templates/mail.template.js:79 | text in which no occurrence starts is copied as it is and the scan goes on after it |
| MailTemplate.NameNotSubstitutedAgain | Backend/templates/mail.template.js:79-80 | a name that holds "{{title}}" keeps it, since titles were substituted before names |
| JsRuntime.ReplaceAllBoth | Backend/templates/mail.template.js:79 | the substitution is global: both occurrences of the title placeholder are replaced |
| Store.Db.InsertRide | Backend/services/ride.service.js:77-86 | a new ride is stored under its fresh id and appended to the query order; nothing else changes |
| RideService.ClassFare | Backend/services/ride.service.js:31-47 | a class's fare is its price (base + km × rate + minutes × rate) rounded to the nearest whole amount, halves up |
| RideService.FareFor | Backend/services/ride.service.js:82 | `fare[vehicleType]` is defined exactly for auto, car and bike, and is that class's fare |
| RideService.GetFare | Backend/services/ride.service.js:6-50 | missing endpoints give "Pickup and destination are required"; a failed lookup passes its error on; success exactly when a route is found, with the quote of its distance and duration |
| RideService.PriceMonotonic | Backend/services/ride.service.js:31-47 | with non-negative rates a longer and slower trip never has a lower price |
| RideService.FareMonotonic | Backend/services/ride.service.js:31-47 | in every class a longer and slower trip never costs less |
| RideService.FareAtLeastBase | Backend/services/ride.service.js:13-47 | every fare is at least its class's base fare: 30, 30 and 10 |
| RideService.FareExample | Backend/services/ride.service.js:13-47 | 5 km in 10 minutes costs 100 by auto, 65 by car and 25 by bike |
| RideService.NatToDecimal | Backend/services/ride.service.js:56-58 | `toString` of a number is a non-empty string of digits |
| RideService.DecimalRoundTrip | Backend/services/ride.service.js:56-58 | reading the printed digits back gives the number |
| RideService.DecimalShape | Backend/services/ride.service.js:56-58 | a number in [10^(k-1), 10^k) prints as k digits, the first not 0 |
| RideService.GetOtp | Backend/services/ride.service.js:54-62 | the OTP has exactly `num` digits, does not start with 0, and its value is the drawn number |
| RideService.RideOtpShape | Backend/services/ride.service.js:81 | the ride OTP is six digits with no whitespace, so trimming it changes nothing |
| RideService.CreateRideOutcome | Backend/services/ride.service.js:64-92 | any missing input gives "All fields are required"; a failed quote gives "Error occured while creating ride."; success exactly when the user is set, a route is found and the class is auto, car or bike |
| RideService.CreatedRide | Backend/services/ride.service.js:77-86 | a created ride is pending and unassigned, with the requested endpoints and class, that class's fare, the route's distance and duration, and a six-digit OTP |
| RideService.CreateRide | Backend/services/ride.service.js:64-92 | the store gains the ride exactly when creation succeeds |
| RideService.AfterConfirm | Backend/services/ride.service.js:101-109 | an existing ride becomes accepted by the rider; every other ride is unchanged |
| RideService.RidersAfterConfirm | Backend/services/ride.service.js:111-115 | the ride id is appended to the rider's history, whether or not the ride exists; other riders are unchanged |
| RideService.ConfirmOutcome | Backend/services/ride.service.js:95-134 | an empty id gives "Ride id is required"; success exactly for an existing ride and rider, returning the updated ride with its OTP; any other failure is "Error occured while confirming ride." |
| RideService.ConfirmRide | Backend/services/ride.service.js:95-134 | the store becomes the confirmed collections and the answer is the confirm outcome |
| RideService.ConfirmAppendsOnce | Backend/services/ride.service.js:111-115 | one confirmation adds the ride to the rider's history exactly once, at the end |
| RideService.StartOutcome | Backend/services/ride.service.js:136-175 | missing id or OTP, an unknown ride, a ride that is not accepted, and an OTP that differs after trimming each give their error; success returns the ride as read before the update |
| RideService.AfterStart | Backend/services/ride.service.js:165-172 | only a successful start changes the store |
| RideService.StartRide | Backend/services/ride.service.js:136-175 | the store becomes the started collection and the answer is the start outcome |
| RideService.StartEffect | Backend/services/ride.service.js:149-172 | a failed start changes nothing; a successful one moves exactly that ride from accepted to ongoing |
| RideService.StartOnce | Backend/services/ride.service.js:153-155 | a second start of the same ride fails with "Ride not accepted" |
| RideService.StartOtpComparison | Backend/services/ride.service.js:157-163 | surrounding whitespace is ignored (" 123456\n" starts the ride), inner whitespace is not ("123 456" is an invalid OTP) |
| RideService.EndOutcome | Backend/services/ride.service.js:177-209 | an empty id, a ride not assigned to the caller, and a ride that is not ongoing each give their error; success returns the ride as read before the update |
| RideService.AfterEnd | Backend/services/ride.service.js:199-206 | only a successful end changes the store |
| RideService.EndRide | Backend/services/ride.service.js:177-209 | the store becomes the ended collection and the answer is the end outcome |
| RideService.EndEffect | Backend/services/ride.service.js:182-197 | only the assigned rider can end a ride, only an ongoing ride ends, and it becomes completed |
| Socket.Bus.Initialize | Backend/socket.js:10-16 | after initialisation `io` is set; rooms and emits are unchanged |
| Socket.Bus.SendMessageToSocketId | Backend/socket.js:102-109 | one emit to the connection once `io` is set, nothing before |
| Socket.Join | Backend/socket.js:32-40 | a "user" join records the connection on the user, a "rider" join on the rider, any other type nothing |
| Socket.JoinLastWins | Backend/socket.js:32-40 | after two joins of the same account the later connection id is the one stored |
| Socket.ActiveRideIds | Backend/socket.js:59-62 | the query returns exactly the rides assigned to the rider whose status is one of the asked names, in store order |
| Socket.ActiveRidesExactly | Backend/socket.js:59-62 | a ride receives the location exactly when it is assigned to the rider and is accepted or ongoing |
| Socket.LocationEmits | Backend/socket.js:64-71 | one `rider-location-update` per active ride, to that ride's room, carrying the coordinates and rider id |
| Socket.UpdateLocationRider | Backend/socket.js:42-75 | a location without both truthy coordinates gives one error emit and changes nothing; otherwise the rider's point becomes [lng, ltd] and each active ride's room gets the update |
| Socket.EmitLocations | Backend/socket.js:64-71 | the loop emits exactly the location updates, in order |
| Socket.JoinRoom | Backend/socket.js:77-80 | the connection joins that room; nothing is emitted |
| Socket.JoinRoomEffect | Backend/socket.js:77-80 | joining adds exactly that connection to that room, and joining again changes nothing |
| Socket.SenderField | Backend/socket.js:87-94 | the sender passes validation exactly when it is absent, "user" or "rider" |
| Socket.AfterMessage | Backend/socket.js:86-94 | a valid message is appended to an existing ride's log; other rides are unchanged |
| Socket.ChatMessage | Backend/socket.js:82-98 | the message goes to the room, except the sender, before it is stored; the store becomes the one after the message |
| Socket.MessageAppends | Backend/socket.js:86-94 | a stored message is appended once, at the end, keeping the earlier ones |
| RideController.UserContact | Backend/controllers/ride.controller.js:11-26 | the passenger's contact is present exactly when the account exists, and carries its id, connection id, first and last name and phone |
| RideController.RiderContact | Backend/controllers/ride.controller.js:27-32 | the rider's contact is present exactly when a rider is assigned and exists, and carries that rider's id, connection id, first and last name and phone |
| RideController.ChatDetailsReply | Backend/controllers/ride.controller.js:8-41 | an unknown ride gives 400 "Ride not found"; otherwise 200 with both contacts and the message log |
| RideController.ShareDetailsReply | Backend/controllers/ride.controller.js:43-80 | 200 exactly for an accepted or ongoing ride, with its id, pickup, destination and fare, and the rider's first name, last name, phone and vehicle exactly when a rider is assigned and exists; any other id gives 404 "Ride not found or has ended" |
| RideController.ShareDetailsDiscloseNoSecrets | Backend/controllers/ride.controller.js:55-73 | the shared answer is the same whatever the ride's OTP, messages and passenger |
| RideController.Notifications | Backend/controllers/ride.controller.js:129-134 | one emit per rider in radius, to that rider's connection, when `io` is set; none otherwise |
| RideController.NotifyRiders | Backend/controllers/ride.controller.js:129-134 | the loop adds exactly those emits |
| RideController.CreateRide | Backend/controllers/ride.controller.js:82-142 | a failed creation gives 500 with its message and changes nothing, the ride order included; success gives 201, stores the ride last in the ride order, records it on the passenger, and notifies the riders in radius with the ride without its OTP |
| RideController.ConfirmGate | Backend/controllers/ride.controller.js:178-206 | the switch lets exactly pending rides through |
| RideController.ConfirmGateDistinct | Backend/controllers/ride.controller.js:178-206 | the four refusals are pairwise different |
| RideController.ConfirmHandlerRides | Backend/controllers/ride.controller.js:171-211 | only a pending ride is changed by the handler |
| RideController.ConfirmRide | Backend/controllers/ride.controller.js:163-225 | an unknown ride gives 404 "Ride not found." and a ride that is not pending gives 400 with its status's refusal, both changing nothing; for a pending ride the riders become what the service makes them, a service error gives 500 with its message, a passenger account that is gone gives 500 with the TypeError, and otherwise the answer is 200 and the passenger is sent `ride-confirmed` |
| RideController.RiderAssignedOnce | Backend/controllers/ride.controller.js:178-211 | a ride that has left pending is untouched by another confirmation, so the first rider keeps it |
| RideController.StartRide | Backend/controllers/ride.controller.js:227-251 | the service's error gives 500 with its message and sends nothing; success gives 200 and sends `ride-started` to the passenger; success for a passenger whose account is gone gives 500 and sends nothing |
| RideController.EndRide | Backend/controllers/ride.controller.js:253-282 | the service's error gives 500; success gives 200, sending `ride-ended` only when the passenger has a truthy connection id |
| RideController.AfterCancel | Backend/controllers/ride.controller.js:293-299 | an existing ride becomes cancelled whatever its status; nothing else changes |
| RideController.CancelRide | Backend/controllers/ride.controller.js:284-319 | an unknown ride gives 500 and no emit; otherwise the ride is cancelled, and either a geocoding failure gives 500 or the riders in radius are sent `ride-cancelled` with 200 |
| RideController.ConfirmRespects | Backend/controllers/ride.controller.js:163-225 | the confirm handler keeps the lifecycle: only pending to accepted, quote kept, rider set only then |
| RideController.StartRespects | Backend/services/ride.service.js:136-175 | starting keeps the lifecycle |
| RideController.EndRespects | Backend/services/ride.service.js:177-209 | ending keeps the lifecycle |
| RideController.CancelRespects | Backend/controllers/ride.controller.js:293-299 | cancelling keeps the lifecycle |
| RideController.CancelFromAnyState | Backend/controllers/ride.controller.js:293-299 | any ride, a completed one included, becomes cancelled with nothing else changed |
| RideController.ServiceConfirmUnguarded | Backend/services/ride.service.js:101-109 | the service's confirm alone reassigns a completed ride, breaking the lifecycle; the controller leaves it unchanged |
| NewRide.OtpField | Frontend/src/components/NewRide.jsx:192-200 | the OTP held after an edit has at most six characters and no whitespace at all |
| NewRide.OtpFieldContent | Frontend/src/components/NewRide.jsx:194-199 | a character is in the field exactly when it is among the first six typed and is not whitespace |
| NewRide.OtpFieldOrder | Frontend/src/components/NewRide.jsx:194-199 | within the cap, two pieces of input leave what each leaves, one after the other: the typed order is kept |
| JsRuntime.RemoveWhiteSpaceConcat | Frontend/src/components/NewRide.jsx:199 | removing whitespace from a concatenation removes it from each half |
| JsRuntime.RemoveWhiteSpaceKeeps | Frontend/src/components/NewRide.jsx:199 | a character survives exactly when it is in the input and is not whitespace |
| NewRide.OtpFieldKeeps | Frontend/src/components/NewRide.jsx:192-200 | six whitespace-free characters are kept as typed, and trimming the field's content changes nothing |
| NewRide.OtpFieldInnerSpace | Frontend/src/components/NewRide.jsx:192-200 | "123 456" leaves only "12345": the space counts against the cap and is then removed |
| NewRide.Heading | Frontend/src/components/NewRide.jsx:122 | the heading is a prefix of the address holding no ", " |
| NewRide.SpansJoin | Frontend/src/components/NewRide.jsx:126-137 | the rendered spans are the segments joined by ", ", with none after the last |
| NewRide.Tail | Frontend/src/components/NewRide.jsx:126-137 | the spans after the heading; an address without ", " has an empty tail |
| NewRide.TailIsJoin | Frontend/src/components/NewRide.jsx:126-137 | the tail is segments 1 to n-1 joined by ", " |
| NewRide.HeadingAndTail | Frontend/src/components/NewRide.jsx:122-137 | with a ", " in the address, heading + ", " + tail is the address; without one, the heading is the address and the tail is empty |
| NewRide.ButtonMode | Frontend/src/components/NewRide.jsx:182-215 | "accept" shows Ignore and Accept, "otp" the OTP field and Verify, anything else End ride; the contact row shows exactly when the buttons are not Ignore and Accept |
| NewRide.ShareLink | Frontend/src/components/NewRide.jsx:29 | the link is the origin, "/ride/share/", then the ride id |
| NewRide.SharedRideId | Frontend/src/App.jsx:114 | the `:rideId` route parameter: only a link under the origin's share path can match, and a match is one non-empty path segment followed by any number of trailing "/" and then nothing, a query or a fragment |
| NewRide.SegmentEnd | Frontend/src/App.jsx:114 | a path segment runs up to the first "/", "?" or "#" |
| NewRide.SharedRideIdOf | Frontend/src/App.jsx:114 | every link the route matches for a segment id, with any run of trailing "/" and then a query, a fragment or nothing, gives that id back |
| NewRide.ShareLinkRoundTrip | Frontend/src/components/NewRide.jsx:29 | the ride id, one path segment as store ids are, is recovered from its share link |
| NewRide.SharedRideIdExamples | Frontend/src/App.jsx:114 | a query after the id is dropped, trailing slashes are ignored, and a link with an empty segment matches nothing |
| RiderHome.RiderScreen.constructor | Frontend/src/screens/RiderHomeScreen.jsx:63-75 | the first render takes button, ride and panel from storage, shows the details panel, has no OTP or error, and its effect joins the stored ride's room (lines 331-332) |
| RiderHome.RiderScreen.SetNewRide | Frontend/src/screens/RiderHomeScreen.jsx:331-332 | replacing the card's ride with a different value, or with a new object, joins the new ride's room; nothing else changes |
| RiderHome.RiderScreen.ClearRideData | Frontend/src/screens/RiderHomeScreen.jsx:292-300 | the button is "accept", the placeholder ride is back, the details panel is shown and the ride panel hidden; the placeholder's room is joined when another ride was shown |
| RiderHome.RiderScreen.AcceptRide | Frontend/src/screens/RiderHomeScreen.jsx:78-113 | the state follows `Next` and the confirm request, then the room join, are sent; a refusal from the server clears the ride, joining the placeholder's room; a request with no response only stops loading, since reading the missing response throws before the clearing is scheduled (line 107) |
| RiderHome.RiderScreen.VerifyOtp | Frontend/src/screens/RiderHomeScreen.jsx:115-142 | the state follows `Next` and the trimmed code is sent |
| RiderHome.RiderScreen.EndRide | Frontend/src/screens/RiderHomeScreen.jsx:144-179 | the state follows `Next` and the end request is sent; a successful end puts the placeholder back and joins its room |
| RiderHome.RiderScreen.SetOtp | Frontend/src/components/NewRide.jsx:196-199 | the OTP state becomes the sanitised field content |
| RiderHome.RiderScreen.OnNewRide | Frontend/src/screens/RiderHomeScreen.jsx:313-318 | the state follows `Next` for `new-ride` and the new ride's room is joined |
| RiderHome.RiderScreen.OnRideCancelled | Frontend/src/screens/RiderHomeScreen.jsx:320-324 | the state follows `Next` for `ride-cancelled`; the placeholder's room is joined when another ride was shown |
| RiderHome.Next | Frontend/src/screens/RiderHomeScreen.jsx:78-324 | the handlers' and socket events' state changes; only `new-ride` puts a ride other than the placeholder on the card, only the field changes the code, only a confirmed accept asks for the code and only an accepted code offers to end the ride |
| RiderHome.Requested | Frontend/src/screens/RiderHomeScreen.jsx:78-179 | the requests a handler sends all concern the ride on the card, at most two, and none when its id is empty |
| RiderHome.Rejoined | Frontend/src/screens/RiderHomeScreen.jsx:331-332 | the effect joins the new ride's room once, or nothing when the ride is unchanged; a `new-ride` always joins |
| RiderHome.Sent | Frontend/src/screens/RiderHomeScreen.jsx:78-332 | everything an event sends concerns the ride shown before or after it |
| RiderHome.AcceptOutcomes | Frontend/src/screens/RiderHomeScreen.jsx:78-113 | a confirmed accept keeps the ride and joins its room; a refused one puts the placeholder back; one with no response keeps the ride, the buttons and the room and sends only the confirm request |
| RiderHome.RequestedRoom | Frontend/src/screens/RiderHomeScreen.jsx:78-113 | a handler joins a room only when it keeps the ride, and then it is that ride's room |
| RiderHome.ButtonCycle | Frontend/src/screens/RiderHomeScreen.jsx:78-179 | accept success leads to "otp", code success to "end-ride", end success back to "accept" with the ride data reset |
| RiderHome.VerifyGuard | Frontend/src/screens/RiderHomeScreen.jsx:115-142 | the code is sent exactly when the ride id is non-empty and the code has six characters, and it is sent trimmed; a rejected code shows "Invalid OTP" |
| RiderHome.TypedOtpSentAsIs | Frontend/src/screens/RiderHomeScreen.jsx:117-121 | a six-character code from the field is sent as it stands |
| RiderHome.SocketEvents | Frontend/src/screens/RiderHomeScreen.jsx:292-332 | `new-ride` sets "accept", shows the new ride and joins its room; `ride-cancelled` clears the ride as `clearRideData` does and joins the placeholder's room only when another ride was shown |
| RiderHome.LastRoom | Frontend/src/screens/RiderHomeScreen.jsx:331-332 | the room joined last is defined exactly when some room was joined |
| RiderHome.LastRoomAppend | Frontend/src/screens/RiderHomeScreen.jsx:331-332 | after more requests, the last room is the last one they join, or the earlier one when they join none |
| RiderHome.InRideRoom | Frontend/src/screens/RiderHomeScreen.jsx:78-332 | if the screen was in the room of the ride on its card, it still is after any event: the chat it hears is always that ride's |
| RiderHome.KnownButtonPreserved | Frontend/src/screens/RiderHomeScreen.jsx:78-324 | the button stays one of "accept", "otp" and "end-ride" |
| RiderHome.PlaceholderPassesIdCheck | Frontend/src/screens/RiderHomeScreen.jsx:12-30 | the placeholder ride's id passes the id checks, so accepting or ending it sends a request |
| RiderHome.EarningsOf | Frontend/src/screens/RiderHomeScreen.jsx:353-399 | the summary: completed plus cancelled at most the ride count, today's earnings within the total for non-negative fares, and the kilometres within half a kilometre of the completed metres |
| RiderHome.CalculateEarnings | Frontend/src/screens/RiderHomeScreen.jsx:353-399 | the loop computes exactly the total, today's earnings, completed and cancelled counts, and rounded kilometres |
| RiderHome.AcceptedAndCancelledBounded | Frontend/src/screens/RiderHomeScreen.jsx:369-374 | completed plus cancelled never exceeds the number of rides |
| RiderHome.TodayWithinTotal | Frontend/src/screens/RiderHomeScreen.jsx:376-390 | with non-negative fares today's earnings lie between 0 and the total |
| RiderHome.UnfinishedRideAddsFareOnly | Frontend/src/screens/RiderHomeScreen.jsx:368-390 | a ride that is not completed adds to the total only |
| RiderHome.DistanceInKilometres | Frontend/src/screens/RiderHomeScreen.jsx:370-397 | adding a completed ride of non-negative distance never lowers the kilometres shown |

## Left out

- Network and external services: the Google Maps answers are inputs; URL building and `encodeURIComponent` are not modelled.
- The document store's query engine: `populate`, projections beyond the OTP, and casting a malformed id (a CastError) are not modelled. Ids are strings, and the empty string stands for a missing id.
- `$geoWithin`/`$centerSphere` on a sphere: the containment test is a parameter, so the geometry is not modelled.
- Backend/models/user.model.js and Backend/models/rider.model.js are not part of this model. The accounts hold only the fields the core reads.
- Request validation (`express-validator`) and the authentication middleware are not modelled. The handlers start after them, so a handler never sees a 400 from a validator.
- `getFare` controller: it forwards the service's result as 200 or 500; only the service is modelled.
- Concurrency: each handler runs to completion before the next. Two riders racing to confirm the same ride are therefore not modelled.
- The background tasks are not concurrent in the model. In `createRide`, the fan-out runs after the reply, within the same step.
- Floating point: prices and coordinates are exact reals, so rounding errors of binary floating point are not modelled.
- The `log` socket handler and its production-only registration: logging only.
- Console output, `moment` time zones and `new Date()`: the date string and timestamp of a message are parameters.
- RideModel.Create: of the store's validation error only the "Ride validation failed" prefix is modelled, not the per-field text.
- MailTemplate.FillDefault: the template is reduced to its placeholders, in the order they occur. Its HTML text and the `MAIL_USER` interpolation are not modelled.
- MailTemplate: `$` replacement patterns in the data are not interpreted, and values are taken literally.
- MailTemplate.FillOnePlaceholder: proved for values without `{`, because a value containing a later placeholder is substituted again (see `TitleSubstitutedAgain`). The same holds for `MailTemplate.FillDefaultFields`, `MailTemplate.FillPiece` and `MailTemplate.ApplyFromConcat`.
- Frontend effects are not modelled:
  - `localStorage`, alerts, `drawRoute`, `updateLocation` and the map;
  - the chat's `receiveMessage` list;
  - the `join` emit of the rider effect (its server side is `Socket.Join`);
  - `navigator.share` and the WhatsApp fallback.
- RiderHome.RiderScreen.SetNewRide: React compares the card's ride by object identity. The model compares it by value, except that a `new-ride` ride is always a new object. A stored ride equal in value to the placeholder therefore does not count as a change when the placeholder is put back.
- RiderHome.RiderScreen.AcceptRide: a refused request clears the ride at once, where the code waits one second (`setTimeout`). The failure alert and the unhandled TypeError of a request with no response are not modelled; only their effect on the state is.
- RiderHome.CalculateEarnings: the calendar day of `updatedAt` in local time is an input of each ride record, and fares and distances are integers.
- NewRide.SharedRideId: the router's case-insensitive path matching and the percent-decoding of the parameter are not modelled; store ids are lower-case hexadecimal, so neither changes them.
- Frontend/src/components/RideDetails.jsx repeats the address split of the ride card, so `NewRide.Heading` and `NewRide.Tail` cover it.
- The distance shown on the ride card (`toFixed` on a float) is not modelled.
