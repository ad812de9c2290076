# RTC bus live tracking — a Dafny model of its core

The system tracks a city bus fleet in real time. An Express/MongoDB back end
stores buses and routes. It accepts location and occupancy reports and
broadcasts them over Socket.io. A simulator script moves the buses, and a seed
script creates them. A React front end keeps a map of bus positions, an alert
list, a bus information panel, a route picker and a reconnecting socket client.

This project models that core in Dafny and proves what it promises:

- **Records.** `BusModel` and `RouteModel` hold the records and their schema
  rules:
  - the three-band occupancy classification, stated in integers
    (`10·occupied < 7·total` means Available);
  - the pre-save hooks that derive the occupancy status, restamp the two
    "last updated" times independently, and sort a route's stops by `order`;
  - the circular `getNextStop`;
  - the queries that return only Active records.
- **Validation.** `Patterns` and `Validation` cover the request validators and
  the regular expressions, each proved equal to a plain description of what it
  accepts.
- **The database and the controllers.** `Store` is the database: maps from id
  to document, plus the log of global broadcasts. `BusController` and
  `RouteController` are the HTTP handlers over it, each stating:
  - its error cases (`NotFound`, `BadRequest`, validation failures);
  - the whole new store state, so "nothing else changes" is part of the
    contract;
  - the events it sends.
- **Pagination.** `Pagination` holds the page arithmetic.
- **The socket server.** `SocketHandler` is the socket server. Rooms are sets,
  so joining twice is the same as joining once. Deliveries are a multiset, so a
  member of two rooms provably receives a location broadcast three times. It
  also covers the role gates, the alert precedence (route room, then bus room,
  then everyone) and the occupancy payload computed from the rounded
  percentage.
- **The simulator.** `Simulator` is the motion simulator:
  - the occupancy and speed steps, with their time-of-day bias and clamps;
  - the closest-stop loop and the wrap-around target;
  - the timer table that `start` and `stop` fill and empty;
  - the `updateBus` write, which bypasses the pre-save hook.
- **The seed generator.** `Populate` is the seed-bus generator.
- **The front end.**
  - `BusTrackingMap`: the client's positions map, the marker icons, and the
    in-place polyline sort.
  - `Dashboard`: the five-slot alert buffer.
  - `BusInfoPanel`: the elapsed-time text, the colour classes and the summary
    counts.
  - `RouteSelector`: the route search.
  - `SocketService`: the socket client, with its bounded exponential
    reconnect backoff.
- **Shared helpers.** `Common` has JavaScript's `Math.round`, truncation,
  `Math.floor(Math.random() * n)`, decimal text and the order-preserving
  `filter`. `Sorting` is a stable sort by key: the function `SortBy` specifies
  it, and `SortInPlace`, the in-place insertion sort on an array, is proved to
  compute it.

### Inputs passed as parameters

These become parameters:

- every `Math.random()` draw (a real in [0, 1));
- the clock (`now`, in milliseconds) and the hour of day;
- the great-circle distance, the bearing, and the cosine-based longitude
  half-width of the search boxes;
- the outcome of token verification and the user lookup;
- the locale date text;
- the rendering of numbers inside area room names.

Seat counts are integers, coordinates and speeds are exact reals, and dates
are integer milliseconds.

### Departures from the documentation, and other notes

- **Seed seat range.** The seed generator's comment promises 30–50 seats, but
  `Math.floor(Math.random() * 20) + 30` gives 30–49. The model follows the
  code: see `Populate.SeedBusFor`.
- **Hook bypass in `findByIdAndUpdate`.** Writes through `findByIdAndUpdate`
  do not run the Bus pre-save hook, so the stored occupancy status is not
  recomputed. This covers `updateBus`, `updateBusStatus` and the simulator's
  write. `Simulator.SimulatorSkipsStatus` exhibits a stale status: an empty
  40-seat bus that gains 30 passengers stays "Available". Route stops written
  by `updateRoute` are likewise stored unsorted.
- **Rounded against raw percentage.** The socket handler classifies occupancy
  on the *rounded* percentage, while the Bus schema classifies the raw ratio.
  - At 139 of 200 seats they disagree: the socket handler says Nearly Full and
    the Bus schema says Available (`SocketHandler.RoundedAndRawDisagree`).
  - They can disagree only when the raw percentage lies in [69.5, 70) or
    [89.5, 90) (`SocketHandler.DisagreementOnlyNearThresholds`).
- **Seed stamps overwritten.** `Bus.create` runs the pre-save hook. It
  overwrites both back-dated "last updated" stamps of a seed bus with the
  creation time (`Populate.SeedBusSaves`).
- **Zero coordinates refused.** `getNearbyBuses` and `subscribe-area` test
  coordinates with JavaScript truthiness, so a latitude or longitude of
  exactly 0 is refused or ignored.

## Model

| member | source | states |
|---|---|---|
| Sorting.SortInPlace | backend/models/Route.js:144 | the in-place insertion sort leaves the array equal to the stable sort `SortBy` of its old contents |
| Sorting.SortBySorted | backend/controllers/routeController.js:242 | the result of the key sort is ascending by key |
| Sorting.SortByPermutes | backend/controllers/routeController.js:242 | the key sort is a permutation of its input |
| Sorting.SortByStable | backend/controllers/routeController.js:242 | elements sharing a key keep their input order (JavaScript's sort is stable) |
| BusModel.OccupiedSeatsValidator | backend/models/Bus.js:44-50 | occupied seats pass exactly when they do not exceed the total; equality passes |
| BusModel.RateBelow | backend/models/Bus.js:55-58 | the ratio test `occupied/total < k/10` is the integer test `10·occupied < k·total` |
| BusModel.Classify | backend/models/Bus.js:54-59 | Available iff 10·occ < 7·total, Nearly Full iff 7·total ≤ 10·occ < 9·total, Overcrowded iff 9·total ≤ 10·occ |
| BusModel.DefaultStatus | backend/models/Bus.js:51-59 | without a given status the default classifies the seats with the same thresholds; a given status is kept |
| BusModel.PreSave | backend/models/Bus.js:116-134 | when seats changed, the status agrees with the seats and the occupancy stamp is now; when the location changed, its stamp is now; otherwise each part is unchanged; no other field changes |
| BusModel.Save | backend/models/Bus.js:4-50 | a save succeeds exactly when the schema validators pass (a bus number that is not blank once trimmed, a route id, coordinates, total ≥ 1, 0 ≤ occupied ≤ total, speed, bearing); the saved bus meets them and, after a seat change, has a consistent status |
| BusModel.SavePreservesConsistency | backend/models/Bus.js:116-125 | saving a document whose status came from a consistent stored bus leaves it consistent |
| BusModel.IndependentStamps | backend/models/Bus.js:126-131 | a location-only save keeps the occupancy stamp, and a seat-only save keeps the location stamp |
| BusModel.AvailableSeats | backend/models/Bus.js:106-108 | available plus occupied seats is the total, and it is between 0 and the total for a valid bus |
| BusModel.Percentage | backend/models/Bus.js:101-103 | the rounded percentage lies in [0, 100] when 0 ≤ occupied ≤ total |
| BusModel.OccupancyPercentage | backend/models/Bus.js:101-103 | a valid bus has an occupancy percentage in [0, 100] |
| BusModel.ThirtyEightOfForty | backend/models/Bus.js:101-108 | 38 of 40 seats is 95 % and Overcrowded |
| BusModel.FindByRoute | backend/models/Bus.js:137-139 | exactly the Active buses of the route, with their stored documents |
| BusModel.LatitudeDelta | backend/models/Bus.js:142-154 | the latitude half-height is `maxDistance / 111000` degrees, 5000 m by default |
| BusModel.FindNearby | backend/models/Bus.js:142-154 | only Active stored buses within the latitude band and within `lonDelta` of the longitude are returned, and every Active bus inside that box is |
| RouteModel.FareWithDefaults | backend/models/Route.js:90-103 | the student and senior fares default to half the adult fare; given fares are kept |
| RouteModel.DefaultColorValid | backend/models/Route.js:115-118 | the default colour `#007bff` passes the colour pattern |
| RouteModel.PreSave | backend/models/Route.js:142-147 | with modified stops, the stops become the stable sort by order (sorted, a permutation); nothing else changes; unmodified stops are left alone |
| RouteModel.FirstAfter | backend/models/Route.js:166 | the index found is the first stop ordered after the current one, or none exists |
| RouteModel.GetNextStop | backend/models/Route.js:165-168 | none only for an empty route; the first stop ordered after `current` when one exists (no earlier stop is ordered after it), otherwise the first stop of the route |
| RouteModel.CircularNextStop | backend/models/Route.js:165-168 | on stops numbered 1..n, the stop after k is stop k+1, and after the last stop comes the first |
| RouteModel.ThreeStopLoop | backend/models/Route.js:165-168 | with orders [1, 2, 3], after 3 comes 1, after 1 comes 2, after 2 comes 3 |
| RouteModel.FindStop | backend/models/Route.js:172-173 | the index found is the first stop with the id, or no stop has it |
| RouteModel.GetDistanceBetweenStops | backend/models/Route.js:171-175 | null exactly when either id is not on the route; otherwise the distance between the first stop carrying each id (`FindStop`) |
| RouteModel.TotalStops | backend/models/Route.js:127-129 | the number of stops, or 0 when the stops are absent |
| RouteModel.FindByArea | backend/models/Route.js:150-161 | exactly the Active routes with a stop inside the box |
| Patterns.HourGroupMeaning | backend/middleware/validation.js:57 | the hour group accepts exactly the one- or two-digit hours 0 to 23 |
| Patterns.MinuteGroupMeaning | backend/middleware/validation.js:57 | the minute group accepts exactly the two-digit minutes 00 to 59 |
| Patterns.TimePatternMeaning | backend/middleware/validation.js:57-58 | the operating-hours pattern accepts exactly the `H:MM` or `HH:MM` times from 0:00 to 23:59 |
| Patterns.TimePatternExamples | backend/middleware/validation.js:57-58 | "7:05", "07:05" and "23:59" pass; "24:00" and "7:5" fail |
| Patterns.HexColorExamples | backend/middleware/validation.js:67 | `#` plus six hex digits of either case passes; a missing `#`, five digits or a non-hex digit fails |
| Validation.ValidateObjectId | backend/middleware/validation.js:171-182 | passes iff the parameter is present and is 24 hex digits; otherwise rejects with `Invalid <name> format` |
| Validation.ValidateOccupancy | backend/middleware/validation.js:157-168 | rejects iff occupancy is present and occupied > total; equality passes |
| Validation.LocationQueryBox | backend/middleware/validation.js:103-107 | a query passing the schema searches a box whose latitude half-height is between 100 m and 50 km worth of degrees |
| Validation.RouteDocument | backend/models/Route.js:90-119 | the document built from a request keeps its stops and adult fare; a missing colour becomes `#007bff`; the status is Active |
| Validation.ValidRequestMeetsSchema | backend/middleware/validation.js:35-68 | a request that passes the `createRoute` schema (route name and number, stop names not blank once trimmed, stop ids not empty, bounds and patterns) builds a document that passes the Route schema, so `createRoute` can then fail only on a repeated stop order or id |
| Pagination.PageOf | backend/controllers/routeController.js:16-19 | the page holds at most `limit` documents, starting at `(page-1)·limit`, and is empty past the end |
| Pagination.Pages | backend/controllers/routeController.js:30 | `ceil(total/limit)`: the least page count whose pages hold every document |
| Pagination.EveryItemOnOnePage | backend/controllers/routeController.js:16-30 | document k is entry k mod limit of page k div limit + 1, within the reported page count |
| Pagination.PagesBeyondCountAreEmpty | backend/controllers/routeController.js:16-30 | pages past the reported count are empty |
| Pagination.TwentyFiveByTen | backend/controllers/routeController.js:16-30 | 25 documents at 10 per page make 3 pages, the last holding 5 |
| BusController.CreateBus | backend/controllers/busController.js:67-84 | NotFound for an unknown route; success iff the route exists and the schema holds; the new bus is stored and broadcast, has a consistent status and fresh stamps; errors change nothing |
| BusController.UpdateBusLocation | backend/controllers/busController.js:89-143 | success iff the bus exists, the assigned document passes the schema and its route is stored; NotFound with no change for an unknown bus; position overwritten and stamped; speed, direction and occupied seats change only when supplied, with totals untouched; a location event, then an occupancy event only when seats were supplied |
| BusController.ApplyPatch | backend/controllers/busController.js:163-167 | each supplied field is replaced and every omitted one kept; occupancy and location are not patched |
| BusController.EmptyPatchIsIdentity | backend/controllers/busController.js:163-167 | an empty update leaves the bus unchanged |
| BusController.UpdateBus | backend/controllers/busController.js:148-175 | NotFound for an unknown bus or a new unknown route, with the store unchanged; success iff the bus exists, the route id is not empty and, when changed, is stored, and the update validators pass (a supplied bus number not blank, speed, bearing); the patched bus is then stored (no status recomputation) and broadcast |
| BusController.DeleteBus | backend/controllers/busController.js:180-196 | succeeds iff the bus exists; removes only it and broadcasts its id |
| BusController.ParseStatus | backend/controllers/busController.js:257-259 | accepts exactly the four status names, returning the status spelled that way |
| BusController.ParseStatusName | backend/controllers/busController.js:257-259 | every status reads back from its spelling |
| BusController.UpdateBusStatus | backend/controllers/busController.js:254-282 | an unknown status is refused before any lookup; NotFound for an unknown id; otherwise only the status changes, and it is broadcast |
| BusController.GetBusesByRoute | backend/controllers/busController.js:201-226 | NotFound iff the route is unknown; otherwise exactly the route's Active buses |
| BusController.GetNearbyBuses | backend/controllers/busController.js:231-249 | refused iff a coordinate is missing or 0; otherwise exactly `findNearby` with the truncated radius: only Active stored buses in the latitude band, and every Active bus in the box |
| RouteController.ValuesOf | backend/controllers/routeController.js:68-69 | the set of the values in the list |
| RouteController.DistinctIffNoCollapse | backend/controllers/routeController.js:67-81 | the list and its set have the same size exactly when no value repeats |
| RouteController.Orders | backend/controllers/routeController.js:68 | the stops' orders, position by position |
| RouteController.StopIds | backend/controllers/routeController.js:76 | the stops' ids, position by position |
| RouteController.CheckStops | backend/controllers/routeController.js:67-81 | passes iff orders and ids are each pairwise distinct; repeated orders are reported first, repeated ids only when orders are distinct |
| RouteController.OrderCheckComesFirst | backend/controllers/routeController.js:67-81 | two stops with one order are refused for the order, whatever their ids |
| RouteController.CreateRoute | backend/controllers/routeController.js:65-89 | refused by the uniqueness checks first; success iff the checks and the Route schema pass (route name and number not blank once trimmed, stop ids and names present, bounds, patterns); the stored route has its stops stably sorted by order, all else as given |
| RouteController.ApplyPatch | backend/controllers/routeController.js:119-123 | for every field, a supplied value replaces and an omitted one is kept; the id never changes; supplied stops are stored as given |
| RouteController.ApplyPatchIdempotent | backend/controllers/routeController.js:119-123 | applying the same update twice stores what applying it once does |
| RouteController.UpdateRoute | backend/controllers/routeController.js:94-128 | NotFound for an unknown id; the uniqueness checks only when stops are supplied; success iff the route exists, the checks pass and the update validators pass on the supplied fields (a route name or number not blank, each stop's validators, bounds, patterns); success stores exactly the patched route; errors change nothing |
| RouteController.DeleteRoute | backend/controllers/routeController.js:133-152 | NotFound for an unknown id; refused, route kept, while a bus refers to it; otherwise only that route is removed, which keeps every bus's route reference valid |
| RouteController.EstimatedArrival | backend/controllers/routeController.js:220-224 | no earlier than now; at 30 km/h each kilometre adds two minutes, truncated to whole milliseconds: `t ≤ now + 120000·distance < t + 1` |
| RouteController.TenKilometresTwentyMinutes | backend/controllers/routeController.js:220-224 | a bus 10 km away is due in exactly 20 minutes |
| RouteController.RoundedDistance | backend/controllers/routeController.js:229 | the reported distance is within 0.005 km of the real one |
| RouteController.ArrivalsAt | backend/controllers/routeController.js:216-231 | one entry per listed bus, in list order, carrying its number, the arrival estimated from its distance to the stop, and that distance rounded to two decimals |
| RouteController.ActiveBusesOf | backend/controllers/routeController.js:209-212 | every Active bus of the route exactly once, with its stored document |
| RouteController.RankArrivals | backend/controllers/routeController.js:242 | the array sort computes the stable sort by estimated arrival |
| RouteController.GetRouteArrivals | backend/controllers/routeController.js:202-255 | NotFound iff the route is unknown; otherwise one entry per stop in stop order, each ranking all the route's Active buses by arrival |
| RouteController.ArrivalRanking | backend/controllers/routeController.js:242 | each stop's list is ascending by arrival, a permutation of the buses' entries, and ties keep their input order |
| SocketHandler.RoomNamesDistinct | backend/socket/socketHandler.js:36-84 | room names determine their ids, and route, bus and user rooms never share a name |
| SocketHandler.Authenticate | backend/socket/socketHandler.js:6-24 | a user is attached iff a non-empty token resolved to an active user; otherwise anonymous, never refused |
| SocketHandler.RoleHierarchy | backend/socket/socketHandler.js:113-164 | whoever may alert may report; passengers and anonymous connections may do neither |
| SocketHandler.SocketPercentage | backend/socket/socketHandler.js:142 | the rounded percentage, Infinity or NaN when the total is 0 |
| SocketHandler.StatusOfPercent | backend/socket/socketHandler.js:143-145 | Overcrowded iff the percentage is at least 90, Nearly Full iff 70 to 89 |
| SocketHandler.MakeOccupancyPayload | backend/socket/socketHandler.js:140-156 | the payload carries the rounded percentage, the status it implies, the available seats (total − occupied) and the inputs |
| SocketHandler.RoundedAndRawDisagree | backend/socket/socketHandler.js:142-145 | at 139/200 the socket reports Nearly Full where the Bus schema says Available |
| SocketHandler.DisagreementOnlyNearThresholds | backend/socket/socketHandler.js:142-145 | the two classifications differ only for a raw percentage in [69.5, 70) or [89.5, 90) |
| SocketHandler.TargetOf | backend/socket/socketHandler.js:177-184 | route room if a route id is given, else bus room if a bus id is, else everyone |
| SocketHandler.SeverityOrInfo | backend/socket/socketHandler.js:171 | a given severity is kept, a missing one becomes `info` |
| SocketHandler.ToEachCount | backend/socket/socketHandler.js:207-209 | one emit reaches each target exactly once and nobody else |
| SocketHandler.Members | backend/socket/socketHandler.js:208-209 | exactly the connections in the room |
| SocketHandler.EffectiveRadius | backend/socket/socketHandler.js:99 | `radius ∥ 5000`: a missing or zero radius becomes 5000, any other is kept |
| SocketHandler.AreaRoom | backend/socket/socketHandler.js:99 | `area_` followed by the latitude, the longitude and the effective radius, separated by underscores |
| SocketHandler.AreaRoomsDistinct | backend/socket/socketHandler.js:96-110 | with a one-to-one number rendering, two area subscriptions share a room exactly when latitude, longitude and effective radius agree |
| SocketHandler.Server.Connect | backend/socket/socketHandler.js:31-37 | a new connection is always added; an authenticated user joins their own room; nothing is sent |
| SocketHandler.Server.Subscription | backend/socket/socketHandler.js:40-93 | a non-empty id joins (set insert) or leaves (set remove) the room and confirms to the requester only; an empty id does nothing |
| SocketHandler.Server.SubscribeArea | backend/socket/socketHandler.js:96-110 | with both coordinates truthy, joins the area room and confirms to the requester; otherwise nothing |
| SocketHandler.Server.ShareLocation | backend/socket/socketHandler.js:112-136 | for a reporting role, one copy to everyone and one more to the other bus-room members; others are ignored |
| SocketHandler.Server.UpdateOccupancy | backend/socket/socketHandler.js:138-161 | for a reporting role, the computed payload to everyone; others are ignored |
| SocketHandler.Server.SendAlert | backend/socket/socketHandler.js:163-187 | for an admin or operator, the alert with the default severity goes to the chosen target only; others are ignored |
| SocketHandler.Server.Ping | backend/socket/socketHandler.js:189-191 | a pong to the asking connection only |
| SocketHandler.Server.Disconnect | backend/socket/socketHandler.js:194-196 | the connection and its rooms are dropped |
| SocketHandler.Server.EmitBusLocationUpdate | backend/socket/socketHandler.js:206-210 | each connection gets 1 copy, plus 1 per route or bus room it is in |
| SocketHandler.Server.EmitToAllAndBus | backend/socket/socketHandler.js:212-220 | each connection gets 1 copy, plus 1 if it is in the bus room |
| SocketHandler.Server.EmitServiceAlert | backend/socket/socketHandler.js:222-230 | route room, else bus room, else everyone |
| Simulator.BaseChange | backend/scripts/simulateRealTime.js:101 | the base change is an integer from −5 to 8 |
| Simulator.SimulateOccupancyChange | backend/scripts/simulateRealTime.js:96-122 | total kept; occupied in [0, total]; rush hours add the drawn 0–4 seats, capped at the total; nights give ⌊0.3 · the clamped count⌋; other hours the clamped base change |
| Simulator.RushAndNightDisjoint | backend/scripts/simulateRealTime.js:108-115 | no hour is both rush and night |
| Simulator.SimulateSpeedChange | backend/scripts/simulateRealTime.js:125-144 | speed in [0, 60]; at most 25 in rush hours; 15 to 40 at night; otherwise within 10.5 of the old speed |
| Simulator.FirstMinimumUnique | backend/scripts/simulateRealTime.js:44-58 | the first closest stop is unique |
| Simulator.ClosestStop | backend/scripts/simulateRealTime.js:44-58 | the loop finds the first stop of minimum distance |
| Simulator.CalculateNextPosition | backend/scripts/simulateRealTime.js:37-81 | the loop's result meets `IsNextPosition`: unchanged without a route or with fewer than 2 stops; otherwise a step toward the stop after the first closest one, wrapping to the first, plus the jitter |
| Simulator.NextPositionUnique | backend/scripts/simulateRealTime.js:44-79 | the next position is determined by the location, the stops, the distances and the draws |
| Simulator.TargetWraps | backend/scripts/simulateRealTime.js:61 | the stop after the last is the first, and the target is never the closest stop itself |
| Simulator.SimulatorSkipsStatus | backend/scripts/simulateRealTime.js:163-168 | a write without the hook leaves a 30-of-40 bus marked Available |
| Simulator.BusSimulator.constructor | backend/scripts/simulateRealTime.js:8-13 | no buses, not running, no timers |
| Simulator.BusSimulator.Load | backend/scripts/simulateRealTime.js:21 | every Active bus of the store exactly once, with its route's stops or none |
| Simulator.BusSimulator.Register | backend/scripts/simulateRealTime.js:219-223 | a fresh live timer handle |
| Simulator.BusSimulator.Start | backend/scripts/simulateRealTime.js:205-239 | a no-op while running; otherwise running with one timer per bus plus the status timer, all live |
| Simulator.BusSimulator.Stop | backend/scripts/simulateRealTime.js:242-253 | not running, no recorded timers and no live timer left |
| Simulator.BusSimulator.Tick | backend/scripts/simulateRealTime.js:219-223 | a timer firing after `stop` changes no bus and no stored document; the timer table, the route collection and the broadcasts are kept |
| Simulator.BusSimulator.UpdateBus | backend/scripts/simulateRealTime.js:147-188 | the local copy gets the next position (`IsNextPosition`), the new seat counts with a 20 % chance (status kept), the speed from `speed ∥ 25` and the rounded bearing; the store gets the same values when the document exists; other buses unchanged |
| Populate.CharCode | backend/scripts/populateData.js:253 | character codes below the surrogates map to themselves |
| Populate.DigitCount | backend/scripts/populateData.js:268-269 | a number in [10^(k−1), 10^k) has k digits |
| Populate.BackDated | backend/scripts/populateData.js:258 | a back-dated stamp lies in [now − span, now] |
| Populate.Near | backend/scripts/populateData.js:246-257 | the start position is within 0.005 degrees of the chosen stop on each axis |
| Populate.SeedDriver | backend/scripts/populateData.js:266-270 | the driver name is one of the five names |
| Populate.SeedBusFor | backend/scripts/populateData.js:243-274 | the route id; 30–49 seats; occupied < total; speed 10–49; direction 0–359; next stop and start position from the route's stops; stamps in range; Active iff the draw exceeds 0.1 |
| Populate.SeedIdentifiers | backend/scripts/populateData.js:253-269 | bus number `TS07U` + route letter + bus letter + 3 digits; phone `+91` + 10 digits; licence `AP` + 6 digits |
| Populate.ToBus | backend/scripts/populateData.js:252-274 | the stored document carries the seed's ids and seat counts |
| Populate.SeedBusSaves | backend/scripts/populateData.js:258-263 | every seed bus passes the schema and saves with a consistent status and both stamps equal to the creation time |
| Populate.GenerateBusesForRoute | backend/scripts/populateData.js:240-278 | an error iff buses are requested for a route without stops; otherwise exactly `count` buses of the route, the i-th built from the i-th draws |
| BusTrackingMap.OrElse | frontend/src/components/Map/BusTrackingMap.tsx:145-146 | `a ∥ b`: a truthy value is kept, a missing or zero value falls back |
| BusTrackingMap.KeyById | frontend/src/components/Map/BusTrackingMap.tsx:128-134 | the map's keys are exactly the ids of the buses |
| BusTrackingMap.LastDuplicateWins | frontend/src/components/Map/BusTrackingMap.tsx:128-134 | an id's entry is its last bus in the list |
| BusTrackingMap.CreateBusIcon | frontend/src/components/Map/BusTrackingMap.tsx:29-38 | green, amber or red iff Available, Nearly Full or Overcrowded, never the blue fallback; 24 px with a 3 px border iff selected, else 18 and 2 |
| BusTrackingMap.MapState.constructor | frontend/src/components/Map/BusTrackingMap.tsx:128-134 | an empty map |
| BusTrackingMap.MapState.Init | frontend/src/components/Map/BusTrackingMap.tsx:128-134 | the `forEach`/`set` loop builds exactly `KeyById` of the list |
| BusTrackingMap.MapState.LocationUpdated | frontend/src/components/Map/BusTrackingMap.tsx:137-151 | an unknown id changes nothing; a known one gets the location and the truthy speed and direction, all other entries and fields unchanged |
| BusTrackingMap.MapState.OccupancyUpdated | frontend/src/components/Map/BusTrackingMap.tsx:153-167 | an unknown id changes nothing; a known one gets only the occupancy, percentage and free seats |
| BusTrackingMap.ZeroSpeedIgnored | frontend/src/components/Map/BusTrackingMap.tsx:145 | a reported speed of 0 keeps the old speed |
| BusTrackingMap.RouteCoordinates | frontend/src/components/Map/BusTrackingMap.tsx:188-192 | the selected route's stops array is sorted in place by order and the line follows it; no route gives no line |
| BusTrackingMap.PolylineOrder | frontend/src/components/Map/BusTrackingMap.tsx:188-192 | the line's stops are ascending by order and are each route stop once |
| Dashboard.ReceiveAlert | frontend/src/pages/Dashboard.tsx:18-28 | the alert first, then the first four earlier ones in order, at most five; panel shown; removal scheduled iff `info` |
| Dashboard.DismissAlert | frontend/src/pages/Dashboard.tsx:68-70 | no alert with the id remains and every other alert does; visibility unchanged |
| Dashboard.DismissKeepsOrder | frontend/src/pages/Dashboard.tsx:68-70 | the remaining alerts keep their order; an absent id changes nothing |
| Dashboard.ReceiveThenDismiss | frontend/src/pages/Dashboard.tsx:19-27 | removing a new alert again leaves the four newest earlier alerts |
| Dashboard.SixthAlertDropsOldest | frontend/src/pages/Dashboard.tsx:19 | with five alerts, a new one pushes out the oldest |
| BusInfoPanel.OccupancyColor | frontend/src/components/BusInfo/BusInfoPanel.tsx:17-28 | each status name has its colour iff it is that name; grey iff unlisted |
| BusInfoPanel.StatusColor | frontend/src/components/BusInfo/BusInfoPanel.tsx:30-43 | Active, Maintenance, Out of Service have their colours iff named; grey otherwise, Inactive included |
| BusInfoPanel.FormatLastUpdated | frontend/src/components/BusInfo/BusInfoPanel.tsx:45-56 | Unknown without a date; Just now under a minute (future included); 1–59 `m ago`; 1–23 `h ago`; the locale date beyond |
| BusInfoPanel.MinutesLabelReadsBack | frontend/src/components/BusInfo/BusInfoPanel.tsx:49-52 | the digits before `m ago` read back as the elapsed whole minutes |
| BusInfoPanel.MinuteBoundary | frontend/src/components/BusInfo/BusInfoPanel.tsx:45-56 | 60 000 ms is `1m ago`, 59 999 ms is `Just now`, one hour is `1h ago` |
| BusInfoPanel.StatusCount | frontend/src/components/BusInfo/BusInfoPanel.tsx:236-248 | a count never exceeds the number of buses |
| BusInfoPanel.SummaryCountsPartition | frontend/src/components/BusInfo/BusInfoPanel.tsx:236-248 | the three counts add up to the number of buses |
| RouteSelector.LowerChar | frontend/src/components/RouteSelector/RouteSelector.tsx:40-41 | A–Z lower-case, other characters unchanged |
| RouteSelector.ToLower | frontend/src/components/RouteSelector/RouteSelector.tsx:40-41 | every character lower-cased, length kept |
| RouteSelector.ToLowerIdempotent | frontend/src/components/RouteSelector/RouteSelector.tsx:40-41 | lower-casing twice is lower-casing once |
| RouteSelector.Includes | frontend/src/components/RouteSelector/RouteSelector.tsx:40-41 | true iff the needle occurs at some position of the text |
| RouteSelector.FilteredRoutes | frontend/src/components/RouteSelector/RouteSelector.tsx:39-42 | a route is shown iff its lower-cased name or number contains the lower-cased term |
| RouteSelector.FilteredKeepsOrder | frontend/src/components/RouteSelector/RouteSelector.tsx:39-42 | the shown routes are an order-preserving sub-list |
| RouteSelector.EmptyTermShowsAll | frontend/src/components/RouteSelector/RouteSelector.tsx:39-42 | an empty term shows every route |
| RouteSelector.SearchIgnoresCase | frontend/src/components/RouteSelector/RouteSelector.tsx:39-42 | a lower-cased term shows the same routes |
| RouteSelector.HandleRouteSelect | frontend/src/components/RouteSelector/RouteSelector.tsx:44-48 | reports the route, closes the dropdown, clears the search |
| RouteSelector.ClearSelection | frontend/src/components/RouteSelector/RouteSelector.tsx:50-54 | reports null, closes the dropdown, clears the search |
| SocketService.Delay | frontend/src/services/socketService.ts:70 | every delay is at least the one-second base |
| SocketService.Backoff | frontend/src/services/socketService.ts:67-79 | n failures schedule one delay each until the counter reaches five, then none |
| SocketService.FreshBackoff | frontend/src/services/socketService.ts:67-79 | from zero, five or more failures wait 1, 2, 4, 8 and 16 s, and no more |
| SocketService.BackoffBounds | frontend/src/services/socketService.ts:67-79 | every delay lies in [1, 16] s and doubles the previous one |
| SocketService.BackoffPrefix | frontend/src/services/socketService.ts:67-79 | one more failure appends the next backoff step |
| SocketService.Service.constructor | frontend/src/services/socketService.ts:5-9 | no socket, zero attempts |
| SocketService.Service.Connect | frontend/src/services/socketService.ts:15-24 | a new, not yet connected socket; the counter kept |
| SocketService.Service.OnConnected | frontend/src/services/socketService.ts:25-29 | the counter is reset to 0 and the socket marked connected |
| SocketService.Service.HandleReconnect | frontend/src/services/socketService.ts:67-79 | below five attempts, one more attempt and the doubled delay scheduled; at five, nothing; the counter never exceeds five |
| SocketService.Service.OnDisconnect | frontend/src/services/socketService.ts:31-37 | the socket no longer reports itself connected, whatever the reason; only a server-initiated disconnect schedules a reconnect |
| SocketService.Service.OnConnectError | frontend/src/services/socketService.ts:39-43 | every connection error is a reconnect attempt |
| SocketService.Service.Disconnect | frontend/src/services/socketService.ts:60-65 | leaves no socket, and is harmless without one |
| SocketService.Service.Send | frontend/src/services/socketService.ts:82-110 | sent on the current socket; dropped when there is none |
| SocketService.Service.Listen | frontend/src/services/socketService.ts:112-159 | one more listener when there is a socket; nothing otherwise |
| SocketService.Service.StopListening | frontend/src/services/socketService.ts:112-159 | no listener for the event remains |
| SocketService.Service.IsConnected | frontend/src/services/socketService.ts:204-206 | true iff a socket exists and has connected |
| SocketService.FailFiveTimes | frontend/src/services/socketService.ts:67-79 | six failures from a fresh service schedule exactly 1, 2, 4, 8, 16 s and leave the counter at 5 |
| SocketService.DropAfterConnect | frontend/src/services/socketService.ts:25-37 | after connecting and then dropping for any reason, `isConnected` is false; only a server-initiated drop schedules the one-second reconnect |

## Left out

- MongoDB itself: ids, the unique indexes on bus number, route name and number, and stop ids across routes, `populate`, `select`, and the `$regex` search of `searchRoutes`. The database is a map from id to document; fresh ids are parameters.
- Query semantics: `findNearby` and `findByArea` put range conditions on an array field without `$elemMatch`, so in MongoDB the latitude and longitude bounds may be met by different stops. The model tests both bounds on one stop.
- The longitude half-width of `findNearby` and `findByArea`, `maxDistance / (111000 · cos(latitude))`, is floating-point trigonometry. It is the parameter `lonDelta`.
- Floating-point arithmetic: ratios, percentages and positions are exact reals. The haversine distance, the bearing, the cosine-based longitude width and the `averageSpeed` virtual are parameters or not modelled. NaN and infinite inputs are outside the model, except for the socket's division by zero, which is modelled.
- Randomness, clocks and timers: draws, `now` and the hour are parameters. Timers are recorded as handles or delays, not run. The info-alert timer is the returned `scheduledRemoval`.
- Simulator.BusSimulator.UpdateBus: keeps the prior occupancy status when new seat counts are written. The source writes an occupancy object without a status. What Mongoose then stores or fills in on a later read is library behaviour, not modelled.
- Simulator: `initialize` also loads the Active routes, which nothing reads. It stops the process when no bus exists; that exit and the console output are left out. The status-report timer only prints, and `simulateAlert` only prints a message, so neither is modelled.
- BusController.UpdateBus: does not model patches of `occupancy` or `currentLocation`. Mongoose's update validators then run with an unusual `this`, which is library behaviour.
- getAllBuses' and getAllRoutes' filters and sort order, and getBus, getRoute, getRouteStops, getRoutesByArea and searchRoutes: thin database reads. Only their pagination arithmetic (`Pagination`) and the query filters `FindByRoute`, `FindNearby` and `FindByArea` are modelled.
- The Joi request schemas are library behaviour. Their bounds appear only as predicates: `Validation.ValidLocationQuery`, `Validation.ValidCreateRoute` and the patterns.
- The `updateBusLocation` request schema has no `busId` field, and the validator strips unknown fields. So every `POST` to the buses router's `/update-location` (backend/routes/buses.js:25) that passes validation reaches the handler without a bus id and is answered 404. `BusController.UpdateBusLocation` models the handler with the id it would receive.
- The `trim` and `uppercase` setters of the bus and route schemas are not modelled: names and numbers are stored as given. `HasText` reads `required` after `trim` as "some character is not a space, tab, carriage return or line feed"; the other Unicode white space that `trim` removes is not modelled. Ids are opaque strings, so the cast of `routeId` to an ObjectId is not modelled.
- Authentication: token verification, the User model and `authController.js` are not part of this model. Their outcome is the `lookup` parameter.
- Socket.io transport: Socket.io also puts every connection in a room named after its id; that room is not modelled. Connections are handled one event at a time; concurrency is not modelled. `disconnect` and `error` events only log.
- SocketService.Service.Connect: does not model that the previous socket is not closed, beyond replacing the field. The client's listener callbacks are counted, not stored.
- The front end's rendering: JSX, Leaflet, the locale date and time text (a parameter), and the axios and hook wrappers.
- RouteSelector.LowerChar: lower-cases ASCII letters only; full Unicode case mapping is not modelled.
- BusTrackingMap.CreateBusIcon: takes the occupancy status as the three-value union the TypeScript type declares and the call site passes. The blue fallback of the object lookup, reached only by a value outside that union at run time, is not modelled, nor are inherited property names such as "constructor", which the lookup would return as truthy.
- BusInfoPanel.OccupancyColor and BusInfoPanel.StatusColor: both take the status as any string. The JavaScript quirk where an inherited property name could match a lookup does not arise, because the source uses `switch` on these values.
