/**
 * The route record (the Mongoose schema of `backend/models/Route.js`): stop and
 * route bounds, fare defaults, the pre-save hook that sorts the stops by their
 * `order`, the circular `getNextStop`, the `getDistanceBetweenStops` lookup, the
 * `totalStops` virtual and the `findByArea` query.
 *
 * The great-circle distance is a parameter `distanceKm(lat1, lon1, lat2, lon2)`.
 */
module RouteModel {
  import opened Common
  import opened Sorting
  import Patterns
  import BusModel

  datatype Facility = Shelter | Seating | DigitalDisplay | WheelchairAccess | Restroom | Parking

  datatype Stop = Stop(
    stopId: string,
    name: string,
    latitude: real,
    longitude: real,
    order: int,
    estimatedTime: real,  // minutes from the start of the route
    facilities: seq<Facility>)

  datatype RouteStatus = Active | Inactive | Maintenance | Seasonal

  datatype RouteType = City | Express | Intercity | Shuttle

  datatype Fare = Fare(adult: real, student: real, senior: real)

  datatype Route = Route(
    id: string,
    routeName: string,
    routeNumber: string,
    description: Option<string>,
    stops: seq<Stop>,
    totalDistance: real,
    estimatedDuration: real,
    operatingStart: string,
    operatingEnd: string,
    frequency: real,
    fare: Fare,
    status: RouteStatus,
    routeType: RouteType,
    color: string)

  /**
   * The stop sub-schema's validators: a stop id and a name that is not blank
   * once trimmed (both `required`), coordinates in range, order at least 1,
   * estimated time not negative.
   */
  predicate StopSatisfiesSchema(s: Stop)
  {
    && s.stopId != ""
    && BusModel.HasText(s.name)
    && -90.0 <= s.latitude <= 90.0
    && -180.0 <= s.longitude <= 180.0
    && s.order >= 1
    && s.estimatedTime >= 0.0
  }

  /**
   * The route schema's validators: a route name and number that are not blank
   * once trimmed (both `required`), every stop's validators, the bounds, and
   * the operating-hours and colour patterns.
   */
  predicate RouteSatisfiesSchema(r: Route)
  {
    && BusModel.HasText(r.routeName)
    && BusModel.HasText(r.routeNumber)
    && (forall i :: 0 <= i < |r.stops| ==> StopSatisfiesSchema(r.stops[i]))
    && r.totalDistance >= 0.0
    && r.estimatedDuration >= 1.0
    && Patterns.MatchesTimePattern(r.operatingStart)
    && Patterns.MatchesTimePattern(r.operatingEnd)
    && r.frequency >= 1.0
    && r.fare.adult >= 0.0
    && Patterns.IsHexColor(r.color)
  }

  /** The fare defaults: the student and senior fares default to half the adult fare. */
  function FareWithDefaults(adult: real, student: Option<real>, senior: Option<real>): (f: Fare)
    ensures f.adult == adult
    ensures student.None? ==> 2.0 * f.student == adult
    ensures senior.None? ==> 2.0 * f.senior == adult
    ensures student.Some? ==> f.student == student.value
    ensures senior.Some? ==> f.senior == senior.value
  {
    Fare(adult,
         if student.Some? then student.value else adult * 0.5,
         if senior.Some? then senior.value else adult * 0.5)
  }

  /** The default display colour `#007bff` matches the colour pattern. */
  lemma DefaultColorValid()
    ensures Patterns.IsHexColor("#007bff")
  {
  }

  function StopOrder(s: Stop): int
  {
    s.order
  }

  /** Mongoose's `isModified('stops')`: always true for a new document. */
  predicate StopsModified(stored: Option<Route>, doc: Route)
  {
    stored.None? || doc.stops != stored.value.stops
  }

  /**
   * The pre-save hook: when the stops were modified it sorts them in place,
   * ascending by `order` (stably: stops of equal order keep their order);
   * nothing else changes.
   */
  method PreSave(stored: Option<Route>, doc: Route) returns (r: Route)
    ensures StopsModified(stored, doc) ==> r.stops == SortBy(doc.stops, StopOrder)
    ensures StopsModified(stored, doc) ==> SortedBy(r.stops, StopOrder)
    ensures multiset(r.stops) == multiset(doc.stops)
    ensures r.(stops := doc.stops) == doc
    ensures !StopsModified(stored, doc) ==> r == doc
  {
    r := doc;
    if StopsModified(stored, doc) {
      var a := new Stop[|doc.stops|](i requires 0 <= i < |doc.stops| => doc.stops[i]);
      assert a[..] == doc.stops;
      SortInPlace(a, StopOrder);
      r := doc.(stops := a[..]);
      SortBySorted(doc.stops, StopOrder);
      SortByPermutes(doc.stops, StopOrder);
    }
  }

  /** The index `stops.find(stop => stop.order > current)` finds: the first stop ordered after `current`. */
  function FirstAfter(stops: seq<Stop>, current: int): (k: Option<nat>)
    ensures k.Some? ==> k.value < |stops| && stops[k.value].order > current
    ensures k.Some? ==> forall j :: 0 <= j < k.value ==> stops[j].order <= current
    ensures k.None? ==> forall j :: 0 <= j < |stops| ==> stops[j].order <= current
  {
    if stops == [] then None
    else if stops[0].order > current then Some(0)
    else
      var rest := FirstAfter(stops[1..], current);
      if rest.Some? then Some(rest.value + 1) else None
  }

  /**
   * `getNextStop(current)`: the first stop ordered after `current`, or else the
   * first stop (the route is circular); `undefined` for a route without stops.
   */
  function GetNextStop(stops: seq<Stop>, current: int): (r: Option<Stop>)
    ensures r.None? <==> stops == []
    ensures r.Some? ==> r.value in stops
    ensures FirstAfter(stops, current).Some? ==> r == Some(stops[FirstAfter(stops, current).value])
    ensures FirstAfter(stops, current).None? && stops != [] ==> r == Some(stops[0])
    ensures r.Some? && r.value.order > current ==>
              exists k :: 0 <= k < |stops| && stops[k] == r.value && forall j :: 0 <= j < k ==> stops[j].order <= current
    ensures r.Some? && r.value.order <= current ==>
              r.value == stops[0] && forall j :: 0 <= j < |stops| ==> stops[j].order <= current
  {
    var k := FirstAfter(stops, current);
    if k.Some? then Some(stops[k.value]) else if stops != [] then Some(stops[0]) else None
  }

  /** The stops of a route numbered 1 to n in stored order. */
  predicate NumberedFromOne(stops: seq<Stop>)
  {
    forall i :: 0 <= i < |stops| ==> stops[i].order == i + 1
  }

  /**
   * On stops numbered 1 to n, the stop after order k is the one numbered k + 1,
   * and after the last stop (or beyond it) comes the first one.
   */
  lemma CircularNextStop(stops: seq<Stop>, k: int)
    requires |stops| >= 1 && NumberedFromOne(stops)
    ensures 0 <= k < |stops| ==> GetNextStop(stops, k) == Some(stops[k])
    ensures k < 0 ==> GetNextStop(stops, k) == Some(stops[0])
    ensures k >= |stops| ==> GetNextStop(stops, k) == Some(stops[0])
  {
    var f := FirstAfter(stops, k);
    if 0 <= k < |stops| {
      assert stops[k].order == k + 1;
      assert f.Some?;
      assert stops[f.value].order == f.value + 1;
    } else if k < 0 {
      assert stops[0].order > k;
    } else {
      assert forall j :: 0 <= j < |stops| ==> stops[j].order <= k;
    }
  }

  /** For stops ordered [1, 2, 3]: after 3 comes 1, after 1 comes 2, after 2 comes 3. */
  lemma ThreeStopLoop(a: Stop, b: Stop, c: Stop)
    requires a.order == 1 && b.order == 2 && c.order == 3
    ensures GetNextStop([a, b, c], 3) == Some(a)
    ensures GetNextStop([a, b, c], 1) == Some(b)
    ensures GetNextStop([a, b, c], 2) == Some(c)
  {
    CircularNextStop([a, b, c], 3);
    CircularNextStop([a, b, c], 1);
    CircularNextStop([a, b, c], 2);
  }

  /** The index `stops.find(stop => stop.stopId === id)` finds. */
  function FindStop(stops: seq<Stop>, id: string): (k: Option<nat>)
    ensures k.Some? ==> k.value < |stops| && stops[k.value].stopId == id
    ensures k.Some? ==> forall j :: 0 <= j < k.value ==> stops[j].stopId != id
    ensures k.None? ==> forall j :: 0 <= j < |stops| ==> stops[j].stopId != id
  {
    if stops == [] then None
    else if stops[0].stopId == id then Some(0)
    else
      var rest := FindStop(stops[1..], id);
      if rest.Some? then Some(rest.value + 1) else None
  }

  /** `getDistanceBetweenStops`: `null` when either stop is not on the route, else the distance between them. */
  function GetDistanceBetweenStops(stops: seq<Stop>, id1: string, id2: string,
                                   distanceKm: (real, real, real, real) -> real): (d: Option<real>)
    ensures d.None? <==>
              (forall j :: 0 <= j < |stops| ==> stops[j].stopId != id1) ||
              (forall j :: 0 <= j < |stops| ==> stops[j].stopId != id2)
    ensures d.Some? ==>
              FindStop(stops, id1).Some? && FindStop(stops, id2).Some? &&
              var s1, s2 := stops[FindStop(stops, id1).value], stops[FindStop(stops, id2).value];
              d.value == distanceKm(s1.latitude, s1.longitude, s2.latitude, s2.longitude)
  {
    var k1 := FindStop(stops, id1);
    var k2 := FindStop(stops, id2);
    if k1.None? || k2.None? then None
    else
      var s1, s2 := stops[k1.value], stops[k2.value];
      Some(distanceKm(s1.latitude, s1.longitude, s2.latitude, s2.longitude))
  }

  /** The `totalStops` virtual: the number of stops, or 0 when the stops were not loaded. */
  function TotalStops(stops: Option<seq<Stop>>): (n: nat)
    ensures stops.None? ==> n == 0
    ensures stops.Some? ==> n == |stops.value|
  {
    if stops.Some? then |stops.value| else 0
  }

  /** Some stop of the route lies inside the box (the per-stop reading of the query; see the README). */
  predicate SomeStopInBox(stops: seq<Stop>, latitude: real, longitude: real, latDelta: real, lonDelta: real)
  {
    exists i :: 0 <= i < |stops| && BusModel.InBox(stops[i].latitude, stops[i].longitude, latitude, longitude, latDelta, lonDelta)
  }

  /** `Route.findByArea`: the Active routes with a stop inside the box around the point. */
  function FindByArea(routes: map<string, Route>, latitude: real, longitude: real, radius: Option<real>, lonDelta: real)
    : (r: map<string, Route>)
    ensures forall id :: id in r ==> id in routes && r[id] == routes[id] && r[id].status == Active
    ensures forall id :: id in r ==>
      SomeStopInBox(r[id].stops, latitude, longitude, BusModel.LatitudeDelta(radius), lonDelta)
    ensures forall id ::
      (id in routes && routes[id].status == Active &&
       SomeStopInBox(routes[id].stops, latitude, longitude, BusModel.LatitudeDelta(radius), lonDelta)) ==> id in r
  {
    map id | id in routes && routes[id].status == Active
      && SomeStopInBox(routes[id].stops, latitude, longitude, BusModel.LatitudeDelta(radius), lonDelta)
      :: routes[id]
  }
}
