/**
 * The route handlers of `backend/controllers/routeController.js` over the
 * in-memory database: the stop uniqueness checks of create and update, the
 * delete guard, and the per-stop arrival ranking.
 */
module RouteController {
  import opened Common
  import opened Sorting
  import BusModel
  import opened RouteModel
  import opened Store

  /** `[...new Set(xs)]` as a set: the distinct values of `xs`. */
  function ValuesOf<T>(xs: seq<T>): (s: set<T>)
    ensures forall i :: 0 <= i < |xs| ==> xs[i] in s
    ensures forall x :: x in s ==> exists i :: 0 <= i < |xs| && xs[i] == x
  {
    if xs == [] then {} else ValuesOf(xs[..|xs| - 1]) + {xs[|xs| - 1]}
  }

  predicate PairwiseDistinct<T(==)>(xs: seq<T>)
  {
    forall i, j :: 0 <= i < j < |xs| ==> xs[i] != xs[j]
  }

  /** The check `xs.length === new Set(xs).size` holds exactly when no value repeats. */
  lemma {:induction false} DistinctIffNoCollapse<T>(xs: seq<T>)
    ensures |ValuesOf(xs)| <= |xs|
    ensures |ValuesOf(xs)| == |xs| <==> PairwiseDistinct(xs)
  {
    if xs != [] {
      var init, last := xs[..|xs| - 1], xs[|xs| - 1];
      DistinctIffNoCollapse(init);
      if last in ValuesOf(init) {
        var i :| 0 <= i < |init| && init[i] == last;
        assert xs[i] == xs[|xs| - 1];
        assert ValuesOf(xs) == ValuesOf(init);
      } else {
        assert |ValuesOf(xs)| == |ValuesOf(init)| + 1;
        if PairwiseDistinct(init) {
          forall i, j | 0 <= i < j < |xs| ensures xs[i] != xs[j] {
            if j < |xs| - 1 {
              assert xs[i] == init[i] && xs[j] == init[j];
            } else {
              assert xs[i] == init[i];
            }
          }
        }
        if PairwiseDistinct(xs) {
          assert forall i, j :: 0 <= i < j < |init| ==> init[i] == xs[i] && init[j] == xs[j];
        }
      }
    }
  }

  /** `stops.map(stop => stop.order)`. */
  function Orders(stops: seq<Stop>): (r: seq<int>)
    ensures |r| == |stops| && forall i :: 0 <= i < |stops| ==> r[i] == stops[i].order
  {
    seq(|stops|, i requires 0 <= i < |stops| => stops[i].order)
  }

  /** `stops.map(stop => stop.stopId)`. */
  function StopIds(stops: seq<Stop>): (r: seq<string>)
    ensures |r| == |stops| && forall i :: 0 <= i < |stops| ==> r[i] == stops[i].stopId
  {
    seq(|stops|, i requires 0 <= i < |stops| => stops[i].stopId)
  }

  /**
   * The two uniqueness checks of `createRoute` and `updateRoute`, orders first:
   * the error they raise, or `None` when both pass.
   */
  function CheckStops(stops: seq<Stop>): (e: Option<Error>)
    ensures e.None? <==> PairwiseDistinct(Orders(stops)) && PairwiseDistinct(StopIds(stops))
    ensures e == Some(BadRequest("Stop orders must be unique")) <==> !PairwiseDistinct(Orders(stops))
    ensures e == Some(BadRequest("Stop IDs must be unique")) <==>
              PairwiseDistinct(Orders(stops)) && !PairwiseDistinct(StopIds(stops))
  {
    DistinctIffNoCollapse(Orders(stops));
    DistinctIffNoCollapse(StopIds(stops));
    if |Orders(stops)| != |ValuesOf(Orders(stops))| then Some(BadRequest("Stop orders must be unique"))
    else if |StopIds(stops)| != |ValuesOf(StopIds(stops))| then Some(BadRequest("Stop IDs must be unique"))
    else None
  }

  /** Two stops sharing order 1 are refused for their orders, even when their ids also repeat. */
  lemma OrderCheckComesFirst(a: Stop, b: Stop)
    requires a.order == b.order
    ensures CheckStops([a, b]) == Some(BadRequest("Stop orders must be unique"))
  {
    assert Orders([a, b])[0] == Orders([a, b])[1];
  }

  /**
   * `createRoute`: the uniqueness checks, then `Route.create`, which validates
   * the document and runs the pre-save hook, so a created route's stops are
   * sorted by order. The database draws the fresh id `newId`.
   */
  method CreateRoute(db: Database, newId: string, doc: Route) returns (r: Result<Route>)
    requires newId !in db.routes
    modifies db
    ensures db.buses == old(db.buses) && db.broadcasts == old(db.broadcasts)
    ensures CheckStops(doc.stops).Some? ==> r == Err(CheckStops(doc.stops).value)
    ensures r.Ok? <==> CheckStops(doc.stops).None? && RouteSatisfiesSchema(doc)
    ensures r.Err? ==> db.routes == old(db.routes)
    ensures r.Ok? ==> db.routes == old(db.routes)[newId := r.value]
    ensures r.Ok? ==> r.value.id == newId && SortedBy(r.value.stops, StopOrder)
    ensures r.Ok? ==> r.value.stops == SortBy(doc.stops, StopOrder)
    ensures r.Ok? ==> r.value.(stops := doc.stops, id := doc.id) == doc
    ensures old(db.Valid()) ==> db.Valid()
  {
    var e := CheckStops(doc.stops);
    if e.Some? {
      return Err(e.value);
    }
    if !RouteSatisfiesSchema(doc) {
      return Err(ValidationFailed("route"));
    }
    var saved := PreSave(None, doc.(id := newId));
    db.routes := db.routes[newId := saved];
    r := Ok(saved);
  }

  /** The fields of a route an update can carry; absent fields are left alone. */
  datatype RoutePatch = RoutePatch(
    routeName: Option<string>,
    routeNumber: Option<string>,
    description: Option<string>,
    stops: Option<seq<Stop>>,
    totalDistance: Option<real>,
    estimatedDuration: Option<real>,
    operatingStart: Option<string>,
    operatingEnd: Option<string>,
    frequency: Option<real>,
    fare: Option<Fare>,
    status: Option<RouteStatus>,
    routeType: Option<RouteType>,
    color: Option<string>)

  /**
   * The update validators: each supplied field must meet its schema rule; a
   * supplied route name or number must not be blank once trimmed (`required`).
   */
  predicate PatchSatisfiesSchema(p: RoutePatch)
  {
    && (p.routeName.Some? ==> BusModel.HasText(p.routeName.value))
    && (p.routeNumber.Some? ==> BusModel.HasText(p.routeNumber.value))
    && (p.stops.Some? ==> forall i :: 0 <= i < |p.stops.value| ==> StopSatisfiesSchema(p.stops.value[i]))
    && (p.totalDistance.Some? ==> p.totalDistance.value >= 0.0)
    && (p.estimatedDuration.Some? ==> p.estimatedDuration.value >= 1.0)
    && (p.operatingStart.Some? ==> Patterns.MatchesTimePattern(p.operatingStart.value))
    && (p.operatingEnd.Some? ==> Patterns.MatchesTimePattern(p.operatingEnd.value))
    && (p.frequency.Some? ==> p.frequency.value >= 1.0)
    && (p.fare.Some? ==> p.fare.value.adult >= 0.0)
    && (p.color.Some? ==> Patterns.IsHexColor(p.color.value))
  }

  function Pick<T>(o: Option<T>, d: T): (r: T)
    ensures o.Some? ==> r == o.value
    ensures o.None? ==> r == d
  {
    if o.Some? then o.value else d
  }

  /** The route after `findByIdAndUpdate` applied the patch. */
  function ApplyPatch(r: Route, p: RoutePatch): (u: Route)
    ensures u.id == r.id
    ensures u.stops == if p.stops.Some? then p.stops.value else r.stops
    ensures u.status == if p.status.Some? then p.status.value else r.status
    ensures u.fare == if p.fare.Some? then p.fare.value else r.fare
    ensures u.color == if p.color.Some? then p.color.value else r.color
    ensures u.routeName == if p.routeName.Some? then p.routeName.value else r.routeName
    ensures u.routeNumber == if p.routeNumber.Some? then p.routeNumber.value else r.routeNumber
    ensures u.description == if p.description.Some? then p.description else r.description
    ensures u.totalDistance == if p.totalDistance.Some? then p.totalDistance.value else r.totalDistance
    ensures u.estimatedDuration == if p.estimatedDuration.Some? then p.estimatedDuration.value else r.estimatedDuration
    ensures u.operatingStart == if p.operatingStart.Some? then p.operatingStart.value else r.operatingStart
    ensures u.operatingEnd == if p.operatingEnd.Some? then p.operatingEnd.value else r.operatingEnd
    ensures u.frequency == if p.frequency.Some? then p.frequency.value else r.frequency
    ensures u.routeType == if p.routeType.Some? then p.routeType.value else r.routeType
  {
    Route(r.id,
          Pick(p.routeName, r.routeName),
          Pick(p.routeNumber, r.routeNumber),
          if p.description.Some? then p.description else r.description,
          Pick(p.stops, r.stops),
          Pick(p.totalDistance, r.totalDistance),
          Pick(p.estimatedDuration, r.estimatedDuration),
          Pick(p.operatingStart, r.operatingStart),
          Pick(p.operatingEnd, r.operatingEnd),
          Pick(p.frequency, r.frequency),
          Pick(p.fare, r.fare),
          Pick(p.status, r.status),
          Pick(p.routeType, r.routeType),
          Pick(p.color, r.color))
  }

  /** Applying the same update twice stores what applying it once does. */
  lemma ApplyPatchIdempotent(r: Route, p: RoutePatch)
    ensures ApplyPatch(ApplyPatch(r, p), p) == ApplyPatch(r, p)
  {
  }

  /**
   * `updateRoute`: `NotFound` for an unknown id; the uniqueness checks only
   * when stops are supplied; then `findByIdAndUpdate`, which runs the update
   * validators but not the pre-save hook, so supplied stops are stored in the
   * order given, unsorted.
   */
  method UpdateRoute(db: Database, id: string, patch: RoutePatch) returns (r: Result<Route>)
    modifies db
    ensures db.buses == old(db.buses) && db.broadcasts == old(db.broadcasts)
    ensures id !in old(db.routes) ==> r == Err(NotFound("Route"))
    ensures id in old(db.routes) && patch.stops.Some? && CheckStops(patch.stops.value).Some? ==>
              r == Err(CheckStops(patch.stops.value).value)
    ensures r.Ok? <==>
              id in old(db.routes) && (patch.stops.Some? ==> CheckStops(patch.stops.value).None?)
              && PatchSatisfiesSchema(patch)
    ensures r.Err? ==> db.routes == old(db.routes)
    ensures r.Ok? ==> db.routes == old(db.routes)[id := r.value]
    ensures r.Ok? ==> r.value == ApplyPatch(old(db.routes)[id], patch)
    ensures old(db.Valid()) ==> db.Valid()
  {
    if id !in db.routes {
      return Err(NotFound("Route"));
    }
    if patch.stops.Some? {
      var e := CheckStops(patch.stops.value);
      if e.Some? {
        return Err(e.value);
      }
    }
    if !PatchSatisfiesSchema(patch) {
      return Err(ValidationFailed("route"));
    }
    var updated := ApplyPatch(db.routes[id], patch);
    db.routes := db.routes[id := updated];
    r := Ok(updated);
  }

  /** Some stored bus refers to the route: `Bus.countDocuments({ routeId }) > 0`. */
  predicate HasAssignedBuses(buses: map<string, BusModel.Bus>, routeId: string)
  {
    exists id :: id in buses && buses[id].routeId == routeId
  }

  /**
   * `deleteRoute`: `NotFound` for an unknown id; refused, with the route
   * kept, while any bus refers to it; otherwise the route is removed. The
   * guard is what keeps every bus's route reference valid.
   */
  method DeleteRoute(db: Database, id: string) returns (r: Result<string>)
    modifies db
    ensures db.buses == old(db.buses) && db.broadcasts == old(db.broadcasts)
    ensures id !in old(db.routes) ==> r == Err(NotFound("Route"))
    ensures id in old(db.routes) && HasAssignedBuses(db.buses, id) ==>
              r == Err(BadRequest("Cannot delete route with assigned buses"))
    ensures r.Ok? <==> id in old(db.routes) && !HasAssignedBuses(db.buses, id)
    ensures r.Err? ==> db.routes == old(db.routes)
    ensures r.Ok? ==> db.routes == old(db.routes) - {id}
    ensures old(db.Valid()) ==> db.Valid()
  {
    if id !in db.routes {
      return Err(NotFound("Route"));
    }
    if HasAssignedBuses(db.buses, id) {
      return Err(BadRequest("Cannot delete route with assigned buses"));
    }
    db.routes := db.routes - {id};
    r := Ok(id);
  }

  /** One bus's entry in a stop's arrival list. */
  datatype BusArrival = BusArrival(busNumber: string, estimatedArrival: int, distance: real)

  /** One stop's entry in the arrivals response. */
  datatype StopArrivals = StopArrivals(stopId: string, stopName: string, latitude: real, longitude: real,
                                       buses: seq<BusArrival>)

  /**
   * `new Date(now + (distance / 30) * 60 * 60000)`: at the assumed 30 km/h a
   * kilometre takes two minutes, and the date truncates to whole milliseconds.
   */
  function EstimatedArrival(now: int, distance: real): (t: int)
    ensures distance >= 0.0 ==> t >= now
    ensures now >= 0 && distance >= 0.0 ==> t as real <= now as real + distance * 120000.0 < t as real + 1.0
  {
    assert (distance / 30.0) * 60.0 * 60000.0 == distance * 120000.0;
    Trunc(now as real + (distance / 30.0) * 60.0 * 60000.0)
  }

  /** A bus 10 km from a stop is due 20 minutes from now. */
  lemma TenKilometresTwentyMinutes(now: int)
    ensures EstimatedArrival(now, 10.0) == now + 20 * 60000
  {
    assert now as real + (10.0 / 30.0) * 60.0 * 60000.0 == (now + 1200000) as real;
  }

  /** `Math.round(distance * 100) / 100`: the distance to two decimals. */
  function RoundedDistance(distance: real): (d: real)
    ensures distance - 0.005 < d <= distance + 0.005
  {
    var n := JsRound(distance * 100.0);
    assert n as real - 0.5 <= distance * 100.0 < n as real + 0.5;
    n as real / 100.0
  }

  function ArrivalKey(a: BusArrival): int
  {
    a.estimatedArrival
  }

  /** `buses.map(...)` for one stop: the arrival entry of every listed bus, in list order. */
  function ArrivalsAt(buses: seq<BusModel.Bus>, stop: Stop, now: int,
                      distanceKm: (real, real, real, real) -> real): (r: seq<BusArrival>)
    ensures |r| == |buses|
    ensures forall i :: 0 <= i < |buses| ==>
              var d := distanceKm(buses[i].currentLocation.latitude, buses[i].currentLocation.longitude,
                                  stop.latitude, stop.longitude);
              && r[i].busNumber == buses[i].busNumber
              && r[i].estimatedArrival == EstimatedArrival(now, d)
              && r[i].distance == RoundedDistance(d)
  {
    seq(|buses|, i requires 0 <= i < |buses| =>
      var d := distanceKm(buses[i].currentLocation.latitude, buses[i].currentLocation.longitude,
                          stop.latitude, stop.longitude);
      BusArrival(buses[i].busNumber, EstimatedArrival(now, d), RoundedDistance(d)))
  }

  /**
   * The result of `Bus.find({ routeId, status: 'Active' })`: every Active bus
   * of the route exactly once, in an order the database chooses.
   */
  method ActiveBusesOf(buses: map<string, BusModel.Bus>, routeId: string) returns (found: seq<BusModel.Bus>, ids: seq<string>)
    ensures |found| == |ids| && PairwiseDistinct(ids)
    ensures forall id :: id in ids <==> id in BusModel.FindByRoute(buses, routeId)
    ensures forall i :: 0 <= i < |ids| ==> ids[i] in buses && found[i] == buses[ids[i]]
  {
    var matching := BusModel.FindByRoute(buses, routeId);
    var remaining := matching.Keys;
    found, ids := [], [];
    while remaining != {}
      invariant |found| == |ids| && PairwiseDistinct(ids)
      invariant forall id :: id in ids ==> id !in remaining
      invariant forall id :: id in matching <==> id in ids || id in remaining
      invariant forall i :: 0 <= i < |ids| ==> ids[i] in buses && found[i] == buses[ids[i]]
      decreases |remaining|
    {
      var id :| id in remaining;
      found, ids := found + [buses[id]], ids + [id];
      remaining := remaining - {id};
    }
  }

  /** `busArrivals.sort((a, b) => a.estimatedArrival - b.estimatedArrival)`, in place on an array. */
  method RankArrivals(arrivals: seq<BusArrival>) returns (ranked: seq<BusArrival>)
    ensures ranked == SortBy(arrivals, ArrivalKey)
  {
    var a := new BusArrival[|arrivals|](i requires 0 <= i < |arrivals| => arrivals[i]);
    assert a[..] == arrivals;
    SortInPlace(a, ArrivalKey);
    ranked := a[..];
  }

  /**
   * `getRouteArrivals`: `NotFound` for an unknown route; otherwise one entry
   * per stop in the route's stop order, each ranking the route's Active buses
   * (returned in `found`) by estimated arrival.
   */
  method GetRouteArrivals(db: Database, id: string, now: int, distanceKm: (real, real, real, real) -> real)
    returns (r: Result<seq<StopArrivals>>, found: seq<BusModel.Bus>, ids: seq<string>)
    ensures r.Err? <==> id !in db.routes
    ensures r.Err? ==> r.error == NotFound("Route")
    ensures |found| == |ids| && PairwiseDistinct(ids)
    ensures r.Ok? ==> forall bid :: bid in ids <==> bid in BusModel.FindByRoute(db.buses, id)
    ensures forall i :: 0 <= i < |ids| ==> ids[i] in db.buses && found[i] == db.buses[ids[i]]
    ensures r.Ok? ==> |r.value| == |db.routes[id].stops|
    ensures r.Ok? ==> forall k :: 0 <= k < |r.value| ==>
              var stop := db.routes[id].stops[k];
              && r.value[k].stopId == stop.stopId && r.value[k].stopName == stop.name
              && r.value[k].buses == SortBy(ArrivalsAt(found, stop, now, distanceKm), ArrivalKey)
  {
    if id !in db.routes {
      return Err(NotFound("Route")), [], [];
    }
    var route := db.routes[id];
    found, ids := ActiveBusesOf(db.buses, id);
    var result: seq<StopArrivals> := [];
    var k := 0;
    while k < |route.stops|
      invariant 0 <= k <= |route.stops| && |result| == k
      invariant forall j :: 0 <= j < k ==>
                  && result[j].stopId == route.stops[j].stopId && result[j].stopName == route.stops[j].name
                  && result[j].buses == SortBy(ArrivalsAt(found, route.stops[j], now, distanceKm), ArrivalKey)
    {
      var stop := route.stops[k];
      var ranked := RankArrivals(ArrivalsAt(found, stop, now, distanceKm));
      result := result + [StopArrivals(stop.stopId, stop.name, stop.latitude, stop.longitude, ranked)];
      k := k + 1;
    }
    r := Ok(result);
  }

  /**
   * What the ranking promises for each stop: the list is ascending by
   * estimated arrival, holds each listed bus's entry exactly once, and keeps
   * buses due at the same moment in the order the database returned them.
   */
  lemma ArrivalRanking(found: seq<BusModel.Bus>, stop: Stop, now: int, distanceKm: (real, real, real, real) -> real, t: int)
    ensures SortedBy(SortBy(ArrivalsAt(found, stop, now, distanceKm), ArrivalKey), ArrivalKey)
    ensures multiset(SortBy(ArrivalsAt(found, stop, now, distanceKm), ArrivalKey))
         == multiset(ArrivalsAt(found, stop, now, distanceKm))
    ensures Filter(SortBy(ArrivalsAt(found, stop, now, distanceKm), ArrivalKey), KeyIs(ArrivalKey, t))
         == Filter(ArrivalsAt(found, stop, now, distanceKm), KeyIs(ArrivalKey, t))
  {
    var arrivals := ArrivalsAt(found, stop, now, distanceKm);
    SortBySorted(arrivals, ArrivalKey);
    SortByPermutes(arrivals, ArrivalKey);
    SortByStable(arrivals, ArrivalKey, t);
  }
}
