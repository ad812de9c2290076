/**
 * The motion simulator of `backend/scripts/simulateRealTime.js`: one step
 * moves a bus a little toward the stop after its closest one, perturbs its
 * occupancy and speed with time-of-day bias, and writes the result with
 * `findByIdAndUpdate`; `start` and `stop` register and clear the timers.
 *
 * Each `Math.random()` draw is a parameter in [0, 1), `getHours()` is the
 * parameter `hour`, the great-circle distance is `distanceKm` and the bearing
 * is `bearing`. Timers are numbered handles in a table of live timers.
 */
module Simulator {
  import opened Common
  import opened BusModel
  import RouteModel
  import Store

  /** The seat counts `simulateOccupancyChange` returns (it carries no status). */
  datatype SeatUpdate = SeatUpdate(totalSeats: int, occupiedSeats: int, lastUpdated: int)

  /** A bus as the simulator holds it: the document with its route populated (`null` when the route is gone). */
  datatype SimBus = SimBus(bus: Bus, stops: Option<seq<RouteModel.Stop>>)

  predicate IsRushHour(hour: int)
  {
    (7 <= hour <= 9) || (17 <= hour <= 20)
  }

  predicate IsNight(hour: int)
  {
    hour >= 22 || hour <= 5
  }

  function Min(a: int, b: int): int { if a <= b then a else b }

  function Max(a: int, b: int): int { if a >= b then a else b }

  function MinR(a: real, b: real): real { if a <= b then a else b }

  function MaxR(a: real, b: real): real { if a >= b then a else b }

  /** `Math.floor(Math.random() * 14) - 5`: a change of -5 to +8 passengers. */
  function BaseChange(draw: real): (c: int)
    requires 0.0 <= draw < 1.0
    ensures -5 <= c <= 8
  {
    ScaledDraw(draw, 14) - 5
  }

  /**
   * `simulateOccupancyChange`: the base change clamped to [0, total], then in
   * rush hours up to four more passengers (capped at the total), and at night
   * 30 % of the result, rounded down.
   */
  function SimulateOccupancyChange(occupied: int, total: int, draw1: real, draw2: real, hour: int, now: int)
    : (r: SeatUpdate)
    requires 0.0 <= draw1 < 1.0 && 0.0 <= draw2 < 1.0
    ensures r.totalSeats == total && r.lastUpdated == now
    ensures total >= 0 ==> 0 <= r.occupiedSeats <= total
    ensures IsRushHour(hour) && total >= 0 ==>
              var clamped := Max(0, Min(total, occupied + BaseChange(draw1)));
              && clamped <= r.occupiedSeats <= Min(total, clamped + 4)
              && r.occupiedSeats == Min(total, clamped + ScaledDraw(draw2, 5))
    ensures IsNight(hour) && total >= 0 ==>
              var clamped := Max(0, Min(total, occupied + BaseChange(draw1)));
              && r.occupiedSeats <= clamped
              && r.occupiedSeats as real <= clamped as real * 0.3 < r.occupiedSeats as real + 1.0
    ensures !IsRushHour(hour) && !IsNight(hour) ==> r.occupiedSeats == Max(0, Min(total, occupied + BaseChange(draw1)))
  {
    var n1 := Max(0, Min(total, occupied + BaseChange(draw1)));
    var n2 := if IsRushHour(hour) then Min(total, n1 + ScaledDraw(draw2, 5)) else n1;
    var n3 := if IsNight(hour) then Max(0, (n2 as real * 0.3).Floor) else n2;
    SeatUpdate(total, n3, now)
  }

  /** No hour is both a rush hour and a night hour, so the two adjustments never compound. */
  lemma RushAndNightDisjoint(hour: int)
    ensures !(IsRushHour(hour) && IsNight(hour))
    ensures IsRushHour(hour) ==> 7 <= hour <= 20
  {
  }

  /**
   * `simulateSpeedChange`: a variation of -10 to +10 km/h, clamped to
   * [0, 60]; at most 25 in rush hours; between 15 and 40 at night; rounded.
   */
  function SimulateSpeedChange(current: real, draw: real, hour: int): (s: int)
    requires 0.0 <= draw < 1.0
    ensures 0 <= s <= 60
    ensures IsRushHour(hour) ==> s <= 25
    ensures IsNight(hour) ==> 15 <= s <= 40
    ensures !IsRushHour(hour) && !IsNight(hour) && 0.0 <= current <= 60.0 ==>
              current - 10.5 <= s as real <= current + 10.5
  {
    var variation := (draw - 0.5) * 20.0;
    var s1 := MaxR(0.0, MinR(60.0, current + variation));
    var s2 := if IsRushHour(hour) then MinR(25.0, s1) else s1;
    var s3 := if IsNight(hour) then MinR(40.0, MaxR(15.0, s2)) else s2;
    JsRound(s3)
  }

  /** Stop `k` is the first of the closest: no stop is nearer, and every earlier one is farther. */
  predicate IsFirstMinimum(ds: seq<real>, k: int)
  {
    && 0 <= k < |ds|
    && (forall j :: 0 <= j < |ds| ==> ds[k] <= ds[j])
    && (forall j :: 0 <= j < k ==> ds[j] > ds[k])
  }

  /** There is only one first closest stop. */
  lemma FirstMinimumUnique(ds: seq<real>, k1: int, k2: int)
    requires IsFirstMinimum(ds, k1) && IsFirstMinimum(ds, k2)
    ensures k1 == k2
  {
    assert ds[k1] <= ds[k2] && ds[k2] <= ds[k1];
  }

  /** The distance from the bus to each stop, in stop order. */
  function DistancesTo(latitude: real, longitude: real, stops: seq<RouteModel.Stop>,
                       distanceKm: (real, real, real, real) -> real): (ds: seq<real>)
    ensures |ds| == |stops|
  {
    seq(|stops|, i requires 0 <= i < |stops| => distanceKm(latitude, longitude, stops[i].latitude, stops[i].longitude))
  }

  /** The `forEach` of `calculateNextPosition`: a strict `<` keeps the first of equally close stops. */
  method ClosestStop(ds: seq<real>) returns (k: nat)
    requires |ds| >= 1
    ensures IsFirstMinimum(ds, k)
  {
    k := 0;
    var minDistance := ds[0];
    var i := 1;
    while i < |ds|
      invariant 1 <= i <= |ds| && k < i
      invariant minDistance == ds[k]
      invariant forall j :: 0 <= j < i ==> ds[k] <= ds[j]
      invariant forall j :: 0 <= j < k ==> ds[j] > ds[k]
    {
      if ds[i] < minDistance {
        minDistance := ds[i];
        k := i;
      }
      i := i + 1;
    }
  }

  /** A step of `progressDraw * 0.1` of the way from `loc` to `target`, plus a jitter of up to 0.0005 degrees on each axis. */
  function StepToward(loc: Location, target: RouteModel.Stop, progressDraw: real, latDraw: real, lngDraw: real,
                      now: int): Location
  {
    Location(loc.latitude + (target.latitude - loc.latitude) * (progressDraw * 0.1) + (latDraw - 0.5) * 0.001,
             loc.longitude + (target.longitude - loc.longitude) * (progressDraw * 0.1) + (lngDraw - 0.5) * 0.001,
             now)
  }

  /**
   * What `calculateNextPosition` returns: the old location when the route is
   * missing or has fewer than two stops; otherwise a step toward the stop
   * after the first closest one, wrapping to the first stop.
   */
  ghost predicate IsNextPosition(loc: Location, stops: Option<seq<RouteModel.Stop>>,
                                 distanceKm: (real, real, real, real) -> real,
                                 progressDraw: real, latDraw: real, lngDraw: real, now: int, next: Location)
  {
    if stops.None? || |stops.value| < 2 then next == loc
    else exists k :: IsFirstMinimum(DistancesTo(loc.latitude, loc.longitude, stops.value, distanceKm), k)
                     && next == StepToward(loc, stops.value[(k + 1) % |stops.value|], progressDraw, latDraw, lngDraw, now)
  }

  /** The next position is determined by its inputs: there is one first closest stop, hence one target. */
  lemma NextPositionUnique(loc: Location, stops: Option<seq<RouteModel.Stop>>,
                           distanceKm: (real, real, real, real) -> real,
                           progressDraw: real, latDraw: real, lngDraw: real, now: int, n1: Location, n2: Location)
    requires IsNextPosition(loc, stops, distanceKm, progressDraw, latDraw, lngDraw, now, n1)
    requires IsNextPosition(loc, stops, distanceKm, progressDraw, latDraw, lngDraw, now, n2)
    ensures n1 == n2
  {
    if stops.Some? && |stops.value| >= 2 {
      var ds := DistancesTo(loc.latitude, loc.longitude, stops.value, distanceKm);
      var k1 :| IsFirstMinimum(ds, k1)
                && n1 == StepToward(loc, stops.value[(k1 + 1) % |stops.value|], progressDraw, latDraw, lngDraw, now);
      var k2 :| IsFirstMinimum(ds, k2)
                && n2 == StepToward(loc, stops.value[(k2 + 1) % |stops.value|], progressDraw, latDraw, lngDraw, now);
      FirstMinimumUnique(ds, k1, k2);
    }
  }

  /** `calculateNextPosition`, with the closest stop found by the `forEach` loop. */
  method CalculateNextPosition(loc: Location, stops: Option<seq<RouteModel.Stop>>,
                               distanceKm: (real, real, real, real) -> real,
                               progressDraw: real, latDraw: real, lngDraw: real, now: int)
    returns (next: Location)
    requires 0.0 <= progressDraw < 1.0 && 0.0 <= latDraw < 1.0 && 0.0 <= lngDraw < 1.0
    ensures IsNextPosition(loc, stops, distanceKm, progressDraw, latDraw, lngDraw, now, next)
    ensures stops.None? || |stops.value| < 2 ==> next == loc
  {
    if stops.None? || |stops.value| < 2 {
      return loc;
    }
    var route := stops.value;
    var ds := DistancesTo(loc.latitude, loc.longitude, route, distanceKm);
    var closest := ClosestStop(ds);
    var target := route[(closest + 1) % |route|];
    var progress := progressDraw * 0.1;
    var newLat := loc.latitude + (target.latitude - loc.latitude) * progress;
    var newLng := loc.longitude + (target.longitude - loc.longitude) * progress;
    next := Location(newLat + (latDraw - 0.5) * 0.001, newLng + (lngDraw - 0.5) * 0.001, now);
    assert next == StepToward(loc, target, progressDraw, latDraw, lngDraw, now);
  }

  /** The stop after the last one is the first one: `(closest + 1) % n` wraps around. */
  lemma TargetWraps(n: nat, k: nat)
    requires 2 <= n && k < n
    ensures (k + 1) % n == if k == n - 1 then 0 else k + 1
    ensures (k + 1) % n != k
  {
  }

  /** The occupancy `findByIdAndUpdate` stores: the new seat counts and stamp, the status as it was. */
  function WrittenOccupancy(old_: Occupancy, seats: SeatUpdate): Occupancy
  {
    Occupancy(seats.totalSeats, seats.occupiedSeats, old_.status, seats.lastUpdated)
  }

  /**
   * The simulator writes occupancy without the pre-save hook, so the stored
   * status can fall out of step: an empty 40-seat bus that gains 30
   * passengers keeps the status Available, though 30 of 40 is Nearly Full.
   */
  lemma SimulatorSkipsStatus(b: Bus, now: int)
    requires b.occupancy == Occupancy(40, 0, Available, 0)
    ensures StatusConsistent(b)
    ensures !StatusConsistent(b.(occupancy := WrittenOccupancy(b.occupancy, SeatUpdate(40, 30, now))))
  {
    assert Classify(0, 40) == Available;
    assert Classify(30, 40) == NearlyFull;
  }

  class BusSimulator {
    var buses: seq<SimBus>
    var isRunning: bool
    var intervals: seq<nat>
    /** The runtime's table of live timers, and the next handle it will hand out. */
    var live: set<nat>
    var nextTimer: nat

    /** Every registered timer is live and recorded, no timer leaks, and a stopped simulator holds none. */
    ghost predicate Valid()
      reads this
    {
      && (forall t :: t in live <==> t in intervals)
      && (forall t :: t in intervals ==> t < nextTimer)
      && (!isRunning ==> intervals == [])
    }

    /** The constructor: no buses, not running, no timers. */
    constructor()
      ensures buses == [] && !isRunning && intervals == [] && live == {}
      ensures Valid()
    {
      buses := [];
      isRunning := false;
      intervals := [];
      live := {};
      nextTimer := 0;
    }

    /**
     * `initialize` (after connecting): every Active bus of the store, once
     * each, with its route's stops populated (`null` when the route is gone).
     */
    method Load(db: Store.Database)
      modifies this
      ensures forall i :: 0 <= i < |buses| ==>
                && buses[i].bus.id in db.buses && db.buses[buses[i].bus.id] == buses[i].bus
                && buses[i].bus.status == Active
                && buses[i].stops == (if buses[i].bus.routeId in db.routes
                                      then Some(db.routes[buses[i].bus.routeId].stops) else None)
      ensures forall i, j :: 0 <= i < j < |buses| ==> buses[i].bus.id != buses[j].bus.id
      ensures forall id :: id in db.buses && db.buses[id].status == Active && db.buses[id].id == id ==>
                exists i :: 0 <= i < |buses| && buses[i].bus.id == id
      ensures isRunning == old(isRunning) && intervals == old(intervals) && live == old(live)
      ensures nextTimer == old(nextTimer)
      ensures old(Valid()) ==> Valid()
    {
      var active := set id | id in db.buses && db.buses[id].status == Active && db.buses[id].id == id;
      var remaining := active;
      var loaded: seq<SimBus> := [];
      ghost var ids: seq<string> := [];
      while remaining != {}
        invariant remaining <= active
        invariant forall i :: 0 <= i < |loaded| ==>
                    && loaded[i].bus.id in active && loaded[i].bus.id !in remaining
                    && db.buses[loaded[i].bus.id] == loaded[i].bus
                    && loaded[i].stops == (if loaded[i].bus.routeId in db.routes
                                           then Some(db.routes[loaded[i].bus.routeId].stops) else None)
        invariant forall i, j :: 0 <= i < j < |loaded| ==> loaded[i].bus.id != loaded[j].bus.id
        invariant |ids| == |loaded| && forall i :: 0 <= i < |loaded| ==> ids[i] == loaded[i].bus.id
        invariant forall id :: id in active && id !in remaining ==> id in ids
        decreases |remaining|
      {
        var id :| id in remaining;
        var bus := db.buses[id];
        var stops := if bus.routeId in db.routes then Some(db.routes[bus.routeId].stops) else None;
        loaded := loaded + [SimBus(bus, stops)];
        ids := ids + [id];
        remaining := remaining - {id};
      }
      buses := loaded;
      forall id | id in db.buses && db.buses[id].status == Active && db.buses[id].id == id
        ensures exists i :: 0 <= i < |buses| && buses[i].bus.id == id
      {
        assert id in active && id !in remaining;
        assert id in ids;
        var i :| 0 <= i < |ids| && ids[i] == id;
        assert buses[i].bus.id == id;
      }
    }

    /** `setInterval`: a fresh handle, now live. */
    method Register() returns (t: nat)
      modifies this
      ensures t == old(nextTimer) && nextTimer == old(nextTimer) + 1
      ensures live == old(live) + {t}
      ensures buses == old(buses) && isRunning == old(isRunning) && intervals == old(intervals)
    {
      t := nextTimer;
      nextTimer := nextTimer + 1;
      live := live + {t};
    }

    /**
     * `start`: a no-op while running; otherwise it sets the running flag and
     * registers one timer per bus and then the status-report timer.
     */
    method Start()
      requires Valid()
      modifies this
      ensures Valid()
      ensures old(isRunning) ==> isRunning && intervals == old(intervals) && live == old(live)
      ensures !old(isRunning) ==> isRunning && |intervals| == |buses| + 1
      ensures !old(isRunning) ==> forall i :: 0 <= i < |intervals| ==> intervals[i] == old(nextTimer) + i
      ensures buses == old(buses)
    {
      if isRunning {
        return;
      }
      isRunning := true;
      var k := 0;
      while k < |buses|
        invariant 0 <= k <= |buses| && |intervals| == k && isRunning
        invariant nextTimer == old(nextTimer) + k
        invariant forall i :: 0 <= i < k ==> intervals[i] == old(nextTimer) + i
        invariant forall t :: t in live <==> t in intervals
        invariant buses == old(buses)
      {
        var t := Register();
        intervals := intervals + [t];
        k := k + 1;
      }
      var status := Register();
      intervals := intervals + [status];
    }

    /**
     * `stop`: a no-op when not running; otherwise it clears every recorded
     * timer, empties the list and lowers the flag, leaving no live timer.
     */
    method Stop()
      requires Valid()
      modifies this
      ensures Valid()
      ensures !old(isRunning) ==> intervals == old(intervals) && live == old(live)
      ensures !isRunning && intervals == [] && live == {}
      ensures buses == old(buses)
    {
      if !isRunning {
        assert forall t :: t !in live;
        assert live == {};
        return;
      }
      isRunning := false;
      var i := 0;
      while i < |intervals|
        invariant 0 <= i <= |intervals|
        invariant forall t :: t in live <==> t in old(live) && t !in intervals[..i]
        invariant buses == old(buses) && intervals == old(intervals) && !isRunning
      {
        live := live - {intervals[i]};
        i := i + 1;
      }
      assert intervals[..i] == intervals;
      assert forall t :: t !in live;
      assert live == {};
      intervals := [];
    }

    /** The callback of a bus's timer: one `updateBus` while the simulator runs, nothing once stopped. */
    method Tick(db: Store.Database, index: nat, distanceKm: (real, real, real, real) -> real,
                draws: seq<real>, hour: int, now: int, bearing: real)
      requires index < |buses|
      requires |draws| == 7 && forall i :: 0 <= i < 7 ==> 0.0 <= draws[i] < 1.0
      modifies this, db
      ensures !old(isRunning) ==> buses == old(buses) && db.buses == old(db.buses)
      ensures isRunning == old(isRunning) && intervals == old(intervals) && live == old(live)
      ensures |buses| == |old(buses)| && db.routes == old(db.routes) && db.broadcasts == old(db.broadcasts)
    {
      if isRunning {
        UpdateBus(db, index, distanceKm, draws, hour, now, bearing);
      }
    }

    /**
     * `updateBus` for the bus at `index`: the new position, with a 20 % chance
     * new seat counts, a new speed from the old one (0 counting as 25) and the
     * rounded bearing, written to the store without validators or the
     * pre-save hook (a missing document is skipped silently) and to the local
     * copy.
     */
    method UpdateBus(db: Store.Database, index: nat, distanceKm: (real, real, real, real) -> real,
                     draws: seq<real>, hour: int, now: int, bearing: real)
      requires index < |buses|
      requires |draws| == 7 && forall i :: 0 <= i < 7 ==> 0.0 <= draws[i] < 1.0
      modifies this, db
      ensures isRunning == old(isRunning) && intervals == old(intervals) && live == old(live)
      ensures nextTimer == old(nextTimer)
      ensures |buses| == |old(buses)|
      ensures forall i :: 0 <= i < |buses| && i != index ==> buses[i] == old(buses)[i]
      ensures db.routes == old(db.routes) && db.broadcasts == old(db.broadcasts)
      ensures var b := old(buses)[index].bus;
              var n := buses[index].bus;
              && buses[index].stops == old(buses)[index].stops
              && n == b.(currentLocation := n.currentLocation, occupancy := n.occupancy, speed := n.speed,
                         direction := Some(JsRound(bearing) as real))
              && n.occupancy.status == b.occupancy.status
              && (draws[3] >= 0.2 ==> n.occupancy == b.occupancy)
              && IsNextPosition(b.currentLocation, old(buses)[index].stops, distanceKm, draws[0], draws[1], draws[2], now,
                                n.currentLocation)
              && (draws[3] < 0.2 ==>
                    n.occupancy == WrittenOccupancy(b.occupancy,
                                     SimulateOccupancyChange(b.occupancy.occupiedSeats, b.occupancy.totalSeats,
                                                             draws[4], draws[5], hour, now))
                    && (b.occupancy.totalSeats >= 0 ==> 0 <= n.occupancy.occupiedSeats <= b.occupancy.totalSeats))
              && n.speed == SimulateSpeedChange(if b.speed != 0.0 then b.speed else 25.0, draws[6], hour) as real
              && 0.0 <= n.speed <= 60.0
      ensures var b := old(buses)[index].bus;
              b.id in old(db.buses) ==> db.buses == old(db.buses)[b.id := old(db.buses)[b.id].(
                currentLocation := buses[index].bus.currentLocation,
                occupancy := if draws[3] >= 0.2 then b.occupancy
                             else WrittenOccupancy(old(db.buses)[b.id].occupancy,
                                    SimulateOccupancyChange(b.occupancy.occupiedSeats, b.occupancy.totalSeats,
                                                            draws[4], draws[5], hour, now)),
                speed := buses[index].bus.speed,
                direction := Some(JsRound(bearing) as real))]
      ensures old(buses)[index].bus.id !in old(db.buses) ==> db.buses == old(db.buses)
      ensures old(db.Valid()) ==> db.Valid()
    {
      var sim := buses[index];
      var bus := sim.bus;
      var newLocation := CalculateNextPosition(bus.currentLocation, sim.stops, distanceKm, draws[0], draws[1], draws[2], now);
      var seats := SimulateOccupancyChange(bus.occupancy.occupiedSeats, bus.occupancy.totalSeats,
                                           draws[4], draws[5], hour, now);
      var newOccupancy := if draws[3] < 0.2 then WrittenOccupancy(bus.occupancy, seats) else bus.occupancy;
      var newSpeed := SimulateSpeedChange(if bus.speed != 0.0 then bus.speed else 25.0, draws[6], hour);
      var direction := JsRound(bearing);
      if bus.id in db.buses {
        var stored := db.buses[bus.id];
        var occupancyWritten := if draws[3] < 0.2 then WrittenOccupancy(stored.occupancy, seats) else newOccupancy;
        db.buses := db.buses[bus.id := stored.(currentLocation := newLocation, occupancy := occupancyWritten,
                                               speed := newSpeed as real, direction := Some(direction as real))];
      }
      bus := bus.(currentLocation := newLocation, occupancy := newOccupancy, speed := newSpeed as real,
                  direction := Some(direction as real));
      buses := buses[index := sim.(bus := bus)];
    }
  }
}
