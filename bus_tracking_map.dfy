/**
 * The client-side state of `BusTrackingMap.tsx`: the positions map from bus
 * id to the latest copy of the bus, filled from the bus list and patched by
 * location and occupancy updates; the marker icon chosen from the occupancy
 * status; and the polyline through the selected route's stops.
 */
module BusTrackingMap {
  import opened Common
  import opened Sorting
  import opened BusModel
  import RouteModel

  /** A bus as the client holds it; the optional fields may be absent in the JSON. */
  datatype ClientBus = ClientBus(
    id: string,
    busNumber: string,
    currentLocation: Location,
    occupancy: Occupancy,
    status: BusStatus,
    speed: Option<real>,
    direction: Option<real>,
    occupancyPercentage: Option<int>,
    availableSeats: Option<int>)

  datatype LocationUpdate = LocationUpdate(busId: string, location: Location, speed: Option<real>, direction: Option<real>)

  datatype OccupancyUpdate = OccupancyUpdate(busId: string, occupancy: Occupancy, occupancyPercentage: int, availableSeats: int)

  /** JavaScript truthiness of an optional number: absent and zero are falsy. */
  predicate Truthy(x: Option<real>)
  {
    x.Some? && x.value != 0.0
  }

  /** `a || b` on optional numbers. */
  function OrElse(a: Option<real>, b: Option<real>): (r: Option<real>)
    ensures Truthy(a) ==> r == a
    ensures !Truthy(a) ==> r == b
  {
    if Truthy(a) then a else b
  }

  /** The map the initialisation builds: keyed by id, a later bus with the same id replacing an earlier one. */
  function KeyById(buses: seq<ClientBus>): (m: map<string, ClientBus>)
    ensures forall id :: id in m <==> exists i :: 0 <= i < |buses| && buses[i].id == id
  {
    if buses == [] then map[]
    else
      var last := buses[|buses| - 1];
      var m := KeyById(buses[..|buses| - 1]);
      assert forall i :: 0 <= i < |buses| - 1 ==> buses[..|buses| - 1][i] == buses[i];
      m[last.id := last]
  }

  /** The entry for an id is the last bus in the list carrying it. */
  lemma {:induction false} LastDuplicateWins(buses: seq<ClientBus>, i: int)
    requires 0 <= i < |buses|
    requires forall j :: i < j < |buses| ==> buses[j].id != buses[i].id
    ensures buses[i].id in KeyById(buses) && KeyById(buses)[buses[i].id] == buses[i]
  {
    if i < |buses| - 1 {
      var prefix := buses[..|buses| - 1];
      LastDuplicateWins(prefix, i);
    }
  }

  /** `createBusIcon`: the marker's colour and its size and border in pixels. */
  datatype BusIcon = BusIcon(color: string, size: int, borderWidth: int)

  /**
   * The marker for a bus: its occupancy status picks green, amber or red
   * (never the blue fallback); a selected marker is 24 px with a 3 px border,
   * others 18 and 2.
   */
  function CreateBusIcon(status: OccupancyStatus, isSelected: bool): (icon: BusIcon)
    ensures icon.color == "#10b981" <==> status == Available
    ensures icon.color == "#f59e0b" <==> status == NearlyFull
    ensures icon.color == "#ef4444" <==> status == Overcrowded
    ensures icon.color != "#3b82f6"
    ensures isSelected <==> icon.size == 24
    ensures icon.size == (if isSelected then 24 else 18) && icon.borderWidth == (if isSelected then 3 else 2)
  {
    var color :=
      match status
      case Available => "#10b981"
      case NearlyFull => "#f59e0b"
      case Overcrowded => "#ef4444";
    BusIcon(color, if isSelected then 24 else 18, if isSelected then 3 else 2)
  }

  class MapState {
    var positions: map<string, ClientBus>

    constructor()
      ensures positions == map[]
    {
      positions := map[];
    }

    /** The effect on `buses`: a fresh map filled with `forEach` and `set`. */
    method Init(buses: seq<ClientBus>)
      modifies this
      ensures positions == KeyById(buses)
    {
      var m: map<string, ClientBus> := map[];
      var i := 0;
      while i < |buses|
        invariant 0 <= i <= |buses|
        invariant m == KeyById(buses[..i])
      {
        assert buses[..i + 1][..i] == buses[..i];
        m := m[buses[i].id := buses[i]];
        i := i + 1;
      }
      assert buses[..i] == buses;
      positions := m;
    }

    /**
     * `handleBusLocationUpdate`: a known bus gets the new location, and the
     * new speed and direction unless they are falsy; nothing else changes.
     */
    method LocationUpdated(data: LocationUpdate)
      modifies this
      ensures data.busId !in old(positions) ==> positions == old(positions)
      ensures data.busId in old(positions) ==>
                positions == old(positions)[data.busId := old(positions)[data.busId].(
                  currentLocation := data.location,
                  speed := OrElse(data.speed, old(positions)[data.busId].speed),
                  direction := OrElse(data.direction, old(positions)[data.busId].direction))]
      ensures positions.Keys == old(positions).Keys
    {
      var updated := positions;
      if data.busId in updated {
        var existing := updated[data.busId];
        updated := updated[data.busId := existing.(currentLocation := data.location,
                                                   speed := OrElse(data.speed, existing.speed),
                                                   direction := OrElse(data.direction, existing.direction))];
      }
      positions := updated;
    }

    /** `handleBusOccupancyUpdate`: a known bus gets the occupancy and the two derived numbers. */
    method OccupancyUpdated(data: OccupancyUpdate)
      modifies this
      ensures data.busId !in old(positions) ==> positions == old(positions)
      ensures data.busId in old(positions) ==>
                positions == old(positions)[data.busId := old(positions)[data.busId].(
                  occupancy := data.occupancy,
                  occupancyPercentage := Some(data.occupancyPercentage),
                  availableSeats := Some(data.availableSeats))]
      ensures positions.Keys == old(positions).Keys
    {
      var updated := positions;
      if data.busId in updated {
        var existing := updated[data.busId];
        updated := updated[data.busId := existing.(occupancy := data.occupancy,
                                                   occupancyPercentage := Some(data.occupancyPercentage),
                                                   availableSeats := Some(data.availableSeats))];
      }
      positions := updated;
    }
  }

  /** A reported speed of 0 leaves the old speed in place. */
  lemma ZeroSpeedIgnored(old_: ClientBus, location: Location)
    ensures var update := LocationUpdate(old_.id, location, Some(0.0), None);
            OrElse(update.speed, old_.speed) == old_.speed
  {
  }

  /**
   * `routeCoordinates`: the selected route's stops sorted by order in place
   * (the route object itself is reordered), then their coordinates; no route
   * gives no line.
   */
  method RouteCoordinates(selected: Option<array<RouteModel.Stop>>) returns (coords: seq<(real, real)>)
    modifies if selected.Some? then {selected.value} else {}
    ensures selected.None? ==> coords == []
    ensures selected.Some? ==> selected.value[..] == SortBy(old(selected.value[..]), RouteModel.StopOrder)
    ensures selected.Some? ==> |coords| == selected.value.Length
    ensures selected.Some? ==>
              forall i :: 0 <= i < |coords| ==> coords[i] == (selected.value[i].latitude, selected.value[i].longitude)
  {
    if selected.None? {
      return [];
    }
    var stops := selected.value;
    SortInPlace(stops, RouteModel.StopOrder);
    coords := seq(stops.Length, i reads stops requires 0 <= i < stops.Length => (stops[i].latitude, stops[i].longitude));
  }

  /** The polyline visits the stops in ascending order and visits each stop of the route once. */
  lemma PolylineOrder(stops: seq<RouteModel.Stop>)
    ensures SortedBy(SortBy(stops, RouteModel.StopOrder), RouteModel.StopOrder)
    ensures multiset(SortBy(stops, RouteModel.StopOrder)) == multiset(stops)
  {
    SortBySorted(stops, RouteModel.StopOrder);
    SortByPermutes(stops, RouteModel.StopOrder);
  }
}
