/**
 * The bus handlers of `backend/controllers/busController.js` over the
 * in-memory database: each one looks a document up, fails `NotFound` when it
 * is missing, updates or deletes it, and broadcasts an event.
 *
 * `now` is the clock reading of the request.
 */
module BusController {
  import opened Common
  import opened BusModel
  import RouteModel
  import opened Store

  /** The payload of `bus-location-updated`. */
  function LocationEvent(b: Bus): ServerEvent
  {
    BusLocationUpdated(b.id, b.busNumber, b.routeId, b.currentLocation, b.speed, b.direction)
  }

  /** The payload of `bus-occupancy-updated`, with the two virtuals. */
  function OccupancyEvent(b: Bus): ServerEvent
    requires b.occupancy.totalSeats >= 1
  {
    BusOccupancyUpdated(b.id, b.busNumber, b.occupancy, OccupancyPercentage(b), AvailableSeats(b))
  }

  /**
   * `createBus`. The route must exist; the database draws the fresh id
   * `newId`; the status default applies when no status is given, then the
   * document is validated and the pre-save hook runs, so a created bus always
   * carries the status its seat counts call for.
   */
  method CreateBus(db: Database, newId: string, input: Bus, givenStatus: Option<OccupancyStatus>, now: int)
    returns (r: Result<Bus>)
    requires newId !in db.buses
    modifies db
    ensures db.routes == old(db.routes)
    ensures input.routeId !in db.routes ==> r == Err(NotFound("Route"))
    ensures r.Ok? <==> input.routeId in db.routes && SatisfiesSchema(input)
    ensures r.Err? ==> db.buses == old(db.buses) && db.broadcasts == old(db.broadcasts)
    ensures r.Ok? ==> db.buses == old(db.buses)[newId := r.value]
    ensures r.Ok? ==> db.broadcasts == old(db.broadcasts) + [BusCreated(r.value)]
    ensures r.Ok? ==> r.value.id == newId && SatisfiesSchema(r.value) && StatusConsistent(r.value)
    ensures r.Ok? ==> r.value.occupancy.lastUpdated == now && r.value.currentLocation.lastUpdated == now
    ensures r.Ok? ==> r.value.(id := input.id, occupancy := input.occupancy, currentLocation := input.currentLocation) == input
    ensures old(db.Valid()) ==> db.Valid()
  {
    if input.routeId !in db.routes {
      return Err(NotFound("Route"));
    }
    var doc := input.(id := newId);
    if doc.occupancy.totalSeats >= 1 {
      // The default runs only on a document without a status.
      var status := DefaultStatus(givenStatus, doc.occupancy.occupiedSeats, doc.occupancy.totalSeats);
      doc := doc.(occupancy := doc.occupancy.(status := status));
    }
    r := Save(None, doc, now);
    if r.Ok? {
      db.buses := db.buses[newId := r.value];
      db.broadcasts := db.broadcasts + [BusCreated(r.value)];
    }
  }

  /** The document `updateBusLocation` assigns field by field before saving. */
  function LocationAssigned(b: Bus, latitude: real, longitude: real, speed: Option<real>, direction: Option<real>,
                            occupiedSeats: Option<int>, now: int): Bus
  {
    var b1 := b.(currentLocation := Location(latitude, longitude, now));
    var b2 := if speed.Some? then b1.(speed := speed.value) else b1;
    var b3 := if direction.Some? then b2.(direction := direction) else b2;
    if occupiedSeats.Some?
    then b3.(occupancy := b3.occupancy.(occupiedSeats := occupiedSeats.value, lastUpdated := now))
    else b3
  }

  /**
   * `updateBusLocation`. The position is always overwritten and stamped; speed,
   * direction and occupied seats change only when supplied; the document is
   * saved (validators, then the pre-save hook), and then a location event is
   * broadcast, followed by an occupancy event only when occupied seats were
   * supplied. Reading `routeId._id` of a bus whose route is gone throws after
   * the save, so that request answers 500 with no events.
   */
  method UpdateBusLocation(db: Database, busId: string, latitude: real, longitude: real,
                           speed: Option<real>, direction: Option<real>, occupiedSeats: Option<int>, now: int)
    returns (r: Result<Bus>)
    modifies db
    ensures db.routes == old(db.routes)
    ensures busId !in old(db.buses) ==>
              r == Err(NotFound("Bus")) && db.buses == old(db.buses) && db.broadcasts == old(db.broadcasts)
    ensures busId in old(db.buses) ==>
              (r.Err? && r.error.ValidationFailed? <==>
                 !SatisfiesSchema(LocationAssigned(old(db.buses)[busId], latitude, longitude, speed, direction, occupiedSeats, now)))
    ensures r.Ok? <==>
              busId in old(db.buses)
              && SatisfiesSchema(LocationAssigned(old(db.buses)[busId], latitude, longitude, speed, direction, occupiedSeats, now))
              && old(db.buses)[busId].routeId in old(db.routes)
    ensures r.Err? ==> db.broadcasts == old(db.broadcasts)
    ensures r.Err? && !r.error.ServerError? ==> db.buses == old(db.buses)
    ensures r.Ok? ==> busId in old(db.buses) && db.buses == old(db.buses)[busId := r.value]
    ensures r.Ok? ==> r.value.currentLocation == Location(latitude, longitude, now)
    ensures r.Ok? ==> r.value.speed == if speed.Some? then speed.value else old(db.buses)[busId].speed
    ensures r.Ok? ==> r.value.direction == if direction.Some? then direction else old(db.buses)[busId].direction
    ensures r.Ok? ==> r.value.occupancy.totalSeats == old(db.buses)[busId].occupancy.totalSeats
    ensures r.Ok? ==>
              r.value.occupancy.occupiedSeats ==
              (if occupiedSeats.Some? then occupiedSeats.value else old(db.buses)[busId].occupancy.occupiedSeats)
    ensures r.Ok? ==>
              r.value.occupancy.lastUpdated ==
              (if occupiedSeats.Some? then now else old(db.buses)[busId].occupancy.lastUpdated)
    ensures r.Ok? ==> r.value.(currentLocation := old(db.buses)[busId].currentLocation,
                               speed := old(db.buses)[busId].speed,
                               direction := old(db.buses)[busId].direction,
                               occupancy := old(db.buses)[busId].occupancy) == old(db.buses)[busId]
    ensures r.Ok? && occupiedSeats.Some? && occupiedSeats.value != old(db.buses)[busId].occupancy.occupiedSeats ==>
              StatusConsistent(r.value)
    ensures r.Ok? && StatusConsistent(old(db.buses)[busId]) ==> StatusConsistent(r.value)
    ensures r.Ok? ==>
              r.value.occupancy.totalSeats >= 1 &&
              db.broadcasts == old(db.broadcasts) + [LocationEvent(r.value)] +
                (if occupiedSeats.Some? then [OccupancyEvent(r.value)] else [])
    ensures old(db.Valid()) ==> db.Valid() && (r.Err? ==> !r.error.ServerError?)
  {
    if busId !in db.buses {
      return Err(NotFound("Bus"));
    }
    var stored := db.buses[busId];
    var bus := stored;
    bus := bus.(currentLocation := bus.currentLocation.(latitude := latitude));
    bus := bus.(currentLocation := bus.currentLocation.(longitude := longitude));
    bus := bus.(currentLocation := bus.currentLocation.(lastUpdated := now));
    if speed.Some? {
      bus := bus.(speed := speed.value);
    }
    if direction.Some? {
      bus := bus.(direction := direction);
    }
    if occupiedSeats.Some? {
      bus := bus.(occupancy := bus.occupancy.(occupiedSeats := occupiedSeats.value));
      bus := bus.(occupancy := bus.occupancy.(lastUpdated := now));
    }
    assert bus == LocationAssigned(stored, latitude, longitude, speed, direction, occupiedSeats, now);
    r := Save(Some(stored), bus, now);
    if r.Err? {
      return;
    }
    db.buses := db.buses[busId := r.value];
    if r.value.routeId !in db.routes {
      return Err(ServerError("Cannot read properties of null (reading '_id')"));
    }
    db.broadcasts := db.broadcasts + [LocationEvent(r.value)];
    if occupiedSeats.Some? {
      db.broadcasts := db.broadcasts + [OccupancyEvent(r.value)];
    }
  }

  /** The fields of a bus that the update path below can patch; absent fields are left alone. */
  datatype BusPatch = BusPatch(
    busNumber: Option<string>,
    routeId: Option<string>,
    status: Option<BusStatus>,
    driver: Option<Driver>,
    speed: Option<real>,
    direction: Option<real>,
    nextStopId: Option<string>)

  /**
   * The update validators on the patched fields: a supplied bus number must
   * not be blank once trimmed (`required`), speed >= 0, bearing in [0, 360].
   */
  predicate PatchSatisfiesSchema(p: BusPatch)
  {
    && (p.busNumber.Some? ==> HasText(p.busNumber.value))
    && (p.speed.Some? ==> p.speed.value >= 0.0)
    && (p.direction.Some? ==> 0.0 <= p.direction.value <= 360.0)
  }

  /** The bus after `findByIdAndUpdate` applied the patch: each supplied field replaced, the others kept. */
  function ApplyPatch(b: Bus, p: BusPatch): (r: Bus)
    ensures r.id == b.id && r.occupancy == b.occupancy && r.currentLocation == b.currentLocation
    ensures r.busNumber == if p.busNumber.Some? then p.busNumber.value else b.busNumber
    ensures r.routeId == if p.routeId.Some? then p.routeId.value else b.routeId
    ensures r.status == if p.status.Some? then p.status.value else b.status
    ensures r.driver == if p.driver.Some? then p.driver else b.driver
    ensures r.speed == if p.speed.Some? then p.speed.value else b.speed
    ensures r.direction == if p.direction.Some? then p.direction else b.direction
    ensures r.nextStopId == if p.nextStopId.Some? then p.nextStopId else b.nextStopId
    ensures r.estimatedArrival == b.estimatedArrival
  {
    Bus(b.id,
        if p.busNumber.Some? then p.busNumber.value else b.busNumber,
        if p.routeId.Some? then p.routeId.value else b.routeId,
        b.currentLocation,
        b.occupancy,
        if p.status.Some? then p.status.value else b.status,
        if p.driver.Some? then p.driver else b.driver,
        if p.speed.Some? then p.speed.value else b.speed,
        if p.direction.Some? then p.direction else b.direction,
        if p.nextStopId.Some? then p.nextStopId else b.nextStopId,
        b.estimatedArrival)
  }

  /** An empty patch changes nothing. */
  lemma EmptyPatchIsIdentity(b: Bus)
    ensures ApplyPatch(b, BusPatch(None, None, None, None, None, None, None)) == b
  {
  }

  /**
   * `updateBus`. A new, non-empty route id must name a stored route; the update
   * goes through `findByIdAndUpdate`, which runs the update validators but not
   * the pre-save hook. An empty route id skips the route check and then fails
   * the cast to an ObjectId.
   */
  method UpdateBus(db: Database, id: string, patch: BusPatch) returns (r: Result<Bus>)
    modifies db
    ensures db.routes == old(db.routes)
    ensures id !in old(db.buses) ==> r == Err(NotFound("Bus"))
    ensures id in old(db.buses) && patch.routeId.Some? && patch.routeId.value != ""
            && patch.routeId.value != old(db.buses)[id].routeId && patch.routeId.value !in db.routes ==>
              r == Err(NotFound("Route"))
    ensures r.Ok? <==>
              id in old(db.buses) && patch.routeId != Some("")
              && (patch.routeId.Some? && patch.routeId.value != old(db.buses)[id].routeId ==> patch.routeId.value in db.routes)
              && PatchSatisfiesSchema(patch)
    ensures r.Err? ==> db.buses == old(db.buses) && db.broadcasts == old(db.broadcasts)
    ensures r.Ok? ==> r.value == ApplyPatch(old(db.buses)[id], patch)
    ensures r.Ok? ==> db.buses == old(db.buses)[id := r.value]
    ensures r.Ok? ==> db.broadcasts == old(db.broadcasts) + [BusUpdated(r.value)]
    ensures old(db.Valid()) ==> db.Valid()
  {
    if id !in db.buses {
      return Err(NotFound("Bus"));
    }
    var bus := db.buses[id];
    if patch.routeId.Some? && patch.routeId.value != "" && patch.routeId.value != bus.routeId {
      if patch.routeId.value !in db.routes {
        return Err(NotFound("Route"));
      }
    }
    if patch.routeId == Some("") {
      return Err(ValidationFailed("routeId"));
    }
    if !PatchSatisfiesSchema(patch) {
      var field :=
        if patch.busNumber.Some? && !HasText(patch.busNumber.value) then "busNumber"
        else if patch.speed.Some? && patch.speed.value < 0.0 then "speed"
        else "direction";
      return Err(ValidationFailed(field));
    }
    var updated := ApplyPatch(bus, patch);
    db.buses := db.buses[id := updated];
    db.broadcasts := db.broadcasts + [BusUpdated(updated)];
    r := Ok(updated);
  }

  /** `deleteBus`: removes the bus and broadcasts its id. */
  method DeleteBus(db: Database, id: string) returns (r: Result<string>)
    modifies db
    ensures db.routes == old(db.routes)
    ensures r.Ok? <==> id in old(db.buses)
    ensures r.Err? ==> r.error == NotFound("Bus") && db.buses == old(db.buses) && db.broadcasts == old(db.broadcasts)
    ensures r.Ok? ==> db.buses == old(db.buses) - {id} && db.broadcasts == old(db.broadcasts) + [BusDeleted(id)]
    ensures old(db.Valid()) ==> db.Valid()
  {
    if id !in db.buses {
      return Err(NotFound("Bus"));
    }
    db.buses := db.buses - {id};
    db.broadcasts := db.broadcasts + [BusDeleted(id)];
    r := Ok(id);
  }

  /** The stored spelling of each bus status. */
  function StatusName(s: BusStatus): string
  {
    match s
    case Active => "Active"
    case Inactive => "Inactive"
    case Maintenance => "Maintenance"
    case OutOfService => "Out of Service"
  }

  /** The check `['Active', 'Inactive', 'Maintenance', 'Out of Service'].includes(status)`, returning the status it names. */
  function ParseStatus(s: string): (r: Option<BusStatus>)
    ensures r.Some? <==> s in ["Active", "Inactive", "Maintenance", "Out of Service"]
    ensures r.Some? ==> StatusName(r.value) == s
  {
    if s == "Active" then Some(Active)
    else if s == "Inactive" then Some(Inactive)
    else if s == "Maintenance" then Some(Maintenance)
    else if s == "Out of Service" then Some(OutOfService)
    else None
  }

  /** Every status reads back from its stored spelling. */
  lemma ParseStatusName(s: BusStatus)
    ensures ParseStatus(StatusName(s)) == Some(s)
  {
    match s
    case Active =>
    case Inactive =>
      assert StatusName(s) != "Active";
    case Maintenance =>
      assert StatusName(s) != "Active" && StatusName(s) != "Inactive";
    case OutOfService =>
      assert StatusName(s) != "Active" && StatusName(s) != "Inactive" && StatusName(s) != "Maintenance";
  }

  /**
   * `updateBusStatus`: an unknown status is refused before the store is
   * touched, an unknown id fails `NotFound`; otherwise only the status changes
   * (through `findByIdAndUpdate`, so the pre-save hook does not run).
   */
  method UpdateBusStatus(db: Database, id: string, status: string) returns (r: Result<Bus>)
    modifies db
    ensures db.routes == old(db.routes)
    ensures ParseStatus(status).None? ==> r == Err(BadRequest("Invalid status value"))
    ensures ParseStatus(status).Some? && id !in old(db.buses) ==> r == Err(NotFound("Bus"))
    ensures r.Ok? <==> ParseStatus(status).Some? && id in old(db.buses)
    ensures r.Err? ==> db.buses == old(db.buses) && db.broadcasts == old(db.broadcasts)
    ensures r.Ok? ==> r.value == old(db.buses)[id].(status := ParseStatus(status).value)
    ensures r.Ok? ==> StatusName(r.value.status) == status
    ensures r.Ok? ==> db.buses == old(db.buses)[id := r.value]
    ensures r.Ok? ==> db.broadcasts == old(db.broadcasts) + [BusStatusChanged(id, r.value.busNumber, r.value.status)]
    ensures old(db.Valid()) ==> db.Valid()
  {
    var parsed := ParseStatus(status);
    if parsed.None? {
      return Err(BadRequest("Invalid status value"));
    }
    if id !in db.buses {
      return Err(NotFound("Bus"));
    }
    var bus := db.buses[id].(status := parsed.value);
    db.buses := db.buses[id := bus];
    db.broadcasts := db.broadcasts + [BusStatusChanged(id, bus.busNumber, bus.status)];
    r := Ok(bus);
  }

  /** `getBusesByRoute`: `NotFound` for an unknown route, otherwise exactly the route's Active buses. */
  method GetBusesByRoute(db: Database, routeId: string) returns (r: Result<map<string, Bus>>)
    ensures r.Err? <==> routeId !in db.routes
    ensures r.Err? ==> r.error == NotFound("Route")
    ensures r.Ok? ==> forall id :: id in r.value <==>
              id in db.buses && db.buses[id].routeId == routeId && db.buses[id].status == Active
    ensures r.Ok? ==> forall id :: id in r.value ==> r.value[id] == db.buses[id]
  {
    if routeId !in db.routes {
      return Err(NotFound("Route"));
    }
    r := Ok(FindByRoute(db.buses, routeId));
  }

  /**
   * `parseInt` of the radius: the integer part, truncated toward zero
   * (the query validator has already turned the radius into a number).
   */
  function RadiusMetres(radius: Option<real>): real
  {
    if radius.Some? then Trunc(radius.value) as real else 5000.0
  }

  /**
   * `getNearbyBuses`. The query validator has converted the coordinates to
   * numbers, so `!latitude || !longitude` refuses a missing coordinate and
   * also a coordinate of exactly 0.
   */
  method GetNearbyBuses(db: Database, latitude: Option<real>, longitude: Option<real>, radius: Option<real>,
                        lonDelta: real)
    returns (r: Result<map<string, Bus>>)
    ensures r.Err? <==> latitude.None? || latitude.value == 0.0 || longitude.None? || longitude.value == 0.0
    ensures r.Err? ==> r.error == BadRequest("Latitude and longitude are required")
    ensures r.Ok? ==> forall id :: id in r.value ==> id in db.buses && r.value[id] == db.buses[id]
    ensures r.Ok? ==> forall id :: id in r.value ==> r.value[id].status == Active
    ensures r.Ok? ==> forall id :: id in r.value ==>
              var d := LatitudeDelta(Some(RadiusMetres(radius)));
              latitude.value - d <= r.value[id].currentLocation.latitude <= latitude.value + d
    ensures r.Ok? ==> r.value == FindNearby(db.buses, latitude.value, longitude.value, Some(RadiusMetres(radius)), lonDelta)
    ensures r.Ok? ==> forall id ::
              (id in db.buses && db.buses[id].status == Active &&
               InBox(db.buses[id].currentLocation.latitude, db.buses[id].currentLocation.longitude,
                     latitude.value, longitude.value, LatitudeDelta(Some(RadiusMetres(radius))), lonDelta))
              ==> id in r.value
  {
    if latitude.None? || latitude.value == 0.0 || longitude.None? || longitude.value == 0.0 {
      return Err(BadRequest("Latitude and longitude are required"));
    }
    r := Ok(FindNearby(db.buses, latitude.value, longitude.value, Some(RadiusMetres(radius)), lonDelta));
  }
}
