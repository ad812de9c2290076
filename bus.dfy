/**
 * The bus record of the fleet (the Mongoose schema of `backend/models/Bus.js`):
 * its field bounds, the occupancy classification that the schema's default and
 * its pre-save hook both apply, the two independently stamped "last updated"
 * times, the `occupancyPercentage` and `availableSeats` virtuals, and the two
 * queries that return only Active buses.
 *
 * Seat counts are integers, coordinates and speeds are reals, and dates are
 * integer milliseconds. Ratios are exact rationals here, not IEEE doubles.
 */
module BusModel {
  import opened Common

  datatype OccupancyStatus = Available | NearlyFull | Overcrowded

  datatype BusStatus = Active | Inactive | Maintenance | OutOfService

  datatype Location = Location(latitude: real, longitude: real, lastUpdated: int)

  datatype Occupancy = Occupancy(totalSeats: int, occupiedSeats: int, status: OccupancyStatus, lastUpdated: int)

  datatype Driver = Driver(name: string, phoneNumber: string, licenseNumber: string)

  datatype Bus = Bus(
    id: string,
    busNumber: string,
    routeId: string,
    currentLocation: Location,
    occupancy: Occupancy,
    status: BusStatus,
    driver: Option<Driver>,
    speed: real,
    direction: Option<real>,
    nextStopId: Option<string>,
    estimatedArrival: Option<int>)

  predicate IsSpace(c: char) { c == ' ' || c == '\t' || c == '\n' || c == '\r' }

  /** A string that is not empty once `trim` has run: some character is not white space. */
  predicate HasText(s: string)
  {
    exists i :: 0 <= i < |s| && !IsSpace(s[i])
  }

  /**
   * The schema's validators: a bus number that is not blank and a route id
   * (both `required`), coordinates in range, at least one seat,
   * 0 <= occupied <= total, speed >= 0, bearing in [0, 360].
   */
  predicate SatisfiesSchema(b: Bus)
  {
    && HasText(b.busNumber)
    && b.routeId != ""
    && -90.0 <= b.currentLocation.latitude <= 90.0
    && -180.0 <= b.currentLocation.longitude <= 180.0
    && b.occupancy.totalSeats >= 1
    && 0 <= b.occupancy.occupiedSeats <= b.occupancy.totalSeats
    && b.speed >= 0.0
    && (b.direction.Some? ==> 0.0 <= b.direction.value <= 360.0)
  }

  /** The `occupiedSeats` validator alone: occupied seats may equal, but not exceed, the total. */
  function OccupiedSeatsValidator(occupied: int, total: int): (ok: bool)
    ensures ok <==> occupied <= total
  {
    occupied <= total
  }

  /** The classification of an occupancy rate, as the default and the pre-save hook write it. */
  function StatusOfRate(rate: real): OccupancyStatus
  {
    if rate < 0.7 then Available else if rate < 0.9 then NearlyFull else Overcrowded
  }

  /** `occupiedSeats / totalSeats`, which the schema keeps defined by requiring at least one seat. */
  function OccupancyRate(occupied: int, total: int): real
    requires total >= 1
  {
    occupied as real / total as real
  }

  /** The status that the default and the pre-save hook compute, stated in integers. */
  function Classify(occupied: int, total: int): (s: OccupancyStatus)
    requires total >= 1
    ensures s == Available <==> 10 * occupied < 7 * total
    ensures s == NearlyFull <==> 7 * total <= 10 * occupied < 9 * total
    ensures s == Overcrowded <==> 9 * total <= 10 * occupied
  {
    RateBelow(occupied, total, 7);
    RateBelow(occupied, total, 9);
    StatusOfRate(OccupancyRate(occupied, total))
  }

  /** `occupied / total < k / 10` exactly when `10 * occupied < k * total`. */
  lemma RateBelow(occupied: int, total: int, k: int)
    requires total >= 1
    ensures OccupancyRate(occupied, total) < k as real / 10.0 <==> 10 * occupied < k * total
  {
    var t := total as real;
    var q := OccupancyRate(occupied, total);
    assert q * t == occupied as real;
    if q < k as real / 10.0 {
      assert q * t < (k as real / 10.0) * t;
    } else {
      assert q * t >= (k as real / 10.0) * t;
    }
  }

  /** The status a document has after the schema default ran: the given status, or the classification. */
  function DefaultStatus(given: Option<OccupancyStatus>, occupied: int, total: int): (s: OccupancyStatus)
    requires total >= 1
    ensures given.None? ==> (s == Available <==> 10 * occupied < 7 * total)
    ensures given.None? ==> (s == Overcrowded <==> 9 * total <= 10 * occupied)
    ensures given.Some? ==> s == given.value
  {
    if given.Some? then given.value else Classify(occupied, total)
  }

  /** The stored status agrees with the seat counts. */
  predicate StatusConsistent(b: Bus)
  {
    b.occupancy.totalSeats >= 1 ==> b.occupancy.status == Classify(b.occupancy.occupiedSeats, b.occupancy.totalSeats)
  }

  /** Mongoose's `isModified('occupancy.occupiedSeats') || isModified('occupancy.totalSeats')`: always true for a new document. */
  predicate SeatsModified(stored: Option<Bus>, doc: Bus)
  {
    stored.None?
    || doc.occupancy.occupiedSeats != stored.value.occupancy.occupiedSeats
    || doc.occupancy.totalSeats != stored.value.occupancy.totalSeats
  }

  /** Mongoose's `isModified('currentLocation')`: any of its sub-fields differs from the stored one. */
  predicate LocationModified(stored: Option<Bus>, doc: Bus)
  {
    stored.None? || doc.currentLocation != stored.value.currentLocation
  }

  /**
   * The pre-save hook. `stored` is the document as last loaded (`None` for a new
   * one); the hook runs after validation, so the document has at least one seat.
   */
  function PreSave(stored: Option<Bus>, doc: Bus, now: int): (r: Bus)
    requires doc.occupancy.totalSeats >= 1
    ensures SeatsModified(stored, doc) ==> StatusConsistent(r) && r.occupancy.lastUpdated == now
    ensures !SeatsModified(stored, doc) ==> r.occupancy == doc.occupancy
    ensures LocationModified(stored, doc) ==> r.currentLocation.lastUpdated == now
    ensures r.currentLocation.latitude == doc.currentLocation.latitude
    ensures r.currentLocation.longitude == doc.currentLocation.longitude
    ensures !LocationModified(stored, doc) ==> r.currentLocation == doc.currentLocation
    ensures r.occupancy.totalSeats == doc.occupancy.totalSeats
    ensures r.occupancy.occupiedSeats == doc.occupancy.occupiedSeats
    ensures r.(occupancy := doc.occupancy, currentLocation := doc.currentLocation) == doc
  {
    var occ := doc.occupancy;
    var occ' :=
      if SeatsModified(stored, doc)
      then occ.(status := StatusOfRate(OccupancyRate(occ.occupiedSeats, occ.totalSeats)), lastUpdated := now)
      else occ;
    var loc' :=
      if LocationModified(stored, doc) then doc.currentLocation.(lastUpdated := now) else doc.currentLocation;
    doc.(occupancy := occ', currentLocation := loc')
  }

  /** `document.save()`: the validators run first and refuse the document, then the pre-save hook runs. */
  function Save(stored: Option<Bus>, doc: Bus, now: int): (r: Result<Bus>)
    ensures r.Ok? <==> SatisfiesSchema(doc)
    ensures r.Ok? ==> SatisfiesSchema(r.value) && r.value.id == doc.id
    ensures r.Ok? && SeatsModified(stored, doc) ==> StatusConsistent(r.value)
  {
    if SatisfiesSchema(doc) then Ok(PreSave(stored, doc, now)) else Err(ValidationFailed("bus"))
  }

  /** A save keeps the status consistent with the seat counts whenever the stored document was. */
  lemma SavePreservesConsistency(stored: Bus, doc: Bus, now: int)
    requires StatusConsistent(stored) && SatisfiesSchema(doc)
    requires doc.occupancy.status == stored.occupancy.status
    ensures StatusConsistent(Save(Some(stored), doc, now).value)
  {
  }

  /**
   * The two stamps move independently: saving a location change with unchanged
   * seats keeps the occupancy stamp, and saving a seat change at an unchanged
   * location keeps the location stamp.
   */
  lemma IndependentStamps(stored: Bus, doc: Bus, now: int)
    requires SatisfiesSchema(doc)
    ensures !SeatsModified(Some(stored), doc) ==>
      Save(Some(stored), doc, now).value.occupancy.lastUpdated == doc.occupancy.lastUpdated
    ensures !LocationModified(Some(stored), doc) ==>
      Save(Some(stored), doc, now).value.currentLocation.lastUpdated == stored.currentLocation.lastUpdated
  {
  }

  /** The `availableSeats` virtual. */
  function AvailableSeats(b: Bus): (n: int)
    ensures SatisfiesSchema(b) ==> 0 <= n < b.occupancy.totalSeats + 1
    ensures n + b.occupancy.occupiedSeats == b.occupancy.totalSeats
  {
    b.occupancy.totalSeats - b.occupancy.occupiedSeats
  }

  /** `Math.round(occupied / total * 100)`. */
  function Percentage(occupied: int, total: int): (p: int)
    requires total >= 1
    ensures 0 <= occupied <= total ==> 0 <= p <= 100
  {
    PercentageBounds(occupied, total);
    JsRound(OccupancyRate(occupied, total) * 100.0)
  }

  lemma PercentageBounds(occupied: int, total: int)
    requires total >= 1
    ensures 0 <= occupied <= total ==> 0.0 <= OccupancyRate(occupied, total) * 100.0 <= 100.0
  {
    var q := OccupancyRate(occupied, total);
    assert q * total as real == occupied as real;
    if 0 <= occupied <= total {
      assert 0.0 <= q <= 1.0;
    }
  }

  /** The `occupancyPercentage` virtual. */
  function OccupancyPercentage(b: Bus): (p: int)
    requires b.occupancy.totalSeats >= 1
    ensures SatisfiesSchema(b) ==> 0 <= p <= 100
  {
    Percentage(b.occupancy.occupiedSeats, b.occupancy.totalSeats)
  }

  /** 38 of 40 seats: 95 percent, Overcrowded, 2 seats free. */
  lemma ThirtyEightOfForty()
    ensures Percentage(38, 40) == 95
    ensures Classify(38, 40) == Overcrowded
  {
    assert OccupancyRate(38, 40) * 100.0 == 95.0;
  }

  /** `Bus.findByRoute(routeId)`: the Active buses of the route. */
  function FindByRoute(buses: map<string, Bus>, routeId: string): (r: map<string, Bus>)
    ensures forall id :: id in r <==> id in buses && buses[id].routeId == routeId && buses[id].status == Active
    ensures forall id :: id in r ==> r[id] == buses[id]
  {
    map id | id in buses && buses[id].routeId == routeId && buses[id].status == Active :: buses[id]
  }

  /** The axis-aligned box of `findNearby` and `findByArea`: `centre - delta <= value <= centre + delta` on both axes. */
  predicate InBox(lat: real, lon: real, centreLat: real, centreLon: real, latDelta: real, lonDelta: real)
  {
    centreLat - latDelta <= lat <= centreLat + latDelta && centreLon - lonDelta <= lon <= centreLon + lonDelta
  }

  /** The latitude half-height of the box: `maxDistance / 111000` degrees; `maxDistance` defaults to 5000 metres. */
  function LatitudeDelta(maxDistance: Option<real>): (d: real)
    ensures maxDistance.None? ==> d == 5000.0 / 111000.0
    ensures maxDistance.Some? ==> d * 111000.0 == maxDistance.value
  {
    (if maxDistance.Some? then maxDistance.value else 5000.0) / 111000.0
  }

  /**
   * `Bus.findNearby`: the Active buses inside the box. `lonDelta` is the
   * longitude half-width `maxDistance / (111000 * cos(latitude))`, which is
   * floating-point trigonometry and is supplied by the caller.
   */
  function FindNearby(buses: map<string, Bus>, latitude: real, longitude: real, maxDistance: Option<real>, lonDelta: real)
    : (r: map<string, Bus>)
    ensures forall id :: id in r ==> id in buses && r[id] == buses[id] && r[id].status == Active
    ensures forall id :: id in r ==>
      latitude - LatitudeDelta(maxDistance) <= r[id].currentLocation.latitude <= latitude + LatitudeDelta(maxDistance)
    ensures forall id :: id in r ==>
      longitude - lonDelta <= r[id].currentLocation.longitude <= longitude + lonDelta
    ensures forall id ::
      (id in buses && buses[id].status == Active &&
       InBox(buses[id].currentLocation.latitude, buses[id].currentLocation.longitude,
             latitude, longitude, LatitudeDelta(maxDistance), lonDelta)) ==> id in r
  {
    map id | id in buses && buses[id].status == Active
      && InBox(buses[id].currentLocation.latitude, buses[id].currentLocation.longitude,
               latitude, longitude, LatitudeDelta(maxDistance), lonDelta)
      :: buses[id]
  }
}
