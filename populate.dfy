/**
 * The seed-bus generator of `backend/scripts/populateData.js`: for each of
 * `count` buses it picks a stop to start near, draws seat counts, a bus
 * number, stamps, a status, a driver, a speed, a direction and a next stop.
 * Every `Math.random()` draw is a field of `BusDraws`, and `Date.now()` is `now`.
 */
module Populate {
  import opened Common
  import opened BusModel
  import RouteModel

  /** The record `generateBusesForRoute` pushes (before Mongoose adds an id and defaults). */
  datatype SeedBus = SeedBus(
    busNumber: string,
    routeId: string,
    currentLocation: Location,
    totalSeats: int,
    occupiedSeats: int,
    occupancyStamp: int,
    status: BusStatus,
    driver: Driver,
    speed: int,
    direction: int,
    nextStopId: string)

  /** The draws of one iteration, in the order the source makes them. */
  datatype BusDraws = BusDraws(
    stop: real, latitude: real, longitude: real, seats: real, occupied: real, number: real,
    locationAge: real, occupancyAge: real, status: real, driver: real, phone: real,
    license: real, speed: real, direction: real, nextStop: real)

  predicate IsDraw(r: real) { 0.0 <= r < 1.0 }

  predicate DrawsValid(d: BusDraws)
  {
    && IsDraw(d.stop) && IsDraw(d.latitude) && IsDraw(d.longitude) && IsDraw(d.seats)
    && IsDraw(d.occupied) && IsDraw(d.number) && IsDraw(d.locationAge) && IsDraw(d.occupancyAge)
    && IsDraw(d.status) && IsDraw(d.driver) && IsDraw(d.phone) && IsDraw(d.license)
    && IsDraw(d.speed) && IsDraw(d.direction) && IsDraw(d.nextStop)
  }

  const DriverNames: seq<string> := ["Rajesh Kumar", "Suresh Reddy", "Venkat Rao", "Mahesh Singh", "Prakash Sharma"]

  /**
   * `String.fromCharCode(n)`: the UTF-16 code unit `n mod 65536`. Dafny
   * characters are Unicode scalar values, so a lone surrogate becomes U+FFFD.
   */
  function CharCode(n: nat): (c: char)
    ensures n < 0xD800 ==> c as int == n
  {
    var unit := n % 0x1_0000;
    if 0xD800 <= unit < 0xE000 then '�' else unit as char
  }

  function Pow10(k: nat): (p: nat)
    ensures p >= 1
  {
    if k == 0 then 1 else 10 * Pow10(k - 1)
  }

  /** A number from 10^(k-1) up to 10^k - 1 is written with exactly k digits. */
  lemma {:induction false} DigitCount(n: nat, k: nat)
    requires k >= 1 && Pow10(k - 1) <= n < Pow10(k)
    ensures |DecimalString(n)| == k
    decreases k
  {
    if k == 1 {
      assert n < 10;
    } else {
      assert n >= 10;
      assert Pow10(k - 2) <= n / 10 < Pow10(k - 1);
      DigitCount(n / 10, k - 1);
      assert DecimalString(n) == DecimalString(n / 10) + [DigitChar(n % 10)];
    }
  }

  lemma ProductNonNegative(a: real, b: real)
    requires a >= 0.0 && b >= 0.0
    ensures a * b >= 0.0
  {
  }

  /** `new Date(now - draw * span)`: a stamp up to `span` milliseconds in the past. */
  function BackDated(now: int, draw: real, span: nat): (t: int)
    requires IsDraw(draw)
    ensures now - span <= t <= now
  {
    var x := now as real - draw * span as real;
    ProductNonNegative(1.0 - draw, span as real);
    ProductNonNegative(draw, span as real);
    assert now as real - span as real <= x <= now as real;
    Trunc(x)
  }

  /** A position within 0.005 degrees of `stop` on each axis. */
  function Near(stop: RouteModel.Stop, latDraw: real, lngDraw: real, stamp: int): (l: Location)
    requires IsDraw(latDraw) && IsDraw(lngDraw)
    ensures l.latitude - 0.005 < stop.latitude <= l.latitude + 0.005
    ensures l.longitude - 0.005 < stop.longitude <= l.longitude + 0.005
    ensures l.lastUpdated == stamp
  {
    Location(stop.latitude + (latDraw - 0.5) * 0.01, stop.longitude + (lngDraw - 0.5) * 0.01, stamp)
  }

  /** The template `TS07U${letter}${letter}${number}`. */
  function BusNumber(routeIndex: nat, i: nat, draw: real): (n: string)
    requires IsDraw(draw)
    ensures |n| > 5 && n[..5] == "TS07U"
  {
    "TS07U" + [CharCode(65 + routeIndex), CharCode(65 + i)] + DecimalString(ScaledDraw(draw, 900) + 100)
  }

  /** One of the five names, a `+91` phone number and an `AP` licence number. */
  function SeedDriver(nameDraw: real, phoneDraw: real, licenseDraw: real): (dr: Driver)
    requires IsDraw(nameDraw) && IsDraw(phoneDraw) && IsDraw(licenseDraw)
    ensures dr.name in DriverNames
  {
    Driver(DriverNames[ScaledDraw(nameDraw, 5)],
           "+91" + DecimalString(ScaledDraw(phoneDraw, 9000000000) + 1000000000),
           "AP" + DecimalString(ScaledDraw(licenseDraw, 900000) + 100000))
  }

  /** One iteration of the loop: the `i`-th bus of the route with index `routeIndex`. */
  function SeedBusFor(routeId: string, stops: seq<RouteModel.Stop>, routeIndex: nat, i: nat,
                      d: BusDraws, now: int): (b: SeedBus)
    requires |stops| > 0 && DrawsValid(d)
    ensures b.routeId == routeId
    ensures 30 <= b.totalSeats <= 49
    ensures 0 <= b.occupiedSeats < b.totalSeats
    ensures 10 <= b.speed <= 49 && 0 <= b.direction <= 359
    ensures exists j :: 0 <= j < |stops| && stops[j].stopId == b.nextStopId
    ensures exists j :: 0 <= j < |stops| &&
              b.currentLocation.latitude - 0.005 < stops[j].latitude <= b.currentLocation.latitude + 0.005 &&
              b.currentLocation.longitude - 0.005 < stops[j].longitude <= b.currentLocation.longitude + 0.005
    ensures now - 300000 <= b.currentLocation.lastUpdated <= now
    ensures now - 600000 <= b.occupancyStamp <= now
    ensures b.status == Active <==> d.status > 0.1
    ensures b.status == Active || b.status == Inactive
    ensures b.driver.name in DriverNames
  {
    var s := ScaledDraw(d.stop, |stops|);
    var total := ScaledDraw(d.seats, 20) + 30;
    var next := ScaledDraw(d.nextStop, |stops|);
    SeedBus(BusNumber(routeIndex, i, d.number), routeId,
            Near(stops[s], d.latitude, d.longitude, BackDated(now, d.locationAge, 300000)),
            total, ScaledDraw(d.occupied, total), BackDated(now, d.occupancyAge, 600000),
            if d.status > 0.1 then Active else Inactive,
            SeedDriver(d.driver, d.phone, d.license),
            ScaledDraw(d.speed, 40) + 10, ScaledDraw(d.direction, 360),
            stops[next].stopId)
  }

  /**
   * The bus number is `TS07U`, the route letter, the bus letter and three
   * digits, ten characters in all; the phone number is `+91` and ten digits,
   * the licence `AP` and six digits.
   */
  lemma SeedIdentifiers(routeId: string, stops: seq<RouteModel.Stop>, routeIndex: nat, i: nat,
                        d: BusDraws, now: int)
    requires |stops| > 0 && DrawsValid(d)
    requires routeIndex < 26 && i < 26
    ensures var b := SeedBusFor(routeId, stops, routeIndex, i, d, now);
            && |b.busNumber| == 10 && b.busNumber[..5] == "TS07U"
            && 'A' <= b.busNumber[5] <= 'Z' && b.busNumber[5] as int - 65 == routeIndex
            && 'A' <= b.busNumber[6] <= 'Z' && b.busNumber[6] as int - 65 == i
            && (forall k :: 7 <= k < 10 ==> IsDigit(b.busNumber[k]))
            && |b.driver.phoneNumber| == 13 && b.driver.phoneNumber[..3] == "+91"
            && |b.driver.licenseNumber| == 8 && b.driver.licenseNumber[..2] == "AP"
  {
    var n := ScaledDraw(d.number, 900) + 100;
    ThreeDigits(n);
    var phone := ScaledDraw(d.phone, 9000000000) + 1000000000;
    assert Pow10(9) == 1000000000 && Pow10(10) == 10000000000;
    DigitCount(phone, 10);
    var license := ScaledDraw(d.license, 900000) + 100000;
    assert Pow10(5) == 100000 && Pow10(6) == 1000000;
    DigitCount(license, 6);
    var b := SeedBusFor(routeId, stops, routeIndex, i, d, now);
    assert b.busNumber == "TS07U" + [CharCode(65 + routeIndex), CharCode(65 + i)] + DecimalString(n);
    assert b.driver.phoneNumber == "+91" + DecimalString(phone);
    assert b.driver.licenseNumber == "AP" + DecimalString(license);
  }

  /** The document `Bus.create` builds from a seed record: the status default fills in the occupancy status. */
  function ToBus(id: string, s: SeedBus): (b: Bus)
    ensures b.id == id && b.routeId == s.routeId && b.busNumber == s.busNumber
    ensures b.occupancy.totalSeats == s.totalSeats && b.occupancy.occupiedSeats == s.occupiedSeats
  {
    Bus(id, s.busNumber, s.routeId, s.currentLocation,
        Occupancy(s.totalSeats, s.occupiedSeats,
                  if s.totalSeats >= 1 then DefaultStatus(None, s.occupiedSeats, s.totalSeats) else Available,
                  s.occupancyStamp),
        s.status, Some(s.driver), s.speed as real, Some(s.direction as real), Some(s.nextStopId), None)
  }

  /**
   * Every seed bus near a stop within the coordinate bounds passes the Bus
   * schema, and `Bus.create` runs the pre-save hook, which restamps both
   * `lastUpdated` fields with the creation time: the back-dated stamps the
   * generator draws never reach the store.
   */
  lemma SeedBusSaves(id: string, routeId: string, stops: seq<RouteModel.Stop>, routeIndex: nat, i: nat,
                     d: BusDraws, now: int)
    requires |stops| > 0 && DrawsValid(d) && routeId != ""
    requires forall j :: 0 <= j < |stops| ==>
               -89.995 <= stops[j].latitude <= 89.995 && -179.995 <= stops[j].longitude <= 179.995
    ensures var doc := ToBus(id, SeedBusFor(routeId, stops, routeIndex, i, d, now));
            && Save(None, doc, now).Ok?
            && StatusConsistent(Save(None, doc, now).value)
            && Save(None, doc, now).value.currentLocation.lastUpdated == now
            && Save(None, doc, now).value.occupancy.lastUpdated == now
  {
    var b := SeedBusFor(routeId, stops, routeIndex, i, d, now);
    var j :| 0 <= j < |stops| &&
              b.currentLocation.latitude - 0.005 < stops[j].latitude <= b.currentLocation.latitude + 0.005 &&
              b.currentLocation.longitude - 0.005 < stops[j].longitude <= b.currentLocation.longitude + 0.005;
    assert b.busNumber[..5] == "TS07U";
    assert !IsSpace(b.busNumber[0]);
    assert SatisfiesSchema(ToBus(id, b));
  }

  /**
   * `generateBusesForRoute`: `count` seed buses, the `i`-th from the `i`-th
   * draws. With no stops the first iteration reads a stop of an empty array
   * and throws; that is the error case.
   */
  method GenerateBusesForRoute(routeId: string, stops: seq<RouteModel.Stop>, count: nat, routeIndex: nat,
                               draws: seq<BusDraws>, now: int)
    returns (r: Result<seq<SeedBus>>)
    requires |draws| == count && forall i :: 0 <= i < count ==> DrawsValid(draws[i])
    ensures r.Err? <==> count > 0 && |stops| == 0
    ensures r.Ok? ==> |r.value| == count
    ensures r.Ok? ==> forall i :: 0 <= i < count ==> r.value[i] == SeedBusFor(routeId, stops, routeIndex, i, draws[i], now)
    ensures r.Ok? ==> forall i :: 0 <= i < count ==> r.value[i].routeId == routeId
  {
    if count > 0 && |stops| == 0 {
      return Err(ServerError("Cannot read properties of undefined (reading 'coordinates')"));
    }
    var buses: seq<SeedBus> := [];
    var i := 0;
    while i < count
      invariant 0 <= i <= count && |buses| == i
      invariant forall k :: 0 <= k < i ==> buses[k] == SeedBusFor(routeId, stops, routeIndex, k, draws[k], now)
    {
      buses := buses + [SeedBusFor(routeId, stops, routeIndex, i, draws[i], now)];
      i := i + 1;
    }
    r := Ok(buses);
  }
}
