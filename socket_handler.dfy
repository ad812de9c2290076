/**
 * The real-time broadcast router of `backend/socket/socketHandler.js`. Each
 * connection has a user (or none) and a set of rooms; `join` and `leave` are
 * set insertion and removal. What the server sends is recorded as a multiset
 * of deliveries (connection, event): one emit reaches each of its targets
 * once, and the same connection may be reached by several emits.
 *
 * Token verification and the user lookup are replaced by their outcome
 * `lookup`; clock readings are parameters; numbers are rendered to text by
 * the parameter `show`.
 */
module SocketHandler {
  import opened Common
  import BusModel

  datatype Role = Passenger | Admin | Driver | Operator

  datatype User = User(id: string, name: string, role: Role, isActive: bool)

  datatype Connection = Connection(user: Option<User>, rooms: set<string>)

  /** `service-alert` payloads. */
  datatype Alert = Alert(id: string, kind: string, message: string, severity: string, timestamp: int,
                         sender: string, routeId: Option<string>, busId: Option<string>)

  /** The socket's own `bus-occupancy-updated` payload. */
  datatype OccupancyPayload = OccupancyPayload(busId: string, totalSeats: int, occupiedSeats: int,
                                               status: BusModel.OccupancyStatus, occupancyPercentage: Percent,
                                               availableSeats: int, timestamp: int)

  /** The data the emit helpers forward: the ids they route on, and the rest of the fields as text. */
  datatype HelperData = HelperData(busId: string, routeId: string, fields: map<string, string>)

  datatype ClientEvent =
    | SubscriptionConfirmed(kind: string, id: string, message: string)
    | LocationShared(busId: string, latitude: real, longitude: real, speed: Option<real>, direction: Option<real>,
                     timestamp: int)
    | OccupancyShared(payload: OccupancyPayload)
    | ServiceAlert(alert: Alert)
    | Pong(timestamp: int)
    | Forwarded(name: string, data: HelperData)

  datatype Delivery = Delivery(to: string, event: ClientEvent)

  /** `Math.round(occupied / total * 100)` as a JavaScript number: finite, an infinity, or NaN when dividing by zero. */
  datatype Percent = Finite(value: int) | PlusInfinity | MinusInfinity | NotANumber

  function RouteRoom(id: string): string { "route_" + id }

  function BusRoom(id: string): string { "bus_" + id }

  function UserRoom(id: string): string { "user_" + id }

  /** Room names never collide: each prefix keeps its ids apart, and the three kinds are disjoint. */
  lemma RoomNamesDistinct(a: string, b: string)
    ensures RouteRoom(a) == RouteRoom(b) <==> a == b
    ensures BusRoom(a) == BusRoom(b) <==> a == b
    ensures UserRoom(a) == UserRoom(b) <==> a == b
    ensures RouteRoom(a) != BusRoom(b) && RouteRoom(a) != UserRoom(b) && BusRoom(a) != UserRoom(b)
  {
    if RouteRoom(a) == RouteRoom(b) {
      assert a == RouteRoom(a)[6..] && b == RouteRoom(b)[6..];
    }
    if BusRoom(a) == BusRoom(b) {
      assert a == BusRoom(a)[4..] && b == BusRoom(b)[4..];
    }
    if UserRoom(a) == UserRoom(b) {
      assert a == UserRoom(a)[5..] && b == UserRoom(b)[5..];
    }
    assert RouteRoom(a)[0] == 'r' && BusRoom(b)[0] == 'b' && UserRoom(b)[0] == 'u';
    assert BusRoom(a)[0] == 'b';
  }

  /**
   * `authenticateSocket`: a connection with a token whose user was found and
   * is active is authenticated; anything else, including a failed
   * verification, leaves it anonymous. It never refuses the connection.
   */
  function Authenticate(token: Option<string>, lookup: Option<User>): (u: Option<User>)
    ensures u.Some? <==> token.Some? && token.value != "" && lookup.Some? && lookup.value.isActive
    ensures u.Some? ==> u == lookup
  {
    if token.Some? && token.value != "" && lookup.Some? && lookup.value.isActive then lookup else None
  }

  /** The roles allowed to share a location or an occupancy. */
  predicate MayReport(u: Option<User>)
  {
    u.Some? && u.value.role in {Driver, Admin, Operator}
  }

  /** The roles allowed to send alerts. */
  predicate MayAlert(u: Option<User>)
  {
    u.Some? && u.value.role in {Admin, Operator}
  }

  /** Everyone who may alert may also report; a passenger may do neither. */
  lemma RoleHierarchy(u: Option<User>)
    ensures MayAlert(u) ==> MayReport(u)
    ensures u.Some? && u.value.role == Passenger ==> !MayReport(u) && !MayAlert(u)
    ensures u.None? ==> !MayReport(u) && !MayAlert(u)
  {
  }

  /** `Math.round((occupiedSeats / totalSeats) * 100)`. */
  function SocketPercentage(occupied: int, total: int): (p: Percent)
    ensures total != 0 ==> p.Finite?
    ensures total >= 1 ==> p == Finite(BusModel.Percentage(occupied, total))
    ensures total == 0 ==> (p == PlusInfinity <==> occupied > 0) && (p == NotANumber <==> occupied == 0)
  {
    if total == 0 then
      (if occupied > 0 then PlusInfinity else if occupied < 0 then MinusInfinity else NotANumber)
    else if total >= 1 then Finite(BusModel.Percentage(occupied, total))
    else Finite(JsRound(occupied as real / total as real * 100.0))
  }

  /** The status chosen from the rounded percentage: Overcrowded from 90, Nearly Full from 70 (NaN compares false). */
  function StatusOfPercent(p: Percent): (s: BusModel.OccupancyStatus)
    ensures s == BusModel.Overcrowded <==> p == PlusInfinity || (p.Finite? && p.value >= 90)
    ensures s == BusModel.NearlyFull <==> p.Finite? && 70 <= p.value < 90
  {
    if p == PlusInfinity || (p.Finite? && p.value >= 90) then BusModel.Overcrowded
    else if p.Finite? && p.value >= 70 then BusModel.NearlyFull
    else BusModel.Available
  }

  /** The `update-occupancy` payload. */
  function MakeOccupancyPayload(busId: string, occupied: int, total: int, now: int): (p: OccupancyPayload)
    ensures p.occupancyPercentage == SocketPercentage(occupied, total)
    ensures p.status == StatusOfPercent(SocketPercentage(occupied, total))
    ensures p.availableSeats + occupied == total
    ensures p.totalSeats == total && p.occupiedSeats == occupied && p.busId == busId && p.timestamp == now
  {
    var pct := SocketPercentage(occupied, total);
    OccupancyPayload(busId, total, occupied, StatusOfPercent(pct), pct, total - occupied, now)
  }

  /**
   * 139 of 200 seats: the socket rounds 69.5 % up to 70 and reports Nearly Full,
   * while the bus model classifies the raw ratio 0.695 as Available.
   */
  lemma RoundedAndRawDisagree()
    ensures MakeOccupancyPayload("", 139, 200, 0).status == BusModel.NearlyFull
    ensures BusModel.Classify(139, 200) == BusModel.Available
  {
    assert BusModel.OccupancyRate(139, 200) * 100.0 == 69.5;
    assert BusModel.Percentage(139, 200) == 70;
  }

  /**
   * The two classifications differ only where rounding crosses a threshold:
   * a raw percentage in [69.5, 70) or in [89.5, 90).
   */
  lemma DisagreementOnlyNearThresholds(occupied: int, total: int)
    requires total >= 1
    ensures StatusOfPercent(SocketPercentage(occupied, total)) != BusModel.Classify(occupied, total) ==>
              var raw := BusModel.OccupancyRate(occupied, total) * 100.0;
              (69.5 <= raw < 70.0) || (89.5 <= raw < 90.0)
  {
    var q := BusModel.OccupancyRate(occupied, total);
    var raw := q * 100.0;
    var p := BusModel.Percentage(occupied, total);
    assert p as real - 0.5 <= raw < p as real + 0.5;
    BusModel.RateBelow(occupied, total, 7);
    BusModel.RateBelow(occupied, total, 9);
    assert q < 0.7 <==> raw < 70.0;
    assert q < 0.9 <==> raw < 90.0;
  }

  /** Where an alert goes: the route room if a route is named, else the bus room if a bus is, else everyone. */
  datatype AlertTarget = RouteMembers(routeId: string) | BusMembers(busId: string) | Everyone

  function TargetOf(routeId: Option<string>, busId: Option<string>): (t: AlertTarget)
    ensures routeId.Some? && routeId.value != "" ==> t == RouteMembers(routeId.value)
    ensures (routeId.None? || routeId.value == "") && busId.Some? && busId.value != "" ==> t == BusMembers(busId.value)
    ensures t == Everyone <==> (routeId.None? || routeId.value == "") && (busId.None? || busId.value == "")
  {
    if routeId.Some? && routeId.value != "" then RouteMembers(routeId.value)
    else if busId.Some? && busId.value != "" then BusMembers(busId.value)
    else Everyone
  }

  /** `severity || 'info'`. */
  function SeverityOrInfo(severity: Option<string>): (s: string)
    ensures s != ""
    ensures severity.Some? && severity.value != "" ==> s == severity.value
  {
    if severity.Some? && severity.value != "" then severity.value else "info"
  }

  /** One delivery of `e` to each of `targets`. */
  function ToEach(targets: set<string>, e: ClientEvent): multiset<Delivery>
  {
    multiset(set t | t in targets :: Delivery(t, e))
  }

  /** An emit to a set of connections reaches each of them exactly once, and no one else. */
  lemma ToEachCount(targets: set<string>, e: ClientEvent, c: string, e': ClientEvent)
    ensures ToEach(targets, e)[Delivery(c, e')] == if c in targets && e' == e then 1 else 0
  {
    var s := set t | t in targets :: Delivery(t, e);
    if c in targets && e' == e {
      assert Delivery(c, e') in s;
    } else {
      assert Delivery(c, e') !in s;
    }
  }

  /** The connections in a room. */
  function Members(connections: map<string, Connection>, room: string): (m: set<string>)
    ensures forall c :: c in m <==> c in connections && room in connections[c].rooms
  {
    set c | c in connections && room in connections[c].rooms
  }

  class Server {
    var connections: map<string, Connection>
    var delivered: multiset<Delivery>

    constructor()
      ensures connections == map[] && delivered == multiset{}
    {
      connections := map[];
      delivered := multiset{};
    }

    /** A new connection: always accepted; an authenticated user joins their personal room. */
    method Connect(c: string, token: Option<string>, lookup: Option<User>)
      requires c !in connections
      modifies this
      ensures connections == old(connections)[c := Connection(Authenticate(token, lookup),
                               if Authenticate(token, lookup).Some? then {UserRoom(Authenticate(token, lookup).value.id)} else {})]
      ensures delivered == old(delivered)
    {
      var user := Authenticate(token, lookup);
      var rooms: set<string> := if user.Some? then {UserRoom(user.value.id)} else {};
      connections := connections[c := Connection(user, rooms)];
    }

    /**
     * `subscribe-route`, `unsubscribe-route`, `subscribe-bus` and
     * `unsubscribe-bus`: with a non-empty id, join or leave the room and
     * confirm to the requesting connection only; with an empty id, nothing.
     */
    method Subscription(c: string, toRoute: bool, id: string, join: bool)
      requires c in connections
      modifies this
      ensures id == "" ==> connections == old(connections) && delivered == old(delivered)
      ensures id != "" ==>
                var room := if toRoute then RouteRoom(id) else BusRoom(id);
                var rooms := old(connections)[c].rooms;
                connections == old(connections)[c := old(connections)[c].(rooms := if join then rooms + {room} else rooms - {room})]
      ensures id != "" ==>
                var kind := if toRoute then "route" else "bus";
                var verb := if join then "Subscribed to " else "Unsubscribed from ";
                delivered == old(delivered) + multiset{Delivery(c, SubscriptionConfirmed(kind, id, verb + kind + " " + id + " updates"))}
    {
      if id == "" {
        return;
      }
      var room := if toRoute then RouteRoom(id) else BusRoom(id);
      var kind := if toRoute then "route" else "bus";
      var conn := connections[c];
      if join {
        connections := connections[c := conn.(rooms := conn.rooms + {room})];
        delivered := delivered + multiset{Delivery(c, SubscriptionConfirmed(kind, id, "Subscribed to " + kind + " " + id + " updates"))};
      } else {
        connections := connections[c := conn.(rooms := conn.rooms - {room})];
        delivered := delivered + multiset{Delivery(c, SubscriptionConfirmed(kind, id, "Unsubscribed from " + kind + " " + id + " updates"))};
      }
    }

    /**
     * `subscribe-area`: with both coordinates truthy (present and not 0), join
     * `area_<lat>_<lon>_<radius || 5000>` and confirm to the requester.
     */
    method SubscribeArea(c: string, latitude: Option<real>, longitude: Option<real>, radius: Option<real>,
                         show: real -> string)
      requires c in connections
      modifies this
      ensures (latitude.None? || latitude.value == 0.0 || longitude.None? || longitude.value == 0.0) ==>
                connections == old(connections) && delivered == old(delivered)
      ensures latitude.Some? && latitude.value != 0.0 && longitude.Some? && longitude.value != 0.0 ==>
                var area := AreaRoom(latitude.value, longitude.value, radius, show);
                && connections == old(connections)[c := old(connections)[c].(rooms := old(connections)[c].rooms + {area})]
                && delivered == old(delivered) + multiset{Delivery(c, SubscriptionConfirmed("area", area, "Subscribed to area updates"))}
    {
      if latitude.None? || latitude.value == 0.0 || longitude.None? || longitude.value == 0.0 {
        return;
      }
      var area := AreaRoom(latitude.value, longitude.value, radius, show);
      var conn := connections[c];
      connections := connections[c := conn.(rooms := conn.rooms + {area})];
      delivered := delivered + multiset{Delivery(c, SubscriptionConfirmed("area", area, "Subscribed to area updates"))};
    }

    /**
     * `share-location`: for a driver, admin or operator, one copy to every
     * connection and one more to every other member of the bus's room (the
     * sender excluded); anyone else is ignored.
     */
    method ShareLocation(c: string, busId: string, latitude: real, longitude: real, speed: Option<real>,
                         direction: Option<real>, now: int)
      requires c in connections
      modifies this
      ensures connections == old(connections)
      ensures !MayReport(connections[c].user) ==> delivered == old(delivered)
      ensures MayReport(connections[c].user) ==>
                var e := LocationShared(busId, latitude, longitude, speed, direction, now);
                delivered == old(delivered) + ToEach(connections.Keys, e) + ToEach(Members(connections, BusRoom(busId)) - {c}, e)
    {
      if MayReport(connections[c].user) {
        var e := LocationShared(busId, latitude, longitude, speed, direction, now);
        delivered := delivered + ToEach(connections.Keys, e);
        delivered := delivered + ToEach(Members(connections, BusRoom(busId)) - {c}, e);
      }
    }

    /** `update-occupancy`: for a driver, admin or operator, the computed payload to every connection. */
    method UpdateOccupancy(c: string, busId: string, occupied: int, total: int, now: int)
      requires c in connections
      modifies this
      ensures connections == old(connections)
      ensures !MayReport(connections[c].user) ==> delivered == old(delivered)
      ensures MayReport(connections[c].user) ==>
                delivered == old(delivered) + ToEach(connections.Keys, OccupancyShared(MakeOccupancyPayload(busId, occupied, total, now)))
    {
      if MayReport(connections[c].user) {
        delivered := delivered + ToEach(connections.Keys, OccupancyShared(MakeOccupancyPayload(busId, occupied, total, now)));
      }
    }

    /**
     * `send-alert`: for an admin or operator, an alert stamped with the
     * current time (its id is that time in decimal), severity defaulting to
     * `info`, sent to the route room, else the bus room, else everyone.
     */
    method SendAlert(c: string, kind: string, message: string, routeId: Option<string>, busId: Option<string>,
                     severity: Option<string>, now: nat)
      requires c in connections
      modifies this
      ensures connections == old(connections)
      ensures !MayAlert(connections[c].user) ==> delivered == old(delivered)
      ensures MayAlert(connections[c].user) ==>
                var base := Alert(DecimalString(now), kind, message, SeverityOrInfo(severity), now,
                                  connections[c].user.value.name, None, None);
                delivered == old(delivered) +
                  match TargetOf(routeId, busId)
                  case RouteMembers(r) => ToEach(Members(connections, RouteRoom(r)), ServiceAlert(base.(routeId := Some(r))))
                  case BusMembers(b) => ToEach(Members(connections, BusRoom(b)), ServiceAlert(base.(busId := Some(b))))
                  case Everyone => ToEach(connections.Keys, ServiceAlert(base))
    {
      if MayAlert(connections[c].user) {
        var alert := Alert(DecimalString(now), kind, message, SeverityOrInfo(severity), now,
                           connections[c].user.value.name, None, None);
        match TargetOf(routeId, busId)
        case RouteMembers(r) =>
          delivered := delivered + ToEach(Members(connections, RouteRoom(r)), ServiceAlert(alert.(routeId := Some(r))));
        case BusMembers(b) =>
          delivered := delivered + ToEach(Members(connections, BusRoom(b)), ServiceAlert(alert.(busId := Some(b))));
        case Everyone =>
          delivered := delivered + ToEach(connections.Keys, ServiceAlert(alert));
      }
    }

    /** `ping`: a pong to the asking connection only. */
    method Ping(c: string, now: int)
      requires c in connections
      modifies this
      ensures connections == old(connections)
      ensures delivered == old(delivered) + multiset{Delivery(c, Pong(now))}
    {
      delivered := delivered + multiset{Delivery(c, Pong(now))};
    }

    /** A disconnect drops the connection and with it its room memberships. */
    method Disconnect(c: string)
      modifies this
      ensures connections == old(connections) - {c}
      ensures delivered == old(delivered)
    {
      connections := connections - {c};
    }

    /**
     * `emitBusLocationUpdate`: to everyone, then to the route room, then to the
     * bus room, so a connection in both rooms receives three copies.
     */
    method EmitBusLocationUpdate(data: HelperData)
      modifies this
      ensures connections == old(connections)
      ensures var e := Forwarded("bus-location-updated", data);
              delivered == old(delivered) + ToEach(connections.Keys, e)
                + ToEach(Members(connections, RouteRoom(data.routeId)), e)
                + ToEach(Members(connections, BusRoom(data.busId)), e)
      ensures forall c :: c in connections ==>
                delivered[Delivery(c, Forwarded("bus-location-updated", data))]
                == old(delivered)[Delivery(c, Forwarded("bus-location-updated", data))] + 1
                   + (if RouteRoom(data.routeId) in connections[c].rooms then 1 else 0)
                   + (if BusRoom(data.busId) in connections[c].rooms then 1 else 0)
    {
      var e := Forwarded("bus-location-updated", data);
      var all, routeMembers, busMembers := connections.Keys, Members(connections, RouteRoom(data.routeId)),
                                            Members(connections, BusRoom(data.busId));
      delivered := delivered + ToEach(all, e) + ToEach(routeMembers, e) + ToEach(busMembers, e);
      forall c | c in connections
        ensures delivered[Delivery(c, e)] == old(delivered)[Delivery(c, e)] + 1
                  + (if RouteRoom(data.routeId) in connections[c].rooms then 1 else 0)
                  + (if BusRoom(data.busId) in connections[c].rooms then 1 else 0)
      {
        ToEachCount(all, e, c, e);
        ToEachCount(routeMembers, e, c, e);
        ToEachCount(busMembers, e, c, e);
      }
    }

    /** `emitBusOccupancyUpdate` and `emitBusStatusChange`: to everyone, then to the bus room. */
    method EmitToAllAndBus(name: string, data: HelperData)
      requires name == "bus-occupancy-updated" || name == "bus-status-changed"
      modifies this
      ensures connections == old(connections)
      ensures delivered == old(delivered) + ToEach(connections.Keys, Forwarded(name, data))
                + ToEach(Members(connections, BusRoom(data.busId)), Forwarded(name, data))
      ensures forall c :: c in connections ==>
                delivered[Delivery(c, Forwarded(name, data))] == old(delivered)[Delivery(c, Forwarded(name, data))] + 1
                   + (if BusRoom(data.busId) in connections[c].rooms then 1 else 0)
    {
      var e := Forwarded(name, data);
      var all, busMembers := connections.Keys, Members(connections, BusRoom(data.busId));
      delivered := delivered + ToEach(all, e) + ToEach(busMembers, e);
      forall c | c in connections
        ensures delivered[Delivery(c, e)] == old(delivered)[Delivery(c, e)] + 1
                  + (if BusRoom(data.busId) in connections[c].rooms then 1 else 0)
      {
        ToEachCount(all, e, c, e);
        ToEachCount(busMembers, e, c, e);
      }
    }

    /** `emitServiceAlert`: the same precedence as `send-alert`, route room, then bus room, then everyone. */
    method EmitServiceAlert(data: HelperData)
      modifies this
      ensures connections == old(connections)
      ensures var e := Forwarded("service-alert", data);
              delivered == old(delivered) +
                match TargetOf(Some(data.routeId), Some(data.busId))
                case RouteMembers(r) => ToEach(Members(connections, RouteRoom(r)), e)
                case BusMembers(b) => ToEach(Members(connections, BusRoom(b)), e)
                case Everyone => ToEach(connections.Keys, e)
    {
      var e := Forwarded("service-alert", data);
      match TargetOf(Some(data.routeId), Some(data.busId))
      case RouteMembers(r) =>
        delivered := delivered + ToEach(Members(connections, RouteRoom(r)), e);
      case BusMembers(b) =>
        delivered := delivered + ToEach(Members(connections, BusRoom(b)), e);
      case Everyone =>
        delivered := delivered + ToEach(connections.Keys, e);
    }
  }

  /** `radius || 5000`: a missing radius, and also a radius of 0, becomes 5000. */
  function EffectiveRadius(radius: Option<real>): (r: real)
    ensures r != 0.0
    ensures radius.Some? && radius.value != 0.0 ==> r == radius.value
  {
    if radius.Some? && radius.value != 0.0 then radius.value else 5000.0
  }

  /** `area_<latitude>_<longitude>_<radius || 5000>`, where `show` renders a number as a template literal does. */
  function AreaRoom(latitude: real, longitude: real, radius: Option<real>, show: real -> string): (room: string)
    ensures |room| >= 5 && room[..5] == "area_"
    ensures room[5..] == show(latitude) + "_" + show(longitude) + "_" + show(EffectiveRadius(radius))
  {
    "area_" + (show(latitude) + "_" + show(longitude) + "_" + show(EffectiveRadius(radius)))
  }

  /** The rendering of numbers is one-to-one and never writes an underscore. */
  ghost predicate Unambiguous(show: real -> string)
  {
    && (forall x, y :: show(x) == show(y) ==> x == y)
    && (forall x :: '_' !in show(x))
  }

  /** The position of the first underscore, or the length when there is none. */
  function UnderscoreIndex(s: string): (k: nat)
    ensures k <= |s|
  {
    if s == [] || s[0] == '_' then 0 else 1 + UnderscoreIndex(s[1..])
  }

  lemma {:induction false} UnderscoreAfter(a: string, b: string)
    requires '_' !in a
    ensures UnderscoreIndex(a + "_" + b) == |a|
  {
    if a != [] {
      assert (a + "_" + b)[1..] == a[1..] + "_" + b;
      assert '_' !in a[1..] by {
        forall x | x in a[1..] ensures x in a { }
      }
      UnderscoreAfter(a[1..], b);
    }
  }

  /** `a_b` splits back into `a` and `b` when `a` has no underscore. */
  lemma SplitAtUnderscore(a: string, b: string, c: string, d: string)
    requires '_' !in a && '_' !in c
    requires a + "_" + b == c + "_" + d
    ensures a == c && b == d
  {
    var x := a + "_" + b;
    UnderscoreAfter(a, b);
    UnderscoreAfter(c, d);
    assert a == x[..|a|] && c == x[..|c|];
    assert b == x[|a| + 1..] && d == x[|c| + 1..];
  }

  /**
   * Two area subscriptions share a room exactly when they name the same
   * latitude, longitude and effective radius: a missing radius, a radius
   * of 0 and a radius of 5000 all land in one room.
   */
  lemma AreaRoomsDistinct(lat1: real, lon1: real, r1: Option<real>, lat2: real, lon2: real, r2: Option<real>,
                          show: real -> string)
    requires Unambiguous(show)
    ensures AreaRoom(lat1, lon1, r1, show) == AreaRoom(lat2, lon2, r2, show) <==>
            lat1 == lat2 && lon1 == lon2 && EffectiveRadius(r1) == EffectiveRadius(r2)
  {
    var room1, room2 := AreaRoom(lat1, lon1, r1, show), AreaRoom(lat2, lon2, r2, show);
    if room1 == room2 {
      var a1, b1, c1 := show(lat1), show(lon1), show(EffectiveRadius(r1));
      var a2, b2, c2 := show(lat2), show(lon2), show(EffectiveRadius(r2));
      assert a1 + "_" + b1 + "_" + c1 == a1 + "_" + (b1 + "_" + c1);
      assert a2 + "_" + b2 + "_" + c2 == a2 + "_" + (b2 + "_" + c2);
      assert room1[5..] == room2[5..];
      SplitAtUnderscore(a1, b1 + "_" + c1, a2, b2 + "_" + c2);
      SplitAtUnderscore(b1, c1, b2, c2);
    }
  }
}
