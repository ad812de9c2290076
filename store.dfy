/**
 * The database the controllers work on, as in-memory maps from document id to
 * document, and the log of events the server broadcasts to every connection
 * with `io.emit` (in the order they were sent).
 */
module Store {
  import opened Common
  import opened BusModel
  import RouteModel

  /** The events the bus controller broadcasts to all connections. */
  datatype ServerEvent =
    | BusCreated(bus: Bus)
    | BusLocationUpdated(busId: string, busNumber: string, routeId: string, location: Location,
                         speed: real, direction: Option<real>)
    | BusOccupancyUpdated(busId: string, busNumber: string, occupancy: Occupancy,
                          occupancyPercentage: int, availableSeats: int)
    | BusUpdated(bus: Bus)
    | BusDeleted(busId: string)
    | BusStatusChanged(busId: string, busNumber: string, status: BusStatus)

  class Database {
    var buses: map<string, Bus>
    var routes: map<string, RouteModel.Route>
    var broadcasts: seq<ServerEvent>

    /** Each document is stored under its own id, and every bus refers to a stored route. */
    predicate Valid()
      reads this
    {
      && (forall id :: id in buses ==> buses[id].id == id && buses[id].routeId in routes)
      && (forall id :: id in routes ==> routes[id].id == id)
    }

    /** An empty database. */
    constructor()
      ensures buses == map[] && routes == map[] && broadcasts == []
      ensures Valid()
    {
      buses := map[];
      routes := map[];
      broadcasts := [];
    }
  }
}
