/** Waypoints and routes as the command-aware route analyzer handles them. */
module Routes {

  datatype Option<+T> = None | Some(value: T)

  datatype Result<+T, +E> = Success(value: T) | Failure(error: E)

  /** A latitude/longitude pair. The model never computes with coordinates. */
  datatype LatLon = LatLon(lat: real, lon: real)

  /** A named point. */
  datatype Waypoint = Waypoint(ident: string, pos: LatLon)

  /** One route entry: a waypoint and the airway label it was added with. */
  datatype Node = Node(wpt: Waypoint, airway: string)

  /** A route: its entries in flying order. */
  type Route = seq<Node>

  /** The airway label of a direct leg. */
  const Direct := "DCT"

  function FirstWaypoint(r: Route): Waypoint
    requires |r| > 0
  {
    r[0].wpt
  }

  function LastWaypoint(r: Route): Waypoint
    requires |r| > 0
  {
    r[|r| - 1].wpt
  }

  /** The coordinates of a route's waypoints, in order. */
  function Positions(r: Route): seq<LatLon>
  {
    seq(|r|, k requires 0 <= k < |r| => r[k].wpt.pos)
  }
}
