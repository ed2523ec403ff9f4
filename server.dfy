/** The tracking service: the Socket.IO state manager and the REST endpoints
    that keep routes and driver positions as GeoJSON (RFC 7946). */
module TrackingServer {
  import opened Common

  /** A Socket.IO session id. */
  type Sid = string

  const DriverRole: string := "driver"
  const UnknownRole: string := "unknown"

  /** Deviation threshold in metres: a position farther than this from every
      compared waypoint is a deviation. */
  const DeviationThreshold: real := 100.0

  /** The `connected_users[sid]` record. */
  datatype UserInfo = UserInfo(role: string, lastUpdate: string)

  /** A route payload as the route-created and route-saved events and the
      route POST deliver it: the keys the service reads, each of which may be
      missing, and whether the dictionary holds any other key. */
  datatype Route = Route(
    waypoints: Option<seq<Waypoint>>,
    startLocation: Option<string>,
    checkpoint: Option<string>,
    destination: Option<string>,
    checkpointCoords: Option<Waypoint>,
    destinationCoords: Option<Waypoint>,
    startTime: Option<string>,
    otherKeys: bool)
  {
    /** The payload is the empty dictionary: none of the keys read, and no
        other key either. */
    predicate IsEmpty() {
      waypoints.None? && startLocation.None? && checkpoint.None? && destination.None? &&
      checkpointCoords.None? && destinationCoords.None? && startTime.None? && !otherKeys
    }

    /** `route.get('waypoints', [])` */
    function WaypointsOrEmpty(): seq<Waypoint> {
      if waypoints.Some? then waypoints.value else []
    }
  }

  /** Python truthiness of `current_route`: neither None nor an empty dict
      (a dict holding only keys the service never reads is truthy). */
  predicate Truthy(route: Option<Route>) {
    route.Some? && !route.value.IsEmpty()
  }

  /** `driver_location`: the received payload plus the server's `last_update`. */
  datatype DriverLocation = DriverLocation(update: LocationMessage, lastUpdate: string)

  /** One `deviation_history` entry. It has no severity field. */
  datatype Deviation = Deviation(timestamp: string, driverId: Sid, location: Waypoint, distance: real, message: string)

  /** Metadata of the route re-sent on request-initial-state (snake_case keys). */
  datatype BroadcastMetadata = BroadcastMetadata(
    startLocation: Option<string>,
    checkpoint: Option<string>,
    destination: Option<string>,
    checkpointCoords: Option<Waypoint>,
    destinationCoords: Option<Waypoint>,
    startTime: Option<string>)

  /** Events the service emits. */
  datatype ServerEvent =
    | RouteBroadcastEvent(route: Route)
    | RouteDeviationEvent(deviation: Deviation)
    | DriverLocationEvent(location: DriverLocation)
    | DriverDisconnectedEvent
    | InitialStateEvent(driverLocation: Option<DriverLocation>, currentRoute: Option<Route>, deviationHistory: seq<Deviation>)
    | InitialRouteEvent(waypoints: seq<Waypoint>, metadata: BroadcastMetadata)

  /** Who receives an emit: every client, every client but the sender, or
      only the sender. */
  datatype Audience = Everyone | OthersOnly | SenderOnly

  datatype Emit = Emit(event: ServerEvent, audience: Audience)

  /** A distance that may be the empty-minimum sentinel `float('inf')`. */
  datatype Dist = Finite(meters: real) | Infinity

  /** Python's `min(a, b)` over distances. */
  function MinDist(a: Dist, b: Dist): Dist {
    match (a, b)
    case (Infinity, _) => b
    case (_, Infinity) => a
    case (Finite(x), Finite(y)) => if y < x then b else a
  }

  /** The value the loop over `waypoints` leaves in `min_distance`. */
  function MinDistance(p: Waypoint, ws: seq<Waypoint>, dist: (Waypoint, Waypoint) -> real): Dist
  {
    if ws == [] then Infinity
    else MinDist(MinDistance(p, ws[..|ws| - 1], dist), Finite(dist(p, ws[|ws| - 1])))
  }

  /** The minimum is infinite exactly when there is nothing to compare;
      otherwise it is the distance to one of the waypoints and no larger
      than the distance to any of them. */
  lemma {:induction false} MinDistanceIsMinimum(p: Waypoint, ws: seq<Waypoint>, dist: (Waypoint, Waypoint) -> real)
    ensures MinDistance(p, ws, dist).Infinity? <==> ws == []
    ensures MinDistance(p, ws, dist).Finite? ==>
      (forall i :: 0 <= i < |ws| ==> MinDistance(p, ws, dist).meters <= dist(p, ws[i])) &&
      (exists i :: 0 <= i < |ws| && MinDistance(p, ws, dist).meters == dist(p, ws[i]))
  {
    if ws != [] {
      var front := ws[..|ws| - 1];
      MinDistanceIsMinimum(p, front, dist);
      var m := MinDistance(p, ws, dist);
      var last := |ws| - 1;
      assert forall i :: 0 <= i < |front| ==> front[i] == ws[i];
      if MinDistance(p, front, dist).Infinity? || dist(p, ws[last]) < MinDistance(p, front, dist).meters {
        assert m.meters == dist(p, ws[last]);
      } else {
        var k :| 0 <= k < |front| && MinDistance(p, front, dist).meters == dist(p, front[k]);
        assert m.meters == dist(p, ws[k]);
      }
    }
  }

  /** The loop of the location handler: the smallest distance from `p` to
      the compared waypoints, infinite when there are none. */
  method MinimumDistance(p: Waypoint, ws: seq<Waypoint>, dist: (Waypoint, Waypoint) -> real) returns (m: Dist)
    ensures m == MinDistance(p, ws, dist)
    ensures m.Infinity? <==> ws == []
    ensures m.Finite? ==> forall i :: 0 <= i < |ws| ==> m.meters <= dist(p, ws[i])
  {
    m := Infinity;
    var i := 0;
    while i < |ws|
      invariant 0 <= i <= |ws|
      invariant m == MinDistance(p, ws[..i], dist)
    {
      assert ws[..i + 1][..i] == ws[..i];
      m := MinDist(m, Finite(dist(p, ws[i])));
      i := i + 1;
    }
    assert ws[..|ws|] == ws;
    MinDistanceIsMinimum(p, ws, dist);
  }

  /** `waypoints[:-1]`: every waypoint but the last (nothing for an empty list). */
  function Compared(ws: seq<Waypoint>): (r: seq<Waypoint>)
    ensures |ws| == 0 ==> r == []
    ensures |ws| > 0 ==> |r| == |ws| - 1
    ensures forall i :: 0 <= i < |r| ==> r[i] == ws[i]
  {
    if ws == [] then [] else ws[..|ws| - 1]
  }

  /** Python's `round` on a float: to the nearest integer, ties to even. */
  function RoundHalfEven(x: real): (r: int)
    ensures (r as real) - x <= 0.5 && x - (r as real) <= 0.5
    ensures (r as real) - x == 0.5 || x - (r as real) == 0.5 ==> r % 2 == 0
  {
    var f := x.Floor;
    var frac := x - (f as real);
    if frac < 0.5 then f
    else if frac > 0.5 then f + 1
    else if f % 2 == 0 then f else f + 1
  }

  /** `f"Driver deviated {round(min_distance)}m from planned route"`: the
      number between the fixed prefix and suffix reads back as the distance
      rounded to the nearest metre. */
  function DeviationMessage(meters: real): (s: string)
    requires meters > DeviationThreshold
    ensures |s| > 36 && s[..16] == "Driver deviated " && s[|s| - 20..] == "m from planned route"
    ensures forall i :: 16 <= i < |s| - 20 ==> IsDigit(s[i])
    ensures var n := ParseNat(s[16..|s| - 20]);
      n == RoundHalfEven(meters) && n >= 100 && (n as real) - meters <= 0.5 && meters - (n as real) <= 0.5
  {
    var r := RoundHalfEven(meters);
    var digits := NatToString(r);
    var s := "Driver deviated " + digits + "m from planned route";
    assert s[16..|s| - 20] == digits;
    NatToStringRoundTrip(r);
    s
  }

  /** What the deviation check decides for one location update. */
  datatype Verdict =
    | NotChecked          // no current route
    | OnRoute(meters: real)
    | Deviated(meters: real)
    | RoundOverflow       // nothing compared: `round(inf)` raises

  function PointOf(data: LocationMessage): Waypoint {
    Waypoint(data.latitude, data.longitude)
  }

  /** The deviation check against the current route. */
  function Check(route: Option<Route>, p: Waypoint, dist: (Waypoint, Waypoint) -> real): Verdict
  {
    if !Truthy(route) then NotChecked
    else
      match MinDistance(p, Compared(route.value.WaypointsOrEmpty()), dist)
      case Infinity => RoundOverflow
      case Finite(m) => if m > DeviationThreshold then Deviated(m) else OnRoute(m)
  }

  /** The check raises exactly when there is a route with fewer than two
      waypoints; a deviation is reported exactly when every waypoint but the
      last is more than the threshold away. */
  lemma CheckOutcomes(route: Option<Route>, p: Waypoint, dist: (Waypoint, Waypoint) -> real)
    ensures Check(route, p, dist) == NotChecked <==> !Truthy(route)
    ensures Check(route, p, dist) == RoundOverflow <==> Truthy(route) && |route.value.WaypointsOrEmpty()| < 2
    ensures Check(route, p, dist).Deviated? <==>
      Truthy(route) && |route.value.WaypointsOrEmpty()| >= 2 &&
      forall i :: 0 <= i < |route.value.WaypointsOrEmpty()| - 1 ==> dist(p, route.value.WaypointsOrEmpty()[i]) > DeviationThreshold
  {
    if Truthy(route) {
      var ws := route.value.WaypointsOrEmpty();
      var c := Compared(ws);
      MinDistanceIsMinimum(p, c, dist);
      var m := MinDistance(p, c, dist);
      if m.Finite? && m.meters <= DeviationThreshold {
        var k :| 0 <= k < |c| && m.meters == dist(p, c[k]);
        assert dist(p, ws[k]) <= DeviationThreshold;
      }
    }
  }

  /** The last waypoint never takes part: moving it changes no verdict. */
  lemma CheckIgnoresLastWaypoint(route: Route, w: Waypoint, p: Waypoint, dist: (Waypoint, Waypoint) -> real)
    requires route.waypoints.Some? && |route.waypoints.value| > 0
    ensures
      var ws := route.waypoints.value;
      Check(Some(route), p, dist) == Check(Some(route.(waypoints := Some(ws[..|ws| - 1] + [w]))), p, dist)
  {
    var ws := route.waypoints.value;
    var ws' := ws[..|ws| - 1] + [w];
    assert Compared(ws') == Compared(ws);
  }

  /** A payload made only of keys the service never reads is still a
      truthy route: the check runs, compares nothing and raises. */
  lemma UnreadKeysOnlyRouteRaises(p: Waypoint, dist: (Waypoint, Waypoint) -> real)
    ensures var route := Route(None, None, None, None, None, None, None, true);
      Truthy(Some(route)) && Check(Some(route), p, dist) == RoundOverflow
  {
  }

  function DeviationFor(sid: Sid, data: LocationMessage, meters: real, timestamp: string): Deviation
    requires meters > DeviationThreshold
  {
    Deviation(timestamp, sid, PointOf(data), meters, DeviationMessage(meters))
  }

  /** The whole record of the state manager, for stating what a handler
      leaves unchanged. */
  datatype ServerState = ServerState(
    currentRoute: Option<Route>,
    driverLocation: Option<DriverLocation>,
    connectedUsers: map<Sid, UserInfo>,
    driverUpdateHistory: seq<DriverLocation>,
    deviationHistory: seq<Deviation>,
    activeRoutes: map<Sid, Route>)

  /** The service's in-memory state and its Socket.IO event handlers. */
  class StateManager {
    var currentRoute: Option<Route>
    var driverLocation: Option<DriverLocation>
    var connectedUsers: map<Sid, UserInfo>
    var driverUpdateHistory: seq<DriverLocation>
    var deviationHistory: seq<Deviation>
    var activeRoutes: map<Sid, Route>

    function State(): ServerState
      reads this
    {
      ServerState(currentRoute, driverLocation, connectedUsers, driverUpdateHistory, deviationHistory, activeRoutes)
    }

    /** `connected_users.get(sid, {}).get('role')` */
    function RoleOf(sid: Sid): (r: Option<string>)
      reads this
      ensures r.Some? <==> sid in connectedUsers
      ensures r.Some? ==> r.value == connectedUsers[sid].role
    {
      if sid in connectedUsers then Some(connectedUsers[sid].role) else None
    }

    constructor ()
      ensures State() == ServerState(None, None, map[], [], [], map[])
    {
      currentRoute := None;
      driverLocation := None;
      connectedUsers := map[];
      driverUpdateHistory := [];
      deviationHistory := [];
      activeRoutes := map[];
    }

    /** 'connect': registers the session with the `role` query argument,
        'unknown' when absent, overwriting any earlier entry. */
    method HandleConnect(sid: Sid, roleArg: Option<string>, now: string)
      modifies this
      ensures State() == old(State()).(connectedUsers := old(connectedUsers)[sid := UserInfo(RoleOrUnknown(roleArg), now)])
      ensures RoleOf(sid) == Some(RoleOrUnknown(roleArg))
    {
      connectedUsers := connectedUsers[sid := UserInfo(RoleOrUnknown(roleArg), now)];
    }

    /** 'user-role': the same overwrite with the payload's `role`. */
    method HandleUserRole(sid: Sid, roleField: Option<string>, now: string)
      modifies this
      ensures State() == old(State()).(connectedUsers := old(connectedUsers)[sid := UserInfo(RoleOrUnknown(roleField), now)])
      ensures RoleOf(sid) == Some(RoleOrUnknown(roleField))
    {
      connectedUsers := connectedUsers[sid := UserInfo(RoleOrUnknown(roleField), now)];
    }

    /** 'route-created': the route becomes current and the sender's active
        route, and is broadcast to everyone. */
    method HandleRouteCreation(sid: Sid, route: Route) returns (emits: seq<Emit>)
      modifies this
      ensures State() == old(State()).(currentRoute := Some(route), activeRoutes := old(activeRoutes)[sid := route])
      ensures emits == [Emit(RouteBroadcastEvent(route), Everyone)]
    {
      currentRoute := Some(route);
      activeRoutes := activeRoutes[sid := route];
      emits := [Emit(RouteBroadcastEvent(route), Everyone)];
    }

    /** 'route-saved': only the sender's active route changes. */
    method HandleRouteSave(sid: Sid, route: Route)
      modifies this
      ensures State() == old(State()).(activeRoutes := old(activeRoutes)[sid := route])
      ensures currentRoute == old(currentRoute)
    {
      activeRoutes := activeRoutes[sid := route];
    }

    /** 'driver-location-update'. A session not registered as a driver
        changes nothing. For a driver, the location is recorded first; then,
        when there is a current route, every waypoint but the last is
        compared and at most one deviation is recorded; a route with fewer
        than two waypoints makes `round(inf)` raise, which aborts the handler
        after the location was recorded. Otherwise the location is broadcast
        to the other clients and appended to the update history. */
    method HandleDriverLocation(sid: Sid, data: LocationMessage, locationTime: string, deviationTime: string,
                                dist: (Waypoint, Waypoint) -> real)
      returns (emits: seq<Emit>, aborted: bool)
      modifies this
      ensures old(RoleOf(sid)) != Some(DriverRole) ==> State() == old(State()) && emits == [] && !aborted
      ensures old(RoleOf(sid)) == Some(DriverRole) ==>
        var loc := DriverLocation(data, locationTime);
        var verdict := Check(old(currentRoute), PointOf(data), dist);
        var deviations := if verdict.Deviated? then [DeviationFor(sid, data, verdict.meters, deviationTime)] else [];
        aborted == verdict.RoundOverflow? &&
        (aborted ==> State() == old(State()).(driverLocation := Some(loc)) && emits == []) &&
        (!aborted ==>
          State() == old(State()).(driverLocation := Some(loc),
                                   deviationHistory := old(deviationHistory) + deviations,
                                   driverUpdateHistory := old(driverUpdateHistory) + [loc]) &&
          emits == seq(|deviations|, i requires 0 <= i < |deviations| => Emit(RouteDeviationEvent(deviations[i]), Everyone))
                   + [Emit(DriverLocationEvent(loc), OthersOnly)])
    {
      emits, aborted := [], false;
      if RoleOf(sid) == Some(DriverRole) {
        var loc := DriverLocation(data, locationTime);
        driverLocation := Some(loc);
        if Truthy(currentRoute) {
          var waypoints := currentRoute.value.WaypointsOrEmpty();
          var minDistance := MinimumDistance(PointOf(data), Compared(waypoints), dist);
          match minDistance
          case Infinity =>
            aborted := true;
            return;
          case Finite(m) =>
            if m > DeviationThreshold {
              var deviation := DeviationFor(sid, data, m, deviationTime);
              deviationHistory := deviationHistory + [deviation];
              emits := emits + [Emit(RouteDeviationEvent(deviation), Everyone)];
            }
        }
        emits := emits + [Emit(DriverLocationEvent(loc), OthersOnly)];
        driverUpdateHistory := driverUpdateHistory + [loc];
      }
    }

    /** 'request-initial-state': a snapshot for the sender, followed by the
        current route re-shaped with snake_case metadata when there is one. */
    function InitialStateEmits(): (r: seq<Emit>)
      reads this
      ensures |r| == if Truthy(currentRoute) then 2 else 1
      ensures r[0] == Emit(InitialStateEvent(driverLocation, currentRoute, deviationHistory), SenderOnly)
      ensures |r| == 2 ==>
        (r[1].audience == SenderOnly && r[1].event.InitialRouteEvent? &&
         r[1].event.waypoints == currentRoute.value.WaypointsOrEmpty())
      ensures |r| == 2 ==>
        var route, m := currentRoute.value, r[1].event.metadata;
        m.startLocation == route.startLocation && m.checkpoint == route.checkpoint &&
        m.destination == route.destination && m.checkpointCoords == route.checkpointCoords &&
        m.destinationCoords == route.destinationCoords && m.startTime == route.startTime
    {
      var snapshot := Emit(InitialStateEvent(driverLocation, currentRoute, deviationHistory), SenderOnly);
      if Truthy(currentRoute) then
        var r := currentRoute.value;
        var metadata := BroadcastMetadata(r.startLocation, r.checkpoint, r.destination,
                                          r.checkpointCoords, r.destinationCoords, r.startTime);
        [snapshot, Emit(InitialRouteEvent(r.WaypointsOrEmpty(), metadata), SenderOnly)]
      else
        [snapshot]
    }

    /** 'disconnect': a driver's departure clears the last location and is
        announced; the session is forgotten (nothing happens if unknown). */
    method HandleDisconnect(sid: Sid) returns (emits: seq<Emit>)
      modifies this
      ensures old(RoleOf(sid)) == Some(DriverRole) ==>
        State() == old(State()).(driverLocation := None, connectedUsers := old(connectedUsers) - {sid}) &&
        emits == [Emit(DriverDisconnectedEvent, Everyone)]
      ensures old(RoleOf(sid)) != Some(DriverRole) ==>
        State() == old(State()).(connectedUsers := old(connectedUsers) - {sid}) && emits == []
      ensures sid !in connectedUsers
    {
      emits := [];
      if RoleOf(sid) == Some(DriverRole) {
        driverLocation := None;
        emits := [Emit(DriverDisconnectedEvent, Everyone)];
      }
      connectedUsers := connectedUsers - {sid};
    }
  }

  /** `get('role', 'unknown')` */
  function RoleOrUnknown(role: Option<string>): (r: string)
    ensures role.Some? ==> r == role.value
    ensures role.None? ==> r == UnknownRole
  {
    if role.Some? then role.value else UnknownRole
  }

  // ---------------------------------------------------------------------
  // REST endpoints and GeoJSON (RFC 7946)
  // ---------------------------------------------------------------------

  /** A GeoJSON geometry (RFC 7946, section 3.1). A position is an array of
      numbers, longitude first (section 3.1.1); a Point's numbers may be
      null when the request lacked them. */
  datatype Geometry =
    | LineString(lineCoordinates: seq<seq<real>>)
    | Point(pointCoordinates: seq<Option<real>>)

  datatype SavedRouteMetadata = SavedRouteMetadata(
    startLocation: Option<string>, checkpoint: Option<string>, destination: Option<string>, startTime: Option<string>)

  datatype Properties =
    | RouteProperties(routeId: string, createdAt: string, metadata: SavedRouteMetadata)
    | DriverProperties(driverId: Option<string>, heading: Option<real>, speed: Option<real>, timestamp: string)

  /** A GeoJSON Feature (RFC 7946, section 3.2). */
  datatype Feature = Feature(properties: Properties, geometry: Geometry)

  /** The body of a driver-location POST: the keys read, each possibly missing. */
  datatype LocationBody = LocationBody(
    driverId: Option<string>, latitude: Option<real>, longitude: Option<real>, heading: Option<real>, speed: Option<real>)

  /** An RFC 7946 position for a waypoint: `[lng, lat]`. */
  function Position(w: Waypoint): seq<real> {
    [w.lng, w.lat]
  }

  /** The saved route as a Feature wrapping a LineString. */
  function RouteFeature(route: Route, routeId: string, createdAt: string): (f: Feature)
    ensures f.geometry.LineString? && f.properties.RouteProperties?
    ensures f.properties.routeId == routeId && f.properties.createdAt == createdAt
    ensures f.properties.metadata.startLocation == route.startLocation
    ensures f.properties.metadata.checkpoint == route.checkpoint
    ensures f.properties.metadata.destination == route.destination
    ensures f.properties.metadata.startTime == route.startTime
    ensures |f.geometry.lineCoordinates| == |route.WaypointsOrEmpty()|
  {
    var ws := route.WaypointsOrEmpty();
    Feature(
      RouteProperties(routeId, createdAt,
        SavedRouteMetadata(route.startLocation, route.checkpoint, route.destination, route.startTime)),
      LineString(seq(|ws|, i requires 0 <= i < |ws| => Position(ws[i]))))
  }

  /** Reading waypoints back from a LineString whose positions are pairs. */
  function LineWaypoints(coords: seq<seq<real>>): seq<Waypoint>
    requires forall i :: 0 <= i < |coords| ==> |coords[i]| == 2
  {
    seq(|coords|, i requires 0 <= i < |coords| => Waypoint(coords[i][1], coords[i][0]))
  }

  /** Every position is a longitude-latitude pair and the waypoints, in
      order, can be read back from the LineString. */
  lemma RouteFeatureRoundTrip(route: Route, routeId: string, createdAt: string)
    ensures var c := RouteFeature(route, routeId, createdAt).geometry.lineCoordinates;
      (forall i :: 0 <= i < |c| ==> |c[i]| == 2 && c[i][0] == route.WaypointsOrEmpty()[i].lng
                                                && c[i][1] == route.WaypointsOrEmpty()[i].lat) &&
      LineWaypoints(c) == route.WaypointsOrEmpty()
  {
  }

  /** The reported position as a Feature wrapping a Point, stamped with the
      server's clock reading `timestamp` (the body's own time is not read). */
  function LocationFeature(body: LocationBody, timestamp: string): (f: Feature)
    ensures f.geometry.Point? && f.properties.DriverProperties?
    ensures f.geometry.pointCoordinates == [body.longitude, body.latitude]
    ensures f.properties.driverId == body.driverId
    ensures f.properties.heading == body.heading && f.properties.speed == body.speed
    ensures f.properties.timestamp == timestamp
  {
    Feature(
      DriverProperties(body.driverId, body.heading, body.speed, timestamp),
      Point([body.longitude, body.latitude]))
  }

  datatype ResponseBody =
    | FeatureBody(feature: Feature)
    | RouteSaved(routeId: string, message: string)
    | LocationUpdated(message: string)
    | Failure(error: string)

  datatype Response = Response(status: int, body: ResponseBody)

  /** The module-level `stored_routes` and `driver_locations` dictionaries. */
  class RestStore {
    var storedRoutes: map<string, Feature>
    var driverLocations: map<Option<string>, Feature>

    constructor ()
      ensures storedRoutes == map[] && driverLocations == map[]
    {
      storedRoutes := map[];
      driverLocations := map[];
    }

    /** POST /api/routes. `body` is the parsed JSON object, or the text of
        the exception raised when the request has none; `routeId` and
        `createdAt` are the two clock readings. */
    method SaveRoute(body: Result<Route, string>, routeId: string, createdAt: string) returns (resp: Response)
      modifies this
      ensures driverLocations == old(driverLocations)
      ensures body.Err? ==> resp == Response(400, Failure(body.error)) && storedRoutes == old(storedRoutes)
      ensures body.Ok? ==>
        resp == Response(201, RouteSaved(routeId, "Route saved successfully")) &&
        storedRoutes == old(storedRoutes)[routeId := RouteFeature(body.value, routeId, createdAt)]
      ensures body.Ok? ==> GetRoute(routeId) == Response(200, FeatureBody(RouteFeature(body.value, routeId, createdAt)))
    {
      match body
      case Err(e) =>
        resp := Response(400, Failure(e));
      case Ok(route) =>
        storedRoutes := storedRoutes[routeId := RouteFeature(route, routeId, createdAt)];
        resp := Response(201, RouteSaved(routeId, "Route saved successfully"));
    }

    /** GET /api/routes/<route_id> */
    function GetRoute(routeId: string): (r: Response)
      reads this
      ensures r.status == 200 <==> routeId in storedRoutes
      ensures r.status == 200 ==> r.body == FeatureBody(storedRoutes[routeId])
      ensures r.status != 200 ==> r == Response(404, Failure("Route not found"))
    {
      if routeId in storedRoutes then Response(200, FeatureBody(storedRoutes[routeId]))
      else Response(404, Failure("Route not found"))
    }

    /** POST /api/driver/location: the entry under `driver_id` (possibly
        null) is overwritten. */
    method UpdateDriverLocation(body: Result<LocationBody, string>, timestamp: string) returns (resp: Response)
      modifies this
      ensures storedRoutes == old(storedRoutes)
      ensures body.Err? ==> resp == Response(400, Failure(body.error)) && driverLocations == old(driverLocations)
      ensures body.Ok? ==>
        resp == Response(200, LocationUpdated("Location updated successfully")) &&
        driverLocations == old(driverLocations)[body.value.driverId := LocationFeature(body.value, timestamp)]
      ensures body.Ok? && body.value.driverId.Some? ==>
        GetDriverLocation(body.value.driverId.value) == Response(200, FeatureBody(LocationFeature(body.value, timestamp)))
    {
      match body
      case Err(e) =>
        resp := Response(400, Failure(e));
      case Ok(location) =>
        driverLocations := driverLocations[location.driverId := LocationFeature(location, timestamp)];
        resp := Response(200, LocationUpdated("Location updated successfully"));
    }

    /** GET /api/driver/location/<driver_id> */
    function GetDriverLocation(driverId: string): (r: Response)
      reads this
      ensures r.status == 200 <==> Some(driverId) in driverLocations
      ensures r.status == 200 ==> r.body == FeatureBody(driverLocations[Some(driverId)])
      ensures r.status != 200 ==> r == Response(404, Failure("Driver location not found"))
    {
      if Some(driverId) in driverLocations then Response(200, FeatureBody(driverLocations[Some(driverId)]))
      else Response(404, Failure("Driver location not found"))
    }
  }
}
