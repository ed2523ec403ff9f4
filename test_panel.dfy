/** The deviation test panel: manual location input and the scripted
    deviation scenarios, against the panel's own socket context. */
module DeviationTestPanel {
  import opened Common

  /** The default driver id of both panel forms. */
  const DefaultDriverId: string := "test-driver"

  /** The panel's own context (separate from the driver app's provider):
      whether it holds a socket, the route it holds, and its ledger, which
      the panel only reads. */
  datatype PanelContext = PanelContext(hasSocket: bool, currentRoute: Option<RouteBroadcast>, routeDeviations: seq<DeviationEvent>)

  /** The three scenario buttons. */
  datatype ScenarioType = Slight | Moderate | Extreme

  /** Offset in degrees added to both coordinates of waypoint 0. */
  function Offset(t: ScenarioType): real {
    match t
    case Slight => 0.001
    case Moderate => 0.005
    case Extreme => 0.01
  }

  function Severity(t: ScenarioType): string {
    match t
    case Slight => "low"
    case Moderate => "medium"
    case Extreme => "high"
  }

  function Message(t: ScenarioType): string {
    match t
    case Slight => "Slight deviation from planned route"
    case Moderate => "Moderate deviation detected. Returning to route."
    case Extreme => "EXTREME ROUTE DEVIATION! Immediate action required."
  }

  /** What a scenario press leads to. */
  datatype ScenarioOutcome =
    | NoValidRoute(alert: Alert)
    | NoSocket                      // `socket.emit` on null throws
    | Emitted(message: LocationMessage, alert: Alert)

  /** The route guard: a route with a waypoint list of at least two. */
  predicate HasValidRoute(route: Option<RouteBroadcast>) {
    route.Some? && route.value.waypoints.Some? && |route.value.waypoints.value| >= 2
  }

  /** `generateDeviationScenario(type)`. */
  function GenerateDeviationScenario(context: PanelContext, t: ScenarioType, driverId: string, timestamp: string): (r: ScenarioOutcome)
    ensures r.NoValidRoute? <==> !HasValidRoute(context.currentRoute)
    ensures r.NoValidRoute? ==> r.alert == Alert("Error", "No valid route found")
    ensures r.NoSocket? <==> HasValidRoute(context.currentRoute) && !context.hasSocket
    ensures r.Emitted? ==>
      var start := context.currentRoute.value.waypoints.value[0];
      r.message == LocationMessage(driverId, start.lat + Offset(t), start.lng + Offset(t), timestamp) &&
      r.alert == Alert(ToUpper(Severity(t)) + " Deviation", Message(t))
  {
    if !HasValidRoute(context.currentRoute) then
      NoValidRoute(Alert("Error", "No valid route found"))
    else
      var waypoints := context.currentRoute.value.waypoints.value;
      var startPoint := waypoints[0];
      var endPoint := waypoints[1];  // read, never used
      if !context.hasSocket then NoSocket
      else
        Emitted(LocationMessage(driverId, startPoint.lat + Offset(t), startPoint.lng + Offset(t), timestamp),
                Alert(ToUpper(Severity(t)) + " Deviation", Message(t)))
  }

  /** Only waypoint 0 matters: two routes that agree on it (and are both
      valid) give the same outcome, whatever their other waypoints. */
  lemma {:induction false} ScenarioUsesOnlyFirstWaypoint(c1: PanelContext, c2: PanelContext, t: ScenarioType, driverId: string, timestamp: string)
    requires HasValidRoute(c1.currentRoute) && HasValidRoute(c2.currentRoute)
    requires c1.currentRoute.value.waypoints.value[0] == c2.currentRoute.value.waypoints.value[0]
    requires c1.hasSocket == c2.hasSocket
    ensures GenerateDeviationScenario(c1, t, driverId, timestamp) == GenerateDeviationScenario(c2, t, driverId, timestamp)
  {
  }

  /** Where a type stands among the three buttons. */
  function Rank(t: ScenarioType): nat {
    match t
    case Slight => 0
    case Moderate => 1
    case Extreme => 2
  }

  /** On one valid route with a socket, every button emits a point off
      waypoint 0 on both axes; a larger type moves it strictly farther, and
      different types show different alert messages. */
  lemma ScenarioOutputsAcrossTypes(context: PanelContext, t1: ScenarioType, t2: ScenarioType, driverId: string, timestamp: string)
    requires HasValidRoute(context.currentRoute) && context.hasSocket
    ensures var start := context.currentRoute.value.waypoints.value[0];
      var r1 := GenerateDeviationScenario(context, t1, driverId, timestamp);
      var r2 := GenerateDeviationScenario(context, t2, driverId, timestamp);
      r1.Emitted? && r1.message.latitude > start.lat && r1.message.longitude > start.lng &&
      (Rank(t1) < Rank(t2) ==>
        r1.message.latitude < r2.message.latitude && r1.message.longitude < r2.message.longitude) &&
      (t1 != t2 ==> r1.alert.message != r2.alert.message)
  {
    var start := context.currentRoute.value.waypoints.value[0];
    var r1 := GenerateDeviationScenario(context, t1, driverId, timestamp);
    var r2 := GenerateDeviationScenario(context, t2, driverId, timestamp);
    assert r1.alert.message == Message(t1) && r2.alert.message == Message(t2);
  }

  /** The example route [{10, 20}, {11, 21}] and an extreme scenario give
      exactly (10.01, 20.01) with a HIGH alert. */
  lemma ExtremeScenarioExample(timestamp: string)
    ensures var route := RouteBroadcast(Some([Waypoint(10.0, 20.0), Waypoint(11.0, 21.0)]), None);
      GenerateDeviationScenario(PanelContext(true, Some(route), []), Extreme, "driver1", timestamp)
        == Emitted(LocationMessage("driver1", 10.01, 20.01, timestamp),
                   Alert("HIGH Deviation", "EXTREME ROUTE DEVIATION! Immediate action required."))
  {
  }

  /** What a manual update press leads to. */
  datatype ManualOutcome =
    | NoSocketOrRoute(alert: Alert)
    | Sent(message: LocationMessage)

  /** `simulateLocationUpdate` with the already parsed numbers: both a socket
      and a route are required. */
  function SimulateLocationUpdate(context: PanelContext, driverId: string, latitude: real, longitude: real, timestamp: string): (r: ManualOutcome)
    ensures r.Sent? <==> context.hasSocket && context.currentRoute.Some?
    ensures r.NoSocketOrRoute? ==> r.alert == Alert("Error", "No active socket or route")
    ensures r.Sent? ==> r.message == LocationMessage(driverId, latitude, longitude, timestamp)
  {
    if !context.hasSocket || context.currentRoute.None? then
      NoSocketOrRoute(Alert("Error", "No active socket or route"))
    else
      Sent(LocationMessage(driverId, latitude, longitude, timestamp))
  }

  /** The two forms guard differently: with a route of two waypoints and no
      socket, the manual form reports an error while the scenario form gets
      past its guard and fails on the emit; with a route of one waypoint and
      a socket, the manual form sends while the scenario form refuses. */
  lemma GuardsDiffer(w0: Waypoint, w1: Waypoint, t: ScenarioType, lat: real, lng: real, time: string)
    ensures var c := PanelContext(false, Some(RouteBroadcast(Some([w0, w1]), None)), []);
      SimulateLocationUpdate(c, DefaultDriverId, lat, lng, time).NoSocketOrRoute? &&
      GenerateDeviationScenario(c, t, DefaultDriverId, time) == NoSocket
    ensures var c := PanelContext(true, Some(RouteBroadcast(Some([w0]), None)), []);
      SimulateLocationUpdate(c, DefaultDriverId, lat, lng, time).Sent? &&
      GenerateDeviationScenario(c, t, DefaultDriverId, time).NoValidRoute?
  {
  }
}
