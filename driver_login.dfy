/** The driver login screen's handshake gate. */
module DriverLogin {
  import opened Common
  import TrackingServer

  /** The outbound 'user-role' message `{role, driver_id}`. */
  datatype UserRoleMessage = UserRoleMessage(role: string, driverId: string)

  /** `navigation.navigate('RouteTracking', {driverId})` */
  datatype Navigation = Navigation(screen: string, driverId: string)

  datatype LoginOutcome =
    | MissingDriverId(alert: Alert)
    | LoggedIn(emit: UserRoleMessage, navigation: Navigation)
    | NotConnected(alert: Alert)

  /** `handleLogin`: an empty id is refused whatever the connection state;
      otherwise a connected screen announces the driver role exactly once
      and moves on to tracking, and a disconnected one reports an error. */
  function HandleLogin(driverId: string, isConnected: bool): (r: LoginOutcome)
    ensures r.MissingDriverId? <==> driverId == ""
    ensures r.MissingDriverId? ==> r.alert == Alert("Error", "Please enter Driver ID")
    ensures r.LoggedIn? <==> driverId != "" && isConnected
    ensures r.LoggedIn? ==>
      r.emit == UserRoleMessage("driver", driverId) && r.navigation == Navigation("RouteTracking", driverId)
    ensures r.NotConnected? ==> r.alert == Alert("Connection Error", "Unable to connect to server")
  {
    if driverId == "" then MissingDriverId(Alert("Error", "Please enter Driver ID"))
    else if isConnected then LoggedIn(UserRoleMessage("driver", driverId), Navigation("RouteTracking", driverId))
    else NotConnected(Alert("Connection Error", "Unable to connect to server"))
  }

  /** Login against the service: a session registered through the login's
      'user-role' message has its location updates recorded; with no current
      route the update history grows by one and no deviation is recorded. */
  method LoginThenReport(sid: TrackingServer.Sid, driverId: string, now: string, data: LocationMessage,
                         dist: (Waypoint, Waypoint) -> real)
    returns (updates: nat, deviations: nat, aborted: bool)
    requires driverId != ""
    ensures updates == 1 && deviations == 0 && !aborted
  {
    var server := new TrackingServer.StateManager();
    var outcome := HandleLogin(driverId, true);
    server.HandleUserRole(sid, Some(outcome.emit.role), now);
    var _, a := server.HandleDriverLocation(sid, data, now, now, dist);
    updates, deviations, aborted := |server.driverUpdateHistory|, |server.deviationHistory|, a;
  }
}
