/** The driver app's connection provider: connection flag and attempt
    counter, the cached route, the deviation ledger, and location streaming. */
module SocketContext {
  import opened Common
  import TrackingServer

  /** Each socket the provider opens gets a new id. */
  type SocketId = nat

  /** The provider's state as its consumers see it. */
  datatype ProviderState = ProviderState(
    socket: Option<SocketId>,
    isConnected: bool,
    connectionAttempts: nat,
    currentRoute: Option<RouteBroadcast>,
    routeDeviations: seq<DeviationEvent>)

  class SocketProvider {
    var socket: Option<SocketId>
    var isConnected: bool
    var connectionAttempts: nat
    var currentRoute: Option<RouteBroadcast>
    var routeDeviations: seq<DeviationEvent>
    /** Sockets that `retryConnection` has disconnected. */
    var closedSockets: set<SocketId>
    /** The id the next socket will get. */
    var nextSocketId: SocketId

    function View(): ProviderState
      reads this
    {
      ProviderState(socket, isConnected, connectionAttempts, currentRoute, routeDeviations)
    }

    /** Every socket id in use was issued, and only a socket can have
        delivered 'connect'. */
    ghost predicate Issued()
      reads this
    {
      (socket.Some? ==> socket.value < nextSocketId) &&
      (isConnected ==> socket.Some?) &&
      (forall s :: s in closedSockets ==> s < nextSocketId)
    }

    /** ... and the current socket is not one that was disconnected. */
    ghost predicate Valid()
      reads this
    {
      Issued() && (socket.Some? ==> socket.value !in closedSockets)
    }

    /** The initial `useState` values. */
    constructor ()
      ensures Valid()
      ensures View() == ProviderState(None, false, 0, None, [])
      ensures closedSockets == {} && nextSocketId == 0
    {
      socket := None;
      isConnected := false;
      connectionAttempts := 0;
      currentRoute := None;
      routeDeviations := [];
      closedSockets := {};
      nextSocketId := 0;
    }

    /** `initializeSocket` (also run on mount): one more attempt, and a new
        socket that replaces the previous one. */
    method InitializeSocket()
      requires Issued()
      modifies this
      ensures Valid()
      ensures connectionAttempts == old(connectionAttempts) + 1
      ensures socket == Some(old(nextSocketId)) && old(socket) != socket
      ensures View() == old(View()).(socket := Some(old(nextSocketId)), connectionAttempts := old(connectionAttempts) + 1)
      ensures closedSockets == old(closedSockets) && nextSocketId == old(nextSocketId) + 1
    {
      connectionAttempts := connectionAttempts + 1;
      socket := Some(nextSocketId);
      nextSocketId := nextSocketId + 1;
    }

    /** 'connect' from the current socket. */
    method OnConnect()
      requires Valid() && socket.Some?
      modifies this
      ensures Valid()
      ensures View() == old(View()).(isConnected := true, connectionAttempts := 0)
      ensures closedSockets == old(closedSockets) && nextSocketId == old(nextSocketId)
    {
      isConnected := true;
      connectionAttempts := 0;
    }

    /** 'disconnect': the counter is left alone. */
    method OnDisconnect()
      requires Valid()
      modifies this
      ensures Valid()
      ensures View() == old(View()).(isConnected := false)
      ensures closedSockets == old(closedSockets) && nextSocketId == old(nextSocketId)
    {
      isConnected := false;
    }

    /** 'route-broadcast': the cached route is replaced wholesale. */
    method OnRouteBroadcast(route: RouteBroadcast)
      requires Valid()
      modifies this
      ensures Valid()
      ensures View() == old(View()).(currentRoute := Some(route))
      ensures closedSockets == old(closedSockets) && nextSocketId == old(nextSocketId)
    {
      currentRoute := Some(route);
    }

    /** 'route-deviation': the event is appended to the ledger; the alert is
        raised only when the event has a severity, since reading the missing
        severity throws after the append. */
    method OnRouteDeviation(event: DeviationEvent) returns (alert: Option<Alert>)
      requires Valid()
      modifies this
      ensures Valid()
      ensures View() == old(View()).(routeDeviations := old(routeDeviations) + [event])
      ensures closedSockets == old(closedSockets) && nextSocketId == old(nextSocketId)
      ensures alert == DeviationAlert(event)
    {
      routeDeviations := routeDeviations + [event];
      alert := DeviationAlert(event);
    }

    /** `clearRouteDeviations` */
    method ClearRouteDeviations()
      requires Valid()
      modifies this
      ensures Valid()
      ensures View() == old(View()).(routeDeviations := [])
      ensures closedSockets == old(closedSockets) && nextSocketId == old(nextSocketId)
    {
      routeDeviations := [];
    }

    /** `retryConnection`: the old socket is disconnected and a new one is
        initialised, so the counter goes up by one rather than being reset.
        The 'disconnect' event the old socket may deliver is a separate
        event (OnDisconnect). */
    method RetryConnection()
      requires Valid()
      modifies this
      ensures Valid()
      ensures connectionAttempts == old(connectionAttempts) + 1
      ensures View() == old(View()).(socket := Some(old(nextSocketId)), connectionAttempts := old(connectionAttempts) + 1)
      ensures closedSockets == old(closedSockets) + (if old(socket).Some? then {old(socket).value} else {})
      ensures nextSocketId == old(nextSocketId) + 1
      ensures socket.Some? && socket.value !in closedSockets
    {
      if socket.Some? {
        closedSockets := closedSockets + {socket.value};
      }
      InitializeSocket();
    }

    /** `trackLocation` on one position fix: the callback (when given) is
        always invoked, and exactly one location update is emitted when there
        is a socket and it is connected; otherwise nothing is emitted. */
    method TrackLocation(tracking: Tracking, coords: Coords, timestamp: string)
      returns (callbackInvoked: bool, emitted: Option<LocationMessage>)
      ensures callbackInvoked == tracking.hasCallback
      ensures emitted.Some? <==> socket.Some? && isConnected
      ensures emitted.Some? ==>
        emitted.value == LocationMessage(tracking.driverId, coords.latitude, coords.longitude, timestamp)
    {
      callbackInvoked := tracking.hasCallback;
      if socket.Some? && isConnected {
        emitted := Some(LocationMessage(tracking.driverId, coords.latitude, coords.longitude, timestamp));
      } else {
        emitted := None;
      }
    }
  }

  /** The alert for a deviation: its upper-cased severity and its message;
      none when the severity is missing. */
  function DeviationAlert(event: DeviationEvent): (r: Option<Alert>)
    ensures r.Some? <==> event.severity.Some?
    ensures r.Some? ==>
      (r.value.message == event.message && r.value.title == ToUpper(event.severity.value) + " Route Deviation")
  {
    match event.severity
    case Some(severity) => Some(Alert(ToUpper(severity) + " Route Deviation", event.message))
    case None => None
  }

  /** A deviation record the service broadcasts, as the client receives it:
      every field carried over, and no severity. */
  function ReceivedDeviation(d: TrackingServer.Deviation): DeviationEvent
  {
    DeviationEvent(d.timestamp, d.driverId, d.location, d.distance, None, d.message)
  }

  /** The service's deviations never reach the user as an alert, yet they
      are still appended to the ledger. */
  lemma ServerDeviationsRaiseNoAlert(d: TrackingServer.Deviation)
    ensures DeviationAlert(ReceivedDeviation(d)) == None
    ensures ReceivedDeviation(d).message == d.message && ReceivedDeviation(d).distance == d.distance
  {
  }

  /** An active location subscription: the driver it reports for and
      whether a callback was given. */
  datatype Tracking = Tracking(driverId: string, hasCallback: bool)

  /** `startLocationTracking` after the permission request answered
      `status`: anything but 'granted' throws and subscribes nothing. */
  function StartLocationTracking(status: string, driverId: string, hasCallback: bool): (r: Result<Tracking, string>)
    ensures r.Ok? <==> status == "granted"
    ensures r.Ok? ==> r.value == Tracking(driverId, hasCallback)
    ensures r.Err? ==> r.error == "Location permission not granted"
  {
    if status != "granted" then Err("Location permission not granted")
    else Ok(Tracking(driverId, hasCallback))
  }

  /** Ledger trace: append e1, append e2, clear, append e3 leaves [e3]. */
  method LedgerTrace(e1: DeviationEvent, e2: DeviationEvent, e3: DeviationEvent) returns (ledger: seq<DeviationEvent>)
    ensures ledger == [e3]
  {
    var p := new SocketProvider();
    var _ := p.OnRouteDeviation(e1);
    var _ := p.OnRouteDeviation(e2);
    assert p.routeDeviations == [e1, e2];
    p.ClearRouteDeviations();
    var _ := p.OnRouteDeviation(e3);
    ledger := p.routeDeviations;
  }

  /** Route cache trace: after two broadcasts the cache holds the second
      one in full. */
  method RouteCacheTrace(r1: RouteBroadcast, r2: RouteBroadcast) returns (cached: Option<RouteBroadcast>)
    ensures cached == Some(r2)
  {
    var p := new SocketProvider();
    p.OnRouteBroadcast(r1);
    p.OnRouteBroadcast(r2);
    cached := p.currentRoute;
  }

  /** Connection trace: mount, fail to connect, retry twice, connect. The
      counter climbs with each retry and resets on connect; a fix taken
      before connecting is dropped, one taken after is sent. */
  method ConnectionTrace(tracking: Tracking, c: Coords, t1: string, t2: string)
    returns (attemptsBeforeConnect: nat, attemptsAfterConnect: nat, dropped: Option<LocationMessage>, sent: Option<LocationMessage>)
    ensures attemptsBeforeConnect == 3 && attemptsAfterConnect == 0
    ensures dropped == None
    ensures sent == Some(LocationMessage(tracking.driverId, c.latitude, c.longitude, t2))
  {
    var p := new SocketProvider();
    p.InitializeSocket();
    p.RetryConnection();
    p.RetryConnection();
    attemptsBeforeConnect := p.connectionAttempts;
    var _, d := p.TrackLocation(tracking, c, t1);
    dropped := d;
    p.OnConnect();
    attemptsAfterConnect := p.connectionAttempts;
    var _, s := p.TrackLocation(tracking, c, t2);
    sent := s;
  }
}
