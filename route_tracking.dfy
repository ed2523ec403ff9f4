/** The driver's tracking screen: what it draws for the cached route, the
    connection status line, the sliding info sheet and the deviation modal. */
module RouteTracking {
  import opened Common
  import SocketContext

  /** A map coordinate `{latitude, longitude}`. */
  datatype MapCoordinate = MapCoordinate(latitude: real, longitude: real)

  datatype Marker = Marker(key: nat, coordinate: MapCoordinate, title: string, pinColor: string)

  /** The polyline and the markers drawn for a route. */
  datatype RouteOverlay = RouteOverlay(polyline: seq<MapCoordinate>, markers: seq<Marker>)

  function ToCoordinate(w: Waypoint): (c: MapCoordinate)
    ensures c.latitude == w.lat && c.longitude == w.lng
  {
    MapCoordinate(w.lat, w.lng)
  }

  /** The polyline: one coordinate per waypoint, in waypoint order. */
  function RouteCoordinates(ws: seq<Waypoint>): (r: seq<MapCoordinate>)
    ensures |r| == |ws|
    ensures forall i :: 0 <= i < |ws| ==> r[i].latitude == ws[i].lat && r[i].longitude == ws[i].lng
  {
    seq(|ws|, i requires 0 <= i < |ws| => ToCoordinate(ws[i]))
  }

  const StartTitle: string := "Start Location"
  const WholesalerTitle: string := "Wholesaler Location"
  const RetailerTitle: string := "Retailer Location"

  /** The marker title chain: index 0, then index 1, then the last index,
      then `Waypoint i`. Index 1 wins over "last", so a two-waypoint route
      has no retailer marker. */
  function MarkerTitle(index: nat, count: nat): (r: string)
    requires index < count
    ensures r == StartTitle <==> index == 0
    ensures r == WholesalerTitle <==> index == 1
    ensures r == RetailerTitle <==> index >= 2 && index == count - 1
    ensures index >= 2 && index != count - 1 ==> r == "Waypoint " + NatToString(index)
  {
    if index == 0 then StartTitle
    else if index == 1 then WholesalerTitle
    else if index == count - 1 then RetailerTitle
    else
      var r := "Waypoint " + NatToString(index);
      assert r[0] == 'W' && r[1] == 'a';
      assert StartTitle[0] == 'S' && WholesalerTitle[1] == 'h' && RetailerTitle[0] == 'R';
      r
  }

  /** The pin colour chain: red in every branch. */
  function PinColor(index: nat, count: nat): (r: string)
    ensures r == "red"
  {
    if index == 0 then "red"
    else if index == 1 then "red"
    else if index == count - 1 then "red"
    else "red"
  }

  /** One marker per waypoint, keyed by its index. */
  function RouteMarkers(ws: seq<Waypoint>): (r: seq<Marker>)
    ensures |r| == |ws|
    ensures forall i :: 0 <= i < |ws| ==>
      r[i].key == i && r[i].coordinate == ToCoordinate(ws[i]) &&
      r[i].title == MarkerTitle(i, |ws|) && r[i].pinColor == "red"
  {
    seq(|ws|, i requires 0 <= i < |ws| => Marker(i, ToCoordinate(ws[i]), MarkerTitle(i, |ws|), PinColor(i, |ws|)))
  }

  /** Which titles a route's markers carry: the start and the wholesaler
      always (for two or more waypoints), and the retailer exactly when there
      are at least three. */
  lemma {:induction false} MarkerTitlesOfRoute(ws: seq<Waypoint>)
    requires |ws| >= 2
    ensures var titles := seq(|ws|, i requires 0 <= i < |ws| => RouteMarkers(ws)[i].title);
      titles[0] == StartTitle && titles[1] == WholesalerTitle &&
      ((exists i :: 0 <= i < |ws| && titles[i] == RetailerTitle) <==> |ws| >= 3)
  {
    var markers := RouteMarkers(ws);
    var titles := seq(|ws|, i requires 0 <= i < |ws| => markers[i].title);
    if |ws| >= 3 {
      assert titles[|ws| - 1] == RetailerTitle;
    } else {
      forall i | 0 <= i < |ws| ensures titles[i] != RetailerTitle {
        assert titles[i] == MarkerTitle(i, |ws|);
      }
    }
  }

  /** `renderRouteOnMap`: nothing unless the route has a waypoint list of at
      least two; then the polyline and the markers. */
  function RenderRouteOnMap(route: Option<RouteBroadcast>): (r: Option<RouteOverlay>)
    ensures r.Some? <==> route.Some? && route.value.waypoints.Some? && |route.value.waypoints.value| >= 2
    ensures r.Some? ==>
      r.value.polyline == RouteCoordinates(route.value.waypoints.value) &&
      r.value.markers == RouteMarkers(route.value.waypoints.value)
  {
    if route.None? || route.value.waypoints.None? || |route.value.waypoints.value| < 2 then None
    else
      var ws := route.value.waypoints.value;
      Some(RouteOverlay(RouteCoordinates(ws), RouteMarkers(ws)))
  }

  /** The connection status line and whether the retry press is enabled. */
  datatype StatusIndicator = StatusIndicator(text: string, retryEnabled: bool)

  function ConnectionStatusIndicator(isConnected: bool, connectionAttempts: nat): (r: StatusIndicator)
    ensures r.retryEnabled <==> !isConnected
    ensures isConnected ==> r.text == "Connected"
    ensures !isConnected ==> r.text == "Disconnected (" + NatToString(connectionAttempts) + " attempts)"
  {
    StatusIndicator(
      if isConnected then "Connected" else "Disconnected (" + NatToString(connectionAttempts) + " attempts)",
      !isConnected)
  }

  /** The status text tells the states apart: from it one can read whether
      the provider is connected and, if not, the attempt counter. */
  lemma {:induction false} StatusTextIdentifiesState(c1: bool, a1: nat, c2: bool, a2: nat)
    requires ConnectionStatusIndicator(c1, a1).text == ConnectionStatusIndicator(c2, a2).text
    ensures c1 == c2
    ensures !c1 ==> a1 == a2
  {
    var t := ConnectionStatusIndicator(c1, a1).text;
    if !c1 {
      assert |t| >= 25;
      assert t[14..|t| - 10] == NatToString(a1);
    }
    if !c2 {
      assert |t| >= 25;
      assert t[14..|t| - 10] == NatToString(a2);
    }
    if !c1 && !c2 {
      NatToStringInjective(a1, a2);
    }
  }

  /** The drag clamp: a position within [-maxHeight, 0]. */
  function Clamp(maxHeight: real, y: real): (r: real)
    requires maxHeight >= 0.0
    ensures -maxHeight <= r <= 0.0
    ensures -maxHeight <= y <= 0.0 ==> r == y
    ensures y < -maxHeight ==> r == -maxHeight
    ensures y > 0.0 ==> r == 0.0
  {
    var upper := if 0.0 < y then 0.0 else y;
    if -maxHeight > upper then -maxHeight else upper
  }

  /** Where the sheet settles on release: hidden after a drag up of more
      than 50, shown after a drag down of more than 50, else where it is. */
  function SnapTarget(maxHeight: real, translationY: real, current: real): (r: real)
    ensures translationY < -50.0 ==> r == -maxHeight
    ensures translationY > 50.0 ==> r == 0.0
    ensures -50.0 <= translationY <= 50.0 ==> r == current
  {
    if translationY < -50.0 then -maxHeight
    else if translationY > 50.0 then 0.0
    else current
  }

  /** The sliding info sheet's shared `translateY` value and the gesture
      context's `startY`. Animations are modelled by their end value. */
  class InfoSheet {
    const maxHeight: real
    var translateY: real
    var startY: real

    ghost predicate Valid()
      reads this
    {
      maxHeight >= 0.0 && -maxHeight <= translateY <= 0.0
    }

    /** `MAX_INFO_CONTAINER_HEIGHT` is 39% of the window height. */
    constructor (windowHeight: real)
      requires windowHeight >= 0.0
      ensures Valid()
      ensures maxHeight == windowHeight * 0.39 && translateY == 0.0
    {
      maxHeight := windowHeight * 0.39;
      translateY := 0.0;
      startY := 0.0;
    }

    /** `onStart`: remember where the drag began. */
    method OnStart()
      requires Valid()
      modifies this
      ensures Valid()
      ensures startY == translateY && translateY == old(translateY)
    {
      startY := translateY;
    }

    /** `onActive`: follow the finger, clamped to the sheet's range. */
    method OnActive(translationY: real)
      requires Valid()
      modifies this
      ensures Valid()
      ensures translateY == Clamp(maxHeight, old(startY) + translationY) && startY == old(startY)
    {
      translateY := Clamp(maxHeight, startY + translationY);
    }

    /** `onEnd`: settle at the snap target. */
    method OnEnd(translationY: real)
      requires Valid()
      modifies this
      ensures Valid()
      ensures translateY == SnapTarget(maxHeight, translationY, old(translateY)) && startY == old(startY)
    {
      translateY := SnapTarget(maxHeight, translationY, translateY);
    }
  }

  /** The screen's deviation modal over the provider's ledger. */
  class TrackingScreen {
    const provider: SocketContext.SocketProvider
    var showDeviations: bool

    constructor (provider: SocketContext.SocketProvider)
      ensures this.provider == provider && !showDeviations
    {
      this.provider := provider;
      showDeviations := false;
    }

    /** The deviations button exists only while the ledger is not empty. */
    method OpenDeviations()
      modifies this
      ensures showDeviations == (old(showDeviations) || |provider.routeDeviations| > 0)
    {
      if |provider.routeDeviations| > 0 {
        showDeviations := true;
      }
    }

    /** Closing the modal, by the back request or by the Close button: the
        modal is hidden and the ledger is cleared. */
    method CloseDeviations()
      requires provider.Valid()
      modifies this, provider
      ensures !showDeviations
      ensures provider.Valid()
      ensures provider.View() == old(provider.View()).(routeDeviations := [])
      ensures provider.closedSockets == old(provider.closedSockets) && provider.nextSocketId == old(provider.nextSocketId)
    {
      showDeviations := false;
      provider.ClearRouteDeviations();
    }
  }
}
