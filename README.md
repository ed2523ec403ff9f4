# Driver tracking and route deviation — a Dafny model

This project models the driver-tracking pipeline of a delivery marketplace app.

On the server side (`components/driver/main.py`), a state manager keeps:
- the session-to-role table;
- the current route and the per-session active routes;
- the last driver location;
- two append-only histories, one of location updates and one of deviations.

It is updated by the Socket.IO events connect, user-role, route-created, route-saved, driver-location-update and disconnect. The request-initial-state event only reads it and answers the sender. A location update from a driver is checked against the current route. Every waypoint but the last is compared, and a distance of more than 100 m to all of them is a deviation. The REST endpoints store routes and driver positions as GeoJSON Features (RFC 7946): a LineString (section 3.1.4) or a Point (section 3.1.2), with positions written longitude first (section 3.1.1). Lookups answer 200 or 404.

On the client side (`components/driver/SocketContext.js`), the driver app's provider keeps:
- the connection flag and the attempt counter;
- the cached route, replaced wholesale on each broadcast;
- the deviation ledger, which only grows at the tail and can be cleared;
- a location stream, which sends a fix only while connected.

Around these, the model covers:
- the deviation test panel's manual input and scripted scenarios;
- the tracking screen's drawing rules, status line, sliding sheet and deviation modal;
- the driver login gate;
- the nearest-store permission decision, watch handle and store reply;
- the consumer sign-in/sign-up dispatch.

Modules, one per source file:
- `Common` (common.dfy): shared types, the context hook and number rendering.
- `TrackingServer` (server.dfy): main.py.
- `SocketContext` (socket_context.dfy): SocketContext.js.
- `DeviationTestPanel` (test_panel.dfy): RouteDeviationTestingPanel.js.
- `RouteTracking` (route_tracking.dfy): routeTracking.js.
- `DriverLogin` (driver_login.dfy): login.js.
- `NearestStore` (nearest_store.dfy): NearestStore.js.
- `ConsumerLogin` (login_con.dfy): LoginCon.js.

State that the source updates in place is a class (`StateManager`, `RestStore`, `SocketProvider`, `InfoSheet`, `TrackingScreen`, `LocationWatcher`, `LoginForm`) whose methods state the whole new state. Decision rules are functions. Emits, alerts and navigations are returned as values.

Inputs from outside the model are parameters:
- clock readings (timestamps, the timestamp-based route id);
- the Haversine distance, an arbitrary function `dist`;
- permission and fetch results, and ids handed out by the position API.

## Model

| member | source | states |
|---|---|---|
| `Common.UseSocket` | components/driver/SocketContext.js:150-156 | the hook fails with the fixed message exactly when there is no provider, and otherwise returns the provider's context (the test panel's copy at RouteDeviationTestingPanel.js:51-57 is the same) |
| `TrackingServer.StateManager.constructor` | components/driver/main.py:16-22 | the state starts with no route, no driver location, and empty tables and histories |
| `TrackingServer.StateManager.RoleOf` | components/driver/main.py:78 | a session has a role exactly when it is registered, and the role is the registered one |
| `TrackingServer.RoleOrUnknown` | components/driver/main.py:48 | a missing role becomes 'unknown'; a present one is kept |
| `TrackingServer.StateManager.HandleConnect` | components/driver/main.py:44-52 | connect overwrites the session's entry with the query role (default 'unknown'); nothing else changes |
| `TrackingServer.StateManager.HandleUserRole` | components/driver/main.py:55-63 | user-role overwrites the session's entry with the payload role (default 'unknown'); nothing else changes |
| `TrackingServer.StateManager.HandleRouteCreation` | components/driver/main.py:66-72 | the route becomes both the current route and the sender's active route, and is broadcast to everyone once |
| `TrackingServer.StateManager.HandleRouteSave` | components/driver/main.py:117-121 | only the sender's active route changes; the current route is untouched |
| `TrackingServer.StateManager.HandleDriverLocation` | components/driver/main.py:75-114 | a non-driver session (including an unregistered one) changes nothing and emits nothing. For a driver, the location becomes the payload plus `last_update`. A route with fewer than two waypoints aborts the handler after that, with no history growth and no emit. Otherwise at most one deviation is appended (exactly when the verdict is Deviated), the update history grows by exactly one at the tail, and the location goes to the other clients |
| `TrackingServer.StateManager.InitialStateEmits` | components/driver/main.py:124-146 | the sender gets the snapshot of location, route and deviation history, plus a second route message only when the current route is truthy. That message carries `waypoints` (default empty) and all six metadata fields of the route under snake_case keys |
| `TrackingServer.StateManager.HandleDisconnect` | components/driver/main.py:149-158 | the session is removed (no-op if absent); the driver location is cleared and announced only when that session's role was 'driver' |
| `TrackingServer.MinimumDistance` | components/driver/main.py:90-97 | the loop leaves infinity exactly when nothing is compared, else a distance no larger than the distance to any compared waypoint |
| `TrackingServer.MinDistanceIsMinimum` | components/driver/main.py:90-97 | the folded minimum is infinite iff the list is empty; otherwise it is attained by some waypoint and bounds all of them from below |
| `TrackingServer.Compared` | components/driver/main.py:92 | `waypoints[:-1]` is every waypoint but the last, in order, and empty for an empty list |
| `TrackingServer.CheckOutcomes` | components/driver/main.py:88-110 | no route means no check. The check raises exactly when the route has fewer than two waypoints. A deviation is found exactly when there are at least two waypoints and every waypoint but the last is more than 100 m away |
| `TrackingServer.CheckIgnoresLastWaypoint` | components/driver/main.py:92 | replacing the last waypoint never changes the verdict |
| `TrackingServer.UnreadKeysOnlyRouteRaises` | components/driver/main.py:88-106 | a route dictionary made only of keys the service never reads is truthy, so the check runs, compares nothing and raises on `round(inf)` |
| `TrackingServer.RoundHalfEven` | components/driver/main.py:106 | Python's `round` is within one half of its argument, and resolves ties to an even integer |
| `TrackingServer.DeviationMessage` | components/driver/main.py:106 | the message is the fixed prefix, a decimal number and the fixed suffix; the number reads back as `RoundHalfEven` of the distance, Python's rounding to the nearest metre with ties to even (at least 100) |
| `TrackingServer.RouteFeature` | components/driver/main.py:190-206 | the saved route is a Feature with a LineString geometry. Its properties carry the route id, the creation time and the start location, checkpoint, destination and start time of the body (not the coordinates). It has one position per waypoint |
| `TrackingServer.RouteFeatureRoundTrip` | components/driver/main.py:204 | every position is `[lng, lat]` of the waypoint at the same index, and reading the positions back gives the waypoints in order |
| `TrackingServer.LocationFeature` | components/driver/main.py:261-276 | the driver position is a Feature with a Point geometry `[longitude, latitude]`. Its properties are the request's driver id, heading and speed, and the server's clock reading as timestamp |
| `TrackingServer.RestStore.constructor` | components/driver/main.py:175-176 | both stores start empty |
| `TrackingServer.RestStore.SaveRoute` | components/driver/main.py:179-219 | a body that raised gives 400 with the error text and stores nothing. Otherwise the answer is 201 and the route's Feature is stored under the route id, overwriting any earlier one, so a later GET of that id returns it with 200 |
| `TrackingServer.RestStore.GetRoute` | components/driver/main.py:222-240 | 200 with the stored Feature exactly for a known id, otherwise 404 "Route not found"; reads only |
| `TrackingServer.RestStore.UpdateDriverLocation` | components/driver/main.py:243-288 | 400 and no change when the body raised; otherwise 200, and the Point Feature overwrites the entry for that driver id (which may be null), so a later GET returns it |
| `TrackingServer.RestStore.GetDriverLocation` | components/driver/main.py:291-309 | 200 with the stored Feature exactly for a known driver id, otherwise 404 "Driver location not found"; reads only |
| `SocketContext.SocketProvider.constructor` | components/driver/SocketContext.js:11-16 | no socket, not connected, zero attempts, no route, empty ledger |
| `SocketContext.SocketProvider.InitializeSocket` | components/driver/SocketContext.js:18-27 | the attempt counter goes up by exactly one and a new socket replaces the old one; nothing else changes |
| `SocketContext.SocketProvider.OnConnect` | components/driver/SocketContext.js:29-33 | connected, and the attempt counter is reset to 0 |
| `SocketContext.SocketProvider.OnDisconnect` | components/driver/SocketContext.js:66-69 | not connected; the counter and everything else are kept |
| `SocketContext.SocketProvider.OnRouteBroadcast` | components/driver/SocketContext.js:35-38 | the cached route is replaced wholesale by the payload |
| `SocketContext.SocketProvider.OnRouteDeviation` | components/driver/SocketContext.js:40-64 | the payload is appended at the tail, with earlier entries unchanged and in order; the alert is that of `DeviationAlert` |
| `SocketContext.DeviationAlert` | components/driver/SocketContext.js:55-63 | an alert exists exactly when the payload has a severity; its title is the upper-cased severity plus " Route Deviation", its message the payload's |
| `SocketContext.ServerDeviationsRaiseNoAlert` | components/driver/SocketContext.js:57 | a deviation record as the server sends it has no severity, so it never raises the alert; its message and distance carry over unchanged (the append itself is `SocketContext.SocketProvider.OnRouteDeviation`'s contract) |
| `SocketContext.SocketProvider.ClearRouteDeviations` | components/driver/SocketContext.js:125-127 | the ledger is emptied; nothing else changes |
| `SocketContext.SocketProvider.RetryConnection` | components/driver/SocketContext.js:129-132 | the old socket is disconnected and a fresh one opened; the counter goes up by one instead of being reset |
| `SocketContext.StartLocationTracking` | components/driver/SocketContext.js:82-87 | anything but 'granted' throws "Location permission not granted" and subscribes nothing; 'granted' subscribes for the driver id |
| `SocketContext.SocketProvider.TrackLocation` | components/driver/SocketContext.js:89-110 | the callback is invoked whenever one was given; exactly one location update {driver_id, latitude, longitude, timestamp} is emitted iff a socket exists and it is connected |
| `SocketContext.LedgerTrace` | components/driver/SocketContext.js:125-127 | append e1, append e2, clear, append e3 leaves exactly [e3] |
| `SocketContext.RouteCacheTrace` | components/driver/SocketContext.js:35-38 | after two broadcasts the cache holds the second in full |
| `SocketContext.ConnectionTrace` | components/driver/SocketContext.js:18-31 | mount plus two retries give 3 attempts and a fix taken then is dropped; after connect the counter is 0 and a fix is sent |
| `DeviationTestPanel.GenerateDeviationScenario` | components/driver/RouteDeviationTestingPanel.js:128-182 | no route, no waypoint list or fewer than 2 waypoints alerts "No valid route found" and emits nothing. Otherwise a missing socket makes the emit throw, and a present one emits one update for the form's driver id: waypoint 0 shifted by the type's offset on both axes, with the alert built from the type's severity and message |
| `DeviationTestPanel.ScenarioOutputsAcrossTypes` | components/driver/RouteDeviationTestingPanel.js:128-182 | on one valid route with a socket, every button emits a point off waypoint 0 on both axes. A larger type emits a point strictly farther out, and different types show different alert messages |
| `DeviationTestPanel.ScenarioUsesOnlyFirstWaypoint` | components/driver/RouteDeviationTestingPanel.js:134-136 | waypoint 1 is read but never used: routes that agree on waypoint 0 give the same outcome |
| `DeviationTestPanel.ExtremeScenarioExample` | components/driver/RouteDeviationTestingPanel.js:161-169 | the route [{10,20},{11,21}] with 'extreme' emits exactly (10.01, 20.01) with a HIGH alert |
| `DeviationTestPanel.SimulateLocationUpdate` | components/driver/RouteDeviationTestingPanel.js:66-90 | without a socket or without a route it alerts and emits nothing; otherwise it emits exactly one update with the given driver id, coordinates and timestamp |
| `DeviationTestPanel.GuardsDiffer` | components/driver/RouteDeviationTestingPanel.js:67-70 | the manual guard needs a socket and any route, while the scenario guard checks only the route and needs two waypoints |
| `RouteTracking.ToCoordinate` | components/driver/routeTracking.js:191-194 | lat maps to latitude and lng to longitude |
| `RouteTracking.RouteCoordinates` | components/driver/routeTracking.js:191-194 | the polyline has the waypoints' length and order |
| `RouteTracking.MarkerTitle` | components/driver/routeTracking.js:218-226 | 'Start Location' iff index 0; 'Wholesaler Location' iff index 1, even when it is last; 'Retailer Location' iff the last index is at least 2; otherwise `Waypoint i` |
| `RouteTracking.PinColor` | components/driver/routeTracking.js:227-235 | every branch of the colour chain is 'red' |
| `RouteTracking.RouteMarkers` | components/driver/routeTracking.js:208-238 | exactly one marker per waypoint, keyed by its index, at its coordinate, with its title and a red pin |
| `RouteTracking.MarkerTitlesOfRoute` | components/driver/routeTracking.js:218-226 | a drawn route always has start and wholesaler markers, and has a retailer marker iff it has at least 3 waypoints |
| `RouteTracking.RenderRouteOnMap` | components/driver/routeTracking.js:188-206 | something is drawn iff the route has a waypoint list of at least 2; then the polyline and the markers of those waypoints |
| `RouteTracking.ConnectionStatusIndicator` | components/driver/routeTracking.js:58-92 | the text is 'Connected', or `Disconnected (n attempts)` with the current counter; retry is enabled iff not connected |
| `RouteTracking.StatusTextIdentifiesState` | components/driver/routeTracking.js:87 | equal status texts mean the same connection flag and, when disconnected, the same counter |
| `RouteTracking.Clamp` | components/driver/routeTracking.js:128-129 | the dragged position stays within [-MAX_INFO_CONTAINER_HEIGHT, 0], is unchanged inside it, and goes to the nearer bound outside |
| `RouteTracking.SnapTarget` | components/driver/routeTracking.js:131-142 | a release with translation < -50 snaps to -MAX, > 50 snaps to 0, otherwise the position is kept |
| `RouteTracking.InfoSheet.constructor` | components/driver/routeTracking.js:103-105 | the sheet starts at 0 with MAX at 39% of the window height |
| `RouteTracking.InfoSheet.OnStart` | components/driver/routeTracking.js:124-126 | the drag start is the current position |
| `RouteTracking.InfoSheet.OnActive` | components/driver/routeTracking.js:127-130 | the position follows start plus translation, clamped; the sheet stays in range |
| `RouteTracking.InfoSheet.OnEnd` | components/driver/routeTracking.js:131-142 | the position settles at the snap target; the sheet stays in range |
| `RouteTracking.TrackingScreen.constructor` | components/driver/routeTracking.js:100 | the modal starts hidden |
| `RouteTracking.TrackingScreen.OpenDeviations` | components/driver/routeTracking.js:354-358 | the modal opens only when the ledger is not empty |
| `RouteTracking.TrackingScreen.CloseDeviations` | components/driver/routeTracking.js:268-293 | both ways of closing hide the modal and empty the provider's ledger, leaving the rest of the provider unchanged |
| `DriverLogin.HandleLogin` | components/driver/login.js:14-27 | an empty id alerts with no emit and no navigation, whatever the connection. Otherwise, when connected, one 'user-role' {role:'driver', driver_id} is emitted and the screen navigates to 'RouteTracking' with the id. When not connected, it alerts a connection error with no emit |
| `DriverLogin.LoginThenReport` | components/driver/login.js:20-23 | a session registered by the login's 'user-role' message gets its location update recorded on the server: with no route, one history entry and no deviation |
| `NearestStore.RequestLocationPermission` | components/consumer/NearestStore/NearestStore.js:60-82 | the user is asked exactly when the check says DENIED. The result is true iff GRANTED, or DENIED followed by a granted request. It is undefined exactly for the other statuses; BLOCKED and errors give false, and BLOCKED alone alerts |
| `NearestStore.LocationWatcher.constructor` | components/consumer/NearestStore/NearestStore.js:25 | no watch id held and no watch open |
| `NearestStore.LocationWatcher.StartWatching` | components/consumer/NearestStore/NearestStore.js:84-103 | a watch is registered and its id held only when permission is truthy; otherwise nothing changes |
| `NearestStore.LocationWatcher.StopWatching` | components/consumer/NearestStore/NearestStore.js:105-111 | with an id held, its watch is cleared, the id reset to null and an alert shown; without one, nothing happens |
| `NearestStore.LocationWatcher.Unmount` | components/consumer/NearestStore/NearestStore.js:113-119 | the held watch, if any, is cleared; the ref is left as it is |
| `NearestStore.StopTwice` | components/consumer/NearestStore/NearestStore.js:105-111 | a second stop does nothing and shows no alert |
| `NearestStore.StartTwiceLeaks` | components/consumer/NearestStore/NearestStore.js:84-88 | starting twice overwrites the held id, so the first watch stays open through stop and unmount |
| `NearestStore.StoreQueryFor` | components/consumer/NearestStore/NearestStore.js:28-32 | the request is {radius: selected value, lat, lon} from the current location |
| `NearestStore.StoreEntry` | components/consumer/NearestStore/NearestStore.js:47-50 | an entry has the record's fields plus `name`; `name` is the key unless the record has its own |
| `NearestStore.StoresFrom` | components/consumer/NearestStore/NearestStore.js:47-50 | one entry per key, in key order |
| `NearestStore.StoreNames` | components/consumer/NearestStore/NearestStore.js:47-50 | an entry whose record has no `name` is named after its key and keeps all the record's fields |
| `NearestStore.ErrorOrDefault` | components/consumer/NearestStore/NearestStore.js:53 | a non-empty `error` is shown; a missing or empty one gives 'Failed to fetch stores.' |
| `NearestStore.ApplyStoresReply` | components/consumer/NearestStore/NearestStore.js:43-57 | only a 200 replaces Stores (with no alert); any other status keeps Stores and alerts; a thrown error keeps Stores and alerts the fixed message |
| `ConsumerLogin.HeaderOffset` | components/LoginCon.js:25-35 | option 1 gives 0, 2 gives -29 and 3 gives -65 (any other option gives 0) |
| `ConsumerLogin.SubmitAction` | components/LoginCon.js:170 | submit signs in exactly for option 1; options 2 and 3 sign up |
| `ConsumerLogin.SignUpEffect` | components/LoginCon.js:60-71 | success (navigate to 'HomeCon', message from the reply) exactly on 201; otherwise the message is the reply's `error`; a thrown error sets the fixed message |
| `ConsumerLogin.SignInEffect` | components/LoginCon.js:90-102 | success exactly on 200: store `unique_user_id` and navigate with it; otherwise the message is the `error`; a thrown error sets the fixed message |
| `ConsumerLogin.LoginForm.constructor` | components/LoginCon.js:16-23 | empty fields, user type 'Consumer', option 1, empty message and id |
| `ConsumerLogin.LoginForm.HandleSignUp` | components/LoginCon.js:37-72 | a password mismatch alerts and sends nothing. Otherwise {username, password, user_type} is sent and the reply's effect applied. The user id is never touched |
| `ConsumerLogin.LoginForm.HandleSignIn` | components/LoginCon.js:73-103 | {username, password} is always sent; the message, id and navigation follow the reply's effect |
| `ConsumerLogin.LoginForm.Submit` | components/LoginCon.js:168-170 | the handler run is the one chosen by the option. The message, the user id, the navigation and the alert follow that handler. The input fields, the user type and the option are left as they were |

## Left out

- Floating point: coordinates, offsets and distances are exact reals. `10 + 0.01` is exactly 10.01 here, but not in IEEE doubles.
- The Haversine distance `calculate_distance` (main.py:24-37) is not modelled. It is a parameter `dist`; infinity appears only as the empty-minimum sentinel.
- Payload keys the handlers never read are reduced to one flag, `otherKeys`. It only decides whether a route dictionary is empty: a route made only of such keys is truthy, so a driver's update against it raises in the check (`TrackingServer.UnreadKeysOnlyRouteRaises`). Also not modelled are malformed payloads: a waypoint without `lat`/`lng`, or a location update without `latitude`, raises KeyError in the service. Nor are `waypoints: null`, which raises on slicing, and a `role: null` in user-role.
- The diagnostic `/status` endpoint (main.py:162-171) only reports the state; it is left out.
- `print`/`console.log` logging and the Flask/CORS plumbing are left out. Clock readings and the timestamp-derived route id are parameters.
- The Socket.IO transport and its built-in reconnection policy (5 attempts, 1 s delay) are left out. Only the connect, disconnect and message events it delivers are modelled, each as one atomic handler. The model has no 'reconnecting' state and no validation of inbound payloads, because the code has none.
- SocketContext.SocketProvider.TrackLocation: the callback call and the emit share one `try` (SocketContext.js:90-109). A fix without `coords`, or a callback that throws, therefore emits nothing even while connected. The model takes every fix to carry coordinates and the callback to return normally, as the tracking screen's state setter does.
- SocketContext.SocketProvider.RetryConnection: the 'disconnect' event that disconnecting the old socket may fire is modelled as a separate OnDisconnect event, not as part of the retry.
- React closure staleness is not modelled. `trackLocation` reads the `socket`/`isConnected` captured when tracking started, and the provider's unmount cleanup sees the initial `socket` (null). Both are modelled on the current state instead.
- The OS-level location watch filtering (time and distance intervals) and the permission APIs are not modelled. Their results are inputs.
- `parseFloat` in the manual panel input is not modelled: the parsed numbers are inputs, and NaN from unparseable text does not arise.
- The panel's alert texts for a sent manual update, and the panel's deviation-history list, are presentation and are not modelled.
- `String.prototype.toUpperCase` is modelled on ASCII letters only.
- The scenario type only ever comes from the three buttons, so the `switch` fall-through on another string (which would throw) is not modelled.
- Animations (`withSpring`, `Animated.timing`) are modelled by their end value, and all rendering and styling are left out. Also left out: the screen's driver-id extraction and tracking-start effects (routeTracking.js:151-186) and the route details panel. That panel reads `metadata.startLocation`, while the server's initial route uses `start_location`; the model keeps the two shapes apart and does not reconcile them. The details panel also renders `<Ionicons>` (routeTracking.js:379-415), which the file never declares; it imports the icon set only as `Icon`. So as written, the screen's render throws once loading ends. The drawing rules above describe the render the screen intends.
- The store search reply on 200 is taken to be an object of records. Other JSON shapes, and spreading non-object values, are not modelled. A missing `message`/`error` in a LoginCon alert is shown as an empty text.
- The camera/barcode screen, LoginDrive.js, navigation wiring and the other screens contain no modellable logic and are not part of this model.
