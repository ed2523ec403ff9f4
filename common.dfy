/** Types and small helpers shared by the server half, the client half and
    the screens of the driver-tracking pipeline. */
module Common {

  datatype Option<+T> = None | Some(value: T)

  /** A value or the error an operation raised instead. */
  datatype Result<+T, +E> = Ok(value: T) | Err(error: E)

  /** A route waypoint `{lat, lng}` as the route payloads carry it. */
  datatype Waypoint = Waypoint(lat: real, lng: real)

  /** The `coords` part of a position fix reported by the device. */
  datatype Coords = Coords(latitude: real, longitude: real)

  /** The outbound 'driver-location-update' message
      `{driver_id, latitude, longitude, timestamp}`. */
  datatype LocationMessage = LocationMessage(driverId: string, latitude: real, longitude: real, timestamp: string)

  /** Route metadata as a client reads it from a broadcast route. */
  datatype RouteMetadata = RouteMetadata(startLocation: Option<string>, checkpoint: Option<string>, destination: Option<string>)

  /** The payload of an inbound 'route-broadcast' message, as the client
      stores it: `waypoints` and `metadata` may each be missing. */
  datatype RouteBroadcast = RouteBroadcast(waypoints: Option<seq<Waypoint>>, metadata: Option<RouteMetadata>)

  /** The payload of an inbound 'route-deviation' message. `severity` is
      optional because nothing guarantees that the sender includes it. */
  datatype DeviationEvent = DeviationEvent(
    timestamp: string,
    driverId: string,
    location: Waypoint,
    distance: real,
    severity: Option<string>,
    message: string)

  /** A user-facing alert: a title and a message. */
  datatype Alert = Alert(title: string, message: string)

  /** The context hook: outside a provider there is no context and the hook
      throws; inside one it hands the context back. */
  function UseSocket<T>(context: Option<T>): (r: Result<T, string>)
    ensures r.Ok? <==> context.Some?
    ensures r.Ok? ==> r.value == context.value
    ensures r.Err? ==> r.error == "useSocket must be used within a SocketProvider"
  {
    match context
    case Some(c) => Ok(c)
    case None => Err("useSocket must be used within a SocketProvider")
  }

  predicate IsDigit(c: char) { ('0' as int) <= (c as int) <= ('9' as int) }

  function DigitChar(d: nat): (c: char)
    requires d < 10
    ensures IsDigit(c) && (c as int) - ('0' as int) == d
  {
    (('0' as int) + d) as char
  }

  /** Decimal rendering of a natural number, as JavaScript template strings
      and Python f-strings print an integer. */
  function NatToString(n: nat): (s: string)
    ensures |s| >= 1
    ensures forall i :: 0 <= i < |s| ==> IsDigit(s[i])
    decreases n
  {
    if n < 10 then [DigitChar(n)] else NatToString(n / 10) + [DigitChar(n % 10)]
  }

  /** Reads a string of decimal digits back as a number. */
  function ParseNat(s: string): nat
    requires forall i :: 0 <= i < |s| ==> IsDigit(s[i])
  {
    if s == [] then 0
    else
      assert IsDigit(s[|s| - 1]);
      ParseNat(s[..|s| - 1]) * 10 + ((s[|s| - 1] as int) - ('0' as int))
  }

  /** The rendering loses nothing: the number can be read back from it. */
  lemma {:induction false} NatToStringRoundTrip(n: nat)
    ensures ParseNat(NatToString(n)) == n
    decreases n
  {
    if n >= 10 {
      NatToStringRoundTrip(n / 10);
      var s := NatToString(n);
      assert s[..|s| - 1] == NatToString(n / 10);
    }
  }

  /** Different numbers are rendered as different strings. */
  lemma NatToStringInjective(m: nat, n: nat)
    requires NatToString(m) == NatToString(n)
    ensures m == n
  {
    NatToStringRoundTrip(m);
    NatToStringRoundTrip(n);
  }

  function UpperChar(c: char): char
  {
    if 'a' <= c <= 'z' then ((c as int) - 32) as char else c
  }

  /** `String.prototype.toUpperCase` on the ASCII letters. */
  function ToUpper(s: string): (r: string)
    ensures |r| == |s|
    ensures forall i :: 0 <= i < |s| ==> r[i] == UpperChar(s[i])
  {
    seq(|s|, i requires 0 <= i < |s| => UpperChar(s[i]))
  }
}
