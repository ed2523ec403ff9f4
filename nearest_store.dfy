/** The consumer's nearest-store screen: the location permission decision,
    the position-watch handle, and the store search request and reply. */
module NearestStore {
  import opened Common

  /** The permission library's check/request results. */
  datatype PermissionStatus = Unavailable | Denied | Limited | Granted | Blocked

  /** A call into the permission library: it returns a status or throws. */
  datatype Call<T> = Returned(value: T) | Threw

  /** The value `requestLocationPermission` resolves to. */
  datatype JsValue = JsTrue | JsFalse | Undefined

  /** Only `true` passes the `if (!hasPermission) return;` guard. */
  predicate Truthy(v: JsValue) { v == JsTrue }

  /** The outcome of `requestLocationPermission`: whether it asked the user,
      the value it resolves to, and the alert it shows. */
  datatype PermissionDecision = PermissionDecision(requested: bool, result: JsValue, alert: Option<Alert>)

  /** The decision tree: granted passes without asking; denied asks once and
      passes only on a grant; blocked fails with an alert; an error fails;
      any other status falls through to `undefined`. */
  function RequestLocationPermission(checked: Call<PermissionStatus>, requested: Call<PermissionStatus>): (r: PermissionDecision)
    ensures r.requested <==> checked == Returned(Denied)
    ensures Truthy(r.result) <==>
      checked == Returned(Granted) || (checked == Returned(Denied) && requested == Returned(Granted))
    ensures r.result == Undefined <==> checked == Returned(Unavailable) || checked == Returned(Limited)
    ensures r.alert.Some? <==> checked == Returned(Blocked)
    ensures r.alert.Some? ==> r.alert.value == Alert("Permission Blocked", "Enable location permission from settings.")
  {
    match checked
    case Threw => PermissionDecision(false, JsFalse, None)
    case Returned(Granted) => PermissionDecision(false, JsTrue, None)
    case Returned(Denied) =>
      var result := match requested
        case Threw => JsFalse
        case Returned(s) => if s == Granted then JsTrue else JsFalse;
      PermissionDecision(true, result, None)
    case Returned(Blocked) =>
      PermissionDecision(false, JsFalse, Some(Alert("Permission Blocked", "Enable location permission from settings.")))
    case Returned(_) => PermissionDecision(false, Undefined, None)
  }

  /** An id handed out by the position-watch API. */
  type WatchId = int

  /** `watchIdRef.current` and the watches the position API holds open. */
  class LocationWatcher {
    var watchId: Option<WatchId>
    var activeWatches: set<WatchId>

    constructor ()
      ensures watchId == None && activeWatches == {}
    {
      watchId := None;
      activeWatches := {};
    }

    /** `startWatching`: registers a watch (the API hands out `newId`) and
        holds its id, only when permission came back truthy. An id already
        held is overwritten without clearing its watch. */
    method StartWatching(checked: Call<PermissionStatus>, requested: Call<PermissionStatus>, newId: WatchId)
      returns (decision: PermissionDecision)
      requires newId !in activeWatches
      modifies this
      ensures decision == RequestLocationPermission(checked, requested)
      ensures Truthy(decision.result) ==> watchId == Some(newId) && activeWatches == old(activeWatches) + {newId}
      ensures !Truthy(decision.result) ==> watchId == old(watchId) && activeWatches == old(activeWatches)
    {
      decision := RequestLocationPermission(checked, requested);
      if Truthy(decision.result) {
        activeWatches := activeWatches + {newId};
        watchId := Some(newId);
      }
    }

    /** `stopWatching`: acts only when an id is held; clears that watch and
        forgets the id. */
    method StopWatching() returns (alert: Option<Alert>)
      modifies this
      ensures old(watchId).Some? ==>
        watchId == None && activeWatches == old(activeWatches) - {old(watchId).value} &&
        alert == Some(Alert("Stopped Watching", "Location updates have been stopped."))
      ensures old(watchId).None? ==> watchId == None && activeWatches == old(activeWatches) && alert == None
    {
      alert := None;
      if watchId.Some? {
        activeWatches := activeWatches - {watchId.value};
        watchId := None;
        alert := Some(Alert("Stopped Watching", "Location updates have been stopped."));
      }
    }

    /** The unmount cleanup: clears the held watch, if any, and leaves the
        ref as it is. */
    method Unmount()
      modifies this
      ensures watchId == old(watchId)
      ensures activeWatches == if old(watchId).Some? then old(activeWatches) - {old(watchId).value} else old(activeWatches)
    {
      if watchId.Some? {
        activeWatches := activeWatches - {watchId.value};
      }
    }
  }

  /** Stop is idempotent: a second stop does nothing and raises no alert. */
  method StopTwice(id: WatchId) returns (second: Option<Alert>, open: set<WatchId>)
    ensures second == None && open == {}
  {
    var w := new LocationWatcher();
    var _ := w.StartWatching(Returned(Granted), Returned(Granted), id);
    var _ := w.StopWatching();
    second := w.StopWatching();
    open := w.activeWatches;
  }

  /** Starting twice without stopping leaks the first watch: it stays open
      and no held id refers to it any more, so neither stop nor unmount can
      clear it. */
  method StartTwiceLeaks(first: WatchId, second: WatchId) returns (open: set<WatchId>)
    requires first != second
    ensures open == {first}
  {
    var w := new LocationWatcher();
    var _ := w.StartWatching(Returned(Granted), Returned(Granted), first);
    var _ := w.StartWatching(Returned(Granted), Returned(Granted), second);
    var _ := w.StopWatching();
    w.Unmount();
    open := w.activeWatches;
  }

  /** Plain JSON values, as store records carry them. */
  datatype JsonValue = JString(s: string) | JNumber(n: real) | JBool(b: bool) | JNull

  type Record = map<string, JsonValue>

  /** The screen's `location` state: unset until the watch reports. */
  datatype DeviceLocation = DeviceLocation(latitude: Option<real>, longitude: Option<real>)

  /** The store search request body `{radius, lat, lon}`. */
  datatype StoreQuery = StoreQuery(radius: Option<string>, lat: Option<real>, lon: Option<real>)

  function StoreQueryFor(radius: Option<string>, location: DeviceLocation): (q: StoreQuery)
    ensures q.radius == radius && q.lat == location.latitude && q.lon == location.longitude
  {
    StoreQuery(radius, location.latitude, location.longitude)
  }

  /** One store entry: `{name: key, ...fields}`. Spread fields come last, so
      a `name` field of the record wins over the key. */
  function StoreEntry(key: string, fields: Record): (r: Record)
    ensures r.Keys == fields.Keys + {"name"}
    ensures r["name"] == if "name" in fields then fields["name"] else JString(key)
    ensures forall k :: k in fields ==> r[k] == fields[k]
  {
    map["name" := JString(key)] + fields
  }

  /** The reply to the store search. On status 200 the body is an object
      from store name to record, in key order; otherwise its `error` field. */
  datatype StoresReply =
    | FetchThrew
    | Replied(status: int, stores: seq<(string, Record)>, error: Option<string>)

  /** The 200 conversion: one entry per key, in key order. */
  function StoresFrom(stores: seq<(string, Record)>): (r: seq<Record>)
    ensures |r| == |stores|
    ensures forall i :: 0 <= i < |stores| ==> r[i] == StoreEntry(stores[i].0, stores[i].1)
  {
    seq(|stores|, i requires 0 <= i < |stores| => StoreEntry(stores[i].0, stores[i].1))
  }

  /** `result.error || 'Failed to fetch stores.'` */
  function ErrorOrDefault(error: Option<string>): (r: string)
    ensures error.Some? && error.value != "" ==> r == error.value
    ensures error.None? || error.value == "" ==> r == "Failed to fetch stores."
  {
    if error.Some? && error.value != "" then error.value else "Failed to fetch stores."
  }

  /** The new `Stores` and the alert after a reply: only a 200 replaces the
      list; anything else keeps it and alerts. */
  function ApplyStoresReply(current: seq<Record>, reply: StoresReply): (r: (seq<Record>, Option<Alert>))
    ensures reply.Replied? && reply.status == 200 ==> r == (StoresFrom(reply.stores), None)
    ensures reply.Replied? && reply.status != 200 ==> r == (current, Some(Alert("Error", ErrorOrDefault(reply.error))))
    ensures reply.FetchThrew? ==> r == (current, Some(Alert("Error", "An error occurred. Please try again.")))
  {
    match reply
    case FetchThrew => (current, Some(Alert("Error", "An error occurred. Please try again.")))
    case Replied(status, stores, error) =>
      if status == 200 then (StoresFrom(stores), None)
      else (current, Some(Alert("Error", ErrorOrDefault(error))))
  }

  /** Each entry is named after its key unless the record has its own
      `name`, and keeps every field of the record. */
  lemma StoreNames(stores: seq<(string, Record)>, i: int)
    requires 0 <= i < |stores|
    ensures "name" !in stores[i].1 ==> StoresFrom(stores)[i]["name"] == JString(stores[i].0)
    ensures stores[i].1.Keys <= StoresFrom(stores)[i].Keys
  {
  }
}
