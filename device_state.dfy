/**
 * How the dashboard folds WebSocket messages into the device it shows.
 *
 * A device is the JSON object `getDeviceInfo` returned, seen as its map of
 * top-level fields; the four buckets `attributesServerScope`,
 * `attributesClientScope`, `attributesSharedScope` and `timeseries` are fields
 * holding objects. A state of `None` is React's `null` device.
 *
 * Two updaters exist: the bucket merge of
 * src/features/dashboard/hooks/useDeviceData.ts, and the older flat merge of
 * src/features/dashboard/pages/DeviceDashboardPage.tsx that writes the first
 * sample of each payload key into a top-level field. The page's load state
 * around `getDeviceInfo` is modelled at the end.
 */
module DeviceState {
  import opened Wrappers
  import opened Js
  import DeviceSocket

  type Device = map<string, JsValue>

  /** The field `{ ...v }` reads for name `k` of a device (undefined when absent). */
  function Field(d: Device, k: string): JsValue {
    if k in d then d[k] else Undefined
  }

  // ---------------------------------------------------------------------------
  // Bucket merge (useDeviceData)

  /** The bucket the `switch (data.subscriptionId)` selects; `===` only matches
    * the numbers 1 to 4 themselves. */
  function BucketFor(subscriptionId: JsValue): (b: Option<string>)
    ensures b.Some? <==> subscriptionId in {Num(1), Num(2), Num(3), Num(4)}
    ensures subscriptionId == Num(1) ==> b == Some("attributesServerScope")
    ensures subscriptionId == Num(2) ==> b == Some("attributesClientScope")
    ensures subscriptionId == Num(3) ==> b == Some("attributesSharedScope")
    ensures subscriptionId == Num(4) ==> b == Some("timeseries")
  {
    match subscriptionId
    case Num(n) =>
      if n == 1 then Some("attributesServerScope")
      else if n == 2 then Some("attributesClientScope")
      else if n == 3 then Some("attributesSharedScope")
      else if n == 4 then Some("timeseries")
      else None
    case _ => None
  }

  /** `{ ...bucket, ...payload }`: the payload's keys win. */
  function MergeFields(bucket: JsValue, payload: JsValue): (m: map<string, JsValue>)
    ensures m.Keys == SpreadFields(bucket).Keys + SpreadFields(payload).Keys
    ensures forall k :: k in SpreadFields(payload) ==> m[k] == SpreadFields(payload)[k]
    ensures forall k :: k in SpreadFields(bucket) && k !in SpreadFields(payload) ==> m[k] == SpreadFields(bucket)[k]
  {
    SpreadFields(bucket) + SpreadFields(payload)
  }

  /** The `onWebSocketMessage` updater: the new device state for message `msg`. */
  function OnWebSocketMessage(prev: Option<Device>, msg: JsValue): (r: Option<Device>)
    // without data, or without a device, nothing changes (a null device stays null)
    ensures !Truthy(OptProp(msg, "data")) ==> r == prev
    ensures prev.None? ==> r.None?
    // an unknown subscription id leaves the device as it was
    ensures BucketFor(OptProp(msg, "subscriptionId")).None? ==> r == prev
    // otherwise exactly the selected bucket becomes the merge of itself and the payload
    ensures prev.Some? && Truthy(OptProp(msg, "data")) && BucketFor(OptProp(msg, "subscriptionId")).Some? ==>
      var b := BucketFor(OptProp(msg, "subscriptionId")).value;
      && r.Some?
      && r.value.Keys == prev.value.Keys + {b}
      && r.value[b] == Obj(MergeFields(Field(prev.value, b), OptProp(msg, "data")))
      && forall k :: k in prev.value && k != b ==> r.value[k] == prev.value[k]
  {
    var data := OptProp(msg, "data");
    if !Truthy(data) then prev
    else match prev
      case None => None
      case Some(d) =>
        match BucketFor(OptProp(msg, "subscriptionId"))
        case None => prev
        case Some(b) => Some(d[b := Obj(MergeFields(Field(d, b), data))])
  }

  /** The bucket each handshake subscription of the device socket feeds. */
  function ScopeBucket(scope: string): string {
    if scope == "SERVER_SCOPE" then "attributesServerScope"
    else if scope == "CLIENT_SCOPE" then "attributesClientScope"
    else if scope == "SHARED_SCOPE" then "attributesSharedScope"
    else "timeseries"
  }

  /** The command ids of the handshake frame are exactly the subscription ids
    * the updater routes, each to the bucket its scope names. */
  lemma HandshakeFeedsBuckets(deviceId: string, token: JsValue)
    ensures
      var h := DeviceSocket.HandshakeFrame(deviceId, token);
      forall j :: 0 <= j < |h.cmds| ==> BucketFor(Num(h.cmds[j].cmdId)) == Some(ScopeBucket(h.cmds[j].scope))
  {
    var h := DeviceSocket.HandshakeFrame(deviceId, token);
    assert BucketFor(Num(h.cmds[0].cmdId)) == Some(ScopeBucket(h.cmds[0].scope));
    assert BucketFor(Num(h.cmds[1].cmdId)) == Some(ScopeBucket(h.cmds[1].scope));
    assert BucketFor(Num(h.cmds[2].cmdId)) == Some(ScopeBucket(h.cmds[2].scope));
    assert BucketFor(Num(h.cmds[3].cmdId)) == Some(ScopeBucket(h.cmds[3].scope));
  }

  /** Replaying the same message is harmless: keys are overwritten with the same
    * values. */
  lemma BucketMergeIdempotent(prev: Option<Device>, msg: JsValue)
    ensures OnWebSocketMessage(OnWebSocketMessage(prev, msg), msg) == OnWebSocketMessage(prev, msg)
  {
    var data := OptProp(msg, "data");
    var b := BucketFor(OptProp(msg, "subscriptionId"));
    if prev.Some? && Truthy(data) && b.Some? {
      var once := OnWebSocketMessage(prev, msg).value;
      var merged := MergeFields(Field(prev.value, b.value), data);
      assert Field(once, b.value) == Obj(merged);
      assert MergeFields(Obj(merged), data) == merged;
      assert once[b.value := Obj(merged)] == once;
    }
  }

  // ---------------------------------------------------------------------------
  // Flat merge (DeviceDashboardPage)

  /** The thrown error: a property read on undefined or null. */
  datatype Thrown = TypeError

  /** `v[0][1]`, the value of the first `[timestamp, value]` sample; None when it throws. */
  function FirstValue(v: JsValue): (r: Option<JsValue>)
    ensures Index(v, 0).None? ==> r.None?
    ensures Index(v, 0).Some? ==> r == Index(Index(v, 0).value, 1)
  {
    match Index(v, 0)
    case None => None
    case Some(first) => Index(first, 1)
  }

  /** Every key of the payload has a first sample to read. */
  predicate AllReadable(payload: map<string, JsValue>) {
    forall k :: k in payload ==> FirstValue(payload[k]).Some?
  }

  /** What the updater in the page produces: the device with each payload key
    * set to its first sample's value, or the TypeError one of them throws. */
  function FlatMerge(prev: Option<Device>, msg: JsValue): (r: Result<Option<Device>, Thrown>)
    ensures !Truthy(OptProp(msg, "data")) ==> r == Success(prev)
    ensures Truthy(OptProp(msg, "data")) && prev.None? ==> r == Success(None)
    // the updater throws exactly when some payload entry has no first sample
    ensures r.Failure? <==> Truthy(OptProp(msg, "data")) && prev.Some? && !AllReadable(SpreadFields(OptProp(msg, "data")))
    ensures Truthy(OptProp(msg, "data")) && prev.Some? && r.Success? ==>
      var payload := SpreadFields(OptProp(msg, "data"));
      && r.value.Some?
      && r.value.value.Keys == prev.value.Keys + payload.Keys
      && (forall k :: k in payload ==> r.value.value[k] == FirstValue(payload[k]).value)
      && (forall k :: k in prev.value && k !in payload ==> r.value.value[k] == prev.value[k])
  {
    var data := OptProp(msg, "data");
    if !Truthy(data) then Success(prev)
    else if prev.None? then Success(None)
    else
      var payload := SpreadFields(data);
      if !AllReadable(payload) then Failure(TypeError)
      else Success(Some(prev.value + map k | k in payload :: FirstValue(payload[k]).value))
  }

  /** The updater itself: a copy of the device, then one assignment per payload
    * key. The keys are visited in an arbitrary order; the result does not
    * depend on it. */
  method OnDashboardMessage(prev: Option<Device>, msg: JsValue) returns (r: Result<Option<Device>, Thrown>)
    ensures r == FlatMerge(prev, msg)
  {
    var data := OptProp(msg, "data");
    if !Truthy(data) {
      return Success(prev);
    }
    if prev.None? {
      return Success(None);
    }
    var payload := SpreadFields(data);
    var newDevice := prev.value;
    var keys := payload.Keys;
    while keys != {}
      invariant keys <= payload.Keys
      invariant forall k :: k in payload && k !in keys ==> FirstValue(payload[k]).Some?
      invariant newDevice.Keys == prev.value.Keys + (payload.Keys - keys)
      invariant forall k :: k in payload && k !in keys ==> newDevice[k] == FirstValue(payload[k]).value
      invariant forall k :: k in prev.value && (k !in payload || k in keys) ==> newDevice[k] == prev.value[k]
      decreases keys
    {
      var key :| key in keys;
      var value := FirstValue(payload[key]);
      if value.None? {
        assert !AllReadable(payload);
        return Failure(TypeError);
      }
      newDevice := newDevice[key := value.value];
      keys := keys - {key};
    }
    MergedByAssignments(prev.value, payload, newDevice);
    return Success(Some(newDevice));
  }

  /** The device the assignments leave is the merge `FlatMerge` describes. */
  lemma MergedByAssignments(d: Device, payload: map<string, JsValue>, updated: Device)
    requires AllReadable(payload)
    requires updated.Keys == d.Keys + payload.Keys
    requires forall k :: k in payload ==> updated[k] == FirstValue(payload[k]).value
    requires forall k :: k in d && k !in payload ==> updated[k] == d[k]
    ensures updated == d + map k | k in payload :: FirstValue(payload[k]).value
  {
    var values := map k | k in payload :: FirstValue(payload[k]).value;
    var merged := d + values;
    assert merged.Keys == updated.Keys;
    forall k | k in merged
      ensures merged[k] == updated[k]
    {
      if k in payload {
        assert merged[k] == values[k];
      } else {
        assert merged[k] == d[k];
      }
    }
  }

  /** A payload in the shape the server sends, `{ key: [[ts, value], ...] }`,
    * sets each key to its latest value and leaves every other field alone. */
  lemma WellFormedPayloadMerges(d: Device, payload: map<string, JsValue>)
    requires payload != map[]
    requires forall k :: k in payload ==> payload[k].Arr? && |payload[k].items| > 0 && payload[k].items[0].Arr?
    ensures
      var r := FlatMerge(Some(d), Obj(map["data" := Obj(payload)]));
      r.Success? && r.value.Some? &&
      forall k :: k in payload ==> r.value.value[k] == OptIndex(payload[k].items[0], 1)
  {
    assert OptProp(Obj(map["data" := Obj(payload)]), "data") == Obj(payload);
  }

  // ---------------------------------------------------------------------------
  // Load state

  /** The page's `loading` flag and `device`. */
  datatype View = View(loading: bool, device: Option<Device>)

  /** The effect on a (truthy) device id: loading starts. */
  function BeginLoad(v: View): (r: View)
    ensures r.loading && r.device == v.device
  {
    v.(loading := true)
  }

  /** `.then(setDevice)` / `.catch(() => setDevice(null))` / `.finally(() => setLoading(false))` */
  function FinishLoad(v: View, outcome: Result<Device, Thrown>): (r: View)
    ensures !r.loading
    ensures outcome.Success? ==> r.device == Some(outcome.value)
    ensures outcome.Failure? ==> r.device.None?
  {
    View(false, if outcome.Success? then Some(outcome.value) else None)
  }

  /** The page state around one `getDeviceInfo` call. */
  class DeviceView {
    var loading: bool
    var device: Option<Device>

    constructor ()
      ensures loading && device.None?
    {
      loading, device := true, None;
    }

    method StartLoad(deviceId: string)
      modifies this
      ensures deviceId != "" ==> View(loading, device) == BeginLoad(old(View(loading, device)))
      ensures deviceId == "" ==> loading == old(loading) && device == old(device)
    {
      if deviceId != "" {
        loading := true;
      }
    }

    method LoadSettled(outcome: Result<Device, Thrown>)
      modifies this
      ensures View(loading, device) == FinishLoad(old(View(loading, device)), outcome)
    {
      match outcome {
        case Success(d) => device := Some(d);
        case Failure(_) => device := None;
      }
      loading := false;
    }

    method OnMessage(msg: JsValue)
      modifies this
      ensures loading == old(loading)
      ensures FlatMerge(old(device), msg).Success? ==> device == FlatMerge(old(device), msg).value
      ensures FlatMerge(old(device), msg).Failure? ==> device == old(device)
    {
      var r := OnDashboardMessage(device, msg);
      if r.Success? {
        device := r.value;
      }
    }
  }

  /** Whatever the earlier state and outcome, a settled load is no longer
    * loading, and a message arriving before the device loaded is dropped. */
  lemma LoadThenSettle(v: View, outcome: Result<Device, Thrown>, msg: JsValue)
    ensures !FinishLoad(BeginLoad(v), outcome).loading
    ensures BeginLoad(v).device.None? ==> FlatMerge(BeginLoad(v).device, msg) == Success(None)
  {
  }
}
