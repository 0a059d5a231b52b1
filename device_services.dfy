/**
 * The REST services the dashboard calls
 * (src/features/dashboard/services/deviceConfigService.ts and deviceService.ts):
 * reading and saving a device's shared attributes, listing the user's
 * devices through a local-storage cache, and reading one device's info.
 *
 * Each service reads its credentials from local storage and throws before
 * any request when they are missing. The network is a parameter: `server`
 * gives the response to each request, and every request issued is returned
 * in order. Bodies are the values handed to `JSON.stringify` and the values
 * `response.json()` yields.
 */
module DeviceServices {
  import opened Wrappers
  import opened Js
  import Storage

  datatype HttpMethod = Get | Post

  /** A request: its method, URL, the bearer token of its `X-Authorization`
    * header and its body. */
  datatype Request = Request(verb: HttpMethod, url: string, token: JsValue, body: Option<JsValue>)

  datatype Response = Response(ok: bool, body: JsValue)

  /** Why a service call throws. */
  datatype ServiceError =
    | NotAuthenticated   // the credentials in storage are missing
    | RequestFailed      // the response was not ok
    | TypeError          // the response, or the stored user, has the wrong shape

  /** A call's result and the requests it issued. */
  datatype Outcome<T> = Outcome(result: Result<T, ServiceError>, requests: seq<Request>)

  // ---------------------------------------------------------------------------
  // getDeviceConfig and saveDeviceConfig

  function ConfigUrl(server: JsValue, deviceId: string): string {
    "https://" + ToStr(server) + "/api/plugins/telemetry/DEVICE/" + deviceId + "/values/attributes/SHARED_SCOPE"
  }

  function SaveConfigUrl(server: JsValue, deviceId: string): string {
    "https://" + ToStr(server) + "/api/plugins/telemetry/DEVICE/" + deviceId + "/attributes/SHARED_SCOPE"
  }

  /** Reading `attr.key` throws on these. */
  predicate Nullish(v: JsValue) {
    v.Undefined? || v.Null?
  }

  /** The property name `attr.key` becomes when used as a key. */
  function AttrKey(attr: JsValue): string {
    ToStr(OptProp(attr, "key"))
  }

  function AttrValue(attr: JsValue): JsValue {
    OptProp(attr, "value")
  }

  /** No later entry of `attrs` has the key of entry `i`. */
  predicate IsLastWithKey(attrs: seq<JsValue>, i: int)
    requires 0 <= i < |attrs|
  {
    forall j :: i < j < |attrs| ==> AttrKey(attrs[j]) != AttrKey(attrs[i])
  }

  /** The config the `forEach` builds from an attribute list, each entry
    * setting its key to its value; None when an entry is undefined or null,
    * where the callback throws. */
  function ConfigOf(attrs: seq<JsValue>): (r: Option<map<string, JsValue>>)
    ensures r.None? <==> exists i :: 0 <= i < |attrs| && Nullish(attrs[i])
    decreases |attrs|
  {
    if attrs == [] then Some(map[])
    else
      var init := attrs[..|attrs| - 1];
      var last := attrs[|attrs| - 1];
      var prev := ConfigOf(init);
      assert forall i :: 0 <= i < |init| ==> init[i] == attrs[i];
      if prev.None? || Nullish(last) then None
      else Some(prev.value[AttrKey(last) := AttrValue(last)])
  }

  /** The keys of the config are exactly the keys in the list: a key the
    * response does not list is absent. */
  lemma {:induction false} ConfigKeys(attrs: seq<JsValue>)
    requires ConfigOf(attrs).Some?
    ensures ConfigOf(attrs).value.Keys == set i | 0 <= i < |attrs| :: AttrKey(attrs[i])
    decreases |attrs|
  {
    if attrs != [] {
      var init := attrs[..|attrs| - 1];
      ConfigKeys(init);
      assert forall i :: 0 <= i < |init| ==> init[i] == attrs[i];
      assert (set i | 0 <= i < |attrs| :: AttrKey(attrs[i]))
        == (set i | 0 <= i < |init| :: AttrKey(init[i])) + {AttrKey(attrs[|attrs| - 1])};
    }
  }

  /** Each key takes the value of its last entry in the list. */
  lemma {:induction false} ConfigLastWins(attrs: seq<JsValue>, i: int)
    requires ConfigOf(attrs).Some?
    requires 0 <= i < |attrs| && IsLastWithKey(attrs, i)
    ensures AttrKey(attrs[i]) in ConfigOf(attrs).value
    ensures ConfigOf(attrs).value[AttrKey(attrs[i])] == AttrValue(attrs[i])
    decreases |attrs|
  {
    var init := attrs[..|attrs| - 1];
    if i < |init| {
      assert forall k :: 0 <= k < |init| ==> init[k] == attrs[k];
      assert IsLastWithKey(init, i);
      ConfigLastWins(init, i);
    }
  }

  /** `getDeviceConfig(deviceId)` against the storage contents `items`. */
  function FetchConfig(deviceId: string, items: map<string, JsValue>, server: Request -> Response)
    : (r: Outcome<map<string, JsValue>>)
    ensures !Truthy(Storage.Lookup(items, "token")) || !Truthy(Storage.Lookup(items, "server")) <==>
      r == Outcome(Failure(NotAuthenticated), [])
    ensures r.requests != [] ==>
      r.requests == [Request(Get, ConfigUrl(Storage.Lookup(items, "server"), deviceId), Storage.Lookup(items, "token"), None)]
    ensures r.requests != [] && !server(r.requests[0]).ok ==> r.result == Failure(RequestFailed)
    ensures r.result.Success? ==>
      && r.requests != []
      && server(r.requests[0]).ok
      && server(r.requests[0]).body.Arr?
      && ConfigOf(server(r.requests[0]).body.items) == Some(r.result.value)
    // a signed-in call makes exactly one request
    ensures Truthy(Storage.Lookup(items, "token")) && Truthy(Storage.Lookup(items, "server")) ==> |r.requests| == 1
    // an ok response with a readable attribute list is a success
    ensures r.requests != [] && server(r.requests[0]).ok && server(r.requests[0]).body.Arr? &&
            ConfigOf(server(r.requests[0]).body.items).Some? ==>
      r.result == Success(ConfigOf(server(r.requests[0]).body.items).value)
    // an ok response of another shape throws a TypeError
    ensures r.requests != [] && server(r.requests[0]).ok &&
            (!server(r.requests[0]).body.Arr? || ConfigOf(server(r.requests[0]).body.items).None?) ==>
      r.result == Failure(TypeError)
  {
    var token := Storage.Lookup(items, "token");
    var host := Storage.Lookup(items, "server");
    if !Truthy(token) || !Truthy(host) then Outcome(Failure(NotAuthenticated), [])
    else
      var request := Request(Get, ConfigUrl(host, deviceId), token, None);
      var response := server(request);
      if !response.ok then Outcome(Failure(RequestFailed), [request])
      else if !response.body.Arr? then Outcome(Failure(TypeError), [request])
      else match ConfigOf(response.body.items)
        case None => Outcome(Failure(TypeError), [request])
        case Some(config) => Outcome(Success(config), [request])
  }

  /** `getDeviceConfig(deviceId)`, filling the config entry by entry. */
  method GetDeviceConfig(deviceId: string, storage: Storage.LocalStorage, server: Request -> Response)
    returns (result: Result<map<string, JsValue>, ServiceError>, requests: seq<Request>)
    ensures Outcome(result, requests) == FetchConfig(deviceId, storage.items, server)
  {
    var token := storage.Get("token");
    var host := storage.Get("server");
    if !Truthy(token) || !Truthy(host) {
      return Failure(NotAuthenticated), [];
    }
    var request := Request(Get, ConfigUrl(host, deviceId), token, None);
    requests := [request];
    var response := server(request);
    if !response.ok {
      return Failure(RequestFailed), requests;
    }
    if !response.body.Arr? {
      return Failure(TypeError), requests;
    }
    var attributes := response.body.items;
    var config: map<string, JsValue> := map[];
    var i := 0;
    while i < |attributes|
      invariant 0 <= i <= |attributes|
      invariant ConfigOf(attributes[..i]) == Some(config)
    {
      var attr := attributes[i];
      assert attributes[..i + 1][..i] == attributes[..i];
      if Nullish(attr) {
        assert attributes[..i + 1][i] == attr;
        assert ConfigOf(attributes[..i + 1]).None?;
        assert attributes[i] == attr;
        return Failure(TypeError), requests;
      }
      config := config[AttrKey(attr) := AttrValue(attr)];
      i := i + 1;
    }
    assert attributes[..i] == attributes;
    result := Success(config);
  }

  /** `saveDeviceConfig(deviceId, config)` against the storage contents `items`. */
  function SaveConfig(deviceId: string, config: map<string, JsValue>, items: map<string, JsValue>,
                      server: Request -> Response): (r: Outcome<()>)
    ensures !Truthy(Storage.Lookup(items, "token")) || !Truthy(Storage.Lookup(items, "server")) <==>
      r == Outcome(Failure(NotAuthenticated), [])
    ensures r.requests != [] ==>
      r.requests == [Request(Post, SaveConfigUrl(Storage.Lookup(items, "server"), deviceId),
                             Storage.Lookup(items, "token"), Some(Obj(config)))]
    ensures r.requests != [] ==> (r.result.Success? <==> server(r.requests[0]).ok)
    ensures r.result.Failure? ==> r.result.error.NotAuthenticated? || r.result.error.RequestFailed?
    // a signed-in call makes exactly one request
    ensures Truthy(Storage.Lookup(items, "token")) && Truthy(Storage.Lookup(items, "server")) ==> |r.requests| == 1
  {
    var token := Storage.Lookup(items, "token");
    var host := Storage.Lookup(items, "server");
    if !Truthy(token) || !Truthy(host) then Outcome(Failure(NotAuthenticated), [])
    else
      var request := Request(Post, SaveConfigUrl(host, deviceId), token, Some(Obj(config)));
      if server(request).ok then Outcome(Success(()), [request])
      else Outcome(Failure(RequestFailed), [request])
  }

  // ---------------------------------------------------------------------------
  // getDevices and getDeviceInfo

  const DEVICES_CACHE_KEY := "devices"

  /** The device types the dashboard lists. */
  const DEVICE_TYPES := [Str("UDAWA Gadadar"), Str("UDAWA Damodar"), Str("UDAWA Murari")]

  /** The body of the device query for the customer `rootId`: the devices the
    * customer contains, up to three relation levels down, of the UDAWA types. */
  function DevicesQuery(rootId: JsValue): (r: JsValue)
    ensures r.Obj? && "parameters" in r.fields && r.fields["parameters"].Obj?
    ensures "rootId" in r.fields["parameters"].fields && r.fields["parameters"].fields["rootId"] == rootId
    ensures "rootType" in r.fields["parameters"].fields && r.fields["parameters"].fields["rootType"] == Str("CUSTOMER")
    ensures "maxLevel" in r.fields["parameters"].fields && r.fields["parameters"].fields["maxLevel"] == Num(3)
    ensures "deviceTypes" in r.fields && r.fields["deviceTypes"] == Arr(DEVICE_TYPES)
  {
    Obj(map[
      "parameters" := Obj(map[
        "rootId" := rootId,
        "rootType" := Str("CUSTOMER"),
        "direction" := Str("FROM"),
        "relationTypeGroup" := Str("COMMON"),
        "maxLevel" := Num(3),
        "fetchLastLevelOnly" := Bool(false)]),
      "relationType" := Str("Contains"),
      "deviceTypes" := Arr(DEVICE_TYPES)])
  }

  /** The result of `getDevices`, its requests and the storage it leaves. */
  datatype DevicesOutcome = DevicesOutcome(result: Result<JsValue, ServiceError>, requests: seq<Request>,
                                           items: map<string, JsValue>)

  /** `getDevices(force)` against the storage contents `items`; `apiUrl` is
    * the configured API base URL. */
  function FetchDevices(force: bool, items: map<string, JsValue>, apiUrl: string, server: Request -> Response)
    : (r: DevicesOutcome)
    // a cached list is returned as it is, with no credentials and no request
    ensures Truthy(Storage.Lookup(items, DEVICES_CACHE_KEY)) && !force ==>
      r == DevicesOutcome(Success(Storage.Lookup(items, DEVICES_CACHE_KEY)), [], items)
    ensures !(Truthy(Storage.Lookup(items, DEVICES_CACHE_KEY)) && !force) &&
            (!Truthy(Storage.Lookup(items, "token")) || !Truthy(Storage.Lookup(items, "user"))) ==>
      r == DevicesOutcome(Failure(NotAuthenticated), [], items)
    // at most one request: the device query for the stored user's customer
    ensures |r.requests| <= 1
    ensures r.requests != [] ==>
      && r.requests[0].verb == Post
      && r.requests[0].url == apiUrl + "/api/devices"
      && r.requests[0].token == Storage.Lookup(items, "token")
      && Prop(OptProp(Storage.Lookup(items, "user"), "customerId"), "id").Some?
      && r.requests[0].body == Some(DevicesQuery(Prop(OptProp(Storage.Lookup(items, "user"), "customerId"), "id").value))
    // a failure leaves the cache as it was
    ensures r.result.Failure? ==> r.items == items
    ensures r.result.Failure? && r.requests != [] ==> r.result.error == RequestFailed
    // a fetched list is cached and returned
    ensures r.result.Success? && r.requests != [] ==>
      && server(r.requests[0]).ok
      && r.result.value == server(r.requests[0]).body
      && r.items == items[DEVICES_CACHE_KEY := r.result.value]
    ensures r.result.Success? && r.requests == [] ==> r.items == items
    // a signed-in cache miss asks the server once, or throws before asking
    // when the stored user has no customer id
    ensures !(Truthy(Storage.Lookup(items, DEVICES_CACHE_KEY)) && !force) &&
            Truthy(Storage.Lookup(items, "token")) && Truthy(Storage.Lookup(items, "user")) ==>
      (|r.requests| == 1 <==> Prop(OptProp(Storage.Lookup(items, "user"), "customerId"), "id").Some?)
    ensures !(Truthy(Storage.Lookup(items, DEVICES_CACHE_KEY)) && !force) &&
            Truthy(Storage.Lookup(items, "token")) && Truthy(Storage.Lookup(items, "user")) &&
            Prop(OptProp(Storage.Lookup(items, "user"), "customerId"), "id").None? ==>
      r == DevicesOutcome(Failure(TypeError), [], items)
    // an ok response is a success, cached and returned
    ensures r.requests != [] && server(r.requests[0]).ok ==>
      && r.result == Success(server(r.requests[0]).body)
      && r.items == items[DEVICES_CACHE_KEY := server(r.requests[0]).body]
  {
    var cached := Storage.Lookup(items, DEVICES_CACHE_KEY);
    if Truthy(cached) && !force then DevicesOutcome(Success(cached), [], items)
    else
      var token := Storage.Lookup(items, "token");
      var user := Storage.Lookup(items, "user");
      if !Truthy(token) || !Truthy(user) then DevicesOutcome(Failure(NotAuthenticated), [], items)
      else match Prop(Prop(user, "customerId").value, "id")
        case None => DevicesOutcome(Failure(TypeError), [], items)
        case Some(rootId) =>
          var request := Request(Post, apiUrl + "/api/devices", token, Some(DevicesQuery(rootId)));
          var response := server(request);
          if !response.ok then DevicesOutcome(Failure(RequestFailed), [request], items)
          else DevicesOutcome(Success(response.body), [request], items[DEVICES_CACHE_KEY := response.body])
  }

  /** `getDevices(force)` reading and writing the cache in `storage`. */
  method GetDevices(force: bool, storage: Storage.LocalStorage, apiUrl: string, server: Request -> Response)
    returns (result: Result<JsValue, ServiceError>, requests: seq<Request>)
    modifies storage
    ensures DevicesOutcome(result, requests, storage.items) == FetchDevices(force, old(storage.items), apiUrl, server)
  {
    var cached := storage.Get(DEVICES_CACHE_KEY);
    if Truthy(cached) && !force {
      return Success(cached), [];
    }
    var token := storage.Get("token");
    var user := storage.Get("user");
    if !Truthy(token) || !Truthy(user) {
      return Failure(NotAuthenticated), [];
    }
    var rootId := Prop(Prop(user, "customerId").value, "id");
    if rootId.None? {
      return Failure(TypeError), [];
    }
    var request := Request(Post, apiUrl + "/api/devices", token, Some(DevicesQuery(rootId.value)));
    requests := [request];
    var response := server(request);
    if !response.ok {
      return Failure(RequestFailed), requests;
    }
    storage.Set(DEVICES_CACHE_KEY, response.body);
    result := Success(response.body);
  }

  /** `getDeviceInfo(deviceId)` against the storage contents `items`. */
  function FetchDeviceInfo(deviceId: string, items: map<string, JsValue>, apiUrl: string, server: Request -> Response)
    : (r: Outcome<JsValue>)
    ensures !Truthy(Storage.Lookup(items, "token")) <==> r == Outcome(Failure(NotAuthenticated), [])
    ensures r.requests != [] ==>
      r.requests == [Request(Get, apiUrl + "/api/device/info/" + deviceId, Storage.Lookup(items, "token"), None)]
    ensures r.requests != [] ==>
      r.result == if server(r.requests[0]).ok then Success(server(r.requests[0]).body) else Failure(RequestFailed)
    // a signed-in call makes exactly one request
    ensures Truthy(Storage.Lookup(items, "token")) ==> |r.requests| == 1
  {
    var token := Storage.Lookup(items, "token");
    if !Truthy(token) then Outcome(Failure(NotAuthenticated), [])
    else
      var request := Request(Get, apiUrl + "/api/device/info/" + deviceId, token, None);
      var response := server(request);
      Outcome(if response.ok then Success(response.body) else Failure(RequestFailed), [request])
  }

  // ---------------------------------------------------------------------------
  // Lemmas

  /** Once a list is fetched, the next unforced call answers from the cache,
    * whatever the server and the credentials are by then. */
  lemma FetchedListIsServedFromCache(force: bool, items: map<string, JsValue>, apiUrl: string,
                                     server: Request -> Response, later: Request -> Response)
    requires FetchDevices(force, items, apiUrl, server).result.Success?
    requires Truthy(FetchDevices(force, items, apiUrl, server).result.value)
    ensures var first := FetchDevices(force, items, apiUrl, server);
      FetchDevices(false, first.items, apiUrl, later) == DevicesOutcome(first.result, [], first.items)
  {
    var first := FetchDevices(force, items, apiUrl, server);
    if first.requests == [] {
      assert Storage.Lookup(items, DEVICES_CACHE_KEY) == first.result.value;
    } else {
      assert Storage.Lookup(first.items, DEVICES_CACHE_KEY) == first.result.value;
    }
  }

  /** A forced call for a signed-in user always asks the server. */
  lemma ForcedCallAsksTheServer(items: map<string, JsValue>, apiUrl: string, server: Request -> Response)
    requires Truthy(Storage.Lookup(items, "token")) && Storage.Lookup(items, "user").Obj?
    requires Prop(Storage.Lookup(items, "user"), "customerId").value.Obj?
    ensures |FetchDevices(true, items, apiUrl, server).requests| == 1
  {
  }

  /** Writing back the config that was read sends the same attributes to the
    * same device, on the same host and with the same token: the read and save
    * URLs share the device's path and differ only in the `values/` step. */
  lemma ReadThenSaveTargetsTheSameDevice(deviceId: string, items: map<string, JsValue>,
                                         server: Request -> Response)
    requires FetchConfig(deviceId, items, server).result.Success?
    ensures var config := FetchConfig(deviceId, items, server).result.value;
      var read := FetchConfig(deviceId, items, server).requests;
      var save := SaveConfig(deviceId, config, items, server).requests;
      var device := "https://" + ToStr(Storage.Lookup(items, "server")) + "/api/plugins/telemetry/DEVICE/" + deviceId;
      && |read| == 1 && |save| == 1
      && read[0].url == device + "/values/attributes/SHARED_SCOPE"
      && save[0].url == device + "/attributes/SHARED_SCOPE"
      && save[0].token == read[0].token
      && save[0].body == Some(Obj(config))
  {
  }

  /** A two-entry list with a repeated key keeps the second value. */
  lemma RepeatedKeyExample(a: JsValue, b: JsValue)
    ensures ConfigOf([Obj(map["key" := Str("hname"), "value" := a]), Obj(map["key" := Str("hname"), "value" := b])])
      == Some(map["hname" := b])
  {
    var attrs := [Obj(map["key" := Str("hname"), "value" := a]), Obj(map["key" := Str("hname"), "value" := b])];
    assert attrs[..1] == [attrs[0]];
    assert [attrs[0]][..0] == [];
    assert AttrKey(attrs[0]) == "hname" && AttrKey(attrs[1]) == "hname";
    assert AttrValue(attrs[0]) == a && AttrValue(attrs[1]) == b;
    assert ConfigOf([attrs[0]]) == Some(map[]["hname" := a]);
    assert ConfigOf(attrs) == Some(map[]["hname" := a]["hname" := b]);
    assert map[]["hname" := a]["hname" := b] == map["hname" := b];
  }
}
