# UDAWA-Cloud-WebIface: a verified model of the dashboard's logic

UDAWA-Cloud-WebIface is the web dashboard for UDAWA smart-farming devices (Gadadar, Damodar, Murari) on a
ThingsBoard-style IoT backend. Most of it is React UI. Under the UI sits a set of small pieces of
logic, and this project models those pieces in Dafny and proves properties of them:

- the telemetry channel, with its command-id counter and its pending and active subscription tables;
- the per-device WebSocket and its connection guard and fixed handshake frame;
- the two updaters that fold WebSocket messages into the device being shown, plus the page's load state;
- the bounded live-chart buffers of the Damodar and Murari monitors;
- the time-series transform, the time-range arithmetic and the request-parameter builder;
- the alarm-code table and the alarm card's show/dismiss state;
- the relay editor's change detection and call chain;
- the REST services for device config, the device list (with its local-storage cache) and device info;
- the signed-in session (login, logout, reload from storage).

## How the model is organised

Code that changes state step by step is a Dafny `class`, and its methods are proved against pure transition
functions on a `datatype` snapshot of that state (`ensures State() == AfterX(old(State()), ...)`). The
properties are `ensures` clauses of those functions and lemmas about them. Code that is pure in the source
(the bucket merge, the transform, the chart updater, the alarm table) is made of functions and lemmas.

The environment is made explicit:

- A WebSocket is a record with a ready state. Every socket a service ever created is kept in a sequence,
  with what its handlers captured, and the service's variable is an index into it. Browser events such as
  open, message, close and error are operations that name the socket they happen on. Sent frames,
  callback invocations and error toasts are logs.
- JavaScript values are the datatype `Js.JsValue`. Truthiness, `Number(..)`, `String(..)`, `.toString()`,
  property access, optional chaining and object spread are written out in module `Js`.
- `localStorage`, behind the helpers of `src/utils/storage.ts`, is a `map<string, JsValue>`, owned by
  `Storage.LocalStorage`. A missing key reads as `undefined`.
- `fetch` is a parameter `server: Request -> Response`. Each service returns the requests it issued.
  The relay RPCs are a parameter `succeeds: Call -> bool`.
- The clock (`Date.now()`) and the locale time labels are parameters.

Modules and files:

| module | file | source |
|---|---|---|
| `Wrappers` | wrappers.dfy | `Option` and `Result` |
| `Js` | js.dfy | JavaScript values and conversions |
| `Storage` | storage.dfy | src/utils/storage.ts |
| `Sockets` | sockets.dfy | ready states and `close()` |
| `Telemetry` | telemetry.dfy | src/services/telemetryService.ts |
| `DeviceSocket` | websocket.dfy | src/features/dashboard/services/websocketService.ts |
| `DeviceState` | device_state.dfy | useDeviceData.ts and DeviceDashboardPage.tsx |
| `DataTransformer` | data_transformer.dfy | src/features/dashboard/utils/dataTransformer.ts |
| `ChartBuffer` | chart_buffer.dfy | DamodarMonitor.tsx and MurariMonitor.tsx |
| `Alarms` | alarms.dfy | alarmUtils.ts and AlarmCard.tsx |
| `Timeseries` | timeseries.dfy | TimeseriesComponent.tsx and TimeseriesVisualizer.tsx |
| `Relays` | relays.dfy | RelaysController.tsx |
| `DeviceServices` | device_services.dfy | deviceConfigService.ts and deviceService.ts |
| `Auth` | auth.dfy | src/contexts/AuthContext.tsx |

### Two behaviours worth knowing

- **Subscriptions outlive the socket.** `disconnect()` only asks the socket to close, and the close
  handler only forgets the socket (src/services/telemetryService.ts:81-95); neither clears the pending or
  the active table. `Telemetry.SubscriptionsSurviveReconnect` shows that after a close and a reconnect, a
  data frame under an old subscription id still reaches the old callback.
- **A late close forgets the current device.** Every socket's `onclose` sets `lastDeviceId` to null
  (src/features/dashboard/services/websocketService.ts:83-86), including a replaced socket whose close
  arrives after its successor opened; the next `connectWebSocket` for the current device then closes the
  healthy socket and opens a new one. `DeviceSocket.LateCloseReplacesCurrentSocket` states this.
- **Logout keeps the device list.** `logout` removes only `token`, `refreshToken`, `user` and `server`
  (src/contexts/AuthContext.tsx:70-77), so the cached device list under `devices` stays in storage.
  `Auth.LogoutKeepsDeviceCache` states this.

## Model

| member | source | states |
|---|---|---|
| `Storage.Lookup` | src/utils/storage.ts:10-21 | a stored key reads back its value; a missing key reads as undefined |
| `Storage.LocalStorage.Get` | src/utils/storage.ts:10-21 | `getItem` returns the lookup of the key in the current contents |
| `Storage.LocalStorage.Set` | src/utils/storage.ts:1-8 | `setItem` stores the value under the key and changes no other key |
| `Storage.LocalStorage.Remove` | src/utils/storage.ts:23-29 | `removeItem` deletes exactly that key |
| `Sockets.CloseCall` | src/features/dashboard/services/websocketService.ts:15-17 | `close()` moves a connecting or open socket to closing and leaves a closing or closed one alone |
| `Telemetry.Init` | src/services/telemetryService.ts:28-31 | a new service has no socket and empty tables, and is in the invariant |
| `Telemetry.NextCmdId` | src/services/telemetryService.ts:158-160 | `getCmdId` returns the current counter, leaves it one higher and changes nothing else |
| `Telemetry.IdsStrictlyIncrease` | src/services/telemetryService.ts:158-160 | of two successful subscribes, with any events between them, the later one gets the larger command id |
| `Telemetry.Send` | src/services/telemetryService.ts:55 | a frame is logged on the current socket only when that socket is open; otherwise the state is unchanged |
| `Telemetry.AfterConnect` | src/services/telemetryService.ts:43-48 | a no-op while the current socket is open; otherwise exactly one new connecting socket with the token, which becomes current, and nothing else changes |
| `Telemetry.AfterOpen` | src/services/telemetryService.ts:50-56 | the socket becomes open, one fresh command id is drawn, and exactly one auth frame with that id and the captured token goes to the current socket if it is open |
| `Telemetry.AfterClose` | src/services/telemetryService.ts:81-83 | the socket is closed, keeping its token, and the service forgets its current socket; both tables, the counter and every log are unchanged |
| `Telemetry.AfterError` | src/services/telemetryService.ts:85-88 | one error toast and no other change |
| `Telemetry.AfterDisconnect` | src/services/telemetryService.ts:91-95 | only the current socket moves to closing and keeps its token; its reference, the counter, both tables and every log are unchanged; without a live current socket nothing changes |
| `Telemetry.IsDataFrame` | src/services/telemetryService.ts:61 | a frame is a data frame exactly when it is an object with a truthy `subscriptionId` and a truthy `data` |
| `Telemetry.EffectiveScope` | src/services/telemetryService.ts:114 | a non-empty caller scope wins; otherwise LATEST_TELEMETRY for time series and SERVER_SCOPE for attributes |
| `Telemetry.SubscriptionFrame` | src/services/telemetryService.ts:128-131 | the command travels in `tsSubCmds` exactly for time series and in `attrSubCmds` exactly for attributes |
| `Telemetry.AfterSubscribe` | src/services/telemetryService.ts:97-136 | without an open socket: null, no frame, tables and counter unchanged, one toast. With one: the fresh id is returned, exactly one pending entry is added under it, and exactly one frame goes to the current socket, with the effective scope and the keys joined by commas |
| `Telemetry.AckedCmdId` | src/services/telemetryService.ts:66 | an acknowledgement names a pending, non-zero command id and is not a data frame; a command id of 0 is never an acknowledgement |
| `Telemetry.HandleMessage` | src/services/telemetryService.ts:58-79 | a data frame invokes only the active entry under its id, once, with the data unchanged. An ack with errorCode 0 moves the entry from pending to active under `subscriptionId.toString()`. Any other ack drops the entry with one toast. Nothing else changes, and the invariant is kept |
| `Telemetry.AfterFrame` | src/services/telemetryService.ts:58-79 | only an open socket delivers frames to the handler |
| `Telemetry.WithoutCmd` | src/services/telemetryService.ts:144-153 | the active table loses exactly the entries with that command id |
| `Telemetry.AfterUnsubscribe` | src/services/telemetryService.ts:138-156 | the pending entry with that id is removed, or else the active entry with that command id; no frame is sent, and afterwards nothing is registered under the id |
| `Telemetry.UnsubscribeUnknownIsNoOp` | src/services/telemetryService.ts:138-156 | unsubscribing an id nothing is registered under changes nothing |
| `Telemetry.Step` | src/services/telemetryService.ts:43-156 | every operation and socket event keeps the invariant and only extends the logs |
| `Telemetry.RunKeepsValid` | src/services/telemetryService.ts:43-156 | any sequence of operations and events keeps the invariant |
| `Telemetry.GoneForever` | src/services/telemetryService.ts:61-77 | once nothing is registered under a handed-out command id, no later event delivers anything for it |
| `Telemetry.UnsubscribeStopsDelivery` | src/services/telemetryService.ts:138-156 | after `unsubscribe(c)`, no later frame reaches that subscription's callback |
| `Telemetry.FailedAckIsFinal` | src/services/telemetryService.ts:73-76 | after a failed ack, that callback is never invoked, and a later unsubscribe of the id is a no-op |
| `Telemetry.AckThenData` | src/services/telemetryService.ts:61-72 | a successful ack followed by a data frame with that subscription id invokes the registered callback exactly once with the data |
| `Telemetry.PendingReceivesNothing` | src/services/telemetryService.ts:61-65 | no frame reaches a pending subscription's callback |
| `Telemetry.SubscriptionsSurviveReconnect` | src/services/telemetryService.ts:81-83 | close, reconnect and open keep the active table: an old subscription id still delivers to the old callback |
| `Telemetry.TelemetryService.constructor` | src/services/telemetryService.ts:28-34 | the fields start as the initial state |
| `Telemetry.TelemetryService.GetCmdId` | src/services/telemetryService.ts:158-160 | performs `NextCmdId` on the fields |
| `Telemetry.TelemetryService.SendFrame` | src/services/telemetryService.ts:55 | performs `Send` on the fields |
| `Telemetry.TelemetryService.Connect` | src/services/telemetryService.ts:43-48 | performs `AfterConnect` on the fields |
| `Telemetry.TelemetryService.OnOpen` | src/services/telemetryService.ts:50-56 | performs `AfterOpen` on the fields |
| `Telemetry.TelemetryService.OnMessage` | src/services/telemetryService.ts:58-79 | performs `AfterFrame` on the fields |
| `Telemetry.TelemetryService.OnClose` | src/services/telemetryService.ts:81-83 | performs `AfterClose` on the fields |
| `Telemetry.TelemetryService.OnError` | src/services/telemetryService.ts:85-88 | performs `AfterError` on the fields |
| `Telemetry.TelemetryService.Disconnect` | src/services/telemetryService.ts:91-95 | performs `AfterDisconnect` on the fields |
| `Telemetry.TelemetryService.Subscribe` | src/services/telemetryService.ts:97-136 | performs `AfterSubscribe` on the fields and returns its command id |
| `Telemetry.TelemetryService.Unsubscribe` | src/services/telemetryService.ts:138-156 | the search loop over the active entries performs `AfterUnsubscribe` |
| `DeviceSocket.Init` | src/features/dashboard/services/websocketService.ts:3-4 | both module variables start null |
| `DeviceSocket.Url` | src/features/dashboard/services/websocketService.ts:27 | the device socket connects to `/api/ws` on the stored server over `wss` |
| `DeviceSocket.HandshakeFrame` | src/features/dashboard/services/websocketService.ts:33-68 | auth under command id 0 with the token, then four DEVICE commands for the device: SERVER, CLIENT and SHARED scope attributes and LATEST_TELEMETRY time series under ids 1 to 4, all distinct |
| `DeviceSocket.CloseCurrent` | src/features/dashboard/services/websocketService.ts:15-17 | only the current socket is asked to close |
| `DeviceSocket.AfterConnect` | src/features/dashboard/services/websocketService.ts:6-30 | a no-op for the same device. Otherwise the old socket is closed first. Without a token or server nothing else happens. With both, exactly one new socket to `wss://<server>/api/ws` becomes current, for this device |
| `DeviceSocket.AfterOpen` | src/features/dashboard/services/websocketService.ts:31-71 | the socket opens, and the handshake built from what it captured goes to the current socket if that is open |
| `DeviceSocket.AfterMessage` | src/features/dashboard/services/websocketService.ts:73-76 | every frame goes to that socket's `onMessage` as it came |
| `DeviceSocket.AfterError` | src/features/dashboard/services/websocketService.ts:78-81 | the socket's `onError` is called |
| `DeviceSocket.AfterClosed` | src/features/dashboard/services/websocketService.ts:83-86 | on close the device is forgotten but the socket reference is kept |
| `DeviceSocket.AfterDisconnect` | src/features/dashboard/services/websocketService.ts:89-95 | closes the socket and nulls both variables; a no-op without a socket |
| `DeviceSocket.DisconnectIdempotent` | src/features/dashboard/services/websocketService.ts:89-95 | disconnecting twice is the same as disconnecting once |
| `DeviceSocket.ConnectIdempotent` | src/features/dashboard/services/websocketService.ts:11-13 | repeating a connect with the same arguments and storage changes nothing more |
| `DeviceSocket.ConnectThenOpenSendsHandshake` | src/features/dashboard/services/websocketService.ts:27-71 | a successful connect and the open event send exactly one frame, the device's handshake, on the new socket |
| `DeviceSocket.LateCloseReplacesCurrentSocket` | src/features/dashboard/services/websocketService.ts:11-29 | a replaced socket's late close forgets the device, so the next connect for the current device asks the open current socket to close and opens another |
| `DeviceSocket.ReconnectAfterClose` | src/features/dashboard/services/websocketService.ts:83-86 | after a close, a connect to the same device opens a new socket instead of returning early |
| `DeviceSocket.Connection.constructor` | src/features/dashboard/services/websocketService.ts:3-4 | the module state starts as `Init` |
| `DeviceSocket.Connection.CloseWebsocket` | src/features/dashboard/services/websocketService.ts:15-17 | performs `CloseCurrent` |
| `DeviceSocket.Connection.ConnectWebSocket` | src/features/dashboard/services/websocketService.ts:6-30 | performs `AfterConnect` with the stored token and server |
| `DeviceSocket.Connection.OnOpen` | src/features/dashboard/services/websocketService.ts:31-71 | performs `AfterOpen` |
| `DeviceSocket.Connection.OnMessage` | src/features/dashboard/services/websocketService.ts:73-76 | performs `AfterMessage` |
| `DeviceSocket.Connection.OnError` | src/features/dashboard/services/websocketService.ts:78-81 | performs `AfterError` |
| `DeviceSocket.Connection.OnClose` | src/features/dashboard/services/websocketService.ts:83-86 | performs `AfterClosed` |
| `DeviceSocket.Connection.DisconnectWebSocket` | src/features/dashboard/services/websocketService.ts:89-95 | performs `AfterDisconnect` |
| `DeviceState.BucketFor` | src/features/dashboard/hooks/useDeviceData.ts:24-51 | subscription ids 1 to 4, and only those, select the server, client, shared and time-series buckets |
| `DeviceState.MergeFields` | src/features/dashboard/hooks/useDeviceData.ts:26-29 | payload keys overwrite, and bucket keys absent from the payload are retained |
| `DeviceState.OnWebSocketMessage` | src/features/dashboard/hooks/useDeviceData.ts:19-52 | no data means no change, a null device stays null, and an unknown id changes nothing. Otherwise only the selected bucket becomes the merge, and every other field is unchanged |
| `DeviceState.HandshakeFeedsBuckets` | src/features/dashboard/hooks/useDeviceData.ts:24-47 | each handshake command id is routed to the bucket its scope names |
| `DeviceState.BucketMergeIdempotent` | src/features/dashboard/hooks/useDeviceData.ts:19-52 | applying the same message twice equals applying it once |
| `DeviceState.FirstValue` | src/features/dashboard/pages/DeviceDashboardPage.tsx:66 | `v[0][1]`, which throws when `v` or `v[0]` is nullish |
| `DeviceState.FlatMerge` | src/features/dashboard/pages/DeviceDashboardPage.tsx:60-70 | no data means no change and a null device stays null. It throws exactly when a payload entry has no first sample. Otherwise each payload key becomes its first sample's value, and every other field is unchanged |
| `DeviceState.OnDashboardMessage` | src/features/dashboard/pages/DeviceDashboardPage.tsx:60-70 | the copy-then-assign loop over the payload keys computes `FlatMerge` |
| `DeviceState.MergedByAssignments` | src/features/dashboard/pages/DeviceDashboardPage.tsx:64-68 | the per-key assignments give the same device whatever order the keys are visited in |
| `DeviceState.WellFormedPayloadMerges` | src/features/dashboard/pages/DeviceDashboardPage.tsx:65-67 | a payload of non-empty sample lists never throws, and sets each key to its first sample's value |
| `DeviceState.BeginLoad` | src/features/dashboard/pages/DeviceDashboardPage.tsx:44-46 | loading starts, and the device is kept |
| `DeviceState.FinishLoad` | src/features/dashboard/pages/DeviceDashboardPage.tsx:47-56 | success stores the device, failure stores null, and loading ends in both cases |
| `DeviceState.LoadThenSettle` | src/features/dashboard/pages/DeviceDashboardPage.tsx:44-70 | a settled load is not loading, and a message before the device has loaded is dropped |
| `DeviceState.DeviceView.constructor` | src/features/dashboard/pages/DeviceDashboardPage.tsx:41 | the page starts loading, with no device |
| `DeviceState.DeviceView.StartLoad` | src/features/dashboard/pages/DeviceDashboardPage.tsx:44-46 | a device id starts loading; an empty one changes nothing |
| `DeviceState.DeviceView.LoadSettled` | src/features/dashboard/pages/DeviceDashboardPage.tsx:47-56 | performs `FinishLoad` |
| `DeviceState.DeviceView.OnMessage` | src/features/dashboard/pages/DeviceDashboardPage.tsx:60-70 | the device becomes the flat merge; a payload on which the updater throws is modelled as no update |
| `DataTransformer.Plotted` | src/features/dashboard/utils/dataTransformer.ts:26-42 | every sample with a numeric value becomes a point with its timestamp and value, and nothing else does |
| `DataTransformer.PlottedIndices` | src/features/dashboard/utils/dataTransformer.ts:26-42 | the positions of exactly the numeric samples, each once, in increasing order |
| `DataTransformer.PlottedAppend` | src/features/dashboard/utils/dataTransformer.ts:26-42 | the `map` and `filter` of a concatenation is the concatenation of their results |
| `DataTransformer.PlottedInOrder` | src/features/dashboard/utils/dataTransformer.ts:26-42 | each numeric sample becomes exactly one point, repeats included, and point `k` comes from the `k`-th numeric sample, so the input order is kept |
| `DataTransformer.Insert` | src/features/dashboard/utils/dataTransformer.ts:43 | inserting into a sorted series keeps it sorted and adds exactly that point |
| `DataTransformer.SortByTimestamp` | src/features/dashboard/utils/dataTransformer.ts:43 | the result is sorted by timestamp and is a permutation of the input |
| `DataTransformer.SortedPairs` | src/features/dashboard/utils/dataTransformer.ts:43 | in the sorted result, every point is no later than any point after it |
| `DataTransformer.InsertStable` | src/features/dashboard/utils/dataTransformer.ts:43 | insertion keeps the order of the points with any one timestamp |
| `DataTransformer.SortStable` | src/features/dashboard/utils/dataTransformer.ts:43 | the sort is stable: points with equal timestamps keep their relative order |
| `DataTransformer.SortKeepsSorted` | src/features/dashboard/utils/dataTransformer.ts:43 | a series already in order comes back unchanged |
| `DataTransformer.TransformTimeseriesData` | src/features/dashboard/utils/dataTransformer.ts:16-44 | no data, a missing key or an empty list gives []. Otherwise the result is sorted, is a permutation of `Plotted` of the samples (one point per numeric sample, by `PlottedInOrder`), and is no longer than the input |
| `DataTransformer.ChartShowsPlottedSamples` | src/features/dashboard/utils/dataTransformer.ts:26-42 | the chart holds every numeric sample and nothing else |
| `ChartBuffer.AppendSample` | src/features/dashboard/components/DamodarMonitor.tsx:61-73 | a repeated time label leaves the buffer unchanged. Otherwise the entry is last, only the oldest entries are dropped, and the length is at most 720 |
| `ChartBuffer.Reading` | src/features/dashboard/components/DamodarMonitor.tsx:46-48 | a missing or falsy reading is 0, and a numeric reading is kept |
| `ChartBuffer.DamodarTick` | src/features/dashboard/components/DamodarMonitor.tsx:44-75 | no attributes means no update; otherwise temperature, TDS and EC are appended as one entry |
| `ChartBuffer.MurariTick` | src/features/dashboard/components/MurariMonitor.tsx:43-74 | no attributes means no update; otherwise temperature, RH and lux are appended as one entry |
| `ChartBuffer.AppendKeepsWellFormed` | src/features/dashboard/components/MurariMonitor.tsx:60-72 | the updater keeps at most 720 entries and never puts one time label twice in a row |
| `ChartBuffer.FeedKeepsWellFormed` | src/features/dashboard/components/DamodarMonitor.tsx:61-73 | the same holds for a chart under any sequence of samples |
| `ChartBuffer.ReadingExamples` | src/features/dashboard/components/MurariMonitor.tsx:45-47 | a number is charted as is, a missing reading as 0, and a numeric string as its value |
| `Alarms.TableDomain` | src/features/dashboard/utils/alarmUtils.ts:4-185 | the table `AlarmCodeDescriptions` defines exactly 110-112, 120-133, 140-145, 150, 210-218, 220, 230-236 and 240-243 |
| `Alarms.TableSize` | src/features/dashboard/utils/alarmUtils.ts:4-185 | the table defines exactly 45 codes |
| `Alarms.GetAlarmDetails` | src/features/dashboard/utils/alarmUtils.ts:187-189 | a code has details exactly when the table defines it, and they are `alarm.<c>.title` and `alarm.<c>.description` |
| `Alarms.DetailsExamples` | src/features/dashboard/utils/alarmUtils.ts:4-189 | the keys for 110 and 243, and undefined for 0, 113 and 219 |
| `Alarms.NamedExample110` | src/features/dashboard/utils/alarmUtils.ts:5-8 | the translation keys of code 110 |
| `Alarms.NamedExample243` | src/features/dashboard/utils/alarmUtils.ts:181-184 | the translation keys of code 243 |
| `Alarms.RawCode` | src/features/dashboard/components/AlarmCard.tsx:25-28 | an object's `value`, or else the data itself |
| `Alarms.NewAlarm` | src/features/dashboard/components/AlarmCard.tsx:31-36 | null exactly for an undefined, non-numeric or zero code; otherwise the code's numeric value |
| `Alarms.AfterAlarmData` | src/features/dashboard/components/AlarmCard.tsx:38-44 | a different alarm replaces the tracked one and clears the dismissal; the same one changes nothing |
| `Alarms.AfterClose` | src/features/dashboard/components/AlarmCard.tsx:47-49 | `handleClose` sets dismissed and changes nothing else |
| `Alarms.IsVisible` | src/features/dashboard/components/AlarmCard.tsx:51 | the card is visible exactly when an alarm is tracked and it is not dismissed |
| `Alarms.Rendered` | src/features/dashboard/components/AlarmCard.tsx:51-61 | a card renders exactly when an alarm is tracked, it is not dismissed, and the table knows the code |
| `Alarms.DismissalPersists` | src/features/dashboard/components/AlarmCard.tsx:39-49 | a dismissed alarm stays hidden while the device keeps reporting it |
| `Alarms.NewAlarmReappears` | src/features/dashboard/components/AlarmCard.tsx:38-44 | after a dismissal, a different known alarm is shown with its details |
| `Alarms.ClearedAlarmReturns` | src/features/dashboard/components/AlarmCard.tsx:31-44 | a code that clears and comes back is shown again, even after a dismissal |
| `Alarms.AlarmCard.constructor` | src/features/dashboard/components/AlarmCard.tsx:18-19 | no alarm, not dismissed |
| `Alarms.AlarmCard.OnAlarmData` | src/features/dashboard/components/AlarmCard.tsx:23-45 | performs `AfterAlarmData` |
| `Alarms.AlarmCard.HandleClose` | src/features/dashboard/components/AlarmCard.tsx:47-49 | performs `AfterClose` |
| `Timeseries.SelectFirstKey` | src/features/dashboard/components/TimeseriesComponent.tsx:24-27 | the first fetched key is selected; an empty list keeps the selection |
| `Timeseries.RangeStart` | src/features/dashboard/components/TimeseriesComponent.tsx:41-47 | the window is 3600000 ms for lastHour, 604800000 ms for lastWeek, and 86400000 ms otherwise |
| `Timeseries.RangeInterval` | src/features/dashboard/components/TimeseriesComponent.tsx:56 | 60000 for lastHour and 3600000 otherwise |
| `Timeseries.DataQuery` | src/features/dashboard/components/TimeseriesComponent.tsx:36-57 | a query is issued exactly when there are a device and a selected key; it ends now and uses the range's start and interval |
| `Timeseries.BucketCounts` | src/features/dashboard/components/TimeseriesComponent.tsx:41-56 | each window splits into a whole number of intervals: 60, 24 or 168 |
| `Timeseries.ChartData` | src/features/dashboard/components/TimeseriesComponent.tsx:81 | empty when the key is absent; otherwise the series with each value passed through `Number` |
| `Timeseries.ChartValuesAreNumbers` | src/features/dashboard/components/TimeseriesComponent.tsx:81 | every charted value is a number or NaN |
| `Timeseries.TimeseriesView.constructor` | src/features/dashboard/components/TimeseriesComponent.tsx:12-17 | the component's initial state |
| `Timeseries.TimeseriesView.OnKeysFetched` | src/features/dashboard/components/TimeseriesComponent.tsx:21-27 | stores the keys and selects the first one |
| `Timeseries.TimeseriesView.StartFetch` | src/features/dashboard/components/TimeseriesComponent.tsx:36-57 | returns `DataQuery` and starts loading only when it fetches |
| `Timeseries.TimeseriesView.FetchSettled` | src/features/dashboard/components/TimeseriesComponent.tsx:58-63 | a response replaces the data, and loading ends either way |
| `Timeseries.DefaultRange` | src/features/dashboard/components/TimeseriesVisualizer.tsx:55-59 | the window ends now and starts 86400000 ms before |
| `Timeseries.FetchParams` | src/features/dashboard/components/TimeseriesVisualizer.tsx:95-106 | always keys, startTs, endTs and limit 1000; agg, interval and intervalType exactly when aggregation is not NONE; nothing else |
| `Timeseries.ParamsShape` | src/features/dashboard/components/TimeseriesVisualizer.tsx:95-106 | exactly four parameters without aggregation, and exactly seven with it |
| `Timeseries.Values` | src/features/dashboard/components/TimeseriesVisualizer.tsx:113 | the values the statistics are computed from, one per point, in order |
| `Timeseries.TimeseriesVisualizer.constructor` | src/features/dashboard/components/TimeseriesVisualizer.tsx:47-62 | the last 24 hours, AVG, interval 1 in MILLISECONDS, and no keys, data, error or stats |
| `Timeseries.TimeseriesVisualizer.OnDeviceChange` | src/features/dashboard/components/TimeseriesVisualizer.tsx:64-73 | a device id resets keys, selected key, data and error and starts loading; no id changes nothing |
| `Timeseries.TimeseriesVisualizer.OnKeysFetched` | src/features/dashboard/components/TimeseriesVisualizer.tsx:75-83 | stores the keys, selects the first, and ends loading |
| `Timeseries.TimeseriesVisualizer.OnKeysFailed` | src/features/dashboard/components/TimeseriesVisualizer.tsx:82-83 | sets the keys error and ends loading |
| `Timeseries.TimeseriesVisualizer.FetchData` | src/features/dashboard/components/TimeseriesVisualizer.tsx:89-106 | does nothing without a device or key; otherwise sends `FetchParams`, starts loading and clears the error |
| `Timeseries.TimeseriesVisualizer.OnDataFetched` | src/features/dashboard/components/TimeseriesVisualizer.tsx:109-122 | the data becomes the transformed series; stats are null exactly when it is empty |
| `Timeseries.TimeseriesVisualizer.OnDataFailed` | src/features/dashboard/components/TimeseriesVisualizer.tsx:123-124 | sets the data error for the key and ends loading |
| `Relays.DefaultRelays` | src/features/dashboard/components/RelaysController.tsx:27 | a truthy mapping, which is '[]' without a device |
| `Relays.DefaultRelaysExamples` | src/features/dashboard/components/RelaysController.tsx:27 | the first client-scope `relays` sample's value, or '[]' when that is missing |
| `Relays.ChangedAttributes` | src/features/dashboard/components/RelaysController.tsx:32-35 | `relays` is in the save set exactly when it is non-empty and differs from the reported mapping |
| `Relays.SaveChain` | src/features/dashboard/components/RelaysController.tsx:43-73 | the SHARED_SCOPE save of the attributes to the given entity type and id, then `stateSave`, then `syncAttribute`, both to that id |
| `Relays.RunChain` | src/features/dashboard/components/RelaysController.tsx:42-77 | the calls made are a prefix of the chain; each call but the last succeeded; it stops early only at a failure; all succeed means all are made |
| `Relays.FailureStopsTheChain` | src/features/dashboard/components/RelaysController.tsx:42-77 | a failed save sends no RPC; a failed `stateSave` sends no `syncAttribute`; otherwise all three go in order |
| `Relays.SavePlan` | src/features/dashboard/components/RelaysController.tsx:29-78 | no device means nothing happens; an empty save set means the notice and no call; a device with an edited mapping always gets an attempt, whose calls are the save chain for the device's own `id.entityType` and `id.id`, stopped at the first failure; a device without those ids gets no call |
| `Relays.SaveStopsAtFirstFailure` | src/features/dashboard/components/RelaysController.tsx:29-78 | for a device with an id and an edited mapping, Save sends the attribute save to that device first; a rejected save sends no RPC, a rejected `stateSave` sends no `syncAttribute`, and otherwise all three calls go in order |
| `Relays.AfterSave` | src/features/dashboard/components/RelaysController.tsx:29-78 | the calls made are appended to the log, or the notice is counted; the edited text is kept |
| `Relays.Displayed` | src/features/dashboard/components/RelaysController.tsx:98 | the field shows the edited text, or the reported mapping when it is empty |
| `Relays.ResetThenSaveMakesNoCall` | src/features/dashboard/components/RelaysController.tsx:80-82 | after reset the field shows the reported mapping, and Save makes no call |
| `Relays.SavingTheReportedMappingIsNoChange` | src/features/dashboard/components/RelaysController.tsx:33-40 | saving the mapping the device reports is no change |
| `Relays.RelaysController.constructor` | src/features/dashboard/components/RelaysController.tsx:24 | the edited text starts empty |
| `Relays.RelaysController.Edit` | src/features/dashboard/components/RelaysController.tsx:99 | the field's change handler sets the edited text |
| `Relays.RelaysController.HandleReset` | src/features/dashboard/components/RelaysController.tsx:80-82 | the edited text becomes '' and nothing else changes |
| `Relays.RelaysController.HandleSave` | src/features/dashboard/components/RelaysController.tsx:29-78 | performs `AfterSave` |
| `DeviceServices.ConfigOf` | src/features/dashboard/services/deviceConfigService.ts:32-35 | the fold throws exactly when some entry is undefined or null |
| `DeviceServices.ConfigKeys` | src/features/dashboard/services/deviceConfigService.ts:32-37 | the config's keys are exactly the keys listed, so an unlisted key is absent |
| `DeviceServices.ConfigLastWins` | src/features/dashboard/services/deviceConfigService.ts:32-35 | each key takes the value of its last entry |
| `DeviceServices.RepeatedKeyExample` | src/features/dashboard/services/deviceConfigService.ts:32-35 | a repeated key keeps the later value |
| `DeviceServices.ConfigUrl` | src/features/dashboard/services/deviceConfigService.ts:19 | the SHARED_SCOPE attribute values of the device on the stored server, over https |
| `DeviceServices.SaveConfigUrl` | src/features/dashboard/services/deviceConfigService.ts:48 | the SHARED_SCOPE attributes of the device on the stored server, over https |
| `DeviceServices.FetchConfig` | src/features/dashboard/services/deviceConfigService.ts:11-38 | it throws before any request exactly when the token or server is missing. Otherwise it makes exactly one GET to the SHARED_SCOPE values URL. A non-ok response throws; an ok response that is not a readable attribute list throws a TypeError; an ok, readable one succeeds with the fold of the response, and every success is such a fold |
| `DeviceServices.GetDeviceConfig` | src/features/dashboard/services/deviceConfigService.ts:11-38 | the `forEach` loop computes `FetchConfig` |
| `DeviceServices.SaveConfig` | src/features/dashboard/services/deviceConfigService.ts:40-60 | it throws before any request exactly when the token or server is missing. Otherwise it makes exactly one POST of the config, and succeeds exactly when the response is ok |
| `DeviceServices.ReadThenSaveTargetsTheSameDevice` | src/features/dashboard/services/deviceConfigService.ts:11-55 | writing back a config that was read posts that same config, with the same token, to the same device path on the same host; the two URLs differ only in the `values/` step |
| `DeviceServices.DevicesQuery` | src/features/dashboard/services/deviceService.ts:40-51 | rootId is the customer, rootType CUSTOMER, maxLevel 3, and the three UDAWA device types |
| `DeviceServices.FetchDevices` | src/features/dashboard/services/deviceService.ts:20-61 | an unforced cache hit returns the cache with no auth check and no request. Otherwise a missing token or user throws before any request. A signed-in cache miss makes exactly one POST, for the stored customer, or throws a TypeError before any request when the stored user has no customer id. Failure leaves the cache unchanged; an ok response is a success that is cached and returned, and every fetched success is one |
| `DeviceServices.GetDevices` | src/features/dashboard/services/deviceService.ts:20-61 | performs `FetchDevices` on the storage |
| `DeviceServices.FetchedListIsServedFromCache` | src/features/dashboard/services/deviceService.ts:20-61 | after a fetch, the next unforced call answers from the cache without a request |
| `DeviceServices.ForcedCallAsksTheServer` | src/features/dashboard/services/deviceService.ts:23-52 | a forced call for a signed-in user sends the request |
| `DeviceServices.FetchDeviceInfo` | src/features/dashboard/services/deviceService.ts:63-83 | it throws before any request exactly when the token is missing. Otherwise it makes exactly one GET of the device's info; an ok response is returned as it is and a non-ok response throws |
| `Auth.Initial` | src/contexts/AuthContext.tsx:53-54 | the token and user come from storage; with no stored token the state is signed out |
| `Auth.AfterLogin` | src/contexts/AuthContext.tsx:56-68 | the state holds the new token and user; the four keys are stored and no other key changes |
| `Auth.AfterLogout` | src/contexts/AuthContext.tsx:70-77 | the token and user become null, and exactly the four session keys are removed |
| `Auth.UseAuth` | src/contexts/AuthContext.tsx:40-45 | it throws exactly outside a provider |
| `Auth.ReloadKeepsLogin` | src/contexts/AuthContext.tsx:53-68 | a reload after login starts from the session that was logged in |
| `Auth.LogoutSignsOut` | src/contexts/AuthContext.tsx:70-79 | after logout, neither the state nor a reload is authenticated |
| `Auth.LoginThenLogout` | src/contexts/AuthContext.tsx:56-77 | login then logout leaves storage as it was, minus the session keys |
| `Auth.LogoutKeepsDeviceCache` | src/contexts/AuthContext.tsx:70-77 | logout keeps the cached device list |
| `Auth.AuthProvider.constructor` | src/contexts/AuthContext.tsx:52-54 | the provider starts from `Initial` of the storage |
| `Auth.AuthProvider.Login` | src/contexts/AuthContext.tsx:56-68 | performs `AfterLogin` on the state and the storage |
| `Auth.AuthProvider.Logout` | src/contexts/AuthContext.tsx:70-77 | performs `AfterLogout` on the state and the storage |

## Left out

- Numbers are integers plus NaN. Fractions, the infinities and floating-point rounding are not modelled: timestamps, readings and attribute values are whole numbers here.
- `Js.StringToNumber` accepts only an optionally signed run of decimal digits, with white space around it. Only space, tab, line feed and carriage return count as white space; `Number(..)` also strips vertical tab, form feed, no-break space, the byte-order mark, the line and paragraph separators and the other Unicode space separators, which here make the string NaN. Hexadecimal, exponent and decimal-point forms are not modelled and read as NaN.
- The real transport is a parameter: WebSocket objects, URL plumbing, headers, `fetch` and its promise, `JSON.parse`, `JSON.stringify` and `response.json()`. So a malformed inbound frame, a rejected `fetch` (a network error) and an unreadable response body are not modelled: `server` gives every request a response.
- `Js.SpreadFields` models the spread of objects only. Spreading an array or a string, which copies indices, is treated as spreading a non-object, so it copies nothing. The same function stands for `Object.keys(data.data)` in `DeviceState.FlatMerge`, so a string or array payload's index keys are dropped there too.
- DeviceState.DeviceView.OnMessage: the `setDevice` updater throws when a payload entry has no first sample (src/features/dashboard/pages/DeviceDashboardPage.tsx:62-68). React runs the updater while rendering, so the error escapes the render. The model treats such a message as no update and leaves out what the error then does to the page.
- Toasts and console logging are left out. The telemetry service's toasts are the `reports` log, and the relay editor's "no changes" notice is a counter. The `toast.promise` messages of the relay chain are not modelled.
- Timeseries.TimeseriesVisualizer.OnDataFetched: the min, max, avg and sum statistics are floating-point, so `stats` holds the values they are computed from rather than the four numbers.
- Locale time strings (`toLocaleTimeString`) are parameters: the `format` function of the transform, and the time label of the monitors.
- The clock (`Date.now()`, `new Date()`) is the parameter `now`. `VITE_API_URL` is the parameter `apiUrl`.
- `saveDeviceAttributes`, `rpcV2`, `getTimeseriesKeys` and `getTimeseriesData` are not part of this model. Their outcomes are parameters: `succeeds`, and the responses passed to the component methods.
- React machinery is not modelled: hooks, effect dependency arrays, memoisation, context wiring and rendering. An effect is a method the environment calls. The component state is class fields.
- DataTransformer.TransformTimeseriesData: a numeric-string timestamp, or a NaN timestamp in the comparator, is not modelled, since timestamps are integers. A key that holds `null` counts as absent.
- Telemetry: the `WebSocket.CONNECTING` send throws an exception, which is modelled as dropping the frame with no change. The exception's propagation out of the handler is not modelled.
- Storage: the `try`/`catch` around storage access, and quota or parse errors, are not modelled. A stored value reads back as it was written.
- Alarms.AlarmCodeDescriptions is built from the code ranges, with keys derived from each code. It has the same contents as the literal table, and `Alarms.TableDomain` and `Alarms.TableSize` pin down which codes it contains.
- The singleton `getInstance` of the telemetry service is not modelled: a `TelemetryService` object is the one instance.
