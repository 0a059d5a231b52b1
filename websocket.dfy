/**
 * The dashboard's per-device WebSocket (src/features/dashboard/services/websocketService.ts).
 * The module keeps two variables, the current `websocket` and the
 * `lastDeviceId` it was opened for; `connectWebSocket` reuses, replaces or
 * refuses to open a socket using them, and each socket's handlers send the
 * fixed handshake frame, forward inbound messages and forget the device on
 * close.
 *
 * As in the telemetry model, every socket ever created is kept in `sockets`,
 * together with what its handlers captured (the device id, the token and the
 * two callbacks), and `websocket` is an index into it. Sent frames and
 * callback invocations are logged.
 */
module DeviceSocket {
  import opened Wrappers
  import opened Js
  import opened Sockets
  import Storage

  /** The identity of a callback passed to `connectWebSocket`. */
  type CallbackId = nat

  /** One subscription command of the handshake frame. */
  datatype Cmd = Cmd(entityType: string, entityId: string, scope: string, cmdId: nat, cmdType: string)

  /** `{ authCmd: { cmdId, token }, cmds }` */
  datatype Handshake = Handshake(authCmdId: nat, token: JsValue, cmds: seq<Cmd>)

  /** A socket `connectWebSocket` created, and what its handlers captured. */
  datatype DeviceSock = DeviceSock(
    url: string,
    readyState: ReadyState,
    deviceId: string,
    token: JsValue,
    onMessage: CallbackId,
    onError: CallbackId)

  /** A frame written to the socket with the given index. */
  datatype Sent = Sent(socket: nat, frame: Handshake)

  /** An invocation of a caller's callback: a parsed message, or an error event
    * of the socket with the given index. */
  datatype Notified = MessageTo(callback: CallbackId, data: JsValue) | ErrorTo(callback: CallbackId, socket: nat)

  datatype Conn = Conn(
    sockets: seq<DeviceSock>,
    websocket: Option<nat>,
    lastDeviceId: Option<string>,
    sent: seq<Sent>,
    notified: seq<Notified>)

  ghost predicate Valid(s: Conn) {
    s.websocket.Some? ==> s.websocket.value < |s.sockets|
  }

  function Init(): (s: Conn)
    ensures Valid(s) && s.websocket.None? && s.lastDeviceId.None?
  {
    Conn([], None, None, [], [])
  }

  /** `wss://${server}/api/ws` */
  function Url(server: JsValue): string {
    "wss://" + ToStr(server) + "/api/ws"
  }

  /** The frame every socket sends once open: authentication under command id
    * 0, then the three attribute scopes and the latest telemetry of the device
    * under command ids 1 to 4. */
  function HandshakeFrame(deviceId: string, token: JsValue): (h: Handshake)
    ensures h.authCmdId == 0 && h.token == token
    ensures |h.cmds| == 4
    ensures forall j :: 0 <= j < |h.cmds| ==>
      h.cmds[j].entityType == "DEVICE" && h.cmds[j].entityId == deviceId && h.cmds[j].cmdId == j + 1
    ensures h.cmds[0].scope == "SERVER_SCOPE" && h.cmds[0].cmdType == "ATTRIBUTES"
    ensures h.cmds[1].scope == "CLIENT_SCOPE" && h.cmds[1].cmdType == "ATTRIBUTES"
    ensures h.cmds[2].scope == "SHARED_SCOPE" && h.cmds[2].cmdType == "ATTRIBUTES"
    ensures h.cmds[3].scope == "LATEST_TELEMETRY" && h.cmds[3].cmdType == "TIMESERIES"
    // the command ids are pairwise distinct and differ from the auth command's
    ensures forall j, j' :: 0 <= j < j' < |h.cmds| ==> h.cmds[j].cmdId != h.cmds[j'].cmdId
    ensures forall j :: 0 <= j < |h.cmds| ==> h.cmds[j].cmdId != h.authCmdId
  {
    Handshake(0, token, [
      Cmd("DEVICE", deviceId, "SERVER_SCOPE", 1, "ATTRIBUTES"),
      Cmd("DEVICE", deviceId, "CLIENT_SCOPE", 2, "ATTRIBUTES"),
      Cmd("DEVICE", deviceId, "SHARED_SCOPE", 3, "ATTRIBUTES"),
      Cmd("DEVICE", deviceId, "LATEST_TELEMETRY", 4, "TIMESERIES")])
  }

  /** `websocket.close()` on the current socket, if there is one. */
  function CloseCurrent(s: Conn): (r: Conn)
    ensures Valid(s) ==> Valid(r)
    ensures r.websocket == s.websocket && r.lastDeviceId == s.lastDeviceId
    ensures r.sent == s.sent && r.notified == s.notified && |r.sockets| == |s.sockets|
    ensures forall j :: 0 <= j < |s.sockets| && s.websocket != Some(j) ==> r.sockets[j] == s.sockets[j]
    ensures s.websocket.Some? && s.websocket.value < |s.sockets| ==>
      var w := s.websocket.value;
      r.sockets[w] == s.sockets[w].(readyState := CloseCall(s.sockets[w].readyState))
  {
    if s.websocket.Some? && s.websocket.value < |s.sockets| then
      var w := s.websocket.value;
      s.(sockets := s.sockets[w := s.sockets[w].(readyState := CloseCall(s.sockets[w].readyState))])
    else s
  }

  /** `connectWebSocket(deviceId, onMessage, onError)`, given what storage holds
    * under `token` and `server`. */
  function AfterConnect(s: Conn, deviceId: string, onMessage: CallbackId, onError: CallbackId,
                        token: JsValue, server: JsValue): (r: Conn)
    ensures Valid(s) ==> Valid(r)
    ensures r.sent == s.sent && r.notified == s.notified && |r.sockets| >= |s.sockets|
    // a socket for the same device is kept as it is
    ensures s.websocket.Some? && s.lastDeviceId == Some(deviceId) ==> r == s
    // otherwise the current socket is asked to close first ...
    ensures !(s.websocket.Some? && s.lastDeviceId == Some(deviceId)) ==>
      r.sockets[..|s.sockets|] == CloseCurrent(s).sockets
    // ... and without credentials nothing else happens
    ensures !(s.websocket.Some? && s.lastDeviceId == Some(deviceId)) && !(Truthy(token) && Truthy(server)) ==>
      r == CloseCurrent(s) && r.websocket == s.websocket && r.lastDeviceId == s.lastDeviceId
    // with them exactly one new socket to the server is created, for this device
    ensures !(s.websocket.Some? && s.lastDeviceId == Some(deviceId)) && Truthy(token) && Truthy(server) ==>
      && |r.sockets| == |s.sockets| + 1
      && r.sockets[|s.sockets|] == DeviceSock(Url(server), Connecting, deviceId, token, onMessage, onError)
      && r.websocket == Some(|s.sockets|)
      && r.lastDeviceId == Some(deviceId)
  {
    if s.websocket.Some? && s.lastDeviceId == Some(deviceId) then s
    else
      var closed := CloseCurrent(s);
      if !Truthy(token) || !Truthy(server) then closed
      else
        closed.(sockets := closed.sockets + [DeviceSock(Url(server), Connecting, deviceId, token, onMessage, onError)],
                websocket := Some(|closed.sockets|),
                lastDeviceId := Some(deviceId))
  }

  /** The current socket exists and is OPEN, so `websocket?.send(..)` delivers. */
  predicate CurrentOpen(s: Conn) {
    s.websocket.Some? && s.websocket.value < |s.sockets| && s.sockets[s.websocket.value].readyState == Open
  }

  /** The `onopen` handler of socket `i`: the handshake built from what that
    * socket captured goes to whatever socket is current. */
  function AfterOpen(s: Conn, i: nat): (r: Conn)
    ensures Valid(s) ==> Valid(r)
    ensures r.websocket == s.websocket && r.lastDeviceId == s.lastDeviceId && r.notified == s.notified
    ensures i < |s.sockets| && s.sockets[i].readyState == Connecting ==>
      && r.sockets == s.sockets[i := s.sockets[i].(readyState := Open)]
      && r.sent == s.sent +
           (if CurrentOpen(r) then [Sent(r.websocket.value, HandshakeFrame(s.sockets[i].deviceId, s.sockets[i].token))]
            else [])
    ensures !(i < |s.sockets| && s.sockets[i].readyState == Connecting) ==> r == s
  {
    if i < |s.sockets| && s.sockets[i].readyState == Connecting then
      var nowOpen := s.(sockets := s.sockets[i := s.sockets[i].(readyState := Open)]);
      if CurrentOpen(nowOpen) then
        nowOpen.(sent := nowOpen.sent + [Sent(nowOpen.websocket.value, HandshakeFrame(s.sockets[i].deviceId, s.sockets[i].token))])
      else nowOpen
    else s
  }

  /** The `onmessage` handler of socket `i`: the parsed frame goes to that
    * socket's `onMessage` as it came, whatever it holds. */
  function AfterMessage(s: Conn, i: nat, data: JsValue): (r: Conn)
    ensures r.sockets == s.sockets && r.websocket == s.websocket && r.lastDeviceId == s.lastDeviceId && r.sent == s.sent
    ensures i < |s.sockets| && s.sockets[i].readyState == Open ==>
      r.notified == s.notified + [MessageTo(s.sockets[i].onMessage, data)]
    ensures !(i < |s.sockets| && s.sockets[i].readyState == Open) ==> r == s
  {
    if i < |s.sockets| && s.sockets[i].readyState == Open then
      s.(notified := s.notified + [MessageTo(s.sockets[i].onMessage, data)])
    else s
  }

  /** The `onerror` handler of socket `i`: that socket's `onError` is called. */
  function AfterError(s: Conn, i: nat): (r: Conn)
    ensures r.sockets == s.sockets && r.websocket == s.websocket && r.lastDeviceId == s.lastDeviceId && r.sent == s.sent
    ensures i < |s.sockets| ==> r.notified == s.notified + [ErrorTo(s.sockets[i].onError, i)]
    ensures i >= |s.sockets| ==> r == s
  {
    if i < |s.sockets| then s.(notified := s.notified + [ErrorTo(s.sockets[i].onError, i)]) else s
  }

  /** The `onclose` handler of socket `i`: the device is forgotten, whichever
    * socket closed, but the `websocket` reference is kept. */
  function AfterClosed(s: Conn, i: nat): (r: Conn)
    ensures Valid(s) ==> Valid(r)
    ensures r.websocket == s.websocket && r.sent == s.sent && r.notified == s.notified
    ensures i < |s.sockets| && s.sockets[i].readyState != Closed ==>
      r.lastDeviceId.None? && r.sockets == s.sockets[i := s.sockets[i].(readyState := Closed)]
    ensures !(i < |s.sockets| && s.sockets[i].readyState != Closed) ==> r == s
  {
    if i < |s.sockets| && s.sockets[i].readyState != Closed then
      s.(sockets := s.sockets[i := s.sockets[i].(readyState := Closed)], lastDeviceId := None)
    else s
  }

  /** `disconnectWebSocket()` */
  function AfterDisconnect(s: Conn): (r: Conn)
    ensures Valid(s) ==> Valid(r)
    ensures r.websocket.None? && (s.websocket.Some? ==> r.lastDeviceId.None?)
    ensures s.websocket.Some? ==> r == CloseCurrent(s).(websocket := None, lastDeviceId := None)
    ensures s.websocket.None? ==> r == s
  {
    if s.websocket.Some? then CloseCurrent(s).(websocket := None, lastDeviceId := None) else s
  }

  // ---------------------------------------------------------------------------
  // Lemmas

  /** Calling `disconnectWebSocket()` twice is the same as calling it once. */
  lemma DisconnectIdempotent(s: Conn)
    ensures AfterDisconnect(AfterDisconnect(s)) == AfterDisconnect(s)
  {
  }

  /** Repeating a `connectWebSocket` call with the same arguments and the same
    * storage changes nothing more. */
  lemma ConnectIdempotent(s: Conn, deviceId: string, onMessage: CallbackId, onError: CallbackId,
                          token: JsValue, server: JsValue)
    ensures
      var once := AfterConnect(s, deviceId, onMessage, onError, token, server);
      AfterConnect(once, deviceId, onMessage, onError, token, server) == once
  {
    var once := AfterConnect(s, deviceId, onMessage, onError, token, server);
    if !(s.websocket.Some? && s.lastDeviceId == Some(deviceId)) && !(Truthy(token) && Truthy(server)) {
      var c := CloseCurrent(s);
      assert CloseCurrent(c).sockets == c.sockets;
    }
  }

  /** A successful connect followed by the new socket's open event sends exactly
    * one frame: the handshake for that device and token, on the new socket. */
  lemma ConnectThenOpenSendsHandshake(s: Conn, deviceId: string, onMessage: CallbackId, onError: CallbackId,
                                      token: JsValue, server: JsValue)
    requires Valid(s)
    requires !(s.websocket.Some? && s.lastDeviceId == Some(deviceId))
    requires Truthy(token) && Truthy(server)
    ensures
      var afterOpen := AfterOpen(AfterConnect(s, deviceId, onMessage, onError, token, server), |s.sockets|);
      afterOpen.sent == s.sent + [Sent(|s.sockets|, HandshakeFrame(deviceId, token))]
      && afterOpen.websocket == Some(|s.sockets|) && afterOpen.lastDeviceId == Some(deviceId)
  {
  }

  /** Any socket's close forgets the device, even a replaced socket whose close
    * arrives after its successor opened: the next connect for the current
    * device then asks the healthy current socket to close and opens another. */
  lemma LateCloseReplacesCurrentSocket(s: Conn, i: nat, deviceId: string, onMessage: CallbackId, onError: CallbackId,
                                       token: JsValue, server: JsValue)
    requires Valid(s) && s.websocket.Some? && s.lastDeviceId == Some(deviceId)
    requires s.sockets[s.websocket.value].readyState == Open
    requires i < |s.sockets| && i != s.websocket.value && s.sockets[i].readyState == Closing
    requires Truthy(token) && Truthy(server)
    ensures
      var r := AfterConnect(AfterClosed(s, i), deviceId, onMessage, onError, token, server);
      && r.sockets[s.websocket.value].readyState == Closing
      && |r.sockets| == |s.sockets| + 1
      && r.websocket == Some(|s.sockets|)
  {
  }

  /** Because `onclose` forgets the device but keeps the socket reference, a
    * later connect to the same device opens a new socket instead of being
    * skipped. */
  lemma ReconnectAfterClose(s: Conn, i: nat, deviceId: string, onMessage: CallbackId, onError: CallbackId,
                            token: JsValue, server: JsValue)
    requires Valid(s) && s.websocket.Some?
    requires i < |s.sockets| && s.sockets[i].readyState != Closed
    requires Truthy(token) && Truthy(server)
    ensures
      var closed := AfterClosed(s, i);
      var r := AfterConnect(closed, deviceId, onMessage, onError, token, server);
      closed.websocket == s.websocket && |r.sockets| == |s.sockets| + 1 && r.websocket == Some(|s.sockets|)
  {
  }

  // ---------------------------------------------------------------------------
  // The module state

  class Connection {
    var sockets: seq<DeviceSock>
    var websocket: Option<nat>
    var lastDeviceId: Option<string>
    var sent: seq<Sent>
    var notified: seq<Notified>

    function State(): Conn
      reads this
    {
      Conn(sockets, websocket, lastDeviceId, sent, notified)
    }

    constructor ()
      ensures State() == Init()
    {
      sockets, websocket, lastDeviceId := [], None, None;
      sent, notified := [], [];
    }

    method CloseWebsocket()
      modifies this
      ensures State() == CloseCurrent(old(State()))
    {
      if websocket.Some? && websocket.value < |sockets| {
        var w := websocket.value;
        sockets := sockets[w := sockets[w].(readyState := CloseCall(sockets[w].readyState))];
      }
    }

    method ConnectWebSocket(deviceId: string, onMessage: CallbackId, onError: CallbackId, storage: Storage.LocalStorage)
      modifies this
      ensures State() == AfterConnect(old(State()), deviceId, onMessage, onError, storage.Get("token"), storage.Get("server"))
    {
      if websocket.Some? && lastDeviceId == Some(deviceId) {
        return;
      }
      if websocket.Some? {
        CloseWebsocket();
      }
      var token := storage.Get("token");
      var server := storage.Get("server");
      if !Truthy(token) || !Truthy(server) {
        return;  // missing token or server
      }
      sockets := sockets + [DeviceSock(Url(server), Connecting, deviceId, token, onMessage, onError)];
      websocket := Some(|sockets| - 1);
      lastDeviceId := Some(deviceId);
    }

    method OnOpen(i: nat)
      modifies this
      ensures State() == AfterOpen(old(State()), i)
    {
      if i < |sockets| && sockets[i].readyState == Connecting {
        var frame := HandshakeFrame(sockets[i].deviceId, sockets[i].token);
        sockets := sockets[i := sockets[i].(readyState := Open)];
        if websocket.Some? && websocket.value < |sockets| && sockets[websocket.value].readyState == Open {
          sent := sent + [Sent(websocket.value, frame)];
        }
      }
    }

    method OnMessage(i: nat, data: JsValue)
      modifies this
      ensures State() == AfterMessage(old(State()), i, data)
    {
      if i < |sockets| && sockets[i].readyState == Open {
        notified := notified + [MessageTo(sockets[i].onMessage, data)];
      }
    }

    method OnError(i: nat)
      modifies this
      ensures State() == AfterError(old(State()), i)
    {
      if i < |sockets| {
        notified := notified + [ErrorTo(sockets[i].onError, i)];
      }
    }

    method OnClose(i: nat)
      modifies this
      ensures State() == AfterClosed(old(State()), i)
    {
      if i < |sockets| && sockets[i].readyState != Closed {
        sockets := sockets[i := sockets[i].(readyState := Closed)];
        lastDeviceId := None;
      }
    }

    method DisconnectWebSocket()
      modifies this
      ensures State() == AfterDisconnect(old(State()))
    {
      if websocket.Some? {
        CloseWebsocket();
        websocket := None;
        lastDeviceId := None;
      }
    }
  }
}
