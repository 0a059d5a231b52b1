/**
 * The telemetry channel (src/services/telemetryService.ts): one service object
 * that owns the current WebSocket, a command-id counter and two subscription
 * tables, `pendingSubscriptions` keyed by the local command id and
 * `subscriptions` keyed by the server's subscription id.
 *
 * The transport is abstract. Every socket the service ever created is kept in
 * `sockets` with its ready state and the token its `onopen` handler captured;
 * `ws` is the index of the socket the service currently refers to. Frames the
 * service sends are logged in `sent`, callback invocations in `delivered`, and
 * toasts in `reports`. The browser's socket events are the operations
 * `Opened`, `Closed`, `Errored` and `Message`, each naming the socket it
 * happens on.
 *
 * The transitions are first defined as functions on a `Service` value; the
 * class `TelemetryService` at the end performs them on its fields and is
 * specified by those functions.
 */
module Telemetry {
  import opened Wrappers
  import opened Js
  import opened Sockets

  /** A socket the service created, and the token its `onopen` handler captured. */
  datatype SocketRec = SocketRec(readyState: ReadyState, token: string)

  /** The identity of a callback a caller registered. */
  type CallbackId = nat

  datatype SubscriptionType = Timeseries | Attributes

  datatype SubscriptionCmd = SubscriptionCmd(
    entityType: string,
    entityId: string,
    scope: string,
    cmdId: nat,
    subType: SubscriptionType,
    keys: string)

  /** The JSON frames the service sends. */
  datatype OutFrame =
    | AuthCmd(cmdId: nat, token: string)   // { authCmd: { cmdId, token } }
    | TsSubCmds(cmd: SubscriptionCmd)      // { tsSubCmds: [ cmd ] }
    | AttrSubCmds(cmd: SubscriptionCmd)    // { attrSubCmds: [ cmd ] }

  /** A frame written to the socket with the given index. */
  datatype Sent = Sent(socket: nat, frame: OutFrame)

  datatype Subscription = Subscription(subscriptionId: string, cmdId: nat, callback: CallbackId)

  /** One invocation of a registered callback, with the subscription's command id. */
  datatype Delivery = Delivery(cmdId: nat, callback: CallbackId, data: JsValue)

  /** The error toasts the service raises. */
  datatype Report = NotConnected | SubscriptionFailed(errorMsg: JsValue) | SocketError

  datatype Service = Service(
    sockets: seq<SocketRec>,
    ws: Option<nat>,
    cmdId: nat,
    subscriptions: map<string, Subscription>,
    pending: map<nat, Subscription>,
    sent: seq<Sent>,
    delivered: seq<Delivery>,
    reports: seq<Report>)

  /** The invariant every reachable service state keeps. */
  ghost predicate Valid(s: Service) {
    && (s.ws.Some? ==> s.ws.value < |s.sockets|)
    // a socket only becomes open through `onopen`, which draws command id 0 first
    && (forall i :: 0 <= i < |s.sockets| && s.sockets[i].readyState == Open ==> s.cmdId > 0)
    && (forall c :: c in s.pending ==>
          0 < c < s.cmdId && s.pending[c].cmdId == c && s.pending[c].subscriptionId == "")
    && (forall k :: k in s.subscriptions ==>
          s.subscriptions[k].subscriptionId == k
          && s.subscriptions[k].cmdId < s.cmdId
          && s.subscriptions[k].cmdId !in s.pending)
    && (forall k, k' :: k in s.subscriptions && k' in s.subscriptions && k != k' ==>
          s.subscriptions[k].cmdId != s.subscriptions[k'].cmdId)
  }

  /** A state the observable logs of `s` are a prefix of. */
  ghost predicate Extends(s: Service, r: Service) {
    && |s.sockets| <= |r.sockets|
    && s.cmdId <= r.cmdId
    && s.sent <= r.sent
    && s.delivered <= r.delivered
    && s.reports <= r.reports
  }

  function Init(): (s: Service)
    ensures Valid(s)
    ensures s.ws.None? && s.subscriptions == map[] && s.pending == map[]
  {
    Service([], None, 0, map[], map[], [], [], [])
  }

  /** The service refers to a socket and that socket is OPEN. */
  predicate IsOpen(s: Service) {
    s.ws.Some? && s.ws.value < |s.sockets| && s.sockets[s.ws.value].readyState == Open
  }

  /** `getCmdId()`: hands out the counter, then advances it. */
  function NextCmdId(s: Service): (r: (Service, nat))
    ensures r.1 == s.cmdId && r.0.cmdId == r.1 + 1
    ensures r.0 == s.(cmdId := r.0.cmdId)
  {
    (s.(cmdId := s.cmdId + 1), s.cmdId)
  }

  /** `this.ws?.send(frame)`: the frame reaches the socket only when that socket
    * is OPEN. A CONNECTING socket throws, a closing or closed one drops the
    * frame, and no socket at all is a no-op; none of these changes the state. */
  function Send(s: Service, f: OutFrame): (r: Service)
    ensures IsOpen(s) ==> r == s.(sent := s.sent + [Sent(s.ws.value, f)])
    ensures !IsOpen(s) ==> r == s
  {
    if IsOpen(s) then s.(sent := s.sent + [Sent(s.ws.value, f)]) else s
  }

  /** `connect(token)` */
  function AfterConnect(s: Service, token: string): (r: Service)
    ensures Valid(s) ==> Valid(r)
    ensures Extends(s, r)
    // nothing happens while the current socket is open
    ensures IsOpen(s) ==> r == s
    // otherwise exactly one CONNECTING socket is added and becomes current,
    // and no socket is closed
    ensures !IsOpen(s) ==>
      && r.sockets == s.sockets + [SocketRec(Connecting, token)]
      && r.ws == Some(|s.sockets|)
      && r == s.(sockets := r.sockets, ws := r.ws)
  {
    if IsOpen(s) then s
    else s.(sockets := s.sockets + [SocketRec(Connecting, token)], ws := Some(|s.sockets|))
  }

  /** The `onopen` handler of socket `i`: the socket is OPEN, and an auth frame
    * with a fresh command id and the captured token goes to the current socket. */
  function AfterOpen(s: Service, i: nat): (r: Service)
    ensures Valid(s) ==> Valid(r)
    ensures Extends(s, r)
    ensures i < |s.sockets| && s.sockets[i].readyState == Connecting ==>
      && r.sockets == s.sockets[i := SocketRec(Open, s.sockets[i].token)]
      && r.cmdId == s.cmdId + 1
      && r.sent == s.sent + (if IsOpen(r) then [Sent(r.ws.value, AuthCmd(s.cmdId, s.sockets[i].token))] else [])
      && r.ws == s.ws && r.subscriptions == s.subscriptions && r.pending == s.pending
      && r.delivered == s.delivered && r.reports == s.reports
    ensures !(i < |s.sockets| && s.sockets[i].readyState == Connecting) ==> r == s
  {
    if i < |s.sockets| && s.sockets[i].readyState == Connecting then
      var nowOpen := s.(sockets := s.sockets[i := s.sockets[i].(readyState := Open)]);
      var (next, id) := NextCmdId(nowOpen);
      Send(next, AuthCmd(id, s.sockets[i].token))
    else s
  }

  /** The `onclose` handler of socket `i`: whichever socket closed, the service
    * forgets its current socket. The tables are not cleared. */
  function AfterClose(s: Service, i: nat): (r: Service)
    ensures Valid(s) ==> Valid(r)
    ensures Extends(s, r)
    ensures i < |s.sockets| && s.sockets[i].readyState != Closed ==>
      && r.ws.None?
      && r.sockets == s.sockets[i := SocketRec(Closed, s.sockets[i].token)]
      && r.subscriptions == s.subscriptions && r.pending == s.pending
      // nothing else changes: the counter and every log are kept
      && r == s.(sockets := r.sockets, ws := None)
    ensures !(i < |s.sockets| && s.sockets[i].readyState != Closed) ==> r == s
  {
    if i < |s.sockets| && s.sockets[i].readyState != Closed then
      s.(sockets := s.sockets[i := s.sockets[i].(readyState := Closed)], ws := None)
    else s
  }

  /** The `onerror` handler: an error toast. */
  function AfterError(s: Service, i: nat): (r: Service)
    ensures Valid(s) ==> Valid(r)
    ensures Extends(s, r)
    ensures i < |s.sockets| ==> r == s.(reports := s.reports + [SocketError])
    ensures i >= |s.sockets| ==> r == s
  {
    if i < |s.sockets| then s.(reports := s.reports + [SocketError]) else s
  }

  /** `disconnect()`: asks the current socket to close. The reference to it and
    * both tables stay as they are until its close event. */
  function AfterDisconnect(s: Service): (r: Service)
    ensures Valid(s) ==> Valid(r)
    ensures Extends(s, r)
    ensures r.ws == s.ws && r.cmdId == s.cmdId
    ensures r.subscriptions == s.subscriptions && r.pending == s.pending
    ensures |r.sockets| == |s.sockets|
    ensures forall j :: 0 <= j < |s.sockets| && (s.ws != Some(j) || s.sockets[j].readyState !in {Connecting, Open}) ==>
      r.sockets[j] == s.sockets[j]
    ensures s.ws.Some? && s.ws.value < |s.sockets| && s.sockets[s.ws.value].readyState in {Connecting, Open} ==>
      r.sockets[s.ws.value].readyState == Closing
    // the closing socket keeps its token, and nothing else changes
    ensures s.ws.Some? && s.ws.value < |s.sockets| && s.sockets[s.ws.value].readyState in {Connecting, Open} ==>
      r == s.(sockets := s.sockets[s.ws.value := SocketRec(Closing, s.sockets[s.ws.value].token)])
    ensures !(s.ws.Some? && s.ws.value < |s.sockets| && s.sockets[s.ws.value].readyState in {Connecting, Open}) ==>
      r == s
  {
    if s.ws.Some? && s.ws.value < |s.sockets| && s.sockets[s.ws.value].readyState in {Connecting, Open} then
      s.(sockets := s.sockets[s.ws.value := s.sockets[s.ws.value].(readyState := Closing)])
    else s
  }

  /** The scope a subscription command carries: the caller's, or the default. */
  function EffectiveScope(subType: SubscriptionType, scope: Option<string>): (r: string)
    ensures scope.Some? && scope.value != "" ==> r == scope.value
    ensures (scope.None? || scope.value == "") && subType == Timeseries ==> r == "LATEST_TELEMETRY"
    ensures (scope.None? || scope.value == "") && subType == Attributes ==> r == "SERVER_SCOPE"
  {
    if scope.Some? && scope.value != "" then scope.value
    else if subType == Timeseries then "LATEST_TELEMETRY" else "SERVER_SCOPE"
  }

  /** The frame a subscription command travels in. */
  function SubscriptionFrame(cmd: SubscriptionCmd): (f: OutFrame)
    ensures f.TsSubCmds? <==> cmd.subType == Timeseries
    ensures f.AttrSubCmds? <==> cmd.subType == Attributes
    ensures !f.AuthCmd? && f.cmd == cmd
  {
    match cmd.subType
    case Timeseries => TsSubCmds(cmd)
    case Attributes => AttrSubCmds(cmd)
  }

  /** The arguments of one `subscribe` call. */
  datatype SubscribeArgs = SubscribeArgs(entityType: string, entityId: string, subType: SubscriptionType,
                                         keys: seq<string>, callback: CallbackId, scope: Option<string>)

  /** `subscribe(entityType, entityId, type, keys, callback, scope)`; the command
    * id it returns, or None for `null`. */
  function AfterSubscribe(s: Service, a: SubscribeArgs): (r: (Service, Option<nat>))
    ensures Valid(s) ==> Valid(r.0)
    ensures Extends(s, r.0)
    ensures r.0.sockets == s.sockets && r.0.ws == s.ws
    ensures r.0.subscriptions == s.subscriptions && r.0.delivered == s.delivered
    // without an open socket: null, nothing sent, both tables unchanged, one error toast
    ensures !IsOpen(s) ==>
      r.1.None? && r.0.pending == s.pending && r.0.sent == s.sent && r.0.cmdId == s.cmdId
      && r.0.reports == s.reports + [NotConnected]
    // with one: the fresh command id, exactly one new pending entry under it,
    // exactly one frame on the current socket
    ensures IsOpen(s) ==>
      && r.1 == Some(s.cmdId)
      && r.0.cmdId == s.cmdId + 1
      && r.0.pending == s.pending[s.cmdId := Subscription("", s.cmdId, a.callback)]
      && r.0.reports == s.reports
      && |r.0.sent| == |s.sent| + 1 && r.0.sent[..|s.sent|] == s.sent
      && r.0.sent[|s.sent|].socket == s.ws.value
      && r.0.sent[|s.sent|].frame ==
           SubscriptionFrame(SubscriptionCmd(a.entityType, a.entityId, EffectiveScope(a.subType, a.scope),
                                             s.cmdId, a.subType, JoinWithCommas(a.keys)))
  {
    if !IsOpen(s) then
      (s.(reports := s.reports + [NotConnected]), None)
    else
      var (next, id) := NextCmdId(s);
      var cmd := SubscriptionCmd(a.entityType, a.entityId, EffectiveScope(a.subType, a.scope), id, a.subType, JoinWithCommas(a.keys));
      var registered := next.(pending := next.pending[id := Subscription("", id, a.callback)]);
      (Send(registered, SubscriptionFrame(cmd)), Some(id))
  }

  /** A frame `onmessage` routes to a callback: truthy `subscriptionId` and `data`. */
  predicate IsDataFrame(msg: JsValue) {
    msg.Obj? && Truthy(OptProp(msg, "subscriptionId")) && Truthy(OptProp(msg, "data"))
  }

  /** The pending command id a frame acknowledges, if it is not a data frame. */
  function AckedCmdId(s: Service, msg: JsValue): (r: Option<nat>)
    ensures r.Some? ==> r.value in s.pending && r.value != 0
    ensures r.Some? ==> !IsDataFrame(msg) && OptProp(msg, "cmdId") == Num(r.value)
    ensures r.None? && !IsDataFrame(msg) && OptProp(msg, "cmdId").Num? && OptProp(msg, "cmdId").n > 0 ==>
      OptProp(msg, "cmdId").n !in s.pending
  {
    var cmd := OptProp(msg, "cmdId");
    if msg.Obj? && !IsDataFrame(msg) && Truthy(cmd) && cmd.Num? && cmd.n >= 0 && cmd.n in s.pending
    then Some(cmd.n) else None
  }

  /** The `onmessage` handler, given the parsed frame. */
  function HandleMessage(s: Service, msg: JsValue): (r: Service)
    ensures Valid(s) ==> Valid(r)
    ensures Extends(s, r)
    ensures r.sockets == s.sockets && r.ws == s.ws && r.cmdId == s.cmdId
    ensures r.sent == s.sent
    // data frames: only the active subscription under that id is invoked, once,
    // with the data as it came; tables unchanged
    ensures IsDataFrame(msg) ==>
      var key := ToStr(OptProp(msg, "subscriptionId"));
      && r.subscriptions == s.subscriptions && r.pending == s.pending && r.reports == s.reports
      && r.delivered == s.delivered +
           (if key in s.subscriptions
            then [Delivery(s.subscriptions[key].cmdId, s.subscriptions[key].callback, OptProp(msg, "data"))]
            else [])
    // acknowledgements never invoke a callback, and only touch the acknowledged entry
    ensures !IsDataFrame(msg) ==> r.delivered == s.delivered
    ensures AckedCmdId(s, msg).None? ==> r == s || IsDataFrame(msg)
    ensures AckedCmdId(s, msg).Some? ==>
      var c := AckedCmdId(s, msg).value;
      var sid := OptProp(msg, "subscriptionId");
      if OptProp(msg, "errorCode") != Num(0) then
        r.pending == s.pending - {c} && r.subscriptions == s.subscriptions
        && r.reports == s.reports + [SubscriptionFailed(OptProp(msg, "errorMsg"))]
      else if sid.Undefined? || sid.Null? then
        r == s   // `subscriptionId.toString()` throws before anything changes
      else
        r.pending == s.pending - {c} && r.reports == s.reports
        && r.subscriptions == s.subscriptions[ToStr(sid) := s.pending[c].(subscriptionId := ToStr(sid))]
  {
    if IsDataFrame(msg) then
      var key := ToStr(OptProp(msg, "subscriptionId"));
      if key in s.subscriptions then
        var sub := s.subscriptions[key];
        s.(delivered := s.delivered + [Delivery(sub.cmdId, sub.callback, OptProp(msg, "data"))])
      else s
    else
      match AckedCmdId(s, msg)
      case None => s
      case Some(c) =>
        var sub := s.pending[c];
        var sid := OptProp(msg, "subscriptionId");
        if OptProp(msg, "errorCode") == Num(0) then
          match MethodToString(sid)
          case None => s
          case Some(key) =>
            s.(subscriptions := s.subscriptions[key := sub.(subscriptionId := key)], pending := s.pending - {c})
        else
          s.(pending := s.pending - {c}, reports := s.reports + [SubscriptionFailed(OptProp(msg, "errorMsg"))])
  }

  /** A frame arriving on socket `i`; only open sockets receive frames. */
  function AfterFrame(s: Service, i: nat, msg: JsValue): (r: Service)
    ensures Valid(s) ==> Valid(r)
    ensures Extends(s, r)
    ensures i < |s.sockets| && s.sockets[i].readyState == Open ==> r == HandleMessage(s, msg)
    ensures !(i < |s.sockets| && s.sockets[i].readyState == Open) ==> r == s
  {
    if i < |s.sockets| && s.sockets[i].readyState == Open then HandleMessage(s, msg) else s
  }

  /** The active table without the entry (if any) registered under command id `id`. */
  function WithoutCmd(subs: map<string, Subscription>, id: int): (m: map<string, Subscription>)
    ensures forall k :: k in m <==> k in subs && subs[k].cmdId != id
    ensures forall k :: k in m ==> m[k] == subs[k]
  {
    map k | k in subs && subs[k].cmdId != id :: subs[k]
  }

  /** `unsubscribe(cmdId)`: forgets a pending entry, or else the active entry with
    * that command id. No frame goes to the server. */
  function AfterUnsubscribe(s: Service, id: int): (r: Service)
    ensures Valid(s) ==> Valid(r)
    ensures Extends(s, r)
    ensures r.sockets == s.sockets && r.ws == s.ws && r.cmdId == s.cmdId
    ensures r.sent == s.sent && r.delivered == s.delivered && r.reports == s.reports
    ensures id >= 0 && id in s.pending ==> r.pending == s.pending - {id} && r.subscriptions == s.subscriptions
    ensures !(id >= 0 && id in s.pending) ==> r.pending == s.pending && r.subscriptions == WithoutCmd(s.subscriptions, id)
    // afterwards nothing is registered under that command id
    ensures Valid(s) ==> (id >= 0 ==> id !in r.pending) && forall k :: k in r.subscriptions ==> r.subscriptions[k].cmdId != id
  {
    if id >= 0 && id in s.pending then s.(pending := s.pending - {id})
    else s.(subscriptions := WithoutCmd(s.subscriptions, id))
  }

  /** `unsubscribe` of an id nothing is registered under changes nothing. */
  lemma UnsubscribeUnknownIsNoOp(s: Service, id: int)
    requires !(id >= 0 && id in s.pending)
    requires forall k :: k in s.subscriptions ==> s.subscriptions[k].cmdId != id
    ensures AfterUnsubscribe(s, id) == s
  {
    assert WithoutCmd(s.subscriptions, id) == s.subscriptions;
  }

  // ---------------------------------------------------------------------------
  // Runs of events

  datatype Event =
    | ConnectCall(token: string)
    | DisconnectCall
    | SubscribeCall(args: SubscribeArgs)
    | UnsubscribeCall(id: int)
    | SocketOpened(i: nat)
    | SocketClosed(i: nat)
    | SocketErrored(i: nat)
    | FrameArrived(i: nat, msg: JsValue)

  function Step(s: Service, e: Event): (r: Service)
    ensures Valid(s) ==> Valid(r)
    ensures Extends(s, r)
  {
    match e
    case ConnectCall(token) => AfterConnect(s, token)
    case DisconnectCall => AfterDisconnect(s)
    case SubscribeCall(args) => AfterSubscribe(s, args).0
    case UnsubscribeCall(id) => AfterUnsubscribe(s, id)
    case SocketOpened(i) => AfterOpen(s, i)
    case SocketClosed(i) => AfterClose(s, i)
    case SocketErrored(i) => AfterError(s, i)
    case FrameArrived(i, msg) => AfterFrame(s, i, msg)
  }

  function Run(s: Service, events: seq<Event>): Service
    decreases |events|
  {
    if events == [] then s else Run(Step(s, events[0]), events[1..])
  }

  lemma {:induction false} RunKeepsValid(s: Service, events: seq<Event>)
    requires Valid(s)
    ensures Valid(Run(s, events))
    ensures Extends(s, Run(s, events))
    decreases |events|
  {
    if events != [] {
      RunKeepsValid(Step(s, events[0]), events[1..]);
    }
  }

  /** Command ids handed out by two subscribe calls of one service, with any
    * events between them, are different: the later one is larger. */
  lemma IdsStrictlyIncrease(s: Service, a: SubscribeArgs, between: seq<Event>, b: SubscribeArgs)
    requires Valid(s)
    ensures
      var first := AfterSubscribe(s, a);
      var second := AfterSubscribe(Run(first.0, between), b);
      first.1.Some? && second.1.Some? ==> first.1.value < second.1.value
  {
    var first := AfterSubscribe(s, a);
    RunKeepsValid(first.0, between);
  }

  /** Nothing is registered under command id `c`, and the counter is past it, so
    * nothing ever will be. */
  ghost predicate Gone(s: Service, c: nat) {
    c < s.cmdId && c !in s.pending && forall k :: k in s.subscriptions ==> s.subscriptions[k].cmdId != c
  }

  lemma GoneStep(s: Service, e: Event, c: nat)
    requires Valid(s) && Gone(s, c)
    ensures Gone(Step(s, e), c)
    ensures forall j :: |s.delivered| <= j < |Step(s, e).delivered| ==> Step(s, e).delivered[j].cmdId != c
  {
    match e
    case ConnectCall(_) =>
    case DisconnectCall =>
    case SubscribeCall(_) =>
    case UnsubscribeCall(_) =>
    case SocketOpened(_) =>
    case SocketClosed(_) =>
    case SocketErrored(_) =>
    case FrameArrived(i, msg) => GoneAfterFrame(s, i, msg, c);
  }

  lemma GoneAfterFrame(s: Service, i: nat, msg: JsValue, c: nat)
    requires Valid(s) && Gone(s, c)
    ensures Gone(AfterFrame(s, i, msg), c)
    ensures forall j :: |s.delivered| <= j < |AfterFrame(s, i, msg).delivered| ==> AfterFrame(s, i, msg).delivered[j].cmdId != c
  {
  }

  /** Once command id `c` is gone, no later event delivers anything for it. */
  lemma {:induction false} GoneForever(s: Service, events: seq<Event>, c: nat)
    requires Valid(s) && Gone(s, c)
    ensures Gone(Run(s, events), c)
    ensures forall j :: |s.delivered| <= j < |Run(s, events).delivered| ==> Run(s, events).delivered[j].cmdId != c
    decreases |events|
  {
    if events != [] {
      var t := Step(s, events[0]);
      GoneStep(s, events[0], c);
      GoneForever(t, events[1..], c);
      RunKeepsValid(t, events[1..]);
    }
  }

  /** After `unsubscribe(c)` for a command id the service handed out, no frame
    * ever reaches that subscription's callback again. */
  lemma UnsubscribeStopsDelivery(s: Service, c: nat, later: seq<Event>)
    requires Valid(s) && c < s.cmdId
    ensures
      var t := AfterUnsubscribe(s, c);
      forall j :: |t.delivered| <= j < |Run(t, later).delivered| ==> Run(t, later).delivered[j].cmdId != c
  {
    GoneForever(AfterUnsubscribe(s, c), later, c);
  }

  /** A failed acknowledgement discards the pending entry for good: its callback
    * is never invoked, and a later `unsubscribe` of it changes nothing. */
  lemma FailedAckIsFinal(s: Service, msg: JsValue, later: seq<Event>)
    requires Valid(s)
    requires AckedCmdId(s, msg).Some? && OptProp(msg, "errorCode") != Num(0)
    ensures
      var c := AckedCmdId(s, msg).value;
      var t := HandleMessage(s, msg);
      && Gone(t, c)
      && AfterUnsubscribe(t, c) == t
      && forall j :: |t.delivered| <= j < |Run(t, later).delivered| ==> Run(t, later).delivered[j].cmdId != c
  {
    var c := AckedCmdId(s, msg).value;
    var t := HandleMessage(s, msg);
    assert WithoutCmd(t.subscriptions, c) == t.subscriptions;
    GoneForever(t, later, c);
  }

  /** A successful acknowledgement activates the subscription: from then on a
    * data frame with that subscription id invokes its callback exactly once. */
  lemma AckThenData(s: Service, c: nat, sid: int, data: JsValue)
    requires Valid(s) && c in s.pending && sid != 0 && Truthy(data)
    ensures
      var ack := Obj(map["cmdId" := Num(c), "subscriptionId" := Num(sid), "errorCode" := Num(0)]);
      var frame := Obj(map["subscriptionId" := Num(sid), "data" := data]);
      var t := HandleMessage(HandleMessage(s, ack), frame);
      && t.delivered == s.delivered + [Delivery(c, s.pending[c].callback, data)]
      && c !in t.pending
      && IntToString(sid) in t.subscriptions && t.subscriptions[IntToString(sid)].cmdId == c
  {
    var ack := Obj(map["cmdId" := Num(c), "subscriptionId" := Num(sid), "errorCode" := Num(0)]);
    var frame := Obj(map["subscriptionId" := Num(sid), "data" := data]);
    assert OptProp(ack, "data") == Undefined;
    assert !IsDataFrame(ack);
    assert AckedCmdId(s, ack) == Some(c);
    assert OptProp(ack, "errorCode") == Num(0) && OptProp(ack, "subscriptionId") == Num(sid);
    var key := IntToString(sid);
    var t1 := HandleMessage(s, ack);
    assert t1.subscriptions == s.subscriptions[key := s.pending[c].(subscriptionId := key)];
    assert c !in t1.pending && t1.delivered == s.delivered;
    assert OptProp(frame, "subscriptionId") == Num(sid) && OptProp(frame, "data") == data;
    assert IsDataFrame(frame);
    assert t1.subscriptions[key].cmdId == c && t1.subscriptions[key].callback == s.pending[c].callback;
  }

  /** Before its acknowledgement, a pending subscription receives nothing: no
    * data frame, whatever its subscription id, reaches its callback. */
  lemma PendingReceivesNothing(s: Service, msg: JsValue, c: nat)
    requires Valid(s) && c in s.pending
    ensures forall j :: |s.delivered| <= j < |HandleMessage(s, msg).delivered| ==>
      HandleMessage(s, msg).delivered[j].cmdId != c
  {
  }

  /** Closing does not clear the tables: after the socket closes and a new one
    * opens, a data frame under an old subscription id still reaches the
    * callback registered before the close. */
  lemma SubscriptionsSurviveReconnect(s: Service, i: nat, token: string, key: string, data: JsValue)
    requires Valid(s) && key in s.subscriptions && key != "" && Truthy(data)
    requires i < |s.sockets| && s.sockets[i].readyState != Closed
    ensures
      var reopened := AfterOpen(AfterConnect(AfterClose(s, i), token), |s.sockets|);
      var frame := Obj(map["subscriptionId" := Str(key), "data" := data]);
      AfterFrame(reopened, |s.sockets|, frame).delivered
        == reopened.delivered + [Delivery(s.subscriptions[key].cmdId, s.subscriptions[key].callback, data)]
  {
    var closed := AfterClose(s, i);
    var connected := AfterConnect(closed, token);
    assert !IsOpen(closed);
    assert connected.sockets[|s.sockets|].readyState == Connecting;
    var reopened := AfterOpen(connected, |s.sockets|);
    assert reopened.sockets[|s.sockets|].readyState == Open;
    assert reopened.subscriptions == s.subscriptions;
    var frame := Obj(map["subscriptionId" := Str(key), "data" := data]);
    assert OptProp(frame, "subscriptionId") == Str(key) && OptProp(frame, "data") == data;
    assert IsDataFrame(frame);
  }

  // ---------------------------------------------------------------------------
  // The service object

  class TelemetryService {
    var sockets: seq<SocketRec>
    var ws: Option<nat>
    var cmdId: nat
    var subscriptions: map<string, Subscription>
    var pendingSubscriptions: map<nat, Subscription>
    var sent: seq<Sent>
    var delivered: seq<Delivery>
    var reports: seq<Report>

    function State(): Service
      reads this
    {
      Service(sockets, ws, cmdId, subscriptions, pendingSubscriptions, sent, delivered, reports)
    }

    ghost predicate Inv()
      reads this
    {
      Valid(State())
    }

    constructor ()
      ensures State() == Init() && Inv()
    {
      sockets, ws, cmdId := [], None, 0;
      subscriptions, pendingSubscriptions := map[], map[];
      sent, delivered, reports := [], [], [];
    }

    method GetCmdId() returns (id: nat)
      modifies this
      ensures (State(), id) == NextCmdId(old(State()))
    {
      id := cmdId;
      cmdId := cmdId + 1;
    }

    method SendFrame(f: OutFrame)
      modifies this
      ensures State() == Send(old(State()), f)
    {
      if ws.Some? && ws.value < |sockets| && sockets[ws.value].readyState == Open {
        sent := sent + [Sent(ws.value, f)];
      }
    }

    method Connect(token: string)
      modifies this
      ensures State() == AfterConnect(old(State()), token)
    {
      if ws.Some? && ws.value < |sockets| && sockets[ws.value].readyState == Open {
        return;
      }
      sockets := sockets + [SocketRec(Connecting, token)];
      ws := Some(|sockets| - 1);
    }

    method OnOpen(i: nat)
      modifies this
      ensures State() == AfterOpen(old(State()), i)
    {
      if i < |sockets| && sockets[i].readyState == Connecting {
        var token := sockets[i].token;
        sockets := sockets[i := sockets[i].(readyState := Open)];
        var id := GetCmdId();
        SendFrame(AuthCmd(id, token));
      }
    }

    method OnMessage(i: nat, message: JsValue)
      modifies this
      ensures State() == AfterFrame(old(State()), i, message)
    {
      if !(i < |sockets| && sockets[i].readyState == Open) {
        return;
      }
      var subscriptionId := OptProp(message, "subscriptionId");
      var cmd := OptProp(message, "cmdId");
      if message.Obj? && Truthy(subscriptionId) && Truthy(OptProp(message, "data")) {
        var key := ToStr(subscriptionId);
        if key in subscriptions {
          var subscription := subscriptions[key];
          delivered := delivered + [Delivery(subscription.cmdId, subscription.callback, OptProp(message, "data"))];
        }
      } else if message.Obj? && Truthy(cmd) && cmd.Num? && cmd.n >= 0 && cmd.n in pendingSubscriptions {
        var subscription := pendingSubscriptions[cmd.n];
        if OptProp(message, "errorCode") == Num(0) {
          if subscriptionId.Undefined? || subscriptionId.Null? {
            return;  // `subscriptionId.toString()` throws
          }
          var key := ToStr(subscriptionId);
          subscriptions := subscriptions[key := subscription.(subscriptionId := key)];
          pendingSubscriptions := pendingSubscriptions - {cmd.n};
        } else {
          reports := reports + [SubscriptionFailed(OptProp(message, "errorMsg"))];
          pendingSubscriptions := pendingSubscriptions - {cmd.n};
        }
      }
    }

    method OnClose(i: nat)
      modifies this
      ensures State() == AfterClose(old(State()), i)
    {
      if i < |sockets| && sockets[i].readyState != Closed {
        sockets := sockets[i := sockets[i].(readyState := Closed)];
        ws := None;
      }
    }

    method OnError(i: nat)
      modifies this
      ensures State() == AfterError(old(State()), i)
    {
      if i < |sockets| {
        reports := reports + [SocketError];
      }
    }

    method Disconnect()
      modifies this
      ensures State() == AfterDisconnect(old(State()))
    {
      if ws.Some? && ws.value < |sockets| && sockets[ws.value].readyState in {Connecting, Open} {
        sockets := sockets[ws.value := sockets[ws.value].(readyState := Closing)];
      }
    }

    method Subscribe(entityType: string, entityId: string, subType: SubscriptionType,
                     keys: seq<string>, callback: CallbackId, scope: Option<string>) returns (id: Option<nat>)
      modifies this
      ensures (State(), id) == AfterSubscribe(old(State()), SubscribeArgs(entityType, entityId, subType, keys, callback, scope))
    {
      if !(ws.Some? && ws.value < |sockets| && sockets[ws.value].readyState == Open) {
        reports := reports + [NotConnected];
        return None;
      }
      var c := GetCmdId();
      var cmd := SubscriptionCmd(entityType, entityId, EffectiveScope(subType, scope), c, subType, JoinWithCommas(keys));
      pendingSubscriptions := pendingSubscriptions[c := Subscription("", c, callback)];
      SendFrame(SubscriptionFrame(cmd));
      return Some(c);
    }

    /** Searches the active table for the entry with command id `id`, as the
      * source's loop over `subscriptions.values()` does. */
    method Unsubscribe(id: int)
      requires Inv()
      modifies this
      ensures State() == AfterUnsubscribe(old(State()), id)
    {
      if id >= 0 && id in pendingSubscriptions {
        pendingSubscriptions := pendingSubscriptions - {id};
        return;
      }
      var found: Option<Subscription> := None;
      var unvisited := subscriptions.Keys;
      while unvisited != {} && found.None?
        invariant unvisited <= subscriptions.Keys
        invariant found.None? ==> forall k :: k in subscriptions && k !in unvisited ==> subscriptions[k].cmdId != id
        invariant found.Some? ==>
          found.value.subscriptionId in subscriptions
          && subscriptions[found.value.subscriptionId] == found.value && found.value.cmdId == id
        decreases unvisited
      {
        var k :| k in unvisited;
        if subscriptions[k].cmdId == id {
          found := Some(subscriptions[k]);
        }
        unvisited := unvisited - {k};
      }
      if found.Some? {
        ghost var before := subscriptions;
        subscriptions := subscriptions - {found.value.subscriptionId};
        assert subscriptions == WithoutCmd(before, id);
      } else {
        assert subscriptions == WithoutCmd(subscriptions, id);
      }
    }
  }
}
