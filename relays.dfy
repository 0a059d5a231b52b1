/**
 * The relay mapping editor of the Gadadar dashboard
 * (src/features/dashboard/components/RelaysController.tsx). The field shows
 * the edited text, or the mapping the device last reported; Save sends an
 * edited mapping to the device's shared attributes and then asks the device,
 * by RPC, to save its state and to resynchronise its attributes.
 *
 * Each call's outcome is decided by the environment, given as `succeeds`.
 * The toasts that follow the calls are not modelled; the "no changes" notice is.
 */
module Relays {
  import opened Js

  /** The remote calls `handleSave` can make. */
  datatype Call =
    | SaveDeviceAttributes(entityType: JsValue, entityId: JsValue, scope: string, attributes: map<string, string>)
    | Rpc(deviceId: JsValue, name: string)

  /** What one press of Save did. */
  datatype SaveOutcome =
    | NoDevice                   // returned at once: there is no device
    | NoChanges                  // the "no changes" notice, and no call
    | Attempted(calls: seq<Call>) // the calls made, in order

  /** The mapping the device reported last: the value of the first entry of
    * its client-scope `relays` series, or '[]' when that is missing or falsy. */
  function DefaultRelays(device: JsValue): (r: JsValue)
    ensures Truthy(r)
    ensures device.Undefined? || device.Null? ==> r == Str("[]")
  {
    var attrs := OptProp(device, "attributesClientScope");
    Or(OptIndex(OptIndex(OptProp(attrs, "relays"), 0), 1), Str("[]"))
  }

  /** The attributes to save: the edited mapping, when there is one and it
    * differs from the reported one. */
  function ChangedAttributes(relays: string, defaultRelays: JsValue): (r: map<string, string>)
    ensures r.Keys <= {"relays"}
    ensures "relays" in r <==> relays != "" && Str(relays) != defaultRelays
    ensures "relays" in r ==> r["relays"] == relays
  {
    if relays != "" && Str(relays) != defaultRelays then map["relays" := relays] else map[]
  }

  /** The three calls of a save, in the order they are awaited. */
  function SaveChain(entityType: JsValue, id: JsValue, attributes: map<string, string>): (r: seq<Call>)
    ensures |r| == 3
    ensures r[0] == SaveDeviceAttributes(entityType, id, "SHARED_SCOPE", attributes)
    ensures r[1] == Rpc(id, "stateSave") && r[2] == Rpc(id, "syncAttribute")
  {
    [SaveDeviceAttributes(entityType, id, "SHARED_SCOPE", attributes), Rpc(id, "stateSave"), Rpc(id, "syncAttribute")]
  }

  /** The calls of `chain` that are made when each is awaited in turn and the
    * first failure ends the sequence. */
  function RunChain(chain: seq<Call>, succeeds: Call -> bool): (r: seq<Call>)
    ensures |r| <= |chain| && r == chain[..|r|]
    ensures chain != [] ==> r != []
    // every call but the last one made succeeded
    ensures forall i :: 0 <= i < |r| - 1 ==> succeeds(r[i])
    // the sequence stops early only at a failure
    ensures |r| < |chain| ==> !succeeds(r[|r| - 1])
    ensures (forall i :: 0 <= i < |chain| ==> succeeds(chain[i])) ==> r == chain
    decreases |chain|
  {
    if chain == [] then []
    else if succeeds(chain[0]) then [chain[0]] + RunChain(chain[1..], succeeds)
    else [chain[0]]
  }

  /** `handleSave` for the current device and edited text. Reading
    * `device.id` throws when it is missing; the throw is caught, and no call
    * has been made by then. */
  function SavePlan(device: JsValue, relays: string, succeeds: Call -> bool): (r: SaveOutcome)
    ensures !Truthy(device) ==> r == NoDevice
    ensures Truthy(device) && ChangedAttributes(relays, DefaultRelays(device)) == map[] ==> r == NoChanges
    ensures r.NoChanges? ==> relays == "" || Str(relays) == DefaultRelays(device)
    ensures r.Attempted? ==>
      && ChangedAttributes(relays, DefaultRelays(device)) == map["relays" := relays]
      && |r.calls| <= 3
      && (r.calls == [] <==> Prop(OptProp(device, "id"), "id").None? || Prop(OptProp(device, "id"), "entityType").None?)
      && (r.calls != [] ==> r.calls[0].SaveDeviceAttributes? && r.calls[0].attributes == map["relays" := relays])
    // a device with an edited mapping always gets an attempt
    ensures Truthy(device) && ChangedAttributes(relays, DefaultRelays(device)) != map[] ==> r.Attempted?
    // the calls are the save chain for the device's own id, stopped at the first failure
    ensures r.Attempted? && r.calls != [] ==>
      r.calls == RunChain(SaveChain(Prop(OptProp(device, "id"), "entityType").value, Prop(OptProp(device, "id"), "id").value,
                                    map["relays" := relays]), succeeds)
  {
    if !Truthy(device) then NoDevice
    else
      var attributes := ChangedAttributes(relays, DefaultRelays(device));
      if attributes == map[] then NoChanges
      else
        var id := Prop(device, "id").value;
        match (Prop(id, "entityType"), Prop(id, "id"))
        case (Some(entityType), Some(deviceId)) =>
          Attempted(RunChain(SaveChain(entityType, deviceId, attributes), succeeds))
        case _ => Attempted([])
  }

  /** The component's state: the edited text, the calls made so far and the
    * number of "no changes" notices shown. */
  datatype Controller = Controller(relays: string, calls: seq<Call>, noChangesNotices: nat)

  /** The state after one press of Save. */
  function AfterSave(c: Controller, device: JsValue, succeeds: Call -> bool): (r: Controller)
    ensures r.relays == c.relays
    ensures SavePlan(device, c.relays, succeeds).Attempted? ==>
      r.calls == c.calls + SavePlan(device, c.relays, succeeds).calls && r.noChangesNotices == c.noChangesNotices
    ensures SavePlan(device, c.relays, succeeds).NoChanges? ==>
      r.calls == c.calls && r.noChangesNotices == c.noChangesNotices + 1
    ensures SavePlan(device, c.relays, succeeds).NoDevice? ==> r == c
  {
    match SavePlan(device, c.relays, succeeds)
    case NoDevice => c
    case NoChanges => c.(noChangesNotices := c.noChangesNotices + 1)
    case Attempted(calls) => c.(calls := c.calls + calls)
  }

  /** `relays || defaultRelays`, the text the field shows. */
  function Displayed(relays: string, device: JsValue): (r: JsValue)
    ensures relays != "" ==> r == Str(relays)
    ensures relays == "" ==> r == DefaultRelays(device)
    ensures Truthy(r)
  {
    Or(Str(relays), DefaultRelays(device))
  }

  // ---------------------------------------------------------------------------
  // Lemmas

  /** After Reset the field shows the reported mapping again, and Save makes no call. */
  lemma ResetThenSaveMakesNoCall(device: JsValue, succeeds: Call -> bool)
    ensures Displayed("", device) == DefaultRelays(device)
    ensures !SavePlan(device, "", succeeds).Attempted?
    ensures Truthy(device) ==> SavePlan(device, "", succeeds) == NoChanges
  {
  }

  /** Saving the mapping the device already reports is no change. */
  lemma SavingTheReportedMappingIsNoChange(device: JsValue, relays: string, succeeds: Call -> bool)
    requires Truthy(device) && DefaultRelays(device) == Str(relays)
    ensures SavePlan(device, relays, succeeds) == NoChanges
  {
  }

  /** A rejected attribute save sends neither RPC; a rejected `stateSave`
    * does not send `syncAttribute`; when everything succeeds all three
    * calls are made in order. */
  lemma FailureStopsTheChain(entityType: JsValue, id: JsValue, attributes: map<string, string>, succeeds: Call -> bool)
    ensures !succeeds(SaveChain(entityType, id, attributes)[0]) ==>
      RunChain(SaveChain(entityType, id, attributes), succeeds) == [SaveChain(entityType, id, attributes)[0]]
    ensures succeeds(SaveChain(entityType, id, attributes)[0]) && !succeeds(Rpc(id, "stateSave")) ==>
      RunChain(SaveChain(entityType, id, attributes), succeeds)
        == [SaveDeviceAttributes(entityType, id, "SHARED_SCOPE", attributes), Rpc(id, "stateSave")]
    ensures (forall c :: succeeds(c)) ==>
      RunChain(SaveChain(entityType, id, attributes), succeeds) == SaveChain(entityType, id, attributes)
  {
    var chain := SaveChain(entityType, id, attributes);
    if succeeds(chain[0]) && !succeeds(Rpc(id, "stateSave")) {
      assert chain[1..][1..] == [chain[2]];
    }
  }

  /** What one press of Save sends for a device with an id and an edited
    * mapping: the attribute save to that device first; a rejected save sends
    * neither RPC; a rejected `stateSave` does not send `syncAttribute`; when
    * every call succeeds the three calls are made in order. */
  lemma SaveStopsAtFirstFailure(device: JsValue, relays: string, succeeds: Call -> bool)
    requires Truthy(device) && relays != "" && Str(relays) != DefaultRelays(device)
    requires Prop(OptProp(device, "id"), "entityType").Some? && Prop(OptProp(device, "id"), "id").Some?
    ensures var entityType := Prop(OptProp(device, "id"), "entityType").value;
      var id := Prop(OptProp(device, "id"), "id").value;
      var save := SaveDeviceAttributes(entityType, id, "SHARED_SCOPE", map["relays" := relays]);
      && SavePlan(device, relays, succeeds).Attempted?
      && (!succeeds(save) ==> SavePlan(device, relays, succeeds).calls == [save])
      && (succeeds(save) && !succeeds(Rpc(id, "stateSave")) ==>
            SavePlan(device, relays, succeeds).calls == [save, Rpc(id, "stateSave")])
      && (succeeds(save) && succeeds(Rpc(id, "stateSave")) ==>
            SavePlan(device, relays, succeeds).calls == [save, Rpc(id, "stateSave"), Rpc(id, "syncAttribute")])
  {
    var entityType := Prop(OptProp(device, "id"), "entityType").value;
    var id := Prop(OptProp(device, "id"), "id").value;
    var chain := SaveChain(entityType, id, map["relays" := relays]);
    FailureStopsTheChain(entityType, id, map["relays" := relays], succeeds);
    assert SavePlan(device, relays, succeeds) == Attempted(RunChain(chain, succeeds));
    if succeeds(chain[0]) && succeeds(chain[1]) {
      assert chain[1..][1..] == [chain[2]];
      assert chain[1..][1..][1..] == [];
    }
  }

  /** The reported mapping for a device whose client attributes hold a
    * `relays` series, and for a device that reports none. */
  lemma DefaultRelaysExamples(ts: int, mapping: string)
    requires mapping != ""
    ensures DefaultRelays(Obj(map["attributesClientScope" := Obj(map["relays" := Arr([Arr([Num(ts), Str(mapping)])])])]))
      == Str(mapping)
    ensures DefaultRelays(Obj(map[])) == Str("[]")
    ensures DefaultRelays(Obj(map["attributesClientScope" := Obj(map["relays" := Arr([])])])) == Str("[]")
  {
  }

  // ---------------------------------------------------------------------------
  // The component

  class RelaysController {
    var relays: string
    var calls: seq<Call>
    var noChangesNotices: nat

    function State(): Controller
      reads this
    {
      Controller(relays, calls, noChangesNotices)
    }

    /** `useState('')` */
    constructor ()
      ensures State() == Controller("", [], 0)
    {
      relays := "";
      calls := [];
      noChangesNotices := 0;
    }

    /** The field's `onChange`. */
    method Edit(value: string)
      modifies this
      ensures State() == old(State()).(relays := value)
    {
      relays := value;
    }

    /** `handleReset` */
    method HandleReset()
      modifies this
      ensures State() == old(State()).(relays := "")
    {
      relays := "";
    }

    /** `handleSave`, with the environment's answer to each call. */
    method HandleSave(device: JsValue, succeeds: Call -> bool)
      modifies this
      ensures State() == AfterSave(old(State()), device, succeeds)
    {
      ghost var plan := SavePlan(device, relays, succeeds);
      if !Truthy(device) {
        return;
      }
      var attributes: map<string, string> := map[];
      if relays != "" && Str(relays) != DefaultRelays(device) {
        attributes := attributes["relays" := relays];
      }
      assert attributes == ChangedAttributes(relays, DefaultRelays(device));
      if attributes == map[] {
        assert plan == NoChanges;
        noChangesNotices := noChangesNotices + 1;
        return;
      }
      var id := Prop(device, "id").value;
      var entityType := Prop(id, "entityType");
      var deviceId := Prop(id, "id");
      if entityType.None? || deviceId.None? {
        assert plan == Attempted([]);
        return;
      }
      ghost var chain := SaveChain(entityType.value, deviceId.value, attributes);
      assert plan == Attempted(RunChain(chain, succeeds));
      var save := SaveDeviceAttributes(entityType.value, deviceId.value, "SHARED_SCOPE", attributes);
      calls := calls + [save];
      if !succeeds(save) {
        assert RunChain(chain, succeeds) == [save];
        return;
      }
      var stateSave := Rpc(deviceId.value, "stateSave");
      calls := calls + [stateSave];
      assert chain[1..][1..] == [chain[2]];
      if !succeeds(stateSave) {
        assert RunChain(chain, succeeds) == [save, stateSave];
        return;
      }
      var sync := Rpc(deviceId.value, "syncAttribute");
      calls := calls + [sync];
      assert RunChain(chain, succeeds) == [save, stateSave, sync];
    }
  }
}
