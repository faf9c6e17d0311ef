/** The Home Assistant data coordinator
    (`config/custom_components/pushok_hub/coordinator.py`): the device
    registry, the per-device states, formats and attributes, the adapter
    cache keyed by driver, and the reconnect task.  The hub client's answers
    are parameters: `load` gives what `get_state`, `get_format` and
    `get_attributes` return for a device (`None` where the call raised),
    `fetch` what the `n`-th `get_adapter` request of a load returns for a
    driver, so two requests for one driver may be answered differently. */
module Coordinator {
  import opened Wrappers
  import opened Dicts
  import opened JsonValues
  import opened Models
  import opened Seqs
  import Constants
  import Client

  // ------------------------------------------------------------ object updates

  /** The device an object-update broadcast applies to: a non-empty string
      `id` that names a known device, with a `props` that is a dict or
      absent.  The other cases change nothing; some of them raise
      (`UpdateRaises`). */
  function UpdateTarget(devices: Dict<string, DeviceDescription>, msg: Dict<string, Json>): Option<string>
  {
    var idv := GetOr(msg, "id", JNull);
    if idv.JStr? && idv.s != "" && idv.s in KeySet(devices) && GetOr(msg, "props", JObj([])).JObj?
    then Some(idv.s) else None
  }

  /** Whether `_handle_object_update` raises: a list or dict `id` cannot be
      looked up in the registry, and for a known device a `props` that is
      not a dict fails the `in` tests, the indexing or `items()`.  Either
      raise comes before anything is stored. */
  predicate UpdateRaises(devices: Dict<string, DeviceDescription>, msg: Dict<string, Json>)
  {
    var idv := GetOr(msg, "id", JNull);
    Truthy(idv) &&
    (idv.JArr? || idv.JObj? ||
     (idv.JStr? && idv.s in KeySet(devices) && Get(msg, "props").Some? && !Get(msg, "props").value.JObj?))
  }

  /** An update either raises, is ignored, or applies to its target, and
      which one is decided by the `id` and the `props` alone. */
  lemma UpdateOutcomes(devices: Dict<string, DeviceDescription>, msg: Dict<string, Json>)
    ensures UpdateRaises(devices, msg) ==> UpdateTarget(devices, msg).None?
    ensures var idv := GetOr(msg, "id", JNull);
      (UpdateTarget(devices, msg).None? && !UpdateRaises(devices, msg)) <==>
      (!Truthy(idv) || !(idv.JStr? || idv.JArr? || idv.JObj?) || (idv.JStr? && idv.s !in KeySet(devices)))
    ensures UpdateTarget(devices, msg).Some? ==> UpdateTarget(devices, msg).value == GetOr(msg, "id", JNull).s
  {
  }

  /** The metadata refresh of a known device. */
  function RefreshDescription(d: DeviceDescription, props: Dict<string, Json>): DeviceDescription
  {
    d.(lqi := GetOr(props, "lqi", d.lqi), lastSeen := GetOr(props, "lse", d.lastSeen), warning := GetOr(props, "warn", d.warning))
  }

  /** The state refresh: the sparse merge, then `adptr-crc` when present. */
  function RefreshState(s: DeviceState, props: Dict<string, Json>): DeviceState
  {
    DeviceState(s.deviceId, MergeProps(props, s.properties), GetOr(props, "adptr-crc", s.adapterCrc))
  }

  /** `_handle_object_update` as a function of the registry and the states. */
  function ObjectUpdate(devices: Dict<string, DeviceDescription>, states: map<string, DeviceState>, msg: Dict<string, Json>):
    (r: (Dict<string, DeviceDescription>, map<string, DeviceState>))
    ensures UpdateTarget(devices, msg).None? ==> r == (devices, states)
    ensures KeySet(r.0) == KeySet(devices)
    ensures UpdateTarget(devices, msg).Some? ==> r.1.Keys == states.Keys + {UpdateTarget(devices, msg).value}
  {
    match UpdateTarget(devices, msg)
    case None => (devices, states)
    case Some(id) =>
      GetIn(devices, id);
      PutKeys(devices, id, RefreshDescription(Get(devices, id).value, GetOr(msg, "props", JObj([])).fields));
      var props := GetOr(msg, "props", JObj([])).fields;
      var current := if id in states then states[id] else DeviceState(id, [], JNull);
      (Put(devices, id, RefreshDescription(Get(devices, id).value, props)), states[id := RefreshState(current, props)])
  }

  /** What an update does to the device it names: `lqi`, `last_seen` and
      `warning` take the value of `lqi`, `lse` and `warn` when present and
      keep theirs otherwise; every other device is untouched. */
  lemma UpdateDescriptions(devices: Dict<string, DeviceDescription>, states: map<string, DeviceState>, msg: Dict<string, Json>, q: string)
    requires UpdateTarget(devices, msg).Some?
    ensures var id := UpdateTarget(devices, msg).value;
      var props := GetOr(msg, "props", JObj([])).fields;
      var new_ := Get(ObjectUpdate(devices, states, msg).0, id);
      && Get(devices, id).Some? && new_.Some?
      && var old_ := Get(devices, id).value;
      && new_.value.lqi == (if Get(props, "lqi").Some? then Get(props, "lqi").value else old_.lqi)
      && new_.value.lastSeen == (if Get(props, "lse").Some? then Get(props, "lse").value else old_.lastSeen)
      && new_.value.warning == (if Get(props, "warn").Some? then Get(props, "warn").value else old_.warning)
      && new_.value.(lqi := old_.lqi, lastSeen := old_.lastSeen, warning := old_.warning) == old_
      && (q != id ==> Get(ObjectUpdate(devices, states, msg).0, q) == Get(devices, q))
  {
    var id := UpdateTarget(devices, msg).value;
    var props := GetOr(msg, "props", JObj([])).fields;
    GetIn(devices, id);
    GetPut(devices, id, RefreshDescription(Get(devices, id).value, props), id);
    GetPut(devices, id, RefreshDescription(Get(devices, id).value, props), q);
  }

  /** What an update does to the states: the named device gets a state
      (an empty one if it had none) whose fields named by all-digit,
      dict-valued keys are replaced and whose other fields are kept; its CRC
      becomes `adptr-crc` when present; other devices' states are untouched. */
  lemma UpdateStates(devices: Dict<string, DeviceDescription>, states: map<string, DeviceState>, msg: Dict<string, Json>, f: int)
    requires UpdateTarget(devices, msg).Some?
    ensures var id := UpdateTarget(devices, msg).value;
      var props := GetOr(msg, "props", JObj([])).fields;
      var before := if id in states then states[id] else DeviceState(id, [], JNull);
      var after := ObjectUpdate(devices, states, msg).1[id];
      && after.deviceId == before.deviceId
      && (id !in states ==> after.deviceId == id)
      && ((exists i :: 0 <= i < |props| && Writes(props[i], PropertyEntry, f)) ==>
            Get(after.properties, f) == LastWrite(props, PropertyEntry, f))
      && ((forall i :: 0 <= i < |props| ==> !Writes(props[i], PropertyEntry, f)) ==>
            Get(after.properties, f) == Get(before.properties, f))
      && after.adapterCrc == (if Get(props, "adptr-crc").Some? then Get(props, "adptr-crc").value else before.adapterCrc)
      && (forall other :: other in states && other != id ==> ObjectUpdate(devices, states, msg).1[other] == states[other])
  {
    var id := UpdateTarget(devices, msg).value;
    var props := GetOr(msg, "props", JObj([])).fields;
    var before := if id in states then states[id] else DeviceState(id, [], JNull);
    MergePropsGet(props, before.properties, f);
  }

  /** A broadcast whose `id` is missing, not a string or unknown, or whose
      `props` is present but not a dict, changes nothing. */
  lemma UpdateIgnored(devices: Dict<string, DeviceDescription>, states: map<string, DeviceState>, msg: Dict<string, Json>)
    requires Get(msg, "id").None? || !(Get(msg, "id").value.JStr? && Get(msg, "id").value.s in KeySet(devices)) ||
             (Get(msg, "props").Some? && !Get(msg, "props").value.JObj?)
    ensures ObjectUpdate(devices, states, msg) == (devices, states)
  {
  }

  // ------------------------------------------------------------ loading

  /** `{d.id: d for d in devices}`. */
  function DevicesDict(ds: seq<DeviceDescription>): Dict<string, DeviceDescription>
  {
    if ds == [] then [] else Put(DevicesDict(ds[..|ds| - 1]), ds[|ds| - 1].id, ds[|ds| - 1])
  }

  /** Each device is filed under its own id, once, and the last device
      listed with an id is the one kept. */
  lemma {:induction false} DevicesDictSpec(ds: seq<DeviceDescription>, id: string)
    ensures DistinctKeys(DevicesDict(ds))
    ensures Get(DevicesDict(ds), id).Some? <==> exists i :: 0 <= i < |ds| && ds[i].id == id
    ensures Get(DevicesDict(ds), id).Some? ==>
      exists i :: 0 <= i < |ds| && ds[i] == Get(DevicesDict(ds), id).value && ds[i].id == id &&
        forall j :: i < j < |ds| ==> ds[j].id != id
  {
    if ds != [] {
      var init := ds[..|ds| - 1];
      var last := ds[|ds| - 1];
      DevicesDictSpec(init, id);
      PutDistinct(DevicesDict(init), last.id, last);
      GetPut(DevicesDict(init), last.id, last, id);
      if last.id != id {
        if Get(DevicesDict(init), id).Some? {
          var i :| 0 <= i < |init| && init[i] == Get(DevicesDict(init), id).value && init[i].id == id &&
            forall j :: i < j < |init| ==> init[j].id != id;
          assert ds[i] == init[i];
          forall j | i < j < |ds| ensures ds[j].id != id {
            if j < |init| { assert ds[j] == init[j]; }
          }
        }
        if exists i :: 0 <= i < |ds| && ds[i].id == id {
          var i :| 0 <= i < |ds| && ds[i].id == id;
          assert init[i] == ds[i];
        }
      }
    }
  }

  /** What the hub client returned for one device; `None` marks the call
      that raised, after which the device's remaining calls are skipped. */
  datatype DeviceLoad = DeviceLoad(state: Option<DeviceState>, format: Option<DeviceFormat>, attributes: Option<DeviceAttributes>)

  /** The coordinator's tables while `_load_devices` runs, and the drivers
      whose adapters it requested, in order. */
  datatype LoadAcc = LoadAcc(
    states: map<string, DeviceState>,
    formats: map<string, DeviceFormat>,
    attributes: map<string, DeviceAttributes>,
    adapters: map<string, DeviceAdapter>,
    fetches: seq<string>)

  /** One turn of the loop over `self._devices.items()`. */
  function LoadStep(acc: LoadAcc, entry: (string, DeviceDescription), load: string -> DeviceLoad, fetch: (string, nat) -> Option<DeviceAdapter>): LoadAcc
  {
    var id := entry.0;
    var l := load(id);
    if l.state.None? then acc
    else
      var a1 := acc.(states := acc.states[id := l.state.value]);
      if l.format.None? then a1
      else
        var a2 := a1.(formats := a1.formats[id := l.format.value]);
        if l.attributes.None? then a2
        else
          var a3 := a2.(attributes := a2.attributes[id := l.attributes.value]);
          match DriverKey(entry.1)
          case None => a3
          case Some(drv) =>
            if drv in a3.adapters then a3
            else
              var a4 := a3.(fetches := a3.fetches + [drv]);
              match fetch(drv, |a3.fetches|)
              case None => a4
              case Some(ad) => a4.(adapters := a4.adapters[drv := ad])
  }

  function LoadFold(entries: Dict<string, DeviceDescription>, acc: LoadAcc, load: string -> DeviceLoad, fetch: (string, nat) -> Option<DeviceAdapter>): LoadAcc
  {
    if entries == [] then acc
    else LoadStep(LoadFold(entries[..|entries| - 1], acc, load, fetch), entries[|entries| - 1], load, fetch)
  }

  /** One turn either requests nothing and leaves the cache alone, or
      requests the device's uncached driver, as the next request, and caches
      it when that request succeeds. */
  lemma LoadStepCache(p: LoadAcc, e: (string, DeviceDescription), load: string -> DeviceLoad, fetch: (string, nat) -> Option<DeviceAdapter>)
    ensures var r := LoadStep(p, e, load, fetch);
      || (r.fetches == p.fetches && r.adapters == p.adapters)
      || (DriverKey(e.1).Some? && DriverKey(e.1).value !in p.adapters &&
          r.fetches == p.fetches + [DriverKey(e.1).value] &&
          r.adapters == if fetch(DriverKey(e.1).value, |p.fetches|).Some?
                        then p.adapters[DriverKey(e.1).value := fetch(DriverKey(e.1).value, |p.fetches|).value]
                        else p.adapters)
  {
  }

  /** The adapter cache after a load, where `fetches[i]` is answered by
      `fetch(fetches[i], i)`: a driver is cached iff it was cached before or
      one of its requests succeeded; a cached entry is never requested or
      replaced; a failed request leaves the driver uncached, so a later
      device asks again; no request for a driver follows its successful
      one, and the cache holds that success; and a request is made only for
      a driver some loaded device names. */
  lemma {:induction false} LoadCache(entries: Dict<string, DeviceDescription>, acc: LoadAcc, load: string -> DeviceLoad,
                                     fetch: (string, nat) -> Option<DeviceAdapter>, drv: string)
    requires acc.fetches == []
    ensures var r := LoadFold(entries, acc, load, fetch);
      && (drv in r.adapters <==>
            drv in acc.adapters || exists i :: 0 <= i < |r.fetches| && r.fetches[i] == drv && fetch(drv, i).Some?)
      && (drv in acc.adapters ==> drv !in r.fetches && r.adapters[drv] == acc.adapters[drv])
      && (forall i :: 0 <= i < |r.fetches| && r.fetches[i] == drv && fetch(drv, i).Some? ==>
            && drv in r.adapters && r.adapters[drv] == fetch(drv, i).value
            && forall j :: i < j < |r.fetches| ==> r.fetches[j] != drv)
      && (drv in r.fetches ==> exists k :: 0 <= k < |entries| && DriverKey(entries[k].1) == Some(drv))
  {
    if entries != [] {
      var init := entries[..|entries| - 1];
      var e := entries[|entries| - 1];
      LoadCache(init, acc, load, fetch, drv);
      var p := LoadFold(init, acc, load, fetch);
      var r := LoadStep(p, e, load, fetch);
      LoadStepCache(p, e, load, fetch);
      if r.fetches != p.fetches {
        var d := DriverKey(e.1).value;
        var n := |p.fetches|;
        assert r.fetches == p.fetches + [d];
        assert forall i :: 0 <= i < n ==> r.fetches[i] == p.fetches[i];
        assert r.fetches[n] == d;
        if d == drv {
          assert drv !in p.adapters;
          assert forall i :: 0 <= i < n && p.fetches[i] == drv ==> fetch(drv, i).None?;
        }
      }
      if drv in r.fetches {
        if drv in p.fetches {
          var k :| 0 <= k < |init| && DriverKey(init[k].1) == Some(drv);
          assert entries[k] == init[k];
        } else {
          assert DriverKey(e.1) == Some(drv);
        }
      }
    }
  }

  /** One device's share of the requests, once its three calls succeeded. */
  lemma LoadStepFetches(acc: LoadAcc, entry: (string, DeviceDescription), load: string -> DeviceLoad, fetch: (string, nat) -> Option<DeviceAdapter>)
    requires load(entry.0).state.Some? && load(entry.0).format.Some? && load(entry.0).attributes.Some?
    ensures var r := LoadStep(acc, entry, load, fetch);
      && r.fetches == (if DriverKey(entry.1).Some? && DriverKey(entry.1).value !in acc.adapters
                       then acc.fetches + [DriverKey(entry.1).value] else acc.fetches)
      && (DriverKey(entry.1).Some? && DriverKey(entry.1).value !in acc.adapters ==>
            r.adapters == if fetch(DriverKey(entry.1).value, |acc.fetches|).Some?
                          then acc.adapters[DriverKey(entry.1).value := fetch(DriverKey(entry.1).value, |acc.fetches|).value]
                          else acc.adapters)
  {
  }

  /** Two devices with one driver: one request. */
  lemma SharedDriverFetchedOnce(a: DeviceDescription, b: DeviceDescription, acc: LoadAcc,
                                load: string -> DeviceLoad, fetch: (string, nat) -> Option<DeviceAdapter>, drv: string)
    requires acc.fetches == [] && drv !in acc.adapters
    requires DriverKey(a) == Some(drv) && DriverKey(b) == Some(drv)
    requires forall id :: load(id).state.Some? && load(id).format.Some? && load(id).attributes.Some?
    requires fetch(drv, 0).Some?
    ensures LoadFold([(a.id, a), (b.id, b)], acc, load, fetch).fetches == [drv]
  {
    var two := [(a.id, a), (b.id, b)];
    assert two[..1] == [(a.id, a)];
    assert two[..1][..0] == [];
    var p1 := LoadFold(two[..1], acc, load, fetch);
    assert p1 == LoadStep(LoadFold(two[..1][..0], acc, load, fetch), (a.id, a), load, fetch);
    assert LoadFold(two[..1][..0], acc, load, fetch) == acc;
    LoadStepFetches(acc, (a.id, a), load, fetch);
    assert p1.fetches == [drv];
    assert LoadFold(two, acc, load, fetch) == LoadStep(p1, (b.id, b), load, fetch);
    LoadStepFetches(p1, (b.id, b), load, fetch);
  }

  /** Two devices with one driver whose first request fails: the second
      device asks again, and the cache holds the second answer. */
  lemma FailedFetchRetried(a: DeviceDescription, b: DeviceDescription, acc: LoadAcc,
                           load: string -> DeviceLoad, fetch: (string, nat) -> Option<DeviceAdapter>, drv: string)
    requires acc.fetches == [] && drv !in acc.adapters
    requires DriverKey(a) == Some(drv) && DriverKey(b) == Some(drv)
    requires forall id :: load(id).state.Some? && load(id).format.Some? && load(id).attributes.Some?
    requires fetch(drv, 0).None? && fetch(drv, 1).Some?
    ensures var r := LoadFold([(a.id, a), (b.id, b)], acc, load, fetch);
      r.fetches == [drv, drv] && drv in r.adapters && r.adapters[drv] == fetch(drv, 1).value
  {
    var two := [(a.id, a), (b.id, b)];
    assert two[..1] == [(a.id, a)];
    assert two[..1][..0] == [];
    var p1 := LoadFold(two[..1], acc, load, fetch);
    assert p1 == LoadStep(LoadFold(two[..1][..0], acc, load, fetch), (a.id, a), load, fetch);
    assert LoadFold(two[..1][..0], acc, load, fetch) == acc;
    LoadStepFetches(acc, (a.id, a), load, fetch);
    assert p1.fetches == [drv] && p1.adapters == acc.adapters;
    assert LoadFold(two, acc, load, fetch) == LoadStep(p1, (b.id, b), load, fetch);
    LoadStepFetches(p1, (b.id, b), load, fetch);
  }

  /** A driverless device causes no request. */
  lemma DriverlessFetchesNothing(d: DeviceDescription, acc: LoadAcc, load: string -> DeviceLoad, fetch: (string, nat) -> Option<DeviceAdapter>)
    requires DriverKey(d).None?
    ensures LoadFold([(d.id, d)], acc, load, fetch).fetches == acc.fetches
  {
    assert [(d.id, d)][..0] == [];
  }

  // ------------------------------------------------------------ the coordinator

  /** `get_adapter_for_device`: `None` for an unknown or driverless device,
      else the cache entry for its driver, if any. */
  function AdapterFor(devices: Dict<string, DeviceDescription>, adapters: map<string, DeviceAdapter>, deviceId: string): (r: Option<DeviceAdapter>)
    ensures Get(devices, deviceId).None? ==> r.None?
    ensures Get(devices, deviceId).Some? && DriverKey(Get(devices, deviceId).value).None? ==> r.None?
    ensures r.Some? <==>
      Get(devices, deviceId).Some? && DriverKey(Get(devices, deviceId).value).Some? &&
      DriverKey(Get(devices, deviceId).value).value in adapters
    ensures r.Some? ==> r.value == adapters[DriverKey(Get(devices, deviceId).value).value]
  {
    match Get(devices, deviceId)
    case None => None
    case Some(device) =>
      match DriverKey(device)
      case None => None
      case Some(drv) => if drv in adapters then Some(adapters[drv]) else None
  }

  /** The broadcast callback's exception, as the client's receive loop
      sees it: an `object_update` whose handler raises. */
  function BroadcastRaises(devices: Dict<string, DeviceDescription>): Dict<string, Json> -> bool
  {
    (msg: Dict<string, Json>) => GetOr(msg, "evt", JNull) == JStr(Constants.EvtObjectUpdate) && UpdateRaises(devices, msg)
  }

  /** An `object_update` broadcast for a known device (a non-empty id) whose `props` is
      `null` ends the client's receive loop, and the registry and states
      stay as they were. */
  lemma NullPropsEndsLoop(devices: Dict<string, DeviceDescription>, states: map<string, DeviceState>, id: string,
                          futures: map<int, Client.Slot>, pending: set<int>, connected: bool)
    requires pending <= futures.Keys
    requires id != "" && id in KeySet(devices)
    ensures var msg := [("evt", JStr(Constants.EvtObjectUpdate)), ("id", JStr(id)), ("props", JNull)];
      var frame := Client.Text(Some(JObj([("broadcast", JObj(msg))])));
      && Client.FrameDispatch(frame, futures, pending, connected, BroadcastRaises(devices)) == Client.LoopFailed(connected)
      && ObjectUpdate(devices, states, msg) == (devices, states)
  {
    var msg := [("evt", JStr(Constants.EvtObjectUpdate)), ("id", JStr(id)), ("props", JNull)];
    assert Get(msg, "id") == Some(JStr(id)) by { assert msg[1..][0] == ("id", JStr(id)); }
    assert Get(msg, "props") == Some(JNull) by {
      assert msg[1..][1..] == [("props", JNull)];
      assert Get(msg[1..], "props") == Get(msg[1..][1..], "props");
    }
    assert UpdateRaises(devices, msg);
  }

  datatype TaskState = NoTask | Running | Finished

  /** `PushokHubCoordinator`. */
  class HubCoordinator {
    /** `self._client is not None`. */
    var hasClient: bool
    var devices: Dict<string, DeviceDescription>
    var formats: map<string, DeviceFormat>
    var attributes: map<string, DeviceAttributes>
    /** The adapter cache, keyed by driver. */
    var adapters: map<string, DeviceAdapter>
    /** `self.data`: the states by device id. */
    var data: map<string, DeviceState>
    /** `self._reconnect_task`. */
    var reconnect: TaskState
    /** How many reconnect tasks have been created and are not done. */
    var liveReconnects: nat

    /** At most one reconnect task is in flight: the one the field holds. */
    predicate Valid()
      reads this
    {
      liveReconnects == (if reconnect.Running? then 1 else 0)
    }

    constructor ()
      ensures Valid()
      ensures !hasClient && devices == [] && formats == map[] && attributes == map[] && adapters == map[] && data == map[]
      ensures reconnect == NoTask && liveReconnects == 0
    {
      hasClient := false;
      devices := [];
      formats := map[];
      attributes := map[];
      adapters := map[];
      data := map[];
      reconnect := NoTask;
      liveReconnects := 0;
    }

    /** `_handle_broadcast`: only `object_update` events are handled.
        `raised` reports the handler's exception, which the client's
        receive loop sees (`BroadcastRaises`). */
    method HandleBroadcast(msg: Dict<string, Json>) returns (raised: bool)
      modifies this`devices, this`data
      ensures raised == BroadcastRaises(old(devices))(msg)
      ensures GetOr(msg, "evt", JNull) == JStr(Constants.EvtObjectUpdate) ==>
        (devices, data) == ObjectUpdate(old(devices), old(data), msg)
      ensures GetOr(msg, "evt", JNull) != JStr(Constants.EvtObjectUpdate) ==>
        devices == old(devices) && data == old(data)
    {
      raised := false;
      if GetOr(msg, "evt", JNull) == JStr(Constants.EvtObjectUpdate) {
        raised := HandleObjectUpdate(msg);
      }
    }

    /** `_handle_object_update`: `raised` is true when the handler raises,
        which leaves the registry and the states as they were. */
    method HandleObjectUpdate(msg: Dict<string, Json>) returns (raised: bool)
      modifies this`devices, this`data
      ensures raised == UpdateRaises(old(devices), msg)
      ensures (devices, data) == ObjectUpdate(old(devices), old(data), msg)
    {
      var idv := GetOr(msg, "id", JNull);
      var propsv := GetOr(msg, "props", JObj([]));
      if !Truthy(idv) {
        return false;
      }
      if idv.JArr? || idv.JObj? {
        return true;
      }
      if !(idv.JStr? && idv.s in KeySet(devices)) {
        return false;
      }
      if !propsv.JObj? {
        GetIn(msg, "props");
        return true;
      }
      raised := false;
      var id := idv.s;
      var props := propsv.fields;
      assert UpdateTarget(devices, msg) == Some(id);
      GetIn(devices, id);
      var device := Get(devices, id).value;
      var lqi, lastSeen, warning := device.lqi, device.lastSeen, device.warning;
      if "lqi" in KeySet(props) {
        lqi := GetOr(props, "lqi", JNull);
      }
      GetIn(props, "lqi");
      assert lqi == GetOr(props, "lqi", device.lqi);
      if "lse" in KeySet(props) {
        lastSeen := GetOr(props, "lse", JNull);
      }
      GetIn(props, "lse");
      assert lastSeen == GetOr(props, "lse", device.lastSeen);
      if "warn" in KeySet(props) {
        warning := GetOr(props, "warn", JNull);
      }
      GetIn(props, "warn");
      assert warning == GetOr(props, "warn", device.warning);
      device := device.(lqi := lqi, lastSeen := lastSeen, warning := warning);
      var before := if id in data then data[id] else DeviceState(id, [], JNull);
      var merged := SparseMerge(props, before.properties, PropertyEntry);
      var crc := before.adapterCrc;
      if "adptr-crc" in KeySet(props) {
        crc := GetOr(props, "adptr-crc", JNull);
      }
      GetIn(props, "adptr-crc");
      assert crc == GetOr(props, "adptr-crc", before.adapterCrc);
      var current := DeviceState(before.deviceId, merged, crc);
      assert device == RefreshDescription(Get(devices, id).value, props);
      assert current == RefreshState(before, props);
      var newDevices, newData := Put(devices, id, device), data[id := current];
      assert (newDevices, newData) == ObjectUpdate(devices, data, msg);
      devices, data := newDevices, newData;
    }

    /** `_load_devices`: without a client nothing happens; a failing device
        list raises (`ok` false) before anything changes; otherwise the
        registry is replaced, formats and attributes are added to, the
        adapter cache is filled and the states are replaced by the freshly
        loaded ones.  `fetches` are the drivers requested, in order. */
    method LoadDevices(listed: Option<seq<DeviceDescription>>, load: string -> DeviceLoad, fetch: (string, nat) -> Option<DeviceAdapter>)
      returns (ok: bool, fetches: seq<string>)
      modifies this
      ensures !old(hasClient) || listed.None? ==>
        fetches == [] && devices == old(devices) && data == old(data) && formats == old(formats) &&
        attributes == old(attributes) && adapters == old(adapters)
      ensures ok <==> !(old(hasClient) && listed.None?)
      ensures old(hasClient) && listed.Some? ==>
        var r := LoadFold(DevicesDict(listed.value), LoadAcc(map[], old(formats), old(attributes), old(adapters), []), load, fetch);
        && devices == DevicesDict(listed.value)
        && data == r.states && formats == r.formats && attributes == r.attributes && adapters == r.adapters
        && fetches == r.fetches
      ensures hasClient == old(hasClient) && reconnect == old(reconnect) && liveReconnects == old(liveReconnects)
    {
      fetches := [];
      if !hasClient {
        return true, fetches;
      }
      if listed.None? {
        return false, fetches;
      }
      devices := DevicesDict(listed.value);
      var acc := LoadAcc(map[], formats, attributes, adapters, []);
      var acc0 := acc;
      var i := 0;
      while i < |devices|
        invariant 0 <= i <= |devices|
        invariant acc == LoadFold(devices[..i], acc0, load, fetch)
      {
        assert devices[..i + 1][..i] == devices[..i];
        acc := LoadStep(acc, devices[i], load, fetch);
        i := i + 1;
      }
      assert devices[..|devices|] == devices;
      data := acc.states;
      formats := acc.formats;
      attributes := acc.attributes;
      adapters := acc.adapters;
      fetches := acc.fetches;
      ok := true;
    }

    /** `_schedule_reconnect`: a new task is created only when none is
        running. */
    method ScheduleReconnect() returns (created: bool)
      requires Valid()
      modifies this
      ensures Valid() && liveReconnects <= 1
      ensures created <==> !old(reconnect).Running?
      ensures reconnect == Running
      ensures hasClient == old(hasClient) && devices == old(devices) && data == old(data)
      ensures formats == old(formats) && attributes == old(attributes) && adapters == old(adapters)
    {
      if reconnect.Running? {
        return false;
      }
      reconnect := Running;
      liveReconnects := liveReconnects + 1;
      created := true;
    }

    /** The reconnect loop returning: its task is done. */
    method ReconnectEnded()
      requires Valid()
      requires reconnect.Running?
      modifies this
      ensures Valid() && reconnect == Finished && liveReconnects == 0
      ensures hasClient == old(hasClient) && devices == old(devices) && data == old(data)
      ensures formats == old(formats) && attributes == old(attributes) && adapters == old(adapters)
    {
      reconnect := Finished;
      liveReconnects := liveReconnects - 1;
    }

    /** `async_setup` once the client exists: on success the tables are
        those `_load_devices` builds; a failed connection or device list
        leaves every table as it was, schedules a reconnect and reports
        false.  `fetches` are the drivers requested. */
    method Setup(connectOk: bool, listed: Option<seq<DeviceDescription>>, load: string -> DeviceLoad, fetch: (string, nat) -> Option<DeviceAdapter>)
      returns (ok: bool, fetches: seq<string>)
      requires Valid()
      modifies this
      ensures Valid() && hasClient
      ensures ok <==> connectOk && listed.Some?
      ensures ok ==>
        var r := LoadFold(DevicesDict(listed.value), LoadAcc(map[], old(formats), old(attributes), old(adapters), []), load, fetch);
        && devices == DevicesDict(listed.value)
        && data == r.states && formats == r.formats && attributes == r.attributes && adapters == r.adapters
        && fetches == r.fetches && reconnect == old(reconnect) && liveReconnects == old(liveReconnects)
      ensures !ok ==>
        && fetches == [] && devices == old(devices) && data == old(data) && formats == old(formats)
        && attributes == old(attributes) && adapters == old(adapters)
        && reconnect == Running && (old(reconnect).Running? ==> liveReconnects == old(liveReconnects))
    {
      hasClient := true;
      fetches := [];
      if connectOk {
        ok, fetches := LoadDevices(listed, load, fetch);
        if ok {
          return true, fetches;
        }
      }
      var _ := ScheduleReconnect();
      ok := false;
    }
  }
}
