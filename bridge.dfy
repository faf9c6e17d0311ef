/** The MQTT bridge (`mqtt_bridge/bridge.py`): a registry of the hub's
    devices projected onto Zigbee2MQTT-style topics.  Publishing is modelled
    as appending the computed message to an outbox and `set_state` calls as
    appending to a list of writes; the hub client's answers during loading
    and the JSON parser are parameters. */
module Bridge {
  import opened Wrappers
  import opened Dicts
  import opened JsonValues
  import opened Models
  import opened Seqs
  import Constants

  // ------------------------------------------------------------ names

  /** `_get_friendly_name`: the attributes' name when it is a non-empty
      string, else the device id. */
  function FriendlyName(attributes: map<string, DeviceAttributes>, device: DeviceDescription): string
  {
    if device.id in attributes && attributes[device.id].name.JStr? && attributes[device.id].name.s != ""
    then attributes[device.id].name.s
    else device.id
  }

  function NameMatches(attributes: map<string, DeviceAttributes>, target: string): ((string, DeviceDescription)) -> bool
  {
    (e: (string, DeviceDescription)) => FriendlyName(attributes, e.1) == target || e.0 == target
  }

  /** `_find_device_by_name`: the first device, in registry order, whose
      friendly name or id is `target`. */
  function FindDeviceByName(devices: Dict<string, DeviceDescription>, attributes: map<string, DeviceAttributes>, target: string): Option<DeviceDescription>
  {
    match FirstWhere(devices, NameMatches(attributes, target))
    case None => None
    case Some(e) => Some(e.1)
  }

  lemma FindDeviceByNameSpec(devices: Dict<string, DeviceDescription>, attributes: map<string, DeviceAttributes>, target: string)
    ensures FindDeviceByName(devices, attributes, target).None? <==>
      forall i :: 0 <= i < |devices| ==> FriendlyName(attributes, devices[i].1) != target && devices[i].0 != target
    ensures FindDeviceByName(devices, attributes, target).Some? ==>
      exists i :: 0 <= i < |devices| && devices[i].1 == FindDeviceByName(devices, attributes, target).value &&
        (FriendlyName(attributes, devices[i].1) == target || devices[i].0 == target) &&
        forall j :: 0 <= j < i ==> FriendlyName(attributes, devices[j].1) != target && devices[j].0 != target
  {
    var test := NameMatches(attributes, target);
    FirstWhereSpec(devices, test);
    if FirstWhere(devices, test).Some? {
      var i :| 0 <= i < |devices| && devices[i] == FirstWhere(devices, test).value && test(devices[i]) &&
        forall j :: 0 <= j < i ==> !test(devices[j]);
      assert devices[i].1 == FindDeviceByName(devices, attributes, target).value;
    }
  }

  /** A parameter whose name, lower-cased, is `lname`. */
  function LowerNameTest(lname: string): AdapterParam -> bool
  {
    (p: AdapterParam) => p.name.Some? && p.name.value != "" && Lower(p.name.value) == lname
  }

  /** `_get_field_id_by_name`: the address of the first parameter named
      exactly `name`, else of the first whose lower-cased name matches. */
  function FieldIdByName(adapter: Option<DeviceAdapter>, name: string): Option<int>
  {
    if adapter.None? then None
    else
      match ParamByName(adapter.value, Some(name))
      case Some(p) => Some(p.address)
      case None =>
        match FirstWhere(adapter.value.params, LowerNameTest(Lower(name)))
        case Some(p) => Some(p.address)
        case None => None
  }

  /** An exact match is preferred over any case-insensitive one, and each
      is the first of its kind in parameter order. */
  lemma FieldIdByNameSpec(adapter: Option<DeviceAdapter>, name: string)
    ensures adapter.None? ==> FieldIdByName(adapter, name).None?
    ensures adapter.Some? && (exists i :: 0 <= i < |adapter.value.params| && adapter.value.params[i].name == Some(name)) ==>
      var ps := adapter.value.params;
      exists i :: 0 <= i < |ps| && ps[i].name == Some(name) && FieldIdByName(adapter, name) == Some(ps[i].address) &&
        forall j :: 0 <= j < i ==> ps[j].name != Some(name)
    ensures adapter.Some? && (forall i :: 0 <= i < |adapter.value.params| ==> adapter.value.params[i].name != Some(name)) ==>
      var ps := adapter.value.params;
      && (FieldIdByName(adapter, name).None? <==> forall i :: 0 <= i < |ps| ==> !LowerNameTest(Lower(name))(ps[i]))
      && (FieldIdByName(adapter, name).Some? ==>
           exists i :: 0 <= i < |ps| && LowerNameTest(Lower(name))(ps[i]) && FieldIdByName(adapter, name) == Some(ps[i].address) &&
             forall j :: 0 <= j < i ==> !LowerNameTest(Lower(name))(ps[j]))
  {
    if adapter.Some? {
      ParamByNameSpec(adapter.value, Some(name));
      FirstWhereSpec(adapter.value.params, LowerNameTest(Lower(name)));
    }
  }

  /** `_get_param_name`: the parameter's name when it has a non-empty one. */
  function FieldName(adapter: Option<DeviceAdapter>, fieldId: int): string
  {
    if adapter.Some? && ParamByAddress(adapter.value, fieldId).Some? &&
       ParamByAddress(adapter.value, fieldId).value.name.Some? && ParamByAddress(adapter.value, fieldId).value.name.value != ""
    then ParamByAddress(adapter.value, fieldId).value.name.value
    else "field_" + IntToString(fieldId)
  }

  /** The name is that of the first parameter with the field's address,
      when it has a non-empty one. */
  lemma FieldNameOf(adapter: DeviceAdapter, fieldId: int, i: int)
    requires 0 <= i < |adapter.params| && adapter.params[i].address == fieldId
    requires forall j :: 0 <= j < i ==> adapter.params[j].address != fieldId
    ensures FieldName(Some(adapter), fieldId) ==
      if adapter.params[i].name.Some? && adapter.params[i].name.value != "" then adapter.params[i].name.value
      else "field_" + IntToString(fieldId)
  {
    ParamByAddressSpec(adapter, fieldId);
    var k :| 0 <= k < |adapter.params| && adapter.params[k] == ParamByAddress(adapter, fieldId).value &&
      adapter.params[k].address == fieldId && forall j :: 0 <= j < k ==> adapter.params[j].address != fieldId;
    assert k == i;
  }

  /** Without an adapter, or without a parameter at the address, the name is
      `field_<id>`. */
  lemma FieldNameDefault(adapter: Option<DeviceAdapter>, fieldId: int)
    requires adapter.Some? ==> forall j :: 0 <= j < |adapter.value.params| ==> adapter.value.params[j].address != fieldId
    ensures FieldName(adapter, fieldId) == "field_" + IntToString(fieldId)
  {
    if adapter.Some? {
      ParamByAddressSpec(adapter.value, fieldId);
    }
  }

  /** The adapter of a device: `self._adapters.get(device.driver) if
      device.driver else None`. */
  function AdapterOf(adapters: map<string, DeviceAdapter>, device: DeviceDescription): Option<DeviceAdapter>
  {
    match DriverKey(device)
    case None => None
    case Some(drv) => if drv in adapters then Some(adapters[drv]) else None
  }

  // ------------------------------------------------------------ state payload

  function LabelTest(value: Json): ((string, Json)) -> bool
  {
    (e: (string, Json)) => PyEq(e.1, value)
  }

  /** The label loop: the first label, in declaration order, whose value
      equals `value` (by Python's `==`), else `value` itself. */
  function LabelFor(labels: Dict<string, Json>, value: Json): Json
  {
    match FirstWhere(labels, LabelTest(value))
    case Some(e) => JStr(e.0)
    case None => value
  }

  lemma LabelForSpec(labels: Dict<string, Json>, value: Json)
    ensures LabelFor(labels, value) == value <== forall i :: 0 <= i < |labels| ==> !PyEq(labels[i].1, value)
    ensures (exists i :: 0 <= i < |labels| && PyEq(labels[i].1, value)) ==>
      exists i :: 0 <= i < |labels| && PyEq(labels[i].1, value) && LabelFor(labels, value) == JStr(labels[i].0) &&
        forall j :: 0 <= j < i ==> !PyEq(labels[j].1, value)
  {
    FirstWhereSpec(labels, LabelTest(value));
  }

  /** The loop form of `LabelFor`. */
  method FindLabel(labels: Dict<string, Json>, value: Json) returns (v: Json)
    ensures v == LabelFor(labels, value)
  {
    var e := FindFirst(labels, LabelTest(value));
    v := if e.Some? then JStr(e.value.0) else value;
  }

  /** The published value of a field: its label when the adapter declares
      labels for it, else the raw value. */
  function ShownValue(adapter: Option<DeviceAdapter>, fieldId: int, value: Json): Json
  {
    if adapter.Some? && ParamByAddress(adapter.value, fieldId).Some? && ParamByAddress(adapter.value, fieldId).value.labels != []
    then LabelFor(ParamByAddress(adapter.value, fieldId).value.labels, value)
    else value
  }

  function FieldKey(adapter: Option<DeviceAdapter>): ((int, PropertyValue)) -> string
  {
    (e: (int, PropertyValue)) => FieldName(adapter, e.0)
  }

  function FieldValue(adapter: Option<DeviceAdapter>): ((int, PropertyValue)) -> Json
  {
    (e: (int, PropertyValue)) => ShownValue(adapter, e.0, e.1.value)
  }

  /** The loop over `state.properties` building `payload`. */
  function PayloadFields(adapter: Option<DeviceAdapter>, props: Dict<int, PropertyValue>): Dict<string, Json>
  {
    PutFold(props, FieldKey(adapter), FieldValue(adapter))
  }

  /** The whole state payload, ending with `linkquality`. */
  function StatePayload(adapter: Option<DeviceAdapter>, props: Dict<int, PropertyValue>, lqi: Json): Dict<string, Json>
  {
    Put(PayloadFields(adapter, props), "linkquality", lqi)
  }

  /** `linkquality` is always the device's `lqi`, and the other keys are
      exactly the names of the state's fields. */
  lemma StatePayloadKeys(adapter: Option<DeviceAdapter>, props: Dict<int, PropertyValue>, lqi: Json, k: string)
    ensures Get(StatePayload(adapter, props, lqi), "linkquality") == Some(lqi)
    ensures k in KeySet(StatePayload(adapter, props, lqi)) <==>
      k == "linkquality" || exists i :: 0 <= i < |props| && FieldName(adapter, props[i].0) == k
  {
    PutFoldKeys(props, FieldKey(adapter), FieldValue(adapter), k);
    PutKeys(PayloadFields(adapter, props), "linkquality", lqi);
    GetPut(PayloadFields(adapter, props), "linkquality", lqi, "linkquality");
  }

  /** A field whose name no later field shares, and which is not
      `linkquality`, is published with its shown value. */
  lemma StatePayloadField(adapter: Option<DeviceAdapter>, props: Dict<int, PropertyValue>, lqi: Json, i: int)
    requires 0 <= i < |props|
    requires FieldName(adapter, props[i].0) != "linkquality"
    requires forall j :: i < j < |props| ==> FieldName(adapter, props[j].0) != FieldName(adapter, props[i].0)
    ensures Get(StatePayload(adapter, props, lqi), FieldName(adapter, props[i].0)) ==
      Some(ShownValue(adapter, props[i].0, props[i].1.value))
  {
    PutFoldGet(props, FieldKey(adapter), FieldValue(adapter), i);
    GetPut(PayloadFields(adapter, props), "linkquality", lqi, FieldName(adapter, props[i].0));
  }

  /** `"online" if not device.warning else "offline"`. */
  function Availability(device: DeviceDescription): (s: string)
    ensures s == "online" <==> !Truthy(device.warning)
    ensures s == "online" || s == "offline"
  {
    if !Truthy(device.warning) then "online" else "offline"
  }

  /** A published MQTT message (all of the bridge's are retained). */
  datatype Message = Message(topic: string, payload: Json)

  /** What `_publish_device_state` publishes: nothing without a state, else
      the state payload and then the availability. */
  function StateMessages(base: string, attributes: map<string, DeviceAttributes>, adapters: map<string, DeviceAdapter>,
                         states: map<string, DeviceState>, device: DeviceDescription): (ms: seq<Message>)
    ensures device.id !in states ==> ms == []
    ensures device.id in states ==>
      |ms| == 2 && ms[1] == Message(base + "/" + FriendlyName(attributes, device) + "/availability", JStr(Availability(device)))
  {
    if device.id !in states then []
    else
      var topic := base + "/" + FriendlyName(attributes, device);
      var payload := StatePayload(AdapterOf(adapters, device), states[device.id].properties, device.lqi);
      [Message(topic, JObj(payload)), Message(topic + "/availability", JStr(Availability(device)))]
  }

  // ------------------------------------------------------------ discovery

  datatype Component = Switch | BinarySensor | Select | Number | Sensor

  function ComponentName(c: Component): string
  {
    match c
    case Switch => "switch"
    case BinarySensor => "binary_sensor"
    case Select => "select"
    case Number => "number"
    case Sensor => "sensor"
  }

  predicate IsDropdown(p: AdapterParam)
  {
    GetOr(p.viewParams, "type", JNull) == JStr("dropdown")
  }

  /** The component a parameter is discovered as, or `None` when it is
      skipped. */
  function Classify(p: AdapterParam): Option<Component>
  {
    if p.address > Constants.MaxFieldId then None
    else if p.paramType == "bool" then Some(if IsWritable(p) then Switch else BinarySensor)
    else if p.paramType == "int" || p.paramType == "float" then
      if IsWritable(p) && IsDropdown(p) then Some(Select)
      else if IsWritable(p) then Some(Number)
      else Some(Sensor)
    else None
  }

  /** The classification, rule by rule. */
  lemma ClassifySpec(p: AdapterParam)
    ensures Classify(p).None? <==> p.address > 200 || !(p.paramType in {"bool", "int", "float"})
    ensures Classify(p) == Some(Switch) <==> p.address <= 200 && p.paramType == "bool" && 'w' in p.access
    ensures Classify(p) == Some(BinarySensor) <==> p.address <= 200 && p.paramType == "bool" && 'w' !in p.access
    ensures Classify(p) == Some(Select) <==>
      p.address <= 200 && p.paramType in {"int", "float"} && 'w' in p.access && IsDropdown(p)
    ensures Classify(p) == Some(Number) <==>
      p.address <= 200 && p.paramType in {"int", "float"} && 'w' in p.access && !IsDropdown(p)
    ensures Classify(p) == Some(Sensor) <==> p.address <= 200 && p.paramType in {"int", "float"} && 'w' !in p.access
  {
    AccessPredicates(p);
  }

  /** The bridge's own unit table as the file spells it: the degree sign of
      `unit_C` is preceded by a stray `Â`, the UTF-8 bytes of `°` read as
      Latin-1 and encoded again. */
  const BridgeUnitMapAsWritten: map<string, string> := map[
    "unit_C" := "Â°C",
    "unit_%" := "%",
    "unit_voltage" := "V",
    "unit_power" := "W",
    "unit_mA" := "mA"
  ]

  /** The table as intended: the same five units, spelled as in the
      integration's own unit table. */
  const BridgeUnitMap: map<string, string> := map[
    "unit_C" := "°C",
    "unit_%" := "%",
    "unit_voltage" := "V",
    "unit_power" := "W",
    "unit_mA" := "mA"
  ]

  /** `unit_map.get(unit, unit)`; a list or dict unit, which Python cannot
      hash, is passed through. */
  function MapUnit(table: map<string, string>, unit: Json): Json
  {
    if unit.JStr? && unit.s in table then JStr(table[unit.s]) else unit
  }

  /** The sensor unit as written: Celsius comes out as `Â°C`, which differs
      from the integration's `°C`. */
  lemma CelsiusAsWritten()
    ensures MapUnit(BridgeUnitMapAsWritten, JStr("unit_C")) == JStr("Â°C")
    ensures MapUnit(BridgeUnitMapAsWritten, JStr("unit_C")) != JStr(Constants.UnitMapping["unit_C"])
  {
    assert "Â°C"[0] != "°C"[0];
  }

  /** The corrected table agrees with the integration's on every unit it
      knows. */
  lemma BridgeUnitsAgree(u: string)
    requires u in BridgeUnitMap
    ensures u in Constants.UnitMapping && BridgeUnitMap[u] == Constants.UnitMapping[u]
    ensures MapUnit(BridgeUnitMap, JStr(u)) == JStr(Constants.UnitMapping[u])
  {
  }

  /** `param.name or f"field_{param.address}"`. */
  function DiscoveryName(p: AdapterParam): string
  {
    if p.name.Some? && p.name.value != "" then p.name.value else "field_" + IntToString(p.address)
  }

  function DeviceInfo(deviceId: string, friendly: string, device: DeviceDescription, adapter: DeviceAdapter): Json
  {
    var base := [("identifiers", JArr([JStr(deviceId)])), ("name", JStr(friendly)),
                 ("model", device.model), ("manufacturer", device.manufacturer)];
    JObj(if Truthy(adapter.url) then base + [("configuration_url", adapter.url)] else base)
  }

  /** The keys a component adds to the common discovery payload.  The
      `payload_on`/`payload_off` texts are kept as the objects they
      serialise. */
  function ComponentFields(units: map<string, string>, c: Component, p: AdapterParam, name: string, commandTopic: string): Dict<string, Json>
  {
    match c
    case Switch =>
      [("command_topic", JStr(commandTopic)),
       ("payload_on", JObj([(name, JBool(true))])), ("payload_off", JObj([(name, JBool(false))])),
       ("state_on", JBool(true)), ("state_off", JBool(false))]
    case BinarySensor => []
    case Select =>
      [("command_topic", JStr(commandTopic)),
       ("options", JArr(seq(|p.labels|, i requires 0 <= i < |p.labels| => JStr(p.labels[i].0)))),
       ("command_template", JStr("{{\"" + name + "\": \"{{ value }}\"}}"))]
    case Number =>
      [("command_topic", JStr(commandTopic)), ("command_template", JStr("{{\"" + name + "\": {{ value }}}}"))] +
      (if p.minValue != JNull then [("min", p.minValue)] else []) +
      (if p.maxValue != JNull then [("max", p.maxValue)] else [])
    case Sensor =>
      var unit := GetOr(p.viewParams, "unit", JNull);
      if Truthy(unit) then [("unit_of_measurement", MapUnit(units, unit))] else []
  }

  /** The discovery message of one parameter. */
  function DiscoveryMessage(units: map<string, string>, base: string, prefix: string, deviceId: string, friendly: string, device: DeviceDescription,
                            adapter: DeviceAdapter, p: AdapterParam, c: Component): Message
  {
    var name := DiscoveryName(p);
    var stateTopic := base + "/" + friendly;
    var common := [
      ("name", JStr(Title(ReplaceChar(name, '_', ' ')))),
      ("unique_id", JStr(deviceId + "_" + IntToString(p.address))),
      ("state_topic", JStr(stateTopic)),
      ("value_template", JStr("{{ value_json." + name + " }}")),
      ("device", DeviceInfo(deviceId, friendly, device, adapter)),
      ("availability_topic", JStr(stateTopic + "/availability"))];
    Message(prefix + "/" + ComponentName(c) + "/" + deviceId + "/" + IntToString(p.address) + "/config",
            JObj(common + ComponentFields(units, c, p, name, stateTopic + "/set")))
  }

  /** The command topic is present exactly for the writable components. */
  lemma CommandTopicWhenWritable(units: map<string, string>, c: Component, p: AdapterParam, name: string, commandTopic: string)
    ensures "command_topic" in KeySet(ComponentFields(units, c, p, name, commandTopic)) <==> c in {Switch, Select, Number}
  {
    var fs := ComponentFields(units, c, p, name, commandTopic);
    if c.Sensor? && fs != [] {
      assert fs[1..] == [];
    }
    if c.Number? {
      assert fs[0].0 == "command_topic";
    }
  }

  function ParamDiscovered(): AdapterParam -> bool
  {
    (p: AdapterParam) => Classify(p).Some?
  }

  function ParamMessage(units: map<string, string>, base: string, prefix: string, deviceId: string, friendly: string, device: DeviceDescription,
                        adapter: DeviceAdapter): AdapterParam -> Message
  {
    (p: AdapterParam) =>
      DiscoveryMessage(units, base, prefix, deviceId, friendly, device, adapter, p, if Classify(p).Some? then Classify(p).value else Sensor)
  }

  /** Message `m` announces the `i`-th parameter, which is a service field
      no more and classifies as a component. */
  predicate AnnouncedAt(units: map<string, string>, base: string, prefix: string, deviceId: string, friendly: string, device: DeviceDescription,
                        adapter: DeviceAdapter, i: int, m: Message)
  {
    0 <= i < |adapter.params| && adapter.params[i].address <= 200 && Classify(adapter.params[i]).Some? &&
    m == DiscoveryMessage(units, base, prefix, deviceId, friendly, device, adapter, adapter.params[i], Classify(adapter.params[i]).value)
  }

  /** The messages of one device: none without an adapter or a state, else
      one per discovered parameter, in parameter order. */
  function DeviceDiscovery(units: map<string, string>, base: string, prefix: string, attributes: map<string, DeviceAttributes>, adapters: map<string, DeviceAdapter>,
                           states: map<string, DeviceState>, entry: (string, DeviceDescription)): seq<Message>
  {
    var adapter := AdapterOf(adapters, entry.1);
    if adapter.None? || entry.0 !in states then []
    else FilterMap(adapter.value.params, ParamDiscovered(),
                   ParamMessage(units, base, prefix, entry.0, FriendlyName(attributes, entry.1), entry.1, adapter.value))
  }

  /** `_publish_discovery` over the registry in order. */
  function Discovery(units: map<string, string>, base: string, prefix: string, devices: Dict<string, DeviceDescription>, attributes: map<string, DeviceAttributes>,
                     adapters: map<string, DeviceAdapter>, states: map<string, DeviceState>): seq<Message>
  {
    if devices == [] then []
    else Discovery(units, base, prefix, devices[..|devices| - 1], attributes, adapters, states) +
         DeviceDiscovery(units, base, prefix, attributes, adapters, states, devices[|devices| - 1])
  }

  /** Each parameter of a device with an adapter and a state that
      classifies as a component is announced under that component's topic,
      and every announcement is of such a parameter. */
  lemma DeviceDiscoverySpec(units: map<string, string>, base: string, prefix: string, attributes: map<string, DeviceAttributes>, adapters: map<string, DeviceAdapter>,
                            states: map<string, DeviceState>, entry: (string, DeviceDescription))
    ensures var adapter := AdapterOf(adapters, entry.1);
      var ms := DeviceDiscovery(units, base, prefix, attributes, adapters, states, entry);
      && (adapter.None? || entry.0 !in states ==> ms == [])
      && (adapter.Some? && entry.0 in states ==>
           && (forall i :: 0 <= i < |adapter.value.params| && Classify(adapter.value.params[i]).Some? ==>
                 DiscoveryMessage(units, base, prefix, entry.0, FriendlyName(attributes, entry.1), entry.1, adapter.value,
                                  adapter.value.params[i], Classify(adapter.value.params[i]).value) in ms)
           && (forall m :: m in ms ==>
                 exists i :: AnnouncedAt(units, base, prefix, entry.0, FriendlyName(attributes, entry.1), entry.1, adapter.value, i, m)))
  {
    var adapter := AdapterOf(adapters, entry.1);
    if adapter.Some? && entry.0 in states {
      var ps := adapter.value.params;
      var friendly := FriendlyName(attributes, entry.1);
      var f := ParamMessage(units, base, prefix, entry.0, friendly, entry.1, adapter.value);
      var ms := DeviceDiscovery(units, base, prefix, attributes, adapters, states, entry);
      FilterMapSpec(ps, ParamDiscovered(), f);
      forall m | m in ms ensures exists i :: AnnouncedAt(units, base, prefix, entry.0, friendly, entry.1, adapter.value, i, m) {
        var i :| 0 <= i < |ps| && ParamDiscovered()(ps[i]) && f(ps[i]) == m;
        ClassifySpec(ps[i]);
        assert AnnouncedAt(units, base, prefix, entry.0, friendly, entry.1, adapter.value, i, m);
      }
    }
  }

  /** A sensor whose unit is `unit_C` is announced with the unit the table
      gives: the code as written publishes `Â°C`, the corrected table the
      integration's `°C`. */
  lemma CelsiusDiscovered(base: string, prefix: string, deviceId: string, friendly: string, device: DeviceDescription,
                          adapter: DeviceAdapter, p: AdapterParam)
    requires GetOr(p.viewParams, "unit", JNull) == JStr("unit_C")
    ensures var m := DiscoveryMessage(BridgeUnitMapAsWritten, base, prefix, deviceId, friendly, device, adapter, p, Sensor);
      m.payload.JObj? && Get(m.payload.fields, "unit_of_measurement") == Some(JStr("Â°C"))
    ensures var m := DiscoveryMessage(BridgeUnitMap, base, prefix, deviceId, friendly, device, adapter, p, Sensor);
      m.payload.JObj? && Get(m.payload.fields, "unit_of_measurement") == Some(JStr(Constants.UnitMapping["unit_C"]))
  {
    forall units: map<string, string> | units in {BridgeUnitMapAsWritten, BridgeUnitMap}
      ensures var m := DiscoveryMessage(units, base, prefix, deviceId, friendly, device, adapter, p, Sensor);
        Get(m.payload.fields, "unit_of_measurement") == Some(MapUnit(units, JStr("unit_C")))
    {
      var m := DiscoveryMessage(units, base, prefix, deviceId, friendly, device, adapter, p, Sensor);
      var fields := m.payload.fields;
      assert fields == fields[..6] + [("unit_of_measurement", MapUnit(units, JStr("unit_C")))];
      GetSkip(fields[..6], [("unit_of_measurement", MapUnit(units, JStr("unit_C")))], "unit_of_measurement");
    }
  }

  // ------------------------------------------------------------ set commands

  function Resolves(adapter: Option<DeviceAdapter>): ((string, Json)) -> bool
  {
    (e: (string, Json)) => FieldIdByName(adapter, e.0).Some?
  }

  function WriteOf(deviceId: string, adapter: Option<DeviceAdapter>): ((string, Json)) -> Write
  {
    (e: (string, Json)) => Write(deviceId, if FieldIdByName(adapter, e.0).Some? then FieldIdByName(adapter, e.0).value else 0, e.1)
  }

  /** The writes of the `for key, value in data.items()` loop. */
  function SetWrites(deviceId: string, adapter: Option<DeviceAdapter>, data: Dict<string, Json>): seq<Write>
  {
    FilterMap(data, Resolves(adapter), WriteOf(deviceId, adapter))
  }

  /** Every key whose field id resolves is written, with the inbound value
      unchanged (no label lookup and no inversion), and nothing else is. */
  lemma SetWritesSpec(deviceId: string, adapter: Option<DeviceAdapter>, data: Dict<string, Json>)
    ensures forall i :: 0 <= i < |data| && FieldIdByName(adapter, data[i].0).Some? ==>
      Write(deviceId, FieldIdByName(adapter, data[i].0).value, data[i].1) in SetWrites(deviceId, adapter, data)
    ensures forall w :: w in SetWrites(deviceId, adapter, data) ==>
      w.deviceId == deviceId && exists i :: 0 <= i < |data| && FieldIdByName(adapter, data[i].0) == Some(w.fieldId) && w.value == data[i].1
    ensures adapter.None? ==> SetWrites(deviceId, adapter, data) == []
  {
    FilterMapSpec(data, Resolves(adapter), WriteOf(deviceId, adapter));
    if adapter.None? {
      if SetWrites(deviceId, adapter, data) != [] {
        var w := SetWrites(deviceId, adapter, data)[0];
        assert w in SetWrites(deviceId, adapter, data);
      }
    }
  }

  /** `topic.split("/")[-2]` for a topic ending in `/set`: the text after the
      last `/` of what precedes the suffix. */
  function LastSegment(s: string): string
  {
    if s == [] || s[|s| - 1] == '/' then [] else LastSegment(s[..|s| - 1]) + [s[|s| - 1]]
  }

  predicate EndsWithSet(topic: string)
  {
    |topic| >= 4 && topic[|topic| - 4..] == "/set"
  }

  function SetTarget(topic: string): string
    requires EndsWithSet(topic)
  {
    LastSegment(topic[..|topic| - 4])
  }

  lemma {:induction false} LastSegmentOf(prefix: string, name: string)
    requires '/' !in name
    ensures LastSegment(prefix + "/" + name) == name
  {
    if name != [] {
      var s := prefix + "/" + name;
      assert s[..|s| - 1] == prefix + "/" + name[..|name| - 1];
      LastSegmentOf(prefix, name[..|name| - 1]);
      assert name == name[..|name| - 1] + [name[|name| - 1]];
    } else {
      assert (prefix + "/" + name)[|prefix|] == '/';
    }
  }

  /** The device named in `<base>/<name>/set` is `name`. */
  lemma SetTargetOf(base: string, name: string)
    requires '/' !in name
    ensures EndsWithSet(base + "/" + name + "/set")
    ensures SetTarget(base + "/" + name + "/set") == name
  {
    var t := base + "/" + name + "/set";
    assert t[..|t| - 4] == base + "/" + name;
    LastSegmentOf(base, name);
  }

  // ------------------------------------------------------------ loading

  /** What the hub client returned for one device during `_load_devices`;
      the two calls are tried independently. */
  datatype BridgeLoad = BridgeLoad(state: Option<DeviceState>, attributes: Option<DeviceAttributes>)

  datatype Tables = Tables(
    states: map<string, DeviceState>,
    attributes: map<string, DeviceAttributes>,
    adapters: map<string, DeviceAdapter>,
    fetches: seq<string>)

  function LoadStep(t: Tables, entry: (string, DeviceDescription), load: string -> BridgeLoad, fetch: (string, nat) -> Option<DeviceAdapter>): Tables
  {
    var l := load(entry.0);
    var t1 := t.(states := if l.state.Some? then t.states[entry.0 := l.state.value] else t.states,
                 attributes := if l.attributes.Some? then t.attributes[entry.0 := l.attributes.value] else t.attributes);
    match DriverKey(entry.1)
    case None => t1
    case Some(drv) =>
      if drv in t1.adapters then t1
      else
        var t2 := t1.(fetches := t1.fetches + [drv]);
        match fetch(drv, |t1.fetches|)
        case None => t2
        case Some(ad) => t2.(adapters := t2.adapters[drv := ad])
  }

  function LoadFold(entries: Dict<string, DeviceDescription>, t: Tables, load: string -> BridgeLoad, fetch: (string, nat) -> Option<DeviceAdapter>): Tables
  {
    if entries == [] then t
    else LoadStep(LoadFold(entries[..|entries| - 1], t, load, fetch), entries[|entries| - 1], load, fetch)
  }

  /** One turn either requests nothing and leaves the cache alone, or
      requests the device's uncached driver, as the next request, and caches
      it when that request succeeds. */
  lemma LoadStepCache(p: Tables, e: (string, DeviceDescription), load: string -> BridgeLoad, fetch: (string, nat) -> Option<DeviceAdapter>)
    ensures var r := LoadStep(p, e, load, fetch);
      || (r.fetches == p.fetches && r.adapters == p.adapters)
      || (DriverKey(e.1).Some? && DriverKey(e.1).value !in p.adapters &&
          r.fetches == p.fetches + [DriverKey(e.1).value] &&
          r.adapters == if fetch(DriverKey(e.1).value, |p.fetches|).Some?
                        then p.adapters[DriverKey(e.1).value := fetch(DriverKey(e.1).value, |p.fetches|).value]
                        else p.adapters)
  {
  }

  /** The cache facts of `LoadCache` for one driver, over a table whose
      requests started from the cache `base`. */
  predicate CacheFacts(base: map<string, DeviceAdapter>, r: Tables, fetch: (string, nat) -> Option<DeviceAdapter>, drv: string)
  {
    && (drv in r.adapters <==>
          drv in base || exists i :: 0 <= i < |r.fetches| && r.fetches[i] == drv && fetch(drv, i).Some?)
    && (drv in base ==> drv !in r.fetches && r.adapters[drv] == base[drv])
    && (forall i :: 0 <= i < |r.fetches| && r.fetches[i] == drv && fetch(drv, i).Some? ==>
          && drv in r.adapters && r.adapters[drv] == fetch(drv, i).value
          && forall j :: i < j < |r.fetches| ==> r.fetches[j] != drv)
  }

  /** A turn that requests `d` only when it is uncached, as the next
      request, keeps the cache facts. */
  lemma CacheFactsStep(base: map<string, DeviceAdapter>, p: Tables, r: Tables, fetch: (string, nat) -> Option<DeviceAdapter>, d: string, drv: string)
    requires CacheFacts(base, p, fetch, drv)
    requires || (r.fetches == p.fetches && r.adapters == p.adapters)
             || (d !in p.adapters && r.fetches == p.fetches + [d] &&
                 r.adapters == if fetch(d, |p.fetches|).Some? then p.adapters[d := fetch(d, |p.fetches|).value] else p.adapters)
    ensures CacheFacts(base, r, fetch, drv)
  {
    if r.fetches != p.fetches {
      var n := |p.fetches|;
      assert forall i :: 0 <= i < n ==> r.fetches[i] == p.fetches[i];
      assert r.fetches[n] == d;
      if d == drv {
        assert forall i :: 0 <= i < n && p.fetches[i] == drv ==> fetch(drv, i).None?;
      }
    }
  }

  /** The bridge's adapter cache after a load, where `fetches[i]` is
      answered by `fetch(fetches[i], i)`: a driver is cached iff it was
      cached before or one of its requests succeeded; a cached entry is
      never requested or replaced; a failed request leaves the driver
      uncached, so a later device asks again; no request for a driver
      follows its successful one, and the cache holds that success; and a
      request is made only for a driver some device names. */
  lemma {:induction false} LoadCache(entries: Dict<string, DeviceDescription>, t: Tables, load: string -> BridgeLoad,
                                     fetch: (string, nat) -> Option<DeviceAdapter>, drv: string)
    requires t.fetches == []
    ensures var r := LoadFold(entries, t, load, fetch);
      && (drv in r.adapters <==>
            drv in t.adapters || exists i :: 0 <= i < |r.fetches| && r.fetches[i] == drv && fetch(drv, i).Some?)
      && (drv in t.adapters ==> drv !in r.fetches && r.adapters[drv] == t.adapters[drv])
      && (forall i :: 0 <= i < |r.fetches| && r.fetches[i] == drv && fetch(drv, i).Some? ==>
            && drv in r.adapters && r.adapters[drv] == fetch(drv, i).value
            && forall j :: i < j < |r.fetches| ==> r.fetches[j] != drv)
      && (drv in r.fetches ==> exists k :: 0 <= k < |entries| && DriverKey(entries[k].1) == Some(drv))
  {
    if entries != [] {
      var init := entries[..|entries| - 1];
      var e := entries[|entries| - 1];
      LoadCache(init, t, load, fetch, drv);
      var p := LoadFold(init, t, load, fetch);
      var r := LoadStep(p, e, load, fetch);
      assert CacheFacts(t.adapters, p, fetch, drv);
      LoadStepCache(p, e, load, fetch);
      var d := if DriverKey(e.1).Some? then DriverKey(e.1).value else "";
      CacheFactsStep(t.adapters, p, r, fetch, d, drv);
      assert CacheFacts(t.adapters, r, fetch, drv);
      if drv in r.fetches {
        if drv in p.fetches {
          var k :| 0 <= k < |init| && DriverKey(init[k].1) == Some(drv);
          assert entries[k] == init[k];
        } else {
          assert r.fetches != p.fetches;
          assert DriverKey(e.1) == Some(drv);
        }
      }
    }
  }

  // ------------------------------------------------------------ the bridge

  /** `PushokMqttBridge`. */
  class MqttBridge {
    const baseTopic: string
    const discoveryPrefix: string
    /** `self._hub_client is not None`. */
    var hasHub: bool
    /** `self._mqtt_client is not None`. */
    var hasMqtt: bool
    var devices: Dict<string, DeviceDescription>
    var attributes: map<string, DeviceAttributes>
    var adapters: map<string, DeviceAdapter>
    var states: map<string, DeviceState>
    /** Every message published, oldest first. */
    var outbox: seq<Message>
    /** Every `set_state` sent, oldest first. */
    var writes: seq<Write>

    constructor (baseTopic: string, discoveryPrefix: string)
      ensures this.baseTopic == baseTopic && this.discoveryPrefix == discoveryPrefix
      ensures !hasHub && !hasMqtt && devices == [] && attributes == map[] && adapters == map[] && states == map[]
      ensures outbox == [] && writes == []
    {
      this.baseTopic := baseTopic;
      this.discoveryPrefix := discoveryPrefix;
      hasHub := false;
      hasMqtt := false;
      devices := [];
      attributes := map[];
      adapters := map[];
      states := map[];
      outbox := [];
      writes := [];
    }

    /** Entering `async with aiomqtt.Client(...)`. */
    method MqttConnected()
      modifies this`hasMqtt
      ensures hasMqtt
    {
      hasMqtt := true;
    }

    /** The `MqttError` handler. */
    method MqttLost()
      modifies this`hasMqtt
      ensures !hasMqtt
    {
      hasMqtt := false;
    }

    /** `_connect_hub`: the client exists from here on; a failed `connect`
        raises before loading, and a failed device list raises before any
        table changes; otherwise the tables are those `_load_devices`
        builds.  `fetches` are the drivers requested. */
    method ConnectHub(connectOk: bool, listed: Option<seq<DeviceDescription>>, load: string -> BridgeLoad, fetch: (string, nat) -> Option<DeviceAdapter>)
      returns (ok: bool, fetches: seq<string>)
      modifies this`hasHub, this`devices, this`states, this`attributes, this`adapters
      ensures hasHub
      ensures ok <==> connectOk && listed.Some?
      ensures ok ==>
        var r := LoadFold(DevicesOf(listed.value), Tables(old(states), old(attributes), old(adapters), []), load, fetch);
        && devices == DevicesOf(listed.value)
        && states == r.states && attributes == r.attributes && adapters == r.adapters && fetches == r.fetches
      ensures !ok ==>
        fetches == [] && devices == old(devices) && states == old(states) && attributes == old(attributes) && adapters == old(adapters)
    {
      hasHub := true;
      if !connectOk {
        return false, [];
      }
      ok, fetches := LoadDevices(listed, load, fetch);
    }

    /** `_load_devices`: the registry is replaced; states, attributes and the
        adapter cache are added to.  A failing device list raises. */
    method LoadDevices(listed: Option<seq<DeviceDescription>>, load: string -> BridgeLoad, fetch: (string, nat) -> Option<DeviceAdapter>)
      returns (ok: bool, fetches: seq<string>)
      modifies this`devices, this`states, this`attributes, this`adapters
      ensures ok <==> !(hasHub && listed.None?)
      ensures !hasHub || listed.None? ==>
        fetches == [] && devices == old(devices) && states == old(states) && attributes == old(attributes) && adapters == old(adapters)
      ensures hasHub && listed.Some? ==>
        var r := LoadFold(DevicesOf(listed.value), Tables(old(states), old(attributes), old(adapters), []), load, fetch);
        && devices == DevicesOf(listed.value)
        && states == r.states && attributes == r.attributes && adapters == r.adapters && fetches == r.fetches
    {
      fetches := [];
      if !hasHub {
        return true, fetches;
      }
      if listed.None? {
        return false, fetches;
      }
      devices := DevicesOf(listed.value);
      var t := Tables(states, attributes, adapters, []);
      ghost var t0 := t;
      var i := 0;
      while i < |devices|
        invariant 0 <= i <= |devices|
        invariant t == LoadFold(devices[..i], t0, load, fetch)
      {
        assert devices[..i + 1][..i] == devices[..i];
        t := LoadStep(t, devices[i], load, fetch);
        i := i + 1;
      }
      assert devices[..|devices|] == devices;
      states, attributes, adapters, fetches := t.states, t.attributes, t.adapters, t.fetches;
      ok := true;
    }

    /** `_publish_device_state`. */
    method PublishDeviceState(device: DeviceDescription)
      modifies this`outbox
      ensures outbox == old(outbox) + (if hasMqtt then StateMessages(baseTopic, attributes, adapters, states, device) else [])
    {
      if !hasMqtt {
        return;
      }
      if device.id !in states {
        return;
      }
      var adapter := AdapterOf(adapters, device);
      var friendly := FriendlyName(attributes, device);
      var payload := BuildStatePayload(adapter, states[device.id].properties, device.lqi);
      var topic := baseTopic + "/" + friendly;
      outbox := outbox + [Message(topic, JObj(payload))];
      outbox := outbox + [Message(topic + "/availability", JStr(Availability(device)))];
    }

    /** `_handle_hub_broadcast`: an `object_update` event is handed to
        `_handle_object_update`; any other event changes nothing. */
    method HandleHubBroadcast(msg: Dict<string, Json>)
      modifies this`states, this`outbox
      ensures GetOr(msg, "evt", JNull) != JStr(Constants.EvtObjectUpdate) ==>
        states == old(states) && outbox == old(outbox)
      ensures GetOr(msg, "evt", JNull) == JStr(Constants.EvtObjectUpdate) ==>
        && states == BridgeUpdate(devices, old(states), msg)
        && (BridgeUpdated(devices, old(states), msg) ==>
              outbox == old(outbox) + (if hasMqtt then StateMessages(baseTopic, attributes, adapters, states, Get(devices, BridgeTarget(devices, msg).value).value) else []))
        && (!BridgeUpdated(devices, old(states), msg) ==> outbox == old(outbox))
    {
      if GetOr(msg, "evt", JNull) == JStr(Constants.EvtObjectUpdate) {
        HandleObjectUpdate(msg);
      }
    }

    /** `_handle_object_update`: only an existing state is merged into, and
        only its all-digit, dict-valued keys; `adptr-crc` is not kept.  The
        registry itself never changes. */
    method HandleObjectUpdate(msg: Dict<string, Json>)
      modifies this`states, this`outbox
      ensures states == BridgeUpdate(devices, old(states), msg)
      ensures BridgeUpdated(devices, old(states), msg) ==>
        outbox == old(outbox) + (if hasMqtt then StateMessages(baseTopic, attributes, adapters, states, Get(devices, BridgeTarget(devices, msg).value).value) else [])
      ensures !BridgeUpdated(devices, old(states), msg) ==> outbox == old(outbox)
    {
      var idv := GetOr(msg, "id", JNull);
      var propsv := GetOr(msg, "props", JObj([]));
      if !Truthy(idv) || !(idv.JStr? && Get(devices, idv.s).Some?) {
        return;
      }
      var id := idv.s;
      var device := Get(devices, id).value;
      if id !in states {
        return;
      }
      if !propsv.JObj? {
        return;
      }
      var state := states[id];
      var merged := SparseMerge(propsv.fields, state.properties, PropertyEntry);
      states := states[id := state.(properties := merged)];
      PublishDeviceState(device);
    }

    /** `_handle_set_command`: no writes for an unknown device or for
        invalid JSON; a payload that parses to something other than an object
        raises at `data.items()` (`raised`), before any write, and nothing in
        `_run_mqtt` catches it; otherwise one write per key whose field id
        resolves, in key order. */
    method HandleSetCommand(friendlyName: string, parsed: Option<Json>) returns (raised: bool)
      modifies this`writes
      ensures raised <==> FindDeviceByName(devices, attributes, friendlyName).Some? && parsed.Some? && !parsed.value.JObj?
      ensures var device := FindDeviceByName(devices, attributes, friendlyName);
        writes == old(writes) +
          if device.None? || parsed.None? || !parsed.value.JObj? || !hasHub then []
          else SetWrites(device.value.id, AdapterOf(adapters, device.value), parsed.value.fields)
    {
      var device := FindDeviceByName(devices, attributes, friendlyName);
      if device.None? || parsed.None? {
        return false;
      }
      if !parsed.value.JObj? {
        return true;
      }
      raised := false;
      var adapter := AdapterOf(adapters, device.value);
      var data := parsed.value.fields;
      var out: seq<Write> := [];
      var i := 0;
      while i < |data|
        invariant 0 <= i <= |data|
        invariant out == (if hasHub then SetWrites(device.value.id, adapter, data[..i]) else [])
      {
        assert data[..i + 1][..i] == data[..i];
        var fieldId := FieldIdByName(adapter, data[i].0);
        if fieldId.Some? && hasHub {
          out := out + [Write(device.value.id, fieldId.value, data[i].1)];
        }
        i := i + 1;
      }
      assert data[..|data|] == data;
      writes := writes + out;
    }

    /** `_handle_mqtt_message`: only `.../<name>/set` topics are handled;
        `parse` stands for `json.loads`.  `raised` passes on the set
        handler's exception. */
    method HandleMqttMessage(topic: string, payload: string, parse: string -> Option<Json>) returns (raised: bool)
      modifies this`writes
      ensures raised <==> EndsWithSet(topic) && FindDeviceByName(devices, attributes, SetTarget(topic)).Some? &&
                          parse(payload).Some? && !parse(payload).value.JObj?
      ensures !EndsWithSet(topic) ==> writes == old(writes)
      ensures EndsWithSet(topic) ==>
        var device := FindDeviceByName(devices, attributes, SetTarget(topic));
        var parsed := parse(payload);
        writes == old(writes) +
          if device.None? || parsed.None? || !parsed.value.JObj? || !hasHub then []
          else SetWrites(device.value.id, AdapterOf(adapters, device.value), parsed.value.fields)
    {
      raised := false;
      if EndsWithSet(topic) {
        raised := HandleSetCommand(SetTarget(topic), parse(payload));
      }
    }

    /** `_publish_discovery`. */
    method PublishDiscovery()
      modifies this`outbox
      ensures outbox == old(outbox) + (if hasMqtt then Discovery(BridgeUnitMapAsWritten, baseTopic, discoveryPrefix, devices, attributes, adapters, states) else [])
    {
      if !hasMqtt {
        return;
      }
      var out: seq<Message> := [];
      var i := 0;
      while i < |devices|
        invariant 0 <= i <= |devices|
        invariant out == Discovery(BridgeUnitMapAsWritten, baseTopic, discoveryPrefix, devices[..i], attributes, adapters, states)
        invariant outbox == old(outbox)
      {
        ghost var before := out;
        assert devices[..i + 1][..i] == devices[..i];
        var deviceId := devices[i].0;
        var device := devices[i].1;
        var adapter := AdapterOf(adapters, device);
        if adapter.Some? && deviceId in states {
          var friendly := FriendlyName(attributes, device);
          var ms := FilterMapLoop(adapter.value.params, ParamDiscovered(),
                                  ParamMessage(BridgeUnitMapAsWritten, baseTopic, discoveryPrefix, deviceId, friendly, device, adapter.value));
          out := out + ms;
        }
        assert devices[..i + 1][i] == devices[i];
        assert out == before + DeviceDiscovery(BridgeUnitMapAsWritten, baseTopic, discoveryPrefix, attributes, adapters, states, devices[i]);
        i := i + 1;
      }
      assert devices[..|devices|] == devices;
      outbox := outbox + out;
    }
  }

  /** `{d.id: d for d in devices}`. */
  function DevicesOf(ds: seq<DeviceDescription>): Dict<string, DeviceDescription>
  {
    if ds == [] then [] else Put(DevicesOf(ds[..|ds| - 1]), ds[|ds| - 1].id, ds[|ds| - 1])
  }

  /** The loop building the state payload. */
  method BuildStatePayload(adapter: Option<DeviceAdapter>, props: Dict<int, PropertyValue>, lqi: Json) returns (payload: Dict<string, Json>)
    ensures payload == StatePayload(adapter, props, lqi)
  {
    payload := [];
    var i := 0;
    while i < |props|
      invariant 0 <= i <= |props|
      invariant payload == PayloadFields(adapter, props[..i])
    {
      assert props[..i + 1][..i] == props[..i];
      var fieldId := props[i].0;
      var value := ShowValue(adapter, fieldId, props[i].1.value);
      assert props[..i + 1][i] == props[i];
      payload := Put(payload, FieldName(adapter, fieldId), value);
      i := i + 1;
    }
    assert props[..|props|] == props;
    payload := Put(payload, "linkquality", lqi);
  }

  /** The label conversion of one field. */
  method ShowValue(adapter: Option<DeviceAdapter>, fieldId: int, value: Json) returns (v: Json)
    ensures v == ShownValue(adapter, fieldId, value)
  {
    v := value;
    if adapter.Some? {
      var param := GetParamByAddress(adapter.value, fieldId);
      if param.Some? && param.value.labels != [] {
        v := FindLabel(param.value.labels, value);
      }
    }
  }

  /** The device an object update names, when it is a known one. */
  function BridgeTarget(devices: Dict<string, DeviceDescription>, msg: Dict<string, Json>): Option<string>
  {
    var idv := GetOr(msg, "id", JNull);
    if idv.JStr? && idv.s != "" && Get(devices, idv.s).Some? then Some(idv.s) else None
  }

  /** Whether the update reaches a state: the device is known, has a state
      and `props` is a dict. */
  predicate BridgeUpdated(devices: Dict<string, DeviceDescription>, states: map<string, DeviceState>, msg: Dict<string, Json>)
  {
    BridgeTarget(devices, msg).Some? && BridgeTarget(devices, msg).value in states && GetOr(msg, "props", JObj([])).JObj?
  }

  function BridgeUpdate(devices: Dict<string, DeviceDescription>, states: map<string, DeviceState>, msg: Dict<string, Json>): map<string, DeviceState>
  {
    if !BridgeUpdated(devices, states, msg) then states
    else
      var id := BridgeTarget(devices, msg).value;
      states[id := states[id].(properties := MergeProps(GetOr(msg, "props", JObj([])).fields, states[id].properties))]
  }

  /** The bridge creates no state, replaces only the fields named by
      all-digit, dict-valued keys, and leaves other devices alone. */
  lemma BridgeUpdateSpec(devices: Dict<string, DeviceDescription>, states: map<string, DeviceState>, msg: Dict<string, Json>, id: string, f: int)
    ensures BridgeUpdate(devices, states, msg).Keys == states.Keys
    ensures !BridgeUpdated(devices, states, msg) ==> BridgeUpdate(devices, states, msg) == states
    ensures id in states && BridgeTarget(devices, msg) != Some(id) ==> BridgeUpdate(devices, states, msg)[id] == states[id]
    ensures BridgeUpdated(devices, states, msg) && BridgeTarget(devices, msg) == Some(id) ==>
      var props := GetOr(msg, "props", JObj([])).fields;
      var after := BridgeUpdate(devices, states, msg)[id];
      && after.deviceId == states[id].deviceId && after.adapterCrc == states[id].adapterCrc
      && ((exists i :: 0 <= i < |props| && Writes(props[i], PropertyEntry, f)) ==>
            Get(after.properties, f) == LastWrite(props, PropertyEntry, f))
      && ((forall i :: 0 <= i < |props| ==> !Writes(props[i], PropertyEntry, f)) ==>
            Get(after.properties, f) == Get(states[id].properties, f))
  {
    if BridgeUpdated(devices, states, msg) && BridgeTarget(devices, msg) == Some(id) {
      MergePropsGet(GetOr(msg, "props", JObj([])).fields, states[id].properties, f);
    }
  }
}
