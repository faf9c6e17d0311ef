/** The switch platform: which adapter parameters (or format fields) become
    switches, the device class a switch gets, and its state and commands. */
module SwitchPlatform {
  import opened Wrappers
  import opened Dicts
  import opened JsonValues
  import opened Models
  import opened Platforms
  import Entity
  import Constants

  /** A device type the light platform claims. */
  predicate IsLightType(adapter: DeviceAdapter)
  {
    var t := DeviceTypeText(adapter);
    Contains(t, "light") || Contains(t, "dimmer") || Contains(t, "bulb")
  }

  /** A non-service, writable bool parameter of a device that is not a light. */
  predicate IsSwitchParam(adapter: DeviceAdapter, p: AdapterParam)
  {
    p.address <= Constants.MaxFieldId && p.paramType == "bool" && IsWritable(p) && !IsLightType(adapter)
  }

  /** A non-service, writable bool field of the format. */
  predicate IsSwitchField(e: (int, FieldFormat))
  {
    e.0 <= Constants.MaxFieldId && IsBool(e.1) && !IsReadOnly(e.1)
  }

  function DeviceSwitches(device: DeviceDescription, adapter: Option<DeviceAdapter>, format: Option<DeviceFormat>): seq<EntityRef>
  {
    DeviceEntities(device, adapter, format, (a, p) => IsSwitchParam(a, p), e => IsSwitchField(e), true)
  }

  /** The switches of the whole registry. */
  function Switches(devices: Dict<string, DeviceDescription>, adapters: map<string, DeviceAdapter>, formats: map<string, DeviceFormat>): seq<EntityRef>
  {
    Entities(devices, adapters, formats, (a, p) => IsSwitchParam(a, p), e => IsSwitchField(e), true)
  }

  /** A device gets a switch at field `f` exactly when its adapter has
      parameters, is not a light, and has a writable bool parameter at `f <=
      200`; or, without adapter parameters, when its format has a writable bool
      field `f <= 200`. */
  lemma DeviceSwitchesSpec(device: DeviceDescription, adapter: Option<DeviceAdapter>, format: Option<DeviceFormat>, r: EntityRef)
    ensures r in DeviceSwitches(device, adapter, format) <==>
      r.deviceId == device.id && r.fieldId <= 200 &&
      if adapter.Some? && adapter.value.params != [] then
        !IsLightType(adapter.value) &&
        exists j :: 0 <= j < |adapter.value.params| && adapter.value.params[j].address == r.fieldId &&
          adapter.value.params[j].paramType == "bool" && 'w' in adapter.value.params[j].access
      else
        format.Some? &&
        exists j :: 0 <= j < |format.value.fields| && format.value.fields[j].0 == r.fieldId &&
          format.value.fields[j].1.dataType == 0 && format.value.fields[j].1.access != 0
  {
    DeviceEntitiesSpec(device, adapter, format, (a, p) => IsSwitchParam(a, p), e => IsSwitchField(e), true, r);
    if adapter.Some? {
      forall j | 0 <= j < |adapter.value.params| {
        AccessPredicates(adapter.value.params[j]);
      }
    }
  }

  /** A light device with parameters has no switches, whatever its
      parameters are. */
  lemma LightsHaveNoSwitches(device: DeviceDescription, adapter: DeviceAdapter, format: Option<DeviceFormat>)
    requires adapter.params != [] && IsLightType(adapter)
    ensures DeviceSwitches(device, Some(adapter), format) == []
  {
    if DeviceSwitches(device, Some(adapter), format) != [] {
      var r := DeviceSwitches(device, Some(adapter), format)[0];
      DeviceSwitchesSpec(device, Some(adapter), format, r);
    }
  }

  /** The adapter's lower-cased device type mentions `word`. */
  predicate TypeSays(adapter: Option<DeviceAdapter>, word: string)
  {
    adapter.Some? && Contains(DeviceTypeText(adapter.value), word)
  }

  /** The parameter has a non-empty name whose lower-cased form is in the
      switch mapping. */
  predicate NameHasClass(param: Option<AdapterParam>)
  {
    param.Some? && param.value.name.Some? && param.value.name.value != "" &&
    Lower(param.value.name.value) in Constants.SwitchDeviceClassMapping
  }

  /** The switch's device class: "outlet" for a plug or socket, "switch" for a
      switch device type, else the class the lower-cased parameter name maps
      to. */
  function SwitchDeviceClass(adapter: Option<DeviceAdapter>, param: Option<AdapterParam>): (c: Option<string>)
    ensures TypeSays(adapter, "plug") || TypeSays(adapter, "socket") ==> c == Some("outlet")
    ensures !TypeSays(adapter, "plug") && !TypeSays(adapter, "socket") && TypeSays(adapter, "switch") ==>
      c == Some("switch")
    ensures !TypeSays(adapter, "plug") && !TypeSays(adapter, "socket") && !TypeSays(adapter, "switch") ==>
      (c.Some? <==> NameHasClass(param)) &&
      (c.Some? ==> c.value == Constants.SwitchDeviceClassMapping[Lower(param.value.name.value)])
    ensures c.Some? ==> c.value in {"outlet", "switch"}
  {
    var fromType :=
      if adapter.None? then None
      else
        var t := DeviceTypeText(adapter.value);
        if Contains(t, "plug") || Contains(t, "socket") then Some("outlet")
        else if Contains(t, "switch") then Some("switch")
        else None;
    if fromType.Some? then fromType
    else if param.Some? && param.value.name.Some? && param.value.name.value != "" then
      var n := Lower(param.value.name.value);
      if n in Constants.SwitchDeviceClassMapping then Some(Constants.SwitchDeviceClassMapping[n]) else None
    else None
  }

  /** `is_on`: the converted value's truth, `None` for no value. */
  function SwitchIsOn(data: map<string, DeviceState>, deviceId: string, fieldId: int, param: Option<AdapterParam>): Result<Option<bool>, Entity.ConvError>
  {
    IsOnState(data, deviceId, fieldId, param)
  }

  /** `async_turn_on` and `async_turn_off`: the write of `True` or `False`
      through the parameter's inversion program. */
  function Turn(deviceId: string, fieldId: int, param: Option<AdapterParam>, on: bool): Result<Write, Entity.ConvError>
  {
    Entity.SetValue(deviceId, fieldId, param, JBool(on))
  }

  /** Without a conversion the switch writes the plain bool, and a field
      holding that bool reads back as on exactly when it was turned on. */
  lemma TurnRoundTrip(data: map<string, DeviceState>, deviceId: string, fieldId: int, param: Option<AdapterParam>, on: bool)
    requires param.None? || !Truthy(param.value.convert)
    ensures Turn(deviceId, fieldId, param, on) == Ok(Write(deviceId, fieldId, JBool(on)))
    ensures Entity.RawStateValue(data, deviceId, fieldId) == JBool(on) ==>
      SwitchIsOn(data, deviceId, fieldId, param) == Ok(Some(on))
  {
  }

  /** With an inversion program, turning on writes the program's result (a
      number, not a bool). */
  lemma TurnThroughInversion(deviceId: string, fieldId: int, param: AdapterParam, k: real)
    requires param.convert == JObj([("inversion", Entity.ScaleProgram("*", k))])
    ensures Turn(deviceId, fieldId, Some(param), true) == Ok(Write(deviceId, fieldId, JFloat(k)))
  {
    Entity.BoolsAreInverted(param, k);
  }
}
