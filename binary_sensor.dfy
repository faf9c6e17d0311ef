/** The binary-sensor platform: which adapter parameters (or format fields)
    become binary sensors, the device class a sensor gets, and its state. */
module BinarySensorPlatform {
  import opened Wrappers
  import opened Dicts
  import opened JsonValues
  import opened Models
  import opened Platforms
  import Entity
  import Constants

  /** A read-only bool parameter; there is no cut-off for service fields. */
  predicate IsBinaryParam(p: AdapterParam)
  {
    p.paramType == "bool" && !IsWritable(p)
  }

  /** A read-only bool field of the format. */
  predicate IsBinaryField(e: (int, FieldFormat))
  {
    IsBool(e.1) && IsReadOnly(e.1)
  }

  function DeviceBinarySensors(device: DeviceDescription, adapter: Option<DeviceAdapter>, format: Option<DeviceFormat>): seq<EntityRef>
  {
    DeviceEntities(device, adapter, format, (a, p) => IsBinaryParam(p), e => IsBinaryField(e), true)
  }

  /** The binary sensors of the whole registry. */
  function BinarySensors(devices: Dict<string, DeviceDescription>, adapters: map<string, DeviceAdapter>, formats: map<string, DeviceFormat>): seq<EntityRef>
  {
    Entities(devices, adapters, formats, (a, p) => IsBinaryParam(p), e => IsBinaryField(e), true)
  }

  /** A device gets a binary sensor at field `f` exactly when its adapter has
      a bool parameter without write access at `f`; or, without adapter
      parameters, when its format has a read-only bool field `f`. */
  lemma DeviceBinarySensorsSpec(device: DeviceDescription, adapter: Option<DeviceAdapter>, format: Option<DeviceFormat>, r: EntityRef)
    ensures r in DeviceBinarySensors(device, adapter, format) <==>
      r.deviceId == device.id &&
      if adapter.Some? && adapter.value.params != [] then
        exists j :: 0 <= j < |adapter.value.params| && adapter.value.params[j].address == r.fieldId &&
          adapter.value.params[j].paramType == "bool" && 'w' !in adapter.value.params[j].access
      else
        format.Some? &&
        exists j :: 0 <= j < |format.value.fields| && format.value.fields[j].0 == r.fieldId &&
          format.value.fields[j].1.dataType == 0 && format.value.fields[j].1.access == 0
  {
    DeviceEntitiesSpec(device, adapter, format, (a, p) => IsBinaryParam(p), e => IsBinaryField(e), true, r);
    if adapter.Some? {
      forall j | 0 <= j < |adapter.value.params| {
        AccessPredicates(adapter.value.params[j]);
      }
    }
  }

  /** Unlike switches and numbers, a service field above 200 still becomes a
      binary sensor: every read-only bool parameter does, whatever its
      address. */
  lemma ServiceFieldsKept(device: DeviceDescription, a: DeviceAdapter, format: Option<DeviceFormat>, j: int)
    requires 0 <= j < |a.params| && a.params[j].address > 200
    requires a.params[j].paramType == "bool" && 'w' !in a.params[j].access
    ensures EntityRef(device.id, a.params[j].address) in DeviceBinarySensors(device, Some(a), format)
  {
    DeviceBinarySensorsSpec(device, Some(a), format, EntityRef(device.id, a.params[j].address));
  }

  /** The parameter has a non-empty name whose lower-cased form is in the
      binary-sensor mapping. */
  predicate NameHasClass(param: Option<AdapterParam>)
  {
    param.Some? && param.value.name.Some? && param.value.name.value != "" &&
    Lower(param.value.name.value) in Constants.BinarySensorDeviceClassMapping
  }

  /** The device class the lower-cased parameter name maps to. */
  function BinaryDeviceClass(param: Option<AdapterParam>): (c: Option<string>)
    ensures c.Some? <==> NameHasClass(param)
    ensures c.Some? ==> c.value == Constants.BinarySensorDeviceClassMapping[Lower(param.value.name.value)]
  {
    if param.Some? && param.value.name.Some? && param.value.name.value != "" then
      var n := Lower(param.value.name.value);
      if n in Constants.BinarySensorDeviceClassMapping then Some(Constants.BinarySensorDeviceClassMapping[n]) else None
    else None
  }

  /** The mapping ignores case: two names with the same lower-cased form get
      the same class, so "DOOR" is a door like "door". */
  lemma UpperCaseNameClassified(p: AdapterParam, q: AdapterParam)
    requires p.name.Some? && q.name.Some? && Lower(p.name.value) == Lower(q.name.value)
    ensures BinaryDeviceClass(Some(p)) == BinaryDeviceClass(Some(q))
    ensures p.name == Some("DOOR") ==> BinaryDeviceClass(Some(p)) == Some("door")
  {
    if p.name.value == "" {
      assert |q.name.value| == |Lower(q.name.value)| == 0;
    }
    if q.name.value == "" {
      assert |p.name.value| == |Lower(p.name.value)| == 0;
    }
    if p.name == Some("DOOR") {
      assert Lower("DOOR") == "door";
      assert "door" in Constants.BinarySensorDeviceClassMapping;
    }
  }

  /** `is_on`: the converted value's truth, `None` for no value. */
  function BinaryIsOn(data: map<string, DeviceState>, deviceId: string, fieldId: int, param: Option<AdapterParam>): Result<Option<bool>, Entity.ConvError>
  {
    IsOnState(data, deviceId, fieldId, param)
  }

  /** A bool in the field is read unchanged, whatever the conversion. */
  lemma BoolsReadUnchanged(data: map<string, DeviceState>, deviceId: string, fieldId: int, param: Option<AdapterParam>, b: bool)
    requires Entity.RawStateValue(data, deviceId, fieldId) == JBool(b)
    ensures BinaryIsOn(data, deviceId, fieldId, param) == Ok(Some(b))
  {
  }
}
