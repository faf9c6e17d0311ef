/** What the Home Assistant platforms share: the two-source entity setup loop
    (adapter parameters when the device's adapter has any, else the fields of
    its format), `is_on`, Python's `int()` on a float, and the lights'
    brightness scaling between a percentage and 0..255. */
module Platforms {
  import opened Wrappers
  import opened Dicts
  import opened JsonValues
  import opened Models
  import opened Seqs
  import Coordinator
  import Entity

  /** An entity created by a platform: the device's id and the field it shows. */
  datatype EntityRef = EntityRef(deviceId: string, fieldId: int)

  function ParamKeep(adapter: DeviceAdapter, keep: (DeviceAdapter, AdapterParam) -> bool): AdapterParam -> bool
  {
    (p: AdapterParam) => keep(adapter, p)
  }

  function ParamRef(deviceId: string): AdapterParam -> EntityRef
  {
    (p: AdapterParam) => EntityRef(deviceId, p.address)
  }

  function FieldRef(deviceId: string): ((int, FieldFormat)) -> EntityRef
  {
    (e: (int, FieldFormat)) => EntityRef(deviceId, e.0)
  }

  /** `coordinator.formats.get(device_id)`. */
  function FormatFor(formats: map<string, DeviceFormat>, deviceId: string): Option<DeviceFormat>
  {
    if deviceId in formats then Some(formats[deviceId]) else None
  }

  /** One device's entities: one per kept parameter when the adapter has
      parameters, else, for a platform with a fallback, one per kept field of
      the format. */
  function DeviceEntities(device: DeviceDescription, adapter: Option<DeviceAdapter>, format: Option<DeviceFormat>,
                          keepParam: (DeviceAdapter, AdapterParam) -> bool, keepField: ((int, FieldFormat)) -> bool,
                          fallback: bool): seq<EntityRef>
  {
    if adapter.Some? && adapter.value.params != [] then
      FilterMap(adapter.value.params, ParamKeep(adapter.value, keepParam), ParamRef(device.id))
    else if fallback && format.Some? then
      FilterMap(format.value.fields, keepField, FieldRef(device.id))
    else []
  }

  /** `async_setup_entry`'s loop over `coordinator.devices.items()`. */
  function Entities(devices: Dict<string, DeviceDescription>, adapters: map<string, DeviceAdapter>, formats: map<string, DeviceFormat>,
                    keepParam: (DeviceAdapter, AdapterParam) -> bool, keepField: ((int, FieldFormat)) -> bool,
                    fallback: bool): seq<EntityRef>
  {
    EntitiesOf(devices, devices, adapters, formats, keepParam, keepField, fallback)
  }

  /** The loop over `entries`, looking adapters up in `devices`. */
  function EntitiesOf(entries: Dict<string, DeviceDescription>, devices: Dict<string, DeviceDescription>,
                      adapters: map<string, DeviceAdapter>, formats: map<string, DeviceFormat>,
                      keepParam: (DeviceAdapter, AdapterParam) -> bool, keepField: ((int, FieldFormat)) -> bool,
                      fallback: bool): seq<EntityRef>
  {
    if entries == [] then []
    else
      var e := entries[|entries| - 1];
      EntitiesOf(entries[..|entries| - 1], devices, adapters, formats, keepParam, keepField, fallback) +
      DeviceEntities(e.1, Coordinator.AdapterFor(devices, adapters, e.0), FormatFor(formats, e.0), keepParam, keepField, fallback)
  }

  /** A device's entity for field `f` exists exactly when a kept parameter
      has address `f` (adapter with parameters), or else a kept format field
      has id `f` (platforms with a fallback). */
  lemma DeviceEntitiesSpec(device: DeviceDescription, adapter: Option<DeviceAdapter>, format: Option<DeviceFormat>,
                           keepParam: (DeviceAdapter, AdapterParam) -> bool, keepField: ((int, FieldFormat)) -> bool,
                           fallback: bool, r: EntityRef)
    ensures r in DeviceEntities(device, adapter, format, keepParam, keepField, fallback) <==>
      r.deviceId == device.id &&
      if adapter.Some? && adapter.value.params != [] then
        exists j :: 0 <= j < |adapter.value.params| && keepParam(adapter.value, adapter.value.params[j]) && adapter.value.params[j].address == r.fieldId
      else
        fallback && format.Some? &&
        exists j :: 0 <= j < |format.value.fields| && keepField(format.value.fields[j]) && format.value.fields[j].0 == r.fieldId
  {
    if adapter.Some? && adapter.value.params != [] {
      FilterMapSpec(adapter.value.params, ParamKeep(adapter.value, keepParam), ParamRef(device.id));
    } else if fallback && format.Some? {
      FilterMapSpec(format.value.fields, keepField, FieldRef(device.id));
    }
  }

  /** Whether the registry entry `e` yields the entity `r`. */
  predicate Yields(e: (string, DeviceDescription), devices: Dict<string, DeviceDescription>,
                   adapters: map<string, DeviceAdapter>, formats: map<string, DeviceFormat>,
                   keepParam: (DeviceAdapter, AdapterParam) -> bool, keepField: ((int, FieldFormat)) -> bool,
                   fallback: bool, r: EntityRef)
  {
    r in DeviceEntities(e.1, Coordinator.AdapterFor(devices, adapters, e.0), FormatFor(formats, e.0), keepParam, keepField, fallback)
  }

  /** The entities of the registry are those of its devices, in order. */
  lemma {:induction false} EntitiesOfSpec(entries: Dict<string, DeviceDescription>, devices: Dict<string, DeviceDescription>,
                                          adapters: map<string, DeviceAdapter>, formats: map<string, DeviceFormat>,
                                          keepParam: (DeviceAdapter, AdapterParam) -> bool, keepField: ((int, FieldFormat)) -> bool,
                                          fallback: bool, r: EntityRef)
    ensures r in EntitiesOf(entries, devices, adapters, formats, keepParam, keepField, fallback) <==>
      exists i :: 0 <= i < |entries| && Yields(entries[i], devices, adapters, formats, keepParam, keepField, fallback, r)
  {
    if entries != [] {
      var init := entries[..|entries| - 1];
      var e := entries[|entries| - 1];
      EntitiesOfSpec(init, devices, adapters, formats, keepParam, keepField, fallback, r);
      var ys := EntitiesOf(init, devices, adapters, formats, keepParam, keepField, fallback);
      var zs := DeviceEntities(e.1, Coordinator.AdapterFor(devices, adapters, e.0), FormatFor(formats, e.0), keepParam, keepField, fallback);
      assert EntitiesOf(entries, devices, adapters, formats, keepParam, keepField, fallback) == ys + zs;
      assert r in zs <==> Yields(e, devices, adapters, formats, keepParam, keepField, fallback, r);
      if r in ys {
        var i :| 0 <= i < |init| && Yields(init[i], devices, adapters, formats, keepParam, keepField, fallback, r);
        assert entries[i] == init[i];
      } else if r in zs {
        assert Yields(entries[|entries| - 1], devices, adapters, formats, keepParam, keepField, fallback, r);
      } else {
        forall i | 0 <= i < |entries| ensures !Yields(entries[i], devices, adapters, formats, keepParam, keepField, fallback, r) {
          if i < |init| { assert entries[i] == init[i]; }
        }
      }
    }
  }

  /** The setup loop, with the inner `for param in adapter.params` (or `for
      field_id, field_fmt in fmt.fields.items()`) loop. */
  method SetupEntities(devices: Dict<string, DeviceDescription>, adapters: map<string, DeviceAdapter>, formats: map<string, DeviceFormat>,
                       keepParam: (DeviceAdapter, AdapterParam) -> bool, keepField: ((int, FieldFormat)) -> bool,
                       fallback: bool) returns (entities: seq<EntityRef>)
    ensures entities == Entities(devices, adapters, formats, keepParam, keepField, fallback)
  {
    entities := [];
    var i := 0;
    while i < |devices|
      invariant 0 <= i <= |devices|
      invariant entities == EntitiesOf(devices[..i], devices, adapters, formats, keepParam, keepField, fallback)
    {
      assert devices[..i + 1][..i] == devices[..i];
      assert devices[..i + 1][i] == devices[i];
      var deviceId := devices[i].0;
      var device := devices[i].1;
      var adapter := Coordinator.AdapterFor(devices, adapters, deviceId);
      var found: seq<EntityRef> := [];
      if adapter.Some? && adapter.value.params != [] {
        found := FilterMapLoop(adapter.value.params, ParamKeep(adapter.value, keepParam), ParamRef(device.id));
      } else if fallback && deviceId in formats {
        found := FilterMapLoop(formats[deviceId].fields, keepField, FieldRef(device.id));
      }
      entities := entities + found;
      i := i + 1;
    }
    assert devices[..|devices|] == devices;
  }

  /** `self._adapter_param`: the parameter at the entity's field, when the
      device has an adapter. */
  function EntityParam(adapter: Option<DeviceAdapter>, fieldId: int): Option<AdapterParam>
  {
    if adapter.Some? then ParamByAddress(adapter.value, fieldId) else None
  }

  /** `(adapter.device_type or "").lower()`. */
  function DeviceTypeText(adapter: DeviceAdapter): string
  {
    if adapter.deviceType.JStr? then Lower(adapter.deviceType.s) else ""
  }

  datatype ColorMode = OnOff | Brightness | ColorTemp

  /** `is_on`: `None` for a `None` value, else `bool(value)`. */
  function IsOn(value: Json): (r: Option<bool>)
    ensures r.None? <==> value == JNull
    ensures r.Some? ==> (r.value <==> Truthy(value))
  {
    if value == JNull then None else Some(Truthy(value))
  }

  /** `is_on` of an entity whose `_state_value` is the converted value. */
  function IsOnState(data: map<string, DeviceState>, deviceId: string, fieldId: int, param: Option<AdapterParam>): (r: Result<Option<bool>, Entity.ConvError>)
    ensures deviceId !in data ==> r == Ok(None)
    ensures r.Ok? <==> Entity.StateValue(data, deviceId, fieldId, param).Ok?
    ensures r.Ok? ==> var v := Entity.StateValue(data, deviceId, fieldId, param).value;
      (r.value.None? <==> v == JNull) && (r.value.Some? ==> (r.value.value <==> Truthy(v)))
  {
    match Entity.StateValue(data, deviceId, fieldId, param)
    case Err(e) => Err(e)
    case Ok(v) => Ok(IsOn(v))
  }

  /** Python's `int()` on a float: truncation toward zero. */
  function Trunc(x: real): int
  {
    if x >= 0.0 then x.Floor else -((-x).Floor)
  }

  /** The truncation keeps the sign, drops less than one, and is the floor
      for non-negative values. */
  lemma TruncSpec(x: real)
    ensures x >= 0.0 ==> 0 <= Trunc(x) && Trunc(x) as real <= x < Trunc(x) as real + 1.0
    ensures x <= 0.0 ==> Trunc(x) <= 0 && Trunc(x) as real - 1.0 < x <= Trunc(x) as real
    ensures Trunc(x) == x.Floor <==> x >= 0.0 || x == x.Floor as real
  {
  }

  lemma TruncExamples()
    ensures Trunc(2.7) == 2 && Trunc(-2.7) == -2 && Trunc(-3.0) == -3
  {
    TruncSpec(-2.7);
  }

  /** The lights' `int(percent * 255 / 100)`: a device percentage as a Home
      Assistant brightness. */
  function ToHa(percent: real): int
  {
    Trunc(percent * 255.0 / 100.0)
  }

  /** The lights' `int(brightness * 100 / 255)`: a Home Assistant brightness
      as a device percentage. */
  function ToDevice(brightness: int): int
  {
    Trunc(brightness as real * 100.0 / 255.0)
  }

  /** A Home Assistant brightness becomes a percentage, and that percentage
      read back loses at most 3 steps and never overshoots. */
  lemma BrightnessRoundTrip(b: int)
    requires 0 <= b <= 255
    ensures 0 <= ToDevice(b) <= 100
    ensures b - 3 <= ToHa(ToDevice(b) as real) <= b
  {
    var x := b as real * 100.0 / 255.0;
    TruncSpec(x);
    var p := ToDevice(b);
    assert p as real * 255.0 <= b as real * 100.0 < (p as real + 1.0) * 255.0;
    var y := p as real * 255.0 / 100.0;
    TruncSpec(y);
    var q := ToHa(p as real);
    assert q as real * 100.0 <= p as real * 255.0 < (q as real + 1.0) * 100.0;
  }

  /** The full range maps to the full range. */
  lemma BrightnessEnds()
    ensures ToDevice(255) == 100 && ToHa(100.0) == 255
    ensures ToDevice(0) == 0 && ToHa(0.0) == 0
  {
  }
}
