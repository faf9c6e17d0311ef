/** The number platform: which adapter parameters (or format fields) become
    sliders, their bounds, their value and the value they write. */
module NumberPlatform {
  import opened Wrappers
  import opened Dicts
  import opened JsonValues
  import opened Models
  import opened Platforms
  import Entity
  import Constants

  /** A non-service, writable `int` or `float` parameter shown as a slider. */
  predicate IsNumberParam(p: AdapterParam)
  {
    p.address <= Constants.MaxFieldId && (p.paramType == "int" || p.paramType == "float") && IsWritable(p) &&
    GetOr(p.viewParams, "type", JStr("")) == JStr("slider")
  }

  /** A non-service, writable numeric field of the format. */
  predicate IsNumberField(e: (int, FieldFormat))
  {
    e.0 <= Constants.MaxFieldId && IsNumeric(e.1) && !IsReadOnly(e.1)
  }

  function DeviceNumbers(device: DeviceDescription, adapter: Option<DeviceAdapter>, format: Option<DeviceFormat>): seq<EntityRef>
  {
    DeviceEntities(device, adapter, format, (a, p) => IsNumberParam(p), e => IsNumberField(e), true)
  }

  /** The numbers of the whole registry. */
  function Numbers(devices: Dict<string, DeviceDescription>, adapters: map<string, DeviceAdapter>, formats: map<string, DeviceFormat>): seq<EntityRef>
  {
    Entities(devices, adapters, formats, (a, p) => IsNumberParam(p), e => IsNumberField(e), true)
  }

  /** A device gets a number at field `f` exactly when its adapter has a
      writable `int` or `float` slider parameter at `f <= 200`; or, without
      adapter parameters, when its format has a writable numeric field `f <=
      200`. */
  lemma DeviceNumbersSpec(device: DeviceDescription, adapter: Option<DeviceAdapter>, format: Option<DeviceFormat>, r: EntityRef)
    ensures r in DeviceNumbers(device, adapter, format) <==>
      r.deviceId == device.id && r.fieldId <= 200 &&
      if adapter.Some? && adapter.value.params != [] then
        exists j :: 0 <= j < |adapter.value.params| && adapter.value.params[j].address == r.fieldId &&
          adapter.value.params[j].paramType in {"int", "float"} && 'w' in adapter.value.params[j].access &&
          GetOr(adapter.value.params[j].viewParams, "type", JStr("")) == JStr("slider")
      else
        format.Some? &&
        exists j :: 0 <= j < |format.value.fields| && format.value.fields[j].0 == r.fieldId &&
          format.value.fields[j].1.dataType <= 7 && format.value.fields[j].1.access != 0
  {
    DeviceEntitiesSpec(device, adapter, format, (a, p) => IsNumberParam(p), e => IsNumberField(e), true, r);
    if adapter.Some? {
      forall j | 0 <= j < |adapter.value.params| {
        AccessPredicates(adapter.value.params[j]);
      }
    }
  }

  /** What can go wrong reading a number: `float()` of a value that is not a
      number, or the conversion program failing. */
  datatype NumberError = NotANumber | Conversion(e: Entity.ConvError)

  /** `float(v)` of a bound that is not `None`. */
  function Bound(v: Json): (r: Result<Option<real>, NumberError>)
    ensures v == JNull ==> r == Ok(None)
    ensures v != JNull ==> (r.Ok? <==> NumOf(v).Some?)
    ensures v != JNull && r.Ok? ==> r.value == NumOf(v)
  {
    if v == JNull then Ok(None)
    else
      match NumOf(v)
      case None => Err(NotANumber)
      case Some(x) => Ok(Some(x))
  }

  /** The slider's bounds, set only when the entity has a parameter. */
  datatype Bounds = Bounds(min: Option<real>, max: Option<real>)

  function NumberBounds(param: Option<AdapterParam>): (r: Result<Bounds, NumberError>)
    ensures param.None? ==> r == Ok(Bounds(None, None))
    ensures param.Some? ==> (r.Ok? <==> Bound(param.value.minValue).Ok? && Bound(param.value.maxValue).Ok?)
    ensures param.Some? && r.Ok? ==>
      r.value == Bounds(Bound(param.value.minValue).value, Bound(param.value.maxValue).value)
  {
    if param.None? then Ok(Bounds(None, None))
    else
      match Bound(param.value.minValue)
      case Err(e) => Err(e)
      case Ok(lo) =>
        match Bound(param.value.maxValue)
        case Err(e) => Err(e)
        case Ok(hi) => Ok(Bounds(lo, hi))
  }

  /** `native_value`: `None` for no value, else `float()` of the converted
      value. */
  function NativeValue(data: map<string, DeviceState>, deviceId: string, fieldId: int, param: Option<AdapterParam>): (r: Result<Option<real>, NumberError>)
    ensures deviceId !in data ==> r == Ok(None)
    ensures Entity.StateValue(data, deviceId, fieldId, param).Err? ==>
      r == Err(Conversion(Entity.StateValue(data, deviceId, fieldId, param).error))
    ensures Entity.StateValue(data, deviceId, fieldId, param).Ok? ==>
      r == Bound(Entity.StateValue(data, deviceId, fieldId, param).value)
  {
    match Entity.StateValue(data, deviceId, fieldId, param)
    case Err(e) => Err(Conversion(e))
    case Ok(v) => Bound(v)
  }

  /** `async_set_native_value`: an `int` parameter writes the value truncated
      toward zero, anything else the float itself, both through the
      inversion program. */
  function SetNativeValue(deviceId: string, fieldId: int, param: Option<AdapterParam>, value: real): Result<Write, Entity.ConvError>
  {
    if param.Some? && param.value.paramType == "int" then Entity.SetValue(deviceId, fieldId, param, JInt(Trunc(value)))
    else Entity.SetValue(deviceId, fieldId, param, JFloat(value))
  }

  /** Without a conversion the write is the value itself, truncated to an
      integer less than one away for an `int` parameter; a number written
      that way reads back as that number. */
  lemma SetNativeValueWrites(data: map<string, DeviceState>, deviceId: string, fieldId: int, param: Option<AdapterParam>, value: real)
    requires param.None? || !Truthy(param.value.convert)
    ensures param.Some? && param.value.paramType == "int" ==>
      exists n: int :: SetNativeValue(deviceId, fieldId, param, value) == Ok(Write(deviceId, fieldId, JInt(n))) &&
        -1.0 < value - n as real < 1.0
    ensures !(param.Some? && param.value.paramType == "int") ==>
      SetNativeValue(deviceId, fieldId, param, value) == Ok(Write(deviceId, fieldId, JFloat(value)))
    ensures Entity.RawStateValue(data, deviceId, fieldId) == JFloat(value) ==>
      NativeValue(data, deviceId, fieldId, param) == Ok(Some(value))
  {
    TruncSpec(value);
    if param.Some? && param.value.paramType == "int" {
      assert SetNativeValue(deviceId, fieldId, param, value) == Ok(Write(deviceId, fieldId, JInt(Trunc(value))));
    }
  }

  /** The truncation happens before the inversion program sees the value. */
  lemma TruncatesBeforeInversion(deviceId: string, fieldId: int, param: AdapterParam, k: real)
    requires param.paramType == "int" && k != 0.0
    requires param.convert == JObj([("inversion", Entity.ScaleProgram("*", k))])
    ensures SetNativeValue(deviceId, fieldId, Some(param), 2.5) == Ok(Write(deviceId, fieldId, JFloat(2.0 * k)))
  {
    Entity.RunScale(JInt(2), 2.0, "*", k);
  }
}
