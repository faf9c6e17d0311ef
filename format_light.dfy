/** The light platform that works from device formats: a device is a light
    when field 0 is a bool, and dimmable when field 1 is a number; brightness
    is a percentage on the device and 0..255 in Home Assistant. */
module FormatLight {
  import opened Wrappers
  import opened Dicts
  import opened JsonValues
  import opened Models
  import opened Seqs
  import opened Platforms
  import Entity

  const FieldOnOff: int := 0
  const FieldBrightness: int := 1

  /** A light: its device, its on/off field and its optional brightness field. */
  datatype Light = Light(deviceId: string, onOff: int, brightness: Option<int>)

  /** Field `f` of the format is present and satisfies `test`. */
  predicate HasField(format: DeviceFormat, f: int, test: FieldFormat -> bool)
  {
    Get(format.fields, f).Some? && test(Get(format.fields, f).value)
  }

  /** The light a device gets, if any: none without a format or without a
      bool field 0. */
  function LightFor(device: DeviceDescription, format: Option<DeviceFormat>): (l: Option<Light>)
    ensures l.Some? <==> format.Some? && HasField(format.value, FieldOnOff, IsBool)
    ensures l.Some? ==> l.value.deviceId == device.id && l.value.onOff == FieldOnOff
    ensures l.Some? ==> (l.value.brightness.Some? <==> HasField(format.value, FieldBrightness, IsNumeric))
    ensures l.Some? && l.value.brightness.Some? ==> l.value.brightness.value == FieldBrightness
  {
    if format.None? then None
    else if HasField(format.value, FieldOnOff, IsBool) then
      Some(Light(device.id, FieldOnOff, if HasField(format.value, FieldBrightness, IsNumeric) then Some(FieldBrightness) else None))
    else None
  }

  function Keep(formats: map<string, DeviceFormat>): ((string, DeviceDescription)) -> bool
  {
    (e: (string, DeviceDescription)) => LightFor(e.1, FormatFor(formats, e.0)).Some?
  }

  function Make(formats: map<string, DeviceFormat>): ((string, DeviceDescription)) -> Light
  {
    (e: (string, DeviceDescription)) => if LightFor(e.1, FormatFor(formats, e.0)).Some? then LightFor(e.1, FormatFor(formats, e.0)).value else Light(e.1.id, FieldOnOff, None)
  }

  /** `async_setup_entry`: one light per device whose format qualifies, in
      registry order. */
  function Lights(devices: Dict<string, DeviceDescription>, formats: map<string, DeviceFormat>): seq<Light>
  {
    FilterMap(devices, Keep(formats), Make(formats))
  }

  /** Every light comes from a registry entry with a format, and every entry
      whose format has a bool field 0 gives one. */
  lemma LightsSpec(devices: Dict<string, DeviceDescription>, formats: map<string, DeviceFormat>)
    ensures forall l :: l in Lights(devices, formats) <==>
      exists i :: 0 <= i < |devices| && LightFor(devices[i].1, FormatFor(formats, devices[i].0)) == Some(l)
  {
    FilterMapSpec(devices, Keep(formats), Make(formats));
  }

  method SetupLights(devices: Dict<string, DeviceDescription>, formats: map<string, DeviceFormat>) returns (lights: seq<Light>)
    ensures lights == Lights(devices, formats)
  {
    lights := FilterMapLoop(devices, Keep(formats), Make(formats));
  }

  /** The colour mode: brightness exactly when a brightness field is
      attached. */
  function Mode(l: Light): (m: ColorMode)
    ensures m == Brightness <==> l.brightness.Some?
    ensures m != ColorTemp
  {
    if l.brightness.Some? then Brightness else OnOff
  }

  /** `is_on`, read through the on/off field's conversion. */
  function LightIsOn(data: map<string, DeviceState>, l: Light, param: Option<AdapterParam>): Result<Option<bool>, Entity.ConvError>
  {
    IsOnState(data, l.deviceId, l.onOff, param)
  }

  /** `value * 255 / 100` on a number; anything else is a `TypeError`. */
  datatype LightError = NotANumber | Conversion(e: Entity.ConvError)

  /** `brightness`: the raw field value scaled from a percentage to 0..255,
      `None` without a brightness field or without a value; no conversion
      program is applied. */
  function ReadBrightness(data: map<string, DeviceState>, l: Light): (r: Result<Option<int>, LightError>)
    ensures l.brightness.None? || l.deviceId !in data ==> r == Ok(None)
    ensures l.brightness.Some? && l.deviceId in data && Get(data[l.deviceId].properties, l.brightness.value).None? ==> r == Ok(None)
    ensures l.brightness.Some? && l.deviceId in data && Get(data[l.deviceId].properties, l.brightness.value).Some? ==>
      var v := Get(data[l.deviceId].properties, l.brightness.value).value.value;
      r == if NumOf(v).Some? then Ok(Some(ToHa(NumOf(v).value))) else Err(NotANumber)
  {
    if l.brightness.None? || l.deviceId !in data then Ok(None)
    else
      match Get(data[l.deviceId].properties, l.brightness.value)
      case None => Ok(None)
      case Some(prop) =>
        match NumOf(prop.value)
        case None => Err(NotANumber)
        case Some(x) => Ok(Some(ToHa(x)))
  }

  /** What a command sent: the writes in order, and the conversion error that
      stopped it, if any. */
  datatype Sent = Sent(writes: seq<Write>, failure: Option<Entity.ConvError>)

  /** `async_turn_on`: the scaled brightness, written directly, when one is
      given and the light is dimmable; then `True` through the on/off field's
      inversion program. */
  function TurnOn(l: Light, param: Option<AdapterParam>, brightness: Option<int>): (s: Sent)
    ensures brightness.Some? && l.brightness.Some? ==>
      |s.writes| >= 1 && s.writes[0] == Write(l.deviceId, l.brightness.value, JInt(ToDevice(brightness.value)))
    ensures s.failure.None? <==> Entity.SetValue(l.deviceId, l.onOff, param, JBool(true)).Ok?
    ensures |s.writes| == (if brightness.Some? && l.brightness.Some? then 1 else 0) + (if s.failure.None? then 1 else 0)
    ensures s.failure.None? ==> s.writes[|s.writes| - 1] == Entity.SetValue(l.deviceId, l.onOff, param, JBool(true)).value
  {
    var dim := if brightness.Some? && l.brightness.Some? then [Write(l.deviceId, l.brightness.value, JInt(ToDevice(brightness.value)))] else [];
    match Entity.SetValue(l.deviceId, l.onOff, param, JBool(true))
    case Ok(w) => Sent(dim + [w], None)
    case Err(e) => Sent(dim, Some(e))
  }

  /** `async_turn_off`. */
  function TurnOff(l: Light, param: Option<AdapterParam>): Result<Write, Entity.ConvError>
  {
    Entity.SetValue(l.deviceId, l.onOff, param, JBool(false))
  }

  /** A brightness set through `TurnOn` and read back from the field it
      wrote is within 3 steps below what was asked. */
  lemma DimRoundTrip(data: map<string, DeviceState>, l: Light, param: Option<AdapterParam>, b: int)
    requires 0 <= b <= 255 && l.brightness.Some? && l.deviceId in data
    requires Get(data[l.deviceId].properties, l.brightness.value).Some?
    requires Get(data[l.deviceId].properties, l.brightness.value).value.value == TurnOn(l, param, Some(b)).writes[0].value
    ensures ReadBrightness(data, l).Ok? && ReadBrightness(data, l).value.Some?
    ensures b - 3 <= ReadBrightness(data, l).value.value <= b
  {
    BrightnessRoundTrip(b);
  }
}
