/** The light platform that works from adapters: a device whose type mentions
    a light gets one light built from its parameters named like an on/off
    switch, a brightness and a colour temperature.  Its reads and its turn-on
    command apply the parameters' conversion programs through a method the
    entity base class of this platform does not have; the model keeps that
    behaviour beside the intended one. */
module AdapterLight {
  import opened Wrappers
  import opened Dicts
  import opened JsonValues
  import opened Models
  import opened Seqs
  import opened Platforms
  import Entity
  import Coordinator

  // ------------------------------------------------------------ finding the fields

  /** The device type mentions a light, a dimmer, a bulb or a LED. */
  predicate IsLightDevice(adapter: DeviceAdapter)
  {
    var t := DeviceTypeText(adapter);
    Contains(t, "light") || Contains(t, "dimmer") || Contains(t, "bulb") || Contains(t, "led")
  }

  /** `(param.name or "").lower()`. */
  function NameText(p: AdapterParam): string
  {
    if p.name.Some? then Lower(p.name.value) else ""
  }

  predicate IsOnOffParam(p: AdapterParam)
  {
    NameText(p) in {"state", "on", "switch"} && p.paramType == "bool"
  }

  predicate IsBrightnessParam(p: AdapterParam)
  {
    NameText(p) in {"brightness", "level", "dim"} && p.paramType in {"int", "float"}
  }

  predicate IsColorTempParam(p: AdapterParam)
  {
    NameText(p) in {"color_temp", "colortemp", "color_temperature"} && p.paramType in {"int", "float"}
  }

  /** The `fields` dict of `_find_light_fields`. */
  datatype LightFields = LightFields(onOff: Option<int>, brightness: Option<int>, colorTemp: Option<int>)

  /** One pass of the loop: every matching rule overwrites its entry. */
  function ScanStep(fs: LightFields, p: AdapterParam): LightFields
  {
    LightFields(
      if IsOnOffParam(p) then Some(p.address) else fs.onOff,
      if IsBrightnessParam(p) then Some(p.address) else fs.brightness,
      if IsColorTempParam(p) then Some(p.address) else fs.colorTemp)
  }

  /** The loop over `adapter.params`, from all entries `None`. */
  function Scan(params: seq<AdapterParam>): LightFields
  {
    if params == [] then LightFields(None, None, None)
    else ScanStep(Scan(params[..|params| - 1]), params[|params| - 1])
  }

  /** The address of the last parameter that passes `test`. */
  function LastAddress(params: seq<AdapterParam>, test: AdapterParam -> bool): Option<int>
  {
    if params == [] then None
    else if test(params[|params| - 1]) then Some(params[|params| - 1].address)
    else LastAddress(params[..|params| - 1], test)
  }

  /** The last match is a parameter that passes the test and is followed only
      by parameters that fail it; there is none exactly when none passes. */
  lemma {:induction false} LastAddressSpec(params: seq<AdapterParam>, test: AdapterParam -> bool)
    ensures LastAddress(params, test).None? <==> forall j :: 0 <= j < |params| ==> !test(params[j])
    ensures LastAddress(params, test).Some? ==>
      exists j :: 0 <= j < |params| && test(params[j]) && params[j].address == LastAddress(params, test).value &&
        forall k :: j < k < |params| ==> !test(params[k])
  {
    if params != [] && !test(params[|params| - 1]) {
      var init := params[..|params| - 1];
      LastAddressSpec(init, test);
      if LastAddress(init, test).Some? {
        var j :| 0 <= j < |init| && test(init[j]) && init[j].address == LastAddress(init, test).value &&
          forall k :: j < k < |init| ==> !test(init[k]);
        assert params[j] == init[j];
        forall k | j < k < |params| ensures !test(params[k]) {
          if k < |init| { assert params[k] == init[k]; }
        }
      }
      if forall j :: 0 <= j < |init| ==> !test(init[j]) {
        forall j | 0 <= j < |params| ensures !test(params[j]) {
          if j < |init| { assert params[j] == init[j]; }
        }
      }
    }
  }

  /** Each entry of the scan is the address of the last parameter matching
      its rule: later matches win. */
  lemma {:induction false} ScanSpec(params: seq<AdapterParam>)
    ensures Scan(params) == LightFields(LastAddress(params, IsOnOffParam), LastAddress(params, IsBrightnessParam),
                                        LastAddress(params, IsColorTempParam))
  {
    if params != [] {
      ScanSpec(params[..|params| - 1]);
    }
  }

  /** `_find_light_fields`: `None` without an adapter, for a device type that
      is not a light, or without an on/off parameter. */
  function LightFieldsOf(adapter: Option<DeviceAdapter>): (r: Option<LightFields>)
    ensures adapter.None? ==> r.None?
    ensures adapter.Some? && !IsLightDevice(adapter.value) ==> r.None?
    ensures adapter.Some? && IsLightDevice(adapter.value) ==>
      r == if Scan(adapter.value.params).onOff.None? then None else Some(Scan(adapter.value.params))
  {
    if adapter.None? || !IsLightDevice(adapter.value) then None
    else
      var fs := Scan(adapter.value.params);
      if fs.onOff.None? then None else Some(fs)
  }

  /** A light device is found exactly when some parameter is a bool named
      like an on/off switch. */
  lemma LightFieldsFound(adapter: DeviceAdapter)
    requires IsLightDevice(adapter)
    ensures LightFieldsOf(Some(adapter)).Some? <==> exists j :: 0 <= j < |adapter.params| && IsOnOffParam(adapter.params[j])
  {
    ScanSpec(adapter.params);
    LastAddressSpec(adapter.params, IsOnOffParam);
  }

  /** The loop form of `_find_light_fields`. */
  method FindLightFields(adapter: Option<DeviceAdapter>) returns (r: Option<LightFields>)
    ensures r == LightFieldsOf(adapter)
  {
    if adapter.None? || !IsLightDevice(adapter.value) {
      return None;
    }
    var params := adapter.value.params;
    var fields := LightFields(None, None, None);
    var i := 0;
    while i < |params|
      invariant 0 <= i <= |params|
      invariant fields == Scan(params[..i])
    {
      assert params[..i + 1][..i] == params[..i];
      var p := params[i];
      var name := if p.name.Some? then Lower(p.name.value) else "";
      if name in {"state", "on", "switch"} && p.paramType == "bool" {
        fields := fields.(onOff := Some(p.address));
      }
      if name in {"brightness", "level", "dim"} && p.paramType in {"int", "float"} {
        fields := fields.(brightness := Some(p.address));
      }
      if name in {"color_temp", "colortemp", "color_temperature"} && p.paramType in {"int", "float"} {
        fields := fields.(colorTemp := Some(p.address));
      }
      i := i + 1;
    }
    assert params[..|params|] == params;
    if fields.onOff.None? {
      return None;
    }
    return Some(fields);
  }

  // ------------------------------------------------------------ setup

  /** A light: its device and the fields found for it. */
  datatype Light = Light(deviceId: string, onOff: int, brightness: Option<int>, colorTemp: Option<int>)

  function FieldsFor(devices: Dict<string, DeviceDescription>, adapters: map<string, DeviceAdapter>, e: (string, DeviceDescription)): Option<LightFields>
  {
    LightFieldsOf(Coordinator.AdapterFor(devices, adapters, e.0))
  }

  function LightOf(device: DeviceDescription, fs: LightFields): Light
  {
    Light(device.id, if fs.onOff.Some? then fs.onOff.value else 0, fs.brightness, fs.colorTemp)
  }

  function Keep(devices: Dict<string, DeviceDescription>, adapters: map<string, DeviceAdapter>): ((string, DeviceDescription)) -> bool
  {
    (e: (string, DeviceDescription)) => FieldsFor(devices, adapters, e).Some?
  }

  function Make(devices: Dict<string, DeviceDescription>, adapters: map<string, DeviceAdapter>): ((string, DeviceDescription)) -> Light
  {
    (e: (string, DeviceDescription)) =>
      LightOf(e.1, if FieldsFor(devices, adapters, e).Some? then FieldsFor(devices, adapters, e).value else LightFields(None, None, None))
  }

  /** `async_setup_entry`: one light per registry entry whose adapter yields
      light fields, in registry order. */
  function Lights(devices: Dict<string, DeviceDescription>, adapters: map<string, DeviceAdapter>): seq<Light>
  {
    FilterMap(devices, Keep(devices, adapters), Make(devices, adapters))
  }

  /** Every light is built from the fields found for one registry entry, and
      every entry with fields gives its light, whose on/off field is the one
      found. */
  lemma LightsSpec(devices: Dict<string, DeviceDescription>, adapters: map<string, DeviceAdapter>)
    ensures forall l :: l in Lights(devices, adapters) <==>
      exists i :: 0 <= i < |devices| && FieldsFor(devices, adapters, devices[i]).Some? &&
        l == LightOf(devices[i].1, FieldsFor(devices, adapters, devices[i]).value)
    ensures forall i :: 0 <= i < |devices| && FieldsFor(devices, adapters, devices[i]).Some? ==>
      Some(LightOf(devices[i].1, FieldsFor(devices, adapters, devices[i]).value).onOff) == FieldsFor(devices, adapters, devices[i]).value.onOff
  {
    FilterMapSpec(devices, Keep(devices, adapters), Make(devices, adapters));
  }

  method SetupLights(devices: Dict<string, DeviceDescription>, adapters: map<string, DeviceAdapter>) returns (lights: seq<Light>)
    ensures lights == Lights(devices, adapters)
  {
    lights := [];
    var i := 0;
    while i < |devices|
      invariant 0 <= i <= |devices|
      invariant lights == FilterMap(devices[..i], Keep(devices, adapters), Make(devices, adapters))
    {
      assert devices[..i + 1][..i] == devices[..i];
      assert devices[..i + 1][i] == devices[i];
      var fields := FindLightFields(Coordinator.AdapterFor(devices, adapters, devices[i].0));
      if fields.Some? {
        lights := lights + [LightOf(devices[i].1, fields.value)];
      }
      i := i + 1;
    }
    assert devices[..|devices|] == devices;
  }

  /** The colour mode: colour temperature when that field exists, else
      brightness when that one does, else on/off. */
  function Mode(l: Light): (m: ColorMode)
    ensures m == ColorTemp <==> l.colorTemp.Some?
    ensures m == Brightness <==> l.colorTemp.None? && l.brightness.Some?
    ensures m == OnOff <==> l.colorTemp.None? && l.brightness.None?
  {
    if l.colorTemp.Some? then ColorTemp else if l.brightness.Some? then Brightness else OnOff
  }

  /** `_brightness_param` and `_color_temp_param`: the parameter at the
      field, when the device has an adapter and the light has that field. */
  function FieldParam(adapter: Option<DeviceAdapter>, field: Option<int>): Option<AdapterParam>
  {
    if adapter.Some? && field.Some? then ParamByAddress(adapter.value, field.value) else None
  }

  // ------------------------------------------------------------ conversions

  /** What can go wrong: `int()` or arithmetic on a value that is not a
      number, a `convert` that is not a dict, the conversion program failing,
      or the `AttributeError` of calling `_apply_conversion`, which this
      platform's entity base class does not define. */
  datatype LightError = NotANumber | Conversion(e: Entity.ConvError) | NoApplyConversion

  /** Python's `int(x)` on a number or a string of digits. */
  function IntCall(v: Json): (r: Result<int, LightError>)
    ensures NumOf(v).Some? ==> r == Ok(Trunc(NumOf(v).value))
    ensures v.JStr? ==> (r.Ok? <==> ParseInt(v.s).Some?)
    ensures r.Ok? ==> NumOf(v).Some? || v.JStr?
  {
    if NumOf(v).Some? then Ok(Trunc(NumOf(v).value))
    else if v.JStr? && ParseInt(v.s).Some? then Ok(ParseInt(v.s).value)
    else Err(NotANumber)
  }

  /** `self._apply_conversion(value, program)` as the code calls it: the base
      class has no such method. */
  function AsWritten(): (Json, Json) -> Result<Json, LightError>
  {
    (value: Json, program: Json) => Err(NoApplyConversion)
  }

  /** Running the program, as the other platforms' base class does. */
  function RunProgram(value: Json, program: Json): Result<Json, LightError>
  {
    match Entity.Conversion(value, program)
    case Err(e) => Err(Conversion(e))
    case Ok(v) => Ok(v)
  }

  function Corrected(): (Json, Json) -> Result<Json, LightError>
  {
    (value: Json, program: Json) => RunProgram(value, program)
  }

  /** `if param and param.convert: program = param.convert.get(key); if
      program: value = apply(value, program)`. */
  function Converted(apply: (Json, Json) -> Result<Json, LightError>, param: Option<AdapterParam>, key: string, value: Json): Result<Json, LightError>
  {
    match Entity.ConversionProgram(param, key)
    case Err(e) => Err(Conversion(e))
    case Ok(program) => if Truthy(program) then apply(value, program) else Ok(value)
  }

  /** The parameter has a truthy program under `key`. */
  predicate HasProgram(param: Option<AdapterParam>, key: string)
  {
    Entity.ConversionProgram(param, key).Ok? && Truthy(Entity.ConversionProgram(param, key).value)
  }

  /** The parameter's `convert` is usable and holds no truthy program under
      `key`: the value passes unchanged. */
  predicate PlainValue(param: Option<AdapterParam>, key: string)
  {
    Entity.ConversionProgram(param, key).Ok? && !Truthy(Entity.ConversionProgram(param, key).value)
  }

  /** Without a program the missing method is never reached, and the code as
      written agrees with the intended one. */
  lemma ConvertedAgree(param: Option<AdapterParam>, key: string, value: Json)
    requires !HasProgram(param, key)
    ensures Converted(AsWritten(), param, key, value) == Converted(Corrected(), param, key, value)
    ensures Entity.ConversionProgram(param, key).Ok? ==> Converted(Corrected(), param, key, value) == Ok(value)
  {
  }

  // ------------------------------------------------------------ state

  /** `is_on` reads the raw value: this platform's base class applies no
      conversion. */
  function LightIsOn(data: map<string, DeviceState>, l: Light): (r: Option<bool>)
    ensures r.None? <==> Entity.RawStateValue(data, l.deviceId, l.onOff) == JNull
    ensures r.Some? ==> (r.value <==> Truthy(Entity.RawStateValue(data, l.deviceId, l.onOff)))
  {
    IsOn(Entity.RawStateValue(data, l.deviceId, l.onOff))
  }

  /** The raw value of an optional field, `None` when the light has no such
      field or there is no value. */
  function FieldValue(data: map<string, DeviceState>, deviceId: string, field: Option<int>): Option<Json>
  {
    if field.None? || deviceId !in data then None
    else
      match Get(data[deviceId].properties, field.value)
      case None => None
      case Some(prop) => Some(prop.value)
  }

  /** `brightness`: the converted value scaled from a percentage to 0..255. */
  function ReadBrightnessWith(apply: (Json, Json) -> Result<Json, LightError>, data: map<string, DeviceState>, l: Light, param: Option<AdapterParam>): Result<Option<int>, LightError>
  {
    match FieldValue(data, l.deviceId, l.brightness)
    case None => Ok(None)
    case Some(raw) =>
      match Converted(apply, param, "conversion", raw)
      case Err(e) => Err(e)
      case Ok(v) => if NumOf(v).Some? then Ok(Some(ToHa(NumOf(v).value))) else Err(NotANumber)
  }

  /** `color_temp`: `int()` of the converted value. */
  function ReadColorTempWith(apply: (Json, Json) -> Result<Json, LightError>, data: map<string, DeviceState>, l: Light, param: Option<AdapterParam>): Result<Option<int>, LightError>
  {
    match FieldValue(data, l.deviceId, l.colorTemp)
    case None => Ok(None)
    case Some(raw) =>
      match Converted(apply, param, "conversion", raw)
      case Err(e) => Err(e)
      case Ok(v) =>
        match IntCall(v)
        case Err(e) => Err(e)
        case Ok(n) => Ok(Some(n))
  }

  /** The brightness the model uses, with the program run. */
  function ReadBrightness(data: map<string, DeviceState>, l: Light, param: Option<AdapterParam>): (r: Result<Option<int>, LightError>)
    ensures FieldValue(data, l.deviceId, l.brightness).None? ==> r == Ok(None)
    ensures FieldValue(data, l.deviceId, l.brightness).Some? && PlainValue(param, "conversion") ==>
      var raw := FieldValue(data, l.deviceId, l.brightness).value;
      r == if NumOf(raw).Some? then Ok(Some(ToHa(NumOf(raw).value))) else Err(NotANumber)
    ensures FieldValue(data, l.deviceId, l.brightness).Some? && HasProgram(param, "conversion") ==>
      var raw := FieldValue(data, l.deviceId, l.brightness).value;
      r == match Entity.Conversion(raw, Entity.ConversionProgram(param, "conversion").value)
           case Err(e) => Err(Conversion(e))
           case Ok(v) => if NumOf(v).Some? then Ok(Some(ToHa(NumOf(v).value))) else Err(NotANumber)
    ensures FieldValue(data, l.deviceId, l.brightness).Some? && Entity.ConversionProgram(param, "conversion").Err? ==>
      r == Err(Conversion(Entity.ConversionProgram(param, "conversion").error))
    ensures r != Err(NoApplyConversion)
  {
    ReadBrightnessWith(Corrected(), data, l, param)
  }

  /** The colour temperature the model uses, with the program run. */
  function ReadColorTemp(data: map<string, DeviceState>, l: Light, param: Option<AdapterParam>): (r: Result<Option<int>, LightError>)
    ensures FieldValue(data, l.deviceId, l.colorTemp).None? ==> r == Ok(None)
    ensures FieldValue(data, l.deviceId, l.colorTemp).Some? && PlainValue(param, "conversion") ==>
      var raw := FieldValue(data, l.deviceId, l.colorTemp).value;
      r == match IntCall(raw) case Err(e) => Err(e) case Ok(n) => Ok(Some(n))
    ensures FieldValue(data, l.deviceId, l.colorTemp).Some? && HasProgram(param, "conversion") ==>
      var raw := FieldValue(data, l.deviceId, l.colorTemp).value;
      r == match Entity.Conversion(raw, Entity.ConversionProgram(param, "conversion").value)
           case Err(e) => Err(Conversion(e))
           case Ok(v) => match IntCall(v) case Err(e) => Err(e) case Ok(n) => Ok(Some(n))
    ensures FieldValue(data, l.deviceId, l.colorTemp).Some? && Entity.ConversionProgram(param, "conversion").Err? ==>
      r == Err(Conversion(Entity.ConversionProgram(param, "conversion").error))
    ensures r != Err(NoApplyConversion)
  {
    ReadColorTempWith(Corrected(), data, l, param)
  }

  /** `min_mireds` and `max_mireds`: `int()` of each truthy bound. */
  function MiredBound(v: Json): (r: Result<Option<int>, LightError>)
    ensures !Truthy(v) ==> r == Ok(None)
    ensures Truthy(v) ==> (r.Ok? <==> IntCall(v).Ok?)
    ensures Truthy(v) && r.Ok? ==> r.value == Some(IntCall(v).value)
  {
    if !Truthy(v) then Ok(None)
    else
      match IntCall(v)
      case Err(e) => Err(e)
      case Ok(n) => Ok(Some(n))
  }

  // ------------------------------------------------------------ commands

  /** What a command sent: the writes in order, and the error that stopped
      it, if any. */
  datatype Sent = Sent(writes: seq<Write>, failure: Option<LightError>)

  /** One optional write: none unless both the field and the value are
      given; else `int()` of the value after the field's inversion program. */
  function CommandWrite(apply: (Json, Json) -> Result<Json, LightError>, param: Option<AdapterParam>, deviceId: string,
                        field: Option<int>, value: Option<int>): Result<seq<Write>, LightError>
  {
    if field.None? || value.None? then Ok([])
    else
      match Converted(apply, param, "inversion", JInt(value.value))
      case Err(e) => Err(e)
      case Ok(v) =>
        match IntCall(v)
        case Err(e) => Err(e)
        case Ok(n) => Ok([Write(deviceId, field.value, JInt(n))])
  }

  /** `async_turn_on`: the colour temperature, then the brightness scaled to
      a percentage, then `True` to the on/off field, unconverted; an error
      stops the rest. */
  function TurnOnWith(apply: (Json, Json) -> Result<Json, LightError>, l: Light, brightnessParam: Option<AdapterParam>,
                      colorTempParam: Option<AdapterParam>, colorTemp: Option<int>, brightness: Option<int>): Sent
  {
    var percent := if brightness.Some? then Some(ToDevice(brightness.value)) else None;
    match CommandWrite(apply, colorTempParam, l.deviceId, l.colorTemp, colorTemp)
    case Err(e) => Sent([], Some(e))
    case Ok(w1) =>
      match CommandWrite(apply, brightnessParam, l.deviceId, l.brightness, percent)
      case Err(e) => Sent(w1, Some(e))
      case Ok(w2) => Sent(w1 + w2 + [Write(l.deviceId, l.onOff, JBool(true))], None)
  }

  /** The turn-on command the model uses, with the programs run. */
  function TurnOn(l: Light, brightnessParam: Option<AdapterParam>, colorTempParam: Option<AdapterParam>,
                  colorTemp: Option<int>, brightness: Option<int>): (s: Sent)
    ensures s.failure != Some(NoApplyConversion)
    ensures s.failure.None? ==> |s.writes| >= 1 && s.writes[|s.writes| - 1] == Write(l.deviceId, l.onOff, JBool(true))
  {
    TurnOnWith(Corrected(), l, brightnessParam, colorTempParam, colorTemp, brightness)
  }

  /** `async_turn_off`: `False` to the on/off field, unconverted. */
  function TurnOff(l: Light): Write
  {
    Write(l.deviceId, l.onOff, JBool(false))
  }

  /** Without programs, turning on with both values writes the colour
      temperature, the percentage and then on, in that order. */
  lemma TurnOnOrder(l: Light, brightnessParam: Option<AdapterParam>, colorTempParam: Option<AdapterParam>, ct: int, b: int)
    requires l.colorTemp.Some? && l.brightness.Some?
    requires PlainValue(brightnessParam, "inversion") && PlainValue(colorTempParam, "inversion")
    ensures TurnOn(l, brightnessParam, colorTempParam, Some(ct), Some(b)) ==
      Sent([Write(l.deviceId, l.colorTemp.value, JInt(ct)), Write(l.deviceId, l.brightness.value, JInt(ToDevice(b))),
            Write(l.deviceId, l.onOff, JBool(true))], None)
  {
    TruncSpec(ct as real);
  }

  lemma CommandWriteAgrees(param: Option<AdapterParam>, deviceId: string, field: Option<int>, value: Option<int>)
    requires !HasProgram(param, "inversion")
    ensures CommandWrite(AsWritten(), param, deviceId, field, value) == CommandWrite(Corrected(), param, deviceId, field, value)
  {
    if field.Some? && value.Some? {
      ConvertedAgree(param, "inversion", JInt(value.value));
    }
  }

  /** Where no program is present, the code as written and the intended code
      send the same writes. */
  lemma TurnOnAgrees(l: Light, brightnessParam: Option<AdapterParam>, colorTempParam: Option<AdapterParam>,
                     colorTemp: Option<int>, brightness: Option<int>)
    requires !HasProgram(brightnessParam, "inversion") && !HasProgram(colorTempParam, "inversion")
    ensures TurnOnWith(AsWritten(), l, brightnessParam, colorTempParam, colorTemp, brightness) ==
      TurnOn(l, brightnessParam, colorTempParam, colorTemp, brightness)
  {
    var percent := if brightness.Some? then Some(ToDevice(brightness.value)) else None;
    CommandWriteAgrees(colorTempParam, l.deviceId, l.colorTemp, colorTemp);
    CommandWriteAgrees(brightnessParam, l.deviceId, l.brightness, percent);
  }

  // ------------------------------------------------------------ the missing method

  /** A brightness parameter whose values are tenths of a percent. */
  function TenthsParam(p: AdapterParam): AdapterParam
  {
    p.(convert := JObj([("conversion", Entity.ScaleProgram("/", 10.0)), ("inversion", Entity.ScaleProgram("*", 10.0))]))
  }

  /** As written, reading the brightness of such a parameter fails with the
      `AttributeError`, and so does turning the light on with a brightness:
      nothing is sent, not even the on command. */
  lemma AsWrittenBrightnessFails(data: map<string, DeviceState>, l: Light, p: AdapterParam, b: int)
    requires FieldValue(data, l.deviceId, l.brightness) == Some(JInt(1000))
    ensures ReadBrightnessWith(AsWritten(), data, l, Some(TenthsParam(p))) == Err(NoApplyConversion)
    ensures TurnOnWith(AsWritten(), l, Some(TenthsParam(p)), None, None, Some(b)) == Sent([], Some(NoApplyConversion))
  {
    var q := TenthsParam(p);
    assert Get(q.convert.fields, "conversion") == Some(Entity.ScaleProgram("/", 10.0));
    assert Get(q.convert.fields, "inversion") == Some(Entity.ScaleProgram("*", 10.0));
  }

  /** With the program run, the raw 1000 reads as 100 percent, that is full
      brightness. */
  lemma CorrectedBrightnessReads(data: map<string, DeviceState>, l: Light, p: AdapterParam)
    requires FieldValue(data, l.deviceId, l.brightness) == Some(JInt(1000))
    ensures ReadBrightness(data, l, Some(TenthsParam(p))) == Ok(Some(255))
  {
    var q := TenthsParam(p);
    assert Get(q.convert.fields, "conversion") == Some(Entity.ScaleProgram("/", 10.0));
    Entity.ScaleExamples(JInt(1000), 1000.0);
    assert ToHa(100.0) == 255;
  }

  /** With the program run, full brightness is written back as 1000, before
      the on command. */
  lemma CorrectedBrightnessWrites(l: Light, p: AdapterParam)
    requires l.brightness.Some?
    ensures TurnOn(l, Some(TenthsParam(p)), None, None, Some(255)) ==
      Sent([Write(l.deviceId, l.brightness.value, JInt(1000)), Write(l.deviceId, l.onOff, JBool(true))], None)
  {
    var q := TenthsParam(p);
    assert Get(q.convert.fields, "inversion") == Some(Entity.ScaleProgram("*", 10.0));
    assert ToDevice(255) == 100;
    Entity.RunScale(JInt(100), 100.0, "*", 10.0);
  }
}
