/** The hub's device data model (`api/models.py`): device descriptions,
    sparse states, packed field formats, user attributes and adapter
    parameter tables, with the decoders that build them from hub replies. */
module Models {
  import opened Wrappers
  import opened Dicts
  import opened JsonValues
  import opened Seqs
  import Constants

  datatype DecodeError =
    | NotAnObject
    | MissingKey(key: string)
    | BadIntegerKey(key: string)
    | UnsupportedValue(key: string)

  // ------------------------------------------------------------ properties

  /** One field's value as the hub reports it. */
  datatype PropertyValue = PropertyValue(value: Json, time: Json, ack: Json)

  /** `PropertyValue.from_dict`: `value` and `time` default to `None`, `ack`
      to `False`. */
  function PropertyValueFromDict(data: Dict<string, Json>): (p: PropertyValue)
    ensures Get(data, "value").None? ==> p.value == JNull
    ensures Get(data, "time").None? ==> p.time == JNull
    ensures Get(data, "ack").None? ==> p.ack == JBool(false)
    ensures Get(data, "value").Some? ==> p.value == Get(data, "value").value
    ensures Get(data, "time").Some? ==> p.time == Get(data, "time").value
    ensures Get(data, "ack").Some? ==> p.ack == Get(data, "ack").value
  {
    PropertyValue(GetOr(data, "value", JNull), GetOr(data, "time", JNull), GetOr(data, "ack", JBool(false)))
  }

  // ------------------------------------------------------------ devices

  datatype DeviceDescription = DeviceDescription(
    id: string,
    manufacturer: Json,
    model: Json,
    networkId: Json,
    driver: Option<string>,
    lastSeen: Json,
    lqi: Json,
    warning: Json,
    hasDescription: Json,
    attrCrc: Json,
    adapterCrc: Json,
    error: Json)

  /** `DeviceDescription.from_dict`: `id` is required, the other keys have
      defaults.  The model takes the id and the driver as strings; another
      JSON type there is reported as unsupported. */
  function DeviceFromDict(data: Json): (r: Result<DeviceDescription, DecodeError>)
    ensures !data.JObj? ==> r == Err(NotAnObject)
    ensures data.JObj? && Get(data.fields, "id").None? ==> r == Err(MissingKey("id"))
    ensures r.Ok? ==> Get(data.fields, "id") == Some(JStr(r.value.id))
    ensures r.Ok? && Get(data.fields, "mnf").None? ==> r.value.manufacturer == JStr("Unknown")
    ensures r.Ok? && Get(data.fields, "mdl").None? ==> r.value.model == JStr("Unknown")
    ensures r.Ok? && Get(data.fields, "netid").None? ==> r.value.networkId == JInt(0)
    ensures r.Ok? && Get(data.fields, "warn").None? ==> r.value.warning == JBool(false)
    ensures r.Ok? ==> (r.value.driver.Some? <==> Get(data.fields, "drv").Some? && Get(data.fields, "drv").value.JStr?)
  {
    if !data.JObj? then Err(NotAnObject)
    else
      var fs := data.fields;
      match Get(fs, "id")
      case None => Err(MissingKey("id"))
      case Some(idv) =>
        if !idv.JStr? then Err(UnsupportedValue("id"))
        else
          var drv := GetOr(fs, "drv", JNull);
          if !(drv.JNull? || drv.JStr?) then Err(UnsupportedValue("drv"))
          else Ok(DeviceDescription(
            idv.s,
            GetOr(fs, "mnf", JStr("Unknown")),
            GetOr(fs, "mdl", JStr("Unknown")),
            GetOr(fs, "netid", JInt(0)),
            if drv.JStr? then Some(drv.s) else None,
            GetOr(fs, "lse", JNull),
            GetOr(fs, "lqi", JNull),
            GetOr(fs, "warn", JBool(false)),
            GetOr(fs, "desc", JBool(false)),
            GetOr(fs, "attr", JNull),
            GetOr(fs, "adptr-crc", JNull),
            GetOr(fs, "error", JNull)))
  }

  /** The adapter-cache key of a device: its driver when that is truthy. */
  function DriverKey(d: DeviceDescription): (k: Option<string>)
    ensures k.Some? <==> d.driver.Some? && d.driver.value != ""
    ensures k.Some? ==> d.driver == k
  {
    if d.driver.Some? && d.driver.value != "" then d.driver else None
  }

  // ------------------------------------------------------------ sparse decoding

  /** Whether a `key, value` entry of a sparse hub object writes field `f`:
      the key is all digits naming `f` and `decode` accepts the value. */
  predicate Writes<V>(entry: (string, Json), decode: (int, Json) -> Option<V>, f: int)
  {
    IsDigits(entry.0) && DigitsValue(entry.0) == f && decode(f, entry.1).Some?
  }

  /** One turn of `for key, value in data.items(): if key.isdigit() and ...:
      d[int(key)] = ...`. */
  function SparseStep<V>(acc: Dict<int, V>, entry: (string, Json), decode: (int, Json) -> Option<V>): Dict<int, V>
  {
    if IsDigits(entry.0) && decode(DigitsValue(entry.0), entry.1).Some? then
      Put(acc, DigitsValue(entry.0), decode(DigitsValue(entry.0), entry.1).value)
    else acc
  }

  /** The whole loop, run over `entries` starting from `into`. */
  function SparseFold<V>(entries: Dict<string, Json>, into: Dict<int, V>, decode: (int, Json) -> Option<V>): Dict<int, V>
  {
    if entries == [] then into
    else SparseStep(SparseFold(entries[..|entries| - 1], into, decode), entries[|entries| - 1], decode)
  }

  /** Reference definition: the decoded value of the last entry writing `f`. */
  function LastWrite<V>(entries: Dict<string, Json>, decode: (int, Json) -> Option<V>, f: int): Option<V>
  {
    if entries == [] then None
    else if Writes(entries[|entries| - 1], decode, f) then decode(f, entries[|entries| - 1].1)
    else LastWrite(entries[..|entries| - 1], decode, f)
  }

  lemma {:induction false} LastWriteSome<V>(entries: Dict<string, Json>, decode: (int, Json) -> Option<V>, f: int)
    ensures LastWrite(entries, decode, f).Some? <==> exists i :: 0 <= i < |entries| && Writes(entries[i], decode, f)
  {
    if entries != [] {
      var init := entries[..|entries| - 1];
      LastWriteSome(init, decode, f);
      if exists i :: 0 <= i < |init| && Writes(init[i], decode, f) {
        var i :| 0 <= i < |init| && Writes(init[i], decode, f);
        assert entries[i] == init[i];
      }
      if exists i :: 0 <= i < |entries| && Writes(entries[i], decode, f) {
        var i :| 0 <= i < |entries| && Writes(entries[i], decode, f);
        if i < |init| { assert init[i] == entries[i]; }
      }
    }
  }

  /** After the loop, field `f` holds the last written value, or what it held
      before when no entry writes it. */
  lemma {:induction false} SparseFoldGet<V>(entries: Dict<string, Json>, into: Dict<int, V>, decode: (int, Json) -> Option<V>, f: int)
    ensures Get(SparseFold(entries, into, decode), f) ==
      if LastWrite(entries, decode, f).Some? then LastWrite(entries, decode, f) else Get(into, f)
  {
    if entries != [] {
      var init := entries[..|entries| - 1];
      var e := entries[|entries| - 1];
      SparseFoldGet(init, into, decode, f);
      if IsDigits(e.0) && decode(DigitsValue(e.0), e.1).Some? {
        GetPut(SparseFold(init, into, decode), DigitsValue(e.0), decode(DigitsValue(e.0), e.1).value, f);
      }
    }
  }

  /** The loop adds exactly the fields some entry writes. */
  lemma {:induction false} SparseFoldKeys<V>(entries: Dict<string, Json>, into: Dict<int, V>, decode: (int, Json) -> Option<V>, f: int)
    ensures f in KeySet(SparseFold(entries, into, decode)) <==>
      f in KeySet(into) || exists i :: 0 <= i < |entries| && Writes(entries[i], decode, f)
  {
    SparseFoldGet(entries, into, decode, f);
    LastWriteSome(entries, decode, f);
    GetIn(SparseFold(entries, into, decode), f);
    GetIn(into, f);
  }

  lemma {:induction false} SparseFoldDistinct<V>(entries: Dict<string, Json>, into: Dict<int, V>, decode: (int, Json) -> Option<V>)
    requires DistinctKeys(into)
    ensures DistinctKeys(SparseFold(entries, into, decode))
  {
    if entries != [] {
      var init := entries[..|entries| - 1];
      var e := entries[|entries| - 1];
      SparseFoldDistinct(init, into, decode);
      if IsDigits(e.0) && decode(DigitsValue(e.0), e.1).Some? {
        PutDistinct(SparseFold(init, into, decode), DigitsValue(e.0), decode(DigitsValue(e.0), e.1).value);
      }
    }
  }

  lemma {:induction false} SparseFoldConcat<V>(a: Dict<string, Json>, b: Dict<string, Json>, into: Dict<int, V>, decode: (int, Json) -> Option<V>)
    ensures SparseFold(a + b, into, decode) == SparseFold(b, SparseFold(a, into, decode), decode)
  {
    if b == [] {
      assert a + b == a;
    } else {
      assert (a + b)[..|a + b| - 1] == a + b[..|b| - 1];
      SparseFoldConcat(a, b[..|b| - 1], into, decode);
    }
  }

  /** Dropping a key that is not all digits first (the `pop("adptr-crc")`)
      does not change what the loop builds. */
  lemma {:induction false} SparseFoldRemove<V>(entries: Dict<string, Json>, k: string, into: Dict<int, V>, decode: (int, Json) -> Option<V>)
    requires !IsDigits(k)
    ensures SparseFold(Remove(entries, k), into, decode) == SparseFold(entries, into, decode)
  {
    if entries != [] {
      var x := entries[0];
      var t := entries[1..];
      assert entries == [x] + t;
      assert SparseFold([x], into, decode) == SparseStep(into, x, decode) by {
        assert [x][..0] == [];
      }
      SparseFoldConcat([x], t, into, decode);
      if x.0 == k {
        SparseFoldRemove(t, k, into, decode);
      } else {
        SparseFoldRemove(t, k, SparseStep(into, x, decode), decode);
        SparseFoldConcat([x], Remove(t, k), into, decode);
      }
    }
  }

  /** The loop form of `SparseFold`: the properties dict filled in place. */
  method SparseMerge<V>(entries: Dict<string, Json>, into: Dict<int, V>, decode: (int, Json) -> Option<V>) returns (out: Dict<int, V>)
    ensures out == SparseFold(entries, into, decode)
  {
    out := into;
    var i := 0;
    while i < |entries|
      invariant 0 <= i <= |entries|
      invariant out == SparseFold(entries[..i], into, decode)
    {
      assert entries[..i + 1][..i] == entries[..i];
      var key := entries[i].0;
      var value := entries[i].1;
      if IsDigits(key) && decode(DigitsValue(key), value).Some? {
        out := Put(out, DigitsValue(key), decode(DigitsValue(key), value).value);
      }
      i := i + 1;
    }
    assert entries[..|entries|] == entries;
  }

  // ------------------------------------------------------------ states

  datatype DeviceState = DeviceState(deviceId: string, properties: Dict<int, PropertyValue>, adapterCrc: Json)

  /** A state entry is accepted when its value is a dict. */
  function PropertyEntry(f: int, j: Json): Option<PropertyValue>
  {
    if j.JObj? then Some(PropertyValueFromDict(j.fields)) else None
  }

  /** `state.properties[int(key)] = PropertyValue.from_dict(value)` for every
      all-digit, dict-valued key of `props`. */
  function MergeProps(props: Dict<string, Json>, into: Dict<int, PropertyValue>): Dict<int, PropertyValue>
  {
    SparseFold(props, into, PropertyEntry)
  }

  /** A merge replaces exactly the fields named by all-digit, dict-valued
      keys (the last such key wins) and keeps every other field. */
  lemma MergePropsGet(props: Dict<string, Json>, into: Dict<int, PropertyValue>, f: int)
    ensures (exists i :: 0 <= i < |props| && Writes(props[i], PropertyEntry, f)) ==>
      Get(MergeProps(props, into), f) == LastWrite(props, PropertyEntry, f)
    ensures (forall i :: 0 <= i < |props| ==> !Writes(props[i], PropertyEntry, f)) ==>
      Get(MergeProps(props, into), f) == Get(into, f)
  {
    SparseFoldGet(props, into, PropertyEntry, f);
    LastWriteSome(props, PropertyEntry, f);
  }

  /** `DeviceState.from_dict`. */
  function DeviceStateFromDict(deviceId: string, data: Json): (s: DeviceState)
    ensures s.deviceId == deviceId
    ensures !data.JObj? ==> s.properties == [] && s.adapterCrc == JNull
    ensures data.JObj? ==> s.adapterCrc == GetOr(data.fields, "adptr-crc", JNull)
  {
    if !data.JObj? then DeviceState(deviceId, [], JNull)
    else DeviceState(deviceId, MergeProps(Remove(data.fields, "adptr-crc"), []), GetOr(data.fields, "adptr-crc", JNull))
  }

  /** The properties of a decoded state are exactly the all-digit keys whose
      values are dicts, each holding its last such entry; `adptr-crc` is never
      a property. */
  lemma DeviceStateProperties(deviceId: string, fields: Dict<string, Json>, f: int)
    ensures var s := DeviceStateFromDict(deviceId, JObj(fields));
      && (f in KeySet(s.properties) <==> exists i :: 0 <= i < |fields| && Writes(fields[i], PropertyEntry, f))
      && Get(s.properties, f) == LastWrite(fields, PropertyEntry, f)
      && DistinctKeys(s.properties)
  {
    assert !IsDigits("adptr-crc") by { assert !IsDigit("adptr-crc"[0]); }
    SparseFoldRemove(fields, "adptr-crc", [], PropertyEntry);
    SparseFoldKeys(fields, [], PropertyEntry, f);
    SparseFoldGet(fields, [], PropertyEntry, f);
    SparseFoldDistinct(fields, [], PropertyEntry);
  }

  /** The loop form of `DeviceState.from_dict`. */
  method DecodeState(deviceId: string, data: Json) returns (s: DeviceState)
    ensures s == DeviceStateFromDict(deviceId, data)
  {
    if !data.JObj? {
      return DeviceState(deviceId, [], JNull);
    }
    var rest := Remove(data.fields, "adptr-crc");
    var crc := GetOr(data.fields, "adptr-crc", JNull);
    var properties := SparseMerge(rest, [], PropertyEntry);
    s := DeviceState(deviceId, properties, crc);
  }

  // ------------------------------------------------------------ formats

  /** A field's format: data type, access and category, one byte each. */
  datatype FieldFormat = FieldFormat(fieldId: int, dataType: int, access: int, fieldType: int)

  /** `FieldFormat.from_raw`: byte 0, 1 and 2 of `raw`.  Python's `&` and `>>`
      on a negative integer act on its two's complement, which Euclidean
      `/` and `%` by a positive divisor reproduce. */
  function FieldFormatFromRaw(fieldId: int, raw: int): (f: FieldFormat)
    ensures f.fieldId == fieldId
    ensures 0 <= f.dataType < 0x100 && 0 <= f.access < 0x100 && 0 <= f.fieldType < 0x100
  {
    FieldFormat(fieldId, raw % 0x100, (raw / 0x100) % 0x100, (raw / 0x1_0000) % 0x100)
  }

  /** The packed integer the hub sends for a format. */
  function PackFormat(dataType: int, access: int, fieldType: int): int
  {
    dataType + 0x100 * access + 0x1_0000 * fieldType
  }

  /** Decoding a packed format gives back its three bytes. */
  lemma UnpackPack(fieldId: int, dataType: int, access: int, fieldType: int)
    requires 0 <= dataType < 0x100 && 0 <= access < 0x100 && 0 <= fieldType < 0x100
    ensures FieldFormatFromRaw(fieldId, PackFormat(dataType, access, fieldType)) == FieldFormat(fieldId, dataType, access, fieldType)
  {
    var raw := PackFormat(dataType, access, fieldType);
    assert raw / 0x100 == access + 0x100 * fieldType;
    assert raw / 0x1_0000 == fieldType;
  }

  /** Every 24-bit raw value is the packing of its three decoded bytes. */
  lemma PackUnpack(fieldId: int, raw: int)
    requires 0 <= raw < 0x100_0000
    ensures var f := FieldFormatFromRaw(fieldId, raw); PackFormat(f.dataType, f.access, f.fieldType) == raw
  {
    var q := raw / 0x100;
    assert raw == raw % 0x100 + 0x100 * q;
    assert q == q % 0x100 + 0x100 * (q / 0x100);
    assert q / 0x100 == raw / 0x1_0000;
    assert raw / 0x1_0000 < 0x100;
  }

  /** Adding a multiple of a byte shifts the quotient and keeps the
      remainder. */
  lemma ShiftByte(x: int, k: int)
    ensures (x + 0x100 * k) / 0x100 == x / 0x100 + k
    ensures (x + 0x100 * k) % 0x100 == x % 0x100
  {
  }

  lemma ShiftTwoBytes(x: int, k: int)
    ensures (x + 0x1_0000 * k) / 0x1_0000 == x / 0x1_0000 + k
  {
  }

  /** Bits above the third byte are ignored. */
  lemma FromRawIgnoresHighBits(fieldId: int, raw: int, k: int)
    ensures FieldFormatFromRaw(fieldId, raw + 0x100_0000 * k) == FieldFormatFromRaw(fieldId, raw)
  {
    var r2 := raw + 0x100_0000 * k;
    assert r2 == raw + 0x100 * (0x1_0000 * k);
    ShiftByte(raw, 0x1_0000 * k);
    assert r2 / 0x100 == raw / 0x100 + 0x100 * (0x100 * k);
    ShiftByte(raw / 0x100, 0x100 * k);
    assert r2 == raw + 0x1_0000 * (0x100 * k);
    ShiftTwoBytes(raw, 0x100 * k);
    ShiftByte(raw / 0x1_0000, k);
  }

  lemma FromRawExamples()
    ensures FieldFormatFromRaw(3, 0x000105) == FieldFormat(3, 5, 1, 0)
    ensures FieldFormatFromRaw(3, -1) == FieldFormat(3, 0xFF, 0xFF, 0xFF)
  {
  }

  /** `is_read_only`. */
  predicate IsReadOnly(f: FieldFormat) { f.access == 0 }

  /** `is_bool`. */
  predicate IsBool(f: FieldFormat) { f.dataType == Constants.DataTypeBool }

  /** `is_numeric`: every type up to and including float, bool too. */
  predicate IsNumeric(f: FieldFormat) { f.dataType <= Constants.DataTypeFloat }

  /** On a packed format the predicates read the access and data-type bytes. */
  lemma FormatPredicates(fieldId: int, dataType: int, access: int, fieldType: int)
    requires 0 <= dataType < 0x100 && 0 <= access < 0x100 && 0 <= fieldType < 0x100
    ensures var f := FieldFormatFromRaw(fieldId, PackFormat(dataType, access, fieldType));
      && (IsReadOnly(f) <==> access == 0)
      && (IsBool(f) <==> dataType == 0)
      && (IsNumeric(f) <==> dataType <= 7)
      && (IsBool(f) ==> IsNumeric(f))
  {
    UnpackPack(fieldId, dataType, access, fieldType);
  }

  datatype DeviceFormat = DeviceFormat(deviceId: string, fields: Dict<int, FieldFormat>)

  /** A format entry is accepted when `isinstance(value, int)`, which bools
      pass too. */
  function FormatEntry(f: int, j: Json): Option<FieldFormat>
  {
    if IntOf(j).Some? then Some(FieldFormatFromRaw(f, IntOf(j).value)) else None
  }

  /** `DeviceFormat.from_dict`. */
  function DeviceFormatFromDict(deviceId: string, data: Json): (d: DeviceFormat)
    ensures d.deviceId == deviceId
    ensures !data.JObj? ==> d.fields == []
  {
    if !data.JObj? then DeviceFormat(deviceId, [])
    else DeviceFormat(deviceId, SparseFold(data.fields, [], FormatEntry))
  }

  /** A decoded format holds exactly the all-digit keys with integer values,
      each decoded by `from_raw` under its own field id from its last entry. */
  lemma DeviceFormatFields(deviceId: string, fields: Dict<string, Json>, f: int)
    ensures var d := DeviceFormatFromDict(deviceId, JObj(fields));
      && (f in KeySet(d.fields) <==> exists i :: 0 <= i < |fields| && Writes(fields[i], FormatEntry, f))
      && Get(d.fields, f) == LastWrite(fields, FormatEntry, f)
      && (Get(d.fields, f).Some? ==> Get(d.fields, f).value.fieldId == f)
      && DistinctKeys(d.fields)
  {
    SparseFoldKeys(fields, [], FormatEntry, f);
    SparseFoldGet(fields, [], FormatEntry, f);
    SparseFoldDistinct(fields, [], FormatEntry);
    LastWriteField(fields, f);
  }

  lemma {:induction false} LastWriteField(fields: Dict<string, Json>, f: int)
    ensures LastWrite(fields, FormatEntry, f).Some? ==> LastWrite(fields, FormatEntry, f).value.fieldId == f
  {
    if fields != [] {
      LastWriteField(fields[..|fields| - 1], f);
    }
  }

  /** The loop form of `DeviceFormat.from_dict`. */
  method DecodeFormat(deviceId: string, data: Json) returns (d: DeviceFormat)
    ensures d == DeviceFormatFromDict(deviceId, data)
  {
    if !data.JObj? {
      return DeviceFormat(deviceId, []);
    }
    var fields := SparseMerge(data.fields, [], FormatEntry);
    d := DeviceFormat(deviceId, fields);
  }

  // ------------------------------------------------------------ attributes

  /** User attributes: a name, tags and per-field visibility. */
  datatype DeviceAttributes = DeviceAttributes(name: Json, tags: Json, visibility: Dict<int, Json>)

  /** `visibility[int(k)] = v` over the `paramsVisibility` object. */
  function VisibilityFromDict(pv: Dict<string, Json>): Result<Dict<int, Json>, DecodeError>
  {
    if pv == [] then Ok([])
    else
      match VisibilityFromDict(pv[..|pv| - 1])
      case Err(e) => Err(e)
      case Ok(vis) =>
        match ParseInt(pv[|pv| - 1].0)
        case None => Err(BadIntegerKey(pv[|pv| - 1].0))
        case Some(k) => Ok(Put(vis, k, pv[|pv| - 1].1))
  }

  /** `DeviceAttributes.from_dict`; a key `int` rejects is the `ValueError`. */
  function AttributesFromDict(data: Json): (r: Result<DeviceAttributes, DecodeError>)
    ensures !data.JObj? ==> r == Ok(DeviceAttributes(JNull, JArr([]), []))
    ensures data.JObj? && !(Get(data.fields, "paramsVisibility").Some? && Get(data.fields, "paramsVisibility").value.JObj?) ==>
      r == Ok(DeviceAttributes(GetOr(data.fields, "name", JNull), GetOr(data.fields, "tags", JArr([])), []))
  {
    if !data.JObj? then Ok(DeviceAttributes(JNull, JArr([]), []))
    else
      var fs := data.fields;
      var pv := Get(fs, "paramsVisibility");
      var vis: Result<Dict<int, Json>, DecodeError> :=
        if pv.Some? && pv.value.JObj? then VisibilityFromDict(pv.value.fields) else Ok([]);
      match vis
      case Err(e) => Err(e)
      case Ok(v) => Ok(DeviceAttributes(GetOr(fs, "name", JNull), GetOr(fs, "tags", JArr([])), v))
  }

  /** `{str(k): v for k, v in params_visibility.items()}`. */
  function VisibilityToDict(vis: Dict<int, Json>): (d: Dict<string, Json>)
    ensures |d| == |vis|
    ensures forall i :: 0 <= i < |vis| ==> d[i] == (IntToString(vis[i].0), vis[i].1)
  {
    if vis == [] then [] else VisibilityToDict(vis[..|vis| - 1]) + [(IntToString(vis[|vis| - 1].0), vis[|vis| - 1].1)]
  }

  /** `DeviceAttributes.to_dict`. */
  function AttributesToDict(a: DeviceAttributes): (j: Json)
    ensures j.JObj? && Keys(j.fields) == ["name", "tags", "paramsVisibility"]
  {
    JObj([("name", a.name), ("tags", a.tags), ("paramsVisibility", JObj(VisibilityToDict(a.visibility)))])
  }

  lemma {:induction false} VisibilityRoundTrip(vis: Dict<int, Json>)
    requires DistinctKeys(vis)
    ensures VisibilityFromDict(VisibilityToDict(vis)) == Ok(vis)
  {
    if vis != [] {
      var init := vis[..|vis| - 1];
      var last := vis[|vis| - 1];
      assert DistinctKeys(init);
      VisibilityRoundTrip(init);
      var d := VisibilityToDict(vis);
      assert d[..|d| - 1] == VisibilityToDict(init);
      ParseIntRoundTrip(last.0);
      KeySetIndex(init, last.0);
      PutAbsent(init, last.0, last.1);
      assert init + [last] == vis;
    }
  }

  /** `from_dict(a.to_dict())` reproduces the attributes. */
  lemma AttributesRoundTrip(a: DeviceAttributes)
    requires DistinctKeys(a.visibility)
    ensures AttributesFromDict(AttributesToDict(a)) == Ok(a)
  {
    VisibilityRoundTrip(a.visibility);
    var fs := AttributesToDict(a).fields;
    assert Get(fs, "name") == Some(a.name);
    var pv := ("paramsVisibility", JObj(VisibilityToDict(a.visibility)));
    assert fs[1..] == [("tags", a.tags), pv];
    assert fs[1..][1..] == [pv];
    assert Get(fs, "tags") == Some(a.tags);
    assert Get(fs[1..][1..], "paramsVisibility") == Some(pv.1);
    assert Get(fs[1..], "paramsVisibility") == Some(pv.1);
    assert Get(fs, "paramsVisibility") == Some(pv.1);
  }

  /** The loop form of `DeviceAttributes.from_dict`. */
  method DecodeAttributes(data: Json) returns (r: Result<DeviceAttributes, DecodeError>)
    ensures r == AttributesFromDict(data)
  {
    if !data.JObj? {
      return Ok(DeviceAttributes(JNull, JArr([]), []));
    }
    var fs := data.fields;
    var visibility: Dict<int, Json> := [];
    var pvOpt := Get(fs, "paramsVisibility");
    if pvOpt.Some? && pvOpt.value.JObj? {
      var pv := pvOpt.value.fields;
      var i := 0;
      while i < |pv|
        invariant 0 <= i <= |pv|
        invariant VisibilityFromDict(pv[..i]) == Ok(visibility)
      {
        assert pv[..i + 1][..i] == pv[..i];
        var k := ParseInt(pv[i].0);
        if k.None? {
          assert pv[..i + 1][i] == pv[i];
          BadKeyPersists(pv, i + 1);
          assert pv[..|pv|] == pv;
          return Err(BadIntegerKey(pv[i].0));
        }
        visibility := Put(visibility, k.value, pv[i].1);
        i := i + 1;
      }
      assert pv[..|pv|] == pv;
    }
    r := Ok(DeviceAttributes(GetOr(fs, "name", JNull), GetOr(fs, "tags", JArr([])), visibility));
  }

  /** A rejected key stops the decode with the first error. */
  lemma {:induction false} BadKeyPersists(pv: Dict<string, Json>, n: nat)
    requires 0 < n <= |pv|
    requires VisibilityFromDict(pv[..n]).Err?
    ensures VisibilityFromDict(pv) == VisibilityFromDict(pv[..n])
    decreases |pv| - n
  {
    if n < |pv| {
      assert pv[..n + 1][..n] == pv[..n];
      BadKeyPersists(pv, n + 1);
    } else {
      assert pv[..n] == pv;
    }
  }

  // ------------------------------------------------------------ adapters

  /** One adapter parameter. */
  datatype AdapterParam = AdapterParam(
    address: int,
    access: string,
    paramType: string,
    name: Option<string>,
    description: Json,
    minValue: Json,
    maxValue: Json,
    labels: Dict<string, Json>,
    viewParams: Dict<string, Json>,
    convert: Json,
    ya: Json)

  /** How `AdapterParam.from_dict` ends on one list entry: a parameter; the
      `KeyError` the adapter loop skips; the `AttributeError` that escapes it;
      or a value outside what the model represents. */
  datatype ParamDecode = Decoded(param: AdapterParam) | Skipped | Aborted | Unsupported

  /** `labels`: a dict, or a falsy value that every use treats as no labels. */
  function LabelsOf(j: Json): Option<Dict<string, Json>>
  {
    if j.JObj? then Some(j.fields) else if !Truthy(j) then Some([]) else None
  }

  /** `view_params.get("name")`. */
  function NameOf(viewParams: Dict<string, Json>): Option<Option<string>>
  {
    var n := Get(viewParams, "name");
    if n.None? || n.value.JNull? then Some(None)
    else if n.value.JStr? then Some(Some(n.value.s))
    else None
  }

  /** `AdapterParam.from_dict`, evaluated in the source's order: `data.get`
      on a non-dict raises, then `data["address"]`, then
      `view_params.get("name")`. */
  function ParamFromDict(data: Json): (r: ParamDecode)
    ensures !data.JObj? ==> r == Aborted
    ensures data.JObj? ==> (r == Skipped <==> Get(data.fields, "address").None?)
    ensures data.JObj? && Get(data.fields, "address").Some? && !GetOr(data.fields, "viewParams", JObj([])).JObj? ==> r == Aborted
    ensures r.Decoded? ==> data.JObj? && Get(data.fields, "address") == Some(JInt(r.param.address))
    ensures r.Decoded? ==> GetOr(data.fields, "access", JStr("r")) == JStr(r.param.access)
    ensures r.Decoded? ==> GetOr(data.fields, "type", JStr("int")) == JStr(r.param.paramType)
    ensures r.Decoded? ==> JObj(r.param.viewParams) == GetOr(data.fields, "viewParams", JObj([]))
  {
    if !data.JObj? then Aborted
    else
      var fs := data.fields;
      var viewParams := GetOr(fs, "viewParams", JObj([]));
      match Get(fs, "address")
      case None => Skipped
      case Some(address) =>
        var access := GetOr(fs, "access", JStr("r"));
        var paramType := GetOr(fs, "type", JStr("int"));
        if !viewParams.JObj? then Aborted
        else
          var name := NameOf(viewParams.fields);
          var labels := LabelsOf(GetOr(fs, "labels", JObj([])));
          if address.JInt? && access.JStr? && paramType.JStr? && name.Some? && labels.Some? then
            Decoded(AdapterParam(
              address.i, access.s, paramType.s, name.value,
              GetOr(fs, "description", JNull), GetOr(fs, "min", JNull), GetOr(fs, "max", JNull),
              labels.value, viewParams.fields, GetOr(fs, "convert", JNull), GetOr(fs, "ya", JNull)))
          else Unsupported
  }

  /** Only `address` is required: access defaults to "r", type to "int", and
      there is no name. */
  lemma ParamDefaults(address: int)
    ensures ParamFromDict(JObj([("address", JInt(address))])) ==
      Decoded(AdapterParam(address, "r", "int", None, JNull, JNull, JNull, [], [], JNull, JNull))
  {
    var fs := [("address", JInt(address))];
    assert fs[1..] == [];
    assert forall k :: k != "address" ==> Get(fs, k).None?;
  }

  /** The name comes from `viewParams.name`. */
  lemma ParamName(fields: Dict<string, Json>, view: Dict<string, Json>, s: string)
    requires Get(fields, "viewParams") == Some(JObj(view))
    requires ParamFromDict(JObj(fields)).Decoded?
    ensures ParamFromDict(JObj(fields)).param.name == Some(s) <==> Get(view, "name") == Some(JStr(s))
  {
  }

  /** `is_readable`. */
  predicate IsReadable(p: AdapterParam) { Contains(p.access, "r") }

  /** `is_writable`. */
  predicate IsWritable(p: AdapterParam) { Contains(p.access, "w") }

  lemma AccessPredicates(p: AdapterParam)
    ensures IsReadable(p) <==> 'r' in p.access
    ensures IsWritable(p) <==> 'w' in p.access
  {
    ContainsChar(p.access, 'r');
    ContainsChar(p.access, 'w');
  }

  datatype DeviceAdapter = DeviceAdapter(
    driver: string,
    crc: Json,
    description: Json,
    deviceType: Json,
    url: Json,
    params: seq<AdapterParam>,
    yaDeviceType: Json,
    rawContent: Dict<string, Json>)

  datatype AdapterError =
    | ResponseNotAnObject
    | ContentNotJson
    | ContentNotAnObject
    | ParamsNotIterable
    | ParamNotAnObject
    | UnsupportedParam

  predicate IsDecoded(d: ParamDecode) { d.Decoded? }
  predicate ParamEntryOk(j: Json) { ParamFromDict(j).Decoded? || ParamFromDict(j).Skipped? }

  /** The `params` loop with its `except (KeyError, TypeError): continue`. */
  function ParamsFromList(items: seq<Json>): Result<seq<AdapterParam>, AdapterError>
  {
    if items == [] then Ok([])
    else
      match ParamsFromList(items[..|items| - 1])
      case Err(e) => Err(e)
      case Ok(ps) =>
        match ParamFromDict(items[|items| - 1])
        case Decoded(p) => Ok(ps + [p])
        case Skipped => Ok(ps)
        case Aborted => Err(ParamNotAnObject)
        case Unsupported => Err(UnsupportedParam)
  }

  function DecodedParam(j: Json): AdapterParam
  {
    if ParamFromDict(j).Decoded? then ParamFromDict(j).param
    else AdapterParam(0, "", "", None, JNull, JNull, JNull, [], [], JNull, JNull)
  }

  /** The loop succeeds exactly when every entry decodes or is skipped, and
      then keeps the decoded parameters in list order. */
  lemma {:induction false} ParamsFromListSpec(items: seq<Json>)
    ensures ParamsFromList(items).Ok? <==> forall i :: 0 <= i < |items| ==> ParamEntryOk(items[i])
    ensures ParamsFromList(items).Ok? ==>
      ParamsFromList(items).value == FilterMap(items, (j: Json) => ParamFromDict(j).Decoded?, DecodedParam)
  {
    if items != [] {
      var init := items[..|items| - 1];
      ParamsFromListSpec(init);
      if forall i :: 0 <= i < |items| ==> ParamEntryOk(items[i]) {
        assert forall i :: 0 <= i < |init| ==> init[i] == items[i];
      }
      if ParamsFromList(init).Err? {
        var i :| 0 <= i < |init| && !ParamEntryOk(init[i]);
        assert items[i] == init[i];
      }
    }
  }

  /** `DeviceAdapter.from_response`.  `parse` stands for `json.loads`
      (`None` is its `JSONDecodeError`); a missing `content` is the
      default `"{}"`, already parsed. */
  function AdapterFromResponse(driver: string, data: Json, parse: string -> Option<Json>): (r: Result<DeviceAdapter, AdapterError>)
    ensures !data.JObj? ==> r == Err(ResponseNotAnObject)
    ensures r.Ok? ==> r.value.driver == driver && r.value.crc == GetOr(data.fields, "crc", JInt(0))
    ensures data.JObj? && Get(data.fields, "content").None? ==>
      r == Ok(DeviceAdapter(driver, GetOr(data.fields, "crc", JInt(0)), JNull, JNull, JNull, [], JNull, []))
  {
    if !data.JObj? then Err(ResponseNotAnObject)
    else
      var crc := GetOr(data.fields, "crc", JInt(0));
      var raw := Get(data.fields, "content");
      var parsed: Option<Json> :=
        if raw.None? then Some(JObj([]))
        else if raw.value.JStr? then parse(raw.value.s)
        else Some(raw.value);
      match parsed
      case None => Err(ContentNotJson)
      case Some(content) =>
        if !content.JObj? then Err(ContentNotAnObject)
        else
          var cs := content.fields;
          match Iterate(GetOr(cs, "params", JArr([])))
          case None => Err(ParamsNotIterable)
          case Some(items) =>
            match ParamsFromList(items)
            case Err(e) => Err(e)
            case Ok(params) =>
              Ok(DeviceAdapter(driver, crc, GetOr(cs, "description", JNull), GetOr(cs, "type", JNull),
                GetOr(cs, "url", JNull), params, GetOr(cs, "ya", JNull), cs))
  }

  /** An entry without `address` is skipped and the others stay in order. */
  lemma SkipsAddresslessEntries(q: Dict<string, Json>, x: Json)
    requires Get(q, "address").None?
    requires ParamFromDict(x).Decoded?
    ensures ParamsFromList([JObj(q), x, JObj(q)]) == Ok([ParamFromDict(x).param])
  {
    var items := [JObj(q), x, JObj(q)];
    assert ParamFromDict(JObj(q)) == Skipped;
    assert ParamsFromList([JObj(q)]) == Ok([]) by {
      assert [JObj(q)][..0] == [];
    }
    var two := [JObj(q), x];
    assert two[..|two| - 1] == [JObj(q)];
    assert two[|two| - 1] == x;
    var p := ParamFromDict(x).param;
    assert ParamsFromList(two) == Ok([] + [p]);
    assert [] + [p] == [p];
    assert items[..|items| - 1] == two;
  }

  /** The loop form of `DeviceAdapter.from_response`. */
  method DecodeAdapter(driver: string, data: Json, parse: string -> Option<Json>) returns (r: Result<DeviceAdapter, AdapterError>)
    ensures r == AdapterFromResponse(driver, data, parse)
  {
    if !data.JObj? {
      return Err(ResponseNotAnObject);
    }
    var crc := GetOr(data.fields, "crc", JInt(0));
    var content: Json;
    match Get(data.fields, "content") {
      case None => content := JObj([]);
      case Some(c) =>
        if c.JStr? {
          var parsed := parse(c.s);
          if parsed.None? {
            return Err(ContentNotJson);
          }
          content := parsed.value;
        } else {
          content := c;
        }
    }
    if !content.JObj? {
      return Err(ContentNotAnObject);
    }
    var cs := content.fields;
    var items := Iterate(GetOr(cs, "params", JArr([])));
    if items.None? {
      return Err(ParamsNotIterable);
    }
    var xs := items.value;
    var params: seq<AdapterParam> := [];
    var i := 0;
    while i < |xs|
      invariant 0 <= i <= |xs|
      invariant ParamsFromList(xs[..i]) == Ok(params)
    {
      assert xs[..i + 1][..i] == xs[..i];
      assert xs[..i + 1][i] == xs[i];
      var d := ParamFromDict(xs[i]);
      if d.Aborted? || d.Unsupported? {
        ParamErrorPersists(xs, i + 1);
        assert xs[..|xs|] == xs;
        return if d.Aborted? then Err(ParamNotAnObject) else Err(UnsupportedParam);
      }
      if d.Decoded? {
        params := params + [d.param];
      }
      i := i + 1;
    }
    assert xs[..|xs|] == xs;
    r := Ok(DeviceAdapter(driver, crc, GetOr(cs, "description", JNull), GetOr(cs, "type", JNull),
      GetOr(cs, "url", JNull), params, GetOr(cs, "ya", JNull), cs));
  }

  lemma {:induction false} ParamErrorPersists(items: seq<Json>, n: nat)
    requires 0 < n <= |items|
    requires ParamsFromList(items[..n]).Err?
    ensures ParamsFromList(items) == ParamsFromList(items[..n])
    decreases |items| - n
  {
    if n < |items| {
      assert items[..n + 1][..n] == items[..n];
      ParamErrorPersists(items, n + 1);
    } else {
      assert items[..n] == items;
    }
  }

  // ------------------------------------------------------------ lookups

  function AddressTest(address: int): AdapterParam -> bool
  {
    (p: AdapterParam) => p.address == address
  }

  function NameTest(name: Option<string>): AdapterParam -> bool
  {
    (p: AdapterParam) => p.name == name
  }

  /** `get_param_by_address`. */
  function ParamByAddress(adapter: DeviceAdapter, address: int): Option<AdapterParam>
  {
    FirstWhere(adapter.params, AddressTest(address))
  }

  /** `get_param_by_name`; `None` as the name matches an unnamed parameter,
      as `param.name == name` does. */
  function ParamByName(adapter: DeviceAdapter, name: Option<string>): Option<AdapterParam>
  {
    FirstWhere(adapter.params, NameTest(name))
  }

  /** The lookup by address finds the first parameter in list order with
      that address, and nothing when none has it. */
  lemma ParamByAddressSpec(adapter: DeviceAdapter, address: int)
    ensures ParamByAddress(adapter, address).None? <==> forall i :: 0 <= i < |adapter.params| ==> adapter.params[i].address != address
    ensures ParamByAddress(adapter, address).Some? ==>
      exists i :: 0 <= i < |adapter.params| && adapter.params[i] == ParamByAddress(adapter, address).value &&
        adapter.params[i].address == address &&
        forall j :: 0 <= j < i ==> adapter.params[j].address != address
  {
    FirstWhereSpec(adapter.params, AddressTest(address));
  }

  /** The lookup by name finds the first parameter in list order with that
      name, and nothing when none has it. */
  lemma ParamByNameSpec(adapter: DeviceAdapter, name: Option<string>)
    ensures ParamByName(adapter, name).None? <==> forall i :: 0 <= i < |adapter.params| ==> adapter.params[i].name != name
    ensures ParamByName(adapter, name).Some? ==>
      exists i :: 0 <= i < |adapter.params| && adapter.params[i] == ParamByName(adapter, name).value &&
        adapter.params[i].name == name &&
        forall j :: 0 <= j < i ==> adapter.params[j].name != name
  {
    FirstWhereSpec(adapter.params, NameTest(name));
  }

  /** The loop form of `get_param_by_address`. */
  method GetParamByAddress(adapter: DeviceAdapter, address: int) returns (r: Option<AdapterParam>)
    ensures r == ParamByAddress(adapter, address)
  {
    r := FindFirst(adapter.params, AddressTest(address));
  }

  /** The loop form of `get_param_by_name`. */
  method GetParamByName(adapter: DeviceAdapter, name: Option<string>) returns (r: Option<AdapterParam>)
    ensures r == ParamByName(adapter, name)
  {
    r := FindFirst(adapter.params, NameTest(name));
  }

  // ------------------------------------------------------------ writes

  /** A `set_state(device_id, field, value)` request to the hub. */
  datatype Write = Write(deviceId: string, fieldId: int, value: Json)
}
