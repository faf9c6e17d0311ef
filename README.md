# Pushok Hub integration: a verified model

A Dafny model of the core of the Pushok Hub integration for Home Assistant and
of its MQTT bridge. The hub is a Zigbee gateway that speaks JSON over a
WebSocket. The model covers:

- **Hub data models**:
  - Device descriptions, device states and their sparse property tables.
  - Field formats packed into three bytes.
  - Device attributes and their round trip through `to_dict`/`from_dict`.
  - Adapter parameters and their lookups.
- **The WebSocket client**:
  - The command frame and the table of pending commands.
  - The receive loop's dispatch of responses and broadcasts.
  - The handshake (public key, challenge, authenticate) with its
    registration fallback.
  - Connect and disconnect.
  - The decoders of the high-level API responses.
- **The coordinator**: the device registry, the object-update merge, the
  adapter cache filled while loading devices, the adapter lookup and the
  reconnect scheduling.
- **The entity base class**:
  - The stack (RPN) conversion program run on reads and the inversion
    program run on writes.
  - State reads and writes, units, unique ids and names.
- **The platforms**:
  - switch, number, binary_sensor and select.
  - The format-based light (`custom_components/.../light.py`).
  - The adapter-based light (`config/custom_components/.../light.py`).
- **The MQTT bridge**:
  - Device lookup by friendly name and field lookup by name.
  - State payloads with label display, and availability.
  - Home Assistant discovery classification.
  - `<base>/<name>/set` handling, object updates and device loading.

How the model represents the source:

- Values are a JSON datatype.
- Python dicts are insertion-ordered association lists. An association list may repeat a key, which no dict from `json.loads` does. `JsonValues.WellFormed` names the values `json.loads` can build. On those values, `Get`, which reads a key's first entry, and the digit-key decoders, which read its last, see the same entry (`Dicts.GetAt`).
- `Put` is Python assignment: it replaces in place, or appends a new key.
- Python truthiness and numeric equality across bool, int and float are
  written out.
- IEEE floats are reals.
- Objects whose fields the source updates (the client, the coordinator, the
  bridge, a select entity) are classes. Their methods state their whole new
  state.
- Loops are methods proved equal to a function. The function's properties
  are proved as lemmas.
- Sockets, timers, crypto, the hub's replies and `json.loads` become
  parameters or events:
  - an `Outcome` per handshake command;
  - a `Frame` per received message;
  - a `parse` function;
  - `load`/`fetch` functions for the per-device requests. `fetch(driver, n)` answers
    the `n`-th adapter request of a load, so a driver's failed request and a later
    successful one can both be expressed.

The model follows the code where a reader might expect otherwise:

- Registration is retried for as long as the hub accepts `addUser`, not
  once (`Client.RegistrationIsNotBounded`).
- The bridge writes an inbound `set` value unchanged, with no label lookup and
  no inversion (`Bridge.SetWritesSpec`).
- A switch entity exists only for a writable bool field at an address of at
  most 200, and never on a light device.
- The bridge's discovery is defined over a unit table. `PublishDiscovery`
  publishes with the table as the file writes it, so Celsius comes out as
  `Â°C`; the corrected table is the other instance (`Bridge.CelsiusDiscovered`).
- An exception in a broadcast handler ends the client's receive loop, and a
  set payload that is not a JSON object raises out of the bridge's MQTT loop;
  both handlers report it (`raised`).

## Model

| member | source | states |
|---|---|---|
| Models.PropertyValueFromDict | custom_components/pushok_hub/api/models.py:18-27 | missing `value` and `time` are `None`, missing `ack` is `False`; a present `value`, `time` or `ack` is kept as given |
| Models.DeviceFromDict | custom_components/pushok_hub/api/models.py:45-63 | a non-object or a missing `id` is an error; a decoded device carries the `id`; absent keys get the source's defaults ("Unknown", 0, False); a driver exactly when `drv` is a string |
| Models.DriverKey | config/custom_components/pushok_hub/coordinator.py:99-100 | a device has a cache key exactly when its driver is a non-empty string, and the key is that driver |
| Models.LastWriteSome | custom_components/pushok_hub/api/models.py:122-124 | a field has a last written value exactly when some entry writes it |
| Models.SparseFoldGet | custom_components/pushok_hub/api/models.py:122-124 | after the merge loop a field holds the last value written to it, or what it held before |
| Models.SparseFoldKeys | custom_components/pushok_hub/api/models.py:122-124 | the loop adds exactly the fields some entry writes |
| Models.SparseFoldDistinct | custom_components/pushok_hub/api/models.py:122-124 | the loop keeps the properties dict free of duplicate keys |
| Models.SparseFoldConcat | custom_components/pushok_hub/api/models.py:122-124 | merging `a + b` is merging `a`, then `b` |
| Models.SparseFoldRemove | custom_components/pushok_hub/api/models.py:119-124 | popping a key that is not all digits (`adptr-crc`) does not change the result |
| Models.SparseMerge | custom_components/pushok_hub/api/models.py:122-124 | the in-place loop computes the merge function |
| Models.MergePropsGet | custom_components/pushok_hub/api/models.py:122-124 | a merge replaces exactly the fields of all-digit, dict-valued keys (the last wins) and keeps the others |
| Models.DeviceStateFromDict | custom_components/pushok_hub/api/models.py:109-133 | the state carries the device id; a non-object gives no properties; the CRC is `adptr-crc` or `None` |
| Models.DeviceStateProperties | custom_components/pushok_hub/api/models.py:109-133 | the properties are exactly the all-digit, dict-valued keys, each with its last entry, without duplicates |
| Models.DecodeState | custom_components/pushok_hub/api/models.py:109-133 | the decode loop computes `DeviceState.from_dict` |
| Models.FieldFormatFromRaw | custom_components/pushok_hub/api/models.py:143-152 | the field id is kept and the three decoded parts are bytes |
| Models.UnpackPack | custom_components/pushok_hub/api/models.py:143-152 | decoding a packed format gives back its three bytes |
| Models.PackUnpack | custom_components/pushok_hub/api/models.py:143-152 | every 24-bit raw value is the packing of its decoded bytes |
| Models.ShiftByte | custom_components/pushok_hub/api/models.py:148-150 | adding a multiple of 256 shifts the quotient and keeps the low byte |
| Models.ShiftTwoBytes | custom_components/pushok_hub/api/models.py:148-150 | adding a multiple of 65536 shifts the quotient by as much |
| Models.FromRawIgnoresHighBits | custom_components/pushok_hub/api/models.py:143-152 | bits above the third byte do not change the decoded format |
| Models.FromRawExamples | custom_components/pushok_hub/api/models.py:143-152 | 0x000105 has type 5 and access 1; -1 decodes as 0xFF in each byte (two's complement) |
| Models.FormatPredicates | custom_components/pushok_hub/api/models.py:153-170 | read-only iff access is 0, bool iff type is 0, numeric iff type is at most 7; a bool is numeric |
| Models.DeviceFormatFromDict | custom_components/pushok_hub/api/models.py:178-194 | the format carries the device id; a non-object has no fields |
| Models.DeviceFormatFields | custom_components/pushok_hub/api/models.py:178-194 | the fields are exactly the all-digit, integer-valued keys, each decoded under its own id from its last entry |
| Models.LastWriteField | custom_components/pushok_hub/api/models.py:189-193 | a decoded field always carries the id of its key |
| Models.DecodeFormat | custom_components/pushok_hub/api/models.py:178-194 | the decode loop computes `DeviceFormat.from_dict` |
| Models.AttributesFromDict | custom_components/pushok_hub/api/models.py:72-89 | a non-object gives the defaults; without a visibility dict the visibility is empty and name and tags are taken or defaulted |
| Models.VisibilityToDict | custom_components/pushok_hub/api/models.py:96 | each visibility key becomes `str(key)` with its value, in order |
| Models.AttributesToDict | custom_components/pushok_hub/api/models.py:91-97 | `to_dict` has exactly the keys name, tags, paramsVisibility |
| Models.VisibilityRoundTrip | custom_components/pushok_hub/api/models.py:82-96 | `int(str(k))` of each key rebuilds the visibility table |
| Models.AttributesRoundTrip | custom_components/pushok_hub/api/models.py:72-97 | `from_dict(to_dict(a)) == a` for every attributes value with distinct keys |
| Models.DecodeAttributes | custom_components/pushok_hub/api/models.py:72-89 | the decode loop computes `DeviceAttributes.from_dict` |
| Models.BadKeyPersists | custom_components/pushok_hub/api/models.py:82-83 | the first key `int()` rejects stops the whole decode with that error |
| Models.ParamFromDict | custom_components/pushok_hub/api/models.py:211-228 | a non-dict aborts; a missing address skips; a non-dict viewParams aborts; a decoded param has the address and the access, type and viewParams fields or their defaults |
| Models.ParamDefaults | custom_components/pushok_hub/api/models.py:211-228 | with only an address: access "r", type "int", no name |
| Models.ParamName | custom_components/pushok_hub/api/models.py:211-228 | the name is `viewParams.name` |
| Models.AccessPredicates | custom_components/pushok_hub/api/models.py:229-239 | readable iff "r" is in access, writable iff "w" is |
| Models.ParamsFromListSpec | custom_components/pushok_hub/api/models.py:271-276 | the parameter list decodes iff every entry decodes or is skipped, and then keeps the decoded params in order |
| Models.AdapterFromResponse | custom_components/pushok_hub/api/models.py:253-287 | a non-object is an error; the driver and `crc` are kept; without `content` the adapter is empty |
| Models.SkipsAddresslessEntries | custom_components/pushok_hub/api/models.py:271-276 | entries without an address are skipped and the rest stay in order |
| Models.DecodeAdapter | custom_components/pushok_hub/api/models.py:253-287 | the decode loop computes `from_response` |
| Models.ParamErrorPersists | custom_components/pushok_hub/api/models.py:271-276 | an entry that raises aborts the whole list with that error |
| Models.ParamByAddressSpec | custom_components/pushok_hub/api/models.py:289-294 | the first parameter with the address, and nothing exactly when none has it |
| Models.ParamByNameSpec | custom_components/pushok_hub/api/models.py:296-301 | the first parameter with the name, and nothing exactly when none has it |
| Models.GetParamByAddress | custom_components/pushok_hub/api/models.py:289-294 | the search loop computes the lookup by address |
| Models.GetParamByName | custom_components/pushok_hub/api/models.py:296-301 | the search loop computes the lookup by name |
| Dicts.GetAt | custom_components/pushok_hub/api/models.py:22-23 | on a dict with distinct keys, as `json.loads` builds, `d.get(k)` returns the value of the one entry under `k` |
| JsonValues.PyEqIsEquivalence | custom_components/pushok_hub/select.py:64-66 | Python `==` across bool, int and float is reflexive, symmetric and transitive |
| JsonValues.NatToStringDigits | custom_components/pushok_hub/api/models.py:96 | `str(n)` of a natural number is its decimal digits |
| JsonValues.ParseIntRoundTrip | custom_components/pushok_hub/api/models.py:83-96 | `int(str(n)) == n` for every integer |
| JsonValues.IntToStringHasNoUnderscore | custom_components/pushok_hub/entity.py:47 | `str(n)` contains no underscore |
| JsonValues.Lower | custom_components/pushok_hub/switch.py:46 | `lower()` keeps the length and lowers each character |
| JsonValues.ReplaceChar | custom_components/pushok_hub/entity.py:54 | `replace("_", " ")` keeps the length and swaps each match |
| JsonValues.ContainsChar | custom_components/pushok_hub/switch.py:47-49 | substring test of a one-character string is membership |
| JsonValues.Iterate | custom_components/pushok_hub/api/client.py:353 | `for x in j` visits list items, and raises on a number, bool or `None` |
| Client.CommandFrame | custom_components/pushok_hub/api/client.py:264-266 | the frame has `id` and `m`, and `p` exactly when params are truthy |
| Client.HubClient.constructor | custom_components/pushok_hub/api/client.py:60-90 | no socket, both flags down, role 0, command id 0, nothing pending |
| Client.HubClient.SendCommand | custom_components/pushok_hub/api/client.py:258-272 | without a socket it raises and changes nothing; otherwise the next id, a fresh waiting slot and the frame sent |
| Client.HubClient.Finish | custom_components/pushok_hub/api/client.py:273-283 | the slot is removed; a cancelled future raises; an "error" response raises with error and msg; anything else is returned |
| Client.HubClient.Timeout | custom_components/pushok_hub/api/client.py:273-283 | a timed-out command raises naming the method and its slot is removed |
| Client.HubClient.SendRaised | custom_components/pushok_hub/api/client.py:271-283 | a failing send propagates and the slot is removed |
| Client.HubClient.LoopEnded | custom_components/pushok_hub/api/client.py:322-328 | both flags drop and the callback fires only if the client was connected |
| Client.HubClient.StreamEnded | custom_components/pushok_hub/api/client.py:290-291 | an iterator that ends without an exception stops the loop and changes nothing else: `connected` and `authorized` stay as they were and no callback fires |
| Client.HubClient.ConnectionClosed | custom_components/pushok_hub/api/client.py:315-321 | the same for a closed connection |
| Client.HubClient.HandleFrame | custom_components/pushok_hub/api/client.py:290-336 | one loop turn: bytes and bad JSON are ignored, broadcasts are handed to the callback, a callback that raises ends the loop, a response completes its own waiting slot |
| Client.HubClient.Disconnect | custom_components/pushok_hub/api/client.py:152-173 | flags, task and socket are gone; every pending future not yet done is cancelled; the pending table is empty |
| Client.HubClient.Connect | custom_components/pushok_hub/api/client.py:125-150 | a failed open raises; otherwise socket and task are set up, one id is used per handshake command, and the flags and role follow the handshake's result |
| Client.DispatchRules | custom_components/pushok_hub/api/client.py:290-336 | a broadcast never completes a slot: it is handed on when the callback returns and ends the loop when it raises; a response completes only a waiting pending slot under its id |
| Client.CancelWaiting | custom_components/pushok_hub/api/client.py:169-173 | exactly the pending futures not yet done are cancelled |
| Client.HandshakeOrder | custom_components/pushok_hub/api/client.py:175-217 | a successful handshake starts with pubKey and ends with pubKey, challenge, authenticate |
| Client.RegisterOrder | custom_components/pushok_hub/api/client.py:219-240 | a successful registration starts with addUser and ends with a full handshake |
| Client.HandshakeRules | custom_components/pushok_hub/api/client.py:181-217 | after a good key and challenge reply: an undecryptable nonce switches to registration after two commands, a falsy `authorized` after three, a truthy one stores the role |
| Client.RegisterRules | custom_components/pushok_hub/api/client.py:219-240 | a `CommandError` or falsy addUser result gives `AuthenticationError`; a truthy one re-runs the whole handshake, whose `CommandError` also becomes `AuthenticationError`; no `CommandError` leaves registration |
| Client.HandshakeBounded | custom_components/pushok_hub/api/client.py:175-240 | a handshake sends at most one command per reply it is given |
| Client.HandshakeOk3 | custom_components/pushok_hub/api/client.py:175-217 | three good replies authorise with the hub's role |
| Client.RegistrationIsNotBounded | custom_components/pushok_hub/api/client.py:199-235 | two failed decryptions, each followed by addUser, still end in a full handshake |
| Client.DevicesFromResponse | custom_components/pushok_hub/api/client.py:351-358 | a missing `result` lists no devices |
| Client.DevicesListed | custom_components/pushok_hub/api/client.py:351-358 | exactly the entries that decode are listed |
| Client.StateFromResponse | custom_components/pushok_hub/api/client.py:380-381 | `DeviceState.from_dict` of `result`, which defaults to `{}` |
| Client.FormatFromResponse | custom_components/pushok_hub/api/client.py:451-455 | `DeviceFormat.from_dict` of `result`, which defaults to `{}` |
| Client.AttributesFromResponse | custom_components/pushok_hub/api/client.py:426-435 | a missing `result` gives the default attributes |
| Client.SetStateParams | custom_components/pushok_hub/api/client.py:401-409 | set_state's parameters are a non-empty object carrying the value |
| Client.SetStateResult | custom_components/pushok_hub/api/client.py:410 | a missing `result` is `False` |
| Coordinator.ObjectUpdate | config/custom_components/pushok_hub/coordinator.py:217-267 | an update for no known device changes nothing; the registry keeps its keys; the named device gets a state |
| Coordinator.UpdateDescriptions | config/custom_components/pushok_hub/coordinator.py:237-243 | lqi, last_seen and warning take `lqi`, `lse`, `warn` when present; nothing else of any device changes |
| Coordinator.UpdateStates | config/custom_components/pushok_hub/coordinator.py:245-264 | the named state's all-digit fields are replaced and the others kept; its CRC follows `adptr-crc`; other states are untouched |
| Coordinator.UpdateIgnored | config/custom_components/pushok_hub/coordinator.py:224-256 | a missing, non-string or unknown `id`, or a `props` that is not a dict, changes nothing |
| Coordinator.UpdateOutcomes | config/custom_components/pushok_hub/coordinator.py:224-256 | an update raises, is ignored, or applies to the device its `id` names; it is ignored exactly for a falsy, scalar non-string or unknown `id` |
| Coordinator.NullPropsEndsLoop | config/custom_components/pushok_hub/coordinator.py:237-256 | an `object_update` for a known device with `props: null` ends the client's receive loop and stores nothing |
| Coordinator.DevicesDictSpec | config/custom_components/pushok_hub/coordinator.py:166 | each device is filed once under its id, and the last one listed wins |
| Coordinator.LoadStepCache | config/custom_components/pushok_hub/coordinator.py:182-197 | one device's turn either leaves the cache alone or requests its uncached driver and caches a success |
| Coordinator.LoadCache | config/custom_components/pushok_hub/coordinator.py:171-197 | a driver is cached iff it was before or one of its requests succeeded; cached entries are never requested or replaced; a failed request leaves the driver uncached; no request for a driver follows its successful one, and the cache holds that answer |
| Coordinator.LoadStepFetches | config/custom_components/pushok_hub/coordinator.py:171-197 | a device whose three requests succeeded requests its driver exactly when it is uncached |
| Coordinator.SharedDriverFetchedOnce | config/custom_components/pushok_hub/coordinator.py:182-186 | two devices with one driver whose first request succeeds cause one adapter request |
| Coordinator.FailedFetchRetried | config/custom_components/pushok_hub/coordinator.py:182-197 | two devices with one driver whose first request fails cause two requests, and the second answer is cached |
| Coordinator.DriverlessFetchesNothing | config/custom_components/pushok_hub/coordinator.py:183 | a driverless device causes no adapter request |
| Coordinator.AdapterFor | config/custom_components/pushok_hub/coordinator.py:89-101 | nothing for an unknown or driverless device, else the cached adapter of its driver |
| Coordinator.HubCoordinator.constructor | config/custom_components/pushok_hub/coordinator.py:41-64 | an empty registry, no client and no reconnect task |
| Coordinator.HubCoordinator.HandleBroadcast | config/custom_components/pushok_hub/coordinator.py:205-216 | only `object_update` events change the registry and the states, and only they can raise |
| Coordinator.HubCoordinator.HandleObjectUpdate | config/custom_components/pushok_hub/coordinator.py:217-267 | the new registry and states are the update function's; it raises exactly for a list or dict `id` or a known device's non-dict `props` |
| Coordinator.HubCoordinator.LoadDevices | config/custom_components/pushok_hub/coordinator.py:159-204 | without a client or device list nothing changes; otherwise the registry and states are replaced and the caches filled by the load fold |
| Coordinator.HubCoordinator.ScheduleReconnect | config/custom_components/pushok_hub/coordinator.py:269-274 | a task is created only when none is running, so at most one runs |
| Coordinator.HubCoordinator.ReconnectEnded | config/custom_components/pushok_hub/coordinator.py:276-294 | a finished reconnect loop leaves no task running |
| Coordinator.HubCoordinator.Setup | config/custom_components/pushok_hub/coordinator.py:103-145 | success iff connect and the device list succeed, and then the tables are the load fold's; a failure leaves every table as it was and schedules a reconnect |
| Entity.Arith | custom_components/pushok_hub/entity.py:189-200 | an operator on well-formed numbers gives a well-formed number |
| Entity.RunErrorPersists | custom_components/pushok_hub/entity.py:184-200 | a pop from an empty stack aborts the whole program |
| Entity.ApplyConversion | custom_components/pushok_hub/entity.py:166-202 | the stack loop computes the conversion function |
| Entity.RunPrefix | custom_components/pushok_hub/entity.py:184-200 | the program runs one token at a time |
| Entity.EmptyProgram | custom_components/pushok_hub/entity.py:180-181 | a falsy program leaves the value as it is |
| Entity.RunAppend | custom_components/pushok_hub/entity.py:184-200 | running one more token is one more step |
| Entity.OperandOrder | custom_components/pushok_hub/entity.py:189-200 | an operator pops the right operand first and pushes `left op right` |
| Entity.DivisionByZero | custom_components/pushok_hub/entity.py:198-200 | dividing by zero pushes the int 0 |
| Entity.UnknownTokenIgnored | custom_components/pushok_hub/entity.py:184-200 | a token that is no number, operator or "self" is skipped |
| Entity.RunWellFormed | custom_components/pushok_hub/entity.py:184-200 | every stack slot stays well formed |
| Entity.RunScale | custom_components/pushok_hub/entity.py:166-202 | `["self", k, op]` computes `x op k` |
| Entity.ScaleExamples | custom_components/pushok_hub/entity.py:169-171 | the documented `/ 10.0` and `* 100.0` examples |
| Entity.ScaleInverse | custom_components/pushok_hub/entity.py:120-202 | a divide-by-k conversion and a multiply-by-k inversion undo each other |
| Entity.ConvertFromDevice | custom_components/pushok_hub/entity.py:120-143 | `None` and bools pass through; no param, no convert or no conversion leaves the value unchanged |
| Entity.ConvertToDevice | custom_components/pushok_hub/entity.py:145-164 | `None` passes; no param, no convert or no inversion leaves the value unchanged |
| Entity.BoolsAreInverted | custom_components/pushok_hub/entity.py:129-164 | a bool is inverted into a number on writes, but passed through on reads |
| Entity.HaUnit | custom_components/pushok_hub/entity.py:110-118 | no unit without a param or a truthy unit; else the mapped unit or the unit itself |
| Entity.HaUnitExamples | custom_components/pushok_hub/entity.py:110-118 | `unit_C` maps to °C, an unknown unit passes through, no unit gives `None` |
| Entity.RawStateValue | custom_components/pushok_hub/entity.py:221-234 | the field's raw value, or `None` for no device state or no field |
| Entity.StateValue | custom_components/pushok_hub/entity.py:205-218 | `None` when there is no device state or no field; a bool raw value, or any raw value without a conversion program, comes back unchanged |
| Entity.SetValue | custom_components/pushok_hub/entity.py:236-247 | the write is the inverted value, and exists exactly when the inversion succeeds |
| Entity.SplitAtLastUnderscore | custom_components/pushok_hub/entity.py:47 | `a_s` and `b_t` with underscore-free tails split the same way |
| Entity.LastUnderscore | custom_components/pushok_hub/entity.py:47 | a shorter underscore-free tail ends at an underscore of the longer one |
| Entity.UniqueIdInjective | custom_components/pushok_hub/entity.py:47 | distinct (device, field) pairs get distinct unique ids |
| Entity.EntityName | custom_components/pushok_hub/entity.py:49-56 | the suffix when truthy; `Field <id>` when there is neither a suffix nor a param name |
| Entity.ParamNameDisplay | custom_components/pushok_hub/entity.py:52-54 | a name from the param keeps its length and has no underscore |
| Platforms.DeviceEntitiesSpec | custom_components/pushok_hub/switch.py:36-64 | an entity exists for a kept param at that address (adapter with params), or else for a kept format field |
| Platforms.EntitiesOfSpec | custom_components/pushok_hub/switch.py:36-64 | the registry's entities are those of its devices |
| Platforms.SetupEntities | custom_components/pushok_hub/switch.py:34-66 | the nested setup loops compute the entity list |
| Platforms.IsOn | custom_components/pushok_hub/switch.py:107-119 | `None` for `None`, else the value's truth |
| Platforms.IsOnState | custom_components/pushok_hub/binary_sensor.py:92-97 | `is_on` of the converted state value |
| Platforms.TruncSpec | custom_components/pushok_hub/number.py:98-100 | `int()` keeps the sign, drops less than one, and is the floor for non-negative values |
| Platforms.TruncExamples | custom_components/pushok_hub/number.py:98-100 | `int(2.7) == 2`, `int(-2.7) == -2` |
| Platforms.BrightnessRoundTrip | custom_components/pushok_hub/light.py:105-135 | 0..255 becomes a percentage in 0..100, which reads back at most 3 below and never above |
| Platforms.BrightnessEnds | custom_components/pushok_hub/light.py:105-135 | 255 and 100 percent, and 0 and 0, correspond |
| SwitchPlatform.DeviceSwitchesSpec | custom_components/pushok_hub/switch.py:36-64 | a switch exactly for a writable bool param at an address of at most 200 on a non-light device, or else a writable bool format field |
| SwitchPlatform.LightsHaveNoSwitches | custom_components/pushok_hub/switch.py:45-49 | a light device with params gets no switch |
| SwitchPlatform.SwitchDeviceClass | custom_components/pushok_hub/switch.py:77-94 | outlet for plug or socket, switch for a switch type, else the mapped class of the lower-cased name |
| SwitchPlatform.TurnRoundTrip | custom_components/pushok_hub/switch.py:107-127 | without a conversion the plain bool is written and reads back as written |
| SwitchPlatform.TurnThroughInversion | custom_components/pushok_hub/switch.py:121-123 | with an inversion, turning on writes a number |
| NumberPlatform.DeviceNumbersSpec | custom_components/pushok_hub/number.py:35-61 | a number exactly for a writable int or float slider param at an address of at most 200, or else a writable numeric field |
| NumberPlatform.Bound | custom_components/pushok_hub/number.py:77-81 | `float()` of a bound that is not `None`, raising on a non-number |
| NumberPlatform.NumberBounds | custom_components/pushok_hub/number.py:77-81 | bounds only with a param, from its min and max values |
| NumberPlatform.NativeValue | custom_components/pushok_hub/number.py:89-94 | `None` without state, else `float()` of the converted value |
| NumberPlatform.SetNativeValueWrites | custom_components/pushok_hub/number.py:96-101 | an int param writes the value truncated by less than one, any other the float; a float in the field reads back unchanged |
| NumberPlatform.TruncatesBeforeInversion | custom_components/pushok_hub/number.py:96-101 | 2.5 is truncated to 2 before the inversion runs |
| BinarySensorPlatform.DeviceBinarySensorsSpec | custom_components/pushok_hub/binary_sensor.py:38-56 | a binary sensor exactly for a bool param without write access, or else a read-only bool format field |
| BinarySensorPlatform.ServiceFieldsKept | custom_components/pushok_hub/binary_sensor.py:41-47 | every read-only bool param above address 200 still gives a binary sensor |
| BinarySensorPlatform.BinaryDeviceClass | custom_components/pushok_hub/binary_sensor.py:68-76 | a class exactly when the lower-cased name is in the mapping, and then the mapped one |
| BinarySensorPlatform.UpperCaseNameClassified | custom_components/pushok_hub/binary_sensor.py:68-76 | names equal up to case get the same class; "DOOR" classifies as door |
| BinarySensorPlatform.BoolsReadUnchanged | custom_components/pushok_hub/binary_sensor.py:92-97 | a bool in the field is the sensor's state, whatever the conversion |
| SelectPlatform.DeviceSelectsSpec | custom_components/pushok_hub/select.py:35-47 | a select exactly for a param that passes the dropdown rule |
| SelectPlatform.PyGetPut | custom_components/pushok_hub/select.py:63-66 | a dict keyed by values finds the entry assigned last under an equal key |
| SelectPlatform.ValueToLabelGet | custom_components/pushok_hub/select.py:63-66 | a value finds the label declared last for it, and nothing exactly when none has it |
| SelectPlatform.LabelToValueGet | custom_components/pushok_hub/select.py:63-66 | a label finds its value declared last |
| SelectPlatform.DistinctLabelsKept | custom_components/pushok_hub/select.py:63-68 | with distinct labels the options are the labels, in order |
| SelectPlatform.LabelRoundTrip | custom_components/pushok_hub/select.py:63-86 | label to value to label and back, for distinct labels and values |
| SelectPlatform.CollidingValues | custom_components/pushok_hub/select.py:63-66 | True and 1 collide and the later label wins; 0.0 finds the label of 0 |
| SelectPlatform.Select.constructor | custom_components/pushok_hub/select.py:55-70 | the tables are built from the param's labels, and are empty without one |
| SelectPlatform.Select.CurrentOption | custom_components/pushok_hub/select.py:71-76 | `None` for `None` or an unlabelled value, else the label declared last for it |
| SelectPlatform.Select.SelectOption | custom_components/pushok_hub/select.py:78-86 | the option's raw value is written unchanged; nothing for an unknown option or a `None` value |
| FormatLight.LightFor | custom_components/pushok_hub/light.py:45-61 | a light exactly for a format with a bool field 0; dimmable exactly when field 1 is numeric |
| FormatLight.LightsSpec | custom_components/pushok_hub/light.py:44-63 | the lights are those of the qualifying registry entries |
| FormatLight.SetupLights | custom_components/pushok_hub/light.py:44-63 | the setup loop computes the light list |
| FormatLight.Mode | custom_components/pushok_hub/light.py:89-94 | brightness mode exactly when dimmable, never colour temperature |
| FormatLight.ReadBrightness | custom_components/pushok_hub/light.py:105-122 | `None` without a field or value, else the raw percentage scaled to 0..255 |
| FormatLight.TurnOn | custom_components/pushok_hub/light.py:124-135 | the scaled brightness is written first, then `True` through the inversion |
| FormatLight.DimRoundTrip | custom_components/pushok_hub/light.py:105-135 | a brightness written and read back is at most 3 below what was asked |
| AdapterLight.LastAddressSpec | config/custom_components/pushok_hub/light.py:45-58 | the last matching parameter wins; nothing exactly when none matches |
| AdapterLight.ScanSpec | config/custom_components/pushok_hub/light.py:39-58 | each of the three fields is the last parameter matching its rule |
| AdapterLight.LightFieldsOf | config/custom_components/pushok_hub/light.py:25-64 | nothing without an adapter, for a non-light type or without an on/off param |
| AdapterLight.LightFieldsFound | config/custom_components/pushok_hub/light.py:25-64 | a light device's fields are found iff some param is a bool named like on/off |
| AdapterLight.FindLightFields | config/custom_components/pushok_hub/light.py:25-64 | the scan loop computes the found fields |
| AdapterLight.LightsSpec | config/custom_components/pushok_hub/light.py:83-94 | every light comes from one entry's found fields and every entry with fields gives its light |
| AdapterLight.SetupLights | config/custom_components/pushok_hub/light.py:83-96 | the setup loop computes the light list |
| AdapterLight.Mode | config/custom_components/pushok_hub/light.py:137-151 | colour temperature over brightness over on/off |
| AdapterLight.IntCall | config/custom_components/pushok_hub/light.py:215 | `int()` truncates a number and parses a string of digits |
| AdapterLight.ConvertedAgree | config/custom_components/pushok_hub/light.py:181-184 | without a program, the code as written agrees with the intended code |
| AdapterLight.LightIsOn | config/custom_components/pushok_hub/light.py:154-159 | the raw value's truth, unconverted |
| AdapterLight.ReadBrightness | config/custom_components/pushok_hub/light.py:162-188 | `None` without a value; without a program the raw percentage scaled to 0..255; with a program the percentage the program computes, scaled; a `convert` that is not a dict is a conversion error; never the missing-method error |
| AdapterLight.ReadColorTemp | config/custom_components/pushok_hub/light.py:191-215 | `None` without a value; without a program `int()` of the raw value; with a program `int()` of what the program computes; a `convert` that is not a dict is a conversion error; never the missing-method error |
| AdapterLight.MiredBound | config/custom_components/pushok_hub/light.py:141-145 | `int()` of each truthy bound |
| AdapterLight.TurnOn | config/custom_components/pushok_hub/light.py:217-253 | a command that does not fail ends with the unconverted on write |
| AdapterLight.TurnOnOrder | config/custom_components/pushok_hub/light.py:217-253 | colour temperature, then brightness percentage, then on |
| AdapterLight.CommandWriteAgrees | config/custom_components/pushok_hub/light.py:219-250 | one command write agrees between the code as written and the intended code when no program is present |
| AdapterLight.TurnOnAgrees | config/custom_components/pushok_hub/light.py:217-253 | the whole turn-on command agrees when no program is present |
| AdapterLight.AsWrittenBrightnessFails | config/custom_components/pushok_hub/light.py:181-184 | as written, a converted brightness raises, and turn-on sends nothing |
| AdapterLight.CorrectedBrightnessReads | config/custom_components/pushok_hub/light.py:162-188 | with the program run, raw 1000 reads as full brightness |
| AdapterLight.CorrectedBrightnessWrites | config/custom_components/pushok_hub/light.py:217-253 | full brightness is written back as 1000, then on |
| Bridge.FindDeviceByNameSpec | mqtt_bridge/bridge.py:261-268 | the first device whose friendly name or id matches, and nothing exactly when none does |
| Bridge.FieldIdByNameSpec | mqtt_bridge/bridge.py:244-259 | an exact name match is preferred over a case-insensitive one, each the first in parameter order |
| Bridge.FieldNameOf | mqtt_bridge/bridge.py:363-369 | the name of the first param at the address, when non-empty |
| Bridge.FieldNameDefault | mqtt_bridge/bridge.py:363-369 | `field_<id>` without an adapter or a param at the address |
| Bridge.LabelForSpec | mqtt_bridge/bridge.py:336-343 | the first label whose value equals the field's value, else the value itself |
| Bridge.FindLabel | mqtt_bridge/bridge.py:336-343 | the label search loop computes the label lookup |
| Bridge.StatePayloadKeys | mqtt_bridge/bridge.py:329-348 | `linkquality` is the device's lqi, and the other keys are the fields' names |
| Bridge.StatePayloadField | mqtt_bridge/bridge.py:329-348 | a field whose name is not reused later is published with its shown value |
| Bridge.Availability | mqtt_bridge/bridge.py:357-361 | online exactly when the warning is falsy |
| Bridge.StateMessages | mqtt_bridge/bridge.py:317-361 | nothing without a state, else the payload, then the availability |
| Bridge.ClassifySpec | mqtt_bridge/bridge.py:397-438 | the discovery component, rule by rule |
| Bridge.CelsiusAsWritten | mqtt_bridge/bridge.py:442-449 | the table as written maps `unit_C` to `Â°C`, not `°C` |
| Bridge.CelsiusDiscovered | mqtt_bridge/bridge.py:439-449 | a `unit_C` sensor is announced with `Â°C` under the table as written and with the integration's `°C` under the corrected one |
| Bridge.BridgeUnitsAgree | mqtt_bridge/bridge.py:442-449 | the corrected table agrees with the integration's units |
| Bridge.CommandTopicWhenWritable | mqtt_bridge/bridge.py:413-438 | a command topic exactly for switch, select and number |
| Bridge.DeviceDiscoverySpec | mqtt_bridge/bridge.py:371-460 | under either unit table, each classified param of a device with adapter and state is announced, and only those |
| Bridge.SetWritesSpec | mqtt_bridge/bridge.py:222-242 | each key whose field id resolves is written unchanged, and nothing else |
| Bridge.LastSegmentOf | mqtt_bridge/bridge.py:218-219 | the last topic segment of `prefix/name` is `name` |
| Bridge.SetTargetOf | mqtt_bridge/bridge.py:218-219 | `<base>/<name>/set` targets `name` |
| Bridge.LoadStepCache | mqtt_bridge/bridge.py:134-141 | one device's turn either leaves the cache alone or requests its uncached driver and caches a success |
| Bridge.LoadCache | mqtt_bridge/bridge.py:108-141 | a driver is cached iff it was before or one of its requests succeeded; cached entries are never requested or replaced; no request for a driver follows its successful one, and the cache holds that answer; requests only for drivers of some device |
| Bridge.MqttBridge.constructor | mqtt_bridge/bridge.py:36-50 | empty tables, no hub and no MQTT client |
| Bridge.MqttBridge.MqttConnected | mqtt_bridge/bridge.py:147-154 | the MQTT client exists inside the `async with` |
| Bridge.MqttBridge.MqttLost | mqtt_bridge/bridge.py:178-180 | an MQTT error drops the client |
| Bridge.MqttBridge.ConnectHub | mqtt_bridge/bridge.py:81-106 | the client exists; success iff connect and the device list succeed, and then the tables are the load fold's; a failure leaves every table as it was |
| Bridge.MqttBridge.LoadDevices | mqtt_bridge/bridge.py:108-141 | the registry is replaced and states, attributes and adapters filled by the load fold |
| Bridge.MqttBridge.PublishDeviceState | mqtt_bridge/bridge.py:317-361 | the state messages are published only with an MQTT client |
| Bridge.MqttBridge.HandleHubBroadcast | mqtt_bridge/bridge.py:183-187 | only an `object_update` event reaches the update handler; any other event changes no state and publishes nothing |
| Bridge.MqttBridge.HandleObjectUpdate | mqtt_bridge/bridge.py:189-208 | the states follow the bridge's update, and an updated device's state is republished |
| Bridge.MqttBridge.HandleSetCommand | mqtt_bridge/bridge.py:222-242 | nothing for an unknown device or invalid JSON; a payload that is not an object raises before any write; else the resolved writes |
| Bridge.MqttBridge.HandleMqttMessage | mqtt_bridge/bridge.py:210-220 | only `.../<name>/set` topics are handled, and the set handler's exception is passed on |
| Bridge.MqttBridge.PublishDiscovery | mqtt_bridge/bridge.py:371-460 | the discovery messages, with the unit table as written, are published only with an MQTT client |
| Bridge.BuildStatePayload | mqtt_bridge/bridge.py:329-348 | the payload loop computes the state payload |
| Bridge.ShowValue | mqtt_bridge/bridge.py:334-343 | the label loop computes the shown value |
| Bridge.BridgeUpdateSpec | mqtt_bridge/bridge.py:189-208 | no state is created; only the named state's all-digit fields change; CRC and other states are kept |

## Left out

- Sockets, TLS, asyncio tasks, timeouts and the Home Assistant event loop: each becomes an event method or a parameter.
- The elliptic-curve key exchange, the challenge decryption and the signature: each handshake reply carries one bool for whether its crypto step succeeded.
- `json.loads` and `json.dumps`: text parsing is a `parse` parameter; published payloads are JSON values rather than text.
- IEEE floating point: floats are reals, with no rounding or infinities.
- Strings are ASCII for `lower()`, `title()` and `isdigit()`: no Unicode case rules.
- Python `float()` of a string is not modelled and is reported as not a number. `int()` of a string accepts only an optional sign followed by digits.
- A non-string truthy `device_type` raises at `lower()` in the source; the model treats it as the empty string.
- The bridge's friendly name: a non-string truthy attribute `name` is used by the bridge as it is and rendered into the topics; the model uses the device id instead.
- Unhashable label values (lists and dicts used as dict keys) are not modelled.
- Entity.HaUnit: a truthy `viewParams.unit` that is a list or a dict makes `UNIT_MAPPING.get(unit, unit)` raise `TypeError` (unhashable); the model returns the unit instead.
- Bridge.MapUnit: the same unhashable unit makes `unit_map.get(unit, unit)` raise in `_publish_discovery`, and the exception ends `_run_mqtt`, which catches only MQTT errors; the model announces the unit unchanged.
- Bridge.DeviceDiscoverySpec: because of the unit case above, it states the announcements of a device even where the source raises part-way through discovery on a list or dict unit.
- Bridge.MqttBridge.PublishDiscovery: it publishes every message where the source stops with `TypeError` at the first sensor with a list or dict unit.
- JsonValues.PyEq: lists and dicts are compared structurally, so `[1]` and `[1.0]` differ, while Python's `==` compares the numbers inside by value; `Bridge.LabelFor` uses it on any state value.
- `set_state` raising part-way through the bridge's fan-out of writes: the model records every write.
- `async_set_device_state`'s `False` without a client, and the write itself, are outside the model: entities produce a `Write`.
- `_reconnect_loop`'s sleeping and retries, `async_shutdown`, `start` and `stop`: only the scheduling and the end of the reconnect task are modelled.
- `_publish_bridge_state` (the `{"state": "online"}` message on `<base>/bridge/state`) and `_publish_bridge_devices` (the device list with `ieee_address`, `friendly_name`, `model`, `manufacturer` and a `definition` from `adapter.description`, on `<base>/bridge/devices`) are not modelled: no member builds either message.
- `_publish_all_states`: it calls `_publish_device_state` once per device, which `Bridge.MqttBridge.PublishDeviceState` models.
- `_run_mqtt`'s subscription and message iteration: entering the client, losing it and handling one message are modelled.
- Icons, display names, device info, `available` and `extra_state_attributes` of entities are not modelled.
- The sensor platform and the config flows are not part of this model.
- `custom_components/pushok_hub/coordinator.py`, which the platforms and entity base class of `custom_components/pushok_hub/` import, is not part of this model; the model assumes it behaves like `config/custom_components/pushok_hub/coordinator.py`, which is modelled.
- The `ValueError` path of the device-class enums never happens, because every mapped class is a valid one.
- Logging is not modelled.
- Models.DeviceFromDict: a non-string `id` or `drv` is reported as unsupported rather than stored as some other object.
- Models.ParamFromDict: an entry whose address is not an int (`"5"`, `5.0`), whose `access`, `type` or `viewParams.name` is not a string, or whose truthy `labels` is not a dict is reported as unsupported, and `ParamsFromList` then fails the whole adapter; the source stores such values as given, and `from_response` returns the adapter.
- Client.HubClient.Connect: the handshake's command frames are not appended to `sent`, because their parameters carry keys and signatures from the crypto layer, which is not modelled; only the command ids they use are counted.
- Bridge.MqttBridge.HandleSetCommand: the exception it reports for a non-object payload leaves `_run_mqtt` and ends the bridge; the model reports it through `raised` and does not model the bridge stopping.
- Coordinator.HubCoordinator.HandleObjectUpdate: the coordinator and the client are separate objects in the model, so the raise is handed to `HubClient.HandleFrame` as its `raises` parameter (`Coordinator.BroadcastRaises`), which then ends the loop through `LoopEnded`.
- Bridge.MqttBridge.HandleHubBroadcast: the source schedules `_handle_object_update` with `asyncio.create_task`, and the model runs it at once, so how it interleaves with other handlers is not modelled.
- AdapterLight.TurnOn: its contract fixes only the final on write; the full order is stated without programs by `AdapterLight.TurnOnOrder`.

## Findings

| source | as written | input that shows it | evidently intended | confidence | as-written member | corrected member |
|---|---|---|---|---|---|---|
| mqtt_bridge/bridge.py:443 | the unit table maps `unit_C` to the mis-encoded text `Â°C` | a sensor param with `viewParams.unit == "unit_C"` | `°C`, as in the integration's own unit mapping | not executed | Bridge.CelsiusAsWritten | Bridge.BridgeUnitsAgree |
| config/custom_components/pushok_hub/light.py:181-184 | `brightness`, `color_temp` and `async_turn_on` call `self._apply_conversion`, which the base class in config/custom_components/pushok_hub/entity.py:13-99 does not define, so they raise `AttributeError` | a brightness param with `convert == {"conversion": ["self", 10, "/"]}` and raw value 1000 | the program is run: raw 1000 reads as full brightness 255, and 255 is written back as 1000 | not executed | AdapterLight.AsWrittenBrightnessFails | AdapterLight.CorrectedBrightnessReads |
