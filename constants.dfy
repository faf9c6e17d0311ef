/** The integration's fixed tables: hub data-type ordinals, the entity
    field-id cutoff, command names, timeouts and the unit and device-class
    mappings. */
module Constants {

  const Domain: string := "pushok_hub"

  // Hub commands.
  const CmdPubKey: string := "pubKey"
  const CmdChallenge: string := "challenge"
  const CmdAuthenticate: string := "authenticate"
  const CmdAddUser: string := "addUser"
  const CmdListObjects: string := "listObjects"
  const CmdGetState: string := "getState"
  const CmdSetState: string := "setState"
  const CmdGetAttributes: string := "getAttributes"
  const CmdGetFormat: string := "getFormat"
  const CmdGetAdapter: string := "getAdapter"

  const RoleAdmin: int := 1

  const EntityTypeZigbee: string := "zigbee"
  /** The `evt` of a broadcast that carries device properties. */
  const EvtObjectUpdate: string := "object_update"

  // Data types, byte 0 of a packed field format.
  const DataTypeBool: int := 0
  const DataTypeUint8: int := 1
  const DataTypeUint16: int := 2
  const DataTypeUint32: int := 3
  const DataTypeInt8: int := 4
  const DataTypeInt16: int := 5
  const DataTypeInt32: int := 6
  const DataTypeFloat: int := 7

  /** Seconds a command waits for its response. */
  const CommandTimeout: real := 5.0
  /** Seconds between reconnection attempts. */
  const ReconnectInterval: real := 10.0

  /** Fields above this id are internal and get no entity. */
  const MaxFieldId: int := 200

  /** Adapter `viewParams.unit` names to Home Assistant units. */
  const UnitMapping: map<string, string> := map[
    "unit_C" := "°C",
    "unit_F" := "°F",
    "unit_%" := "%",
    "unit_voltage" := "V",
    "unit_mV" := "mV",
    "unit_power" := "W",
    "unit_mA" := "mA",
    "unit_A" := "A",
    "unit_energy" := "kWh",
    "unit_lux" := "lx",
    "unit_ppm" := "ppm",
    "unit_ppb" := "ppb",
    "unit_hPa" := "hPa",
    "unit_Pa" := "Pa",
    "unit_cm" := "cm",
    "unit_m" := "m",
    "unit_s" := "s",
    "unit_min" := "min",
    "unit_Hz" := "Hz",
    "unit_dB" := "dB",
    "unit_L" := "L",
    "unit_mL" := "mL",
    "unit_m3" := "m³",
    "unit_ugm3" := "µg/m³"
  ]

  /** Lower-cased parameter names to binary-sensor device classes. */
  const BinarySensorDeviceClassMapping: map<string, string> := map[
    "state" := "opening",
    "contact" := "opening",
    "open" := "opening",
    "door" := "door",
    "window" := "window",
    "motion" := "motion",
    "presense" := "occupancy",
    "presence" := "occupancy",
    "occupancy" := "occupancy",
    "smoke" := "smoke",
    "gas" := "gas",
    "co" := "co",
    "water_leak" := "moisture",
    "leak" := "moisture",
    "moisture" := "moisture",
    "vibration" := "vibration",
    "tamper" := "tamper",
    "battery_low" := "battery",
    "problem" := "problem"
  ]

  /** Lower-cased parameter names to switch device classes. */
  const SwitchDeviceClassMapping: map<string, string> := map[
    "outlet" := "outlet",
    "switch" := "switch"
  ]
}
