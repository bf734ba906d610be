/**
 * The device side of the bridge: the flat status snapshot, the field keys this
 * core reads, and the shapes of the calls made to the vendor API. The API itself
 * (transport, authentication) is not part of this model: its answers are inputs.
 */
module ThinQ {
  import opened Wrappers

  type FieldKey = string

  /** A snapshot value as read by key: a number, or `undefined`. */
  type Raw = Option<real>

  /** A device status snapshot: field key to raw value. */
  type Snapshot = map<FieldKey, Raw>

  /** The filter-status response's data part. */
  type FilterData = map<FieldKey, Raw>

  /** `snapshot[key]`: a key that is absent reads as `undefined`. */
  function Lookup(s: map<FieldKey, Raw>, key: FieldKey): Raw
  {
    if key in s then s[key] else None
  }

  const WindStrengthKey: FieldKey := "airState.windStrength"
  const OpModeKey: FieldKey := "airState.opMode"
  const TargetTemperatureKey: FieldKey := "airState.tempState.target"
  const PowerSaveKey: FieldKey := "airState.powerSave.basic"
  const JetModeKey: FieldKey := "airState.wMode.jet"
  const FilterMaxTimeKey: FieldKey := "airState.filterMngStates.maxTime"
  const FilterUseTimeKey: FieldKey := "airState.filterMngStates.useTime"

  datatype CommandKind = Set | Operation

  /** One sendCommand(deviceId, kind, key, value) call. */
  datatype Command = Command(deviceId: string, kind: CommandKind, key: FieldKey, value: real)

  /** How the device API settled a command's promise. */
  datatype CommandResult = Accepted | Rejected(error: string)

  /** How a query's promise settled. */
  datatype Fetch<+T> = Fetched(value: T) | FetchFailed(error: string)

  /** The query and keep-alive calls the accessory makes. */
  datatype Request =
    | GetDevice(deviceId: string)
    | GetDeviceFilterStatus(deviceId: string)
    | SendAllEventEnable(deviceId: string)
}
