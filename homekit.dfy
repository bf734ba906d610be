/**
 * The hub side of the bridge: the characteristic types this accessory exposes,
 * the two heater-cooler enumerations (symbolic, since their numeric values belong
 * to the hub library), the values a characteristic can display, and a service,
 * which holds the value each of its characteristics currently displays.
 */
module HomeKit {
  import opened Wrappers

  datatype CharType =
    | Active
    | CoolingThresholdTemperature
    | HeatingThresholdTemperature
    | TargetHeaterCoolerState
    | CurrentHeaterCoolerState
    | CurrentTemperature
    | FilterChangeIndication
    | FilterLifeLevel
    | RotationSpeed
    | SwingMode
    | On

  /** The hub's TargetHeaterCoolerState enumeration. */
  datatype TargetState = Auto | Heat | Cool

  /** The hub's CurrentHeaterCoolerState enumeration. */
  datatype CurrentState = Inactive | Idle | Heating | Cooling

  /** A characteristic value as the hub carries it. */
  datatype Value =
    | Number(n: real)
    | Boolean(b: bool)
    | Target(t: TargetState)
    | Current(c: CurrentState)

  /**
   * A hub service. `displayed` records, per characteristic type, the last value
   * pushed with updateCharacteristic (None: `undefined` was pushed, or nothing yet).
   */
  class Service {
    var displayed: map<CharType, Option<Value>>

    constructor ()
      ensures displayed == map[]
    {
      displayed := map[];
    }

    /** The value a characteristic of this service currently shows. */
    function Shown(t: CharType): Option<Value>
      reads this
    {
      if t in displayed then displayed[t] else None
    }

    /** updateCharacteristic: assert a new value without waiting for a get. */
    method Update(t: CharType, v: Option<Value>)
      modifies this
      ensures displayed == old(displayed)[t := v]
      ensures Shown(t) == v
    {
      displayed := displayed[t := v];
    }
  }
}
