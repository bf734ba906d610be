/**
 * The target heater-cooler mode: the device's operation-mode code against the
 * hub's COOL / HEAT / AUTO. Lossy on the device side: codes 2 and 3 both mean AUTO,
 * and AUTO is always sent back as 3.
 */
module TargetHeaterCoolerMode {
  import opened Wrappers
  import opened HomeKit
  import opened ThinQ
  import opened AbstractCharacteristic

  /** The operation-mode codes this table knows. */
  predicate IsOpMode(a: real)
  {
    a == 0.0 || a == 1.0 || a == 2.0 || a == 3.0
  }

  /** getStateFromApiValue; an unknown code (or `undefined`) gives `undefined`. */
  function FromApi(a: Raw): (s: Option<TargetState>)
    ensures s.Some? <==> a.Some? && IsOpMode(a.value)
  {
    match a
    case None => None
    case Some(code) =>
      if code == 0.0 then Some(Cool)
      else if code == 1.0 then Some(Heat)
      else if code == 2.0 then Some(Auto)
      else if code == 3.0 then Some(Auto)
      else None
  }

  /** getApiValueFromState: the canonical code of each state, which reads back as that state. */
  function ToApi(s: TargetState): (code: real)
    ensures IsOpMode(code) && code != 2.0
    ensures FromApi(Some(code)) == Some(s)
  {
    match s
    case Cool => 0.0
    case Heat => 1.0
    case Auto => 3.0
  }

  /** The table itself. */
  lemma FromApiTable()
    ensures FromApi(Some(0.0)) == Some(Cool) && FromApi(Some(1.0)) == Some(Heat)
    ensures FromApi(Some(2.0)) == Some(Auto) && FromApi(Some(3.0)) == Some(Auto)
    ensures FromApi(None) == None
  {
  }

  /** Codes 0, 1 and 3 survive a trip to the hub and back; code 2 comes back as 3. */
  lemma CodesRoundTrip(code: real)
    requires IsOpMode(code)
    ensures FromApi(Some(code)).Some?
    ensures ToApi(FromApi(Some(code)).value) == if code == 2.0 then 3.0 else code
  {
  }

  /** The binding: field airState.opMode, command 'Set'. */
  function TargetBinding(deviceId: string): Binding<TargetState>
  {
    Binding(deviceId, CharType.TargetHeaterCoolerState, Set, OpModeKey,
            a => Returned(FromApi(a)), ToApi, s => Target(s))
  }

  /**
   * The constructor: the operation-mode binding, settable, cache undefined.
   * Its closing warning about drying modes is taken as a log line.
   */
  method New(service: Service, deviceId: string) returns (c: Characteristic<TargetState>)
    ensures fresh(c) && c.service == service && c.settable && c.cachedState == None
    ensures c.binding == TargetBinding(deviceId)
    ensures c.binding.key == OpModeKey && c.binding.command == Set
    ensures c.binding.charType == CharType.TargetHeaterCoolerState
  {
    c := new Characteristic(service, TargetBinding(deviceId), true);
  }
}
