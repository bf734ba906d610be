/**
 * The current heater-cooler state: the same operation-mode field read as the
 * hub's INACTIVE / IDLE / HEATING / COOLING. Codes 0 and 1 both read as COOLING
 * (the HEATING branch is not there), so HEATING is never shown.
 */
module CurrentHeaterCoolerMode {
  import opened Wrappers
  import opened HomeKit
  import opened ThinQ
  import opened AbstractCharacteristic
  import TargetHeaterCoolerMode

  /** getStateFromApiValue; an unknown code (or `undefined`) gives `undefined`. */
  function FromApi(a: Raw): (s: Option<CurrentState>)
    ensures s.Some? <==> a.Some? && TargetHeaterCoolerMode.IsOpMode(a.value)
    ensures s != Some(Heating)
  {
    match a
    case None => None
    case Some(code) =>
      if code == 0.0 || code == 1.0 then Some(Cooling)
      else if code == 2.0 then Some(Inactive)
      else if code == 3.0 then Some(Idle)
      else None
  }

  /**
   * getApiValueFromState: COOLING and HEATING both go to 0, so every state reads
   * back as itself except HEATING, which reads back as COOLING.
   */
  function ToApi(s: CurrentState): (code: real)
    ensures TargetHeaterCoolerMode.IsOpMode(code) && code != 1.0
    ensures FromApi(Some(code)) == Some(if s == Heating then Cooling else s)
  {
    match s
    case Cooling => 0.0
    case Heating => 0.0
    case Inactive => 2.0
    case Idle => 3.0
  }

  /** The table itself. */
  lemma FromApiTable()
    ensures FromApi(Some(0.0)) == Some(Cooling) && FromApi(Some(1.0)) == Some(Cooling)
    ensures FromApi(Some(2.0)) == Some(Inactive) && FromApi(Some(3.0)) == Some(Idle)
    ensures FromApi(None) == None
  {
  }

  /**
   * The binding: the same field airState.opMode as the target mode, command
   * 'Set'. The hub is given no set path for it.
   */
  function CurrentBinding(deviceId: string): Binding<CurrentState>
  {
    Binding(deviceId, CharType.CurrentHeaterCoolerState, Set, OpModeKey,
            a => Returned(FromApi(a)), ToApi, s => Current(s))
  }

  method New(service: Service, deviceId: string) returns (c: Characteristic<CurrentState>)
    ensures fresh(c) && c.service == service && !c.settable && c.cachedState == None
    ensures c.binding == CurrentBinding(deviceId)
    ensures c.binding.key == OpModeKey && c.binding.command == Set
    ensures c.binding.charType == CharType.CurrentHeaterCoolerState
  {
    c := new Characteristic(service, CurrentBinding(deviceId), false);
  }

  /**
   * One snapshot drives both readings of airState.opMode: when it holds a known
   * code, the current state is COOLING exactly when the target is COOL or HEAT,
   * and INACTIVE or IDLE exactly when the target is AUTO.
   */
  lemma ReadingsAgreeWithTarget(deviceId: string, s: Snapshot, currentCache: Option<CurrentState>, targetCache: Option<TargetState>)
    requires Lookup(s, OpModeKey).Some? && TargetHeaterCoolerMode.IsOpMode(Lookup(s, OpModeKey).value)
    ensures var current := CacheAfterSnapshot(CurrentBinding(deviceId), currentCache, s);
            var target := CacheAfterSnapshot(TargetHeaterCoolerMode.TargetBinding(deviceId), targetCache, s);
            current.Some? && target.Some? &&
            (current.value == Cooling <==> target.value == Cool || target.value == Heat) &&
            (current.value == Inactive || current.value == Idle <==> target.value == Auto)
  {
  }
}
