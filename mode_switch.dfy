/**
 * The energy-saver and jet-mode switches. Each binds one 0/1 device field to a
 * hub On switch, and each knows the other's service: switching one on first
 * pushes "off" to the other's displayed On value (no command, no change to the
 * other characteristic's cache), then runs the ordinary set.
 */
module ModeSwitch {
  import opened Wrappers
  import opened HomeKit
  import opened ThinQ
  import opened AbstractCharacteristic

  /** getStateFromApiValue: `apiValue > 0`, which is false for `undefined` too. */
  function FromApi(a: Raw): (on: Option<bool>)
    ensures on.Some?
    ensures on.value <==> a.Some? && a.value > 0.0
  {
    match a
    case None => Some(false)
    case Some(v) => Some(v > 0.0)
  }

  /** getApiValueFromState: true is 1, false is 0; both read back unchanged. */
  function ToApi(on: bool): (a: real)
    ensures a == 0.0 || a == 1.0
    ensures FromApi(Some(a)) == Some(on)
  {
    if on then 1.0 else 0.0
  }

  /** The binding of a switch on `key`, command 'Set'. */
  function SwitchBinding(deviceId: string, key: FieldKey): Binding<bool>
  {
    Binding(deviceId, On, Set, key, a => Returned(FromApi(a)), ToApi, b => Boolean(b))
  }

  class ExclusiveSwitch {
    const base: Characteristic<bool>
    /** The other switch's service, whose On value this one turns off. */
    const sibling: Service

    ghost predicate Valid()
    {
      && base.settable
      && base.binding == SwitchBinding(base.binding.deviceId, base.binding.key)
      && (base.binding.key == PowerSaveKey || base.binding.key == JetModeKey)
    }

    /** The energy-saver switch: field airState.powerSave.basic; its sibling is jet mode. */
    constructor EnergySaver(energySaverService: Service, jetModeService: Service, deviceId: string)
      ensures Valid() && fresh(base) && base.cachedState == None
      ensures base.service == energySaverService && sibling == jetModeService
      ensures base.binding == SwitchBinding(deviceId, PowerSaveKey)
    {
      base := new Characteristic(energySaverService, SwitchBinding(deviceId, PowerSaveKey), true);
      sibling := jetModeService;
    }

    /** The jet-mode switch: field airState.wMode.jet; its sibling is energy saver. */
    constructor JetMode(jetModeService: Service, energySaverService: Service, deviceId: string)
      ensures Valid() && fresh(base) && base.cachedState == None
      ensures base.service == jetModeService && sibling == energySaverService
      ensures base.binding == SwitchBinding(deviceId, JetModeKey)
    {
      base := new Characteristic(jetModeService, SwitchBinding(deviceId, JetModeKey), true);
      sibling := energySaverService;
    }

    /**
     * handleSet override: switching on shows the sibling as off, before and
     * regardless of what the ordinary set then does (skip, not ready, failure);
     * switching off leaves the sibling alone.
     */
    method HandleSet(value: bool, apiReady: bool, result: CommandResult) returns (sent: Option<Command>, reply: Option<SetReply<bool>>)
      requires Valid()
      modifies base, sibling
      ensures sibling.displayed ==
        if value then old(sibling.displayed)[On := Some(Boolean(false))] else old(sibling.displayed)
      ensures var e := OnSet(base.binding, old(base.cachedState), value, apiReady, result);
        base.cachedState == e.cache && sent == e.sent && reply == e.reply
    {
      var targetState := FromApi(Some(ToApi(value)));
      if targetState == Some(true) {
        sibling.Update(On, Some(Boolean(false)));
      }
      sent, reply := base.HandleSet(value, apiReady, result);
    }
  }

  /**
   * Switching one of a pair on: the other shows off at once, its cache is
   * untouched, and the only command sent (if any) is for the switched field.
   */
  method SwitchOnTurnsSiblingOff(a: ExclusiveSwitch, b: ExclusiveSwitch, apiReady: bool, result: CommandResult)
    returns (sent: Option<Command>)
    requires a.Valid() && a.sibling == b.base.service && a.base != b.base
    modifies a.base, a.sibling
    ensures b.base.service.Shown(On) == Some(Boolean(false))
    ensures b.base.cachedState == old(b.base.cachedState)
    ensures sent.Some? ==> sent.value.key == a.base.binding.key && sent.value.value == 1.0
  {
    var reply;
    sent, reply := a.HandleSet(true, apiReady, result);
  }

  /**
   * Showing the sibling off does not correct its cache. If that cache still
   * holds on, switching the sibling back on before the next refresh is taken
   * for a repeat: no command goes out, although the hub showed it off.
   */
  method StaleSiblingSkipsSwitchOn(a: ExclusiveSwitch, b: ExclusiveSwitch, result: CommandResult, laterResult: CommandResult)
    returns (sent: Option<Command>)
    requires a.Valid() && b.Valid() && a.sibling == b.base.service && a.base != b.base
    requires b.base.cachedState == Some(true)
    modifies a.base, a.sibling, b.base, b.sibling
    ensures sent == None
    ensures b.base.cachedState == Some(true)
  {
    var first := SwitchOnTurnsSiblingOff(a, b, true, result);
    var reply;
    sent, reply := b.HandleSet(true, true, laterResult);
    SkipWhenCached(b.base.binding, true, laterResult);
  }
}
