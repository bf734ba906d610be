/**
 * The split threshold pair. The device reports one target temperature while the
 * hub shows a cooling and a heating threshold, so both characteristics bind the
 * same field. Each one has a mode; before applying a snapshot it compares the
 * hub's current target heater-cooler state with the state its mode requires,
 * but a mismatch is only logged: the snapshot is applied either way. Sets are
 * not gated at all (there is no set override).
 */
module SplitThreshold {
  import opened Wrappers
  import opened HomeKit
  import opened ThinQ
  import opened AbstractCharacteristic

  /** The constructor's `mode` argument: 'cool' or 'heat'. */
  datatype Mode = CoolMode | HeatMode

  /** 'cool' selects the cooling threshold; any other mode the heating one. */
  function CharTypeFor(mode: Mode): (t: CharType)
    ensures t == CoolingThresholdTemperature || t == HeatingThresholdTemperature
    ensures t == CoolingThresholdTemperature <==> mode == CoolMode
  {
    if mode == CoolMode then CoolingThresholdTemperature else HeatingThresholdTemperature
  }

  /** The target heater-cooler state a mode expects to see on the service. */
  function RequiredState(mode: Mode): (s: TargetState)
    ensures s != Auto
    ensures s == Cool <==> mode == CoolMode
  {
    if mode == CoolMode then Cool else Heat
  }

  /** The range declared to the hub (from the product manual); the conversions do not enforce it, nor the declared step of 1. */
  const MinValue: real := 17.0
  const MaxValue: real := 30.0

  /** getStateFromApiValue: the identity, `undefined` included. */
  function FromApi(a: Raw): Option<real>
  {
    a
  }

  /** getApiValueFromState: the identity, so every temperature reads back unchanged. */
  function ToApi(t: real): (a: real)
    ensures FromApi(Some(a)) == Some(t)
  {
    t
  }

  /**
   * Any raw reading becomes the state unchanged, and any state is sent
   * unchanged: a reading or a request outside [MinValue, MaxValue] is not
   * clamped into the declared range.
   */
  lemma NoClamping(a: Raw)
    ensures FromApi(a) == a
    ensures a.Some? ==> ToApi(FromApi(a).value) == a.value
    ensures a.Some? && (a.value < MinValue || MaxValue < a.value) ==>
      FromApi(a).Some? && (FromApi(a).value < MinValue || MaxValue < FromApi(a).value)
    ensures forall t :: t < MinValue || MaxValue < t ==> ToApi(t) < MinValue || MaxValue < ToApi(t)
  {
  }

  /** The binding of either threshold: field airState.tempState.target, command 'Set'. */
  function ThresholdBinding(mode: Mode, deviceId: string): Binding<real>
  {
    Binding(deviceId, CharTypeFor(mode), Set, TargetTemperatureKey,
            a => Returned(FromApi(a)), ToApi, t => Number(t))
  }

  /** Whatever the mode, a snapshot leaves the cache holding the reported target temperature. */
  lemma SnapshotIgnoresMode(mode: Mode, deviceId: string, cache: Option<real>, s: Snapshot)
    ensures CacheAfterSnapshot(ThresholdBinding(mode, deviceId), cache, s) == Lookup(s, TargetTemperatureKey)
  {
  }

  /**
   * Sets are not gated by mode: the cooling and heating thresholds handle the
   * same set identically and both write the shared target temperature.
   */
  lemma SetIgnoresMode(deviceId: string, cache: Option<real>, t: real, apiReady: bool, result: CommandResult)
    ensures OnSet(ThresholdBinding(CoolMode, deviceId), cache, t, apiReady, result)
         == OnSet(ThresholdBinding(HeatMode, deviceId), cache, t, apiReady, result)
    ensures apiReady && cache != Some(t) ==>
      OnSet(ThresholdBinding(CoolMode, deviceId), cache, t, apiReady, result).sent
        == Some(Command(deviceId, Set, TargetTemperatureKey, t))
  {
  }

  class SplitThreshold {
    const mode: Mode
    const base: Characteristic<real>

    ghost predicate Valid()
    {
      base.binding == ThresholdBinding(mode, base.binding.deviceId) && base.settable
    }

    constructor (service: Service, deviceId: string, mode: Mode)
      ensures Valid() && this.mode == mode && fresh(base)
      ensures base.service == service && base.binding.deviceId == deviceId
      ensures base.cachedState == None
    {
      this.mode := mode;
      base := new Characteristic(service, ThresholdBinding(mode, deviceId), true);
    }

    /**
     * handleUpdatedSnapshot override. `modeMismatch` is the condition of the
     * debug log: the service's target heater-cooler state is not the one this
     * mode requires. The base update runs regardless, and the identity
     * conversion never throws, so the cache and the displayed threshold always
     * become the reported target temperature.
     */
    method HandleUpdatedSnapshot(s: Snapshot) returns (modeMismatch: bool)
      requires Valid()
      modifies base, base.service
      ensures modeMismatch <==> old(base.service.Shown(TargetHeaterCoolerState)) != Some(Target(RequiredState(mode)))
      ensures base.cachedState == Lookup(s, TargetTemperatureKey)
      ensures base.service.displayed ==
        old(base.service.displayed)[CharTypeFor(mode) := PushedValue(base.binding, base.cachedState)]
    {
      var targetState := base.service.Shown(TargetHeaterCoolerState);
      modeMismatch := targetState != Some(Target(RequiredState(mode)));
      base.HandleUpdatedSnapshot(s);
    }
  }
}
