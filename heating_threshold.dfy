/** The heating threshold: the split threshold with mode 'heat'. */
module HeatingThreshold {
  import opened Wrappers
  import opened HomeKit
  import opened ThinQ
  import opened AbstractCharacteristic
  import opened SplitThreshold

  method New(service: Service, deviceId: string) returns (t: SplitThreshold)
    ensures fresh(t) && fresh(t.base) && t.Valid() && t.mode == HeatMode
    ensures t.base.service == service && t.base.binding.deviceId == deviceId && t.base.cachedState == None
    ensures t.base.binding.charType == HeatingThresholdTemperature && RequiredState(t.mode) == Heat
    ensures t.base.binding.key == TargetTemperatureKey && t.base.binding.command == Set
    ensures forall a :: t.base.binding.fromApi(a) == Returned(a)
    ensures forall x :: t.base.binding.toApi(x) == x
  {
    t := new SplitThreshold(service, deviceId, HeatMode);
  }

  /** The heating threshold reads the very field the cooling threshold reads. */
  lemma SharesFieldWithCooling(deviceId: string, coolCache: Option<real>, heatCache: Option<real>, s: Snapshot)
    ensures ThresholdBinding(HeatMode, deviceId).key == ThresholdBinding(CoolMode, deviceId).key
    ensures CacheAfterSnapshot(ThresholdBinding(HeatMode, deviceId), heatCache, s)
         == CacheAfterSnapshot(ThresholdBinding(CoolMode, deviceId), coolCache, s)
  {
    SnapshotIgnoresMode(HeatMode, deviceId, heatCache, s);
    SnapshotIgnoresMode(CoolMode, deviceId, coolCache, s);
  }

  /**
   * One snapshot given to both thresholds leaves them holding the same value,
   * the reported target temperature, whatever the hub's target mode.
   */
  method RefreshBoth(cool: SplitThreshold, heat: SplitThreshold, s: Snapshot)
    requires cool.Valid() && heat.Valid() && cool.mode == CoolMode && heat.mode == HeatMode
    requires cool.base != heat.base
    modifies cool.base, cool.base.service, heat.base, heat.base.service
    ensures cool.base.cachedState == heat.base.cachedState == Lookup(s, TargetTemperatureKey)
  {
    var _ := cool.HandleUpdatedSnapshot(s);
    var _ := heat.HandleUpdatedSnapshot(s);
  }
}
