/** The cooling threshold: the split threshold with mode 'cool'. */
module CoolingThreshold {
  import opened Wrappers
  import opened HomeKit
  import opened ThinQ
  import opened AbstractCharacteristic
  import opened SplitThreshold

  method New(service: Service, deviceId: string) returns (t: SplitThreshold)
    ensures fresh(t) && fresh(t.base) && t.Valid() && t.mode == CoolMode
    ensures t.base.service == service && t.base.binding.deviceId == deviceId && t.base.cachedState == None
    ensures t.base.binding.charType == CoolingThresholdTemperature && RequiredState(t.mode) == Cool
    ensures t.base.binding.key == TargetTemperatureKey && t.base.binding.command == Set
    ensures forall a :: t.base.binding.fromApi(a) == Returned(a)
    ensures forall x :: t.base.binding.toApi(x) == x
  {
    t := new SplitThreshold(service, deviceId, CoolMode);
  }
}
