# homebridge-lg-thinq-ac: the value-synchronisation layer, in Dafny

This project models how the plugin keeps HomeKit characteristics and an LG
ThinQ air conditioner in step. It models the "AD" heater-cooler accessory.

- **The generic characteristic** (`AbstractCharacteristic`). Each characteristic
  binds one hub characteristic to one field of the device's status snapshot. It
  keeps a cache of the last state it accepted.
  - On a snapshot it converts the raw field and caches the result, then pushes
    the result to its service.
  - On a hub SET it skips the command when the value equals the cache.
    Otherwise it sends exactly one device command, and the cache takes the value
    only once the device accepts it.
  - On a hub GET it answers the cache.
- **The concrete conversions**:
  - fan speed, in quarters (`RotationSpeed`);
  - target mode and current mode, both read from the one `airState.opMode`
    field (`TargetHeaterCoolerMode`, `CurrentHeaterCoolerMode`);
  - the cooling and heating thresholds, which share the one target-temperature
    field (`SplitThreshold`, `CoolingThreshold`, `HeatingThreshold`);
  - the energy-saver and jet-mode switches. Each one shows the other as off
    when it is switched on (`ModeSwitch`).
- **The capability list** built for a model (`CapabilitySet`).
- **The accessory driver** (`PlatformAccessory`):
  - A refresh is gated on the login. It fetches the device snapshot, then the
    filter status, and merges the two filter keys into the snapshot. It then
    dispatches the merged snapshot to every characteristic, in list order.
  - A keep-alive re-enables event monitoring.
  - The two intervals are started on construction and cleared on unregister.

Characteristics whose classes are not part of this model still appear in the
list: active, current temperature, filter change and filter life. Their
conversions are parameters (`CapabilitySet.Unseen`). Their own source files are
not part of this model.

## How the model is built

- **Missing values.** JavaScript `undefined` is `None`. A snapshot is a map from
  field names to `Option<real>`, and a missing key reads as `None`.
- **Conversions that throw.** `getStateFromApiValue` may throw. This is
  modelled as the `Attempt` datatype in a binding's `fromApi`. When it throws,
  the try inside handleUpdatedSnapshot catches it: the assignment to the cache
  never happens and nothing is pushed to the hub.
- **Outcomes and readiness are inputs.** The device's answer to a command is an
  input (`CommandResult`). So are the outcomes of the fetches (`Fetch`), the
  login state, and whether the API client exists (`apiReady`). A SET callback
  that is never called is `reply == None`.
- **Specification functions.** Each handler is specified by a pure function:
  - `CacheAfterSnapshot` for snapshots;
  - `OnSet` for SETs.
  The class `Characteristic` is the stateful object, and its methods are proved
  to follow these functions. The lemmas are stated over the functions.
- **The hub's services.** A service is a class `HomeKit.Service` holding the
  displayed value of each characteristic type.

### Behaviour of the code worth knowing (the model follows the code)

- **Threshold mode gating only logs.** The class comment at
  src/characteristic/abstractSplitTemperatureThresholdCharacteristic_ad.ts:16-21
  says SET commands are accepted only when the target state matches, and the
  comment at :58 says the override ignores snapshots based on the mode. The
  code does neither. The override only logs the mismatch (:67-71) and then
  always delegates (:100), and there is no SET override. In
  `SplitThreshold.SplitThreshold.HandleUpdatedSnapshot`, `modeMismatch` is the
  log condition, and the cache is updated regardless.
- **Unmapped codes store `undefined`.** An unmapped mode code or fan code does
  not throw. It caches `undefined` and pushes `undefined`.
- **Fan-speed buckets are upper-inclusive.** Each bucket is `(ceiling - 25,
  ceiling]`. The third case of `getApiValueFromState` tests `0 < p <= 75`, so
  the first-match order is what makes 50 < p <= 75 map to code 6. A
  percentage at or below 0 falls through to the default code 8.
- **HEATING is never shown.** Mode codes 0 and 1 both read as COOLING in the
  current heater-cooler state, because the HEATING branch is commented out.
- **Equality is strict.** The skip test compares the requested value with the
  cache by strict equality, which on the model's values is `==`.
- **A switched-off sibling keeps its cache.** Switching one mode switch on
  shows the other as off but leaves the other's cache alone. If that cache
  still holds on, switching the other back on before the next refresh is
  skipped as a repeat, and no command is sent
  (`ModeSwitch.StaleSiblingSkipsSwitchOn`).

## Model

| member | source | states |
|---|---|---|
| `AbstractCharacteristic.OnSet` | src/characteristic/abstractCharacteristic.ts:76-105 | The cache either stays or becomes the requested value. A command is sent only when the API is ready and the value differs from the cache, and then it is the value's converted command. The callback gets (null, value) exactly when the API is ready and the cache ends up holding the value, and it is never called exactly when the API is not ready. |
| `AbstractCharacteristic.SkipWhenCached` | src/characteristic/abstractCharacteristic.ts:85-91 | Setting the cached value sends nothing, keeps the cache and reports the value back. |
| `AbstractCharacteristic.SendsOneCommand` | src/characteristic/abstractCharacteristic.ts:93-96 | Setting any other value sends exactly one command: this device, the characteristic's command kind, its field and the converted value. |
| `AbstractCharacteristic.CommitsOnlyOnAcceptance` | src/characteristic/abstractCharacteristic.ts:97-104 | An accepted command makes the cache the value and reports it. A rejected command leaves the cache and passes the error to the callback. |
| `AbstractCharacteristic.NotReadyIsInert` | src/characteristic/abstractCharacteristic.ts:78-81 | Without an API client a SET changes nothing, sends nothing and never calls the callback. |
| `AbstractCharacteristic.SecondIdenticalSetIsSkipped` | src/characteristic/abstractCharacteristic.ts:85-104 | Idempotence: after an accepted SET, the same SET again sends no command. |
| `AbstractCharacteristic.LeadingRejections` | src/characteristic/abstractCharacteristic.ts:97-104 | Counts the rejections before the first acceptance: every earlier result is a rejection, and the result at that index is an acceptance. |
| `AbstractCharacteristic.RepeatedSetsStopAtAcceptance` | src/characteristic/abstractCharacteristic.ts:85-104 | Repeating one SET sends a command for every rejection up to and including the first acceptance, and none after it. When the cache already holds the value, none is sent at all. |
| `AbstractCharacteristic.RunSnoc` | src/characteristic/abstractCharacteristic.ts:64-104 | Handling events one more at a time equals one more step after the earlier events. |
| `AbstractCharacteristic.RunIsLastWrite` | src/characteristic/abstractCharacteristic.ts:64-104 | Last write wins: after any interleaving of snapshots and SETs, the cache holds what the latest writing event wrote. A writing event is a snapshot whose conversion returned or an accepted SET. With no writing event the cache keeps its initial value. |
| `AbstractCharacteristic.Characteristic.constructor` | src/characteristic/abstractCharacteristic.ts:25-53 | A new characteristic holds its service, binding and settability, and its cache is `undefined`. |
| `AbstractCharacteristic.Characteristic.HandleUpdatedSnapshot` | src/characteristic/abstractCharacteristic.ts:64-73 | The cache becomes the converted field, and the service shows exactly that at the characteristic's type. When the conversion throws, neither changes. |
| `AbstractCharacteristic.Characteristic.HandleSet` | src/characteristic/abstractCharacteristic.ts:76-105 | The new cache, the command sent and the callback argument are exactly those of `OnSet`. |
| `AbstractCharacteristic.Characteristic.HandleGet` | src/characteristic/abstractCharacteristic.ts:108-110 | Answers the cache. |
| `RotationSpeed.FromApi` | src/characteristic/rotationSpeedCharacteristic.ts:35-46 | Defined exactly on the four wind codes 2/4/6/8, each mapped to the top of its quarter (12.5 times the code). Any other value, `undefined` included, gives `undefined`. |
| `RotationSpeed.ToApi` | src/characteristic/rotationSpeedCharacteristic.ts:48-61 | Always a wind code. A percentage in (0, 100] gets the code whose bucket (ceiling - 25, ceiling] holds it. A percentage at or below 0, or above 75, gets code 8. |
| `RotationSpeed.ToApiBuckets` | src/characteristic/rotationSpeedCharacteristic.ts:49-60 | The four buckets have inclusive upper bounds, and at or below 0 the default applies. |
| `RotationSpeed.ToApiIsLeastCoveringCode` | src/characteristic/rotationSpeedCharacteristic.ts:48-61 | For p in (0, 100], the chosen code is at most a code exactly when p is at most that code's ceiling. So the chosen code is the least one covering p. |
| `RotationSpeed.CodesRoundTrip` | src/characteristic/rotationSpeedCharacteristic.ts:35-61 | Every wind code survives a trip to the hub and back. |
| `RotationSpeed.QuartersRoundTrip` | src/characteristic/rotationSpeedCharacteristic.ts:32-61 | The four quarter percentages (the declared step is 25) survive a trip to the device and back. |
| `RotationSpeed.ToApiMonotone` | src/characteristic/rotationSpeedCharacteristic.ts:48-61 | Above zero, a faster request never gets a slower code. |
| `RotationSpeed.New` | src/characteristic/rotationSpeedCharacteristic.ts:15-33 | The fan-speed characteristic binds field `airState.windStrength` with command `Set` to the rotation-speed characteristic, and starts with an empty cache. |
| `RotationSpeed.SixtyAfterFifty` | src/characteristic/rotationSpeedCharacteristic.ts:48-61 | Setting 60 while 50 is cached sends code 6, and once accepted it caches 60. |
| `RotationSpeed.MidStrengthShowsFifty` | src/characteristic/rotationSpeedCharacteristic.ts:35-46 | A snapshot reporting wind strength 4 caches 50. |
| `TargetHeaterCoolerMode.FromApi` | src/characteristic/targetHeaterCoolerStateCharacteristic_ad.ts:81-93 | Defined exactly on operation codes 0 to 3. Anything else gives `undefined`. |
| `TargetHeaterCoolerMode.ToApi` | src/characteristic/targetHeaterCoolerStateCharacteristic_ad.ts:95-105 | Every state gets a known code other than 2, and that code reads back as the same state. |
| `TargetHeaterCoolerMode.FromApiTable` | src/characteristic/targetHeaterCoolerStateCharacteristic_ad.ts:83-92 | 0 is COOL, 1 is HEAT, 2 and 3 are AUTO, and `undefined` gives `undefined`. |
| `TargetHeaterCoolerMode.CodesRoundTrip` | src/characteristic/targetHeaterCoolerStateCharacteristic_ad.ts:81-105 | Codes 0, 1 and 3 survive a round trip. Code 2 comes back as 3. |
| `TargetHeaterCoolerMode.New` | src/characteristic/targetHeaterCoolerStateCharacteristic_ad.ts:25-46 | Binds `airState.opMode` with command `Set` to the target heater-cooler state, and starts with an empty cache. |
| `CurrentHeaterCoolerMode.FromApi` | src/characteristic/currentHeaterCoolerStateCharacteristic_ad.ts:37-49 | Defined exactly on codes 0 to 3, and never HEATING. |
| `CurrentHeaterCoolerMode.ToApi` | src/characteristic/currentHeaterCoolerStateCharacteristic_ad.ts:51-63 | Every state gets a known code other than 1. Every state reads back as itself, except HEATING, which reads back as COOLING. |
| `CurrentHeaterCoolerMode.FromApiTable` | src/characteristic/currentHeaterCoolerStateCharacteristic_ad.ts:39-48 | 0 and 1 are COOLING, 2 is INACTIVE, 3 is IDLE, and `undefined` gives `undefined`. |
| `CurrentHeaterCoolerMode.New` | src/characteristic/currentHeaterCoolerStateCharacteristic_ad.ts:21-35 | Binds `airState.opMode` to the current heater-cooler state, with no SET path for the hub, and starts with an empty cache. |
| `CurrentHeaterCoolerMode.ReadingsAgreeWithTarget` | src/characteristic/currentHeaterCoolerStateCharacteristic_ad.ts:37-49 | One snapshot with a known code drives both readings of the shared field. The current state is COOLING exactly when the target is COOL or HEAT, and INACTIVE or IDLE exactly when the target is AUTO. |
| `SplitThreshold.CharTypeFor` | src/characteristic/abstractSplitTemperatureThresholdCharacteristic_ad.ts:41-43 | Mode 'cool' selects the cooling threshold, and the other mode the heating threshold. |
| `SplitThreshold.RequiredState` | src/characteristic/abstractSplitTemperatureThresholdCharacteristic_ad.ts:63-66 | 'cool' requires COOL and 'heat' requires HEAT. Neither requires AUTO. |
| `SplitThreshold.ToApi` | src/characteristic/abstractSplitTemperatureThresholdCharacteristic_ad.ts:107-109 | A temperature reads back unchanged. |
| `SplitThreshold.NoClamping` | src/characteristic/abstractSplitTemperatureThresholdCharacteristic_ad.ts:51-109 | The declared range 17 to 30 is not enforced: any reading, `undefined` included, passes through both conversions unchanged. |
| `SplitThreshold.SnapshotIgnoresMode` | src/characteristic/abstractSplitTemperatureThresholdCharacteristic_ad.ts:59-101 | Whatever the mode and the hub's target state, a snapshot leaves the cache holding the reported target temperature. |
| `SplitThreshold.SetIgnoresMode` | src/characteristic/abstractSplitTemperatureThresholdCharacteristic_ad.ts:16-56 | SETs are not gated by mode. Both thresholds handle a SET identically, and both send it to the shared target-temperature field. |
| `SplitThreshold.SplitThreshold.constructor` | src/characteristic/abstractSplitTemperatureThresholdCharacteristic_ad.ts:31-56 | Builds a settable characteristic on the target-temperature field, with the mode's type, on the given service and device. |
| `SplitThreshold.SplitThreshold.HandleUpdatedSnapshot` | src/characteristic/abstractSplitTemperatureThresholdCharacteristic_ad.ts:59-101 | The mismatch flag (the log condition) is set exactly when the service's target state is not the one the mode requires. The cache still becomes the reported temperature, and only this threshold's displayed value changes. |
| `CoolingThreshold.New` | src/characteristic/coolingThresholdTemperatureCharacteristic_ad.ts:7-13 | The cooling threshold has mode 'cool', the cooling characteristic type, field `airState.tempState.target`, command `Set` and identity conversions. |
| `HeatingThreshold.New` | src/characteristic/heatingThresholdTemperatureCharacteristic_ad.ts:7-13 | The heating threshold has mode 'heat', the heating characteristic type, the same field and command, and identity conversions. |
| `HeatingThreshold.SharesFieldWithCooling` | src/characteristic/heatingThresholdTemperatureCharacteristic_ad.ts:12 | Both thresholds read the same key, and a snapshot leaves both caches equal. |
| `HeatingThreshold.RefreshBoth` | src/characteristic/abstractSplitTemperatureThresholdCharacteristic_ad.ts:59-101 | One snapshot given to both thresholds leaves both holding the reported target temperature. |
| `ModeSwitch.FromApi` | src/characteristic/energySaverModeSwitchCharacteristic.ts:63-65 | On exactly when the raw value is present and positive. It is never `undefined`. |
| `ModeSwitch.ToApi` | src/characteristic/energySaverModeSwitchCharacteristic.ts:67-69 | On is 1 and off is 0, and both read back unchanged. |
| `ModeSwitch.ExclusiveSwitch.EnergySaver` | src/characteristic/energySaverModeSwitchCharacteristic.ts:22-44 | The energy-saver switch binds `airState.powerSave.basic` to the On characteristic of its own service, and knows the jet-mode service as its sibling. |
| `ModeSwitch.ExclusiveSwitch.JetMode` | src/characteristic/jetModeSwitchCharacteristic.ts:22-44 | The jet-mode switch binds `airState.wMode.jet` to its own service, and knows the energy-saver service as its sibling. |
| `ModeSwitch.ExclusiveSwitch.HandleSet` | src/characteristic/energySaverModeSwitchCharacteristic.ts:46-61 | Switching on first shows the sibling as off, whatever the ordinary SET then does. Switching off leaves the sibling alone. The switch's own cache, command and callback follow `OnSet`. |
| `ModeSwitch.SwitchOnTurnsSiblingOff` | src/characteristic/jetModeSwitchCharacteristic.ts:46-61 | Switching one of the pair on shows the other as off at once. The other's cache is untouched, and any command sent is for the switched field with value 1. |
| `ModeSwitch.StaleSiblingSkipsSwitchOn` | src/characteristic/jetModeSwitchCharacteristic.ts:46-61 | After one switch is switched on while the other's cache holds on, switching the other on sends no command and its cache still holds on, although it was shown off. |
| `CapabilitySet.CharacteristicsForModel` | src/getCharacteristicsForModel_ad.ts:15-44 | Eight distinct characteristics in the order Active, cooling threshold, heating threshold, target state, current state, current temperature, filter change, filter life. Fan speed, swing and both mode switches are absent. |
| `CapabilitySet.ModelIsIgnored` | src/getCharacteristicsForModel_ad.ts:15-44 | Every model gets the same list. |
| `CapabilitySet.SharedFields` | src/getCharacteristicsForModel_ad.ts:28-39 | In a list built and wired along the model's capabilities, every entry of a modelled class reads the field its class binds. Both threshold entries read the target-temperature field, and the target-state and current-state entries both read `airState.opMode`. When the other entries read other fields, these are the only entries that read those two fields. |
| `CapabilitySet.Instantiate` | src/getCharacteristicsForModel_ad.ts:23-43 | Allocates one fresh characteristic per capability, in the list's order. No two share a cache and every cache is empty. Each is on the given service and device, binds its capability's characteristic type, and is wired as its class wires it: the thresholds as cooling and heating overrides, the target state with its settable operation-mode binding, the current state with its read-only one. Active, current temperature and both filter entries run the field and conversions passed in for them. |
| `CapabilitySet.ListTypesDistinct` | src/getCharacteristicsForModel_ad.ts:23-43 | Characteristics built along the model's list bind pairwise different characteristic types, so no two of them push to the same slot of the service. |
| `PlatformAccessory.RefreshIntervalMs` | src/platformAccessory.ts:106-113 | The refresh period is the configured number of whole minutes, in milliseconds. |
| `PlatformAccessory.ModelLabel` | src/platformAccessory.ts:48 | A missing or empty model name becomes 'Not available'. Any other name is kept. |
| `PlatformAccessory.Merge` | src/platformAccessory.ts:141-145 | The two filter keys are overwritten from the filter response, `undefined` when the response lacks them. Every other field is unchanged. |
| `PlatformAccessory.RefreshFailurePaths` | src/platformAccessory.ts:124-162 | When logged out, nothing is asked for and nothing is dispatched. A failed device query means the filter status is never asked for. A failed query of either kind means nothing is dispatched. A dispatch happens only after both queries. |
| `PlatformAccessory.DisplayedAfterKeepsOtherSlots` | src/platformAccessory.ts:148-157 | After a dispatch, a characteristic type that no entry on the service pushed to keeps its displayed value. |
| `PlatformAccessory.DisplayedAfterOwnSlot` | src/platformAccessory.ts:148-157 | With one entry per characteristic type, every entry whose conversion returned leaves its service showing exactly the value it pushed. |
| `PlatformAccessory.Dispatch` | src/platformAccessory.ts:149-156 | One characteristic takes the snapshot through its own handler, the threshold override included. Its cache is refreshed. Its service shows the converted value at its characteristic type, or is unchanged when the conversion threw. |
| `PlatformAccessory.DispatchNext` | src/platformAccessory.ts:148-157 | One turn of the loop: the next entry's cache is refreshed, the others keep theirs, and every service shows the pushes of the entries dispatched so far, in order. |
| `PlatformAccessory.DispatchAll` | src/platformAccessory.ts:148-157 | Every characteristic gets the snapshot once, in list order. A characteristic whose conversion throws keeps its cache and pushes nothing, and the rest are still updated. Every service ends up with exactly the pushes made to it applied in list order. |
| `PlatformAccessory.Accessory.constructor` | src/platformAccessory.ts:106-118 | Both intervals are running: the configured refresh period and the 60-second keep-alive. |
| `PlatformAccessory.Accessory.UpdateCharacteristics` | src/platformAccessory.ts:124-163 | The device is queried only when logged in, and its filter status only after the device query succeeded. When both succeed, every characteristic is refreshed from the merged snapshot, and every service shows the pushes in list order. Otherwise no cache and no displayed value changes. The intervals are left alone. |
| `PlatformAccessory.Accessory.RenewMonitoring` | src/platformAccessory.ts:165-176 | One keep-alive request when logged in and none otherwise. Its failure is swallowed. |
| `PlatformAccessory.Accessory.UnregisterAccessory` | src/platformAccessory.ts:26-34 | Both intervals are cleared. |
| `PlatformAccessory.NewAccessory` | src/platformAccessory.ts:48-105 | The constructor's first half: the accessory holds the model's list, fresh, with one characteristic per type, every cache empty, and each entry on the heater-cooler service and wired as its class wires it. Both intervals are set and nothing has been requested yet. |
| `PlatformAccessory.Accessory.Start` | src/platformAccessory.ts:105-114 | The constructor's second half: one refresh, then one keep-alive. The requests are the refresh's followed by the keep-alive's. Each cache and each displayed value is refreshed from the merged snapshot when one was dispatched and unchanged otherwise. The intervals are left alone. |
| `PlatformAccessory.Launch` | src/platformAccessory.ts:44-122 | The accessory gets the model's capability list on the heater-cooler service, one characteristic per type, each wired as its class wires it. It runs one refresh and one keep-alive, and starts both intervals. Its requests are the calls the constructor issues, up to order. After the first refresh each cache is what its handler makes of the merged snapshot from an empty cache, or still empty when nothing was dispatched. The service shows the first refresh's pushes, or is unchanged when nothing was dispatched. |
| `PlatformAccessory.RunToCompletionReorders` | src/platformAccessory.ts:105-114 | Running the first refresh to completion and then the keep-alive, from no requests, makes the same calls as the constructor, which issues the keep-alive while the device query is pending: only the order differs. |
| `PlatformAccessory.RefreshedListCaches` | src/platformAccessory.ts:148-157 | After one snapshot from empty caches, both thresholds hold the reported target temperature, the target state holds its reading of the operation mode, and the current state holds its own reading of the same field. |

## Left out

- The ThinQ HTTP client, the login procedure, logging and HAP's event plumbing. Their outcomes enter as parameters: fetch results, command results, the login flag, `apiReady`.
- Timers and asynchrony. An interval is modelled by its period, and each handler runs to completion. Two overlapping refreshes, or a SET racing a snapshot, are covered only as a sequence of events (`RunIsLastWrite`).
- AbstractCharacteristic.SecondIdenticalSetIsSkipped and AbstractCharacteristic.RepeatedSetsStopAtAcceptance cover SETs issued one after another, each settled before the next. The cache is written only once a command settles (src/characteristic/abstractCharacteristic.ts:97-98), so two identical SETs issued before the first settles both send a command.
- AbstractCharacteristic.OnSet: a throwing `getApiValueFromState` is not modelled, because `toApi` is total here. In the source, the call at src/characteristic/abstractCharacteristic.ts:93 sits outside any try, so such a throw escapes handleSet: no command is sent, the callback is never called, and the cache is unchanged. The conversions modelled here do not throw on the states the hub sends.
- PlatformAccessory.RefreshIntervalMs takes whole minutes, zero included. The source multiplies whatever the platform's refresh setting returns, which may be fractional.
- PlatformAccessory.Launch: the request list is stated as a multiset. In the source, the keep-alive call goes out while the first refresh is still waiting for the device query, so the keep-alive request comes before the filter query (`IssuedRequests`). The model runs the first refresh to completion first, and `RunToCompletionReorders` shows that only the order differs.
- The hub updating its own displayed value after a SET is part of HAP, not of the plugin, and is not modelled.
- TargetHeaterCoolerMode.New: the constructor calls `logWarning` (src/characteristic/targetHeaterCoolerStateCharacteristic_ad.ts:42), which the base class at src/characteristic/abstractCharacteristic.ts does not define; it has only `logError` and `logDebug`. As written, TypeScript rejects the call, and in JavaScript it throws a TypeError after the base constructor has run. That would abort the capability list and the accessory constructor. The model treats the call as a log line and the construction as succeeding.
- Active, current temperature, filter change and filter life are not part of this model. Their fields and conversions are parameters (`Unseen`).
- SharedFields: it states that only the threshold entries read the target-temperature field, and only the two mode entries read `airState.opMode`, only under the condition that the four entries outside this model read other fields. Their keys are parameters, because their classes are not part of this model.
- Accessory information (manufacturer, serial number, name) and the creation of the services are HAP plumbing and are not modelled, except the model label that selects the list.
- getDevice and getDeviceId: the device id is an input. In the source it is read from the accessory context and may be `undefined`.
- Arguments to getCharacteristicsForModel_ad. The call at src/platformAccessory.ts:94-102 passes seven arguments, but the function at src/getCharacteristicsForModel_ad.ts:15-22 takes five. So positionally, the energy-saver service would be taken as the device id. The model passes the device id and the heater-cooler service as evidently intended, and the two switch services are not used by the list.
- The current heater-cooler state's SET. Its class declares `handleSet = undefined`, but that field is initialised after the base constructor has already bound the base `handleSet` to SET events. HAP marks the characteristic read-only, so no SET reaches it. The model gives it no SET path (`settable` false).
- Numbers are unbounded reals. JavaScript's double rounding, NaN and non-numeric field values are not modelled.
- The snapshot is merged in place in the source and as a value here. Nothing else reads the object afterwards.
- The outer catch of updateCharacteristics catches failures of the two queries, modelled as `FetchFailed`. A throwing conversion is caught inside handleUpdatedSnapshot's own try (src/characteristic/abstractCharacteristic.ts:65-72), modelled as `Threw`, and leaves that characteristic alone. The per-characteristic catch at src/platformAccessory.ts:149-156 only sees throws outside that try, such as the threshold override's read of the service before :100. The model has no such throw.
