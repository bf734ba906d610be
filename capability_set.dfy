/**
 * The capability set of the heater-cooler accessory: a fixed, ordered list of
 * characteristics, the same for every model, all on the one heater-cooler
 * service and the one device.
 */
module CapabilitySet {
  import opened Wrappers
  import opened HomeKit
  import opened ThinQ
  import opened AbstractCharacteristic
  import SplitThreshold
  import RotationSpeed
  import TargetHeaterCoolerMode
  import CurrentHeaterCoolerMode
  import CoolingThreshold
  import HeatingThreshold

  /** The characteristic classes of the plugin. */
  datatype Capability =
    | ActiveCharacteristic
    | CoolingThresholdCharacteristic
    | HeatingThresholdCharacteristic
    | TargetHeaterCoolerStateCharacteristic
    | CurrentHeaterCoolerStateCharacteristic
    | CurrentTemperatureCharacteristic
    | FilterChangeCharacteristic
    | FilterLifeCharacteristic
    | RotationSpeedCharacteristic
    | SwingModeCharacteristic
    | EnergySaverModeSwitchCharacteristic
    | JetModeSwitchCharacteristic

  /** The field a capability reads, where its class is part of this model. */
  function FieldOf(c: Capability): Option<FieldKey>
  {
    match c
    case CoolingThresholdCharacteristic => Some(TargetTemperatureKey)
    case HeatingThresholdCharacteristic => Some(TargetTemperatureKey)
    case TargetHeaterCoolerStateCharacteristic => Some(OpModeKey)
    case CurrentHeaterCoolerStateCharacteristic => Some(OpModeKey)
    case RotationSpeedCharacteristic => Some(WindStrengthKey)
    case EnergySaverModeSwitchCharacteristic => Some(PowerSaveKey)
    case JetModeSwitchCharacteristic => Some(JetModeKey)
    case _ => None
  }

  /** getCharacteristicsForModel_ad: eight characteristics in a fixed order; `model` is not read. */
  function CharacteristicsForModel(model: string): (caps: seq<Capability>)
    ensures |caps| == 8
    ensures caps[0] == ActiveCharacteristic
    ensures caps[1] == CoolingThresholdCharacteristic && caps[2] == HeatingThresholdCharacteristic
    ensures caps[3] == TargetHeaterCoolerStateCharacteristic && caps[4] == CurrentHeaterCoolerStateCharacteristic
    ensures caps[5] == CurrentTemperatureCharacteristic
    ensures caps[6] == FilterChangeCharacteristic && caps[7] == FilterLifeCharacteristic
    ensures forall i :: 0 <= i < |caps| ==>
      caps[i] != RotationSpeedCharacteristic && caps[i] != SwingModeCharacteristic &&
      caps[i] != EnergySaverModeSwitchCharacteristic && caps[i] != JetModeSwitchCharacteristic
    ensures forall i, j :: 0 <= i < j < |caps| ==> caps[i] != caps[j]
  {
    [ ActiveCharacteristic,
      CoolingThresholdCharacteristic,
      HeatingThresholdCharacteristic,
      TargetHeaterCoolerStateCharacteristic,
      CurrentHeaterCoolerStateCharacteristic,
      CurrentTemperatureCharacteristic,
      FilterChangeCharacteristic,
      FilterLifeCharacteristic ]
  }

  /** The hub characteristic type each capability's class binds. */
  function CapabilityType(c: Capability): CharType
  {
    match c
    case ActiveCharacteristic => Active
    case CoolingThresholdCharacteristic => CoolingThresholdTemperature
    case HeatingThresholdCharacteristic => HeatingThresholdTemperature
    case TargetHeaterCoolerStateCharacteristic => TargetHeaterCoolerState
    case CurrentHeaterCoolerStateCharacteristic => CurrentHeaterCoolerState
    case CurrentTemperatureCharacteristic => CurrentTemperature
    case FilterChangeCharacteristic => FilterChangeIndication
    case FilterLifeCharacteristic => FilterLifeLevel
    case RotationSpeedCharacteristic => CharType.RotationSpeed
    case SwingModeCharacteristic => SwingMode
    case EnergySaverModeSwitchCharacteristic => On
    case JetModeSwitchCharacteristic => On
  }


  /** Every model gets the same list. */
  lemma ModelIsIgnored(m1: string, m2: string)
    ensures CharacteristicsForModel(m1) == CharacteristicsForModel(m2)
  {
  }

  /** An allocated characteristic, by the form of its snapshot handler. */
  datatype Handler =
    | Plain(c: Characteristic<real>)
    | Threshold(t: SplitThreshold.SplitThreshold)
    | TargetMode(target: Characteristic<TargetState>)
    | CurrentMode(current: Characteristic<CurrentState>)

  datatype Entry = Entry(capability: Capability, handler: Handler)

  /** The object holding an entry's cache. */
  function CacheHolder(e: Entry): (holder: object)
    ensures !(holder is Service)
  {
    match e.handler
    case Plain(c) => c as object
    case Threshold(t) => t.base as object
    case TargetMode(c) => c as object
    case CurrentMode(c) => c as object
  }

  /** The service an entry pushes to. */
  function ServiceOf(e: Entry): Service
  {
    match e.handler
    case Plain(c) => c.service
    case Threshold(t) => t.base.service
    case TargetMode(c) => c.service
    case CurrentMode(c) => c.service
  }

  /** The characteristic type an entry pushes to. */
  function CharTypeOf(e: Entry): CharType
  {
    match e.handler
    case Plain(c) => c.binding.charType
    case Threshold(t) => t.base.binding.charType
    case TargetMode(c) => c.binding.charType
    case CurrentMode(c) => c.binding.charType
  }

  function DeviceOf(e: Entry): string
  {
    match e.handler
    case Plain(c) => c.binding.deviceId
    case Threshold(t) => t.base.binding.deviceId
    case TargetMode(c) => c.binding.deviceId
    case CurrentMode(c) => c.binding.deviceId
  }

  /** The snapshot field an entry reads. */
  function KeyOf(e: Entry): FieldKey
  {
    match e.handler
    case Plain(c) => c.binding.key
    case Threshold(t) => t.base.binding.key
    case TargetMode(c) => c.binding.key
    case CurrentMode(c) => c.binding.key
  }

  /** An entry's cache, whatever the type of its states. */
  datatype Cache =
    | RealCache(r: Option<real>)
    | TargetCache(target: Option<TargetState>)
    | CurrentCache(current: Option<CurrentState>)

  function CacheOf(e: Entry): Cache
    reads CacheHolder(e)
  {
    match e.handler
    case Plain(c) => RealCache(c.cachedState)
    case Threshold(t) => RealCache(t.base.cachedState)
    case TargetMode(c) => TargetCache(c.cachedState)
    case CurrentMode(c) => CurrentCache(c.cachedState)
  }

  /** The empty cache of an entry's kind: no state accepted yet. */
  function EmptyCache(e: Entry): Cache
  {
    match e.handler
    case Plain(_) => RealCache(None)
    case Threshold(_) => RealCache(None)
    case TargetMode(_) => TargetCache(None)
    case CurrentMode(_) => CurrentCache(None)
  }

  /** An entry holds no state yet. */
  predicate Unset(e: Entry)
    reads CacheHolder(e)
  {
    CacheOf(e) == EmptyCache(e)
  }

  ghost predicate EntryValid(e: Entry)
  {
    e.handler.Threshold? ==> e.handler.t.Valid()
  }

  function Capabilities(es: seq<Entry>): (caps: seq<Capability>)
    ensures |caps| == |es|
    ensures forall i :: 0 <= i < |es| ==> caps[i] == es[i].capability
  {
    seq(|es|, i requires 0 <= i < |es| => es[i].capability)
  }

  /** No two entries share a cache. */
  ghost predicate Distinct(es: seq<Entry>)
  {
    forall i, j :: 0 <= i < j < |es| ==> CacheHolder(es[i]) != CacheHolder(es[j])
  }

  /** The conversions of a characteristic whose class is not part of this model. */
  datatype Unseen = Unseen(
    command: CommandKind,
    key: FieldKey,
    fromApi: Raw -> Attempt<Option<real>>,
    toApi: real -> real,
    settable: bool)

  /** The binding of a characteristic whose class is not part of this model. */
  function UnseenBinding(capability: Capability, deviceId: string, u: Unseen): Binding<real>
  {
    Binding(deviceId, CapabilityType(capability), u.command, u.key, u.fromApi, u.toApi, x => Number(x))
  }

  /** An entry built from the conversions `u`. */
  ghost predicate RunsUnseen(e: Entry, deviceId: string, u: Unseen)
  {
    e.handler.Plain? && e.handler.c.binding == UnseenBinding(e.capability, deviceId, u) && e.handler.c.settable == u.settable
  }

  /**
   * The handler and binding the class of an entry's capability gives it: the
   * thresholds are split thresholds of the matching mode, the two modes carry
   * their own bindings, and every other class is a plain characteristic.
   */
  ghost predicate Wired(e: Entry, deviceId: string)
  {
    match e.capability
    case CoolingThresholdCharacteristic => e.handler.Threshold? && e.handler.t.mode == SplitThreshold.CoolMode
    case HeatingThresholdCharacteristic => e.handler.Threshold? && e.handler.t.mode == SplitThreshold.HeatMode
    case TargetHeaterCoolerStateCharacteristic =>
      e.handler.TargetMode? && e.handler.target.binding == TargetHeaterCoolerMode.TargetBinding(deviceId) && e.handler.target.settable
    case CurrentHeaterCoolerStateCharacteristic =>
      e.handler.CurrentMode? && e.handler.current.binding == CurrentHeaterCoolerMode.CurrentBinding(deviceId) && !e.handler.current.settable
    case _ => e.handler.Plain?
  }

  /**
   * Where an entry is wired: on `service` and `deviceId`, bound to its
   * capability's characteristic type, with its class's handler and binding.
   * Only constants are involved, so the fact survives any later change to
   * the heap.
   */
  ghost predicate Placed(e: Entry, service: Service, deviceId: string)
  {
    && EntryValid(e)
    && ServiceOf(e) == service
    && DeviceOf(e) == deviceId
    && CharTypeOf(e) == CapabilityType(e.capability)
    && Wired(e, deviceId)
  }

  /**
   * Aliasing on the built list: every entry whose class is part of this model
   * reads that class's field, so the two thresholds both read
   * airState.tempState.target and the target and current states both read
   * airState.opMode. When the four characteristics outside this model read
   * other fields, these are exactly the entries on those two fields.
   */
  lemma SharedFields(es: seq<Entry>, model: string, service: Service, deviceId: string)
    requires Capabilities(es) == CharacteristicsForModel(model)
    requires forall i :: 0 <= i < |es| ==> Placed(es[i], service, deviceId)
    ensures forall i :: 0 <= i < |es| && FieldOf(es[i].capability).Some? ==> KeyOf(es[i]) == FieldOf(es[i].capability).value
    ensures KeyOf(es[1]) == TargetTemperatureKey && KeyOf(es[2]) == TargetTemperatureKey
    ensures KeyOf(es[3]) == OpModeKey && KeyOf(es[4]) == OpModeKey
    ensures (forall i :: 0 <= i < |es| && FieldOf(es[i].capability).None? ==>
               KeyOf(es[i]) != TargetTemperatureKey && KeyOf(es[i]) != OpModeKey) ==>
      forall i :: 0 <= i < |es| ==>
        (KeyOf(es[i]) == TargetTemperatureKey <==> i == 1 || i == 2) &&
        (KeyOf(es[i]) == OpModeKey <==> i == 3 || i == 4)
  {
    forall i | 0 <= i < |es| && FieldOf(es[i].capability).Some?
      ensures KeyOf(es[i]) == FieldOf(es[i].capability).value
    {
      assert Wired(es[i], deviceId) && EntryValid(es[i]);
    }
  }

  /** Only the two mode switches share a hub characteristic type (On). */
  lemma SharedTypes(c: Capability, d: Capability)
    ensures CapabilityType(c) == CapabilityType(d) <==>
      c == d || (IsModeSwitch(c) && IsModeSwitch(d))
  {
  }

  predicate IsModeSwitch(c: Capability)
  {
    c == EnergySaverModeSwitchCharacteristic || c == JetModeSwitchCharacteristic
  }

  /**
   * Entries placed along the model's capability list bind pairwise different
   * characteristic types, because the list's capabilities map to different
   * types.
   */
  lemma ListTypesDistinct(es: seq<Entry>, model: string, service: Service, deviceId: string)
    requires Capabilities(es) == CharacteristicsForModel(model)
    requires forall i :: 0 <= i < |es| ==> Placed(es[i], service, deviceId)
    ensures forall i, j :: 0 <= i < j < |es| ==> CharTypeOf(es[i]) != CharTypeOf(es[j])
  {
    var caps := CharacteristicsForModel(model);
    forall i, j | 0 <= i < j < |es|
      ensures CharTypeOf(es[i]) != CharTypeOf(es[j])
    {
      SharedTypes(caps[i], caps[j]);
      assert CharTypeOf(es[i]) == CapabilityType(caps[i]) && CharTypeOf(es[j]) == CapabilityType(caps[j]);
    }
  }

  /**
   * A list under construction: no two entries share a cache, every cache is
   * empty and every entry is placed on `service` and `deviceId`.
   */
  ghost predicate Built(es: seq<Entry>, service: Service, deviceId: string)
    reads set i | 0 <= i < |es| :: CacheHolder(es[i])
  {
    && Distinct(es)
    && (forall i :: 0 <= i < |es| ==> Unset(es[i]))
    && (forall i :: 0 <= i < |es| ==> Placed(es[i], service, deviceId))
  }

  /** A characteristic whose class is not part of this model, with the given conversions, appended to `es`. */
  method NewUnseen(es: seq<Entry>, capability: Capability, service: Service, deviceId: string, u: Unseen) returns (e: Entry)
    requires FieldOf(capability).None?
    requires Built(es, service, deviceId)
    ensures e.capability == capability && fresh(CacheHolder(e)) && Built(es + [e], service, deviceId)
    ensures RunsUnseen(e, deviceId, u)
  {
    var c := new Characteristic(service, UnseenBinding(capability, deviceId, u), u.settable);
    e := Entry(capability, Plain(c));
  }

  /** The two split thresholds, cooling then heating, appended to `es`. */
  method NewThresholds(es: seq<Entry>, service: Service, deviceId: string) returns (cool: Entry, heat: Entry)
    requires Built(es, service, deviceId)
    ensures cool.capability == CoolingThresholdCharacteristic && heat.capability == HeatingThresholdCharacteristic
    ensures fresh(CacheHolder(cool)) && fresh(CacheHolder(heat))
    ensures Built(es + [cool, heat], service, deviceId)
  {
    var c := CoolingThreshold.New(service, deviceId);
    cool := Entry(CoolingThresholdCharacteristic, Threshold(c));
    assert Built(es + [cool], service, deviceId);
    var h := HeatingThreshold.New(service, deviceId);
    heat := Entry(HeatingThresholdCharacteristic, Threshold(h));
    assert es + [cool, heat] == (es + [cool]) + [heat];
  }

  /** The target and current heater-cooler states, in that order, appended to `es`. */
  method NewModes(es: seq<Entry>, service: Service, deviceId: string) returns (target: Entry, current: Entry)
    requires Built(es, service, deviceId)
    ensures target.capability == TargetHeaterCoolerStateCharacteristic && current.capability == CurrentHeaterCoolerStateCharacteristic
    ensures fresh(CacheHolder(target)) && fresh(CacheHolder(current))
    ensures Built(es + [target, current], service, deviceId)
  {
    var t := TargetHeaterCoolerMode.New(service, deviceId);
    target := Entry(TargetHeaterCoolerStateCharacteristic, TargetMode(t));
    assert Built(es + [target], service, deviceId);
    var c := CurrentHeaterCoolerMode.New(service, deviceId);
    current := Entry(CurrentHeaterCoolerStateCharacteristic, CurrentMode(c));
    assert es + [target, current] == (es + [target]) + [current];
  }

  /** The filter-change and filter-life characteristics, in that order, appended to `es`. */
  method NewFilters(es: seq<Entry>, service: Service, deviceId: string, filterChange: Unseen, filterLife: Unseen)
    returns (change: Entry, life: Entry)
    requires Built(es, service, deviceId)
    ensures change.capability == FilterChangeCharacteristic && life.capability == FilterLifeCharacteristic
    ensures fresh(CacheHolder(change)) && fresh(CacheHolder(life))
    ensures RunsUnseen(change, deviceId, filterChange) && RunsUnseen(life, deviceId, filterLife)
    ensures Built(es + [change, life], service, deviceId)
  {
    change := NewUnseen(es, FilterChangeCharacteristic, service, deviceId, filterChange);
    life := NewUnseen(es + [change], FilterLifeCharacteristic, service, deviceId, filterLife);
    assert es + [change, life] == (es + [change]) + [life];
  }

  /** The first five entries of the list: power, the two thresholds and the two modes. */
  method NewControls(model: string, service: Service, deviceId: string, active: Unseen) returns (es: seq<Entry>)
    ensures |es| == 5 && forall k :: 0 <= k < 5 ==> es[k].capability == CharacteristicsForModel(model)[k]
    ensures Built(es, service, deviceId)
    ensures forall i :: 0 <= i < |es| ==> fresh(CacheHolder(es[i]))
    ensures RunsUnseen(es[0], deviceId, active)
  {
    es := [];
    var a := NewUnseen(es, ActiveCharacteristic, service, deviceId, active);
    es := es + [a];
    var cool, heat := NewThresholds(es, service, deviceId);
    es := es + [cool, heat];
    var target, current := NewModes(es, service, deviceId);
    es := es + [target, current];
  }

  /** The last three entries of the list, appended to the first five: the sensors. */
  method NewSensors(es: seq<Entry>, model: string, service: Service, deviceId: string,
                    currentTemperature: Unseen, filterChange: Unseen, filterLife: Unseen) returns (all: seq<Entry>)
    requires |es| == 5 && forall k :: 0 <= k < 5 ==> es[k].capability == CharacteristicsForModel(model)[k]
    requires Built(es, service, deviceId)
    ensures |all| == 8 && forall k :: 0 <= k < 8 ==> all[k].capability == CharacteristicsForModel(model)[k]
    ensures Built(all, service, deviceId)
    ensures forall i :: 0 <= i < |es| ==> all[i] == es[i]
    ensures forall i :: 5 <= i < |all| ==> fresh(CacheHolder(all[i]))
    ensures RunsUnseen(all[5], deviceId, currentTemperature) && RunsUnseen(all[6], deviceId, filterChange)
    ensures RunsUnseen(all[7], deviceId, filterLife)
  {
    all := es;
    var temperature := NewUnseen(all, CurrentTemperatureCharacteristic, service, deviceId, currentTemperature);
    all := all + [temperature];
    var change, life := NewFilters(all, service, deviceId, filterChange, filterLife);
    all := all + [change, life];
  }

  /**
   * Allocating the list: one fresh characteristic per capability, in order,
   * each on `service` and `deviceId`, each with an empty cache, bound to its
   * capability's characteristic type and wired as its class wires it; the
   * four characteristics outside this model get the conversions passed in.
   */
  method Instantiate(model: string, service: Service, deviceId: string,
                     active: Unseen, currentTemperature: Unseen, filterChange: Unseen, filterLife: Unseen)
    returns (es: seq<Entry>)
    ensures Capabilities(es) == CharacteristicsForModel(model)
    ensures Distinct(es)
    ensures forall i :: 0 <= i < |es| ==> fresh(CacheHolder(es[i]))
    ensures forall i :: 0 <= i < |es| ==> Unset(es[i])
    ensures forall i :: 0 <= i < |es| ==> Placed(es[i], service, deviceId)
    ensures RunsUnseen(es[0], deviceId, active) && RunsUnseen(es[5], deviceId, currentTemperature)
    ensures RunsUnseen(es[6], deviceId, filterChange) && RunsUnseen(es[7], deviceId, filterLife)
  {
    var controls := NewControls(model, service, deviceId, active);
    es := NewSensors(controls, model, service, deviceId, currentTemperature, filterChange, filterLife);
  }
}
