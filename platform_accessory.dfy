/**
 * The accessory and its synchronisation driver. A refresh checks the login,
 * fetches the device snapshot and then the filter status, merges the two filter
 * keys into the snapshot and hands the merged snapshot to every characteristic
 * in list order. A keep-alive re-enables the device's event monitoring. The
 * vendor API's answers are inputs; the calls made to it are recorded in
 * `requests`. Timers are modelled by their periods (None: cleared).
 */
module PlatformAccessory {
  import opened Wrappers
  import opened HomeKit
  import opened ThinQ
  import opened AbstractCharacteristic
  import opened CapabilitySet
  import SplitThreshold
  import TargetHeaterCoolerMode
  import CurrentHeaterCoolerMode

  /** The keep-alive period, fixed at 60 seconds. */
  const RenewIntervalMs: nat := 60000

  /** Milliseconds in one minute. */
  const MsPerMinute: nat := 60000

  /** The refresh period for an interval configured in minutes: whole minutes, in milliseconds. */
  function RefreshIntervalMs(minutes: nat): (ms: nat)
    ensures ms % MsPerMinute == 0 && ms / MsPerMinute == minutes
  {
    minutes * 60 * 1000
  }

  /** `modelName || 'Not available'`: an empty or missing model name is replaced. */
  function ModelLabel(modelName: Option<string>): (name: string)
    ensures name != ""
    ensures modelName.None? || modelName.value == "" ==> name == "Not available"
    ensures modelName.Some? && modelName.value != "" ==> name == modelName.value
  {
    if modelName.Some? && modelName.value != "" then modelName.value else "Not available"
  }

  /**
   * The snapshot handed to the characteristics: the device snapshot with the two
   * filter keys overwritten from the filter response (`undefined` when missing).
   */
  function Merge(device: Snapshot, filter: FilterData): (merged: Snapshot)
    ensures merged.Keys == device.Keys + {FilterMaxTimeKey, FilterUseTimeKey}
    ensures Lookup(merged, FilterMaxTimeKey) == Lookup(filter, FilterMaxTimeKey)
    ensures Lookup(merged, FilterUseTimeKey) == Lookup(filter, FilterUseTimeKey)
    ensures forall k :: k != FilterMaxTimeKey && k != FilterUseTimeKey ==> Lookup(merged, k) == Lookup(device, k)
  {
    device[FilterMaxTimeKey := Lookup(filter, FilterMaxTimeKey)][FilterUseTimeKey := Lookup(filter, FilterUseTimeKey)]
  }

  /** The calls one refresh makes: none when logged out; the filter query only after the device query succeeded. */
  function RefreshRequests(deviceId: string, loggedIn: bool, device: Fetch<Snapshot>): seq<Request>
  {
    if !loggedIn then []
    else if device.FetchFailed? then [GetDevice(deviceId)]
    else [GetDevice(deviceId), GetDeviceFilterStatus(deviceId)]
  }

  /** The snapshot one refresh dispatches, if it gets that far. */
  function Dispatched(loggedIn: bool, device: Fetch<Snapshot>, filter: Fetch<FilterData>): Option<Snapshot>
  {
    if loggedIn && device.Fetched? && filter.Fetched? then Some(Merge(device.value, filter.value)) else None
  }

  /**
   * Logged out: nothing is fetched and nothing dispatched. A failed device query:
   * the filter status is never asked for and nothing is dispatched. A failed
   * filter query: both were asked for, still nothing is dispatched.
   */
  lemma RefreshFailurePaths(deviceId: string, loggedIn: bool, device: Fetch<Snapshot>, filter: Fetch<FilterData>)
    ensures !loggedIn ==> RefreshRequests(deviceId, loggedIn, device) == [] && Dispatched(loggedIn, device, filter).None?
    ensures device.FetchFailed? ==> GetDeviceFilterStatus(deviceId) !in RefreshRequests(deviceId, loggedIn, device)
    ensures device.FetchFailed? || filter.FetchFailed? ==> Dispatched(loggedIn, device, filter).None?
    ensures Dispatched(loggedIn, device, filter).Some? ==>
      RefreshRequests(deviceId, loggedIn, device) == [GetDevice(deviceId), GetDeviceFilterStatus(deviceId)]
  {
  }

  /**
   * An entry's cache after its handleUpdatedSnapshot with snapshot `s`, from
   * the cache `before` (a cache of another entry's kind is left as it is).
   */
  function CacheAfter(e: Entry, before: Cache, s: Snapshot): Cache
  {
    match (e.handler, before)
    case (Plain(c), RealCache(r)) => RealCache(CacheAfterSnapshot(c.binding, r, s))
    case (Threshold(t), RealCache(r)) => RealCache(CacheAfterSnapshot(t.base.binding, r, s))
    case (TargetMode(c), TargetCache(r)) => TargetCache(CacheAfterSnapshot(c.binding, r, s))
    case (CurrentMode(c), CurrentCache(r)) => CurrentCache(CacheAfterSnapshot(c.binding, r, s))
    case _ => before
  }

  /**
   * What the list's own classes cache after one snapshot from empty caches:
   * both thresholds hold the reported target temperature, and the target and
   * current states hold their two readings of the one operation-mode field.
   */
  lemma RefreshedListCaches(es: seq<Entry>, model: string, service: Service, deviceId: string, s: Snapshot)
    requires Capabilities(es) == CharacteristicsForModel(model)
    requires forall i :: 0 <= i < |es| ==> Placed(es[i], service, deviceId)
    ensures CacheAfter(es[1], EmptyCache(es[1]), s) == RealCache(Lookup(s, TargetTemperatureKey))
    ensures CacheAfter(es[2], EmptyCache(es[2]), s) == RealCache(Lookup(s, TargetTemperatureKey))
    ensures CacheAfter(es[3], EmptyCache(es[3]), s) == TargetCache(TargetHeaterCoolerMode.FromApi(Lookup(s, OpModeKey)))
    ensures CacheAfter(es[4], EmptyCache(es[4]), s) == CurrentCache(CurrentHeaterCoolerMode.FromApi(Lookup(s, OpModeKey)))
  {
    assert Placed(es[1], service, deviceId) && Placed(es[2], service, deviceId);
    assert Placed(es[3], service, deviceId) && Placed(es[4], service, deviceId);
  }

  twostate predicate Refreshed(e: Entry, s: Snapshot)
    reads CacheHolder(e)
  {
    CacheOf(e) == CacheAfter(e, old(CacheOf(e)), s)
  }

  twostate predicate Untouched(e: Entry)
    reads CacheHolder(e)
  {
    CacheOf(e) == old(CacheOf(e))
  }

  /** What a snapshot pushes through one binding: nothing when the conversion throws. */
  function PushOf<S>(b: Binding<S>, s: Snapshot): Option<Option<Value>>
  {
    match Incoming(b, s)
    case Returned(state) => Some(PushedValue(b, state))
    case Threw(_) => None
  }

  /** What a snapshot pushes through an entry (the threshold override always delegates). */
  function Pushed(e: Entry, s: Snapshot): Option<Option<Value>>
  {
    match e.handler
    case Plain(c) => PushOf(c.binding, s)
    case Threshold(t) => PushOf(t.base.binding, s)
    case TargetMode(c) => PushOf(c.binding, s)
    case CurrentMode(c) => PushOf(c.binding, s)
  }

  /**
   * The values `svc` displays after `es` take in `s` in list order, starting
   * from `d`: each entry on `svc` whose conversion returned overwrites its own
   * characteristic type.
   */
  function DisplayedAfter(es: seq<Entry>, s: Snapshot, svc: Service, d: map<CharType, Option<Value>>): map<CharType, Option<Value>>
    decreases |es|
  {
    if es == [] then d
    else
      var before := DisplayedAfter(es[..|es| - 1], s, svc, d);
      var e := es[|es| - 1];
      if ServiceOf(e) == svc && Pushed(e, s).Some? then before[CharTypeOf(e) := Pushed(e, s).value] else before
  }

  /** A characteristic type that no pushing entry on `svc` targets keeps what it displayed. */
  lemma {:induction false} DisplayedAfterKeepsOtherSlots(es: seq<Entry>, s: Snapshot, svc: Service, d: map<CharType, Option<Value>>, t: CharType)
    requires forall k :: 0 <= k < |es| && ServiceOf(es[k]) == svc && Pushed(es[k], s).Some? ==> CharTypeOf(es[k]) != t
    ensures t in DisplayedAfter(es, s, svc, d) <==> t in d
    ensures t in d ==> DisplayedAfter(es, s, svc, d)[t] == d[t]
    decreases |es|
  {
    if es != [] {
      DisplayedAfterKeepsOtherSlots(es[..|es| - 1], s, svc, d, t);
    }
  }

  /**
   * With one entry per characteristic type, every entry whose conversion
   * returned leaves its own service showing exactly what it pushed.
   */
  lemma {:induction false} DisplayedAfterOwnSlot(es: seq<Entry>, s: Snapshot, d: map<CharType, Option<Value>>, j: int)
    requires 0 <= j < |es|
    requires forall i, k :: 0 <= i < k < |es| ==> CharTypeOf(es[i]) != CharTypeOf(es[k])
    requires Pushed(es[j], s).Some?
    ensures CharTypeOf(es[j]) in DisplayedAfter(es, s, ServiceOf(es[j]), d)
    ensures DisplayedAfter(es, s, ServiceOf(es[j]), d)[CharTypeOf(es[j])] == Pushed(es[j], s).value
    decreases |es|
  {
    var n := |es| - 1;
    if j < n {
      DisplayedAfterOwnSlot(es[..n], s, d, j);
    }
  }

  /** One characteristic's handleUpdatedSnapshot, through its own override if it has one. */
  method Dispatch(e: Entry, s: Snapshot)
    requires EntryValid(e)
    modifies CacheHolder(e), ServiceOf(e)
    ensures Refreshed(e, s)
    ensures ServiceOf(e).displayed ==
      if Pushed(e, s).Some? then old(ServiceOf(e).displayed)[CharTypeOf(e) := Pushed(e, s).value]
      else old(ServiceOf(e).displayed)
  {
    match e.handler {
      case Plain(c) => c.HandleUpdatedSnapshot(s);
      case Threshold(t) =>
        var _ := t.HandleUpdatedSnapshot(s);
      case TargetMode(c) => c.HandleUpdatedSnapshot(s);
      case CurrentMode(c) => c.HandleUpdatedSnapshot(s);
    }
  }

  /** The characteristics' caches and the services they push to. */
  ghost function FootprintOf(es: seq<Entry>): set<object>
  {
    (set i | 0 <= i < |es| :: CacheHolder(es[i])) + (set i | 0 <= i < |es| :: ServiceOf(es[i]) as object)
  }

  /** The caches of a list's entries, in list order. */
  ghost function CachesOf(es: seq<Entry>): (cs: seq<Cache>)
    reads set j | 0 <= j < |es| :: CacheHolder(es[j])
    ensures |cs| == |es| && forall k :: 0 <= k < |es| ==> cs[k] == CacheOf(es[k])
  {
    seq(|es|, k requires 0 <= k < |es| reads set j | 0 <= j < |es| :: CacheHolder(es[j]) => CacheOf(es[k]))
  }

  /** What the service of each of a list's entries displays, in list order. */
  ghost function DisplaysOf(es: seq<Entry>): (ds: seq<map<CharType, Option<Value>>>)
    reads set j | 0 <= j < |es| :: ServiceOf(es[j])
    ensures |ds| == |es| && forall k :: 0 <= k < |es| ==> ds[k] == ServiceOf(es[k]).displayed
  {
    seq(|es|, k requires 0 <= k < |es| reads set j | 0 <= j < |es| :: ServiceOf(es[j]) => ServiceOf(es[k]).displayed)
  }

  /**
   * One turn of the dispatch loop. Before it, the entries ahead of `i` have
   * taken in `s` and the rest still hold their caches `c0`, and every service
   * shows the pushes of the entries ahead of `i` (starting from `d0`); after
   * it, the same holds with entry `i` included.
   */
  method DispatchNext(es: seq<Entry>, i: nat, s: Snapshot, ghost c0: seq<Cache>, ghost d0: seq<map<CharType, Option<Value>>>)
    requires i < |es| == |c0| == |d0|
    requires Distinct(es) && EntryValid(es[i])
    requires forall k :: 0 <= k < |es| ==> CacheOf(es[k]) == if k < i then CacheAfter(es[k], c0[k], s) else c0[k]
    requires forall k :: 0 <= k < |es| ==> ServiceOf(es[k]).displayed == DisplayedAfter(es[..i], s, ServiceOf(es[k]), d0[k])
    modifies CacheHolder(es[i]), ServiceOf(es[i])
    ensures forall k :: 0 <= k < |es| ==> CacheOf(es[k]) == if k < i + 1 then CacheAfter(es[k], c0[k], s) else c0[k]
    ensures forall k :: 0 <= k < |es| ==> ServiceOf(es[k]).displayed == DisplayedAfter(es[..i + 1], s, ServiceOf(es[k]), d0[k])
  {
    assert es[..i + 1][..i] == es[..i];
    Dispatch(es[i], s);
  }

  /**
   * The dispatch loop: every entry gets `s` once, in list order; each cache is
   * refreshed and each service shows the pushes made to it, in that order.
   */
  method DispatchAll(es: seq<Entry>, s: Snapshot) returns (dispatched: seq<Capability>)
    requires Distinct(es)
    requires forall i :: 0 <= i < |es| ==> EntryValid(es[i])
    modifies FootprintOf(es)
    ensures dispatched == Capabilities(es)
    ensures forall i :: 0 <= i < |es| ==> Refreshed(es[i], s)
    ensures forall i :: 0 <= i < |es| ==>
      ServiceOf(es[i]).displayed == DisplayedAfter(es, s, ServiceOf(es[i]), old(ServiceOf(es[i]).displayed))
  {
    ghost var c0 := CachesOf(es);
    ghost var d0 := DisplaysOf(es);
    dispatched := [];
    for i := 0 to |es|
      invariant dispatched == Capabilities(es)[..i]
      invariant forall k :: 0 <= k < |es| ==> CacheOf(es[k]) == if k < i then CacheAfter(es[k], c0[k], s) else c0[k]
      invariant forall k :: 0 <= k < |es| ==> ServiceOf(es[k]).displayed == DisplayedAfter(es[..i], s, ServiceOf(es[k]), d0[k])
    {
      DispatchNext(es, i, s, c0, d0);
      dispatched := dispatched + [es[i].capability];
    }
    assert es[..|es|] == es;
  }

  class Accessory {
    const deviceId: string
    const characteristics: seq<Entry>
    var refreshIntervalMs: Option<nat>
    var renewIntervalMs: Option<nat>
    var requests: seq<Request>

    ghost predicate Valid()
    {
      && this !in Footprint()
      && Distinct(characteristics)
      && forall i :: 0 <= i < |characteristics| ==> EntryValid(characteristics[i])
    }

    ghost function Footprint(): set<object>
    {
      FootprintOf(characteristics)
    }

    constructor (deviceId: string, characteristics: seq<Entry>, refreshMinutes: nat)
      requires Distinct(characteristics)
      requires forall i :: 0 <= i < |characteristics| ==> EntryValid(characteristics[i])
      ensures Valid()
      ensures this.deviceId == deviceId && this.characteristics == characteristics && requests == []
      ensures refreshIntervalMs == Some(RefreshIntervalMs(refreshMinutes))
      ensures renewIntervalMs == Some(RenewIntervalMs)
    {
      this.deviceId := deviceId;
      this.characteristics := characteristics;
      requests := [];
      refreshIntervalMs := Some(RefreshIntervalMs(refreshMinutes));
      renewIntervalMs := Some(RenewIntervalMs);
    }

    /**
     * updateCharacteristics. When both queries succeed every characteristic
     * gets the merged snapshot once, in list order; a characteristic whose
     * conversion throws keeps its cache and pushes nothing, and the others are
     * still refreshed. Otherwise no cache and no displayed value changes.
     */
    method UpdateCharacteristics(loggedIn: bool, device: Fetch<Snapshot>, filter: Fetch<FilterData>)
      returns (dispatched: seq<Capability>)
      requires Valid()
      modifies this`requests, Footprint()
      ensures requests == old(requests) + RefreshRequests(deviceId, loggedIn, device)
      ensures refreshIntervalMs == old(refreshIntervalMs) && renewIntervalMs == old(renewIntervalMs)
      ensures Dispatched(loggedIn, device, filter).Some? ==>
        && dispatched == Capabilities(characteristics)
        && (forall i :: 0 <= i < |characteristics| ==>
              Refreshed(characteristics[i], Dispatched(loggedIn, device, filter).value))
        && (forall i :: 0 <= i < |characteristics| ==>
              ServiceOf(characteristics[i]).displayed ==
                DisplayedAfter(characteristics, Dispatched(loggedIn, device, filter).value,
                               ServiceOf(characteristics[i]), old(ServiceOf(characteristics[i]).displayed)))
      ensures Dispatched(loggedIn, device, filter).None? ==>
        && dispatched == []
        && (forall i :: 0 <= i < |characteristics| ==> Untouched(characteristics[i]))
        && (forall i :: 0 <= i < |characteristics| ==>
              ServiceOf(characteristics[i]).displayed == old(ServiceOf(characteristics[i]).displayed))
    {
      dispatched := [];
      if !loggedIn {
        return;
      }
      requests := requests + [GetDevice(deviceId)];
      if device.FetchFailed? {
        return;
      }
      requests := requests + [GetDeviceFilterStatus(deviceId)];
      if filter.FetchFailed? {
        return;
      }
      dispatched := DispatchAll(characteristics, Merge(device.value, filter.value));
    }

    /**
     * renewMonitoring: one keep-alive call when logged in. Its outcome `result`
     * is deliberately unused: a failure is caught and only logged.
     */
    method RenewMonitoring(loggedIn: bool, result: CommandResult)
      modifies this`requests
      ensures requests == old(requests) + if loggedIn then [SendAllEventEnable(deviceId)] else []
      ensures CachesOf(characteristics) == old(CachesOf(characteristics))
      ensures DisplaysOf(characteristics) == old(DisplaysOf(characteristics))
    {
      if loggedIn {
        requests := requests + [SendAllEventEnable(deviceId)];
      }
    }

    /**
     * The constructor's second half: one refresh at once, then one keep-alive.
     * The caches and the displayed values are those of the refresh; the
     * keep-alive only adds its request.
     */
    method Start(loggedIn: bool, device: Fetch<Snapshot>, filter: Fetch<FilterData>, renewResult: CommandResult)
      returns (dispatched: seq<Capability>)
      requires Valid()
      modifies this`requests, Footprint()
      ensures requests == old(requests) + RefreshRequests(deviceId, loggedIn, device) +
        if loggedIn then [SendAllEventEnable(deviceId)] else []
      ensures refreshIntervalMs == old(refreshIntervalMs) && renewIntervalMs == old(renewIntervalMs)
      ensures Dispatched(loggedIn, device, filter).Some? ==>
        && dispatched == Capabilities(characteristics)
        && (forall i :: 0 <= i < |characteristics| ==>
              Refreshed(characteristics[i], Dispatched(loggedIn, device, filter).value))
        && (forall i :: 0 <= i < |characteristics| ==>
              ServiceOf(characteristics[i]).displayed ==
                DisplayedAfter(characteristics, Dispatched(loggedIn, device, filter).value,
                               ServiceOf(characteristics[i]), old(ServiceOf(characteristics[i]).displayed)))
      ensures Dispatched(loggedIn, device, filter).None? ==>
        && dispatched == []
        && (forall i :: 0 <= i < |characteristics| ==> Untouched(characteristics[i]))
        && (forall i :: 0 <= i < |characteristics| ==>
              ServiceOf(characteristics[i]).displayed == old(ServiceOf(characteristics[i]).displayed))
    {
      dispatched := UpdateCharacteristics(loggedIn, device, filter);
      RenewMonitoring(loggedIn, renewResult);
    }

    /** unregisterAccessory: both intervals are cleared. */
    method UnregisterAccessory()
      modifies this`refreshIntervalMs, this`renewIntervalMs
      ensures refreshIntervalMs == None && renewIntervalMs == None
    {
      refreshIntervalMs := None;
      renewIntervalMs := None;
    }
  }

  /**
   * The list the constructor assembles for a model: the model's capabilities
   * in order, each entry on the service and device and wired as its class
   * wires it, the four entries outside this model running the conversions
   * given for them, and no two entries binding the same characteristic type.
   */
  ghost predicate Assembled(es: seq<Entry>, model: string, service: Service, deviceId: string,
                            active: Unseen, currentTemperature: Unseen, filterChange: Unseen, filterLife: Unseen)
  {
    && Capabilities(es) == CharacteristicsForModel(model)
    && (forall i :: 0 <= i < |es| ==> Placed(es[i], service, deviceId))
    && RunsUnseen(es[0], deviceId, active)
    && RunsUnseen(es[5], deviceId, currentTemperature)
    && RunsUnseen(es[6], deviceId, filterChange)
    && RunsUnseen(es[7], deviceId, filterLife)
    && forall i, j :: 0 <= i < j < |es| ==> CharTypeOf(es[i]) != CharTypeOf(es[j])
  }

  /**
   * The constructor's first half: the model label, the capability list on the
   * heater-cooler service, and the accessory object holding it, with both
   * intervals started and nothing requested yet.
   */
  method NewAccessory(service: Service, modelName: Option<string>, deviceId: string,
                      active: Unseen, currentTemperature: Unseen, filterChange: Unseen, filterLife: Unseen,
                      refreshMinutes: nat)
    returns (accessory: Accessory)
    ensures fresh(accessory) && accessory.Valid() && accessory.deviceId == deviceId && accessory.requests == []
    ensures Assembled(accessory.characteristics, ModelLabel(modelName), service, deviceId,
                      active, currentTemperature, filterChange, filterLife)
    ensures forall i :: 0 <= i < |accessory.characteristics| ==> Unset(accessory.characteristics[i])
    ensures fresh(accessory.Footprint() - {service})
    ensures accessory.refreshIntervalMs == Some(RefreshIntervalMs(refreshMinutes))
    ensures accessory.renewIntervalMs == Some(RenewIntervalMs)
  {
    var characteristics := Instantiate(ModelLabel(modelName), service, deviceId, active, currentTemperature, filterChange, filterLife);
    ListTypesDistinct(characteristics, ModelLabel(modelName), service, deviceId);
    accessory := new Accessory(deviceId, characteristics, refreshMinutes);
    assert ServiceOf(characteristics[0]) == service;
  }

  /**
   * The calls the constructor issues, in the order it issues them: the first
   * refresh calls the device query and waits for it, the keep-alive goes out
   * meanwhile, and the filter query follows once the device query succeeded.
   */
  function IssuedRequests(deviceId: string, loggedIn: bool, device: Fetch<Snapshot>): seq<Request>
  {
    if !loggedIn then []
    else if device.FetchFailed? then [GetDevice(deviceId), SendAllEventEnable(deviceId)]
    else [GetDevice(deviceId), SendAllEventEnable(deviceId), GetDeviceFilterStatus(deviceId)]
  }

  /**
   * Running the first refresh to completion before the keep-alive, starting
   * from no requests, issues the same calls as the constructor, only in
   * another order.
   */
  lemma RunToCompletionReorders(made: seq<Request>, deviceId: string, loggedIn: bool, device: Fetch<Snapshot>)
    requires made == [] + RefreshRequests(deviceId, loggedIn, device) + if loggedIn then [SendAllEventEnable(deviceId)] else []
    ensures multiset(made) == multiset(IssuedRequests(deviceId, loggedIn, device))
  {
  }

  /**
   * The accessory constructor: build the capability list, run one refresh and
   * one keep-alive at once, and start both intervals.
   */
  method Launch(service: Service, modelName: Option<string>, deviceId: string,
                active: Unseen, currentTemperature: Unseen, filterChange: Unseen, filterLife: Unseen,
                refreshMinutes: nat, loggedIn: bool, device: Fetch<Snapshot>, filter: Fetch<FilterData>,
                renewResult: CommandResult)
    returns (accessory: Accessory, dispatched: seq<Capability>)
    modifies service
    ensures fresh(accessory) && accessory.Valid() && accessory.deviceId == deviceId
    ensures Assembled(accessory.characteristics, ModelLabel(modelName), service, deviceId,
                      active, currentTemperature, filterChange, filterLife)
    ensures accessory.refreshIntervalMs == Some(RefreshIntervalMs(refreshMinutes))
    ensures accessory.renewIntervalMs == Some(RenewIntervalMs)
    ensures multiset(accessory.requests) == multiset(IssuedRequests(deviceId, loggedIn, device))
    ensures dispatched == if Dispatched(loggedIn, device, filter).Some? then Capabilities(accessory.characteristics) else []
    ensures service.displayed ==
      if Dispatched(loggedIn, device, filter).Some?
      then DisplayedAfter(accessory.characteristics, Dispatched(loggedIn, device, filter).value, service, old(service.displayed))
      else old(service.displayed)
    ensures Dispatched(loggedIn, device, filter).Some? ==> forall i :: 0 <= i < |accessory.characteristics| ==>
      CacheOf(accessory.characteristics[i]) ==
        CacheAfter(accessory.characteristics[i], EmptyCache(accessory.characteristics[i]), Dispatched(loggedIn, device, filter).value)
    ensures Dispatched(loggedIn, device, filter).None? ==> forall i :: 0 <= i < |accessory.characteristics| ==>
      Unset(accessory.characteristics[i])
  {
    accessory := NewAccessory(service, modelName, deviceId, active, currentTemperature, filterChange, filterLife, refreshMinutes);
    dispatched := accessory.Start(loggedIn, device, filter, renewResult);
    RunToCompletionReorders(accessory.requests, deviceId, loggedIn, device);
  }
}
