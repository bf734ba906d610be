/**
 * The generic binding of one hub characteristic to one field of the device's
 * status snapshot. A characteristic keeps the last state it accepted (its cache),
 * converts raw device values to hub states on every snapshot, and converts a
 * state requested by the hub back to a raw value for one device command.
 *
 * The pure functions below say what each handler does to the cache; the class
 * at the end is the stateful object, and its methods are proved equal to them.
 */
module AbstractCharacteristic {
  import opened Wrappers
  import opened HomeKit
  import opened ThinQ

  /**
   * The fixed part of a characteristic, chosen by its constructor: the device,
   * the hub characteristic type, the command kind, the snapshot field, and the
   * two conversions (fromApi may throw; toApi is total over the states).
   * `show` tags a state as a hub value when it is pushed to the service.
   */
  datatype Binding<!S> = Binding(
    deviceId: string,
    charType: CharType,
    command: CommandKind,
    key: FieldKey,
    fromApi: Raw -> Attempt<Option<S>>,
    toApi: S -> real,
    show: S -> Value)

  /** The hub value pushed for a cached state: `undefined` stays `undefined`. */
  function PushedValue<S>(b: Binding<S>, state: Option<S>): Option<Value>
  {
    match state
    case None => None
    case Some(s) => Some(b.show(s))
  }

  /** The conversion handleUpdatedSnapshot attempts on a snapshot. */
  function Incoming<S>(b: Binding<S>, s: Snapshot): Attempt<Option<S>>
  {
    b.fromApi(Lookup(s, b.key))
  }

  /**
   * The cache after handleUpdatedSnapshot: the converted value, or the old cache
   * when the conversion threw (the assignment never completes).
   */
  function CacheAfterSnapshot<S>(b: Binding<S>, cache: Option<S>, s: Snapshot): Option<S>
  {
    match Incoming(b, s)
    case Returned(state) => state
    case Threw(_) => cache
  }

  /** The one command a set of `state` sends. */
  function CommandFor<S>(b: Binding<S>, state: S): Command
  {
    Command(b.deviceId, b.command, b.key, b.toApi(state))
  }

  /** What the set callback is called with: (null, state) or (error). */
  datatype SetReply<S> = Done(state: S) | Failed(error: string)

  /**
   * The effect of one handleSet: the new cache, the command sent (if any) and
   * the callback's argument (None: the callback is never called).
   */
  datatype SetEffect<S> = SetEffect(cache: Option<S>, sent: Option<Command>, reply: Option<SetReply<S>>)

  /**
   * handleSet(value): nothing at all while the API is not initialised; no
   * command when `value` equals the cache; otherwise one command, whose result
   * decides whether the cache takes `value`.
   */
  function OnSet<S(==)>(b: Binding<S>, cache: Option<S>, value: S, apiReady: bool, result: CommandResult): (e: SetEffect<S>)
    ensures e.cache == cache || e.cache == Some(value)
    ensures e.sent.Some? ==> apiReady && cache != Some(value) && e.sent.value == CommandFor(b, value)
    ensures e.reply == Some(Done(value)) <==> apiReady && e.cache == Some(value)
    ensures e.reply.None? <==> !apiReady
  {
    if !apiReady then
      SetEffect(cache, None, None)
    else if Some(value) == cache then
      SetEffect(cache, None, Some(Done(value)))
    else
      match result
      case Accepted => SetEffect(Some(value), Some(CommandFor(b, value)), Some(Done(value)))
      case Rejected(error) => SetEffect(cache, Some(CommandFor(b, value)), Some(Failed(error)))
  }

  /** A set of the cached state sends nothing and reports the state back. */
  lemma SkipWhenCached<S>(b: Binding<S>, value: S, result: CommandResult)
    ensures OnSet(b, Some(value), value, true, result) == SetEffect(Some(value), None, Some(Done(value)))
  {
  }

  /** A set of any other state sends exactly the converted command. */
  lemma SendsOneCommand<S>(b: Binding<S>, cache: Option<S>, value: S, result: CommandResult)
    requires cache != Some(value)
    ensures OnSet(b, cache, value, true, result).sent == Some(Command(b.deviceId, b.command, b.key, b.toApi(value)))
  {
  }

  /** The cache follows a sent command only when the device accepts it. */
  lemma CommitsOnlyOnAcceptance<S>(b: Binding<S>, cache: Option<S>, value: S, result: CommandResult)
    requires cache != Some(value)
    ensures result.Accepted? ==>
      OnSet(b, cache, value, true, result).cache == Some(value) &&
      OnSet(b, cache, value, true, result).reply == Some(Done(value))
    ensures result.Rejected? ==>
      OnSet(b, cache, value, true, result).cache == cache &&
      OnSet(b, cache, value, true, result).reply == Some(Failed(result.error))
  {
  }

  /** Without an initialised API a set sends nothing, answers nothing, changes nothing. */
  lemma NotReadyIsInert<S>(b: Binding<S>, cache: Option<S>, value: S, result: CommandResult)
    ensures OnSet(b, cache, value, false, result) == SetEffect(cache, None, None)
  {
  }

  /** Idempotence: after an accepted set, the same set again sends no command. */
  lemma SecondIdenticalSetIsSkipped<S>(b: Binding<S>, cache: Option<S>, value: S, second: CommandResult)
    ensures OnSet(b, OnSet(b, cache, value, true, Accepted).cache, value, true, second)
         == SetEffect(Some(value), None, Some(Done(value)))
  {
  }

  /** Commands sent by identical sets of `value`, answered in turn by `results`. */
  function CommandsForRepeats<S(==)>(b: Binding<S>, cache: Option<S>, value: S, results: seq<CommandResult>): nat
    decreases |results|
  {
    if results == [] then 0
    else
      var e := OnSet(b, cache, value, true, results[0]);
      (if e.sent.Some? then 1 else 0) + CommandsForRepeats(b, e.cache, value, results[1..])
  }

  /** How many results come before the first acceptance. */
  function LeadingRejections(results: seq<CommandResult>): (n: nat)
    ensures n <= |results|
    ensures n < |results| ==> results[n].Accepted?
    ensures forall i :: 0 <= i < n ==> results[i].Rejected?
  {
    if results == [] || results[0].Accepted? then 0 else 1 + LeadingRejections(results[1..])
  }

  /**
   * Repeating one set: commands go out until the device accepts one, and never
   * after; when the cache already holds the value, none goes out at all.
   */
  lemma {:induction false} RepeatedSetsStopAtAcceptance<S>(b: Binding<S>, cache: Option<S>, value: S, results: seq<CommandResult>)
    ensures CommandsForRepeats(b, cache, value, results) ==
      if cache == Some(value) then 0
      else if LeadingRejections(results) < |results| then LeadingRejections(results) + 1
      else |results|
    decreases |results|
  {
    if results != [] {
      var e := OnSet(b, cache, value, true, results[0]);
      RepeatedSetsStopAtAcceptance(b, e.cache, value, results[1..]);
    }
  }

  /** What can reach a characteristic: a snapshot, or a hub set answered by the device. */
  datatype Event<S> = Refresh(snapshot: Snapshot) | Request(value: S, result: CommandResult)

  function Step<S(==)>(b: Binding<S>, cache: Option<S>, ev: Event<S>): Option<S>
  {
    match ev
    case Refresh(s) => CacheAfterSnapshot(b, cache, s)
    case Request(value, result) => OnSet(b, cache, value, true, result).cache
  }

  /** The cache after handling `events` in order. */
  function Run<S(==)>(b: Binding<S>, cache: Option<S>, events: seq<Event<S>>): Option<S>
    decreases |events|
  {
    if events == [] then cache else Run(b, Step(b, cache, events[0]), events[1..])
  }

  /**
   * An independent account of the cache: the value written by the latest event
   * that writes one (a snapshot whose conversion returned, or an accepted set),
   * or the initial cache when no event writes.
   */
  function LastWrite<S>(b: Binding<S>, initial: Option<S>, events: seq<Event<S>>): Option<S>
    decreases |events|
  {
    if events == [] then initial
    else
      var front := events[..|events| - 1];
      match events[|events| - 1]
      case Refresh(s) =>
        (match Incoming(b, s)
         case Returned(state) => state
         case Threw(_) => LastWrite(b, initial, front))
      case Request(value, result) =>
        if result.Accepted? then Some(value) else LastWrite(b, initial, front)
  }

  lemma {:induction false} RunSnoc<S>(b: Binding<S>, cache: Option<S>, events: seq<Event<S>>, last: Event<S>)
    ensures Run(b, cache, events + [last]) == Step(b, Run(b, cache, events), last)
    decreases |events|
  {
    if events == [] {
      assert [last][1..] == [];
    } else {
      assert (events + [last])[1..] == events[1..] + [last];
      RunSnoc(b, Step(b, cache, events[0]), events[1..], last);
    }
  }

  /**
   * Last write wins: whatever the interleaving of snapshots and sets, the cache
   * holds what the latest writing event wrote.
   */
  lemma {:induction false} RunIsLastWrite<S>(b: Binding<S>, cache: Option<S>, events: seq<Event<S>>)
    ensures Run(b, cache, events) == LastWrite(b, cache, events)
    decreases |events|
  {
    if events != [] {
      var front, last := events[..|events| - 1], events[|events| - 1];
      assert events == front + [last];
      RunSnoc(b, cache, front, last);
      RunIsLastWrite(b, cache, front);
    }
  }

  /**
   * A characteristic object: a binding, the service it pushes to, whether the
   * hub can set it, and the cached last-known state.
   */
  class Characteristic<S(==)> {
    const service: Service
    const binding: Binding<S>
    const settable: bool
    var cachedState: Option<S>

    constructor (service: Service, binding: Binding<S>, settable: bool)
      ensures this.service == service && this.binding == binding && this.settable == settable
      ensures cachedState == None
    {
      this.service := service;
      this.binding := binding;
      this.settable := settable;
      cachedState := None;
    }

    /**
     * Take in a snapshot: convert the bound field, store it in the cache and push
     * exactly that to the service; when the conversion throws, neither changes.
     */
    method HandleUpdatedSnapshot(s: Snapshot)
      modifies this, service
      ensures cachedState == CacheAfterSnapshot(binding, old(cachedState), s)
      ensures service.displayed ==
        if Incoming(binding, s).Returned?
        then old(service.displayed)[binding.charType := PushedValue(binding, cachedState)]
        else old(service.displayed)
    {
      var raw := Lookup(s, binding.key);
      var converted := binding.fromApi(raw);
      match converted {
        case Returned(state) =>
          cachedState := state;
          service.Update(binding.charType, PushedValue(binding, cachedState));
        case Threw(_) =>
      }
    }

    /**
     * A set from the hub. `apiReady` says whether the API client exists, and
     * `result` how the device settles the command if one is sent.
     */
    method HandleSet(value: S, apiReady: bool, result: CommandResult) returns (sent: Option<Command>, reply: Option<SetReply<S>>)
      requires settable
      modifies this
      ensures var e := OnSet(binding, old(cachedState), value, apiReady, result);
        cachedState == e.cache && sent == e.sent && reply == e.reply
    {
      if !apiReady {
        return None, None;
      }
      if Some(value) == cachedState {
        return None, Some(Done(value));
      }
      sent := Some(CommandFor(binding, value));
      match result {
        case Accepted =>
          cachedState := Some(value);
          reply := Some(Done(value));
        case Rejected(error) =>
          reply := Some(Failed(error));
      }
    }

    /** A get from the hub answers the cache, `undefined` before any state was accepted. */
    method HandleGet() returns (state: Option<S>)
      ensures state == cachedState
    {
      state := cachedState;
    }
  }
}
