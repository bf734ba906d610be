/**
 * Fan speed: the device's four wind-strength codes against the hub's 0-100
 * rotation-speed percentage, bucketed in quarters.
 */
module RotationSpeed {
  import opened Wrappers
  import opened HomeKit
  import opened ThinQ
  import opened AbstractCharacteristic

  /** The step declared to the hub, so that it offers quarters only. */
  const MinStep: real := 25.0

  /** The device's wind-strength codes: 2 low, 4 mid, 6 high, 8 auto. */
  predicate IsCode(a: real)
  {
    a == 2.0 || a == 4.0 || a == 6.0 || a == 8.0
  }

  /** The top of a code's bucket: code 2 is a quarter, code 8 the whole range. */
  function Ceiling(code: real): real
  {
    code * 12.5
  }

  /** getStateFromApiValue: a code to its percentage; anything else is `undefined`. */
  function FromApi(a: Raw): (p: Option<real>)
    ensures p.Some? <==> a.Some? && IsCode(a.value)
    ensures p.Some? ==> p.value == Ceiling(a.value)
  {
    match a
    case None => None
    case Some(code) =>
      if code == 2.0 then Some(25.0)
      else if code == 4.0 then Some(50.0)
      else if code == 6.0 then Some(75.0)
      else if code == 8.0 then Some(100.0)
      else None
  }

  /**
   * getApiValueFromState: the first matching case wins, so a percentage in
   * (0, 100] gets the code whose bucket (ceiling - 25, ceiling] holds it; a
   * percentage at or below 0 matches no case and gets the default code 8.
   */
  function ToApi(p: real): (code: real)
    ensures IsCode(code)
    ensures 0.0 < p <= 100.0 ==> Ceiling(code) - 25.0 < p <= Ceiling(code)
    ensures p <= 0.0 || p > 75.0 ==> code == 8.0
  {
    if 0.0 < p <= 25.0 then 2.0
    else if 25.0 < p <= 50.0 then 4.0
    else if 0.0 < p <= 75.0 then 6.0
    else if p > 75.0 then 8.0
    else 8.0
  }

  /** The four buckets, upper bounds inclusive, and the fall-through default. */
  lemma ToApiBuckets(p: real)
    ensures 0.0 < p <= 25.0 ==> ToApi(p) == 2.0
    ensures 25.0 < p <= 50.0 ==> ToApi(p) == 4.0
    ensures 50.0 < p <= 75.0 ==> ToApi(p) == 6.0
    ensures 75.0 < p ==> ToApi(p) == 8.0
    ensures p <= 0.0 ==> ToApi(p) == 8.0
  {
  }

  /** The code chosen for p is the smallest code whose ceiling reaches p. */
  lemma ToApiIsLeastCoveringCode(p: real, code: real)
    requires 0.0 < p <= 100.0 && IsCode(code)
    ensures ToApi(p) <= code <==> p <= Ceiling(code)
  {
  }

  /** Every percentage the device can report converts back to its own code. */
  lemma CodesRoundTrip(code: real)
    requires IsCode(code)
    ensures FromApi(Some(code)).Some? && ToApi(FromApi(Some(code)).value) == code
  {
  }

  /** The four multiples of the declared step survive a trip to the device and back. */
  lemma QuartersRoundTrip(p: real)
    requires p == MinStep || p == 2.0 * MinStep || p == 3.0 * MinStep || p == 4.0 * MinStep
    ensures FromApi(Some(ToApi(p))) == Some(p)
  {
  }

  /** Above zero, a faster request never gets a slower code. */
  lemma ToApiMonotone(p: real, q: real)
    requires 0.0 < p <= q
    ensures ToApi(p) <= ToApi(q)
  {
  }

  /** The binding: field airState.windStrength, command 'Set'. */
  function SpeedBinding(deviceId: string): Binding<real>
  {
    Binding(deviceId, CharType.RotationSpeed, Set, WindStrengthKey,
            a => Returned(FromApi(a)), ToApi, p => Number(p))
  }

  method New(service: Service, deviceId: string) returns (c: Characteristic<real>)
    ensures fresh(c) && c.service == service && c.settable && c.cachedState == None
    ensures c.binding == SpeedBinding(deviceId)
    ensures c.binding.key == WindStrengthKey && c.binding.command == Set
    ensures c.binding.charType == CharType.RotationSpeed
  {
    c := new Characteristic(service, SpeedBinding(deviceId), true);
  }

  /** A set of 60 while the cache holds 50 sends code 6, and the cache takes 60 when accepted. */
  lemma SixtyAfterFifty(deviceId: string)
    ensures OnSet(SpeedBinding(deviceId), Some(50.0), 60.0, true, Accepted)
         == SetEffect(Some(60.0), Some(Command(deviceId, Set, WindStrengthKey, 6.0)), Some(Done(60.0)))
  {
  }

  /** A snapshot reporting wind strength 4 shows a speed of 50. */
  lemma MidStrengthShowsFifty(deviceId: string, cache: Option<real>, s: Snapshot)
    requires Lookup(s, WindStrengthKey) == Some(4.0)
    ensures CacheAfterSnapshot(SpeedBinding(deviceId), cache, s) == Some(50.0)
  {
  }
}
