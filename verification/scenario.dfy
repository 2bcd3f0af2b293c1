/** A scenario binds one locator to one device and floor (src/Models/Scenario.cs).
    It owns the smoothed location, the confidence and error of the last fix,
    and the input history of its 1-euro filter. */
module Scenarios {
  import opened Base

  /** The locator a scenario was built with, and the floor it was built for. */
  datatype LocatorKind =
    | NelderMead(floor: Floor)
    | NadarayaWatson(floor: Floor, kernel: KernelKind)
    | NearestNode

  /** The mutable fields of a scenario, as one value. `filtered` holds the
      samples fed to the scenario's own smoothing filter, oldest first. */
  datatype ScenarioState = ScenarioState(
    confidence: Option<int>,
    minimum: Option<real>,
    lastLocation: Point3,
    location: Point3,
    fixes: Option<int>,
    room: Option<Room>,
    error: Option<real>,
    iterations: Option<int>,
    floor: Option<Floor>,
    lastHit: Option<int>,
    filtered: seq<Sample>)

  const Fresh: ScenarioState :=
    ScenarioState(None, None, Origin, Origin, None, None, None, None, None, None, [])

  /** `TimeSpan.FromSeconds(Config?.Timeout ?? 30)` in milliseconds. */
  function TimeoutMs(configTimeout: Option<int>): (ms: int)
    ensures configTimeout.None? ==> ms == 30000
    ensures configTimeout.Some? ==> ms == 1000 * configTimeout.value
  {
    1000 * (if configTimeout.Some? then configTimeout.value else 30)
  }

  /** `now - LastHit < timeout`; the lifted comparison is false without a LastHit. */
  predicate IsCurrent(lastHit: Option<int>, now: int, timeoutMs: int)
  {
    lastHit.Some? && now - lastHit.value < timeoutMs
  }

  /** The state after UpdateLocation(p) at time `now`: the first fix (while the
      location is still the default origin) is stored as it is; every later
      fix is fed to the filter and the filter's output is stored. */
  function Updated(st: ScenarioState, p: Point3, now: int, num: Numerics): (r: ScenarioState)
    ensures r.lastHit == Some(now)
    ensures st.location == Origin ==> r.location == p && r.filtered == st.filtered
    ensures st.location != Origin ==>
              r.filtered == st.filtered + [Sample(p, now)] && r.location == num.smooth(r.filtered)
    ensures r.(location := st.location, lastHit := st.lastHit, filtered := st.filtered) == st
  {
    if st.location == Origin then st.(location := p, lastHit := Some(now))
    else
      var fed := st.filtered + [Sample(p, now)];
      st.(lastHit := Some(now), filtered := fed, location := num.smooth(fed))
  }

  /** Several UpdateLocation calls at the same time, in order. */
  function Feed(st: ScenarioState, ps: seq<Point3>, now: int, num: Numerics): ScenarioState
  {
    if ps == [] then st else Updated(Feed(st, ps[..|ps| - 1], now, num), ps[|ps| - 1], now, num)
  }

  /** Only the first fix bypasses the filter: as long as neither the first fix
      nor any filter output is the origin, a fresh scenario that has been given
      n fixes has fed n - 1 of them to its filter, in order. */
  lemma {:induction false} FilterSkipsFirstFix(ps: seq<Point3>, now: int, num: Numerics)
    requires |ps| > 0 && ps[0] != Origin
    requires forall h :: num.smooth(h) != Origin
    ensures Feed(Fresh, ps, now, num).filtered == seq(|ps| - 1, k requires 0 <= k < |ps| - 1 => Sample(ps[k + 1], now))
    ensures Feed(Fresh, ps, now, num).location != Origin
  {
    var prior := Feed(Fresh, ps[..|ps| - 1], now, num);
    if |ps| == 1 {
      assert prior == Fresh;
    } else {
      var pre := ps[..|ps| - 1];
      FilterSkipsFirstFix(pre, now, num);
    }
  }

  class Scenario {
    const name: Option<string>
    const locator: LocatorKind
    /** The timeout read from the configuration the scenario was built with. */
    const timeoutMs: int

    var confidence: Option<int>
    var minimum: Option<real>
    var lastLocation: Point3
    var location: Point3
    var fixes: Option<int>
    var room: Option<Room>
    var error: Option<real>
    var iterations: Option<int>
    var floor: Option<Floor>
    var lastHit: Option<int>
    var filtered: seq<Sample>

    function View(): ScenarioState
      reads this
    {
      ScenarioState(confidence, minimum, lastLocation, location, fixes, room, error,
                    iterations, floor, lastHit, filtered)
    }

    constructor (configTimeout: Option<int>, locator: LocatorKind, name: Option<string>)
      ensures View() == Fresh
      ensures this.locator == locator && this.name == name
      ensures timeoutMs == TimeoutMs(configTimeout)
    {
      this.name := name;
      this.locator := locator;
      this.timeoutMs := TimeoutMs(configTimeout);
      confidence, minimum, lastLocation, location := None, None, Origin, Origin;
      fixes, room, error, iterations := None, None, None, None;
      floor, lastHit, filtered := None, None, [];
    }

    /** Scenario.Current at time `now`. */
    predicate Current(now: int)
      reads this
    {
      IsCurrent(lastHit, now, timeoutMs)
    }

    method UpdateLocation(p: Point3, now: int, num: Numerics)
      modifies this
      ensures View() == Updated(old(View()), p, now, num)
    {
      if location == Origin {
        location := p;
        lastHit := Some(now);
        return;
      }
      lastHit := Some(now);
      filtered := filtered + [Sample(p, now)];
      location := num.smooth(filtered);
    }
  }

  /** No scenario object appears twice. */
  predicate Distinct(ss: seq<Scenario>)
  {
    forall i, j :: 0 <= i < j < |ss| ==> ss[i] != ss[j]
  }
}
