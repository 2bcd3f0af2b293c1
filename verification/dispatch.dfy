/** Scenario.Locate (src/Models/Scenario.cs): a scenario answers with whatever
    the locator it was built with answers. The collaborators a locator leans
    on arrive as inputs: the simplex solver's run, whether the kernel branch
    throws, and what the nearest-node locator does to the scenario. */
module LocatorDispatch {
  import opened Base
  import opened Anchors
  import opened Scenarios
  import NM = NelderMead
  import NW = NadarayaWatson

  /** What the foreign parts of one Locate call deliver. The nearest-node
      locator is not part of this model: the scenario it leaves behind and
      its result are given as `nearest`. */
  datatype Inputs = Inputs(run: NM.SolverRun, threw: bool, nearest: (ScenarioState, bool))

  /** The scenario after Locate and Locate's result, for each kind of locator. */
  function Delegated(st: ScenarioState, locator: LocatorKind, readings: seq<Fix>, inp: Inputs, now: int, num: Numerics): (r: (ScenarioState, bool))
    ensures locator.NearestNode? ==> r == inp.nearest
  {
    match locator
    case NelderMead(floor) => NM.Outcome(st, floor, readings, inp.run, num)
    case NadarayaWatson(floor, kernel) => NW.Outcome(st, floor, kernel, readings, inp.threw, now, num)
    case NearestNode => inp.nearest
  }

  /** Whatever the locator, a reported move leaves the scenario located
      (a positive confidence) with its room the first room, on the locator's
      floor, that encloses the new location. */
  lemma MovedMeansLocated(st: ScenarioState, locator: LocatorKind, readings: seq<Fix>, inp: Inputs, now: int, num: Numerics)
    requires !locator.NearestNode?
    ensures var r := Delegated(st, locator, readings, inp, now, num);
      r.1 ==> r.0.confidence.Some? && r.0.confidence.value > 0
              && r.0.room == FirstEnclosing(locator.floor.rooms, r.0.location, num)
  {
    match locator
    case NelderMead(floor) => NM.MoveRule(st, floor, readings, inp.run, num);
    case NadarayaWatson(floor, kernel) => NW.MoveRule(st, floor, kernel, readings, inp.threw, now, num);
  }

  /** Scenario.Locate: delegate to the bound locator. */
  method Locate(s: Scenario, readings: seq<Fix>, inp: Inputs, now: int, num: Numerics) returns (moved: bool)
    modifies s
    ensures (s.View(), moved) == Delegated(old(s.View()), s.locator, readings, inp, now, num)
  {
    match s.locator
    case NelderMead(floor) =>
      moved := NM.Locate(s, floor, readings, inp.run, num);
    case NadarayaWatson(floor, kernel) =>
      moved := NW.Locate(s, floor, kernel, readings, inp.threw, now, num);
    case NearestNode =>
      Adopt(s, inp.nearest.0);
      moved := inp.nearest.1;
  }

  /** The nearest-node locator's writes, whatever they are: the scenario
      takes the state it leaves behind. */
  method Adopt(s: Scenario, st: ScenarioState)
    modifies s
    ensures s.View() == st
  {
    s.confidence, s.minimum, s.lastLocation, s.location := st.confidence, st.minimum, st.lastLocation, st.location;
    s.fixes, s.room, s.error, s.iterations := st.fixes, st.room, st.error, st.iterations;
    s.floor, s.lastHit, s.filtered := st.floor, st.lastHit, st.filtered;
  }
}
