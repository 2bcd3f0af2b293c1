/** The steps both multilateralizers share once their anchors are known: the
    start point they fall back on, and the closing rule that stores the
    confidence, treats a move under 0.1 as no move, and assigns the room. */
module LocateRules {
  import opened Base
  import opened Anchors
  import opened Scenarios

  /** `confidence < 5` on an int?: false when there is no confidence. */
  predicate Below(c: Option<int>, bound: int) { c.Some? && c.value < bound }

  /** The start point: midway between the two nearest anchors while the prior
      confidence is under 5, otherwise (a null confidence included) the
      previous location. */
  function Guess(st: ScenarioState, nodes: seq<Fix>): (g: Point3)
    requires |nodes| >= 2 && nodes[0].anchor.Some? && nodes[1].anchor.Some?
    ensures Below(st.confidence, 5) ==> g == MidPoint(nodes[0].anchor.value.location, nodes[1].anchor.value.location)
    ensures !Below(st.confidence, 5) ==> g == st.location
  {
    if Below(st.confidence, 5) then MidPoint(nodes[0].anchor.value.location, nodes[1].anchor.value.location)
    else st.location
  }

  /** Storing the confidence, then reporting a move exactly when the scenario
      is located (confidence > 0) and has moved at least 0.1 from its previous
      location; only a move reassigns the room, to the first enclosing one. */
  function Finish(st: ScenarioState, conf: int, floor: Floor, num: Numerics): (r: (ScenarioState, bool))
    ensures r.0.confidence == Some(conf)
    ensures r.1 <==> conf > 0 && Abs(num.distance(st.location, st.lastLocation)) >= 0.1
    ensures r.1 ==> r.0.room == FirstEnclosing(floor.rooms, st.location, num)
    ensures r.0.(room := st.room, confidence := st.confidence) == st
  {
    var st4 := st.(confidence := Some(conf));
    if conf <= 0 then (st4, false)
    else if Abs(num.distance(st4.location, st4.lastLocation)) < 0.1 then (st4, false)
    else (st4.(room := FirstEnclosing(floor.rooms, st4.location, num)), true)
  }

  /** The scenario marked "not located" when too few anchors are usable. */
  method Clear(s: Scenario)
    modifies s
    ensures s.View() == old(s.View()).(room := None, confidence := Some(0), error := None, floor := None)
  {
    s.room := None;
    s.confidence := Some(0);
    s.error := None;
    s.floor := None;
  }

  /** The closing lines of Locate, on the scenario itself: store the
      confidence and, when the scenario is located and has moved, assign the
      room it is now in. */
  method Conclude(s: Scenario, conf: int, floor: Floor, num: Numerics) returns (moved: bool)
    modifies s
    ensures (s.View(), moved) == Finish(old(s.View()), conf, floor, num)
  {
    s.confidence := Some(conf);
    if conf <= 0 {
      return false;
    }
    if Abs(num.distance(s.location, s.lastLocation)) < 0.1 {
      return false;
    }
    s.room := FirstEnclosing(floor.rooms, s.location, num);
    return true;
  }
}
