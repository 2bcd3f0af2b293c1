/** The kernel-weighted locator (src/Locators/NadarayaWatsonMultilateralizer.cs).
    Each anchor is weighted by a kernel of its measured distance; the estimate
    is the weight-normalised average of the anchor locations. The kernels
    themselves stay abstract (`Numerics.kernel`). */
module NadarayaWatson {
  import opened Base
  import opened Anchors
  import opened Scenarios
  import opened LocateRules

  /** `kernelConfig?.Algorithm?.ToLower() switch`: a null config or algorithm,
      or any other name, selects the inverse-square kernel. */
  function ChooseKernel(algorithm: Option<string>): KernelKind
  {
    if algorithm.None? then InverseSquare
    else if Lower(algorithm.value) == "epanechnikov" then Epanechnikov
    else if Lower(algorithm.value) == "gaussian" then GaussianKernel
    else InverseSquare
  }

  /** The choice ignores case: two names that agree up to ASCII case select
      the same kernel. */
  lemma {:induction false} ChooseKernelIgnoresCase(a: string, b: string)
    requires Key(a) == Key(b)
    ensures ChooseKernel(Some(a)) == ChooseKernel(Some(b))
    ensures Lower(a) == Lower(b)
  {
    forall k | 0 <= k < |a| ensures Lower(a)[k] == Lower(b)[k] {
      assert Upper(a)[k] == Upper(b)[k];
    }
  }

  /** The names the source spells out select their kernels in any case. */
  lemma KernelNames()
    ensures ChooseKernel(Some("Gaussian")) == GaussianKernel
    ensures ChooseKernel(Some("EPANECHNIKOV")) == Epanechnikov
    ensures ChooseKernel(Some("epanechnikov")) == Epanechnikov
    ensures ChooseKernel(Some("gauss")) == InverseSquare
    ensures ChooseKernel(None) == InverseSquare
  {
    assert Lower("Gaussian") == "gaussian";
    assert Lower("EPANECHNIKOV") == "epanechnikov";
    assert Lower("epanechnikov") == "epanechnikov";
    assert Lower("gauss") == "gauss";
  }

  /** `nodes.Min(a => (double?)a.Distance)`: null for no anchors. */
  function MinDistance(nodes: seq<Fix>): (r: Option<real>)
    ensures r.None? <==> nodes == []
  {
    if nodes == [] then None
    else
      var rest := MinDistance(nodes[1..]);
      if rest.Some? && rest.value < nodes[0].distance then rest else Some(nodes[0].distance)
  }

  /** `nodes.Max(a => a.LastHit)`, the readings' last-hit times being nullable:
      null for no anchors. */
  function MaxLastHit(nodes: seq<Fix>): (r: Option<int>)
    ensures r.None? <==> nodes == []
  {
    if nodes == [] then None
    else
      var rest := MaxLastHit(nodes[1..]);
      if rest.Some? && rest.value > nodes[0].lastHit then rest else Some(nodes[0].lastHit)
  }

  /** Minimum is the least distance among the anchors and LastHit the latest
      of their hits, each attained by some anchor. */
  lemma {:induction false} Extremes(nodes: seq<Fix>)
    ensures var r := MinDistance(nodes);
      r.Some? ==> (forall k :: 0 <= k < |nodes| ==> r.value <= nodes[k].distance)
                  && exists k :: 0 <= k < |nodes| && r.value == nodes[k].distance
    ensures var r := MaxLastHit(nodes);
      r.Some? ==> (forall k :: 0 <= k < |nodes| ==> nodes[k].lastHit <= r.value)
                  && exists k :: 0 <= k < |nodes| && r.value == nodes[k].lastHit
  {
    if nodes != [] {
      Extremes(nodes[1..]);
      var m, h := MinDistance(nodes[1..]), MaxLastHit(nodes[1..]);
      if m.Some? {
        var k :| 0 <= k < |nodes[1..]| && m.value == nodes[1..][k].distance;
        assert nodes[k + 1].distance == m.value;
      }
      if h.Some? {
        var k :| 0 <= k < |nodes[1..]| && h.value == nodes[1..][k].lastHit;
        assert nodes[k + 1].lastHit == h.value;
      }
    }
  }

  /** The anchors are sorted, so the minimum is the nearest anchor's distance. */
  lemma MinimumIsNearest(readings: seq<Fix>, floor: string)
    requires Nearest(readings, floor) != []
    ensures MinDistance(Nearest(readings, floor)) == Some(Nearest(readings, floor)[0].distance)
  {
    NearestIsSortedUsable(readings, floor);
    Extremes(Nearest(readings, floor));
  }

  /** `nodes.Select(dn => _kernel.Evaluate(dn.Distance))` */
  function Weights(kind: KernelKind, nodes: seq<Fix>, num: Numerics): (ws: seq<real>)
    ensures |ws| == |nodes|
    ensures forall k :: 0 <= k < |nodes| ==> ws[k] == num.kernel(kind, nodes[k].distance)
  {
    seq(|nodes|, k requires 0 <= k < |nodes| => num.kernel(kind, nodes[k].distance))
  }

  function Sum(s: seq<real>): real
  {
    if s == [] then 0.0 else s[0] + Sum(s[1..])
  }

  /** `Zip(...).Sum()` of the products of two equally long sequences. */
  function Dot(ws: seq<real>, xs: seq<real>): real
    requires |ws| == |xs|
  {
    if ws == [] then 0.0 else ws[0] * xs[0] + Dot(ws[1..], xs[1..])
  }

  predicate NonNegative(ws: seq<real>)
  {
    forall k :: 0 <= k < |ws| ==> ws[k] >= 0.0
  }

  lemma {:induction false} SumNonNegative(ws: seq<real>)
    requires NonNegative(ws)
    ensures Sum(ws) >= 0.0
  {
    if ws != [] {
      SumNonNegative(ws[1..]);
    }
  }

  /** Coordinate `axis` (0 = X, 1 = Y, otherwise Z) of a point. */
  function Coord(p: Point3, axis: nat): real
  {
    if axis == 0 then p.x else if axis == 1 then p.y else p.z
  }

  predicate Located(nodes: seq<Fix>)
  {
    forall k :: 0 <= k < |nodes| ==> nodes[k].anchor.Some?
  }

  /** One coordinate of every anchor's location, in anchor order. */
  function Column(nodes: seq<Fix>, axis: nat): (c: seq<real>)
    requires Located(nodes)
    ensures |c| == |nodes|
    ensures forall k :: 0 <= k < |nodes| ==> c[k] == Coord(nodes[k].anchor.value.location, axis)
  {
    seq(|nodes|, k requires 0 <= k < |nodes| => Coord(nodes[k].anchor.value.location, axis))
  }

  /** `weightedX / totalWeight` and its Y and Z counterparts. */
  function Centroid(nodes: seq<Fix>, ws: seq<real>): Point3
    requires Located(nodes) && |ws| == |nodes| && Sum(ws) != 0.0
  {
    Point3(Dot(ws, Column(nodes, 0)) / Sum(ws),
           Dot(ws, Column(nodes, 1)) / Sum(ws),
           Dot(ws, Column(nodes, 2)) / Sum(ws))
  }

  lemma ScaleBelow(x: real, y: real, c: real)
    requires x <= y && c >= 0.0
    ensures c * x <= c * y
  {
  }

  /** One step of the bounds below: adding a weighted value to both sides. */
  lemma StepAbove(lo: real, w: real, x: real, total: real, rest: real)
    requires w >= 0.0 && lo <= x && lo * total <= rest
    ensures lo * (w + total) <= w * x + rest
  {
    ScaleBelow(lo, x, w);
  }

  lemma StepBelow(hi: real, w: real, x: real, total: real, rest: real)
    requires w >= 0.0 && x <= hi && rest <= hi * total
    ensures w * x + rest <= hi * (w + total)
  {
    ScaleBelow(x, hi, w);
  }

  /** With non-negative weights, the weighted sum of values no smaller than lo
      is at least lo times the total weight. */
  lemma {:induction false} DotAbove(ws: seq<real>, xs: seq<real>, lo: real)
    requires |ws| == |xs| && NonNegative(ws)
    requires forall k :: 0 <= k < |xs| ==> lo <= xs[k]
    ensures lo * Sum(ws) <= Dot(ws, xs)
  {
    if ws != [] {
      DotAbove(ws[1..], xs[1..], lo);
      StepAbove(lo, ws[0], xs[0], Sum(ws[1..]), Dot(ws[1..], xs[1..]));
    }
  }

  /** ... and at most hi times the total weight for values no larger than hi. */
  lemma {:induction false} DotBelow(ws: seq<real>, xs: seq<real>, hi: real)
    requires |ws| == |xs| && NonNegative(ws)
    requires forall k :: 0 <= k < |xs| ==> xs[k] <= hi
    ensures Dot(ws, xs) <= hi * Sum(ws)
  {
    if ws != [] {
      DotBelow(ws[1..], xs[1..], hi);
      StepBelow(hi, ws[0], xs[0], Sum(ws[1..]), Dot(ws[1..], xs[1..]));
    }
  }

  lemma DivAbove(d: real, t: real, lo: real)
    requires t > 0.0 && lo * t <= d
    ensures lo <= d / t
  {
    assert d / t * t == d;
  }

  lemma DivBelow(d: real, t: real, hi: real)
    requires t > 0.0 && d <= hi * t
    ensures d / t <= hi
  {
    assert d / t * t == d;
  }

  /** A mean under non-negative weights with a positive total is no smaller
      than a lower bound of the values ... */
  lemma MeanAbove(ws: seq<real>, xs: seq<real>, lo: real)
    requires |ws| == |xs| && NonNegative(ws) && Sum(ws) > 0.0
    requires forall k :: 0 <= k < |xs| ==> lo <= xs[k]
    ensures lo <= Dot(ws, xs) / Sum(ws)
  {
    DotAbove(ws, xs, lo);
    DivAbove(Dot(ws, xs), Sum(ws), lo);
  }

  /** ... and no larger than an upper bound. */
  lemma MeanBelow(ws: seq<real>, xs: seq<real>, hi: real)
    requires |ws| == |xs| && NonNegative(ws) && Sum(ws) > 0.0
    requires forall k :: 0 <= k < |xs| ==> xs[k] <= hi
    ensures Dot(ws, xs) / Sum(ws) <= hi
  {
    DotBelow(ws, xs, hi);
    DivBelow(Dot(ws, xs), Sum(ws), hi);
  }

  /** The estimate never leaves the box of its anchors: with non-negative
      weights and a positive total, on each axis the centroid lies between
      any bounds that hold every anchor's coordinate on that axis (in
      particular between their minimum and maximum). */
  lemma CentroidWithinAnchors(nodes: seq<Fix>, ws: seq<real>, axis: nat, lo: real, hi: real)
    requires Located(nodes) && |ws| == |nodes| && NonNegative(ws) && Sum(ws) > 0.0
    requires forall k :: 0 <= k < |nodes| ==> lo <= Coord(nodes[k].anchor.value.location, axis) <= hi
    ensures lo <= Coord(Centroid(nodes, ws), axis) <= hi
  {
    var col := Column(nodes, axis);
    MeanAbove(ws, col, lo);
    MeanBelow(ws, col, hi);
    CentroidCoord(nodes, ws, axis);
  }

  lemma CentroidCoord(nodes: seq<Fix>, ws: seq<real>, axis: nat)
    requires Located(nodes) && |ws| == |nodes| && Sum(ws) != 0.0
    ensures Coord(Centroid(nodes, ws), axis) == Dot(ws, Column(nodes, axis)) / Sum(ws)
  {
    if axis > 2 {
      assert Column(nodes, axis) == Column(nodes, 2);
    }
  }

  /** The squared residual of each anchor at the estimate: its distance to
      the estimate minus its measured distance, squared. */
  function SquaredResiduals(nodes: seq<Fix>, at: Point3, num: Numerics): (r: seq<real>)
    requires Located(nodes)
    ensures |r| == |nodes| && NonNegative(r)
  {
    seq(|nodes|, k requires 0 <= k < |nodes| =>
      var e := num.distance(at, nodes[k].anchor.value.location) - nodes[k].distance;
      e * e)
  }

  lemma {:induction false} DotNonNegative(ws: seq<real>, xs: seq<real>)
    requires |ws| == |xs| && NonNegative(ws) && NonNegative(xs)
    ensures Dot(ws, xs) >= 0.0
  {
    if ws != [] {
      DotNonNegative(ws[1..], xs[1..]);
      ScaleBelow(0.0, xs[0], ws[0]);
    }
  }

  /** The weight-normalised sum of squared residuals at the estimate. */
  function WeightedError(nodes: seq<Fix>, ws: seq<real>, at: Point3, num: Numerics): (e: real)
    requires Located(nodes) && |ws| == |nodes| && Sum(ws) != 0.0
    ensures NonNegative(ws) ==> e >= 0.0
  {
    var sq := SquaredResiduals(nodes, at, num);
    if NonNegative(ws) then
      DotNonNegative(ws, sq);
      SumNonNegative(ws);
      Dot(ws, sq) / Sum(ws)
    else Dot(ws, sq) / Sum(ws)
  }

  /** `(int)Math.Min(100, Math.Max(10, 100.0 - (weightedError * 10)))` */
  function KernelConfidence(err: real): (c: int)
    ensures 10 <= c <= 100
  {
    Trunc(MinR(100.0, MaxR(10.0, 100.0 - err * 10.0)))
  }

  /** Each tenth of error costs one point: an exact fit scores 100, an error
      of 9 or more scores the floor of 10, and confidence never rises with
      the error. */
  lemma KernelConfidenceShape(e1: real, e2: real)
    requires e1 <= e2
    ensures KernelConfidence(e2) <= KernelConfidence(e1)
    ensures e1 <= 0.0 ==> KernelConfidence(e1) == 100
    ensures e2 >= 9.0 ==> KernelConfidence(e2) == 10
    ensures 0.0 <= e1 <= 9.0 ==> KernelConfidence(e1) == Trunc(100.0 - 10.0 * e1)
  {
    var a1 := MinR(100.0, MaxR(10.0, 100.0 - e1 * 10.0));
    var a2 := MinR(100.0, MaxR(10.0, 100.0 - e2 * 10.0));
    assert a2 <= a1;
  }

  /** `weightedX / totalWeight` and its Y and Z counterparts as the code
      divides them: a zero total makes each coordinate 0/0, which is NaN. */
  function EstimateAsWritten(nodes: seq<Fix>, ws: seq<real>, num: Numerics): Point3
    requires Located(nodes) && |ws| == |nodes|
  {
    if Sum(ws) == 0.0 then num.nanPoint else Centroid(nodes, ws)
  }

  /** The weighted error at `at`, divided by the total weight: NaN when the
      total is zero (the residuals at a NaN point are NaN as well). */
  function ErrorAsWritten(nodes: seq<Fix>, ws: seq<real>, at: Point3, num: Numerics): real
    requires Located(nodes) && |ws| == |nodes|
  {
    if Sum(ws) == 0.0 then num.nan else WeightedError(nodes, ws, at, num)
  }

  /** `(int)Math.Min(100, Math.Max(10, 100.0 - (weightedError * 10)))`: Min and
      Max pass a NaN error through, and the cast makes an int of NaN. */
  function ConfidenceAsWritten(ws: seq<real>, err: real, num: Numerics): int
  {
    if Sum(ws) == 0.0 then num.nanAsInt else KernelConfidence(err)
  }

  /** The kernel branch as written: the scenario is updated with the
      estimate, Error becomes the weighted error there, Iterations is cleared,
      and the confidence comes from the error. */
  function KernelStep(st: ScenarioState, nodes: seq<Fix>, ws: seq<real>, now: int, num: Numerics): (r: (int, ScenarioState))
    requires Located(nodes) && |ws| == |nodes|
    ensures r.1.lastHit == Some(now) && r.1.iterations == None
    ensures r.1.(location := st.location, lastHit := st.lastHit, filtered := st.filtered,
                 error := st.error, iterations := st.iterations) == st
  {
    var p := EstimateAsWritten(nodes, ws, num);
    var err := ErrorAsWritten(nodes, ws, p, num);
    (ConfidenceAsWritten(ws, err, num), Updated(st, p, now, num).(error := Some(err), iterations := None))
  }

  lemma {:induction false} SumOfZeros(ws: seq<real>)
    requires forall k :: 0 <= k < |ws| ==> ws[k] == 0.0
    ensures Sum(ws) == 0.0
  {
    if ws != [] {
      SumOfZeros(ws[1..]);
    }
  }

  /** As written, anchors that all weigh nothing (three anchors outside an
      Epanechnikov kernel's support, say) leave the scenario at a NaN point
      with a NaN error, and the confidence is the cast of NaN: never positive. */
  lemma ZeroWeightLeavesNoEstimate(st: ScenarioState, nodes: seq<Fix>, ws: seq<real>, now: int, num: Numerics)
    requires Located(nodes) && |ws| == |nodes|
    requires forall k :: 0 <= k < |ws| ==> ws[k] == 0.0
    ensures KernelStep(st, nodes, ws, now, num)
            == (num.nanAsInt, Updated(st, num.nanPoint, now, num).(error := Some(num.nan), iterations := None))
    ensures KernelStep(st, nodes, ws, now, num).0 <= 0
  {
    SumOfZeros(ws);
  }

  /** The kernel branch as evidently intended: a zero total weight falls
      back to the guess with the degraded confidence 1, as the branch for
      too few anchors does; any other total is the branch as written. */
  function KernelStepCorrected(st: ScenarioState, guess: Point3, nodes: seq<Fix>, ws: seq<real>, now: int, num: Numerics): (int, ScenarioState)
    requires Located(nodes) && |ws| == |nodes|
  {
    if Sum(ws) == 0.0 then (1, Updated(st, guess, now, num)) else KernelStep(st, nodes, ws, now, num)
  }

  /** Corrected, all-zero weights give the guess at a positive confidence,
      not a NaN point; with a positive total under non-negative weights the
      step is the one written, the estimate a real centroid, the stored error
      never negative and the confidence the clamp of 100 - 10 * error. */
  lemma KernelStepFallsBack(st: ScenarioState, guess: Point3, nodes: seq<Fix>, ws: seq<real>, now: int, num: Numerics)
    requires Located(nodes) && |ws| == |nodes|
    ensures (forall k :: 0 <= k < |ws| ==> ws[k] == 0.0) ==>
              KernelStepCorrected(st, guess, nodes, ws, now, num) == (1, Updated(st, guess, now, num))
    ensures NonNegative(ws) && Sum(ws) > 0.0 ==>
              var r := KernelStepCorrected(st, guess, nodes, ws, now, num);
              && r == KernelStep(st, nodes, ws, now, num)
              && r.1.error.value >= 0.0
              && r.0 == KernelConfidence(r.1.error.value)
              && r.1 == Updated(st, Centroid(nodes, ws), now, num).(error := r.1.error, iterations := None)
  {
    if forall k :: 0 <= k < |ws| ==> ws[k] == 0.0 {
      SumOfZeros(ws);
    }
  }

  /** The confidence and scenario once there are at least two anchors: the
      degraded path (fewer than three anchors or no bounds) takes the guess
      with confidence 1; an exception in the kernel branch before its
      UpdateLocation gives confidence 0 and an update towards the origin;
      otherwise the kernel branch as written. */
  function Solve(st: ScenarioState, floor: Floor, kind: KernelKind, nodes: seq<Fix>, threw: bool, now: int, num: Numerics): (r: (int, ScenarioState))
    requires |nodes| >= 2 && Located(nodes)
    ensures r.1.lastHit == Some(now)
    ensures r.1.(location := st.location, lastHit := st.lastHit, filtered := st.filtered,
                 error := st.error, iterations := st.iterations) == st
  {
    if |nodes| < 3 || floor.bounds.None? then (1, Updated(st, Guess(st, nodes), now, num))
    else if threw then (0, Updated(st, Origin, now, num))
    else KernelStep(st, nodes, Weights(kind, nodes, num), now, num)
  }

  /** The scenario after Locate, and Locate's result. `threw` says whether the
      kernel branch raised an exception before its UpdateLocation (the
      kernel evaluation or the sums). */
  function Outcome(st: ScenarioState, floor: Floor, kind: KernelKind, readings: seq<Fix>, threw: bool, now: int, num: Numerics): (ScenarioState, bool)
  {
    var nodes := Nearest(readings, floor.id);
    var st1 := st.(minimum := MinDistance(nodes), lastHit := MaxLastHit(nodes), fixes := Some(|nodes|));
    if |nodes| <= 1 then
      (st1.(room := None, confidence := Some(0), error := None, floor := None), false)
    else
      var (conf, st3) := Solve(st1.(floor := Some(floor)), floor, kind, nodes, threw, now, num);
      Finish(st3, conf, floor, num)
  }

  /** Minimum and Fixes always come from the usable anchors. With at most one
      the scenario is cleared to "not located", and LastHit is the anchors'
      latest hit (none without anchors), so a lone anchor can keep a
      zero-confidence scenario current. */
  lemma NotLocatable(st: ScenarioState, floor: Floor, kind: KernelKind, readings: seq<Fix>, threw: bool, now: int, num: Numerics)
    ensures var nodes := Nearest(readings, floor.id); var r := Outcome(st, floor, kind, readings, threw, now, num);
      && r.0.fixes == Some(|nodes|) && r.0.minimum == MinDistance(nodes)
      && r.0.lastLocation == st.lastLocation
    ensures var nodes := Nearest(readings, floor.id); var r := Outcome(st, floor, kind, readings, threw, now, num);
      |nodes| <= 1 ==> !r.1 && r.0 == st.(minimum := MinDistance(nodes), lastHit := MaxLastHit(nodes),
                                           fixes := Some(|nodes|), room := None, confidence := Some(0),
                                           error := None, floor := None)
  {
  }

  /** With two or more anchors the scenario is stamped with the current time
      and bound to the floor. */
  lemma StampedWhenLocated(st: ScenarioState, floor: Floor, kind: KernelKind, readings: seq<Fix>, threw: bool, now: int, num: Numerics)
    requires |Nearest(readings, floor.id)| >= 2
    ensures var r := Outcome(st, floor, kind, readings, threw, now, num);
      r.0.lastHit == Some(now) && r.0.floor == Some(floor)
  {
  }

  /** The degraded path updates the location with the guess at confidence 1;
      an exception clears the location towards the origin at confidence 0 and
      Locate reports no move. */
  lemma Degraded(st: ScenarioState, floor: Floor, kind: KernelKind, readings: seq<Fix>, threw: bool, now: int, num: Numerics)
    ensures var nodes := Nearest(readings, floor.id); var r := Outcome(st, floor, kind, readings, threw, now, num);
      var st2 := st.(minimum := MinDistance(nodes), lastHit := MaxLastHit(nodes), fixes := Some(|nodes|), floor := Some(floor));
      && (2 <= |nodes| && (|nodes| < 3 || floor.bounds.None?) ==>
            r.0.confidence == Some(1) && r.0.location == Updated(st2, Guess(st, nodes), now, num).location)
      && (3 <= |nodes| && floor.bounds.Some? && threw ==>
            r.0.confidence == Some(0) && !r.1 && r.0.location == Updated(st2, Origin, now, num).location
            && r.0.filtered == Updated(st2, Origin, now, num).filtered)
  {
  }

  /** In the kernel branch with a positive total weight the confidence is the
      clamp of 100 - 10 * Error, Error being the weighted squared residual at
      the centroid, and Iterations is cleared. */
  lemma KernelPath(st: ScenarioState, floor: Floor, kind: KernelKind, readings: seq<Fix>, threw: bool, now: int, num: Numerics)
    ensures var nodes := Nearest(readings, floor.id); var r := Outcome(st, floor, kind, readings, threw, now, num);
      var ws := Weights(kind, nodes, num);
      3 <= |nodes| && floor.bounds.Some? && !threw && Sum(ws) != 0.0 ==>
        && r.0.error == Some(WeightedError(nodes, ws, Centroid(nodes, ws), num))
        && r.0.confidence == Some(KernelConfidence(r.0.error.value))
        && r.0.iterations == None
  {
  }

  /** As written, a zero total weight in the kernel branch stores the NaN
      point, a NaN error and the cast of NaN as the confidence, which is never
      positive: Locate reports no move and keeps the room. */
  lemma ZeroWeightNoMove(st: ScenarioState, floor: Floor, kind: KernelKind, readings: seq<Fix>, now: int, num: Numerics)
    ensures var nodes := Nearest(readings, floor.id); var r := Outcome(st, floor, kind, readings, false, now, num);
      var st2 := st.(minimum := MinDistance(nodes), lastHit := MaxLastHit(nodes), fixes := Some(|nodes|), floor := Some(floor));
      3 <= |nodes| && floor.bounds.Some? && Sum(Weights(kind, nodes, num)) == 0.0 ==>
        && r.0.confidence == Some(num.nanAsInt as int) && !r.1 && r.0.room == st.room
        && r.0.location == Updated(st2, num.nanPoint, now, num).location
        && r.0.error == Some(num.nan)
  {
  }

  /** Locate reports a move exactly when the scenario is located and its new
      location is at least 0.1 from the previous one; only then is the room
      recomputed. */
  lemma MoveRule(st: ScenarioState, floor: Floor, kind: KernelKind, readings: seq<Fix>, threw: bool, now: int, num: Numerics)
    ensures var n := |Nearest(readings, floor.id)|; var r := Outcome(st, floor, kind, readings, threw, now, num);
      && (r.1 <==> n >= 2 && r.0.confidence.value > 0 && Abs(num.distance(r.0.location, r.0.lastLocation)) >= 0.1)
      && (r.1 ==> r.0.room == FirstEnclosing(floor.rooms, r.0.location, num))
      && (n >= 2 && !r.1 ==> r.0.room == st.room)
  {
  }

  /** The source's try/catch block: the location estimate once there are at
      least two anchors, returning the new confidence. */
  method Estimate(s: Scenario, floor: Floor, kind: KernelKind, nodes: seq<Fix>, guess: Point3, threw: bool, now: int, num: Numerics)
    returns (confidence: int)
    requires |nodes| >= 2 && Located(nodes) && guess == Guess(s.View(), nodes)
    modifies s
    ensures (confidence, s.View()) == Solve(old(s.View()), floor, kind, nodes, threw, now, num)
  {
    ghost var st := s.View();
    if |nodes| < 3 || floor.bounds.None? {
      confidence := 1;
      s.UpdateLocation(guess, now, num);
    } else if threw {
      // the catch block
      confidence := 0;
      s.UpdateLocation(Origin, now, num);
    } else {
      var weights := Weights(kind, nodes, num);
      var estimated := EstimateAsWritten(nodes, weights, num);
      s.UpdateLocation(estimated, now, num);
      ghost var updated := s.View();
      var err := ErrorAsWritten(nodes, weights, estimated, num);
      s.error := Some(err);
      s.iterations := None;
      assert s.View() == updated.(error := Some(err), iterations := None);
      confidence := ConfidenceAsWritten(weights, err, num);
      assert (confidence, s.View()) == KernelStep(st, nodes, weights, now, num);
    }
  }

  /** Locate once at least two usable anchors are known: the floor, the
      fields Solve gives, then the shared ending. */
  method Place(s: Scenario, floor: Floor, kind: KernelKind, nodes: seq<Fix>, threw: bool, now: int, num: Numerics)
    returns (moved: bool)
    requires |nodes| >= 2 && Located(nodes)
    modifies s
    ensures var (conf, st3) := Solve(old(s.View()).(floor := Some(floor)), floor, kind, nodes, threw, now, num);
            (s.View(), moved) == Finish(st3, conf, floor, num)
  {
    var confidence := s.confidence;
    s.floor := Some(floor);
    var guess := if Below(confidence, 5)
                 then MidPoint(nodes[0].anchor.value.location, nodes[1].anchor.value.location)
                 else s.location;
    var c := Estimate(s, floor, kind, nodes, guess, threw, now, num);
    moved := Conclude(s, c, floor, num);
  }

  /** The fields Locate writes from the anchors before anything else. */
  method Record(s: Scenario, nodes: seq<Fix>)
    modifies s
    ensures s.View() == old(s.View()).(minimum := MinDistance(nodes), lastHit := MaxLastHit(nodes), fixes := Some(|nodes|))
  {
    s.minimum := MinDistance(nodes);
    s.lastHit := MaxLastHit(nodes);
    s.fixes := Some(|nodes|);
  }

  /** Locate, writing the scenario step by step and moving it only through
      UpdateLocation. */
  method Locate(s: Scenario, floor: Floor, kind: KernelKind, readings: seq<Fix>, threw: bool, now: int, num: Numerics)
    returns (moved: bool)
    modifies s
    ensures (s.View(), moved) == Outcome(old(s.View()), floor, kind, readings, threw, now, num)
  {
    var nodes := Nearest(readings, floor.id);
    Record(s, nodes);
    if |nodes| <= 1 {
      Clear(s);
      return false;
    }
    assert Located(nodes);
    moved := Place(s, floor, kind, nodes, threw, now, num);
  }
}
