/** The bounded least-squares locator (Locators/NelderMeadMultilateralizer.cs).
    The simplex search itself is a collaborator: its run is an input, either a
    minimum it converged to or the exception it threw. */
module NelderMead {
  import opened Base
  import opened Anchors
  import opened Scenarios
  import opened LocateRules

  datatype SolverRun =
    | Converged(point: Point3, value: real, iterations: int)
    | Threw

  /** A value of the objective: finite, or the +infinity given outside the bounds. */
  datatype Extended = Finite(v: real) | PosInf

  function Cube(a: real): real { a * a * a }

  lemma CubeBelow(a: real, b: real)
    requires 0.0 <= a < b
    ensures Cube(a) < Cube(b)
  {
    ProductBelow(a, b, a, b);
    ProductBelow(a * a, b * b, a, b);
  }

  /** 0 <= x < y and 0 <= p < q give x * p < y * q. */
  lemma ProductBelow(x: real, y: real, p: real, q: real)
    requires 0.0 <= x < y && 0.0 <= p < q
    ensures x * p < y * q
  {
    ScaleBelow(p, q, x);
    ScaleStrictlyBelow(x, y, q);
  }

  lemma ScaleStrictlyBelow(x: real, y: real, c: real)
    requires x < y && c > 0.0
    ensures x * c < y * c
  {
  }

  lemma ScaleBelow(x: real, y: real, c: real)
    requires x <= y && c >= 0.0
    ensures c * x <= c * y
  {
  }

  /** The rank weight of the i-th nearest of n anchors, ((n - i) / n)^3. */
  function Weight(index: int, total: int): real
    requires total > 0
  {
    Cube((total - index) as real) / Cube(total as real)
  }

  /** Every rank weight lies in (0, 1], the nearest anchor weighs 1, and the
      weights strictly fall with rank. */
  lemma WeightsFallWithRank(i: int, j: int, n: int)
    requires 0 <= i < j < n
    ensures 0.0 < Weight(j, n) < Weight(i, n) <= 1.0
    ensures Weight(0, n) == 1.0
  {
    var a, b, c := Cube((n - j) as real), Cube((n - i) as real), Cube(n as real);
    CubeBelow(0.0, (n - j) as real);
    CubeBelow((n - j) as real, (n - i) as real);
    if i > 0 {
      CubeBelow((n - i) as real, n as real);
    }
    assert Weight(j, n) == a / c && Weight(i, n) == b / c && Weight(0, n) == c / c;
    FractionsBelow(a, b, c);
  }

  lemma FractionsBelow(a: real, b: real, c: real)
    requires 0.0 < a < b <= c
    ensures 0.0 < a / c < b / c <= 1.0 && c / c == 1.0
  {
  }

  /** `Error(x, dn)`: distance from x to the anchor minus the measured distance. */
  function Residual(x: Point3, f: Fix, num: Numerics): real
    requires f.anchor.Some?
  {
    num.distance(x, f.anchor.value.location) - f.distance
  }

  /** The rank-weighted sum of squared residuals over nodes[k..]. */
  function WeightedSquares(nodes: seq<Fix>, k: nat, x: Point3, num: Numerics): (s: real)
    requires |nodes| > 0 && k <= |nodes|
    requires forall i :: 0 <= i < |nodes| ==> nodes[i].anchor.Some?
    ensures s >= 0.0
    decreases |nodes| - k
  {
    if k == |nodes| then 0.0
    else
      var e := Residual(x, nodes[k], num);
      assert Weight(k, |nodes|) > 0.0 by {
        assert 0.0 < Cube((|nodes| - k) as real) by { CubeBelow(0.0, (|nodes| - k) as real); }
        assert 0.0 < Cube(|nodes| as real) by { CubeBelow(0.0, |nodes| as real); }
      }
      Weight(k, |nodes|) * (e * e) + WeightedSquares(nodes, k + 1, x, num)
  }

  function Coords(p: Point3): seq<real> { [p.x, p.y, p.z] }

  /** `OutOfBounds`: some coordinate lies below its lower or above its upper bound. */
  predicate OutOfBounds(x: seq<real>, lo: seq<real>, hi: seq<real>)
    requires |lo| >= |x| && |hi| >= |x|
  {
    exists i :: 0 <= i < |x| && (x[i] < lo[i] || x[i] > hi[i])
  }

  /** The loop the source runs for OutOfBounds, returning at the first
      coordinate outside its bounds. */
  method CheckOutOfBounds(x: seq<real>, lo: seq<real>, hi: seq<real>) returns (out: bool)
    requires |lo| >= |x| && |hi| >= |x|
    ensures out <==> exists i :: 0 <= i < |x| && (x[i] < lo[i] || x[i] > hi[i])
  {
    for i := 0 to |x|
      invariant forall k :: 0 <= k < i ==> lo[k] <= x[k] <= hi[k]
    {
      if x[i] < lo[i] || x[i] > hi[i] {
        return true;
      }
    }
    return false;
  }

  predicate InBounds(p: Point3, b: Bounds)
  {
    !OutOfBounds(Coords(p), Coords(b.lo), Coords(b.hi))
  }

  predicate WellFormed(b: Bounds)
  {
    b.lo.x <= b.hi.x && b.lo.y <= b.hi.y && b.lo.z <= b.hi.z
  }

  /** The objective handed to the solver: +infinity outside the bounds, the
      weighted sum of squared residuals inside. */
  function Objective(nodes: seq<Fix>, b: Bounds, x: Point3, num: Numerics): (r: Extended)
    requires |nodes| > 0
    requires forall i :: 0 <= i < |nodes| ==> nodes[i].anchor.Some?
    ensures r == PosInf <==> !InBounds(x, b)
    ensures r.Finite? ==> r.v >= 0.0
  {
    if OutOfBounds(Coords(x), Coords(b.lo), Coords(b.hi)) then PosInf
    else Finite(WeightedSquares(nodes, 0, x, num))
  }

  function Clamp(lo: real, hi: real, v: real): real { MaxR(lo, MinR(hi, v)) }

  /** The initial guess moved into the bounds, axis by axis. */
  function ClampedGuess(b: Bounds, g: Point3): (r: Point3)
    ensures WellFormed(b) ==> InBounds(r, b)
    ensures InBounds(g, b) ==> r == g
  {
    var r := Point3(Clamp(b.lo.x, b.hi.x, g.x), Clamp(b.lo.y, b.hi.y, g.y), Clamp(b.lo.z, b.hi.z, g.z));
    assert InBounds(g, b) ==> b.lo.x <= g.x <= b.hi.x && b.lo.y <= g.y <= b.hi.y && b.lo.z <= g.z <= b.hi.z by {
      if InBounds(g, b) {
        assert !(g.x < b.lo.x || g.x > b.hi.x) by { assert Coords(g)[0] == g.x; }
        assert !(g.y < b.lo.y || g.y > b.hi.y) by { assert Coords(g)[1] == g.y; }
        assert !(g.z < b.lo.z || g.z > b.hi.z) by { assert Coords(g)[2] == g.z; }
      }
    }
    r
  }

  /** What the solver is relied on for: the point it returns scores no worse
      than the initial guess it started from. */
  predicate NoWorseThanStart(run: SolverRun, nodes: seq<Fix>, b: Bounds, start: Point3, num: Numerics)
    requires |nodes| > 0
    requires forall i :: 0 <= i < |nodes| ==> nodes[i].anchor.Some?
  {
    run.Converged? ==>
      match (Objective(nodes, b, run.point, num), Objective(nodes, b, start, num))
      case (Finite(a), Finite(c)) => a <= c
      case (PosInf, PosInf) => true
      case (Finite(_), PosInf) => true
      case (PosInf, Finite(_)) => false
  }

  /** No point outside the floor's bounds is ever taken as the minimum: the
      clamped start scores finitely, so a result no worse than it does too. */
  lemma ConvergedPointInBounds(run: SolverRun, nodes: seq<Fix>, b: Bounds, guess: Point3, num: Numerics)
    requires |nodes| > 0
    requires forall i :: 0 <= i < |nodes| ==> nodes[i].anchor.Some?
    requires WellFormed(b) && run.Converged?
    requires NoWorseThanStart(run, nodes, b, ClampedGuess(b, guess), num)
    ensures InBounds(run.point, b)
  {
    assert Objective(nodes, b, ClampedGuess(b, guess), num).Finite?;
  }

  /** `(int)Math.Max(10, Math.Min(100, Math.Min(100, 100 * n / 4.0) - residual))` */
  function SolvedConfidence(n: int, residual: real): (c: int)
    ensures 10 <= c <= 100
  {
    Trunc(MaxR(10.0, MinR(100.0, MinR(100.0, 100.0 * n as real / 4.0) - residual)))
  }

  /** A larger residual never gives a higher confidence; with no residual, each
      anchor is worth 25 points up to 100, never less than 10. */
  lemma SolvedConfidenceShape(n: int, r1: real, r2: real)
    requires 0.0 <= r1 <= r2
    ensures SolvedConfidence(n, r2) <= SolvedConfidence(n, r1)
    ensures 1 <= n ==> SolvedConfidence(n, r1) <= 25 * n
    ensures 4 <= n ==> SolvedConfidence(n, 0.0) == 100
    ensures 0 <= n <= 4 ==> SolvedConfidence(n, 0.0) == if n == 0 then 10 else 25 * n
  {
    var a1 := MaxR(10.0, MinR(100.0, MinR(100.0, 100.0 * n as real / 4.0) - r1));
    var a2 := MaxR(10.0, MinR(100.0, MinR(100.0, 100.0 * n as real / 4.0) - r2));
    assert a2 <= a1;
  }

  /** The confidence and scenario fields once a location has been chosen
      (at least two usable anchors). */
  function Solve(st: ScenarioState, floor: Floor, nodes: seq<Fix>, run: SolverRun): (int, ScenarioState)
    requires |nodes| >= 2 && nodes[0].anchor.Some? && nodes[1].anchor.Some?
  {
    var st2 := st.(fixes := Some(|nodes|), floor := Some(floor));
    if |nodes| < 3 || floor.bounds.None? || run.Threw? then (1, st2.(location := Guess(st, nodes)))
    else (SolvedConfidence(|nodes|, run.value),
          st2.(location := run.point, error := Some(run.value), iterations := Some(run.iterations)))
  }

  /** The scenario after Locate, and Locate's result. */
  function Outcome(st: ScenarioState, floor: Floor, readings: seq<Fix>, run: SolverRun, num: Numerics): (ScenarioState, bool)
  {
    var nodes := Nearest(readings, floor.id);
    if |nodes| <= 1 then
      (st.(fixes := Some(|nodes|), room := None, confidence := Some(0), error := None, floor := None), false)
    else
      var (conf, st3) := Solve(st, floor, nodes, run);
      Finish(st3, conf, floor, num)
  }

  /** Fixes always counts the usable anchors, and Locate never touches the
      last-hit time, the previous location, the filter or the minimum. With at
      most one usable anchor the scenario is cleared to "not located". */
  lemma NotLocatable(st: ScenarioState, floor: Floor, readings: seq<Fix>, run: SolverRun, num: Numerics)
    ensures var r := Outcome(st, floor, readings, run, num);
      && r.0.fixes == Some(|Nearest(readings, floor.id)|)
      && r.0.lastHit == st.lastHit && r.0.lastLocation == st.lastLocation
      && r.0.filtered == st.filtered && r.0.minimum == st.minimum
    ensures var n := |Nearest(readings, floor.id)|; var r := Outcome(st, floor, readings, run, num);
      n <= 1 ==> !r.1 && r.0 == st.(fixes := Some(n), room := None, confidence := Some(0), error := None, floor := None)
  {
  }

  /** With two anchors, or no bounds, or when the solver throws, the scenario
      takes the guess with confidence 1; otherwise it takes the solver's
      minimum with the residual-based confidence. Either way the floor is set. */
  lemma Degraded(st: ScenarioState, floor: Floor, readings: seq<Fix>, run: SolverRun, num: Numerics)
    ensures var nodes := Nearest(readings, floor.id); var r := Outcome(st, floor, readings, run, num);
      |nodes| >= 2 ==>
        && r.0.floor == Some(floor)
        && ((|nodes| < 3 || floor.bounds.None? || run.Threw?) ==>
              r.0.confidence == Some(1) && r.0.location == Guess(st, nodes)
              && r.0.error == st.error && r.0.iterations == st.iterations)
        && ((|nodes| >= 3 && floor.bounds.Some? && run.Converged?) ==>
              r.0.confidence == Some(SolvedConfidence(|nodes|, run.value)) && r.0.location == run.point
              && r.0.error == Some(run.value) && r.0.iterations == Some(run.iterations))
  {
  }

  /** Locate reports a change exactly when the scenario is located and its new
      location is at least 0.1 from the previous one; only then is the room
      recomputed, as the first room enclosing the location. */
  lemma MoveRule(st: ScenarioState, floor: Floor, readings: seq<Fix>, run: SolverRun, num: Numerics)
    ensures var n := |Nearest(readings, floor.id)|; var r := Outcome(st, floor, readings, run, num);
      && (r.1 <==> n >= 2 && Abs(num.distance(r.0.location, r.0.lastLocation)) >= 0.1)
      && (r.1 ==> r.0.confidence.Some? && r.0.confidence.value > 0
                  && r.0.room == FirstEnclosing(floor.rooms, r.0.location, num))
      && (n >= 2 && !r.1 ==> r.0.room == st.room)
  {
  }

  /** The source's try/catch block: the solver's minimum once there are at
      least three anchors and the floor has bounds, the guess otherwise or
      when the solver throws; returns the new confidence. */
  method Estimate(s: Scenario, floor: Floor, nodes: seq<Fix>, guess: Point3, run: SolverRun) returns (confidence: int)
    requires |nodes| >= 2 && nodes[0].anchor.Some? && nodes[1].anchor.Some?
    requires guess == Guess(s.View(), nodes) && s.fixes == Some(|nodes|) && s.floor == Some(floor)
    modifies s
    ensures (confidence, s.View()) == Solve(old(s.View()), floor, nodes, run)
  {
    if |nodes| < 3 || floor.bounds.None? {
      confidence := 1;
      s.location := guess;
    } else {
      match run
      case Threw =>
        // the catch block
        confidence := 1;
        s.location := guess;
      case Converged(p, v, iterations) =>
        s.location := p;
        s.fixes := Some(|nodes|);
        s.error := Some(v);
        s.iterations := Some(iterations);
        confidence := SolvedConfidence(|nodes|, v);
    }
  }

  /** Locate once at least two usable anchors are known: the fields Solve
      gives, then the shared ending. */
  method Place(s: Scenario, floor: Floor, nodes: seq<Fix>, run: SolverRun, num: Numerics) returns (moved: bool)
    requires |nodes| >= 2 && nodes[0].anchor.Some? && nodes[1].anchor.Some?
    modifies s
    ensures var (conf, st3) := Solve(old(s.View()), floor, nodes, run);
            (s.View(), moved) == Finish(st3, conf, floor, num)
  {
    ghost var st := s.View();
    var confidence := s.confidence;
    s.fixes := Some(|nodes|);
    s.floor := Some(floor);
    var guess := if Below(confidence, 5)
                 then MidPoint(nodes[0].anchor.value.location, nodes[1].anchor.value.location)
                 else s.location;
    ghost var st2 := s.View();
    var c := Estimate(s, floor, nodes, guess, run);
    assert Solve(st2, floor, nodes, run) == Solve(st, floor, nodes, run);
    moved := Conclude(s, c, floor, num);
  }

  /** Locate, writing the scenario's fields one by one as the source does
      (this copy assigns Location directly and never calls UpdateLocation). */
  method Locate(s: Scenario, floor: Floor, readings: seq<Fix>, run: SolverRun, num: Numerics) returns (moved: bool)
    modifies s
    ensures (s.View(), moved) == Outcome(old(s.View()), floor, readings, run, num)
  {
    var nodes := Nearest(readings, floor.id);
    if |nodes| <= 1 {
      s.fixes := Some(|nodes|);
      Clear(s);
      return false;
    }
    moved := Place(s, floor, nodes, run, num);
  }
}
