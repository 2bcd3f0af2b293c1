/** The registry every component shares (src/Models/State.cs): the loaded
    configuration, the known nodes, floors and devices, the configured device
    patterns split into exact keys and globs, the weighting choice, and the
    bounded window of calibration snapshots. */
module Registry {
  import opened Base
  import opened Anchors
  import opened Scenarios
  import opened Devices

  /** A configured device: an id pattern and a name pattern, either may be null. */
  datatype ConfigDevice = ConfigDevice(id: Option<string>, name: Option<string>)

  /** The parts of the configuration the registry reads. `weighting` is
      `Weighting?.Algorithm`. */
  datatype Config = Config(
    timeout: int,
    maxSnapshots: nat,
    devices: Option<seq<ConfigDevice>>,
    weighting: Option<string>)

  /** The configured timeout, if there is a configuration at all. */
  function ConfigTimeout(c: Option<Config>): Option<int>
  {
    if c.Some? then Some(c.value.timeout) else None
  }

  // ---------------------------------------------------------------------
  // Weighting choice

  datatype Weighting = EqualWeighting | GaussianWeighting | ExponentialWeighting

  /** The `switch` on the algorithm name: an exact, case-sensitive match. */
  function ChooseWeighting(algorithm: Option<string>): Weighting
  {
    match algorithm
    case Some("equal") => EqualWeighting
    case Some("gaussian") => GaussianWeighting
    case Some("exponential") => ExponentialWeighting
    case _ => GaussianWeighting
  }

  /** Only the exact lower-case names select equal or exponential weighting;
      a missing, unknown or differently cased name falls back to Gaussian. */
  lemma WeightingFallsBackToGaussian(algorithm: Option<string>)
    ensures ChooseWeighting(algorithm) == EqualWeighting <==> algorithm == Some("equal")
    ensures ChooseWeighting(algorithm) == ExponentialWeighting <==> algorithm == Some("exponential")
    ensures ChooseWeighting(algorithm) == GaussianWeighting <==>
              algorithm != Some("equal") && algorithm != Some("exponential")
    ensures ChooseWeighting(Some("Equal")) == GaussianWeighting
  {
  }

  // ---------------------------------------------------------------------
  // Device patterns

  /** Glob parsing and matching (DotNet.Globbing) stay abstract: whether a
      pattern's tokens are all literal, and whether a pattern matches a text. */
  datatype Globbing = Globbing(literal: string -> bool, matches: (string, string) -> bool)

  /** One of the two configured-device partitions: literal patterns by
      case-insensitive key, and the remaining patterns as globs, in order. */
  datatype Patterns = Patterns(exact: map<string, ConfigDevice>, globs: seq<string>)

  function Field(d: ConfigDevice, byName: bool): Option<string>
  {
    if byName then d.name else d.id
  }

  /** The device claims key k in the exact map: its pattern is not blank,
      is all literal, and files under k. */
  predicate Claims(d: ConfigDevice, byName: bool, literal: string -> bool, k: string)
  {
    var f := Field(d, byName);
    !IsBlank(f) && literal(f.value) && Key(f.value) == k
  }

  /** The partition after the loop over the first |ds| configured devices. */
  function Partition(ds: seq<ConfigDevice>, byName: bool, literal: string -> bool): Patterns
  {
    if ds == [] then Patterns(map[], [])
    else
      var p := Partition(ds[..|ds| - 1], byName, literal);
      var d := ds[|ds| - 1];
      var f := Field(d, byName);
      if IsBlank(f) then p
      else if literal(f.value) then
        if Key(f.value) in p.exact then p else p.(exact := p.exact[Key(f.value) := d])
      else p.(globs := p.globs + [f.value])
  }

  /** The loop LoadConfig runs over the configured devices for one of the
      two fields: blank patterns are skipped, literal ones go to the exact map
      (the first one under a key wins) and the rest to the glob list. */
  method SplitPatterns(ds: seq<ConfigDevice>, byName: bool, literal: string -> bool)
    returns (exact: map<string, ConfigDevice>, globs: seq<string>)
    ensures Patterns(exact, globs) == Partition(ds, byName, literal)
  {
    exact, globs := map[], [];
    for i := 0 to |ds|
      invariant Patterns(exact, globs) == Partition(ds[..i], byName, literal)
    {
      assert ds[..i + 1][..i] == ds[..i];
      var f := Field(ds[i], byName);
      if !IsBlank(f) {
        if literal(f.value) {
          if Key(f.value) !in exact {
            exact := exact[Key(f.value) := ds[i]];
          }
        } else {
          globs := globs + [f.value];
        }
      }
    }
    assert ds[..|ds|] == ds;
  }

  /** A key is in the exact map exactly when some device claims it. */
  lemma {:induction false} ExactKeysAreClaimed(ds: seq<ConfigDevice>, byName: bool, literal: string -> bool)
    ensures forall k :: k in Partition(ds, byName, literal).exact <==>
                          exists i :: 0 <= i < |ds| && Claims(ds[i], byName, literal, k)
  {
    if ds != [] {
      var pre := ds[..|ds| - 1];
      ExactKeysAreClaimed(pre, byName, literal);
      var p0 := Partition(pre, byName, literal);
      var p := Partition(ds, byName, literal);
      forall k ensures k in p.exact <==> exists i :: 0 <= i < |ds| && Claims(ds[i], byName, literal, k) {
        if k in p.exact && k !in p0.exact {
          assert Claims(ds[|ds| - 1], byName, literal, k);
        }
        if k in p0.exact {
          var i :| 0 <= i < |pre| && Claims(pre[i], byName, literal, k);
          assert ds[i] == pre[i];
        }
        if exists i :: 0 <= i < |ds| && Claims(ds[i], byName, literal, k) {
          var i :| 0 <= i < |ds| && Claims(ds[i], byName, literal, k);
          if i < |ds| - 1 {
            assert pre[i] == ds[i];
          }
        }
      }
    }
  }

  /** On a duplicate key the first device to claim it wins. */
  lemma {:induction false} FirstClaimWins(ds: seq<ConfigDevice>, byName: bool, literal: string -> bool, k: string, i: nat)
    requires i < |ds| && Claims(ds[i], byName, literal, k)
    requires forall j :: 0 <= j < i ==> !Claims(ds[j], byName, literal, k)
    ensures k in Partition(ds, byName, literal).exact && Partition(ds, byName, literal).exact[k] == ds[i]
  {
    var pre := ds[..|ds| - 1];
    if i < |ds| - 1 {
      assert pre[i] == ds[i];
      forall j | 0 <= j < i ensures !Claims(pre[j], byName, literal, k) {
        assert pre[j] == ds[j];
      }
      FirstClaimWins(pre, byName, literal, k, i);
    } else {
      ExactKeysAreClaimed(pre, byName, literal);
      forall j | 0 <= j < |pre| ensures !Claims(pre[j], byName, literal, k) {
        assert pre[j] == ds[j];
      }
    }
  }

  /** The glob list holds exactly the non-blank patterns that are not all literal. */
  lemma {:induction false} GlobsAreTheRest(ds: seq<ConfigDevice>, byName: bool, literal: string -> bool)
    ensures forall g :: g in Partition(ds, byName, literal).globs <==>
                          exists i :: 0 <= i < |ds| && Field(ds[i], byName) == Some(g) && !IsBlank(Some(g)) && !literal(g)
  {
    if ds != [] {
      var pre := ds[..|ds| - 1];
      GlobsAreTheRest(pre, byName, literal);
      var p0 := Partition(pre, byName, literal);
      var p := Partition(ds, byName, literal);
      forall g ensures g in p.globs <==> exists i :: 0 <= i < |ds| && Field(ds[i], byName) == Some(g)
                                                    && !IsBlank(Some(g)) && !literal(g) {
        if g in p0.globs {
          var i :| 0 <= i < |pre| && Field(pre[i], byName) == Some(g) && !IsBlank(Some(g)) && !literal(g);
          assert ds[i] == pre[i];
        }
        if exists i :: 0 <= i < |ds| && Field(ds[i], byName) == Some(g) && !IsBlank(Some(g)) && !literal(g) {
          var i :| 0 <= i < |ds| && Field(ds[i], byName) == Some(g) && !IsBlank(Some(g)) && !literal(g);
          if i < |ds| - 1 {
            assert pre[i] == ds[i];
          }
        }
      }
    }
  }

  // ---------------------------------------------------------------------
  // Floors

  /** The registered floor filed under the key of `id`, if any. */
  function FindFloor(floors: seq<Floor>, id: string): (r: Option<Floor>)
    ensures r.Some? ==> r.value in floors && Key(r.value.id) == Key(id)
    ensures r.None? ==> forall k :: 0 <= k < |floors| ==> Key(floors[k].id) != Key(id)
  {
    if floors == [] then None
    else if Key(floors[0].id) == Key(id) then Some(floors[0])
    else FindFloor(floors[1..], id)
  }

  /** GetFloorsByIds: the floors of the given ids, in order, skipping ids
      that name no registered floor (none at all for a null list). */
  function FloorsByIds(floors: seq<Floor>, ids: Option<seq<string>>): (r: seq<Floor>)
    ensures ids.None? ==> r == []
    ensures ids.Some? ==> |r| <= |ids.value|
    ensures forall f :: f in r ==> f in floors
  {
    if ids.None? then [] else FloorsOf(floors, ids.value)
  }

  function FloorsOf(floors: seq<Floor>, ids: seq<string>): (r: seq<Floor>)
    ensures |r| <= |ids|
    ensures forall f :: f in r ==> f in floors
  {
    if ids == [] then []
    else
      var rest := FloorsOf(floors, ids[1..]);
      match FindFloor(floors, ids[0])
      case Some(f) => [f] + rest
      case None => rest
  }

  /** No two registered floors share a key. */
  predicate DistinctKeys(floors: seq<Floor>)
  {
    forall i, j :: 0 <= i < j < |floors| ==> Key(floors[i].id) != Key(floors[j].id)
  }

  lemma SameKeySameFloor(floors: seq<Floor>, f: Floor, g: Floor)
    requires DistinctKeys(floors) && f in floors && g in floors && Key(f.id) == Key(g.id)
    ensures f == g
  {
    var a :| 0 <= a < |floors| && floors[a] == f;
    var b :| 0 <= b < |floors| && floors[b] == g;
    assert a == b;
  }

  /** A node's floors are exactly the registered floors one of its ids names
      (up to case); unknown ids are dropped. */
  lemma {:induction false} FloorsByIdsExact(floors: seq<Floor>, ids: seq<string>)
    requires DistinctKeys(floors)
    ensures forall f :: f in FloorsByIds(floors, Some(ids)) <==>
                          f in floors && exists i :: 0 <= i < |ids| && Key(ids[i]) == Key(f.id)
  {
    if ids != [] {
      FloorsByIdsExact(floors, ids[1..]);
      var r := FloorsOf(floors, ids);
      var rest := FloorsOf(floors, ids[1..]);
      var head := FindFloor(floors, ids[0]);
      forall f ensures f in r <==> f in floors && exists i :: 0 <= i < |ids| && Key(ids[i]) == Key(f.id) {
        if f in floors && exists i :: 0 <= i < |ids| && Key(ids[i]) == Key(f.id) {
          var i :| 0 <= i < |ids| && Key(ids[i]) == Key(f.id);
          if i == 0 {
            var k :| 0 <= k < |floors| && floors[k] == f;
            SameKeySameFloor(floors, head.value, f);
          } else {
            assert ids[1..][i - 1] == ids[i];
          }
        }
        if f in rest {
          var j :| 0 <= j < |ids[1..]| && Key(ids[1..][j]) == Key(f.id);
          assert ids[j + 1] == ids[1..][j];
        }
      }
    }
  }

  // ---------------------------------------------------------------------
  // Scenarios

  /** GetScenarios as a plan: for each floor, a least-squares locator named
      after the floor, then the one nearest-node locator. */
  function ScenarioPlan(floors: seq<Floor>): (plan: seq<(LocatorKind, Option<string>)>)
    ensures |plan| == |floors| + 1
  {
    seq(|floors|, i requires 0 <= i < |floors| => (NelderMead(floors[i]), floors[i].name))
      + [(NearestNode, Some("NearestNode"))]
  }

  /** One scenario per floor, in floor order, and exactly one nearest-node
      scenario, which comes last. */
  lemma ScenarioPlanShape(floors: seq<Floor>)
    ensures var plan := ScenarioPlan(floors);
      && (forall i :: 0 <= i < |floors| ==> plan[i].0 == NelderMead(floors[i]) && plan[i].1 == floors[i].name)
      && plan[|floors|] == (NearestNode, Some("NearestNode"))
      && (forall i :: 0 <= i < |plan| ==> (plan[i].0.NearestNode? <==> i == |floors|))
  {
  }

  // ---------------------------------------------------------------------
  // Snapshots

  /** A receiver's reading of a transmitting node (RxNode), as a snapshot copies it. */
  datatype RxReading = RxReading(current: bool, distance: real, refRssi: int, rssi: real)

  /** A registered node: its id and name, location, whether it is configured
      with a location and as stationary, and RxNodes, the readings of it taken
      by other nodes keyed by the receiver's id, in enumeration order. */
  datatype NodeInfo = NodeInfo(
    id: string,
    name: Option<string>,
    location: Point3,
    hasLocation: bool,
    stationary: bool,
    rxNodes: seq<(string, RxReading)>)

  /** A snapshot's endpoint. */
  datatype OptNode = OptNode(id: string, name: Option<string>, location: Point3)

  datatype Measure = Measure(current: bool, distance: real, refRssi: int, rssi: real, tx: OptNode, rx: OptNode)

  datatype Snapshot = Snapshot(measures: seq<Measure>)

  /** The registered node filed under the key of `id`, if any. */
  function FindNode(nodes: seq<NodeInfo>, id: string): (r: Option<NodeInfo>)
    ensures r.Some? ==> r.value in nodes && Key(r.value.id) == Key(id)
    ensures r.None? ==> forall k :: 0 <= k < |nodes| ==> Key(nodes[k].id) != Key(id)
  {
    if nodes == [] then None
    else if Key(nodes[0].id) == Key(id) then Some(nodes[0])
    else FindNode(nodes[1..], id)
  }

  /** Every receiver the node holds a reading from is registered, so the
      reading's receiver (`meas.Rx`) is a node of the registry. */
  predicate Heard(nodes: seq<NodeInfo>, n: NodeInfo)
  {
    forall r :: r in n.rxNodes ==> FindNode(nodes, r.0).Some?
  }

  /** Every receiver a node records a reading from is itself registered. */
  predicate ReceiversKnown(nodes: seq<NodeInfo>)
  {
    forall n :: n in nodes ==> Heard(nodes, n)
  }

  /** `nodes.GetOrAdd(id, ...)`: the first endpoint filed under an id stays. */
  function GetOrAdd(m: map<string, OptNode>, n: OptNode): (r: map<string, OptNode>)
    ensures n.id in r && (n.id in m ==> r == m) && (n.id !in m ==> r[n.id] == n)
    ensures forall i :: i in m ==> i in r && r[i] == m[i]
    ensures r.Keys == m.Keys + {n.id}
  {
    if n.id in m then m else m[n.id := n]
  }

  function TxEndpoint(tx: NodeInfo): OptNode
  {
    OptNode(tx.id, tx.name, tx.location)
  }

  /** The endpoint for a reading's receiver, named and placed as the
      registered receiver node is. */
  function RxEndpoint(nodes: seq<NodeInfo>, rxId: string): OptNode
    requires FindNode(nodes, rxId).Some?
  {
    var rx := FindNode(nodes, rxId).value;
    OptNode(rxId, rx.name, rx.location)
  }

  /** One reading the snapshot visits: its transmitter, the reading, and the
      endpoint of the receiver that took it. */
  datatype Pair = Pair(tx: NodeInfo, reading: RxReading, rx: OptNode)

  function PairsOf(nodes: seq<NodeInfo>, n: NodeInfo): (ps: seq<Pair>)
    requires Heard(nodes, n)
    ensures |ps| == |n.rxNodes|
    ensures forall j :: 0 <= j < |ps| ==>
              ps[j] == Pair(n, n.rxNodes[j].1, RxEndpoint(nodes, n.rxNodes[j].0))
  {
    seq(|n.rxNodes|, j requires 0 <= j < |n.rxNodes| =>
      assert n.rxNodes[j] in n.rxNodes;
      Pair(n, n.rxNodes[j].1, RxEndpoint(nodes, n.rxNodes[j].0)))
  }

  /** The pairs the snapshot loops visit, transmitter by transmitter. */
  function Pairs(nodes: seq<NodeInfo>, ns: seq<NodeInfo>): seq<Pair>
    requires forall n :: n in ns ==> Heard(nodes, n)
  {
    if ns == [] then [] else Pairs(nodes, ns[..|ns| - 1]) + PairsOf(nodes, ns[|ns| - 1])
  }

  /** Every visited pair belongs to a registered transmitter and one of its
      readings, and its receiver endpoint is built from the registered receiver. */
  lemma {:induction false} PairsFromNodes(nodes: seq<NodeInfo>, ns: seq<NodeInfo>)
    requires forall n :: n in ns ==> Heard(nodes, n)
    ensures forall p :: p in Pairs(nodes, ns) ==>
              && p.tx in ns && (p.rx.id, p.reading) in p.tx.rxNodes
              && FindNode(nodes, p.rx.id).Some? && p.rx == RxEndpoint(nodes, p.rx.id)
  {
    if ns != [] {
      var pre, last := ns[..|ns| - 1], ns[|ns| - 1];
      PairsFromNodes(nodes, pre);
      forall p | p in Pairs(nodes, ns)
        ensures && p.tx in ns && (p.rx.id, p.reading) in p.tx.rxNodes
                && FindNode(nodes, p.rx.id).Some? && p.rx == RxEndpoint(nodes, p.rx.id)
      {
        if p in Pairs(nodes, pre) {
          assert p.tx in pre;
        } else {
          var ps := PairsOf(nodes, last);
          assert p in ps;
          var j :| 0 <= j < |ps| && ps[j] == p;
          assert last.rxNodes[j] in last.rxNodes;
        }
      }
    }
  }

  /** `f` applied to each element of `ps` in turn, starting from `acc`. */
  function FoldLeft<A, P>(f: (A, P) -> A, acc: A, ps: seq<P>): A
  {
    if |ps| == 0 then acc else f(FoldLeft(f, acc, ps[..|ps| - 1]), ps[|ps| - 1])
  }

  lemma FoldLeftNext<A, P>(f: (A, P) -> A, acc: A, ps: seq<P>, j: nat)
    requires j < |ps|
    ensures FoldLeft(f, acc, ps[..j + 1]) == f(FoldLeft(f, acc, ps[..j]), ps[j])
  {
    assert ps[..j + 1][..j] == ps[..j];
  }

  lemma {:induction false} FoldLeftAppend<A, P>(f: (A, P) -> A, acc: A, xs: seq<P>, ys: seq<P>)
    ensures FoldLeft(f, acc, xs + ys) == FoldLeft(f, FoldLeft(f, acc, xs), ys)
  {
    if |ys| == 0 {
      assert xs + ys == xs;
    } else {
      FoldLeftAppend(f, acc, xs, ys[..|ys| - 1]);
      assert (xs + ys)[..|xs + ys| - 1] == xs + ys[..|ys| - 1];
    }
  }

  /** One pass of the inner snapshot loop: file the pair's endpoints (the
      first one under an id stays) and append its measure. */
  function Step(prior: (seq<Measure>, map<string, OptNode>), p: Pair): (r: (seq<Measure>, map<string, OptNode>))
    ensures |r.0| == |prior.0| + 1 && r.0[..|prior.0|] == prior.0
  {
    var m1 := GetOrAdd(prior.1, TxEndpoint(p.tx));
    var m2 := GetOrAdd(m1, p.rx);
    (prior.0 + [Measure(p.reading.current, p.reading.distance, p.reading.refRssi, p.reading.rssi, m1[p.tx.id], m2[p.rx.id])], m2)
  }

  /** The measures and endpoint dictionary after visiting the given pairs. */
  function Collect(ps: seq<Pair>): (seq<Measure>, map<string, OptNode>)
  {
    FoldLeft(Step, ([], map[]), ps)
  }

  /** Every endpoint is filed under its own id. */
  predicate Keyed(m: map<string, OptNode>)
  {
    forall i :: i in m ==> m[i].id == i
  }

  lemma {:induction false} EndpointsKeyed(ps: seq<Pair>)
    ensures Keyed(Collect(ps).1)
  {
    if ps != [] {
      EndpointsKeyed(ps[..|ps| - 1]);
    }
  }

  /** A snapshot holds one measure per visited pair, in visiting order, naming
      the pair's transmitter and receiver and copying its reading. */
  lemma {:induction false} MeasuresCopyPairs(ps: seq<Pair>)
    ensures var ms := Collect(ps).0;
      && |ms| == |ps|
      && forall k :: 0 <= k < |ps| ==>
        && ms[k].tx.id == ps[k].tx.id && ms[k].rx.id == ps[k].rx.id
        && ms[k].current == ps[k].reading.current && ms[k].distance == ps[k].reading.distance
        && ms[k].refRssi == ps[k].reading.refRssi && ms[k].rssi == ps[k].reading.rssi
  {
    if ps != [] {
      var pre := ps[..|ps| - 1];
      MeasuresCopyPairs(pre);
      EndpointsKeyed(pre);
      var ms0 := Collect(pre).0;
      var ms := Collect(ps).0;
      assert ms[..|pre|] == ms0;
      forall k | 0 <= k < |pre|
        ensures && ms[k].tx.id == ps[k].tx.id && ms[k].rx.id == ps[k].rx.id
                && ms[k].current == ps[k].reading.current && ms[k].distance == ps[k].reading.distance
                && ms[k].refRssi == ps[k].reading.refRssi && ms[k].rssi == ps[k].reading.rssi
      {
        assert ms[k] == ms0[k] && ps[k] == pre[k];
      }
    }
  }

  /** The measure's endpoints are the ones the dictionary files under their ids. */
  predicate Shares(m: map<string, OptNode>, x: Measure)
  {
    x.tx.id in m && m[x.tx.id] == x.tx && x.rx.id in m && m[x.rx.id] == x.rx
  }

  /** Measures with the same endpoint id share the one endpoint the snapshot's
      dictionary holds for that id. */
  lemma {:induction false} EndpointsShared(ps: seq<Pair>, k: nat)
    requires k < |ps|
    ensures |Collect(ps).0| == |ps| && Shares(Collect(ps).1, Collect(ps).0[k])
  {
    var pre := ps[..|ps| - 1];
    MeasuresCopyPairs(ps);
    MeasuresCopyPairs(pre);
    var r0 := Collect(pre);
    var r := Collect(ps);
    var p := ps[|ps| - 1];
    assert r == Step(r0, p);
    var m1 := GetOrAdd(r0.1, TxEndpoint(p.tx));
    assert r.1 == GetOrAdd(m1, p.rx);
    if k < |pre| {
      EndpointsShared(pre, k);
      assert r.0[k] == r0.0[k];
    }
  }


  /** The window after TakeOptimizationSnapshot: the oldest snapshot goes only
      when the count already exceeds the configured maximum (never without a
      configuration), then the new one is appended. */
  function Window(snaps: seq<Snapshot>, max: Option<nat>, os: Snapshot): (r: seq<Snapshot>)
    ensures r != [] && r[|r| - 1] == os
    ensures r == snaps + [os] || (snaps != [] && r == snaps[1..] + [os])
    ensures max.None? ==> r == snaps + [os]
  {
    if max.Some? && |snaps| > max.value then snaps[1..] + [os] else snaps + [os]
  }

  /** Window applied to each snapshot in turn. */
  function Fill(snaps: seq<Snapshot>, max: Option<nat>, news: seq<Snapshot>): seq<Snapshot>
  {
    if news == [] then snaps else Window(Fill(snaps, max, news[..|news| - 1]), max, news[|news| - 1])
  }

  /** From an empty window, after n snapshots the window holds the last
      min(n, max + 1) of them, oldest first: the window is bounded by
      MaxSnapshots + 1 and first in, first out. */
  lemma {:induction false} WindowKeepsNewest(max: nat, news: seq<Snapshot>)
    ensures var r := Fill([], Some(max), news);
      var n := if |news| <= max + 1 then |news| else max + 1;
      r == news[|news| - n..]
  {
    if news != [] {
      var pre, last := news[..|news| - 1], news[|news| - 1];
      assert news == pre + [last];
      WindowKeepsNewest(max, pre);
      Slide(max, pre, Fill([], Some(max), pre), last);
    }
  }

  /** One more snapshot moves a window holding the newest of `pre` on to the
      newest of `pre + [last]`. */
  lemma Slide(max: nat, pre: seq<Snapshot>, w: seq<Snapshot>, last: Snapshot)
    requires w == pre[|pre| - (if |pre| <= max + 1 then |pre| else max + 1)..]
    ensures var news := pre + [last];
      var n := if |news| <= max + 1 then |news| else max + 1;
      Window(w, Some(max), last) == news[|news| - n..]
  {
    if |pre| <= max {
      assert w == pre;
      assert Window(w, Some(max), last) == pre + [last];
    } else {
      var cut := |pre| - (max + 1);
      assert w == pre[cut..] && |w| == max + 1;
      assert Window(w, Some(max), last) == w[1..] + [last];
      SlideByOne(pre, cut, last);
    }
  }

  lemma SlideByOne(pre: seq<Snapshot>, cut: nat, last: Snapshot)
    requires cut < |pre|
    ensures pre[cut..][1..] + [last] == (pre + [last])[cut + 1..]
  {
  }

  /** Without a configuration nothing is evicted. */
  lemma {:induction false} NoConfigNeverEvicts(snaps: seq<Snapshot>, news: seq<Snapshot>)
    ensures Fill(snaps, None, news) == snaps + news
  {
    if news != [] {
      NoConfigNeverEvicts(snaps, news[..|news| - 1]);
      assert snaps + news == snaps + news[..|news| - 1] + [news[|news| - 1]];
    }
  }

  // ---------------------------------------------------------------------
  // The registry

  /** Sets Check on every given device, so that the next reading re-decides
      whether it is tracked; nothing else about a device changes. */
  method MarkForCheck(ds: set<Device>)
    modifies ds
    ensures forall d :: d in ds ==> d.check
    ensures forall d :: d in ds ==>
              && d.name == old(d.name) && d.track == old(d.track) && d.best == old(d.best)
              && d.reportedState == old(d.reportedState) && d.reportedLocation == old(d.reportedLocation)
              && d.lastCalculated == old(d.lastCalculated) && d.readings == old(d.readings)
  {
    var todo := ds;
    while todo != {}
      invariant todo <= ds
      invariant forall d :: d in ds && d !in todo ==> d.check
      invariant forall d :: d in ds ==>
                  && d.name == old(d.name) && d.track == old(d.track) && d.best == old(d.best)
                  && d.reportedState == old(d.reportedState) && d.reportedLocation == old(d.reportedLocation)
                  && d.lastCalculated == old(d.lastCalculated) && d.readings == old(d.readings)
      decreases todo
    {
      var d :| d in todo;
      d.check := true;
      todo := todo - {d};
    }
  }

  /** The body of the inner snapshot loop: file both endpoints and append
      the pair's measure. */
  method FileReading(measures0: seq<Measure>, endpoints0: map<string, OptNode>, p: Pair)
    returns (measures: seq<Measure>, endpoints: map<string, OptNode>)
    ensures (measures, endpoints) == Step((measures0, endpoints0), p)
  {
    endpoints := GetOrAdd(endpoints0, TxEndpoint(p.tx));
    var txNode := endpoints[p.tx.id];
    endpoints := GetOrAdd(endpoints, p.rx);
    var rxNode := endpoints[p.rx.id];
    measures := measures0 + [Measure(p.reading.current, p.reading.distance, p.reading.refRssi, p.reading.rssi, txNode, rxNode)];
  }

  /** The inner loop of the snapshot: the readings one transmitter holds. */
  method CaptureNode(nodes: seq<NodeInfo>, done: seq<Pair>, tx: NodeInfo,
                     measures0: seq<Measure>, endpoints0: map<string, OptNode>)
    returns (measures: seq<Measure>, endpoints: map<string, OptNode>)
    requires Heard(nodes, tx)
    requires (measures0, endpoints0) == Collect(done)
    ensures (measures, endpoints) == Collect(done + PairsOf(nodes, tx))
  {
    ghost var ps := PairsOf(nodes, tx);
    measures, endpoints := measures0, endpoints0;
    for j := 0 to |tx.rxNodes|
      invariant (measures, endpoints) == FoldLeft(Step, (measures0, endpoints0), ps[..j])
    {
      var (rxId, meas) := tx.rxNodes[j];
      assert tx.rxNodes[j] in tx.rxNodes;
      FoldLeftNext(Step, (measures0, endpoints0), ps, j);
      measures, endpoints := FileReading(measures, endpoints, Pair(tx, meas, RxEndpoint(nodes, rxId)));
    }
    assert ps[..|tx.rxNodes|] == ps;
    FoldLeftAppend(Step, ([], map[]), done, ps);
  }

  /** The snapshot's measures: for every node in order and every reading it
      holds, one measure whose endpoints come from a dictionary that keeps the
      first endpoint filed under each id. */
  method Capture(nodes: seq<NodeInfo>) returns (os: Snapshot)
    requires ReceiversKnown(nodes)
    ensures os == Snapshot(Collect(Pairs(nodes, nodes)).0)
  {
    var endpoints: map<string, OptNode> := map[];
    var measures: seq<Measure> := [];
    for i := 0 to |nodes|
      invariant (measures, endpoints) == Collect(Pairs(nodes, nodes[..i]))
    {
      assert nodes[..i + 1][..i] == nodes[..i];
      assert Pairs(nodes, nodes[..i + 1]) == Pairs(nodes, nodes[..i]) + PairsOf(nodes, nodes[i]);
      measures, endpoints := CaptureNode(nodes, Pairs(nodes, nodes[..i]), nodes[i], measures, endpoints);
    }
    assert nodes[..|nodes|] == nodes;
    os := Snapshot(measures);
  }

  class State {
    var config: Option<Config>
    /** Nodes, keyed case-insensitively by id, in enumeration order. */
    var nodes: seq<NodeInfo>
    /** Floors, keyed case-insensitively by id, in enumeration order. */
    var floors: seq<Floor>
    /** Devices by the key of their id. */
    var devices: map<string, Device>
    var configById: map<string, ConfigDevice>
    var configByName: map<string, ConfigDevice>
    var idsToTrack: seq<string>
    var namesToTrack: seq<string>
    var snapshots: seq<Snapshot>
    var weighting: Option<Weighting>

    /** A registry before any configuration is loaded. */
    constructor ()
      ensures config == None && nodes == [] && floors == [] && devices == map[]
      ensures configById == map[] && configByName == map[] && idsToTrack == [] && namesToTrack == []
      ensures snapshots == [] && weighting == None
      ensures ReceiversKnown(nodes)
    {
      config, nodes, floors, devices := None, [], [], map[];
      configById, configByName, idsToTrack, namesToTrack := map[], map[], [], [];
      snapshots, weighting := [], None;
    }

    /** `Config?.Optimization.MaxSnapshots`: null without a configuration. */
    function MaxSnapshots(): Option<nat>
      reads this
    {
      if config.Some? then Some(config.value.maxSnapshots) else None
    }

    /** LoadConfig's pattern partitioning, weighting choice and re-check of
        every known device. Updating the floors and nodes themselves is not
        part of this model. */
    method LoadConfig(c: Config, g: Globbing)
      modifies this, devices.Values
      ensures config == Some(c)
      ensures var ds := if c.devices.Some? then c.devices.value else [];
        && Patterns(configById, idsToTrack) == Partition(ds, false, g.literal)
        && Patterns(configByName, namesToTrack) == Partition(ds, true, g.literal)
      ensures weighting == Some(ChooseWeighting(c.weighting))
      ensures devices == old(devices) && nodes == old(nodes) && floors == old(floors)
      ensures snapshots == old(snapshots)
      ensures forall d :: d in devices.Values ==>
                d.check && d.track == old(d.track) && d.name == old(d.name) && d.best == old(d.best)
                && d.readings == old(d.readings) && d.reportedState == old(d.reportedState)
                && d.reportedLocation == old(d.reportedLocation) && d.lastCalculated == old(d.lastCalculated)
    {
      config := Some(c);
      var ds := if c.devices.Some? then c.devices.value else [];

      var byId, ids := SplitPatterns(ds, false, g.literal);
      var byName, names := SplitPatterns(ds, true, g.literal);
      idsToTrack, configById := ids, byId;
      namesToTrack, configByName := names, byName;
      weighting := Some(ChooseWeighting(c.weighting));

      MarkForCheck(devices.Values);
    }

    /** TakeOptimizationSnapshot: one measure per (transmitter, receiver)
        reading, endpoints shared by id, appended to the bounded window. */
    method TakeOptimizationSnapshot() returns (os: Snapshot)
      requires ReceiversKnown(nodes)
      modifies this
      ensures config == old(config) && nodes == old(nodes) && floors == old(floors) && devices == old(devices)
      ensures os == Snapshot(Collect(Pairs(nodes, nodes)).0)
      ensures snapshots == Window(old(snapshots), MaxSnapshots(), os)
      ensures configById == old(configById) && configByName == old(configByName)
      ensures idsToTrack == old(idsToTrack) && namesToTrack == old(namesToTrack) && weighting == old(weighting)
    {
      os := Capture(nodes);
      if config.Some? && |snapshots| > config.value.maxSnapshots {
        snapshots := snapshots[1..];
      }
      snapshots := snapshots + [os];
    }

    /** GetScenarios: fresh scenarios following ScenarioPlan over the floors. */
    method GetScenarios() returns (ss: seq<Scenario>)
      ensures |ss| == |floors| + 1
      ensures forall i :: 0 <= i < |ss| ==>
                fresh(ss[i]) && ss[i].View() == Fresh
                && (ss[i].locator, ss[i].name) == ScenarioPlan(floors)[i]
                && ss[i].timeoutMs == TimeoutMs(ConfigTimeout(config))
      ensures Distinct(ss)
    {
      var plan := ScenarioPlan(floors);
      ss := [];
      for i := 0 to |plan|
        invariant |ss| == i
        invariant forall k :: 0 <= k < i ==>
                    fresh(ss[k]) && ss[k].View() == Fresh
                    && (ss[k].locator, ss[k].name) == plan[k]
                    && ss[k].timeoutMs == TimeoutMs(ConfigTimeout(config))
        invariant forall k, l :: 0 <= k < l < i ==> ss[k] != ss[l]
      {
        var s := new Scenario(ConfigTimeout(config), plan[i].0, plan[i].1);
        ss := ss + [s];
      }
    }

    /** A device as `Devices.GetOrAdd` creates it under `id`: the
        configured timeout, one scenario per floor and then the nearest-node
        one, distinct and untouched, no best scenario and no reported
        state. */
    predicate Planned(d: Device, id: string)
      reads this, d, d.scenarios
    {
      && d.id == id && d.best == None && d.reportedState == None
      && d.timeoutMs == TimeoutMs(ConfigTimeout(config))
      && |d.scenarios| == |floors| + 1 && Distinct(d.scenarios)
      && forall i :: 0 <= i < |d.scenarios| ==>
           d.scenarios[i].View() == Fresh && (d.scenarios[i].locator, d.scenarios[i].name) == ScenarioPlan(floors)[i]
    }

    /** Everything but the nodes and the devices is as it was: the
        configuration, the floors, the track patterns, the weighting and the
        snapshot window. */
    twostate predicate Unchanged()
      reads this
    {
      && config == old(config) && floors == old(floors) && snapshots == old(snapshots)
      && configById == old(configById) && configByName == old(configByName)
      && idsToTrack == old(idsToTrack) && namesToTrack == old(namesToTrack) && weighting == old(weighting)
    }

    /** `Devices.GetOrAdd(id, ...)`: the device filed under the key of `id`,
        or a new one with Check set, the configured timeout, and the planned
        scenarios. */
    method DeviceFor(id: string) returns (d: Device)
      modifies this
      ensures Key(id) in devices && d == devices[Key(id)]
      ensures Key(id) in old(devices) ==> d == old(devices[Key(id)]) && devices == old(devices)
      ensures Key(id) !in old(devices) ==>
                && fresh(d) && devices == old(devices)[Key(id) := d]
                && (forall i :: 0 <= i < |d.scenarios| ==> fresh(d.scenarios[i]))
                && Planned(d, id)
                && d.check && !d.track && d.name == None && d.readings == []
      ensures old(devices.Values) <= devices.Values
      ensures Separate(old(devices.Values)) ==> Separate(devices.Values)
      ensures nodes == old(nodes) && Unchanged()
    {
      if Key(id) in devices {
        d := devices[Key(id)];
      } else {
        var ss := GetScenarios();
        d := new Device(id, TimeoutMs(ConfigTimeout(config)), ss);
        ghost var before := devices;
        devices := devices[Key(id) := d];
        forall e | e in before.Values ensures e in devices.Values {
          var k :| k in before && before[k] == e;
          assert devices[k] == e;
        }
        if Separate(before.Values) {
          assert devices.Values <= before.Values + {d} by {
            forall e | e in devices.Values ensures e in before.Values + {d} {
              var k :| k in devices && devices[k] == e;
              if k != Key(id) { assert before[k] == e; }
            }
          }
          SeparateAdd(before.Values, d, devices.Values);
        }
      }
    }

    /** The devices a batch re-evaluates although no new reading marked them:
        tracked, located (confidence > 0), and not evaluated for longer than
        their timeout. */
    method IdleDevices(now: int) returns (r: set<Device>)
      ensures forall d :: d in r <==> d in devices.Values && Idle(d, now)
    {
      r := {};
      var todo := devices.Values;
      while todo != {}
        invariant todo <= devices.Values
        invariant forall d :: d in r <==> d in devices.Values && d !in todo && Idle(d, now)
        decreases todo
      {
        var d :| d in todo;
        if Idle(d, now) {
          r := r + {d};
        }
        todo := todo - {d};
      }
    }
  }

  predicate Idle(d: Device, now: int)
    reads d, d.scenarios
  {
    d.track && d.Confidence().Some? && d.Confidence().value > 0 && now - d.lastCalculated > d.timeoutMs
  }

  /** A device evaluated at `now` is not idle at `now` unless its timeout is
      negative, and an untracked or unlocated device is never idle. */
  lemma IdleNeedsElapsedTimeout(d: Device, now: int)
    ensures d.lastCalculated == now && d.timeoutMs >= 0 ==> !Idle(d, now)
    ensures !d.track || d.best.None? ==> !Idle(d, now)
  {
  }
}
