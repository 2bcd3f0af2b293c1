/** The per-device arbiter (src/Locators/MultiScenarioLocator.cs): it routes
    every inbound reading either to the node-to-node tables or to a device,
    decides once per configuration whether a device is tracked, and in each
    batch re-locates the marked and idle devices, keeps or replaces each
    device's best scenario with a 2-point hysteresis, and reports the state,
    the attributes and the history rows of whatever changed. Outbound MQTT
    messages and history rows are appended to sequences. */
module Arbiter {
  import opened Base
  import opened Anchors
  import opened Scenarios
  import opened Devices
  import opened Registry
  import LocatorDispatch

  /** The margin by which a candidate must beat the kept best scenario. */
  const ConfidenceThreshold: int := 2

  // ---------------------------------------------------------------------
  // Keyed entries (the ConcurrentDictionary a node or a device keeps of the
  // readings it receives, in enumeration order)

  /** The value filed under `k`, if any. */
  function Lookup<V>(entries: seq<(string, V)>, k: string): (r: Option<V>)
    ensures r.Some? <==> exists i :: 0 <= i < |entries| && entries[i].0 == k
  {
    if entries == [] then None
    else if entries[0].0 == k then Some(entries[0].1)
    else Lookup(entries[1..], k)
  }

  /** `GetOrAdd(k, ...).ReadMessage(...)`: the entry under `k` takes the new
      value where it stands, or a new entry is added last. */
  function Put<V>(entries: seq<(string, V)>, k: string, v: V): (r: seq<(string, V)>)
    ensures Lookup(r, k) == Some(v)
    ensures forall j :: j != k ==> Lookup(r, j) == Lookup(entries, j)
    ensures |r| == |entries| + (if Lookup(entries, k).Some? then 0 else 1)
    ensures forall i :: 0 <= i < |entries| ==> r[i].0 == entries[i].0
  {
    if entries == [] then [(k, v)]
    else if entries[0].0 == k then [(k, v)] + entries[1..]
    else [entries[0]] + Put(entries[1..], k, v)
  }

  // ---------------------------------------------------------------------
  // Routing an inbound reading

  /** Where a reading goes: into the transmitting node's table, to a device,
      or nowhere because its receiver has no location. */
  datatype Route = NodeToNode(tx: NodeInfo) | ToDevice | Skipped

  /** `new Node(id)`: a node known only by its id, without a configured
      location and not stationary. */
  function UnknownNode(id: string): NodeInfo
  {
    NodeInfo(id, None, Origin, false, false, [])
  }

  /** An unknown node that is not in the list is found after being added last. */
  lemma {:induction false} FindAppended(nodes: seq<NodeInfo>, n: NodeInfo, id: string)
    requires FindNode(nodes, id).None? && Key(n.id) == Key(id)
    ensures FindNode(nodes + [n], id) == Some(n)
  {
    if nodes != [] {
      assert (nodes + [n])[1..] == nodes[1..] + [n];
      FindAppended(nodes[1..], n, id);
    }
  }

  /** A lookup that succeeds keeps succeeding, with the same node, after a
      node is added last. */
  lemma {:induction false} FindStable(nodes: seq<NodeInfo>, n: NodeInfo, id: string)
    requires FindNode(nodes, id).Some?
    ensures FindNode(nodes + [n], id) == FindNode(nodes, id)
  {
    if Key(nodes[0].id) != Key(id) {
      assert (nodes + [n])[1..] == nodes[1..] + [n];
      FindStable(nodes[1..], n, id);
    }
  }

  /** The receiving node registers itself when it is not yet known. */
  function Register(nodes: seq<NodeInfo>, nodeId: string): (r: seq<NodeInfo>)
    ensures FindNode(r, nodeId).Some?
    ensures FindNode(nodes, nodeId).Some? ==> r == nodes
    ensures FindNode(nodes, nodeId).None? ==> FindNode(r, nodeId) == Some(UnknownNode(nodeId))
    ensures forall id :: FindNode(nodes, id).Some? ==> FindNode(r, id) == FindNode(nodes, id)
  {
    if FindNode(nodes, nodeId).Some? then nodes
    else
      var r := nodes + [UnknownNode(nodeId)];
      FindAppended(nodes, UnknownNode(nodeId), nodeId);
      assert forall id :: FindNode(nodes, id).Some? ==> FindNode(r, id) == FindNode(nodes, id) by {
        forall id | FindNode(nodes, id).Some? { FindStable(nodes, UnknownNode(nodeId), id); }
      }
      r
  }

  /** The transmitter a `node:`-prefixed device id names, if it is registered. */
  function Transmitter(nodes: seq<NodeInfo>, deviceId: string): Option<NodeInfo>
  {
    if StartsWith(deviceId, "node:") then FindNode(nodes, deviceId[5..]) else None
  }

  /** The routing decision, over the node list after the receiver registered. */
  function Classify(nodes: seq<NodeInfo>, deviceId: string, rx: NodeInfo): Route
  {
    var tx := Transmitter(nodes, deviceId);
    if tx.Some? && tx.value.hasLocation && tx.value.stationary then NodeToNode(tx.value)
    else if rx.hasLocation then ToDevice
    else Skipped
  }

  /** A node-to-node reading comes from the registered, located, stationary
      transmitter its `node:` id names; every other message is a device
      reading, dropped exactly when its receiver has no location. */
  lemma RouteRule(nodes: seq<NodeInfo>, deviceId: string, rx: NodeInfo)
    ensures var r := Classify(nodes, deviceId, rx);
      && (r.NodeToNode? ==> && StartsWith(deviceId, "node:") && r.tx in nodes
                            && Key(r.tx.id) == Key(deviceId[5..]) && r.tx.hasLocation && r.tx.stationary)
      && (StartsWith(deviceId, "node:") && FindNode(nodes, deviceId[5..]).Some?
          && FindNode(nodes, deviceId[5..]).value.hasLocation && FindNode(nodes, deviceId[5..]).value.stationary
          ==> r.NodeToNode?)
      && (!r.NodeToNode? ==> (r.Skipped? <==> !rx.hasLocation))
  {
  }

  /** A node that hears its own `node:` message before it is registered
      registers itself without a location, so the message is handled as a
      device reading, and then dropped because the receiver has no location. */
  lemma SelfHeardIsSkipped(nodes: seq<NodeInfo>, id: string)
    requires FindNode(nodes, id).None?
    ensures var after := Register(nodes, id);
      Classify(after, "node:" + id, FindNode(after, id).value) == Skipped
  {
    var after := Register(nodes, id);
    assert ("node:" + id)[5..] == id;
    assert StartsWith("node:" + id, "node:");
  }

  /** The node list after a node-to-node reading: the transmitter's table
      takes the reading under the receiver's id. */
  function Record(nodes: seq<NodeInfo>, txId: string, rxId: string, reading: RxReading): (r: seq<NodeInfo>)
    ensures |r| == |nodes|
    ensures forall k :: 0 <= k < |nodes| ==> r[k].id == nodes[k].id
  {
    if nodes == [] then []
    else if Key(nodes[0].id) == Key(txId) then [nodes[0].(rxNodes := Put(nodes[0].rxNodes, rxId, reading))] + nodes[1..]
    else [nodes[0]] + Record(nodes[1..], txId, rxId, reading)
  }

  /** Recording changes the transmitter's table only: the transmitter now
      holds the reading under the receiver's id, and every other node is as
      it was. */
  lemma {:induction false} RecordTouchesTransmitter(nodes: seq<NodeInfo>, txId: string, rxId: string, reading: RxReading)
    requires FindNode(nodes, txId).Some?
    ensures var r := Record(nodes, txId, rxId, reading);
      && FindNode(r, txId).Some?
      && Lookup(FindNode(r, txId).value.rxNodes, rxId) == Some(reading)
      && FindNode(r, txId).value == FindNode(nodes, txId).value.(rxNodes := FindNode(r, txId).value.rxNodes)
      && forall k :: 0 <= k < |nodes| && Key(nodes[k].id) != Key(txId) ==> r[k] == nodes[k]
  {
    var r := Record(nodes, txId, rxId, reading);
    if Key(nodes[0].id) != Key(txId) {
      RecordTouchesTransmitter(nodes[1..], txId, rxId, reading);
      assert r[1..] == Record(nodes[1..], txId, rxId, reading);
      forall k | 1 <= k < |nodes| && Key(nodes[k].id) != Key(txId)
        ensures r[k] == nodes[k]
      {
        assert r[k] == r[1..][k - 1] && nodes[k] == nodes[1..][k - 1];
      }
    }
  }

  /** Filing a value adds no entry other than the one under its key. */
  lemma {:induction false} PutEntries<V>(entries: seq<(string, V)>, k: string, v: V)
    ensures forall e :: e in Put(entries, k, v) ==> e in entries || e == (k, v)
  {
    if entries != [] && entries[0].0 != k {
      PutEntries(entries[1..], k, v);
    }
  }

  /** Recording touches one table: each node is as it was, or has the
      reading filed under the receiver's id. */
  lemma {:induction false} RecordShape(nodes: seq<NodeInfo>, txId: string, rxId: string, reading: RxReading)
    ensures var r := Record(nodes, txId, rxId, reading);
      forall k :: 0 <= k < |nodes| ==>
        r[k] == nodes[k] || r[k] == nodes[k].(rxNodes := Put(nodes[k].rxNodes, rxId, reading))
  {
    if nodes != [] && Key(nodes[0].id) != Key(txId) {
      RecordShape(nodes[1..], txId, rxId, reading);
      var r := Record(nodes, txId, rxId, reading);
      forall k | 1 <= k < |nodes|
        ensures r[k] == nodes[k] || r[k] == nodes[k].(rxNodes := Put(nodes[k].rxNodes, rxId, reading))
      {
        assert r[k] == Record(nodes[1..], txId, rxId, reading)[k - 1] && nodes[k] == nodes[1..][k - 1];
      }
    }
  }

  /** Two node lists with the same ids at the same places register the
      same ids. */
  lemma SameIdsSameFinds(nodes: seq<NodeInfo>, r: seq<NodeInfo>, id: string)
    requires |r| == |nodes| && forall k :: 0 <= k < |nodes| ==> r[k].id == nodes[k].id
    ensures FindNode(r, id).Some? <==> FindNode(nodes, id).Some?
  {
    if FindNode(r, id).Some? {
      var k :| 0 <= k < |r| && r[k] == FindNode(r, id).value;
      assert Key(nodes[k].id) == Key(id);
    }
    if FindNode(nodes, id).Some? {
      var k :| 0 <= k < |nodes| && nodes[k] == FindNode(nodes, id).value;
      assert Key(r[k].id) == Key(id);
    }
  }

  /** A receiver that registers itself keeps every recorded receiver
      registered (the registry's ReceiversKnown). */
  lemma RegisterKeepsReceiversKnown(nodes: seq<NodeInfo>, nodeId: string)
    requires ReceiversKnown(nodes)
    ensures ReceiversKnown(Register(nodes, nodeId))
  {
    var r := Register(nodes, nodeId);
    forall n | n in r ensures Heard(r, n) {
      if n in nodes {
        assert Heard(nodes, n);
      } else {
        assert n == UnknownNode(nodeId);
      }
    }
  }

  /** Recording a reading from a registered receiver keeps every recorded
      receiver registered. */
  lemma RecordKeepsReceiversKnown(nodes: seq<NodeInfo>, txId: string, rxId: string, reading: RxReading)
    requires ReceiversKnown(nodes) && FindNode(nodes, rxId).Some?
    ensures ReceiversKnown(Record(nodes, txId, rxId, reading))
  {
    var r := Record(nodes, txId, rxId, reading);
    RecordShape(nodes, txId, rxId, reading);
    forall n | n in r ensures Heard(r, n) {
      var k :| 0 <= k < |r| && r[k] == n;
      assert Heard(nodes, nodes[k]);
      PutEntries(nodes[k].rxNodes, rxId, reading);
      forall e | e in n.rxNodes ensures FindNode(r, e.0).Some? {
        SameIdsSameFinds(nodes, r, e.0);
      }
    }
  }

  // ---------------------------------------------------------------------
  // Track eligibility

  /** Some glob of the list matches the text (`Any(a => a.IsMatch(text))`). */
  predicate AnyMatch(globs: seq<string>, text: string, g: Globbing)
  {
    exists i :: 0 <= i < |globs| && g.matches(globs[i], text)
  }

  /** The patterns the registry holds for deciding eligibility. */
  datatype Eligibility = Eligibility(
    byId: map<string, ConfigDevice>,
    byName: map<string, ConfigDevice>,
    idGlobs: seq<string>,
    nameGlobs: seq<string>)

  /** The device's Track flag and Name after the check: an exact id match
      (which also takes a non-blank configured name), else an exact name
      match, else an id glob, else a name glob, else not tracked. */
  function TrackDecision(msgId: string, id: string, name: Option<string>, e: Eligibility, g: Globbing): (r: (bool, Option<string>))
  {
    if Key(msgId) in e.byId then
      (true, if IsBlank(e.byId[Key(msgId)].name) then name else e.byId[Key(msgId)].name)
    else if !IsBlank(name) && Key(name.value) in e.byName then (true, name)
    else if !IsBlank(Some(id)) && AnyMatch(e.idGlobs, id, g) then (true, name)
    else if !IsBlank(name) && AnyMatch(e.nameGlobs, name.value, g) then (true, name)
    else (false, name)
  }

  /** The order of the tests decides only the name, never the flag: a device
      is tracked exactly when any of the four tests passes. Its name changes
      only to the non-blank name configured under its exact id. */
  lemma TrackPrecedence(msgId: string, id: string, name: Option<string>, e: Eligibility, g: Globbing)
    ensures var r := TrackDecision(msgId, id, name, e, g);
      && (r.0 <==> Key(msgId) in e.byId
                   || (!IsBlank(name) && Key(name.value) in e.byName)
                   || (!IsBlank(Some(id)) && AnyMatch(e.idGlobs, id, g))
                   || (!IsBlank(name) && AnyMatch(e.nameGlobs, name.value, g)))
      && (r.1 != name ==> Key(msgId) in e.byId && !IsBlank(e.byId[Key(msgId)].name) && r.1 == e.byId[Key(msgId)].name)
      && (Key(msgId) in e.byId && !IsBlank(e.byId[Key(msgId)].name) ==> r.1 == e.byId[Key(msgId)].name)
  {
  }

  // ---------------------------------------------------------------------
  // Choosing the best scenario

  /** `OrderByDescending(Confidence)` puts `a` strictly before `b`: a null
      confidence sorts below every value. */
  predicate Outranks(a: Option<int>, b: Option<int>)
  {
    a.Some? && (b.None? || a.value > b.value)
  }

  /** The candidate among (current, confidence) entries: the first current
      entry with the highest confidence, none when no entry is current. */
  function Candidate(cs: seq<(bool, Option<int>)>): (r: Option<nat>)
    ensures r.Some? ==> r.value < |cs| && cs[r.value].0
    ensures r.None? <==> forall k :: 0 <= k < |cs| ==> !cs[k].0
  {
    if cs == [] then None
    else
      var c := Candidate(cs[..|cs| - 1]);
      var last := |cs| - 1;
      if cs[last].0 && (c.None? || Outranks(cs[last].1, cs[c.value].1)) then Some(last) else c
  }

  /** The candidate is outranked by no current entry, and strictly outranks
      every current entry before it: ties go to the lowest index. */
  lemma {:induction false} CandidateIsFirstBest(cs: seq<(bool, Option<int>)>)
    requires Candidate(cs).Some?
    ensures var b := Candidate(cs).value;
      && (forall k :: 0 <= k < |cs| && cs[k].0 ==> !Outranks(cs[k].1, cs[b].1))
      && (forall k :: 0 <= k < b && cs[k].0 ==> Outranks(cs[b].1, cs[k].1))
  {
    var pre := cs[..|cs| - 1];
    var c := Candidate(pre);
    var b := Candidate(cs).value;
    if c.Some? {
      CandidateIsFirstBest(pre);
    }
    forall k | 0 <= k < |cs| && cs[k].0
      ensures !Outranks(cs[k].1, cs[b].1)
    {
      if k < |pre| {
        assert cs[k] == pre[k];
      }
    }
    forall k | 0 <= k < b && cs[k].0
      ensures Outranks(cs[b].1, cs[k].1)
    {
      assert cs[k] == pre[k];
    }
  }

  /** The confidence of the scenario at an index, if there is one. */
  function ConfidenceAt(vs: seq<ScenarioState>, i: Option<nat>): Option<int>
  {
    if i.Some? && i.value < |vs| then vs[i.value].confidence else None
  }

  /** The hysteresis rule: the candidate replaces the kept best when there is
      no kept best, or no candidate, or the candidate is more than the
      threshold above it; a null on either side makes that comparison false. */
  function Hysteresis(best: Option<nat>, cand: Option<nat>, bestConf: Option<int>, candConf: Option<int>): Option<nat>
  {
    if best.None? || cand.None? || (candConf.Some? && bestConf.Some? && candConf.value - bestConf.value > ConfidenceThreshold)
    then cand
    else best
  }

  /** The kept best is only ever given up for a missing best or candidate or
      for a margin above the threshold; whatever is kept is never more than
      the threshold below a candidate with a confidence; and deciding again
      on the same confidences changes nothing. */
  lemma HysteresisRule(best: Option<nat>, cand: Option<nat>, bestConf: Option<int>, candConf: Option<int>)
    ensures var r := Hysteresis(best, cand, bestConf, candConf);
      && (r == cand || r == best)
      && (r != best ==> best.None? || cand.None? || candConf.value > bestConf.value + ConfidenceThreshold)
      && (r == best && r != cand && candConf.Some? && bestConf.Some? ==> candConf.value <= bestConf.value + ConfidenceThreshold)
      && Hysteresis(r, cand, if r == cand then candConf else bestConf, candConf) == r
  {
  }

  // ---------------------------------------------------------------------
  // Reporting

  /** `bs?.Room?.Name ?? bs?.Floor?.Name ?? "not_home"`. */
  function StateName(bs: Option<ScenarioState>): string
  {
    if bs.Some? && bs.value.room.Some? && bs.value.room.value.name.Some? then bs.value.room.value.name.value
    else if bs.Some? && bs.value.floor.Some? && bs.value.floor.value.name.Some? then bs.value.floor.value.name.value
    else "not_home"
  }

  /** A device without a best scenario, or whose best scenario has neither a
      room nor a floor (a locator that could not place it), is `not_home`; a
      named room always wins over the floor. */
  lemma StateNameRule(bs: Option<ScenarioState>)
    ensures bs.None? ==> StateName(bs) == "not_home"
    ensures bs.Some? && bs.value.room.None? && bs.value.floor.None? ==> StateName(bs) == "not_home"
    ensures bs.Some? && bs.value.room.Some? && bs.value.room.value.name.Some? ==> StateName(bs) == bs.value.room.value.name.value
  {
  }

  /** The messages the arbiter enqueues: the state topic and the attributes
      topic of a device (GPS conversion and JSON layout are not modelled). */
  datatype Event =
    | StateChanged(device: string, state: string)
    | AttributesChanged(device: string, location: Option<Point3>, confidence: Option<int>, fixes: Option<int>, scenario: Option<string>)

  /** A DeviceHistory row (its wall-clock timestamp is not modelled). */
  datatype HistoryRow = HistoryRow(device: string, location: Point3, confidence: int, fixes: int, scenario: Option<string>, best: bool)

  function OrZero(v: Option<int>): int
  {
    if v.Some? then v.value else 0
  }

  /** The history rows of one report: one per scenario, in order, skipping
      those whose confidence is exactly 0; `Best` marks the chosen one. */
  function HistoryRows(id: string, vs: seq<ScenarioState>, names: seq<Option<string>>, bs: Option<nat>): (rows: seq<HistoryRow>)
    requires |names| == |vs|
    ensures |rows| <= |vs|
  {
    if vs == [] then []
    else
      var last := |vs| - 1;
      var prior := HistoryRows(id, vs[..last], names[..last], bs);
      if vs[last].confidence == Some(0) then prior
      else
        prior + [HistoryRow(id, vs[last].location, OrZero(vs[last].confidence), OrZero(vs[last].fixes),
                            names[last], bs == Some(last))]
  }

  /** The number of scenarios whose confidence is not exactly 0. */
  function Reporting(vs: seq<ScenarioState>): nat
  {
    if vs == [] then 0 else Reporting(vs[..|vs| - 1]) + (if vs[|vs| - 1].confidence == Some(0) then 0 else 1)
  }

  /** The number of rows marked best. */
  function BestRows(rows: seq<HistoryRow>): nat
  {
    if rows == [] then 0 else BestRows(rows[..|rows| - 1]) + (if rows[|rows| - 1].best then 1 else 0)
  }

  lemma BestRowsAppend(rows: seq<HistoryRow>, row: HistoryRow)
    ensures BestRows(rows + [row]) == BestRows(rows) + (if row.best then 1 else 0)
  {
    assert (rows + [row])[..|rows|] == rows;
  }

  /** One row per scenario whose confidence is not exactly 0 (a null
      confidence is written as 0); exactly one row is marked best when the
      chosen scenario is such a scenario, and none otherwise. */
  lemma {:induction false} HistoryRowsShape(id: string, vs: seq<ScenarioState>, names: seq<Option<string>>, bs: Option<nat>)
    requires |names| == |vs|
    ensures |HistoryRows(id, vs, names, bs)| == Reporting(vs)
    ensures BestRows(HistoryRows(id, vs, names, bs))
              == if bs.Some? && bs.value < |vs| && vs[bs.value].confidence != Some(0) then 1 else 0
  {
    HistoryRowsCount(id, vs, names, bs);
    HistoryRowsBest(id, vs, names, bs);
  }

  lemma {:induction false} HistoryRowsCount(id: string, vs: seq<ScenarioState>, names: seq<Option<string>>, bs: Option<nat>)
    requires |names| == |vs|
    ensures |HistoryRows(id, vs, names, bs)| == Reporting(vs)
  {
    if vs != [] {
      var last := |vs| - 1;
      HistoryRowsCount(id, vs[..last], names[..last], bs);
    }
  }

  lemma {:induction false} HistoryRowsBest(id: string, vs: seq<ScenarioState>, names: seq<Option<string>>, bs: Option<nat>)
    requires |names| == |vs|
    ensures BestRows(HistoryRows(id, vs, names, bs))
              == if bs.Some? && bs.value < |vs| && vs[bs.value].confidence != Some(0) then 1 else 0
  {
    if vs != [] {
      var last := |vs| - 1;
      var pre := vs[..last];
      HistoryRowsBest(id, pre, names[..last], bs);
      var prior := HistoryRows(id, pre, names[..last], bs);
      if bs.Some? && bs.value < last {
        assert pre[bs.value] == vs[bs.value];
      }
      if vs[last].confidence == Some(0) {
        assert HistoryRows(id, vs, names, bs) == prior;
      } else {
        var row := HistoryRow(id, vs[last].location, OrZero(vs[last].confidence), OrZero(vs[last].fixes),
                              names[last], bs == Some(last));
        assert HistoryRows(id, vs, names, bs) == prior + [row];
        BestRowsAppend(prior, row);
      }
    }
  }

  // ---------------------------------------------------------------------
  // One device's evaluation

  /** What one evaluation leaves on the device and sends. */
  datatype Report = Report(
    best: Option<nat>,
    reportedState: Option<string>,
    reportedLocation: Point3,
    events: seq<Event>,
    rows: seq<HistoryRow>)

  /** The (current, confidence) entries the candidate is chosen from. */
  function Ranks(vs: seq<ScenarioState>, currents: seq<bool>): (cs: seq<(bool, Option<int>)>)
    requires |currents| == |vs|
    ensures |cs| == |vs| && forall k :: 0 <= k < |vs| ==> cs[k] == (currents[k], vs[k].confidence)
  {
    seq(|vs|, k requires 0 <= k < |vs| => (currents[k], vs[k].confidence))
  }

  /** The scenario at an index, if there is one. */
  function At(vs: seq<ScenarioState>, i: Option<nat>): Option<ScenarioState>
  {
    if i.Some? && i.value < |vs| then Some(vs[i.value]) else None
  }

  /** The evaluation after the scenarios were located (`moved` of them
      reported a move): choose the candidate, apply the hysteresis, publish
      the state when it differs from the reported one, and when anything
      moved, report the location, the attributes and the history rows. */
  function Arbitrate(id: string, vs: seq<ScenarioState>, currents: seq<bool>, names: seq<Option<string>>,
                     best: Option<nat>, reported: Option<string>, location: Point3, moved: nat): Report
    requires |currents| == |vs| && |names| == |vs|
  {
    var bs := Choose(vs, currents, best);
    var st := StateName(At(vs, bs));
    var changed := reported != Some(st);
    if moved == 0 && !changed then Report(bs, reported, location, [], [])
    else
      Report(bs, Some(st), LocationOf(At(vs, bs)),
             (if changed then [StateChanged(id, st)] else []) + [Attributes(id, vs, names, bs)],
             HistoryRows(id, vs, names, bs))
  }

  /** The best scenario after the hysteresis, over the candidate. */
  function Choose(vs: seq<ScenarioState>, currents: seq<bool>, best: Option<nat>): Option<nat>
    requires |currents| == |vs|
  {
    var cand := Candidate(Ranks(vs, currents));
    Hysteresis(best, cand, ConfidenceAt(vs, best), ConfidenceAt(vs, cand))
  }

  /** `bs?.Location ?? new Point3D()`. */
  function LocationOf(chosen: Option<ScenarioState>): Point3
  {
    if chosen.Some? then chosen.value.location else Origin
  }

  /** The attributes message: the chosen scenario's location, confidence,
      fixes and name, all null without one. */
  function Attributes(id: string, vs: seq<ScenarioState>, names: seq<Option<string>>, bs: Option<nat>): Event
    requires |names| == |vs|
  {
    var chosen := At(vs, bs);
    AttributesChanged(id, if chosen.Some? then Some(chosen.value.location) else None,
                      if chosen.Some? then chosen.value.confidence else None,
                      if chosen.Some? then chosen.value.fixes else None,
                      if chosen.Some? then names[bs.value] else None)
  }

  /** The state is published exactly when it differs from the reported one,
      and is the reported state afterwards; attributes and history are sent
      exactly when a scenario moved or the state changed; the best scenario
      is a valid index, or none. */
  lemma ArbitrateRule(id: string, vs: seq<ScenarioState>, currents: seq<bool>, names: seq<Option<string>>,
                      best: Option<nat>, reported: Option<string>, location: Point3, moved: nat)
    requires |currents| == |vs| && |names| == |vs|
    requires best.None? || best.value < |vs|
    ensures var r := Arbitrate(id, vs, currents, names, best, reported, location, moved);
      var st := StateName(At(vs, r.best));
      && (r.best.None? || r.best.value < |vs|)
      && r.reportedState == Some(st)
      && (StateChanged(id, st) in r.events <==> reported != Some(st))
      && (r.events != [] <==> moved > 0 || reported != Some(st))
      && (r.rows != [] ==> moved > 0 || reported != Some(st))
      && (moved == 0 && reported == Some(st) ==> r.reportedLocation == location)
  {
    var cand := Candidate(Ranks(vs, currents));
    HysteresisRule(best, cand, ConfidenceAt(vs, best), ConfidenceAt(vs, cand));
  }

  /** A second evaluation on the same located scenarios, with nothing moved,
      keeps the best scenario and publishes nothing. */
  lemma SecondTickIsQuiet(id: string, vs: seq<ScenarioState>, currents: seq<bool>, names: seq<Option<string>>,
                          best: Option<nat>, reported: Option<string>, location: Point3, moved: nat)
    requires |currents| == |vs| && |names| == |vs|
    requires best.None? || best.value < |vs|
    ensures var r1 := Arbitrate(id, vs, currents, names, best, reported, location, moved);
      var r2 := Arbitrate(id, vs, currents, names, r1.best, r1.reportedState, r1.reportedLocation, 0);
      r2 == Report(r1.best, r1.reportedState, r1.reportedLocation, [], [])
  {
    var cand := Candidate(Ranks(vs, currents));
    var bs := Hysteresis(best, cand, ConfidenceAt(vs, best), ConfidenceAt(vs, cand));
    HysteresisRule(best, cand, ConfidenceAt(vs, best), ConfidenceAt(vs, cand));
    assert Hysteresis(bs, cand, ConfidenceAt(vs, bs), ConfidenceAt(vs, cand)) == bs;
    ArbitrateRule(id, vs, currents, names, best, reported, location, moved);
  }

  /** The scenarios' states, in order. */
  function Views(ss: seq<Scenario>): (vs: seq<ScenarioState>)
    reads ss
    ensures |vs| == |ss| && forall k :: 0 <= k < |ss| ==> vs[k] == ss[k].View()
  {
    seq(|ss|, k reads ss requires 0 <= k < |ss| => ss[k].View())
  }

  /** Which scenarios are current at `now`. */
  function Currents(vs: seq<ScenarioState>, ss: seq<Scenario>, now: int): (cs: seq<bool>)
    requires |vs| == |ss|
    ensures |cs| == |ss| && forall k :: 0 <= k < |ss| ==> cs[k] == IsCurrent(vs[k].lastHit, now, ss[k].timeoutMs)
  {
    seq(|ss|, k requires 0 <= k < |ss| => IsCurrent(vs[k].lastHit, now, ss[k].timeoutMs))
  }

  function Names(ss: seq<Scenario>): (ns: seq<Option<string>>)
    ensures |ns| == |ss| && forall k :: 0 <= k < |ss| ==> ns[k] == ss[k].name
  {
    seq(|ss|, k requires 0 <= k < |ss| => ss[k].name)
  }

  /** Each scenario's state and result after its own Locate. */
  function Located(vs: seq<ScenarioState>, ss: seq<Scenario>, readings: seq<Fix>, inp: nat -> LocatorDispatch.Inputs,
                   now: int, num: Numerics): (rs: seq<(ScenarioState, bool)>)
    requires |vs| == |ss|
    ensures |rs| == |ss|
    ensures forall k :: 0 <= k < |ss| ==> rs[k] == LocatorDispatch.Delegated(vs[k], ss[k].locator, readings, inp(k), now, num)
  {
    seq(|ss|, k requires 0 <= k < |ss| => LocatorDispatch.Delegated(vs[k], ss[k].locator, readings, inp(k), now, num))
  }

  /** `Count(s => s.Locate())`: how many scenarios reported a move. */
  function CountMoved(flags: seq<bool>): (c: nat)
    ensures c <= |flags|
    ensures c == 0 <==> forall k :: 0 <= k < |flags| ==> !flags[k]
  {
    if flags == [] then 0 else CountMoved(flags[..|flags| - 1]) + (if flags[|flags| - 1] then 1 else 0)
  }

  /** Locates every scenario of a device, each with its own inputs, and
      returns which of them reported a move. */
  method LocateAll(ss: seq<Scenario>, readings: seq<Fix>, inp: nat -> LocatorDispatch.Inputs, now: int, num: Numerics)
    returns (flags: seq<bool>)
    requires Distinct(ss)
    modifies ss
    ensures var rs := Located(old(Views(ss)), ss, readings, inp, now, num);
      Views(ss) == States(rs) && flags == Flags(rs)
  {
    ghost var before := Views(ss);
    ghost var rs := Located(before, ss, readings, inp, now, num);
    flags := [];
    for i := 0 to |ss|
      invariant |flags| == i
      invariant forall k :: 0 <= k < i ==> ss[k].View() == rs[k].0 && flags[k] == rs[k].1
      invariant forall k :: i <= k < |ss| ==> ss[k].View() == before[k]
    {
      var m := LocatorDispatch.Locate(ss[i], readings, inp(i), now, num);
      flags := flags + [m];
    }
    assert Views(ss) == States(rs);
  }

  /** The states of the located scenarios. */
  function States(rs: seq<(ScenarioState, bool)>): (vs: seq<ScenarioState>)
    ensures |vs| == |rs| && forall k :: 0 <= k < |rs| ==> vs[k] == rs[k].0
  {
    seq(|rs|, k requires 0 <= k < |rs| => rs[k].0)
  }

  /** Which located scenarios reported a move. */
  function Flags(rs: seq<(ScenarioState, bool)>): (fs: seq<bool>)
    ensures |fs| == |rs| && forall k :: 0 <= k < |rs| ==> fs[k] == rs[k].1
  {
    seq(|rs|, k requires 0 <= k < |rs| => rs[k].1)
  }

  /** A device the arbiter can evaluate: its scenarios are distinct objects
      and its best scenario, if any, is one of them. */
  predicate Sound(d: Device)
    reads d
  {
    Distinct(d.scenarios) && (d.best.None? || d.best.value < |d.scenarios|)
  }

  /** Every scenario of the given devices. */
  function ScenariosOf(ds: set<Device>): set<Scenario>
  {
    set d, k | d in ds && 0 <= k < |d.scenarios| :: d.scenarios[k]
  }

  /** Separate devices: no scenario of another device is one of `d`'s, so
      evaluating `d` leaves the others' scenarios alone. */
  lemma OthersApart(ds: set<Device>, d: Device, others: set<Device>)
    requires Separate(ds) && d in ds && others <= ds - {d}
    ensures forall e, i :: e in others && 0 <= i < |e.scenarios| ==> e.scenarios[i] !in d.scenarios
  {
    forall e, i | e in others && 0 <= i < |e.scenarios|
      ensures e.scenarios[i] !in d.scenarios
    {
      assert Apart(e, d);
    }
  }

  /** A device outside the batch shares no scenario with it, so a batch
      leaves its scenarios alone. */
  lemma OutsideBatch(ds: set<Device>, todo: set<Device>, d: Device)
    requires Separate(ds) && todo <= ds && d in ds && d !in todo
    ensures forall k :: 0 <= k < |d.scenarios| ==> d.scenarios[k] !in ScenariosOf(todo)
  {
  }

  /** The patterns the registry holds. */
  function EligibilityOf(state: State): Eligibility
    reads state
  {
    Eligibility(state.configById, state.configByName, state.idsToTrack, state.namesToTrack)
  }

  /** Lines 65-83: a device due for a check takes the track decision and is
      not checked again until the configuration reloads. */
  method CheckTracking(d: Device, msgId: string, e: Eligibility, g: Globbing)
    modifies d
    ensures !d.check
    ensures old(d.check) ==> (d.track, d.name) == TrackDecision(msgId, d.id, old(d.name), e, g)
    ensures !old(d.check) ==> d.track == old(d.track) && d.name == old(d.name)
    ensures d.best == old(d.best) && d.readings == old(d.readings) && d.lastCalculated == old(d.lastCalculated)
    ensures d.reportedState == old(d.reportedState) && d.reportedLocation == old(d.reportedLocation)
  {
    if d.check {
      var decision := TrackDecision(msgId, d.id, d.name, e, g);
      d.track, d.name := decision.0, decision.1;
      d.check := false;
    }
  }

  /** A device reading filed under its receiver, then tracking settled if
      the device is due for a check. */
  method Hear(d: Device, nodeId: string, fix: Fix, msgId: string, e: Eligibility, g: Globbing)
    modifies d
    ensures d.readings == Put(old(d.readings), nodeId, fix) && !d.check
    ensures old(d.check) ==> (d.track, d.name) == TrackDecision(msgId, d.id, old(d.name), e, g)
    ensures !old(d.check) ==> d.track == old(d.track) && d.name == old(d.name)
    ensures d.best == old(d.best) && d.lastCalculated == old(d.lastCalculated)
    ensures d.reportedState == old(d.reportedState) && d.reportedLocation == old(d.reportedLocation)
    ensures Sound(d) == old(Sound(d))
  {
    d.readings := Put(d.readings, nodeId, fix);
    CheckTracking(d, msgId, e, g);
  }

  /** The locators' inputs for the scenarios of the device with id `id`. */
  function InputsOf(inp: (string, nat) -> LocatorDispatch.Inputs, id: string): nat -> LocatorDispatch.Inputs
  {
    (k: nat) => inp(id, k)
  }

  /** What an evaluation reads and writes of a device and its scenarios. */
  datatype DeviceView = DeviceView(
    views: seq<ScenarioState>,
    fixes: seq<Fix>,
    best: Option<nat>,
    reportedState: Option<string>,
    reportedLocation: Point3,
    lastCalculated: int)

  function ViewOf(d: Device): DeviceView
    reads d, d.scenarios
  {
    DeviceView(Views(d.scenarios), d.Fixes(), d.best, d.reportedState, d.reportedLocation, d.lastCalculated)
  }

  /** Evaluating at `now` the device `id` with scenarios `ss`, seen as `v`:
      every scenario located against the device's readings, then Arbitrate
      over them; the device is stamped `now` and keeps what Arbitrate reports. */
  function Evaluation(id: string, ss: seq<Scenario>, v: DeviceView, inp: nat -> LocatorDispatch.Inputs,
                      now: int, num: Numerics): (DeviceView, Report)
    requires |v.views| == |ss|
  {
    var rs := Located(v.views, ss, v.fixes, inp, now, num);
    var vs := States(rs);
    var r := Arbitrate(id, vs, Currents(vs, ss, now), Names(ss), v.best, v.reportedState, v.reportedLocation,
                       CountMoved(Flags(rs)));
    (DeviceView(vs, v.fixes, r.best, r.reportedState, r.reportedLocation, now), r)
  }

  /** The messages of several evaluations, in order. */
  function Events(reports: seq<Report>): seq<Event>
  {
    if reports == [] then [] else Events(reports[..|reports| - 1]) + reports[|reports| - 1].events
  }

  /** The history rows of several evaluations, in order. */
  function Rows(reports: seq<Report>): seq<HistoryRow>
  {
    if reports == [] then [] else Rows(reports[..|reports| - 1]) + reports[|reports| - 1].rows
  }

  /** One more evaluation appends its messages and rows. */
  lemma ReportsNext(sent: seq<Event>, written: seq<HistoryRow>, reports: seq<Report>, r: Report)
    ensures sent + Events(reports + [r]) == (sent + Events(reports)) + r.events
    ensures written + Rows(reports + [r]) == (written + Rows(reports)) + r.rows
  {
    assert (reports + [r])[..|reports|] == reports;
  }

  /** MultiScenarioLocator: the set of devices marked for the next batch, and
      what it has sent (state and attribute messages, history rows). */
  class Locator {
    const state: State
    var dirty: set<Device>
    var outbox: seq<Event>
    var history: seq<HistoryRow>

    constructor (state: State)
      requires Separate(state.devices.Values) && forall d :: d in state.devices.Values ==> Sound(d)
      ensures this.state == state && dirty == {} && outbox == [] && history == []
      ensures Valid()
    {
      this.state := state;
      dirty, outbox, history := {}, [], [];
    }

    /** Every marked device is registered, every registered device is sound,
        and no two hold the same scenario. */
    predicate Valid()
      reads this, state, state.devices.Values
    {
      && dirty <= state.devices.Values && Separate(state.devices.Values)
      && forall d :: d in state.devices.Values ==> Sound(d)
    }

    /** The loop over the scenarios that writes one history row for each
        scenario whose confidence is not exactly 0. */
    method AppendHistory(id: string, vs: seq<ScenarioState>, names: seq<Option<string>>, bs: Option<nat>)
      requires |names| == |vs|
      modifies this
      ensures history == old(history) + HistoryRows(id, vs, names, bs)
      ensures outbox == old(outbox) && dirty == old(dirty)
    {
      for i := 0 to |vs|
        invariant history == old(history) + HistoryRows(id, vs[..i], names[..i], bs)
        invariant outbox == old(outbox) && dirty == old(dirty)
      {
        assert vs[..i + 1][..i] == vs[..i] && names[..i + 1][..i] == names[..i];
        if vs[i].confidence == Some(0) {
          continue;
        }
        history := history + [HistoryRow(id, vs[i].location, OrZero(vs[i].confidence), OrZero(vs[i].fixes),
                                         names[i], bs == Some(i))];
      }
      assert vs[..|vs|] == vs && names[..|names|] == names;
    }

    /** The rest of a device's evaluation, once its scenarios are located
        (`vs`, with `moved` of them reporting a move). */
    method Publish(d: Device, vs: seq<ScenarioState>, moved: nat, now: int)
      requires Sound(d) && |vs| == |d.scenarios|
      modifies this, d
      ensures Sound(d)
      ensures var r := Arbitrate(d.id, vs, Currents(vs, d.scenarios, now), Names(d.scenarios),
                                 old(d.best), old(d.reportedState), old(d.reportedLocation), moved);
        && d.best == r.best && d.reportedState == r.reportedState && d.reportedLocation == r.reportedLocation
        && outbox == old(outbox) + r.events && history == old(history) + r.rows
      ensures dirty == old(dirty) && d.lastCalculated == old(d.lastCalculated)
      ensures d.name == old(d.name) && d.track == old(d.track) && d.check == old(d.check) && d.readings == old(d.readings)
    {
      var bs := KeepBest(d, vs, now);
      Announce(d, vs, bs, moved);
    }

    /** Line 120's rule: the candidate replaces the kept best scenario, or the
        kept one stays and is used. */
    method KeepBest(d: Device, vs: seq<ScenarioState>, now: int) returns (bs: Option<nat>)
      requires Sound(d) && |vs| == |d.scenarios|
      modifies d
      ensures bs == d.best == Choose(vs, Currents(vs, d.scenarios, now), old(d.best))
      ensures Sound(d)
      ensures d.lastCalculated == old(d.lastCalculated) && d.reportedState == old(d.reportedState)
      ensures d.reportedLocation == old(d.reportedLocation)
      ensures d.name == old(d.name) && d.track == old(d.track) && d.check == old(d.check) && d.readings == old(d.readings)
    {
      var cand := Candidate(Ranks(vs, Currents(vs, d.scenarios, now)));
      bs := cand;
      var candConf, bestConf := ConfidenceAt(vs, cand), ConfidenceAt(vs, d.best);
      if d.best.None? || cand.None? || (candConf.Some? && bestConf.Some? && candConf.value - bestConf.value > ConfidenceThreshold) {
        d.best := cand;
      } else {
        bs := d.best;
      }
    }

    /** Lines 124-175: publish the state when it changed, and when anything
        moved, the location, the attributes and the history rows. */
    method Announce(d: Device, vs: seq<ScenarioState>, bs: Option<nat>, moved: nat)
      requires |vs| == |d.scenarios|
      modifies this, d
      ensures var st := StateName(At(vs, bs));
        var changed := old(d.reportedState) != Some(st);
        && (if moved == 0 && !changed
            then d.reportedState == old(d.reportedState) && d.reportedLocation == old(d.reportedLocation)
                 && outbox == old(outbox) && history == old(history)
            else d.reportedState == Some(st) && d.reportedLocation == LocationOf(At(vs, bs))
                 && outbox == old(outbox) + (if changed then [StateChanged(d.id, st)] else [])
                                          + [Attributes(d.id, vs, Names(d.scenarios), bs)]
                 && history == old(history) + HistoryRows(d.id, vs, Names(d.scenarios), bs))
      ensures dirty == old(dirty) && d.best == old(d.best) && d.lastCalculated == old(d.lastCalculated)
      ensures d.name == old(d.name) && d.track == old(d.track) && d.check == old(d.check) && d.readings == old(d.readings)
    {
      var moved := moved;
      var st := StateName(At(vs, bs));
      if Some(st) != d.reportedState {
        moved := moved + 1;
        outbox := outbox + [StateChanged(d.id, st)];
        d.reportedState := Some(st);
      }
      if moved > 0 {
        d.reportedLocation := LocationOf(At(vs, bs));
        outbox := outbox + [Attributes(d.id, vs, Names(d.scenarios), bs)];
        AppendHistory(d.id, vs, Names(d.scenarios), bs);
      }
    }

    /** The first half of Evaluate: stamp the device and locate every
        scenario against its readings; nothing else about the device changes. */
    method Relocate(d: Device, inp: nat -> LocatorDispatch.Inputs, now: int, num: Numerics) returns (flags: seq<bool>)
      requires Sound(d)
      modifies d, d.scenarios
      ensures Sound(d) && d.lastCalculated == now
      ensures var rs := Located(old(Views(d.scenarios)), d.scenarios, old(d.Fixes()), inp, now, num);
        Views(d.scenarios) == States(rs) && flags == Flags(rs)
      ensures d.best == old(d.best) && d.reportedState == old(d.reportedState) && d.reportedLocation == old(d.reportedLocation)
      ensures d.name == old(d.name) && d.track == old(d.track) && d.check == old(d.check) && d.readings == old(d.readings)
    {
      ghost var fixes := d.Fixes();
      d.lastCalculated := now;
      assert d.Fixes() == fixes;
      flags := LocateAll(d.scenarios, d.Fixes(), inp, now, num);
    }

    /** One device of a batch: stamp it, locate every scenario, choose and
        keep the best scenario, then publish what changed. */
    method Evaluate(d: Device, inp: nat -> LocatorDispatch.Inputs, now: int, num: Numerics)
      requires Sound(d)
      modifies this, d, d.scenarios
      ensures Sound(d)
      ensures d.lastCalculated == now
      ensures var rs := Located(old(Views(d.scenarios)), d.scenarios, old(d.Fixes()), inp, now, num);
        var vs := States(rs);
        var r := Arbitrate(d.id, vs, Currents(vs, d.scenarios, now), Names(d.scenarios),
                           old(d.best), old(d.reportedState), old(d.reportedLocation), CountMoved(Flags(rs)));
        && Views(d.scenarios) == vs
        && d.best == r.best && d.reportedState == r.reportedState && d.reportedLocation == r.reportedLocation
        && outbox == old(outbox) + r.events && history == old(history) + r.rows
      ensures dirty == old(dirty)
      ensures d.name == old(d.name) && d.track == old(d.track) && d.check == old(d.check) && d.readings == old(d.readings)
    {
      var flags := Relocate(d, inp, now, num);
      var vs := Views(d.scenarios);
      Publish(d, vs, CountMoved(flags), now);
      assert Views(d.scenarios) == vs;
    }
  
    /** Evaluate, seen from the batch: the device ends as Evaluation of its
        view before says, `r` being its report; its track decision is
        untouched, and so is every other device whose scenarios are not its
        own. */
    method EvaluateInBatch(d: Device, inp: nat -> LocatorDispatch.Inputs, now: int, num: Numerics,
                           ghost others: set<Device>) returns (ghost r: (DeviceView, Report))
      requires Valid() && d in state.devices.Values && others <= state.devices.Values - {d}
      modifies this, d, d.scenarios
      ensures Valid() && dirty == old(dirty)
      ensures forall v {:trigger Evaluation(d.id, d.scenarios, v, inp, now, num)} ::
                v == old(ViewOf(d)) ==> r == Evaluation(d.id, d.scenarios, v, inp, now, num)
      ensures ViewOf(d) == r.0 && d.lastCalculated == now
      ensures outbox == old(outbox) + r.1.events && history == old(history) + r.1.rows
      ensures forall e :: e in others || e == d ==> e.track == old(e.track) && e.check == old(e.check) && e.name == old(e.name)
      ensures forall e :: e in others ==> ViewOf(e) == old(ViewOf(e))
    {
      r := Evaluation(d.id, d.scenarios, ViewOf(d), inp, now, num);
      OthersApart(state.devices.Values, d, others);
      Evaluate(d, inp, now, num);
    }

    /** The devices of `todo` in some order, each once: what `foreach`
        over the set visits. */
    static method Enumerate(todo: set<Device>) returns (order: seq<Device>)
      ensures forall d :: d in todo <==> d in order
      ensures forall i :: 0 <= i < |order| ==> order[i] in todo
      ensures forall i, j :: 0 <= i < j < |order| ==> order[i] != order[j]
    {
      order := [];
      var left := todo;
      while left != {}
        invariant forall d :: d in todo <==> d in left || d in order
        invariant forall i :: 0 <= i < |order| ==> order[i] !in left
        invariant forall i, j :: 0 <= i < j < |order| ==> order[i] != order[j]
        decreases left
      {
        var d :| d in left;
        order, left := order + [d], left - {d};
      }
    }

    /** The start of a batch (lines 106-111): take the marked devices,
        install an empty set, and add the idle devices. */
    method TakeBatch(now: int) returns (todo: set<Device>)
      requires Valid()
      modifies this
      ensures Valid() && dirty == {} && todo <= state.devices.Values
      ensures forall d :: d in todo <==> d in old(dirty) || (d in state.devices.Values && Idle(d, now))
      ensures outbox == old(outbox) && history == old(history)
    {
      todo := dirty;
      dirty := {};
      var idle := state.IdleDevices(now);
      todo := todo + idle;
    }

    /** The rest of a batch (lines 115-117): evaluate every taken device with
        the same `now`, in the order the set enumerates them (`order`), the
        locators' inputs for a device's k-th scenario being `inp(id, k)`; what
        is sent is the devices' reports (`reports[i]` being `order[i]`'s) in
        that order. */
    method RunBatch(todo: set<Device>, now: int, inp: (string, nat) -> LocatorDispatch.Inputs, num: Numerics)
      returns (order: seq<Device>, ghost reports: seq<Report>)
      requires Valid() && todo <= state.devices.Values
      modifies this, todo, ScenariosOf(todo)
      ensures Valid() && dirty == old(dirty)
      ensures (forall d :: d in todo <==> d in order) && |reports| == |order|
      ensures forall i, j :: 0 <= i < j < |order| ==> order[i] != order[j]
      ensures forall d :: d in todo ==> d.lastCalculated == now
      ensures forall d :: d in todo ==> d.track == old(d.track) && d.check == old(d.check) && d.name == old(d.name)
      ensures outbox == old(outbox) + Events(reports) && history == old(history) + Rows(reports)
    {
      order := Enumerate(todo);
      reports := [];
      for i := 0 to |order|
        invariant |reports| == i
        invariant forall k :: 0 <= k < i ==> order[k].lastCalculated == now
        invariant forall e :: e in todo ==> e.track == old(e.track) && e.check == old(e.check) && e.name == old(e.name)
        invariant dirty == old(dirty) && Valid()
        invariant outbox == old(outbox) + Events(reports) && history == old(history) + Rows(reports)
      {
        var d := order[i];
        assert forall k :: 0 <= k < |d.scenarios| ==> d.scenarios[k] in ScenariosOf(todo);
        ghost var others := todo - {d};
        var r := EvaluateInBatch(d, InputsOf(inp, d.id), now, num, others);
        ReportsNext(old(outbox), old(history), reports, r.1);
        reports := reports + [r.1];
      }
    }

    /** One batch, once a device is marked (the code waits until then): the
        marked and the idle devices are evaluated, all with the same `now`;
        what is sent is their reports in the order they were evaluated; the
        next batch starts from an empty set; every other device is left as it
        was. */
    method Tick(now: int, inp: (string, nat) -> LocatorDispatch.Inputs, num: Numerics)
      returns (todo: set<Device>, order: seq<Device>, ghost reports: seq<Report>)
      requires Valid() && dirty != {}
      modifies this, state.devices.Values, ScenariosOf(state.devices.Values)
      ensures Valid() && dirty == {}
      ensures forall d :: d in todo <==> d in old(dirty) || (d in state.devices.Values && old(Idle(d, now)))
      ensures |reports| == |order| && (forall d :: d in todo <==> d in order)
      ensures forall i, j :: 0 <= i < j < |order| ==> order[i] != order[j]
      ensures forall d :: d in todo ==> d.lastCalculated == now
      ensures outbox == old(outbox) + Events(reports) && history == old(history) + Rows(reports)
      ensures forall d :: d in state.devices.Values ==> d.track == old(d.track) && d.check == old(d.check) && d.name == old(d.name)
      ensures forall d :: d in state.devices.Values && d !in todo ==>
                FieldsOf(d) == old(FieldsOf(d)) && Views(d.scenarios) == old(Views(d.scenarios))
    {
      todo := TakeBatch(now);
      forall d | d in state.devices.Values && d !in todo {
        OutsideBatch(state.devices.Values, todo, d);
      }
      order, reports := RunBatch(todo, now, inp, num);
    }
  
    /** A device reading (lines 55-91): find or create the device, file the
        reading under the receiver, decide tracking if the device is due for
        a check, and mark the device for the next batch when it is tracked
        and the reading reported a move (`moved`, the result of ReadMessage). */
    method HandleDevice(deviceId: string, nodeId: string, fix: Fix, moved: bool, g: Globbing) returns (d: Device)
      requires Valid()
      modifies this, state, state.devices.Values
      ensures Valid() && state.nodes == old(state.nodes)
      ensures Key(deviceId) in state.devices && d == state.devices[Key(deviceId)]
      ensures Key(deviceId) in old(state.devices) ==> d == old(state.devices[Key(deviceId)]) && state.devices == old(state.devices)
      ensures Key(deviceId) !in old(state.devices) ==>
                && fresh(d) && state.devices == old(state.devices)[Key(deviceId) := d]
                && (forall i :: 0 <= i < |d.scenarios| ==> fresh(d.scenarios[i]))
                && state.Planned(d, deviceId)
      ensures state.Unchanged()
      ensures var known := Key(deviceId) in old(state.devices);
        && d.readings == Put(if known then old(state.devices[Key(deviceId)].readings) else [], nodeId, fix)
        && !d.check
        && (known && !old(state.devices[Key(deviceId)].check) ==>
              d.track == old(state.devices[Key(deviceId)].track) && d.name == old(state.devices[Key(deviceId)].name))
        && (!(known && !old(state.devices[Key(deviceId)].check)) ==>
              (d.track, d.name) == TrackDecision(deviceId, d.id, if known then old(state.devices[Key(deviceId)].name) else None,
                                                 old(EligibilityOf(state)), g))
      ensures dirty == old(dirty) + (if d.track && moved then {d} else {})
      ensures forall e :: e in old(state.devices.Values) && e != d ==> FieldsOf(e) == old(FieldsOf(e))
      ensures outbox == old(outbox) && history == old(history)
    {
      d := state.DeviceFor(deviceId);
      Hear(d, nodeId, fix, deviceId, EligibilityOf(state), g);
      if d.track && moved {
        dirty := dirty + {d};
      }
    }

    /** The rest of the handler (lines 38-98), once the receiver is
        registered: the message is routed by `Classify`; a node-to-node
        reading goes into the transmitter's table when the receiver is
        located and stationary, a device reading goes to `HandleDevice`, and
        anything else is dropped. */
    method Dispatch(deviceId: string, nodeId: string, reading: RxReading, fix: Fix, moved: bool, g: Globbing)
      returns (route: Route)
      requires Valid() && FindNode(state.nodes, nodeId).Some?
      modifies this, state, state.devices.Values
      ensures Valid()
      ensures var nodes := old(state.nodes);
        var rx := FindNode(nodes, nodeId).value;
        && route == Classify(nodes, deviceId, rx)
        && state.nodes == (if route.NodeToNode? && rx.hasLocation && rx.stationary
                           then Record(nodes, route.tx.id, nodeId, reading) else nodes)
      ensures !route.ToDevice? ==> dirty == old(dirty) && state.devices == old(state.devices)
      ensures !route.ToDevice? ==> forall e :: e in old(state.devices.Values) ==> FieldsOf(e) == old(FieldsOf(e))
      ensures route.ToDevice? ==>
                var known := Key(deviceId) in old(state.devices);
                && Key(deviceId) in state.devices
                && var d := state.devices[Key(deviceId)];
                && (known ==> d == old(state.devices[Key(deviceId)]) && state.devices == old(state.devices))
                && (!known ==> && fresh(d) && state.devices == old(state.devices)[Key(deviceId) := d]
                               && (forall i :: 0 <= i < |d.scenarios| ==> fresh(d.scenarios[i]))
                               && state.Planned(d, deviceId))
                && !d.check
                && d.readings == Put(if known then old(state.devices[Key(deviceId)].readings) else [], nodeId, fix)
                && (known && !old(state.devices[Key(deviceId)].check) ==>
                      d.track == old(state.devices[Key(deviceId)].track) && d.name == old(state.devices[Key(deviceId)].name))
                && (!(known && !old(state.devices[Key(deviceId)].check)) ==>
                      (d.track, d.name) == TrackDecision(deviceId, d.id, if known then old(state.devices[Key(deviceId)].name) else None,
                                                         old(EligibilityOf(state)), g))
                && dirty == old(dirty) + (if d.track && moved then {d} else {})
                && forall e :: e in old(state.devices.Values) && e != d ==> FieldsOf(e) == old(FieldsOf(e))
      ensures ReceiversKnown(old(state.nodes)) ==> ReceiversKnown(state.nodes)
      ensures state.Unchanged()
      ensures outbox == old(outbox) && history == old(history)
    {
      var rx := FindNode(state.nodes, nodeId).value;
      route := Classify(state.nodes, deviceId, rx);
      match route
      case NodeToNode(tx) =>
        if rx.hasLocation && rx.stationary {
          if ReceiversKnown(state.nodes) {
            RecordKeepsReceiversKnown(state.nodes, tx.id, nodeId, reading);
          }
          state.nodes := Record(state.nodes, tx.id, nodeId, reading);
        }
      case ToDevice =>
        var d := HandleDevice(deviceId, nodeId, fix, moved, g);
      case Skipped =>
    }

    /** The handler for one reading heard by node `nodeId` about `deviceId`
        (lines 27-98): the receiver registers itself if unknown; a
        node-to-node reading goes into the transmitter's table when both
        nodes are located and stationary; a device reading heard by a located
        receiver goes to the device; anything else is dropped. `reading`,
        `fix` and `moved` are what the message's payload decodes to. */
    method Receive(deviceId: string, nodeId: string, reading: RxReading, fix: Fix, moved: bool, g: Globbing)
      returns (route: Route)
      requires Valid()
      modifies this, state, state.devices.Values
      ensures Valid()
      ensures var nodes := Register(old(state.nodes), nodeId);
        var rx := FindNode(nodes, nodeId).value;
        && route == Classify(nodes, deviceId, rx)
        && state.nodes == (if route.NodeToNode? && rx.hasLocation && rx.stationary
                           then Record(nodes, route.tx.id, nodeId, reading) else nodes)
      ensures !route.ToDevice? ==> dirty == old(dirty) && state.devices == old(state.devices)
      ensures !route.ToDevice? ==> forall e :: e in old(state.devices.Values) ==> FieldsOf(e) == old(FieldsOf(e))
      ensures route.ToDevice? ==>
                var known := Key(deviceId) in old(state.devices);
                && Key(deviceId) in state.devices
                && var d := state.devices[Key(deviceId)];
                && (known ==> d == old(state.devices[Key(deviceId)]) && state.devices == old(state.devices))
                && (!known ==> && fresh(d) && state.devices == old(state.devices)[Key(deviceId) := d]
                               && (forall i :: 0 <= i < |d.scenarios| ==> fresh(d.scenarios[i]))
                               && state.Planned(d, deviceId))
                && !d.check
                && d.readings == Put(if known then old(state.devices[Key(deviceId)].readings) else [], nodeId, fix)
                && (known && !old(state.devices[Key(deviceId)].check) ==>
                      d.track == old(state.devices[Key(deviceId)].track) && d.name == old(state.devices[Key(deviceId)].name))
                && (!(known && !old(state.devices[Key(deviceId)].check)) ==>
                      (d.track, d.name) == TrackDecision(deviceId, d.id, if known then old(state.devices[Key(deviceId)].name) else None,
                                                         old(EligibilityOf(state)), g))
                && dirty == old(dirty) + (if d.track && moved then {d} else {})
                && forall e :: e in old(state.devices.Values) && e != d ==> FieldsOf(e) == old(FieldsOf(e))
      ensures ReceiversKnown(old(state.nodes)) ==> ReceiversKnown(state.nodes)
      ensures state.Unchanged()
      ensures outbox == old(outbox) && history == old(history)
    {
      label before:
      if ReceiversKnown(state.nodes) {
        RegisterKeepsReceiversKnown(state.nodes, nodeId);
      }
      state.nodes := Register(state.nodes, nodeId);
      assert state.Unchanged@before();
      assert state.devices == old(state.devices) && EligibilityOf(state) == old(EligibilityOf(state));
      route := Dispatch(deviceId, nodeId, reading, fix, moved, g);
    }
  }
}
