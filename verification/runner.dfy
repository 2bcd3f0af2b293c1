/** The calibration runner (Optimizers/OptimizationRunner.cs): after a warm-up
    of three snapshots it evaluates a baseline RMS error, then on every tick
    takes one snapshot, runs the three optimizers against it in a fixed order,
    and writes the parameters of any candidate that does not make the error
    worse back to the nodes, through the settings store.
    The optimizers and the RMS evaluation are not part of this model: what
    they return is an input. */
module OptimizationRunner {
  import opened Base
  import NS = NodeSettings
  import R = Registry

  // ---------------------------------------------------------------------
  // RMS values and the acceptance rule

  /** A double-precision RMS value: finite, NaN or an infinity. */
  datatype Rms = Finite(value: real) | NaN | PositiveInfinity | NegativeInfinity

  /** `d > best` on doubles: false whenever either side is NaN. */
  predicate Exceeds(d: Rms, best: Rms)
  {
    match (d, best)
    case (NaN, _) => false
    case (_, NaN) => false
    case (Finite(a), Finite(b)) => a > b
    case (PositiveInfinity, _) => !best.PositiveInfinity?
    case (_, NegativeInfinity) => !d.NegativeInfinity?
    case (_, _) => false
  }

  /** A candidate is skipped when it is greater than the best, NaN or infinite. */
  predicate Accepts(d: Rms, best: Rms)
  {
    !(Exceeds(d, best) || d.NaN? || d.PositiveInfinity? || d.NegativeInfinity?)
  }

  /** Accepted means finite and no greater than a finite best (an equal RMS
      is accepted); against a NaN or infinite baseline every finite candidate
      is accepted, except against negative infinity, which nothing beats. */
  lemma AcceptRule(d: Rms, best: Rms)
    ensures Accepts(d, best) <==> d.Finite? && !best.NegativeInfinity? && (best.Finite? ==> d.value <= best.value)
  {
  }

  /** best never gets worse: a finite best stays finite and does not grow,
      and best only ever changes to a finite value. */
  predicate NoWorse(before: Rms, after: Rms)
  {
    (after == before || after.Finite?)
    && (before.Finite? ==> after.Finite? && after.value <= before.value)
  }

  lemma NoWorseTransitive(a: Rms, b: Rms, c: Rms)
    requires NoWorse(a, b) && NoWorse(b, c)
    ensures NoWorse(a, c)
  {
  }

  // ---------------------------------------------------------------------
  // Optimizers and their results

  datatype Optimizer = RxAdjRssiOptimizer | AbsorptionAvgOptimizer | AbsorptionErrOptimizer

  /** The optimizers, in the order each tick runs them. */
  const Optimizers: seq<Optimizer> := [RxAdjRssiOptimizer, AbsorptionAvgOptimizer, AbsorptionErrOptimizer]

  /** One receiver's proposed parameters. */
  datatype NodeResult = NodeResult(absorption: Option<real>, rxAdjRssi: Option<real>)

  /** OptimizationResults: the proposals by receiver id, in enumeration order. */
  datatype Results = Results(rxNodes: seq<(string, NodeResult)>)

  /** The foreign parts: an optimizer's results for a snapshot, and the RMS
      error of a set of results over the snapshot window and the stored node
      settings. */
  datatype Foreign = Foreign(
    optimize: (Optimizer, R.Snapshot) -> Results,
    evaluate: (Results, seq<R.Snapshot>, map<string, NS.Settings>) -> Rms)

  /** The optimization section of the configuration. */
  datatype Optimization = Optimization(
    enabled: bool,
    absorptionMin: real, absorptionMax: real,
    rxAdjRssiMin: real, rxAdjRssiMax: real)

  // ---------------------------------------------------------------------
  // Write-back

  /** A node's settings with a result written into them: each parameter only
      when present and strictly inside its configured range, RxAdjRssi
      truncated to an integer. A value outside the range is dropped, not
      clamped. */
  function WriteBack(s: NS.Settings, r: NodeResult, opt: Optimization): NS.Settings
  {
    var withAbsorption :=
      if r.absorption.Some? && opt.absorptionMin < r.absorption.value < opt.absorptionMax
      then s.(calibration := s.calibration.(absorption := r.absorption))
      else s;
    if r.rxAdjRssi.Some? && opt.rxAdjRssiMin < r.rxAdjRssi.value < opt.rxAdjRssiMax
    then withAbsorption.(calibration := withAbsorption.calibration.(rxAdjRssi := Some(Trunc(r.rxAdjRssi.value))))
    else withAbsorption
  }

  /** Only absorption (setting 12) and rx_adj_rssi (setting 13) can change; a
      changed one holds the result, which was strictly inside its range; one
      outside its range keeps the stored value. */
  lemma WriteBackRule(s: NS.Settings, r: NodeResult, opt: Optimization)
    ensures var w := WriteBack(s, r, opt);
      && w.id == s.id
      && (forall j :: 0 <= j < NS.Count && j != 12 && j != 13 ==> NS.FieldOf(w, j) == NS.FieldOf(s, j))
      && (if r.absorption.Some? && opt.absorptionMin < r.absorption.value < opt.absorptionMax
          then w.calibration.absorption == r.absorption
          else w.calibration.absorption == s.calibration.absorption)
      && (if r.rxAdjRssi.Some? && opt.rxAdjRssiMin < r.rxAdjRssi.value < opt.rxAdjRssiMax
          then w.calibration.rxAdjRssi == Some(Trunc(r.rxAdjRssi.value))
          else w.calibration.rxAdjRssi == s.calibration.rxAdjRssi)
  {
  }

  /** The settings the store holds for a node, or the defaults. */
  function StoredOrDefault(stored: map<string, NS.Settings>, id: string): NS.Settings
  {
    if id in stored then stored[id] else NS.Default(id)
  }

  /** The set messages for writing results back: for each receiver in turn,
      the difference between its stored settings and those settings with the
      result written in. */
  function Writes(stored: map<string, NS.Settings>, nodes: seq<(string, NodeResult)>, opt: Optimization): seq<NS.SetMessage>
  {
    if nodes == [] then []
    else
      var (id, r) := nodes[|nodes| - 1];
      var current := StoredOrDefault(stored, id);
      Writes(stored, nodes[..|nodes| - 1], opt) + NS.Diff(id, current, WriteBack(current, r, opt), NS.Count)
  }

  /** Every message is addressed to one of the result's receivers. */
  lemma {:induction false} WritesAddressResultNodes(stored: map<string, NS.Settings>, nodes: seq<(string, NodeResult)>, opt: Optimization)
    ensures forall m :: m in Writes(stored, nodes, opt) ==> exists k :: 0 <= k < |nodes| && m.id == nodes[k].0
  {
    if nodes != [] {
      var pre := nodes[..|nodes| - 1];
      WritesAddressResultNodes(stored, pre, opt);
      var (id, r) := nodes[|nodes| - 1];
      var current := StoredOrDefault(stored, id);
      NS.DiffMembers(id, current, WriteBack(current, r, opt), NS.Count);
      forall m | m in Writes(stored, nodes, opt) ensures exists k :: 0 <= k < |nodes| && m.id == nodes[k].0 {
        if m in Writes(stored, pre, opt) {
          var k :| 0 <= k < |pre| && m.id == pre[k].0;
          assert nodes[k] == pre[k];
        } else {
          assert m in NS.Diff(id, current, WriteBack(current, r, opt), NS.Count);
          assert m.id == nodes[|nodes| - 1].0;
        }
      }
    }
  }

  /** A receiver the store knows nothing about gets every setting sent: the
      defaults hold no values, and Set sends a setting that is null. */
  lemma UnknownNodeGetsEverySetting(id: string, r: NodeResult, opt: Optimization)
    ensures |NS.Diff(id, NS.Default(id), WriteBack(NS.Default(id), r, opt), NS.Count)| == NS.Count
  {
    var d := NS.Default(id);
    var w := WriteBack(d, r, opt);
    forall k | 0 <= k < NS.Count ensures NS.Sends(d, w, k) {
      WriteBackRule(d, r, opt);
    }
    SendsAll(id, d, w, NS.Count);
  }

  /** When every one of the first n settings is sent, there are n messages. */
  lemma {:induction false} SendsAll(id: string, stored: NS.Settings, ds: NS.Settings, n: nat)
    requires n <= NS.Count
    requires forall k :: 0 <= k < n ==> NS.Sends(stored, ds, k)
    ensures |NS.Diff(id, stored, ds, n)| == n
  {
    if n > 0 {
      SendsAll(id, stored, ds, n - 1);
    }
  }

  // ---------------------------------------------------------------------
  // One tick

  /** The snapshot TakeOptimizationSnapshot takes of the given nodes. */
  ghost function Taken(nodes: seq<R.NodeInfo>): R.Snapshot
    requires R.ReceiversKnown(nodes)
  {
    R.Snapshot(R.Collect(R.Pairs(nodes, nodes)).0)
  }

  /** One optimizer against the tick's snapshot: the new best and the set
      messages that write its results back, none when it is not accepted. */
  function Try(best: Rms, k: Optimizer, os: R.Snapshot, window: seq<R.Snapshot>, stored: map<string, NS.Settings>,
               opt: Optimization, f: Foreign): (Rms, seq<NS.SetMessage>)
  {
    var results := f.optimize(k, os);
    var d := f.evaluate(results, window, stored);
    if Accepts(d, best) then (d, Writes(stored, results.rxNodes, opt)) else (best, [])
  }

  /** The best RMS and the set messages after running the first n optimizers
      against the same snapshot: a candidate that is accepted becomes the best
      and its results are written back. The store is not changed by the
      messages, so every evaluation sees the same stored settings. */
  function Run(best: Rms, os: R.Snapshot, window: seq<R.Snapshot>, stored: map<string, NS.Settings>,
               opt: Optimization, f: Foreign, n: nat): (r: (Rms, seq<NS.SetMessage>))
    requires n <= |Optimizers|
  {
    if n == 0 then (best, [])
    else
      var prior := Run(best, os, window, stored, opt, f, n - 1);
      var step := Try(prior.0, Optimizers[n - 1], os, window, stored, opt, f);
      (step.0, prior.1 + step.1)
  }

  /** Running one more optimizer takes one more step from where the first i
      left off, and appends that step's messages. */
  lemma RunNext(best: Rms, os: R.Snapshot, window: seq<R.Snapshot>, stored: map<string, NS.Settings>,
                opt: Optimization, f: Foreign, i: nat, sent: seq<NS.SetMessage>)
    requires i < |Optimizers|
    ensures var prior := Run(best, os, window, stored, opt, f, i);
      var step := Try(prior.0, Optimizers[i], os, window, stored, opt, f);
      && Run(best, os, window, stored, opt, f, i + 1).0 == step.0
      && sent + Run(best, os, window, stored, opt, f, i + 1).1 == (sent + prior.1) + step.1
  {
  }

  /** A tick never makes the best worse. */
  lemma {:induction false} RunNoWorse(best: Rms, os: R.Snapshot, window: seq<R.Snapshot>, stored: map<string, NS.Settings>,
                                      opt: Optimization, f: Foreign, n: nat)
    requires n <= |Optimizers|
    ensures NoWorse(best, Run(best, os, window, stored, opt, f, n).0)
  {
    if n > 0 {
      RunNoWorse(best, os, window, stored, opt, f, n - 1);
      var prior := Run(best, os, window, stored, opt, f, n - 1);
      var d := f.evaluate(f.optimize(Optimizers[n - 1], os), window, stored);
      if Accepts(d, prior.0) {
        AcceptRule(d, prior.0);
        NoWorseTransitive(best, prior.0, d);
      }
    }
  }

  /** Writes the results back, one Get and one Set per receiver. */
  method WriteResults(store: NS.NodeSettingsStore, nodes: seq<(string, NodeResult)>, opt: Optimization)
    modifies store
    ensures store.outbox == old(store.outbox) + Writes(old(store.Stored()), nodes, opt)
    ensures store.store == old(store.store) && store.Stored() == old(store.Stored())
  {
    ghost var stored, sent := store.Stored(), store.outbox;
    for k := 0 to |nodes|
      invariant store.outbox == sent + Writes(stored, nodes[..k], opt)
      invariant store.store == old(store.store) && store.Stored() == stored
    {
      WriteOne(store, nodes, k, opt, stored, sent);
    }
    assert nodes[..|nodes|] == nodes;
  }

  /** Writes over one more receiver appends that receiver's messages. */
  lemma WritesNext(stored: map<string, NS.Settings>, nodes: seq<(string, NodeResult)>, k: nat, opt: Optimization,
                   sent: seq<NS.SetMessage>)
    requires k < |nodes|
    ensures var current := StoredOrDefault(stored, nodes[k].0);
      sent + Writes(stored, nodes[..k + 1], opt)
        == (sent + Writes(stored, nodes[..k], opt)) + NS.Diff(nodes[k].0, current, WriteBack(current, nodes[k].1, opt), NS.Count)
  {
    assert nodes[..k + 1][..k] == nodes[..k];
  }

  /** The loop body for the k-th receiver: Get a copy, write the result into
      it, Set it back; the messages sent so far grow from those for the first
      k receivers to those for the first k + 1. */
  method WriteOne(store: NS.NodeSettingsStore, nodes: seq<(string, NodeResult)>, k: nat, opt: Optimization,
                  ghost stored: map<string, NS.Settings>, ghost sent: seq<NS.SetMessage>)
    requires k < |nodes| && store.Stored() == stored && store.outbox == sent + Writes(stored, nodes[..k], opt)
    modifies store
    ensures store.outbox == sent + Writes(stored, nodes[..k + 1], opt)
    ensures store.store == old(store.store) && store.Stored() == stored
  {
    WritesNext(stored, nodes, k, opt, sent);
    SetBack(store, nodes[k].0, nodes[k].1, opt);
  }

  /** Get a copy of one receiver's settings, write its result into it, and
      Set it back. */
  method SetBack(store: NS.NodeSettingsStore, id: string, r: NodeResult, opt: Optimization)
    modifies store
    ensures var current := StoredOrDefault(old(store.Stored()), id);
      store.outbox == old(store.outbox) + NS.Diff(id, current, WriteBack(current, r, opt), NS.Count)
    ensures store.store == old(store.store) && store.Stored() == old(store.Stored())
  {
    ghost var before := store.Stored();
    var a := store.Get(id);
    a.value := WriteBack(a.value, r, opt);
    assert store.Stored() == before;
    store.Set(id, a.value);
  }

  /** One optimizer against the tick's snapshot. */
  method RunOptimizer(store: NS.NodeSettingsStore, best: Rms, k: Optimizer, os: R.Snapshot, window: seq<R.Snapshot>,
                      opt: Optimization, f: Foreign) returns (next: Rms)
    modifies store
    ensures var step := Try(best, k, os, window, old(store.Stored()), opt, f);
      next == step.0 && store.outbox == old(store.outbox) + step.1
    ensures store.store == old(store.store) && store.Stored() == old(store.Stored())
  {
    var results := f.optimize(k, os);
    var d := f.evaluate(results, window, store.Stored());
    if !Accepts(d, best) {
      return best;
    }
    WriteResults(store, results.rxNodes, opt);
    next := d;
  }

  /** The optimizers in order, all against the same snapshot and window. */
  method RunAll(store: NS.NodeSettingsStore, best: Rms, os: R.Snapshot, window: seq<R.Snapshot>,
                opt: Optimization, f: Foreign) returns (next: Rms)
    modifies store
    ensures next == Run(best, os, window, old(store.Stored()), opt, f, |Optimizers|).0
    ensures store.outbox == old(store.outbox) + Run(best, os, window, old(store.Stored()), opt, f, |Optimizers|).1
    ensures store.store == old(store.store) && store.Stored() == old(store.Stored())
  {
    ghost var stored, sent := store.Stored(), store.outbox;
    next := best;
    for i := 0 to |Optimizers|
      invariant store.store == old(store.store) && store.Stored() == stored
      invariant next == Run(best, os, window, stored, opt, f, i).0
      invariant store.outbox == sent + Run(best, os, window, stored, opt, f, i).1
    {
      RunNext(best, os, window, stored, opt, f, i, sent);
      next := RunOptimizer(store, next, Optimizers[i], os, window, opt, f);
    }
  }

  /** One steady-state tick: one snapshot, then the optimizers in order
      against it. */
  method Tick(state: R.State, store: NS.NodeSettingsStore, best: Rms, opt: Optimization, f: Foreign) returns (next: Rms)
    requires R.ReceiversKnown(state.nodes)
    modifies state, store
    ensures var os := Taken(old(state.nodes));
      && state.snapshots == R.Window(old(state.snapshots), old(state.MaxSnapshots()), os)
      && next == Run(best, os, state.snapshots, old(store.Stored()), opt, f, |Optimizers|).0
      && store.outbox == old(store.outbox) + Run(best, os, state.snapshots, old(store.Stored()), opt, f, |Optimizers|).1
    ensures state.nodes == old(state.nodes) && state.config == old(state.config)
    ensures store.store == old(store.store) && store.Stored() == old(store.Stored())
  {
    var os := state.TakeOptimizationSnapshot();
    next := RunAll(store, best, os, state.snapshots, opt, f);
  }

  // ---------------------------------------------------------------------
  // Warm-up and the steady loop

  /** The warm-up: three snapshots, then the baseline RMS of empty results
      over the whole window. */
  method WarmUp(state: R.State, store: NS.NodeSettingsStore, f: Foreign) returns (best: Rms)
    requires R.ReceiversKnown(state.nodes)
    modifies state
    ensures var os := Taken(old(state.nodes));
      state.snapshots == R.Fill(old(state.snapshots), old(state.MaxSnapshots()), [os, os, os])
    ensures best == f.evaluate(Results([]), state.snapshots, store.Stored())
    ensures state.nodes == old(state.nodes) && state.config == old(state.config)
  {
    ghost var os := Taken(state.nodes);
    for i := 0 to 3
      invariant state.nodes == old(state.nodes) && state.config == old(state.config)
      invariant state.snapshots == R.Fill(old(state.snapshots), old(state.MaxSnapshots()), seq(i, _ => os))
    {
      var taken := state.TakeOptimizationSnapshot();
      assert seq(i + 1, _ => os)[..i] == seq(i, _ => os);
    }
    assert seq(3, _ => os) == [os, os, os];
    best := f.evaluate(Results([]), state.snapshots, store.Stored());
  }

  /** The steady loop for a given number of ticks (the loop itself runs until
      the service stops; the configuration read before the warm-up is never
      read again). The best never gets worse. */
  method Steady(state: R.State, store: NS.NodeSettingsStore, best: Rms, opt: Optimization, f: Foreign, ticks: nat) returns (last: Rms)
    requires R.ReceiversKnown(state.nodes)
    modifies state, store
    ensures NoWorse(best, last)
    ensures store.Stored() == old(store.Stored())
  {
    last := best;
    for t := 0 to ticks
      invariant R.ReceiversKnown(state.nodes)
      invariant NoWorse(best, last)
      invariant store.store == old(store.store) && store.Stored() == old(store.Stored())
    {
      var before := last;
      ghost var os := Taken(state.nodes);
      last := Tick(state, store, last, opt, f);
      RunNoWorse(before, os, state.snapshots, old(store.Stored()), opt, f, |Optimizers|);
      NoWorseTransitive(best, before, last);
    }
  }

  /** ExecuteAsync with the optimization section read once: nothing happens
      while it is disabled; otherwise the warm-up fills the window with three
      copies of the current snapshot and scores empty results against it
      (`baseline`), and the given number of steady ticks never end worse
      than that baseline. */
  method Execute(state: R.State, store: NS.NodeSettingsStore, opt: Optimization, f: Foreign, ticks: nat)
    returns (baseline: Option<Rms>, best: Option<Rms>)
    requires R.ReceiversKnown(state.nodes)
    modifies state, store
    ensures !opt.enabled ==> baseline.None? && best.None? && state.snapshots == old(state.snapshots) && store.outbox == old(store.outbox)
    ensures opt.enabled ==> baseline.Some? && best.Some? && NoWorse(baseline.value, best.value)
    ensures opt.enabled ==>
              var os := Taken(old(state.nodes));
              baseline.value == f.evaluate(Results([]), R.Fill(old(state.snapshots), old(state.MaxSnapshots()), [os, os, os]),
                                           old(store.Stored()))
    ensures store.Stored() == old(store.Stored())
  {
    if !opt.enabled {
      return None, None;
    }
    var first := WarmUp(state, store, f);
    var last := Steady(state, store, first, opt, f, ticks);
    baseline, best := Some(first), Some(last);
  }
}
