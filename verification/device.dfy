/** A tracked mobile device: its identity, the scenarios created for it once,
    the best scenario the arbiter keeps, and what was last reported for it.
    Device.cs is not part of this model; the fields below are the ones the
    arbiter and the registry read and write. */
module Devices {
  import opened Base
  import opened Anchors
  import opened Scenarios

  class Device {
    const id: string
    /** `TimeSpan.FromSeconds(state.Config?.Timeout ?? 30)` in milliseconds. */
    const timeoutMs: int
    /** One scenario per floor known at creation, then the nearest-node one. */
    const scenarios: seq<Scenario>

    var name: Option<string>
    var track: bool
    var check: bool
    /** The index of BestScenario in `scenarios` (null: none chosen yet). */
    var best: Option<nat>
    var reportedState: Option<string>
    var reportedLocation: Point3
    var lastCalculated: int
    /** Device.Nodes: the latest reading from each receiving node, keyed by
        the receiver's id, in enumeration order. */
    var readings: seq<(string, Fix)>

    /** `new Device(id, timeout) { Check = true }` followed by adding the
        scenarios the registry plans for it. */
    constructor (id: string, timeoutMs: int, scenarios: seq<Scenario>)
      ensures this.id == id && this.timeoutMs == timeoutMs && this.scenarios == scenarios
      ensures name == None && !track && check && best == None && reportedState == None
      ensures reportedLocation == Origin && lastCalculated == 0 && readings == []
    {
      this.id := id;
      this.timeoutMs := timeoutMs;
      this.scenarios := scenarios;
      name, track, check, best := None, false, true, None;
      reportedState, reportedLocation, lastCalculated, readings := None, Origin, 0, [];
    }

    /** The device's confidence: that of its best scenario, none without one. */
    function Confidence(): (c: Option<int>)
      reads this, scenarios
      ensures best.None? ==> c.None?
      ensures best.Some? && best.value < |scenarios| ==> c == scenarios[best.value].confidence
    {
      if best.Some? && best.value < |scenarios| then scenarios[best.value].confidence else None
    }

    /** The readings the locators consume (`Nodes.Values`). */
    function Fixes(): (fs: seq<Fix>)
      reads this
      ensures |fs| == |readings| && forall k :: 0 <= k < |readings| ==> fs[k] == readings[k].1
    {
      var rs := readings;
      seq(|rs|, k requires 0 <= k < |rs| => rs[k].1)
    }
  }

  /** Every field of a device that the arbiter and the registry write. */
  datatype Fields = Fields(name: Option<string>, track: bool, check: bool, best: Option<nat>,
                           reportedState: Option<string>, reportedLocation: Point3, lastCalculated: int,
                           readings: seq<(string, Fix)>)

  function FieldsOf(d: Device): Fields
    reads d
  {
    Fields(d.name, d.track, d.check, d.best, d.reportedState, d.reportedLocation, d.lastCalculated, d.readings)
  }

  /** No scenario of `d` is one of `e`'s. */
  predicate Apart(d: Device, e: Device)
  {
    forall i, j :: 0 <= i < |d.scenarios| && 0 <= j < |e.scenarios| ==> d.scenarios[i] != e.scenarios[j]
  }

  /** No scenario belongs to two devices: each device is created with
      scenarios of its own. */
  predicate Separate(ds: set<Device>)
  {
    forall d, e :: d in ds && e in ds && d != e ==> Apart(d, e)
  }

  /** A device whose scenarios no other device holds keeps the devices
      separate when it joins them. */
  lemma SeparateAdd(ds: set<Device>, d: Device, all: set<Device>)
    requires Separate(ds) && all <= ds + {d}
    requires forall e :: e in ds && e != d ==> Apart(d, e) && Apart(e, d)
    ensures Separate(all)
  {
  }
}
