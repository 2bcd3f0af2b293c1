/** The anchors a locator works from: the device's readings that are current
    and come from an anchor on the locator's floor, nearest first
    (the `Where(...).OrderBy(a => a.Distance)` at the head of both
    multilateralizers' Locate). */
module Anchors {
  import opened Base

  /** What a locator reads of an anchor node: its location and the keys of
      the floors it belongs to (null when it has none configured). */
  datatype Anchor = Anchor(location: Point3, floors: Option<seq<string>>)

  /** One device-to-anchor reading: its Current flag, measured distance,
      last-hit time and the anchor it came from (null when unknown). */
  datatype Fix = Fix(current: bool, distance: real, lastHit: int, anchor: Option<Anchor>)

  /** `a.Current && (a.Node?.Floors?.Contains(floor) ?? false)` */
  predicate OnFloor(f: Fix, floor: string)
  {
    f.current && f.anchor.Some? && f.anchor.value.floors.Some? && floor in f.anchor.value.floors.value
  }

  /** The readings that pass OnFloor, in their original order. */
  function Usable(fs: seq<Fix>, floor: string): (r: seq<Fix>)
    ensures |r| <= |fs|
    ensures forall k :: 0 <= k < |r| ==> OnFloor(r[k], floor)
    ensures forall f :: multiset(r)[f] == if OnFloor(f, floor) then multiset(fs)[f] else 0
  {
    if fs == [] then []
    else
      var rest := Usable(fs[1..], floor);
      assert fs == [fs[0]] + fs[1..];
      if OnFloor(fs[0], floor) then [fs[0]] + rest else rest
  }

  ghost predicate SortedByDistance(s: seq<Fix>)
  {
    forall i, j :: 0 <= i < j < |s| ==> s[i].distance <= s[j].distance
  }

  /** Insert f before the first reading that is not nearer than it. */
  function Insert(f: Fix, s: seq<Fix>): (r: seq<Fix>)
    ensures |r| == |s| + 1
  {
    if s == [] then [f]
    else if f.distance <= s[0].distance then [f] + s
    else [s[0]] + Insert(f, s[1..])
  }

  /** Insertion adds exactly the inserted reading ... */
  lemma {:induction false} InsertAdds(f: Fix, s: seq<Fix>)
    ensures multiset(Insert(f, s)) == multiset(s) + multiset{f}
  {
    if s != [] && f.distance > s[0].distance {
      InsertAdds(f, s[1..]);
      assert s == [s[0]] + s[1..];
      assert Insert(f, s) == [s[0]] + Insert(f, s[1..]);
    }
  }

  /** ... keeps a sorted list sorted, and puts either the inserted reading or
      the old first reading first. */
  lemma {:induction false} InsertKeepsSorted(f: Fix, s: seq<Fix>)
    requires SortedByDistance(s)
    ensures SortedByDistance(Insert(f, s))
    ensures Insert(f, s)[0] == f || (s != [] && Insert(f, s)[0] == s[0])
  {
    if s != [] && f.distance > s[0].distance {
      var tail := Insert(f, s[1..]);
      InsertKeepsSorted(f, s[1..]);
      assert s[0].distance <= tail[0].distance;
      assert Insert(f, s) == [s[0]] + tail;
    }
  }

  /** A stable sort by ascending distance (LINQ's OrderBy). */
  function ByDistance(s: seq<Fix>): (r: seq<Fix>)
    ensures SortedByDistance(r)
    ensures multiset(r) == multiset(s)
    ensures |r| == |s|
  {
    if s == [] then []
    else
      var rest := ByDistance(s[1..]);
      assert s == [s[0]] + s[1..];
      InsertAdds(s[0], rest);
      InsertKeepsSorted(s[0], rest);
      Insert(s[0], rest)
  }

  /** The readings of `s` at exactly distance `d`, in their order in `s`. */
  function AtDistance(s: seq<Fix>, d: real): seq<Fix>
  {
    if s == [] then [] else (if s[0].distance == d then [s[0]] else []) + AtDistance(s[1..], d)
  }

  /** Insertion puts the inserted reading ahead of every reading at the same
      distance, and moves no other reading past one at its distance. */
  lemma {:induction false} InsertAtDistance(f: Fix, s: seq<Fix>, d: real)
    ensures AtDistance(Insert(f, s), d) == (if f.distance == d then [f] else []) + AtDistance(s, d)
  {
    if s != [] && f.distance > s[0].distance {
      var tail := Insert(f, s[1..]);
      InsertAtDistance(f, s[1..], d);
      assert ([s[0]] + tail)[1..] == tail;
    } else {
      assert ([f] + s)[1..] == s;
    }
  }

  /** ByDistance is stable: readings at the same distance keep the order
      they were read in. */
  lemma {:induction false} ByDistanceIsStable(s: seq<Fix>, d: real)
    ensures AtDistance(ByDistance(s), d) == AtDistance(s, d)
  {
    if s != [] {
      ByDistanceIsStable(s[1..], d);
      InsertAtDistance(s[0], ByDistance(s[1..]), d);
    }
  }

  /** The anchors a floor's locator uses, nearest first. */
  function Nearest(fs: seq<Fix>, floor: string): (r: seq<Fix>)
    ensures forall k :: 0 <= k < |r| ==> OnFloor(r[k], floor)
  {
    var u := Usable(fs, floor);
    var r := ByDistance(u);
    assert forall k :: 0 <= k < |r| ==> multiset(u)[r[k]] > 0 by {
      forall k | 0 <= k < |r| ensures multiset(u)[r[k]] > 0 {
        assert r[k] in multiset(r);
      }
    }
    r
  }

  /** The locators' anchor list holds exactly the usable readings, each as
      often as it was read, nearest first. */
  lemma {:induction false} NearestIsSortedUsable(fs: seq<Fix>, floor: string)
    ensures SortedByDistance(Nearest(fs, floor))
    ensures forall f :: f in Nearest(fs, floor) <==> f in fs && OnFloor(f, floor)
    ensures |Nearest(fs, floor)| <= |fs|
  {
    var r := Nearest(fs, floor);
    forall f ensures f in r <==> f in fs && OnFloor(f, floor) {
      assert f in r <==> multiset(r)[f] > 0;
      assert f in fs <==> multiset(fs)[f] > 0;
    }
  }
}
