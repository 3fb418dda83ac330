/** The waypoint-list editor behind the planner's window: the list of stops,
    the global "enter distance manually" switch, and the edits made from the
    form and the list buttons, with the widgets taken away. */
module Editor {
  import opened GeoMath
  import opened Planner

  /** What an edit did. The form reports an invalid coordinate, a delete
      without a selection warns, a move at the edge of the list does nothing
      (for a move down, any index from the last one on), and a delete or a
      move up with an index past the end raises before anything changes. */
  datatype Status = Applied | InvalidCoordinate | NoSelection | AtBoundary | OutOfRange

  /** The distance between two stops. */
  function Leg(x: Waypoint, y: Waypoint, dist: DistanceFn): real
  {
    dist(x.latitude, x.longitude, y.latitude, y.longitude)
  }

  /** The leg length a recompute pass gives stop i: 0 for the first stop,
      otherwise the distance from the stop before it. */
  function LegDistance(wps: seq<Waypoint>, i: nat, dist: DistanceFn): real
    requires i < |wps|
  {
    if i == 0 then 0.0
    else Leg(wps[i - 1], wps[i], dist)
  }

  /** Every stored leg length is the one derived from the coordinates. */
  ghost predicate DistancesConsistent(wps: seq<Waypoint>, dist: DistanceFn)
  {
    forall i {:trigger LegDistance(wps, i, dist)} :: 0 <= i < |wps| ==> wps[i].distanceKm == LegDistance(wps, i, dist)
  }

  /** The stops with their derived field blanked: what an edit must not lose. */
  function Stops(wps: seq<Waypoint>): seq<Waypoint>
  {
    seq(|wps|, i requires 0 <= i < |wps| => wps[i].(distanceKm := 0.0))
  }

  /** The list after a recompute pass: same stops in the same order, each leg
      length derived from the coordinates. */
  function Recalculated(wps: seq<Waypoint>, dist: DistanceFn): (r: seq<Waypoint>)
    ensures Stops(r) == Stops(wps)
    ensures DistancesConsistent(r, dist)
  {
    seq(|wps|, i requires 0 <= i < |wps| => wps[i].(distanceKm := LegDistance(wps, i, dist)))
  }

  /** The recompute pass is determined by the stops alone: a consistent list
      with the same stops is the recalculated one. */
  lemma RecalculatedUnique(a: seq<Waypoint>, wps: seq<Waypoint>, dist: DistanceFn)
    requires DistancesConsistent(a, dist)
    requires Stops(a) == Stops(wps)
    ensures a == Recalculated(wps, dist)
  {
    var r := Recalculated(wps, dist);
    assert |a| == |Stops(a)| == |Stops(r)| == |r|;
    forall i | 0 <= i < |a| ensures a[i] == r[i] {
      SameLegAt(a, r, i, dist);
    }
  }

  /** Two consistent lists with the same stops hold the same entry at i. */
  lemma SameLegAt(a: seq<Waypoint>, b: seq<Waypoint>, i: nat, dist: DistanceFn)
    requires Stops(a) == Stops(b) && i < |a|
    requires DistancesConsistent(a, dist) && DistancesConsistent(b, dist)
    ensures i < |b| && a[i] == b[i]
  {
    SameStopAt(a, b, i);
    var leg := LegDistance(a, i, dist);
    if i > 0 {
      SameStopAt(a, b, i - 1);
    }
    assert leg == LegDistance(b, i, dist);
    assert a[i].distanceKm == leg;
    assert b[i].distanceKm == leg;
    SameWaypoint(a[i], b[i]);
  }

  lemma SameWaypoint(x: Waypoint, y: Waypoint)
    requires x.name == y.name && x.latitude == y.latitude && x.longitude == y.longitude
    requires x.distanceKm == y.distanceKm && x.estimatedSpeedKph == y.estimatedSpeedKph
    requires x.altitudeM == y.altitudeM
    ensures x == y
  {
  }

  /** Two lists with the same stops agree at every index on everything but
      the leg length. */
  lemma SameStopAt(a: seq<Waypoint>, b: seq<Waypoint>, i: nat)
    requires Stops(a) == Stops(b) && i < |a|
    ensures i < |b|
    ensures a[i].name == b[i].name && a[i].latitude == b[i].latitude && a[i].longitude == b[i].longitude
    ensures a[i].estimatedSpeedKph == b[i].estimatedSpeedKph && a[i].altitudeM == b[i].altitudeM
  {
    assert |a| == |Stops(a)| == |Stops(b)| == |b|;
    assert Stops(a)[i] == a[i].(distanceKm := 0.0) && Stops(b)[i] == b[i].(distanceKm := 0.0);
  }

  /** A list that is already consistent is left as it is by a recompute pass. */
  lemma ConsistentIsFixpoint(wps: seq<Waypoint>, dist: DistanceFn)
    requires DistancesConsistent(wps, dist)
    ensures Recalculated(wps, dist) == wps
  {
    RecalculatedUnique(wps, wps, dist);
  }

  /** Recomputing twice is recomputing once: the pass reads only coordinates
      and writes only leg lengths. */
  lemma RecalculatedIdempotent(wps: seq<Waypoint>, dist: DistanceFn)
    ensures Recalculated(Recalculated(wps, dist), dist) == Recalculated(wps, dist)
  {
    ConsistentIsFixpoint(Recalculated(wps, dist), dist);
  }

  /** With a distance that is never negative, a recomputed list has no
      negative leg, so both totals over it are non-negative. */
  lemma RecalculatedTotalsNonNegative(wps: seq<Waypoint>, dist: DistanceFn)
    requires IsGreatCircleLike(dist)
    ensures NonNegativeDistances(Recalculated(wps, dist))
    ensures SumDistances(Recalculated(wps, dist)) >= 0.0
    ensures SumHours(Recalculated(wps, dist)) >= 0.0
  {
    var r := Recalculated(wps, dist);
    forall i | 0 <= i < |r| ensures r[i].distanceKm >= 0.0 {
      assert r[i].distanceKm == LegDistance(r, i, dist);
    }
    SumsNonNegative(r);
  }

  /** The refresh decision: the list is recomputed unless the manual switch
      is on at the moment of the refresh. */
  function Refreshed(wps: seq<Waypoint>, manual: bool, dist: DistanceFn): (r: seq<Waypoint>)
    ensures Stops(r) == Stops(wps)
    ensures manual ==> r == wps
    ensures !manual ==> DistancesConsistent(r, dist)
  {
    if manual then wps else Recalculated(wps, dist)
  }

  /** The list with the entries at i and i + 1 exchanged. */
  function SwapAdjacent<T>(s: seq<T>, i: nat): (r: seq<T>)
    requires i + 1 < |s|
    ensures |r| == |s| && r[i] == s[i + 1] && r[i + 1] == s[i]
    ensures forall j :: 0 <= j < |s| && j != i && j != i + 1 ==> r[j] == s[j]
    ensures multiset(r) == multiset(s)
  {
    s[i := s[i + 1]][i + 1 := s[i]]
  }

  /** Swapping the same pair twice restores the list. */
  lemma SwapAdjacentInvolution<T>(s: seq<T>, i: nat)
    requires i + 1 < |s|
    ensures SwapAdjacent(SwapAdjacent(s, i), i) == s
  {
  }

  lemma StopsSwap(s: seq<Waypoint>, i: nat)
    requires i + 1 < |s|
    ensures Stops(SwapAdjacent(s, i)) == SwapAdjacent(Stops(s), i)
  {
  }

  /** The list without the entry at i; the rest keep their order. */
  function RemoveAt<T>(s: seq<T>, i: nat): (r: seq<T>)
    requires i < |s|
    ensures |r| == |s| - 1
    ensures forall j :: 0 <= j < i ==> r[j] == s[j]
    ensures forall j :: i <= j < |r| ==> r[j] == s[j + 1]
    ensures multiset(r) + multiset{s[i]} == multiset(s)
  {
    assert s == s[..i] + [s[i]] + s[i + 1..];
    s[..i] + s[i + 1..]
  }

  lemma StopsRemove(s: seq<Waypoint>, i: nat)
    requires i < |s|
    ensures Stops(RemoveAt(s, i)) == RemoveAt(Stops(s), i)
  {
  }

  /** While the manual switch is on, moving a stop keeps the total distance:
      the stored leg lengths are only reordered. */
  lemma SwapKeepsSumDistances(s: seq<Waypoint>, i: nat)
    requires i + 1 < |s|
    ensures SumDistances(SwapAdjacent(s, i)) == SumDistances(s)
  {
    var pre, post := s[..i], s[i + 2..];
    SplitAround(s, i);
    SplitAround(SwapAdjacent(s, i), i);
    assert SwapAdjacent(s, i)[..i] == pre && SwapAdjacent(s, i)[i + 2..] == post;
    SumDistancesAround(pre, s[i], s[i + 1], post);
    SumDistancesAround(pre, s[i + 1], s[i], post);
  }

  lemma SplitAround<T>(s: seq<T>, i: nat)
    requires i + 1 < |s|
    ensures s == s[..i] + [s[i], s[i + 1]] + s[i + 2..]
  {
  }

  lemma SumDistancesAround(pre: seq<Waypoint>, x: Waypoint, y: Waypoint, post: seq<Waypoint>)
    ensures SumDistances(pre + [x, y] + post)
            == SumDistances(pre) + x.distanceKm + y.distanceKm + SumDistances(post)
  {
    SumDistancesConcat(pre + [x, y], post);
    assert pre + [x, y] == (pre + [x]) + [y];
    SumDistancesAppend(pre + [x], y);
    SumDistancesAppend(pre, x);
  }

  /** With the manual switch off, moving a stop down and then back up gives
      back exactly the list the first recompute would have produced. */
  lemma MoveDownThenUpRestores(wps: seq<Waypoint>, i: nat, dist: DistanceFn)
    requires i + 1 < |wps|
    ensures Recalculated(SwapAdjacent(Recalculated(SwapAdjacent(wps, i), dist), i), dist)
            == Recalculated(wps, dist)
  {
    var down := Recalculated(SwapAdjacent(wps, i), dist);
    var back := Recalculated(SwapAdjacent(down, i), dist);
    calc {
      Stops(back);
      Stops(SwapAdjacent(down, i));
      { StopsSwap(down, i); }
      SwapAdjacent(Stops(down), i);
      SwapAdjacent(Stops(SwapAdjacent(wps, i)), i);
      { StopsSwap(wps, i); }
      SwapAdjacent(SwapAdjacent(Stops(wps), i), i);
      { SwapAdjacentInvolution(Stops(wps), i); }
      Stops(wps);
    }
    RecalculatedUnique(back, wps, dist);
  }

  /** The length of the route through the stops in order: the sum of the
      distances between consecutive stops. */
  function RouteLength(wps: seq<Waypoint>, dist: DistanceFn): real
  {
    if |wps| <= 1 then 0.0
    else RouteLength(wps[..|wps| - 1], dist) + Leg(wps[|wps| - 2], wps[|wps| - 1], dist)
  }

  /** The stops in the opposite order. */
  function Reversed(wps: seq<Waypoint>): (r: seq<Waypoint>)
    ensures |r| == |wps|
    ensures forall i :: 0 <= i < |wps| ==> r[i] == wps[|wps| - 1 - i]
  {
    if wps == [] then [] else [wps[|wps| - 1]] + Reversed(wps[..|wps| - 1])
  }

  /** A recompute pass leaves leg lengths that add up to the route length. */
  lemma {:induction false} RecalculatedTotalIsRouteLength(wps: seq<Waypoint>, dist: DistanceFn)
    ensures SumDistances(Recalculated(wps, dist)) == RouteLength(wps, dist)
  {
    if wps != [] {
      var n := |wps|;
      var r := Recalculated(wps, dist);
      var init := wps[..n - 1];
      assert r[..n - 1] == Recalculated(init, dist);
      RecalculatedTotalIsRouteLength(init, dist);
      assert r == r[..n - 1] + [r[n - 1]];
      SumDistancesAppend(r[..n - 1], r[n - 1]);
      assert r[n - 1].distanceKm == LegDistance(wps, n - 1, dist);
    }
  }

  /** Putting a stop in front of a route adds the leg to its first stop. */
  lemma {:induction false} RouteLengthPrepend(x: Waypoint, s: seq<Waypoint>, dist: DistanceFn)
    ensures RouteLength([x] + s, dist)
            == (if s == [] then 0.0 else Leg(x, s[0], dist)) + RouteLength(s, dist)
  {
    if |s| == 1 {
      assert ([x] + s)[..1] == [x];
    } else if |s| > 1 {
      var n := |s|;
      assert ([x] + s)[..n] == [x] + s[..n - 1];
      RouteLengthPrepend(x, s[..n - 1], dist);
    }
  }

  /** Because the distance is symmetric, travelling the route backwards is
      as long as travelling it forwards. */
  lemma {:induction false} ReversedRouteLength(wps: seq<Waypoint>, dist: DistanceFn)
    requires IsGreatCircleLike(dist)
    ensures RouteLength(Reversed(wps), dist) == RouteLength(wps, dist)
  {
    if |wps| > 1 {
      var n := |wps|;
      var init := wps[..n - 1];
      ReversedRouteLength(init, dist);
      RouteLengthPrepend(wps[n - 1], Reversed(init), dist);
      assert Reversed(init)[0] == wps[n - 2];
      assert Leg(wps[n - 1], wps[n - 2], dist) == Leg(wps[n - 2], wps[n - 1], dist);
    }
  }

  /** Reversing the stops and recomputing keeps the total distance of the
      summary; exchanging the two stops of a two-stop route is a case of it. */
  lemma ReversedRouteKeepsTotal(wps: seq<Waypoint>, dist: DistanceFn)
    requires IsGreatCircleLike(dist)
    ensures SumDistances(Recalculated(Reversed(wps), dist)) == SumDistances(Recalculated(wps, dist))
  {
    RecalculatedTotalIsRouteLength(wps, dist);
    RecalculatedTotalIsRouteLength(Reversed(wps), dist);
    ReversedRouteLength(wps, dist);
  }

  /** A stop appended at the coordinates of the last stop gets a leg of
      length 0, because a point is at distance 0 from itself. */
  lemma RepeatedPointLegIsZero(wps: seq<Waypoint>, w: Waypoint, dist: DistanceFn)
    requires IsGreatCircleLike(dist)
    requires wps != [] && w.latitude == wps[|wps| - 1].latitude && w.longitude == wps[|wps| - 1].longitude
    ensures LegDistance(wps + [w], |wps|, dist) == 0.0
    ensures Recalculated(wps + [w], dist)[|wps|].distanceKm == 0.0
  {
    assert (wps + [w])[|wps| - 1] == wps[|wps| - 1];
  }

  /** The state of the planner window that the list edits act on. */
  class WaypointEditor {
    /** The stops in route order. */
    var waypoints: seq<Waypoint>
    /** The single "enter distance manually" switch of the form. */
    var manualMode: bool
    /** The great-circle distance the editor derives leg lengths with. */
    const dist: DistanceFn

    /** A new window: no stops, manual entry off. */
    constructor (dist: DistanceFn)
      ensures waypoints == [] && !manualMode && this.dist == dist
    {
      waypoints := [];
      manualMode := false;
      this.dist := dist;
    }

    /** Ticking or clearing the manual-distance box. */
    method SetManualDistance(enabled: bool)
      modifies this`manualMode
      ensures manualMode == enabled
    {
      manualMode := enabled;
    }

    /** The recompute pass: in route order, the first stop gets 0 and every
        later stop the distance from the (already updated) stop before it. */
    method RecalculateDistances()
      modifies this`waypoints
      ensures waypoints == Recalculated(old(waypoints), dist)
    {
      ghost var before := waypoints;
      ghost var target := Recalculated(before, dist);
      var i := 0;
      while i < |waypoints|
        invariant |waypoints| == |before| == |target|
        invariant 0 <= i <= |waypoints|
        invariant forall j :: 0 <= j < i ==> waypoints[j] == target[j]
        invariant forall j :: i <= j < |waypoints| ==> waypoints[j] == before[j]
      {
        var wp := waypoints[i];
        var d;
        if i == 0 {
          d := 0.0;
        } else {
          var prev := waypoints[i - 1];
          assert prev.latitude == before[i - 1].latitude && prev.longitude == before[i - 1].longitude;
          d := dist(prev.latitude, prev.longitude, wp.latitude, wp.longitude);
        }
        assert d == LegDistance(before, i, dist);
        waypoints := waypoints[i := wp.(distanceKm := d)];
        i := i + 1;
      }
      assert waypoints == target;
    }

    /** Refreshing the list view: distances are recomputed unless the manual
        switch is on at that moment. */
    method RefreshWaypointList()
      modifies this`waypoints
      ensures waypoints == Refreshed(old(waypoints), manualMode, dist)
    {
      if !manualMode {
        RecalculateDistances();
      }
    }

    /** "Add Waypoint": appends a stop built from the form, then refreshes and
        turns the manual switch off. `reportedKm` is the distance announced
        to the user. */
    method AddWaypoint(name: string, latitude: real, longitude: real, manualDistanceKm: real,
                       speedKph: real, altitudeM: int)
      returns (status: Status, reportedKm: real)
      modifies this
      ensures status == (if IsValidCoordinate(latitude) && IsValidCoordinate(longitude)
                         then Applied else InvalidCoordinate)
      ensures status == InvalidCoordinate ==>
                waypoints == old(waypoints) && manualMode == old(manualMode)
      ensures status == Applied ==> !manualMode && |waypoints| == |old(waypoints)| + 1
      ensures status == Applied ==>
                Stops(waypoints) == Stops(old(waypoints) + [Waypoint(name, latitude, longitude, 0.0, speedKph, altitudeM)])
      // manual entry: the typed distance is kept and nothing earlier is touched
      ensures status == Applied && old(manualMode) ==>
                reportedKm == manualDistanceKm &&
                waypoints == old(waypoints) + [Waypoint(name, latitude, longitude, manualDistanceKm, speedKph, altitudeM)]
      // automatic: the whole list is recomputed, earlier manual entries included,
      // and the distance announced is the one the new stop ends up with
      ensures status == Applied && !old(manualMode) ==>
                waypoints == Recalculated(old(waypoints) + [Waypoint(name, latitude, longitude, reportedKm, speedKph, altitudeM)], dist) &&
                DistancesConsistent(waypoints, dist) &&
                waypoints[|old(waypoints)|].distanceKm == reportedKm
    {
      if !(IsValidCoordinate(latitude) && IsValidCoordinate(longitude)) {
        return InvalidCoordinate, 0.0;
      }
      if manualMode {
        reportedKm := manualDistanceKm;
      } else if waypoints != [] {
        var prev := waypoints[|waypoints| - 1];
        reportedKm := dist(prev.latitude, prev.longitude, latitude, longitude);
      } else {
        reportedKm := 0.0;
      }
      ghost var added := old(waypoints) + [Waypoint(name, latitude, longitude, reportedKm, speedKph, altitudeM)];
      assert LegDistance(added, |old(waypoints)|, dist) == reportedKm || manualMode;
      waypoints := waypoints + [Waypoint(name, latitude, longitude, reportedKm, speedKph, altitudeM)];
      assert Stops(waypoints) == Stops(old(waypoints) + [Waypoint(name, latitude, longitude, 0.0, speedKph, altitudeM)]);
      RefreshWaypointList();
      manualMode := false;
      status := Applied;
    }

    /** "Delete Waypoint": removes the selected stop and refreshes. */
    method DeleteWaypoint(selection: Option<nat>) returns (status: Status)
      modifies this`waypoints
      ensures selection.None? ==> status == NoSelection
      ensures selection.Some? && selection.value >= |old(waypoints)| ==> status == OutOfRange
      ensures status != Applied ==> waypoints == old(waypoints)
      ensures selection.Some? && selection.value < |old(waypoints)| ==>
                status == Applied &&
                waypoints == Refreshed(RemoveAt(old(waypoints), selection.value), manualMode, dist) &&
                Stops(waypoints) == RemoveAt(Stops(old(waypoints)), selection.value)
    {
      if selection.None? {
        return NoSelection;
      }
      var i := selection.value;
      if i >= |waypoints| {
        return OutOfRange;
      }
      StopsRemove(waypoints, i);
      waypoints := RemoveAt(waypoints, i);
      RefreshWaypointList();
      status := Applied;
    }

    /** "Move Up": exchanges the selected stop with the one before it and
        refreshes. */
    method MoveWaypointUp(selection: Option<nat>) returns (status: Status)
      modifies this`waypoints
      ensures selection.None? ==> status == NoSelection
      ensures selection == Some(0) ==> status == AtBoundary
      ensures selection.Some? && 0 < selection.value && selection.value >= |old(waypoints)| ==> status == OutOfRange
      ensures status != Applied ==> waypoints == old(waypoints)
      ensures selection.Some? && 0 < selection.value < |old(waypoints)| ==>
                status == Applied &&
                waypoints == Refreshed(SwapAdjacent(old(waypoints), selection.value - 1), manualMode, dist) &&
                Stops(waypoints) == SwapAdjacent(Stops(old(waypoints)), selection.value - 1) &&
                multiset(Stops(waypoints)) == multiset(Stops(old(waypoints)))
    {
      if selection.None? {
        return NoSelection;
      }
      var i := selection.value;
      if i == 0 {
        return AtBoundary;
      }
      if i >= |waypoints| {
        return OutOfRange;
      }
      StopsSwap(waypoints, i - 1);
      waypoints := SwapAdjacent(waypoints, i - 1);
      RefreshWaypointList();
      status := Applied;
    }

    /** "Move Down": exchanges the selected stop with the one after it and
        refreshes; the last stop, or any index past it, stays put. */
    method MoveWaypointDown(selection: Option<nat>) returns (status: Status)
      modifies this`waypoints
      ensures selection.None? ==> status == NoSelection
      ensures selection.Some? && selection.value + 1 >= |old(waypoints)| ==> status == AtBoundary
      ensures status != Applied ==> waypoints == old(waypoints)
      ensures selection.Some? && selection.value + 1 < |old(waypoints)| ==>
                status == Applied &&
                waypoints == Refreshed(SwapAdjacent(old(waypoints), selection.value), manualMode, dist) &&
                Stops(waypoints) == SwapAdjacent(Stops(old(waypoints)), selection.value) &&
                multiset(Stops(waypoints)) == multiset(Stops(old(waypoints)))
    {
      if selection.None? {
        return NoSelection;
      }
      var i := selection.value;
      if i + 1 >= |waypoints| {
        return AtBoundary;
      }
      StopsSwap(waypoints, i);
      waypoints := SwapAdjacent(waypoints, i);
      RefreshWaypointList();
      status := Applied;
    }

    /** The two figures of the summary line: the same totals the itinerary
        reports for this list. */
    method UpdateSummary() returns (totalDistance: real, totalTime: real)
      ensures totalDistance == Itinerary(waypoints).TotalDistance()
      ensures totalTime == SumHours(waypoints)
    {
      totalDistance := SumDistances(waypoints);
      totalTime := 0.0;
      var i := 0;
      while i < |waypoints|
        invariant 0 <= i <= |waypoints|
        invariant totalTime == SumHours(waypoints[..i])
      {
        var wp := waypoints[i];
        assert waypoints[..i + 1] == waypoints[..i] + [wp];
        SumHoursAppend(waypoints[..i], wp);
        if wp.estimatedSpeedKph > 0.0 {
          totalTime := totalTime + wp.distanceKm / wp.estimatedSpeedKph;
        }
        i := i + 1;
      }
      assert waypoints[..i] == waypoints;
    }
  }

  /** The session the window tests drive: one stop added automatically, then
      a second typed in by hand, which switches manual entry off again. */
  method ManualEntrySession(dist: DistanceFn)
  {
    var editor := new WaypointEditor(dist);
    var status, km := editor.AddWaypoint("A", 70.0, 20.0, 0.0, 10.0, 150);
    assert status == Applied && km == 0.0;
    assert editor.waypoints == [Waypoint("A", 70.0, 20.0, 0.0, 10.0, 150)];

    editor.SetManualDistance(true);
    status, km := editor.AddWaypoint("B", 70.1, 20.1, 5.0, 9.0, 160);
    assert status == Applied && !editor.manualMode;
    var ws := editor.waypoints;
    assert ws == [Waypoint("A", 70.0, 20.0, 0.0, 10.0, 150), Waypoint("B", 70.1, 20.1, 5.0, 9.0, 160)];
    assert ws[..1] == [ws[0]] && ws[..1][..0] == [];
    assert SumDistances(ws[..1]) == 0.0;
    assert SumDistances(ws) == 5.0;
    var total, hours := editor.UpdateSummary();
    assert total == 5.0;
  }

  /** Moving the second of two stops up recomputes both legs in the new order. */
  method MoveUpSession(dist: DistanceFn)
  {
    var editor := new WaypointEditor(dist);
    editor.waypoints := [Waypoint("A", 70.0, 20.0, 0.0, 10.0, 150), Waypoint("B", 70.1, 20.1, 5.0, 9.0, 160)];
    var status := editor.MoveWaypointUp(Some(1));
    assert status == Applied;
    assert LegDistance(editor.waypoints, 0, dist) == 0.0;
    assert LegDistance(editor.waypoints, 1, dist) == dist(70.1, 20.1, 70.0, 20.0);
    assert editor.waypoints == [Waypoint("B", 70.1, 20.1, 0.0, 9.0, 160),
                                Waypoint("A", 70.0, 20.0, dist(70.1, 20.1, 70.0, 20.0), 10.0, 150)];
    status := editor.MoveWaypointDown(Some(1));
    assert status == AtBoundary;
  }

  /** Deleting the first of two stops makes the other the first, with leg 0;
      edits without a usable selection change nothing. */
  method DeleteSession(dist: DistanceFn)
  {
    var editor := new WaypointEditor(dist);
    editor.waypoints := [Waypoint("A", 70.0, 20.0, 0.0, 10.0, 150), Waypoint("B", 70.1, 20.1, 5.0, 9.0, 160)];
    var status := editor.DeleteWaypoint(Some(0));
    assert status == Applied;
    assert LegDistance(editor.waypoints, 0, dist) == 0.0;
    assert editor.waypoints == [Waypoint("B", 70.1, 20.1, 0.0, 9.0, 160)];
    status := editor.MoveWaypointUp(Some(0));
    assert status == AtBoundary;
    status := editor.DeleteWaypoint(None);
    assert status == NoSelection;
    status := editor.DeleteWaypoint(Some(3));
    assert status == OutOfRange && |editor.waypoints| == 1;
  }

  /** A coordinate beyond 180 degrees is refused; a point added twice in a row
      adds a leg of length 0. */
  method RefusedAndRepeatedStops(dist: DistanceFn)
    requires IsGreatCircleLike(dist)
  {
    var editor := new WaypointEditor(dist);
    var status, km := editor.AddWaypoint("Far", 1000.0, 20.0, 0.0, 10.0, 0);
    assert status == InvalidCoordinate && editor.waypoints == [];
    status, km := editor.AddWaypoint("Camp", 70.0, 20.0, 0.0, 10.0, 100);
    status, km := editor.AddWaypoint("Camp", 70.0, 20.0, 0.0, 10.0, 100);
    assert status == Applied && km == 0.0;
    assert editor.waypoints[1].distanceKm == 0.0;
  }
}
