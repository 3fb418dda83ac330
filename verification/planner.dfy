/** The waypoint record and the itinerary queries: total distance, estimated
    travel time and the export view. None of them changes the waypoints. */
module Planner {

  /** One stop on the route. `distanceKm` is the length of the leg from the
      previous stop; a speed of 0 means "unknown". */
  datatype Waypoint = Waypoint(
    name: string,
    latitude: real,
    longitude: real,
    distanceKm: real,
    estimatedSpeedKph: real,
    altitudeM: int)
  {
    /** Hours needed for the leg into this stop: distance over speed, or 0 when
        the speed is not positive. */
    function EstimatedTimeHours(): (hours: real)
      ensures estimatedSpeedKph <= 0.0 ==> hours == 0.0
      ensures estimatedSpeedKph > 0.0 ==> hours * estimatedSpeedKph == distanceKm
      ensures distanceKm >= 0.0 ==> hours >= 0.0
    {
      if estimatedSpeedKph > 0.0 then distanceKm / estimatedSpeedKph else 0.0
    }
  }

  /** Sum of the leg distances, accumulated from the first stop to the last. */
  function SumDistances(wps: seq<Waypoint>): (km: real)
    ensures wps == [] ==> km == 0.0
  {
    if wps == [] then 0.0 else SumDistances(wps[..|wps| - 1]) + wps[|wps| - 1].distanceKm
  }

  /** Sum of the leg times; legs whose speed is not positive add nothing. */
  function SumHours(wps: seq<Waypoint>): (hours: real)
    ensures wps == [] ==> hours == 0.0
  {
    if wps == [] then 0.0 else SumHours(wps[..|wps| - 1]) + wps[|wps| - 1].EstimatedTimeHours()
  }

  lemma SumDistancesAppend(wps: seq<Waypoint>, w: Waypoint)
    ensures SumDistances(wps + [w]) == SumDistances(wps) + w.distanceKm
  {
    assert (wps + [w])[..|wps|] == wps;
  }

  /** Appending a stop adds its leg time; a stop of unknown speed adds nothing. */
  lemma SumHoursAppend(wps: seq<Waypoint>, w: Waypoint)
    ensures SumHours(wps + [w]) == SumHours(wps) + w.EstimatedTimeHours()
    ensures w.estimatedSpeedKph <= 0.0 ==> SumHours(wps + [w]) == SumHours(wps)
  {
    assert (wps + [w])[..|wps|] == wps;
  }

  lemma {:induction false} SumDistancesConcat(a: seq<Waypoint>, b: seq<Waypoint>)
    ensures SumDistances(a + b) == SumDistances(a) + SumDistances(b)
  {
    if b == [] {
      assert a + b == a;
    } else {
      var init := b[..|b| - 1];
      assert a + b == (a + init) + [b[|b| - 1]];
      SumDistancesConcat(a, init);
      SumDistancesAppend(a + init, b[|b| - 1]);
    }
  }

  lemma {:induction false} SumHoursConcat(a: seq<Waypoint>, b: seq<Waypoint>)
    ensures SumHours(a + b) == SumHours(a) + SumHours(b)
  {
    if b == [] {
      assert a + b == a;
    } else {
      var init := b[..|b| - 1];
      assert a + b == (a + init) + [b[|b| - 1]];
      SumHoursConcat(a, init);
      SumHoursAppend(a + init, b[|b| - 1]);
    }
  }

  ghost predicate NonNegativeDistances(wps: seq<Waypoint>)
  {
    forall i :: 0 <= i < |wps| ==> wps[i].distanceKm >= 0.0
  }

  /** With no negative leg, neither total is negative, whatever the speeds. */
  lemma {:induction false} SumsNonNegative(wps: seq<Waypoint>)
    requires NonNegativeDistances(wps)
    ensures SumDistances(wps) >= 0.0
    ensures SumHours(wps) >= 0.0
  {
    if wps != [] {
      var init := wps[..|wps| - 1];
      assert NonNegativeDistances(init) by {
        forall i | 0 <= i < |init| ensures init[i].distanceKm >= 0.0 {
          assert init[i] == wps[i];
        }
      }
      SumsNonNegative(init);
      assert wps[|wps| - 1].distanceKm >= 0.0;
    }
  }

  /** An itinerary: the stops in route order. */
  datatype Itinerary = Itinerary(waypoints: seq<Waypoint>)
  {
    /** Sum of the distances of all stops; 0 for an empty itinerary. */
    function TotalDistance(): (km: real)
      ensures waypoints == [] ==> km == 0.0
      ensures NonNegativeDistances(waypoints) ==> km >= 0.0
    {
      SumsNonNegativeIf(waypoints);
      SumDistances(waypoints)
    }

    /** Sum of distance over speed, taken over the stops with a positive speed,
        accumulated in a loop from the first stop to the last. */
    method EstimatedTime() returns (total: real)
      ensures total == SumHours(waypoints)
      ensures NonNegativeDistances(waypoints) ==> total >= 0.0
    {
      total := 0.0;
      var i := 0;
      while i < |waypoints|
        invariant 0 <= i <= |waypoints|
        invariant total == SumHours(waypoints[..i])
      {
        var wp := waypoints[i];
        assert waypoints[..i + 1] == waypoints[..i] + [wp];
        SumHoursAppend(waypoints[..i], wp);
        if wp.estimatedSpeedKph > 0.0 {
          total := total + wp.distanceKm / wp.estimatedSpeedKph;
        }
        i := i + 1;
      }
      assert waypoints[..i] == waypoints;
      SumsNonNegativeIf(waypoints);
    }

    /** The serializable view: under the single key "itinerary", one record per
        stop, in route order. */
    function ToDict(): (view: ExportView)
      ensures view.Keys == {ItineraryKey}
      ensures |view[ItineraryKey]| == |waypoints|
      ensures forall i :: 0 <= i < |waypoints| ==> IsRecordOf(view[ItineraryKey][i], waypoints[i])
    {
      map[ItineraryKey := seq(|waypoints|, i requires 0 <= i < |waypoints| => RecordOf(waypoints[i]))]
    }
  }

  lemma SumsNonNegativeIf(wps: seq<Waypoint>)
    ensures NonNegativeDistances(wps) ==> SumDistances(wps) >= 0.0 && SumHours(wps) >= 0.0
  {
    if NonNegativeDistances(wps) {
      SumsNonNegative(wps);
    }
  }

  /** A JSON value of one of the three kinds a record holds. */
  datatype FieldValue = Text(text: string) | Number(number: real) | Integer(integer: int)

  type Record = map<string, FieldValue>
  type ExportView = map<string, seq<Record>>

  const ItineraryKey := "itinerary"

  /** The record of one stop: its six fields under their export names. */
  function RecordOf(wp: Waypoint): Record
  {
    map[
      "name" := Text(wp.name),
      "latitude" := Number(wp.latitude),
      "longitude" := Number(wp.longitude),
      "distance_km" := Number(wp.distanceKm),
      "estimated_speed_kph" := Number(wp.estimatedSpeedKph),
      "altitude_m" := Integer(wp.altitudeM)]
  }

  /** `rec` carries exactly the six fields of `wp`, each copied verbatim. */
  ghost predicate IsRecordOf(rec: Record, wp: Waypoint)
  {
    rec.Keys == {"name", "latitude", "longitude", "distance_km", "estimated_speed_kph", "altitude_m"} &&
    rec["name"] == Text(wp.name) &&
    rec["latitude"] == Number(wp.latitude) &&
    rec["longitude"] == Number(wp.longitude) &&
    rec["distance_km"] == Number(wp.distanceKm) &&
    rec["estimated_speed_kph"] == Number(wp.estimatedSpeedKph) &&
    rec["altitude_m"] == Integer(wp.altitudeM)
  }

  /** Reads a stop back from its record; None when a field is missing or of
      the wrong kind. */
  function WaypointOf(rec: Record): (wp: Option<Waypoint>)
    ensures forall w :: IsRecordOf(rec, w) ==> wp == Some(w)
  {
    if "name" in rec && rec["name"].Text? &&
       "latitude" in rec && rec["latitude"].Number? &&
       "longitude" in rec && rec["longitude"].Number? &&
       "distance_km" in rec && rec["distance_km"].Number? &&
       "estimated_speed_kph" in rec && rec["estimated_speed_kph"].Number? &&
       "altitude_m" in rec && rec["altitude_m"].Integer?
    then
      Some(Waypoint(rec["name"].text, rec["latitude"].number, rec["longitude"].number,
                    rec["distance_km"].number, rec["estimated_speed_kph"].number,
                    rec["altitude_m"].integer))
    else
      None
  }

  /** Reads an itinerary back from its export view. */
  function FromDict(view: ExportView): Option<Itinerary>
  {
    if ItineraryKey !in view then None
    else
      var recs := view[ItineraryKey];
      if forall i :: 0 <= i < |recs| ==> WaypointOf(recs[i]).Some?
      then Some(Itinerary(seq(|recs|, i requires 0 <= i < |recs| => WaypointOf(recs[i]).value)))
      else None
  }

  /** The export view loses nothing: reading it back gives the same stops in
      the same order. */
  lemma ToDictRoundTrip(it: Itinerary)
    ensures FromDict(it.ToDict()) == Some(it)
  {
    var recs := it.ToDict()[ItineraryKey];
    forall i | 0 <= i < |recs| ensures WaypointOf(recs[i]) == Some(it.waypoints[i]) {
      assert recs[i] == RecordOf(it.waypoints[i]);
    }
    var back := seq(|recs|, i requires 0 <= i < |recs| => WaypointOf(recs[i]).value);
    assert back == it.waypoints;
  }

  /** Two itineraries with the same export view are the same itinerary. */
  lemma ToDictInjective(a: Itinerary, b: Itinerary)
    requires a.ToDict() == b.ToDict()
    ensures a == b
  {
    ToDictRoundTrip(a);
    ToDictRoundTrip(b);
  }

  datatype Option<+T> = None | Some(value: T)

  /** The itinerary of the planner tests: a stop of unknown speed adds nothing
      to the time, and the export keeps all three stops in order. */
  method MixedSpeedItinerary()
  {
    var it := Itinerary([
      Waypoint("A", 70.0, 20.0, 0.0, 10.0, 50),
      Waypoint("B", 70.1, 20.1, 0.0, 0.0, 60),
      Waypoint("C", 70.2, 20.2, 5.0, 15.0, 70)]);
    var ws := it.waypoints;
    assert ws == [ws[0]] + [ws[1]] + [ws[2]];
    SumDistancesAppend([], ws[0]);
    SumDistancesAppend([ws[0]], ws[1]);
    SumDistancesAppend([ws[0]] + [ws[1]], ws[2]);
    SumHoursAppend([], ws[0]);
    SumHoursAppend([ws[0]], ws[1]);
    SumHoursAppend([ws[0]] + [ws[1]], ws[2]);
    assert it.TotalDistance() == 5.0;
    var hours := it.EstimatedTime();
    assert hours == 5.0 / 15.0;
    var view := it.ToDict();
    assert |view[ItineraryKey]| == 3;
    assert view[ItineraryKey][2]["altitude_m"] == Integer(70);
    assert view[ItineraryKey][0]["name"] == Text("A");
  }
}
