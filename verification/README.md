# Arctic Expedition Planner — waypoint itinerary model

A Dafny model of the itinerary core of the Arctic Expedition Planner. An
expedition route is an ordered list of waypoints. Each waypoint stores the
length of the leg from the stop before it (`distance_km`). The planner
window edits that list: add, delete, move up, move down. After each edit it
recomputes the leg lengths, unless the global "enter distance manually"
switch is on at that moment. The itinerary answers the total distance, the
estimated travel time and an export view.

Three modules, following the three source files:

- `GeoMath` (`geo_math.dfy`, from `src/utils.py`). It holds the coordinate
  check. It also holds the laws the great-circle distance is relied on for:
  a point is at distance 0 from itself, no distance is negative, and the
  distance is symmetric (`IsGreatCircleLike`). The haversine body is not
  modelled. The distance is a parameter of type `DistanceFn`, and every
  editor fact below holds for any function obeying those laws.
- `Planner` (`planner.dfy`, from `src/planner.py`). It holds the `Waypoint`
  record, `Itinerary` with `TotalDistance`, `EstimatedTime` and `ToDict`,
  and the sum functions `SumDistances` and `SumHours` that specify them.
  `EstimatedTime` is a loop with an accumulator, as in the source. The queries
  work on values, so they cannot change the waypoints.
- `Editor` (`editor.dfy`, from `src/gui.py` with the widgets stripped). It
  holds the class `WaypointEditor`, with the fields `waypoints` and
  `manualMode` and the distance function `dist`. The listbox selection
  becomes an `Option<nat>` parameter, and the form fields become method
  parameters. The specification functions are `Recalculated` (the result of
  a recompute pass), `Refreshed` (the refresh decision), `SwapAdjacent` and
  `RemoveAt`. `Stops` is the list with leg lengths blanked, which is what no
  edit may lose.

The key invariant is `DistancesConsistent`: entry 0 has leg 0 and every
later entry has the distance from its predecessor. Every recompute pass
establishes it (`Recalculated`). In manual mode, `AddWaypoint` keeps the
typed distance and does not recompute the earlier entries. It then turns the
switch off, so the next refresh made with the switch off overwrites every
manual distance. If the box is ticked again before a delete or a move, the
manual distances stay. This follows the source's single global switch.

The methods `ManualEntrySession`, `MoveUpSession`, `DeleteSession`,
`RefusedAndRepeatedStops` and `Planner.MixedSpeedItinerary` replay the
scenarios of the repository's tests as assertions.

Three points about the code that shape the model:

- There is one global manual switch, not a flag per waypoint. It is read
  when the list is refreshed and cleared after every add.
- `to_dict` returns only the list of waypoint records. The totals are not
  part of it.
- A refresh made with the switch off recomputes every leg, the first one
  included. A manual leg does not survive it, whether or not the edit
  changed its neighbours.

## Model

| member | source | states |
|---|---|---|
| GeoMath.IsValidCoordinate | src/utils.py:15-17 | a value is accepted exactly when it lies in [-180, 180], bounds included; the [-90, 90] disjunct is subsumed |
| GeoMath.ValidCoordinateCases | tests/test_utils.py:10-15 | 45.0 and -89.999 accepted, 1000.0 and -200.0 refused, ±90 and ±180 accepted, a latitude of 120 accepted, anything beyond ±180 refused |
| GeoMath.IsGreatCircleLike | src/utils.py:23-35 | a point is at distance 0 from itself, no distance is negative, and the distance is symmetric; the triangle inequality is not assumed |
| Planner.Waypoint.EstimatedTimeHours | src/planner.py:18-22 | 0 when the speed is not positive; otherwise the time that, multiplied by the speed, gives the distance; never negative for a non-negative distance |
| Planner.SumDistances | src/planner.py:30-32 | the sum of the leg lengths is 0 for an empty list |
| Planner.SumHours | src/planner.py:34-40 | the sum of the leg times is 0 for an empty list |
| Planner.SumDistancesAppend | src/planner.py:30-32 | appending a stop with leg d raises the total distance by exactly d |
| Planner.SumHoursAppend | src/planner.py:34-40 | appending a stop adds its leg time; a stop of speed 0 or less leaves the estimated time unchanged |
| Planner.SumDistancesConcat | src/planner.py:30-32 | the total distance of a concatenation is the sum of the totals |
| Planner.SumHoursConcat | src/planner.py:34-40 | the estimated time of a concatenation is the sum of the times |
| Planner.SumsNonNegative | src/planner.py:30-40 | when no leg is negative, both totals are non-negative, whatever the speeds |
| Planner.Itinerary.TotalDistance | src/planner.py:30-32 | 0 for an empty itinerary, non-negative when no leg is negative |
| Planner.Itinerary.EstimatedTime | src/planner.py:34-40 | the loop returns the sum of distance/speed over stops with positive speed; zero-speed stops add nothing and never divide |
| Planner.Itinerary.ToDict | src/planner.py:42-56 | a single "itinerary" key holding one record per waypoint, same length and order, all six fields copied verbatim |
| Planner.WaypointOf | src/planner.py:42-56 | reading a record back gives exactly the waypoint it was made from |
| Planner.ToDictRoundTrip | src/planner.py:42-56 | reading the export view back gives the same itinerary |
| Planner.ToDictInjective | src/planner.py:42-56 | two itineraries with the same export view are equal |
| Editor.Recalculated | src/gui.py:212-219 | after a recompute pass the list has the same stops in the same order and every leg is derived: 0 for entry 0, Dist(prev, wp_i) for i>0 |
| Editor.RecalculatedUnique | src/gui.py:212-219 | any consistent list with the same stops is the recomputed one |
| Editor.ConsistentIsFixpoint | src/gui.py:212-219 | a recompute pass leaves an already consistent list unchanged |
| Editor.RecalculatedIdempotent | src/gui.py:214-219 | recomputing twice gives the same list as recomputing once |
| Editor.RecalculatedTotalsNonNegative | src/utils.py:28-35 | because the distance is never negative, a recomputed list has no negative leg and non-negative totals |
| Editor.RecalculatedTotalIsRouteLength | src/gui.py:212-219 | after a recompute pass the legs add up to the length of the route through the stops in order |
| Editor.RouteLengthPrepend | src/gui.py:212-219 | putting a stop in front of a route adds exactly the leg from it to the old first stop |
| Editor.ReversedRouteLength | src/utils.py:29-33 | because the distance is symmetric, the route through the stops in reverse order is as long as the route forwards |
| Editor.ReversedRouteKeepsTotal | src/utils.py:29-33 | reversing the stops and recomputing keeps the total distance of the summary, for routes of any length |
| Editor.RepeatedPointLegIsZero | src/utils.py:29-35 | a stop appended at the previous stop's coordinates gets a leg of 0 |
| Editor.Refreshed | src/gui.py:194-197 | a refresh keeps the stops; with the switch on it changes nothing, with it off the list becomes consistent |
| Editor.SwapAdjacent | src/gui.py:238 | two adjacent entries are exchanged, the rest stay, and the result is a permutation |
| Editor.SwapAdjacentInvolution | src/gui.py:232-254 | exchanging the same pair twice restores the list |
| Editor.StopsSwap | src/gui.py:238 | exchanging entries moves the stops exactly as it moves the entries |
| Editor.RemoveAt | src/gui.py:227 | one entry fewer; entries before the index stay and later ones shift down by one; the multiset loses exactly the removed entry |
| Editor.StopsRemove | src/gui.py:227 | removing an entry removes exactly that stop and keeps the order of the rest |
| Editor.SwapKeepsSumDistances | src/gui.py:232-262 | with the switch on, a move does not change the total distance shown in the summary |
| Editor.MoveDownThenUpRestores | src/gui.py:232-254 | with the switch off, a move down followed by a move back up gives the list a single recompute would give |
| Editor.WaypointEditor.constructor | src/gui.py:47-55 | a new window has no waypoints and the manual switch off |
| Editor.WaypointEditor.SetManualDistance | src/gui.py:87-88 | ticking the box sets the switch and nothing else |
| Editor.WaypointEditor.RecalculateDistances | src/gui.py:212-219 | the in-place loop leaves the list equal to `Recalculated` of the old list |
| Editor.WaypointEditor.RefreshWaypointList | src/gui.py:194-197 | recomputes unless the switch is on at the moment of the refresh |
| Editor.WaypointEditor.AddWaypoint | src/gui.py:155-191 | invalid latitude or longitude: nothing changes; manual: the typed distance is appended verbatim and earlier entries are untouched; auto: one stop appended and the whole list recomputed, with the reported distance equal to the new stop's leg; the switch is off afterwards |
| Editor.WaypointEditor.DeleteWaypoint | src/gui.py:221-230 | no selection or an index past the end: nothing changes; otherwise exactly the selected entry is removed, the order of the rest is kept, and the list is refreshed |
| Editor.WaypointEditor.MoveWaypointUp | src/gui.py:232-242 | no-op with no selection, at index 0 or past the end; otherwise the entry and its predecessor are exchanged, the stops are permuted, and the list is refreshed |
| Editor.WaypointEditor.MoveWaypointDown | src/gui.py:244-254 | no-op with no selection or at index >= len-1; otherwise the entry and its successor are exchanged, the stops are permuted, and the list is refreshed |
| Editor.WaypointEditor.UpdateSummary | src/gui.py:256-262 | returns the same total distance as `Itinerary.TotalDistance` and the same time as `Itinerary.EstimatedTime` for the current list |

## Left out

- `haversine_distance` body (trigonometry, Earth radius 6371 km, rounding to two decimals): floating-point numerics. The distance is the parameter `dist`, constrained only by `IsGreatCircleLike`. The triangle inequality is not assumed.
- Planner.Waypoint.EstimatedTimeHours: does not round to two decimals as `estimated_time_hours` does. The model uses the unrounded quotient, which is what `estimated_time` adds up.
- Floating point in general: latitudes, longitudes, distances, speeds and totals are exact `real`s. Summation order and rounding error are not modelled.
- `format_coords`, `km_to_miles`, the listbox line text and the `:.2f` summary labels: presentation formatting.
- All tkinter widgets: form variables, `toggle_distance_field` (only the entry's read-only state), message boxes, the listbox and the selection re-set after a move (`selection_set`).
- `fetch_elevation` (HTTP), `preview_map` (folium and a browser), `launch_map_server` (thread, subprocess, sleep), and the file-reading part of `load_clicked_point`: I/O.
- `src/map_click_server.py` is not part of this model: a Flask endpoint that serves the click map and writes the clicked coordinates to `click_coords.json`. Network and file I/O.
- `src/export.py` is not part of this model: it writes `to_dict` as JSON, and lays out the waypoints and the totals as a PDF. File I/O.
- Aliasing: the window and an `Itinerary` built for export share one Python list of mutable waypoint objects. The model uses values, so an in-place edit of a waypoint is a replacement of a list entry.
- An uncaught `IndexError` from `del` or a move up past the end becomes the status `OutOfRange` with the list unchanged. The traceback that Tk would log is not modelled.
