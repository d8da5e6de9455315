# Wonder Run route core, in Dafny

Wonder Run suggests a running route near a start address that best matches a goal: a distance,
a duration or a calorie burn. This project models the computational core of its `utils/`
package:

- `utils/calculations.py` (module `Calculations`): the calorie and running-time conversions,
  the longitude normalisation at the end of `destination_point`, and `rank_routes`, which
  scores every route alternative against the goal and picks the best index.
- `utils/api_handler.py` (module `ApiHandler`): `parse_directions_response`, which flattens a
  Google Directions response into one record per route.
- `utils/map_renderer.py` (module `MapRenderer`): `get_waypoints_from_polyline`, which samples
  evenly spaced waypoints from decoded route coordinates, and the two link builders
  `create_google_maps_url` and `create_static_map_url`.

Two helper modules support them: `Wrappers` (`Option`, `Result`) and `Text` (Python's
`sep.join`, splitting on a character as its inverse, and `str()` of an `int`).

Modelling choices:

- Python floats are exact `real`s. Python's float `%` with a positive modulus is
  `a - m * floor(a / m)` (`Calculations.FloorMod`). Python's `//` rounds down
  (`MapRenderer.FloorDiv`).
- `rank_routes` is a method with the source's two steps. The first loop builds the score
  list. The second loop is what `min(range(n), key=...)` does: it replaces the candidate only
  on a strictly smaller key, so the first of equal scores wins. The `ValueError` that `min`
  raises on an empty list becomes `None`.
- The goal is the source's string. `"Distance (km)"` selects the distance and
  `"Duration (minutes)"` the duration. Every other string selects the calories.
- A JSON object of the directions response is a datatype. A key that may be absent is an
  `Option` field, and the parser's defaults (`{}`, `[]`, `0`, `""`) are applied when it is
  `None`. Keys the parser never reads are not represented, so they cannot affect a record.
- Decoding a polyline uses the external `polyline` library. `decode_polyline`'s outcome is
  an input: `Some(coordinates)`, or `None` when the library raises.
- Python's float-to-text formatting inside f-strings is the function parameter `showReal`.
- The `ZeroDivisionError` of `get_waypoints_from_polyline` is `Failure(ZeroDivision)`. It
  happens when `num_waypoints == 1` and there are at least two coordinates.

What the program does, as opposed to what a reader might expect of a route planner:

- The goal is a free string. Only `"Distance (km)"` and `"Duration (minutes)"` are
  recognised; every other string, misspellings included, ranks by calories.
- An empty route list has no dedicated error: `min` raises on the empty range.
- `parse_directions_response` returns raw metres and seconds; no conversion to kilometres
  or minutes happens there.
- There is no candidate generator (turning a goal into a target distance and projecting
  points along evenly spaced bearings) in the modelled files. Of `destination_point` only the
  longitude normalisation is modelled.

## Model

| member | source | states |
|---|---|---|
| Calculations.CaloriesBurned | utils/calculations.py:26-28 | calories are non-negative for a non-negative distance and weight; for a non-zero weight they are zero exactly when the distance is zero |
| Calculations.CaloriesAdditive | utils/calculations.py:26-28 | the calories of a run are the sum of the calories of its two parts |
| Calculations.CaloriesDistanceInverse | utils/calculations.py:26-28 | the distance `kcal / (weight * 1.036)` burns exactly `kcal` (the inverse conversion a calorie goal needs) |
| Calculations.TimeFromSpeed | utils/calculations.py:30-34 | the result is `None` exactly when the speed is at most 0; otherwise minutes times speed equals 60 times the distance, and the time is non-negative for a non-negative distance |
| Calculations.DurationGoalRoundTrip | utils/calculations.py:30-34 | for a positive speed, turning a duration into a distance and back into a time gives the duration again |
| Calculations.FloorMod | utils/calculations.py:24 | Python's float `%` with a positive modulus lies in `[0, m)` and differs from the dividend by a whole multiple of `m` |
| Calculations.NormalizeLongitude | utils/calculations.py:24 | the normalised longitude lies in `[-180, 180)` and differs from the input by a whole number of 360° turns |
| Calculations.NormalizeLongitudeUnique | utils/calculations.py:24 | any longitude in `[-180, 180)` congruent to the input modulo 360 is the normalised one |
| Calculations.NormalizeLongitudeIdentity | utils/calculations.py:24 | a longitude already in `[-180, 180)` is unchanged, so normalising is idempotent |
| Calculations.RankRoutes | utils/calculations.py:36-52 | `None` exactly for an empty list; otherwise an index below the length whose score (deviation of the goal's metric from the target plus `0.01 × duration`) is at most every route's score and strictly below every earlier route's score |
| Calculations.BestIndexUnique | utils/calculations.py:51 | at most one index is the first minimum, so ranking the same input twice gives the same index |
| Calculations.ShorterDurationBreaksTie | utils/calculations.py:47-48 | of two routes with equal deviation, the longer-lasting one is never chosen |
| Calculations.TieBreakBoundsPrimaryLoss | utils/calculations.py:40-49 | the chosen route's deviation exceeds another route's by at most that route's `0.01 × duration` |
| Calculations.ExampleBestIsExactMatch | utils/calculations.py:41-51 | for routes of 4, 5 and 6 km taking 30, 40 and 20 min and a 5 km distance goal, index 1 and only index 1 is the best |
| Calculations.Score | utils/calculations.py:41-48 | a route's score (the deviation of `GoalMetric`, i.e. the distance for `"Distance (km)"`, the duration for `"Duration (minutes)"` and the calories otherwise, plus the tie-breaker) is at least its `0.01 × duration` tie-breaker, at least its deviation when the duration is non-negative, and exactly the tie-breaker when the route meets the target |
| ApiHandler.SumConcat | utils/api_handler.py:28-29 | Python's `sum` over a concatenation is the sum of the two sums |
| ApiHandler.Sum | utils/api_handler.py:28-29 | Python's `sum` of non-negative numbers is non-negative, and of zeros is zero |
| ApiHandler.TotalDistance | utils/api_handler.py:28 | a route's distance is non-negative when every leg's distance value is, and 0 when every leg's value is 0 or absent |
| ApiHandler.TotalDuration | utils/api_handler.py:29 | a route's duration is non-negative when every leg's duration value is, and 0 when every leg's value is 0 or absent |
| ApiHandler.TotalsConcat | utils/api_handler.py:27-29 | route distance and duration totals add up over consecutive stretches of legs |
| ApiHandler.TotalsOfFewLegs | utils/api_handler.py:27-29 | no legs total 0; a single leg totals its value, or 0 when its `distance`/`duration` or their `value` is absent |
| ApiHandler.MissingLegValuesCountZero | utils/api_handler.py:28-29 | inserting a leg without distance and duration values anywhere leaves both totals unchanged |
| ApiHandler.ParseDirectionsResponse | utils/api_handler.py:21-40 | the result is empty unless `status` is "OK"; otherwise it has one record per route in order (none for absent `routes`), record k has `route_index` k, the leg-sum distance and duration, the overview polyline points (or none) and the summary (or "") |
| MapRenderer.FloorDiv | utils/map_renderer.py:68 | Python's `//` rounds down, for positive and for negative divisors |
| MapRenderer.SampleIndexBelowLast | utils/map_renderer.py:68-69 | each sampled index `i * (len // (num_waypoints - 1))` lies before the last coordinate |
| MapRenderer.SampleIndicesInRange | utils/map_renderer.py:68-69 | with more coordinates than waypoints the step is at least 1 and the sampled indices are strictly increasing and below the last index |
| MapRenderer.WaypointsFromPolyline | utils/map_renderer.py:42-72 | a failed decode (`DecodedCoordinates` reads it as no coordinates) and no coordinates give no waypoints; up to `num_waypoints` coordinates are returned unchanged; otherwise, for `num_waypoints >= 2`, exactly `num_waypoints` points starting with the first coordinate and ending with the last; for `num_waypoints <= 0` only the last point; division by zero exactly for `num_waypoints == 1` with two or more coordinates |
| MapRenderer.WaypointsAreInOrderSubsequence | utils/map_renderer.py:64-70 | every successful result picks coordinates at strictly increasing positions: an in-order subsequence of the route |
| MapRenderer.WaypointsEvenlySpaced | utils/map_renderer.py:68-70 | with more coordinates than `num_waypoints >= 2`, `step` satisfies `step × (n−1) <= len < (step+1) × (n−1)`, waypoint k is coordinate `k × step` for every k before the last, and the last waypoint is the last coordinate |
| MapRenderer.GoogleMapsUrl | utils/map_renderer.py:75-99 | the link starts with the directions base, ends with `&travelmode=` and the mode, and without waypoints has exactly the length of base, origin, destination and mode parts |
| MapRenderer.GoogleMapsUrlParts | utils/map_renderer.py:88-99 | the link is base, `&origin=`, `&destination=`, then a waypoint segment, then `&travelmode=`; the segment is empty exactly when there are no waypoints, otherwise it is `&waypoints=` and text that splits on `\|` back into the waypoint texts (`CoordTexts`, one `lat,lng` per waypoint in order) |
| MapRenderer.MarkerParam | utils/map_renderer.py:126-132 | a marker parameter split on `\|` gives back `markers=color:` with the colour (default `red`), `label:` with the label (default empty) and the position, when none of them holds a `\|` |
| MapRenderer.PathParams | utils/map_renderer.py:134-142 | at most one path parameter, present exactly for a non-empty encoded or list path, and starting with the `path=color:0xff8c00\|weight:4\|` style |
| MapRenderer.StaticMapParams | utils/map_renderer.py:118-144 | four fixed parameters, one per marker, the path parameters and the key: `maptype=roadmap` fourth and `key=` last |
| MapRenderer.StaticMapParamsShape | utils/map_renderer.py:117-146 | parameters begin with center, zoom, size and `maptype=roadmap`, end with `key=`, and hold one marker parameter per marker in order, then one path parameter for a non-empty path: the style and `enc:` with the encoding for an encoded path, the style and the `\|`-joined coordinate texts (`CoordTexts`) for a list path, which split on `\|` back into those texts |
| MapRenderer.CreateStaticMapUrl | utils/map_renderer.py:102-146 | the link is the static-map base followed by the parameters, in the source's order, joined with `&`; markers default to colour `red` and an empty label |
| MapRenderer.StaticMapUrlSplitsIntoParams | utils/map_renderer.py:146 | when no parameter holds an `&`, splitting the joined parameters on `&` gives them back |
| Text.Split | utils/map_renderer.py:96 | splitting gives at least one piece and no piece contains the separator |
| Text.SplitJoin | utils/map_renderer.py:96 | splitting the `sep.join` of separator-free parts gives the parts back |
| Text.JoinSplit | utils/map_renderer.py:146 | joining the pieces of a split with the same separator rebuilds the text |
| Text.Join | utils/map_renderer.py:96 | joining no parts gives the empty text, and a join starts with its first part |
| Text.NatText | utils/map_renderer.py:120 | a natural number's text is a non-empty string of decimal digits without a leading zero |
| Text.IntText | utils/map_renderer.py:120 | `str()` of the zoom is non-empty, made of digits and a minus sign, and starts with `-` exactly for a negative number |
| Text.NatTextValue | utils/map_renderer.py:120 | the decimal digits of a natural number, read back, give that number |
| Text.IntTextValue | utils/map_renderer.py:120 | `str()` of an integer, read back with its sign, gives that integer, so distinct zooms give distinct texts |

## Left out

- `haversine_distance` and the spherical trigonometry of `destination_point` (utils/calculations.py:6-23): transcendental floating-point functions (`asin`, `atan2`, `sin`, `cos`) with nothing useful to prove over reals.
- Calculations.NormalizeLongitude: over floats, a tiny negative `lon + 540` makes Python's `%` round to 360.0 and the result 180.0; the model uses exact reals and so states `[-180, 180)`.
- Float rounding in general: distances, durations, scores and calories are exact reals, so `0.01 * duration` and `* 1.036` are exact.
- Calculations.RankRoutes: the weight and speed parameters are accepted and unused, as in the source. A NaN score (which would change what `min` returns) cannot arise over reals.
- `geocode_address`, `get_directions` and `get_weather_by_coords` (utils/api_handler.py): HTTP requests with exceptions swallowed, i.e. network I/O.
- ApiHandler.ParseDirectionsResponse: JSON `null` values and values of the wrong JSON type (a non-object leg, a string `value`) are not representable, so the `AttributeError`/`TypeError` the source would raise on them is not modelled.
- `render_routes_map` (utils/map_renderer.py:6-28): folium map drawing.
- `decode_polyline`'s decoding itself (utils/map_renderer.py:31-45): it is the external `polyline` library; only its "failure gives no coordinates" rule is modelled.
- Python's float-to-text formatting in f-strings: the `showReal` parameter stands for it.
- MapRenderer.CreateStaticMapUrl: a `path` that is neither a string nor a list adds nothing in the source; the datatype admits only the two kinds. A missing `lat`/`lng` in a marker (a `KeyError`) is not representable.
- Default argument values (`num_waypoints=5`, `mode='walking'`, `zoom=14`, `size="400x300"`, `api_key=""`) are ordinary parameters here.
- `app.py`: Streamlit UI, styling, file reading and an inline weather request.
