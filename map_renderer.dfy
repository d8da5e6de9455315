/** Waypoint sampling and map-link assembly of `utils/map_renderer.py`. Decoding an encoded
    polyline is done by an external library: its outcome is an input here (`None` when it
    fails). Formatting a float as text is Python's own business: it is the parameter
    `showReal`. */
module MapRenderer {
  import opened Wrappers
  import opened Text

  /** A `(lat, lng)` pair. */
  datatype LatLng = LatLng(lat: real, lng: real)

  // ---------------------------------------------------------------------------
  // Waypoints
  // ---------------------------------------------------------------------------

  /** `decode_polyline`: the decoded coordinates, with a failed decode read as no coordinates. */
  function DecodedCoordinates(decoded: Option<seq<LatLng>>): seq<LatLng> {
    decoded.GetOr([])
  }

  /** Python's `a // b`, which rounds down also for a negative divisor. */
  function FloorDiv(a: int, b: int): (q: int)
    requires b != 0
    ensures b > 0 ==> q * b <= a < q * b + b
    ensures b < 0 ==> q * b >= a > q * b + b
  {
    if b > 0 then a / b else (-a) / (-b)
  }

  /** The index of the `i`-th evenly spaced waypoint. */
  function SampleIndex(i: int, step: int): int {
    i * step
  }

  /** How many evenly spaced points `range(num_waypoints - 1)` takes. */
  function SampleCount(numWaypoints: int): nat {
    if numWaypoints >= 2 then numWaypoints - 1 else 0
  }

  /** `i * step` grows with `i`. */
  lemma {:induction false} SampleIndexMonotone(i: int, j: int, step: int)
    requires 0 <= i <= j && step >= 0
    ensures SampleIndex(i, step) <= SampleIndex(j, step)
    decreases j - i
  {
    if i < j {
      SampleIndexMonotone(i, j - 1, step);
      assert j * step == (j - 1) * step + step;
    }
  }

  /** One sampled index lies before the last of `n` coordinates when `n` exceeds the
      `d + 1` waypoints asked for and `step` is `n // d`. */
  lemma SampleIndexBelowLast(i: int, d: int, n: int, step: int)
    requires 0 <= i <= d - 1 && n >= d + 2
    requires step >= 1 && step * d <= n
    ensures 0 <= SampleIndex(i, step) < n - 1
  {
    SampleIndexMonotone(0, i, step);
    SampleIndexMonotone(i, d - 1, step);
    assert SampleIndex(d - 1, step) == step * d - step;
  }

  /** With more coordinates than waypoints, the step is at least 1 and every sampled index lies
      before the last coordinate, in increasing order. */
  lemma SampleIndicesInRange(n: nat, numWaypoints: int)
    requires n > numWaypoints && numWaypoints != 1
    ensures var step := FloorDiv(n, numWaypoints - 1);
      && (numWaypoints >= 2 ==> step >= 1)
      && (forall i :: 0 <= i < SampleCount(numWaypoints) ==> 0 <= SampleIndex(i, step) < n - 1)
      && (forall i :: 0 <= i < SampleCount(numWaypoints) - 1 ==>
            SampleIndex(i, step) < SampleIndex(i + 1, step))
  {
    if numWaypoints >= 2 {
      var d := numWaypoints - 1;
      var step := FloorDiv(n, d);
      assert step * d <= n < step * d + d;
      assert step >= 1;
      forall i | 0 <= i < SampleCount(numWaypoints)
        ensures 0 <= SampleIndex(i, step) < n - 1
      {
        SampleIndexBelowLast(i, d, n, step);
      }
      forall i | 0 <= i < SampleCount(numWaypoints) - 1
        ensures SampleIndex(i, step) < SampleIndex(i + 1, step)
      {
        assert (i + 1) * step == i * step + step;
      }
    }
  }

  /** `get_waypoints_from_polyline` over the decoder's outcome: no coordinates give no
      waypoints, at most `numWaypoints` coordinates are kept as they are, and otherwise the
      points at multiples of `len // (numWaypoints - 1)` followed by the last point.
      `Failure` is the division by zero the source hits for `numWaypoints == 1`. */
  function WaypointsFromPolyline(decoded: Option<seq<LatLng>>, numWaypoints: int)
    : (r: Result<seq<LatLng>, ArithmeticError>)
    ensures var coords := DecodedCoordinates(decoded);
      && (r.Failure? <==> numWaypoints == 1 && |coords| > 1)
      && (decoded.None? ==> r == Success([]))
      && (coords == [] ==> r == Success([]))
      && (0 < |coords| <= numWaypoints ==> r == Success(coords))
      && (|coords| > numWaypoints >= 2 ==>
            && r.Success? && |r.value| == numWaypoints
            && r.value[0] == coords[0]
            && r.value[numWaypoints - 1] == coords[|coords| - 1])
      && (|coords| > 0 && numWaypoints <= 0 ==> r == Success([coords[|coords| - 1]]))
  {
    var coords := DecodedCoordinates(decoded);
    if |coords| == 0 then Success([])
    else if |coords| <= numWaypoints then Success(coords)
    else if numWaypoints == 1 then Failure(ZeroDivision)
    else
      var step := FloorDiv(|coords|, numWaypoints - 1);
      var count := SampleCount(numWaypoints);
      SampleIndicesInRange(|coords|, numWaypoints);
      var sampled := seq(count, i requires 0 <= i < count => coords[SampleIndex(i, step)]);
      assert count == 0 ==> sampled + [coords[|coords| - 1]] == [coords[|coords| - 1]];
      Success(sampled + [coords[|coords| - 1]])
  }

  /** The exception Python raises. */
  datatype ArithmeticError = ZeroDivision

  /** `sub` lists elements of `s` at the strictly increasing positions `idx`. */
  ghost predicate PicksInOrder(idx: seq<int>, sub: seq<LatLng>, s: seq<LatLng>) {
    && |idx| == |sub|
    && (forall k :: 0 <= k < |idx| ==> 0 <= idx[k] < |s| && sub[k] == s[idx[k]])
    && (forall k :: 0 <= k < |idx| - 1 ==> idx[k] < idx[k + 1])
  }

  ghost predicate IsInOrderSubsequence(sub: seq<LatLng>, s: seq<LatLng>) {
    exists idx :: PicksInOrder(idx, sub, s)
  }

  /** The waypoints are always coordinates of the route, taken in the route's order, each at
      most once. */
  lemma WaypointsAreInOrderSubsequence(decoded: Option<seq<LatLng>>, numWaypoints: int)
    requires WaypointsFromPolyline(decoded, numWaypoints).Success?
    ensures IsInOrderSubsequence(WaypointsFromPolyline(decoded, numWaypoints).value,
                                 DecodedCoordinates(decoded))
  {
    var coords := DecodedCoordinates(decoded);
    var w := WaypointsFromPolyline(decoded, numWaypoints).value;
    if |coords| == 0 || |coords| <= numWaypoints {
      var idx := seq(|coords|, k => k);
      assert PicksInOrder(idx, w, coords);
    } else {
      var n := |coords|;
      var step := FloorDiv(n, numWaypoints - 1);
      var count := SampleCount(numWaypoints);
      SampleIndicesInRange(n, numWaypoints);
      var idx := seq(count, i => SampleIndex(i, step)) + [n - 1];
      assert |idx| == |w|;
      forall k | 0 <= k < |idx| - 1
        ensures idx[k] < idx[k + 1]
      {
        if k < count - 1 {
          assert idx[k] == SampleIndex(k, step) && idx[k + 1] == SampleIndex(k + 1, step);
        }
      }
      assert PicksInOrder(idx, w, coords);
    }
  }

  /** The waypoints are evenly spaced: with `step` the floor of `len / (num_waypoints - 1)`,
      waypoint k is coordinate `k * step` for every k before the last, and the last waypoint is
      the last coordinate. */
  lemma WaypointsEvenlySpaced(decoded: Option<seq<LatLng>>, numWaypoints: int)
    requires |DecodedCoordinates(decoded)| > numWaypoints >= 2
    ensures var coords := DecodedCoordinates(decoded);
      var w := WaypointsFromPolyline(decoded, numWaypoints).value;
      var step := FloorDiv(|coords|, numWaypoints - 1);
      && step * (numWaypoints - 1) <= |coords| < (step + 1) * (numWaypoints - 1)
      && |w| == numWaypoints
      && (forall k :: 0 <= k < numWaypoints - 1 ==>
            0 <= k * step < |coords| && w[k] == coords[k * step])
      && w[numWaypoints - 1] == coords[|coords| - 1]
  {
    var coords := DecodedCoordinates(decoded);
    var step := FloorDiv(|coords|, numWaypoints - 1);
    SampleIndicesInRange(|coords|, numWaypoints);
    assert (step + 1) * (numWaypoints - 1) == step * (numWaypoints - 1) + (numWaypoints - 1);
    forall k | 0 <= k < numWaypoints - 1
      ensures 0 <= k * step < |coords|
    {
      assert SampleIndex(k, step) == k * step;
    }
  }

  // ---------------------------------------------------------------------------
  // Google Maps directions link
  // ---------------------------------------------------------------------------

  const DIRECTIONS_BASE: string := "https://www.google.com/maps/dir/?api=1"

  /** `f"{lat},{lng}"`. */
  function CoordText(p: LatLng, showReal: real -> string): string {
    showReal(p.lat) + "," + showReal(p.lng)
  }

  /** The text of each point, in order. */
  function CoordTexts(points: seq<LatLng>, showReal: real -> string): seq<string> {
    seq(|points|, k requires 0 <= k < |points| => CoordText(points[k], showReal))
  }

  /** The `&waypoints=` segment: present exactly when there are waypoints. */
  function WaypointSegment(waypoints: Option<seq<LatLng>>, showReal: real -> string): string {
    if waypoints.Some? && |waypoints.value| > 0
    then "&waypoints=" + Join(CoordTexts(waypoints.value, showReal), "|")
    else ""
  }

  /** `create_google_maps_url`: base, origin, destination, the optional waypoints and the
      travel mode, in that order. */
  function GoogleMapsUrl(origin: LatLng, destination: LatLng, waypoints: Option<seq<LatLng>>,
                         mode: string, showReal: real -> string): (url: string)
    ensures |DIRECTIONS_BASE| <= |url| && url[..|DIRECTIONS_BASE|] == DIRECTIONS_BASE
    ensures |"&travelmode=" + mode| <= |url| && url[|url| - |"&travelmode=" + mode|..] == "&travelmode=" + mode
    ensures (waypoints.None? || waypoints.value == []) ==>
              |url| == |DIRECTIONS_BASE| + 8 + |CoordText(origin, showReal)| + 13
                       + |CoordText(destination, showReal)| + 12 + |mode|
  {
    DIRECTIONS_BASE
      + "&origin=" + CoordText(origin, showReal)
      + "&destination=" + CoordText(destination, showReal)
      + WaypointSegment(waypoints, showReal)
      + "&travelmode=" + mode
  }

  /** The link starts with the base, origin and destination and ends with the travel mode;
      what lies between is empty exactly when there are no waypoints, and otherwise is
      `&waypoints=` followed by text that splits on `|` back into the waypoints' texts
      (as long as no coordinate text holds a `|`). */
  lemma GoogleMapsUrlParts(origin: LatLng, destination: LatLng, waypoints: Option<seq<LatLng>>,
                           mode: string, showReal: real -> string)
    ensures var url := GoogleMapsUrl(origin, destination, waypoints, mode, showReal);
      var head := DIRECTIONS_BASE + "&origin=" + CoordText(origin, showReal)
                  + "&destination=" + CoordText(destination, showReal);
      var tail := "&travelmode=" + mode;
      && |head| + |tail| <= |url|
      && url[..|head|] == head
      && url[|url| - |tail|..] == tail
      && var middle := url[|head|..|url| - |tail|];
      && (middle == "" <==> waypoints.None? || waypoints.value == [])
      && (middle != "" ==>
            && |middle| >= 11 && middle[..11] == "&waypoints="
            && ((forall k :: 0 <= k < |waypoints.value| ==> '|' !in CoordText(waypoints.value[k], showReal))
                ==> Split(middle[11..], '|') == CoordTexts(waypoints.value, showReal)))
  {
    var url := GoogleMapsUrl(origin, destination, waypoints, mode, showReal);
    var head := DIRECTIONS_BASE + "&origin=" + CoordText(origin, showReal)
                + "&destination=" + CoordText(destination, showReal);
    var tail := "&travelmode=" + mode;
    var middle := WaypointSegment(waypoints, showReal);
    assert url == head + middle + tail;
    assert url[..|head|] == head;
    assert url[|url| - |tail|..] == tail;
    assert url[|head|..|url| - |tail|] == middle;
    if middle != "" {
      var texts := CoordTexts(waypoints.value, showReal);
      assert middle[11..] == Join(texts, "|");
      if forall k :: 0 <= k < |waypoints.value| ==> '|' !in CoordText(waypoints.value[k], showReal) {
        SplitJoin(texts, '|');
      }
    }
  }

  // ---------------------------------------------------------------------------
  // Google Static Maps link
  // ---------------------------------------------------------------------------

  const STATIC_MAP_BASE: string := "https://maps.googleapis.com/maps/api/staticmap?"

  /** A marker dict: `lat` and `lng` are required, `label` (here `labelText`, since `label` is a
      Dafny keyword) and `color` optional. */
  datatype Marker = Marker(lat: real, lng: real, labelText: Option<string>, color: Option<string>)

  /** A path is an encoded polyline (a `str`) or a list of coordinates. */
  datatype MapPath = EncodedPath(encoded: string) | PointPath(points: seq<LatLng>)

  /** The four parameters every static map link starts with. */
  function HeaderParams(center: LatLng, zoom: int, size: string, showReal: real -> string): seq<string> {
    ["center=" + CoordText(center, showReal), "zoom=" + IntText(zoom), "size=" + size, "maptype=roadmap"]
  }

  /** The style prefix of every `path=` parameter. */
  const PATH_STYLE: string := "path=color:0xff8c00|weight:4|"

  /** One `markers=` parameter, with colour `red` and an empty label when absent. Split on `|`,
      it gives back the colour, the label and the position, as long as none holds a `|`. */
  function MarkerParam(m: Marker, showReal: real -> string): (param: string)
    ensures '|' !in m.color.GetOr("red") && '|' !in m.labelText.GetOr("")
            && '|' !in showReal(m.lat) + "," + showReal(m.lng) ==>
              Split(param, '|') == ["markers=color:" + m.color.GetOr("red"),
                                    "label:" + m.labelText.GetOr(""),
                                    showReal(m.lat) + "," + showReal(m.lng)]
  {
    var parts := ["markers=color:" + m.color.GetOr("red"), "label:" + m.labelText.GetOr(""),
                  showReal(m.lat) + "," + showReal(m.lng)];
    var text := "markers=color:" + m.color.GetOr("red") + "|label:" + m.labelText.GetOr("") + "|"
                + showReal(m.lat) + "," + showReal(m.lng);
    assert parts[1..][1..] == [parts[2]];
    assert Join(parts[1..], "|") == parts[1] + "|" + parts[2];
    assert Join(parts, "|") == parts[0] + "|" + (parts[1] + "|" + parts[2]) == text;
    if forall k :: 0 <= k < 3 ==> '|' !in parts[k] then
      SplitJoin(parts, '|'); text
    else
      text
  }

  /** The `path=` parameter, if the path is present and not empty. */
  function PathParams(path: Option<MapPath>, showReal: real -> string): (params: seq<string>)
    ensures |params| <= 1
    ensures |params| == 1 <==> path.Some? && (match path.value
                                              case EncodedPath(e) => e != ""
                                              case PointPath(pts) => pts != [])
    ensures |params| == 1 ==> |PATH_STYLE| <= |params[0]| && params[0][..|PATH_STYLE|] == PATH_STYLE
  {
    match path
    case None => []
    case Some(EncodedPath(e)) =>
      if e == "" then [] else [PATH_STYLE + "enc:" + e]
    case Some(PointPath(ps)) =>
      if ps == [] then [] else [PATH_STYLE + Join(CoordTexts(ps, showReal), "|")]
  }

  /** The parameters of a static map link, in the order the source appends them. */
  function StaticMapParams(center: LatLng, zoom: int, size: string, markers: Option<seq<Marker>>,
                           path: Option<MapPath>, apiKey: string, showReal: real -> string)
    : (params: seq<string>)
    ensures |params| == 4 + |markers.GetOr([])| + |PathParams(path, showReal)| + 1
    ensures params[3] == "maptype=roadmap" && params[|params| - 1] == "key=" + apiKey
  {
    var ms := markers.GetOr([]);
    HeaderParams(center, zoom, size, showReal)
      + seq(|ms|, k requires 0 <= k < |ms| => MarkerParam(ms[k], showReal))
      + PathParams(path, showReal)
      + ["key=" + apiKey]
  }

  /** The fixed parameters come first and the key last; between them one marker parameter per
      marker, in order, then at most one path parameter, carrying `enc:` for an encoded path. */
  lemma StaticMapParamsShape(center: LatLng, zoom: int, size: string, markers: Option<seq<Marker>>,
                             path: Option<MapPath>, apiKey: string, showReal: real -> string)
    ensures var ps := StaticMapParams(center, zoom, size, markers, path, apiKey, showReal);
      var ms := markers.GetOr([]);
      var hasPath := match path
                     case None => false
                     case Some(EncodedPath(e)) => e != ""
                     case Some(PointPath(pts)) => pts != [];
      && |ps| == 4 + |ms| + (if hasPath then 1 else 0) + 1
      && ps[0] == "center=" + CoordText(center, showReal)
      && ps[1] == "zoom=" + IntText(zoom)
      && ps[2] == "size=" + size
      && ps[3] == "maptype=roadmap"
      && (forall k :: 0 <= k < |ms| ==> ps[4 + k] == MarkerParam(ms[k], showReal))
      && (hasPath && path.value.EncodedPath? ==>
            ps[4 + |ms|] == PATH_STYLE + "enc:" + path.value.encoded)
      && (hasPath && path.value.PointPath? ==>
            && ps[4 + |ms|] == PATH_STYLE + Join(CoordTexts(path.value.points, showReal), "|")
            && ((forall k :: 0 <= k < |path.value.points| ==>
                   '|' !in CoordText(path.value.points[k], showReal))
                ==> Split(ps[4 + |ms|][|PATH_STYLE|..], '|') == CoordTexts(path.value.points, showReal)))
      && ps[|ps| - 1] == "key=" + apiKey
  {
    var ms := markers.GetOr([]);
    var ps := StaticMapParams(center, zoom, size, markers, path, apiKey, showReal);
    if path.Some? && path.value.PointPath? && path.value.points != [] {
      var texts := CoordTexts(path.value.points, showReal);
      assert ps[4 + |ms|] == PATH_STYLE + Join(texts, "|");
      assert ps[4 + |ms|][|PATH_STYLE|..] == Join(texts, "|");
      if forall k :: 0 <= k < |path.value.points| ==> '|' !in CoordText(path.value.points[k], showReal) {
        SplitJoin(texts, '|');
      }
    }
  }

  /** `create_static_map_url`: the base followed by the parameters joined with `&`. The marker
      parameters are appended one by one as the source does. */
  method CreateStaticMapUrl(center: LatLng, zoom: int, size: string, markers: Option<seq<Marker>>,
                            path: Option<MapPath>, apiKey: string, showReal: real -> string)
    returns (url: string)
    ensures url == STATIC_MAP_BASE + Join(StaticMapParams(center, zoom, size, markers, path, apiKey, showReal), "&")
  {
    var params := HeaderParams(center, zoom, size, showReal);
    var ms := markers.GetOr([]);
    for i := 0 to |ms|
      invariant params == HeaderParams(center, zoom, size, showReal)
                          + seq(i, k requires 0 <= k < i => MarkerParam(ms[k], showReal))
    {
      var marker := ms[i];
      var color := marker.color.GetOr("red");
      var markerLabel := marker.labelText.GetOr("");
      params := params + ["markers=color:" + color + "|label:" + markerLabel + "|"
                          + showReal(marker.lat) + "," + showReal(marker.lng)];
    }
    params := params + PathParams(path, showReal);
    params := params + ["key=" + apiKey];
    url := STATIC_MAP_BASE + Join(params, "&");
  }

  /** When no parameter holds an `&`, splitting the text after the base on `&` gives the
      parameters back. */
  lemma StaticMapUrlSplitsIntoParams(center: LatLng, zoom: int, size: string,
                                     markers: Option<seq<Marker>>, path: Option<MapPath>,
                                     apiKey: string, showReal: real -> string)
    requires var ps := StaticMapParams(center, zoom, size, markers, path, apiKey, showReal);
      forall k :: 0 <= k < |ps| ==> '&' !in ps[k]
    ensures var ps := StaticMapParams(center, zoom, size, markers, path, apiKey, showReal);
      Split(Join(ps, "&"), '&') == ps
  {
    SplitJoin(StaticMapParams(center, zoom, size, markers, path, apiKey, showReal), '&');
  }
}
