/** `parse_directions_response` of `utils/api_handler.py`: a Google Directions response,
    read as JSON, flattened into one record per route. A JSON object key that may be absent is
    an `Option` field; keys the parser never reads are not represented. */
module ApiHandler {
  import opened Wrappers

  /** A `{"value": …}` object of a leg: metres for a distance, seconds for a duration. */
  datatype Quantity = Quantity(value: Option<int>)

  datatype Leg = Leg(distance: Option<Quantity>, duration: Option<Quantity>)

  datatype OverviewPolyline = OverviewPolyline(points: Option<string>)

  datatype RouteJson = RouteJson(legs: Option<seq<Leg>>,
                                 overviewPolyline: Option<OverviewPolyline>,
                                 summary: Option<string>)

  datatype DirectionsJson = DirectionsJson(status: Option<string>, routes: Option<seq<RouteJson>>)

  /** The flat record the parser produces for one route. */
  datatype RouteRecord = RouteRecord(routeIndex: nat, distanceM: int, durationS: int,
                                     polyline: Option<string>, summary: string)

  const STATUS_OK: string := "OK"

  /** `q.get("value", 0)` of an optional quantity, with an absent object read as `{}`. */
  function QuantityValue(q: Option<Quantity>): int {
    match q
    case None => 0
    case Some(x) => x.value.GetOr(0)
  }

  /** Python's `sum`: adds the elements from the left. */
  function Sum(xs: seq<int>): (total: int)
    ensures (forall i :: 0 <= i < |xs| ==> xs[i] >= 0) ==> total >= 0
    ensures (forall i :: 0 <= i < |xs| ==> xs[i] == 0) ==> total == 0
  {
    if |xs| == 0 then 0 else Sum(xs[..|xs| - 1]) + xs[|xs| - 1]
  }

  lemma {:induction false} SumConcat(xs: seq<int>, ys: seq<int>)
    ensures Sum(xs + ys) == Sum(xs) + Sum(ys)
    decreases |ys|
  {
    if |ys| == 0 {
      assert xs + ys == xs;
    } else {
      assert (xs + ys)[..|xs + ys| - 1] == xs + ys[..|ys| - 1];
      SumConcat(xs, ys[..|ys| - 1]);
    }
  }

  /** The total distance of a route in metres: the sum of its legs' distance values. */
  function TotalDistance(legs: seq<Leg>): (metres: int)
    ensures (forall i :: 0 <= i < |legs| ==> QuantityValue(legs[i].distance) >= 0) ==> metres >= 0
    ensures (forall i :: 0 <= i < |legs| ==> QuantityValue(legs[i].distance) == 0) ==> metres == 0
  {
    Sum(seq(|legs|, i requires 0 <= i < |legs| => QuantityValue(legs[i].distance)))
  }

  /** The total duration of a route in seconds: the sum of its legs' duration values. */
  function TotalDuration(legs: seq<Leg>): (seconds: int)
    ensures (forall i :: 0 <= i < |legs| ==> QuantityValue(legs[i].duration) >= 0) ==> seconds >= 0
    ensures (forall i :: 0 <= i < |legs| ==> QuantityValue(legs[i].duration) == 0) ==> seconds == 0
  {
    Sum(seq(|legs|, i requires 0 <= i < |legs| => QuantityValue(legs[i].duration)))
  }

  /** Route totals add up over consecutive stretches of legs. */
  lemma TotalsConcat(a: seq<Leg>, b: seq<Leg>)
    ensures TotalDistance(a + b) == TotalDistance(a) + TotalDistance(b)
    ensures TotalDuration(a + b) == TotalDuration(a) + TotalDuration(b)
  {
    var da := seq(|a|, i requires 0 <= i < |a| => QuantityValue(a[i].distance));
    var db := seq(|b|, i requires 0 <= i < |b| => QuantityValue(b[i].distance));
    assert seq(|a + b|, i requires 0 <= i < |a + b| => QuantityValue((a + b)[i].distance)) == da + db;
    SumConcat(da, db);
    var ta := seq(|a|, i requires 0 <= i < |a| => QuantityValue(a[i].duration));
    var tb := seq(|b|, i requires 0 <= i < |b| => QuantityValue(b[i].duration));
    assert seq(|a + b|, i requires 0 <= i < |a + b| => QuantityValue((a + b)[i].duration)) == ta + tb;
    SumConcat(ta, tb);
  }

  /** A route with no legs has length and duration zero, and a single leg contributes its
      values, an absent distance or duration (or an absent `value`) contributing 0. */
  lemma TotalsOfFewLegs(leg: Leg)
    ensures TotalDistance([]) == 0 && TotalDuration([]) == 0
    ensures TotalDistance([leg]) == (if leg.distance.Some? && leg.distance.value.value.Some?
                                     then leg.distance.value.value.value else 0)
    ensures TotalDuration([leg]) == (if leg.duration.Some? && leg.duration.value.value.Some?
                                     then leg.duration.value.value.value else 0)
  {
    var ds := seq(1, i requires 0 <= i < 1 => QuantityValue([leg][i].distance));
    assert ds[..0] == [];
    var ts := seq(1, i requires 0 <= i < 1 => QuantityValue([leg][i].duration));
    assert ts[..0] == [];
  }

  /** A leg whose distance or duration is absent changes the route's totals by nothing. */
  lemma MissingLegValuesCountZero(before: seq<Leg>, leg: Leg, after: seq<Leg>)
    requires leg.distance.None? || leg.distance.value.value.None?
    requires leg.duration.None? || leg.duration.value.value.None?
    ensures TotalDistance(before + [leg] + after) == TotalDistance(before + after)
    ensures TotalDuration(before + [leg] + after) == TotalDuration(before + after)
  {
    TotalsConcat(before + [leg], after);
    TotalsConcat(before, [leg]);
    TotalsConcat(before, after);
    TotalsOfFewLegs(leg);
  }

  /** The routes of the response, an absent `routes` read as `[]`. */
  function RoutesOf(json: DirectionsJson): seq<RouteJson> {
    json.routes.GetOr([])
  }

  /** The legs of a route, an absent `legs` read as `[]`. */
  function LegsOf(r: RouteJson): seq<Leg> {
    r.legs.GetOr([])
  }

  /** `r.get("overview_polyline", {}).get("points")`. */
  function PolylineOf(r: RouteJson): Option<string> {
    match r.overviewPolyline
    case None => None
    case Some(p) => p.points
  }

  /** `parse_directions_response`: nothing unless the status is "OK"; otherwise one record per
      route, in order, numbered from 0, with the leg totals, the overview polyline and the
      summary (defaulting to ""). */
  method ParseDirectionsResponse(json: DirectionsJson) returns (records: seq<RouteRecord>)
    ensures json.status != Some(STATUS_OK) ==> records == []
    ensures json.status == Some(STATUS_OK) ==> |records| == |RoutesOf(json)|
    ensures forall k :: 0 <= k < |records| ==>
              && k < |RoutesOf(json)|
              && records[k].routeIndex == k
              && records[k].distanceM == TotalDistance(LegsOf(RoutesOf(json)[k]))
              && records[k].durationS == TotalDuration(LegsOf(RoutesOf(json)[k]))
              && records[k].polyline == PolylineOf(RoutesOf(json)[k])
              && records[k].summary == RoutesOf(json)[k].summary.GetOr("")
  {
    records := [];
    if json.status != Some(STATUS_OK) {
      return;
    }
    var routes := RoutesOf(json);
    for idx := 0 to |routes|
      invariant |records| == idx
      invariant forall k :: 0 <= k < idx ==>
                  && records[k].routeIndex == k
                  && records[k].distanceM == TotalDistance(LegsOf(routes[k]))
                  && records[k].durationS == TotalDuration(LegsOf(routes[k]))
                  && records[k].polyline == PolylineOf(routes[k])
                  && records[k].summary == routes[k].summary.GetOr("")
    {
      var r := routes[idx];
      var legs := LegsOf(r);
      var totalDistance := TotalDistance(legs);
      var totalDuration := TotalDuration(legs);
      var overviewPoly := PolylineOf(r);
      var summary := r.summary.GetOr("");
      records := records + [RouteRecord(idx, totalDistance, totalDuration, overviewPoly, summary)];
    }
  }
}
