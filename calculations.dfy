/** Unit conversions, longitude normalisation and route ranking of `utils/calculations.py`.
    Python floats are modelled as exact reals. */
module Calculations {
  import opened Wrappers

  // ---------------------------------------------------------------------------
  // Unit conversions
  // ---------------------------------------------------------------------------

  /** Energy spent running, in kcal per kilometre per kilogram of body weight. */
  const KCAL_PER_KM_PER_KG: real := 1.036

  /** `calculate_calories`: the estimated energy of running `distanceKm` at body weight `weightKg`. */
  function CaloriesBurned(distanceKm: real, weightKg: real): (kcal: real)
    ensures distanceKm >= 0.0 && weightKg >= 0.0 ==> kcal >= 0.0
    ensures weightKg != 0.0 ==> (kcal == 0.0 <==> distanceKm == 0.0)
  {
    distanceKm * weightKg * KCAL_PER_KM_PER_KG
  }

  /** Calories are additive over the pieces of a run. */
  lemma CaloriesAdditive(d1: real, d2: real, weightKg: real)
    ensures CaloriesBurned(d1 + d2, weightKg) == CaloriesBurned(d1, weightKg) + CaloriesBurned(d2, weightKg)
  {
  }

  /** A calorie target is met by the distance `kcal / (weightKg * 1.036)`. */
  lemma CaloriesDistanceInverse(kcal: real, weightKg: real)
    requires weightKg != 0.0
    ensures CaloriesBurned(kcal / (weightKg * KCAL_PER_KM_PER_KG), weightKg) == kcal
  {
  }

  /** `calculate_time_from_speed`: minutes needed for `distanceKm` at `speedKmh`, or `None`
      when the speed is not positive. */
  function TimeFromSpeed(distanceKm: real, speedKmh: real): (minutes: Option<real>)
    ensures minutes.None? <==> speedKmh <= 0.0
    ensures minutes.Some? ==> minutes.value * speedKmh == distanceKm * 60.0
    ensures minutes.Some? && distanceKm >= 0.0 ==> minutes.value >= 0.0
  {
    if speedKmh <= 0.0 then None
    else
      var hours := distanceKm / speedKmh;
      Some(hours * 60.0)
  }

  /** A duration goal turned into a distance at speed `speedKmh`, then back into a time at the
      same speed, is the duration goal again. */
  lemma DurationGoalRoundTrip(targetMin: real, speedKmh: real)
    requires speedKmh > 0.0
    ensures TimeFromSpeed(targetMin / 60.0 * speedKmh, speedKmh) == Some(targetMin)
  {
    var minutes := TimeFromSpeed(targetMin / 60.0 * speedKmh, speedKmh).value;
    assert minutes * speedKmh == targetMin * speedKmh;
  }

  // ---------------------------------------------------------------------------
  // Longitude normalisation (the last step of `destination_point`)
  // ---------------------------------------------------------------------------

  /** `x` is a whole number. */
  predicate IsWhole(x: real) {
    x.Floor as real == x
  }

  /** Python's `a % m` on floats for a positive modulus: the remainder has the sign of `m`. */
  function FloorMod(a: real, m: real): (r: real)
    requires m > 0.0
    ensures 0.0 <= r < m
    ensures IsWhole((a - r) / m)
  {
    var q := (a / m).Floor;
    var frac := a / m - q as real;
    assert 0.0 <= frac < 1.0;
    assert m * frac < m by {
      assert m * (1.0 - frac) > 0.0;
    }
    assert (a - m * frac) / m == q as real;
    m * frac
  }

  /** `(lon + 540) % 360 - 180`: the longitude brought into [-180, 180). */
  function NormalizeLongitude(lon: real): (r: real)
    ensures -180.0 <= r < 180.0
    ensures IsWhole((lon - r) / 360.0)
  {
    var r := FloorMod(lon + 540.0, 360.0) - 180.0;
    var k := ((lon + 540.0 - (r + 180.0)) / 360.0).Floor;
    assert (lon - r) / 360.0 == k as real - 1.0;
    assert ((lon - r) / 360.0).Floor == k - 1;
    r
  }

  /** Only one longitude in [-180, 180) differs from `lon` by a whole number of turns:
      the normalised one. */
  lemma NormalizeLongitudeUnique(lon: real, r: real)
    requires -180.0 <= r < 180.0
    requires IsWhole((lon - r) / 360.0)
    ensures r == NormalizeLongitude(lon)
  {
    var n := NormalizeLongitude(lon);
    var k1 := ((lon - n) / 360.0).Floor;
    var k2 := ((lon - r) / 360.0).Floor;
    assert lon - n == 360.0 * k1 as real;
    assert lon - r == 360.0 * k2 as real;
    assert n - r == 360.0 * (k2 - k1) as real;
    assert -1 < k2 - k1 < 1;
  }

  /** A longitude already in [-180, 180) is left as it is; in particular normalising twice
      is normalising once. */
  lemma NormalizeLongitudeIdentity(lon: real)
    requires -180.0 <= lon < 180.0
    ensures NormalizeLongitude(lon) == lon
  {
    assert (lon - lon) / 360.0 == 0.0;
    NormalizeLongitudeUnique(lon, lon);
  }

  // ---------------------------------------------------------------------------
  // Route ranking
  // ---------------------------------------------------------------------------

  /** The per-route figures `rank_routes` reads: `distance_km`, `duration_min`, `calories`. */
  datatype RouteMetrics = RouteMetrics(distanceKm: real, durationMin: real, calories: real)

  const DISTANCE_GOAL: string := "Distance (km)"
  const DURATION_GOAL: string := "Duration (minutes)"

  /** Weight of the duration tie-breaker, per minute. */
  const TIE_BREAK_PER_MIN: real := 0.01

  function Abs(x: real): real {
    if x < 0.0 then -x else x
  }

  /** The figure of the route the goal is stated in; every goal that is neither the distance
      nor the duration goal is read as a calorie goal. */
  function GoalMetric(r: RouteMetrics, goalType: string): real {
    if goalType == DISTANCE_GOAL then r.distanceKm
    else if goalType == DURATION_GOAL then r.durationMin
    else r.calories
  }

  /** How far the route misses the target. */
  function Deviation(r: RouteMetrics, goalType: string, target: real): real {
    Abs(GoalMetric(r, goalType) - target)
  }

  /** The score `rank_routes` gives a route: its deviation plus the duration tie-breaker. */
  function Score(r: RouteMetrics, goalType: string, target: real): (s: real)
    ensures s >= r.durationMin * TIE_BREAK_PER_MIN
    ensures r.durationMin >= 0.0 ==> s >= Deviation(r, goalType, target)
    ensures GoalMetric(r, goalType) == target ==> s == r.durationMin * TIE_BREAK_PER_MIN
  {
    Deviation(r, goalType, target) + r.durationMin * TIE_BREAK_PER_MIN
  }

  /** `best` is the first index of a route with the least score. */
  ghost predicate IsBestIndex(routes: seq<RouteMetrics>, goalType: string, target: real, best: int) {
    && 0 <= best < |routes|
    && (forall j :: 0 <= j < |routes| ==>
          Score(routes[best], goalType, target) <= Score(routes[j], goalType, target))
    && (forall j :: 0 <= j < best ==>
          Score(routes[best], goalType, target) < Score(routes[j], goalType, target))
  }

  /** `rank_routes`: the index of the best-scoring route, the first one on a tie; `None` where
      the source raises because `min` gets an empty range. The weight and speed are taken as
      the source takes them and do not affect the result. */
  method RankRoutes(routes: seq<RouteMetrics>, goalType: string, targetValue: real,
                    weightKg: real, speedKmh: real)
    returns (best: Option<nat>)
    ensures best.None? <==> |routes| == 0
    ensures best.Some? ==> IsBestIndex(routes, goalType, targetValue, best.value)
  {
    var scores: seq<real> := [];
    for i := 0 to |routes|
      invariant |scores| == i
      invariant forall k :: 0 <= k < i ==> scores[k] == Score(routes[k], goalType, targetValue)
    {
      var r := routes[i];
      var score: real;
      if goalType == DISTANCE_GOAL {
        score := Abs(r.distanceKm - targetValue);
      } else if goalType == DURATION_GOAL {
        score := Abs(r.durationMin - targetValue);
      } else {
        score := Abs(r.calories - targetValue);
      }
      score := score + r.durationMin * TIE_BREAK_PER_MIN;
      scores := scores + [score];
    }
    if |scores| == 0 {
      return None;
    }
    // `min(range(len(scores)), key=...)` keeps the first of equal keys
    var bestIndex := 0;
    for i := 1 to |scores|
      invariant 0 <= bestIndex < i
      invariant forall j :: 0 <= j < i ==> scores[bestIndex] <= scores[j]
      invariant forall j :: 0 <= j < bestIndex ==> scores[bestIndex] < scores[j]
    {
      if scores[i] < scores[bestIndex] {
        bestIndex := i;
      }
    }
    best := Some(bestIndex);
  }

  /** Ranking is deterministic: at most one index is the best. */
  lemma BestIndexUnique(routes: seq<RouteMetrics>, goalType: string, target: real, b1: int, b2: int)
    requires IsBestIndex(routes, goalType, target, b1)
    requires IsBestIndex(routes, goalType, target, b2)
    ensures b1 == b2
  {
    var s1 := Score(routes[b1], goalType, target);
    var s2 := Score(routes[b2], goalType, target);
    assert s1 <= s2 && s2 <= s1;
    assert b1 < b2 ==> s2 < s1;
    assert b2 < b1 ==> s1 < s2;
  }

  /** Among routes that miss the target equally, a longer one is never chosen over a shorter. */
  lemma ShorterDurationBreaksTie(routes: seq<RouteMetrics>, goalType: string, target: real,
                                 best: int, i: int, j: int)
    requires IsBestIndex(routes, goalType, target, best)
    requires 0 <= i < |routes| && 0 <= j < |routes|
    requires Deviation(routes[i], goalType, target) == Deviation(routes[j], goalType, target)
    requires routes[i].durationMin < routes[j].durationMin
    ensures best != j
  {
    assert Score(routes[i], goalType, target) < Score(routes[j], goalType, target);
  }

  /** The tie-breaker costs the chosen route at most the other route's tie-breaker on the
      primary goal: the best route's deviation exceeds no route's deviation by more than
      `0.01 * duration` of that route. */
  lemma TieBreakBoundsPrimaryLoss(routes: seq<RouteMetrics>, goalType: string, target: real,
                                  best: int, j: int)
    requires IsBestIndex(routes, goalType, target, best)
    requires 0 <= j < |routes|
    requires routes[best].durationMin >= 0.0
    ensures Deviation(routes[best], goalType, target)
              <= Deviation(routes[j], goalType, target) + routes[j].durationMin * TIE_BREAK_PER_MIN
  {
    assert Score(routes[best], goalType, target) <= Score(routes[j], goalType, target);
  }

  /** Three routes against a 5 km distance goal: 4 km in 30 min, 5 km in 40 min, 6 km in 20 min. */
  function ExampleRoutes(): seq<RouteMetrics> {
    [RouteMetrics(4.0, 30.0, 0.0), RouteMetrics(5.0, 40.0, 0.0), RouteMetrics(6.0, 20.0, 0.0)]
  }

  /** The exact 5 km route wins (scores 1.3, 0.4 and 1.2): the tie-breaker does not overturn
      an exact match. */
  lemma ExampleBestIsExactMatch(best: int)
    ensures IsBestIndex(ExampleRoutes(), DISTANCE_GOAL, 5.0, best) <==> best == 1
  {
    var rs := ExampleRoutes();
    assert Score(rs[0], DISTANCE_GOAL, 5.0) == 1.3;
    assert Score(rs[1], DISTANCE_GOAL, 5.0) == 0.4;
    assert Score(rs[2], DISTANCE_GOAL, 5.0) == 1.2;
    if best == 1 {
      assert IsBestIndex(rs, DISTANCE_GOAL, 5.0, 1);
    } else if IsBestIndex(rs, DISTANCE_GOAL, 5.0, best) {
      BestIndexUnique(rs, DISTANCE_GOAL, 5.0, best, 1);
    }
  }
}
