/**
 * sample_route and interpolate (simulator/logitrack_sim/route.py) over the reals.
 * `distance` stands for the haversine: any non-negative length that is zero only between
 * equal points.
 */
module RouteSampling {
  import opened Common

  datatype Point = Point(lat: real, lon: real)

  ghost predicate IsDistance(distance: (Point, Point) -> real) {
    forall a, b {:trigger distance(a, b)} :: distance(a, b) >= 0.0 && (distance(a, b) == 0.0 <==> a == b)
  }

  function Segments(route: seq<Point>, distance: (Point, Point) -> real): (s: seq<real>)
    requires |route| >= 1
    ensures |s| == |route| - 1
    ensures forall i :: 0 <= i < |s| ==> s[i] == distance(route[i], route[i + 1])
  {
    seq(|route| - 1, i requires 0 <= i < |route| - 1 => distance(route[i], route[i + 1]))
  }

  predicate NonNegative(s: seq<real>) { forall i :: 0 <= i < |s| ==> s[i] >= 0.0 }

  /** Length of the first n segments. */
  function Covered(s: seq<real>, n: nat): real
    requires n <= |s|
  {
    if n == 0 then 0.0 else Covered(s, n - 1) + s[n - 1]
  }

  function Total(s: seq<real>): real { Covered(s, |s|) }

  function Target(s: seq<real>, step: nat, steps: nat): real
    requires steps > 0
  {
    Total(s) * step as real / steps as real
  }

  /** Independent search from the start: the first segment whose end reaches the target, else the last one. */
  function Locate(s: seq<real>, target: real, from: nat): (j: nat)
    requires from < |s|
    ensures from <= j < |s|
    decreases |s| - from
  {
    if from < |s| - 1 && Covered(s, from) + s[from] < target then Locate(s, target, from + 1) else from
  }

  function Along(a: Point, b: Point, ratio: real): Point {
    Point(a.lat + (b.lat - a.lat) * ratio, a.lon + (b.lon - a.lon) * ratio)
  }

  /** How far into segment j the target lies; a zero-length segment counts as walked. */
  function Ratio(s: seq<real>, j: nat, target: real): real
    requires j < |s|
  {
    if s[j] == 0.0 then 1.0 else (target - Covered(s, j)) / s[j]
  }

  /** The point at arc length `target`, found from scratch. */
  function PointAt(route: seq<Point>, s: seq<real>, target: real): Point
    requires |s| >= 1 && |route| == |s| + 1
  {
    var j := Locate(s, target, 0);
    Along(route[j], route[j + 1], Ratio(s, j, target))
  }

  // ---------------------------------------------------------------- arithmetic

  lemma {:induction false} CoveredMonotone(s: seq<real>, i: nat, j: nat)
    requires NonNegative(s) && i <= j <= |s|
    ensures 0.0 <= Covered(s, i) <= Covered(s, j)
  {
    if i < j {
      CoveredMonotone(s, i, j - 1);
    } else if i > 0 {
      CoveredMonotone(s, i - 1, i - 1);
    }
  }

  lemma MulMonotone(a: real, b: real, c: real)
    requires a <= b && c >= 0.0
    ensures a * c <= b * c
    ensures a < b && c > 0.0 ==> a * c < b * c
  {
    assert (b - a) * c >= 0.0;
  }

  lemma DivMonotone(x: real, y: real, d: real)
    requires d > 0.0 && x < y
    ensures x / d < y / d
  {
    assert 1.0 / d > 0.0;
    MulMonotone(x, y, 1.0 / d);
    assert x / d == x * (1.0 / d) && y / d == y * (1.0 / d);
  }

  lemma FractionsIncrease(t: real, a: nat, b: nat, n: nat)
    requires t > 0.0 && a < b && n > 0
    ensures t * a as real / n as real < t * b as real / n as real
  {
    MulMonotone(a as real, b as real, t);
    DivMonotone(t * a as real, t * b as real, n as real);
  }

  /** Targets are positive, strictly increase with the step, and end at the whole length. */
  lemma TargetsIncrease(s: seq<real>, step: nat, steps: nat)
    requires Total(s) > 0.0 && 1 <= step <= steps
    ensures Target(s, step - 1, steps) < Target(s, step, steps) <= Total(s)
    ensures Target(s, step, steps) > 0.0
    ensures Target(s, steps, steps) == Total(s)
  {
    hide Total;
    var t := Total(s);
    FractionsIncrease(t, step - 1, step, steps);
    FractionsIncrease(t, 0, step, steps);
    assert t * 0 as real / steps as real == 0.0;
    WholeFraction(t, steps);
    if step < steps { FractionsIncrease(t, step, steps, steps); }
  }

  lemma WholeFraction(t: real, n: nat)
    requires n > 0
    ensures t * n as real / n as real == t
  {
  }

  // ---------------------------------------------------------------- the search

  /** Searching on from any segment the target lies beyond finds the same segment as searching from 0. */
  lemma {:induction false} LocateFrom(s: seq<real>, target: real, from: nat)
    requires NonNegative(s) && from < |s| && (from > 0 ==> Covered(s, from) < target)
    ensures Locate(s, target, 0) == Locate(s, target, from)
  {
    if from > 0 {
      CoveredMonotone(s, from - 1, from);
      LocateFrom(s, target, from - 1);
    }
  }

  /** The located segment contains the target: it starts before it and reaches it. */
  lemma {:induction false} LocateBrackets(s: seq<real>, target: real, from: nat)
    requires NonNegative(s) && from < |s| && 0.0 < target <= Total(s) && Covered(s, from) < target
    ensures var j := Locate(s, target, from); Covered(s, j) < target <= Covered(s, j) + s[j]
    decreases |s| - from
  {
    if from < |s| - 1 && Covered(s, from) + s[from] < target {
      LocateBrackets(s, target, from + 1);
    }
  }

  lemma RatioInUnit(x: real, length: real)
    requires 0.0 < x <= length
    ensures 0.0 < x / length <= 1.0
    ensures x / length * length == x
  {
    DivMonotone(0.0, x, length);
    if x < length { DivMonotone(x, length, length); }
  }

  /** Each sample lies on its segment, strictly after its start, at exactly the target's arc length. */
  lemma {:induction false} SampleOnRoute(s: seq<real>, target: real)
    requires NonNegative(s) && |s| >= 1 && 0.0 < target <= Total(s)
    ensures var j := Locate(s, target, 0);
            && s[j] > 0.0
            && 0.0 < Ratio(s, j, target) <= 1.0
            && Covered(s, j) + Ratio(s, j, target) * s[j] == target
  {
    LocateBrackets(s, target, 0);
    var j := Locate(s, target, 0);
    RatioInUnit(target - Covered(s, j), s[j]);
  }

  /** Beyond a fully covered length only zero-length segments remain. */
  lemma {:induction false} TailIsFlat(s: seq<real>, j: nat, i: nat)
    requires NonNegative(s) && j <= i < |s| && Covered(s, j) == Total(s)
    ensures s[i] == 0.0
  {
    CoveredMonotone(s, j, i);
    CoveredMonotone(s, i + 1, |s|);
  }

  /** ... so only repeated points remain. */
  lemma {:induction false} TailIsConstant(route: seq<Point>, distance: (Point, Point) -> real, j: nat)
    requires IsDistance(distance) && |route| >= 2 && j <= |route| - 1
    requires forall i :: j <= i < |route| - 1 ==> Segments(route, distance)[i] == 0.0
    ensures route[j] == route[|route| - 1]
    decreases |route| - j
  {
    if j < |route| - 1 {
      assert Segments(route, distance)[j] == distance(route[j], route[j + 1]);
      TailIsConstant(route, distance, j + 1);
    }
  }

  lemma AlongEnds(a: Point, b: Point)
    ensures Along(a, b, 1.0) == b && Along(a, b, 0.0) == a
  {
  }

  /** At the whole length the located segment ends exactly there. */
  lemma EndIsReached(s: seq<real>)
    requires NonNegative(s) && |s| >= 1 && Total(s) > 0.0
    ensures var j := Locate(s, Total(s), 0);
            Covered(s, j + 1) == Total(s) && Ratio(s, j, Total(s)) == 1.0
  {
    var j := Locate(s, Total(s), 0);
    LocateBrackets(s, Total(s), 0);
    CoveredMonotone(s, j + 1, |s|);
    hide Locate, Covered;
    SelfRatio(Total(s) - Covered(s, j), s[j]);
  }

  lemma SelfRatio(x: real, y: real)
    requires x == y > 0.0
    ensures x / y == 1.0
  {
  }

  /** The sample at the whole length is the end of its segment, and no length follows it. */
  lemma EndOfSegment(route: seq<Point>, s: seq<real>)
    requires NonNegative(s) && |s| >= 1 && |route| == |s| + 1 && Total(s) > 0.0
    ensures var j := Locate(s, Total(s), 0);
            && PointAt(route, s, Total(s)) == route[j + 1]
            && forall i :: j < i < |s| ==> s[i] == 0.0
  {
    var j := Locate(s, Total(s), 0);
    EndIsReached(s);
    AlongEnds(route[j], route[j + 1]);
    forall i | j < i < |s| ensures s[i] == 0.0 { TailIsFlat(s, j + 1, i); }
    hide Locate, Covered, Ratio, Along;
  }

  /** The sample at the whole length is the route's end, zero-length segments included. */
  lemma {:induction false} LastSampleIsTheEnd(route: seq<Point>, distance: (Point, Point) -> real)
    requires IsDistance(distance) && |route| >= 2 && Total(Segments(route, distance)) > 0.0
    ensures var s := Segments(route, distance); PointAt(route, s, Total(s)) == route[|route| - 1]
  {
    var s := Segments(route, distance);
    hide Locate, Covered, PointAt, Total;
    assert NonNegative(s);
    EndOfSegment(route, s);
    hide IsDistance;
    TailIsConstant(route, distance, Locate(s, Total(s), 0) + 1);
  }

  // ---------------------------------------------------------------- the sweep

  /** The sample of segment j, given where the sweep stands. */
  lemma SweepSample(route: seq<Point>, s: seq<real>, target: real, j: nat, covered: real)
    requires |s| >= 1 && |route| == |s| + 1 && NonNegative(s) && j < |s|
    requires covered == Covered(s, j) && (j > 0 ==> covered < target)
    requires !(j < |s| - 1 && covered + s[j] < target)
    ensures Along(route[j], route[j + 1], if s[j] == 0.0 then 1.0 else (target - covered) / s[j]) == PointAt(route, s, target)
  {
    LocateFrom(s, target, j);
    hide Covered, Along;
  }

  /** What sample_route returns, sample by sample. */
  ghost predicate IsSampling(route: seq<Point>, distance: (Point, Point) -> real, steps: nat, points: seq<Point>)
    requires |route| >= 2 && steps >= 2
  {
    var s := Segments(route, distance);
    && |points| == steps
    && points[steps - 1] == route[|route| - 1]
    && (Total(s) == 0.0 ==> forall k :: 0 <= k < steps ==> points[k] == route[|route| - 1])
    && (Total(s) > 0.0 ==>
          forall k :: 1 <= k <= steps ==> points[k - 1] == PointAt(route, s, Target(s, k, steps)))
  }

  method SampleRoute(route: seq<Point>, steps: nat, distance: (Point, Point) -> real) returns (r: Result<seq<Point>>)
    requires IsDistance(distance)
    ensures r.Refused? <==> steps < 2 || |route| < 2
    ensures r.Ok? ==> IsSampling(route, distance, steps, r.value)
  {
    if steps < 2 || |route| < 2 {
      return Refused;
    }
    var segments := Segments(route, distance);
    assert NonNegative(segments);
    var total := Total(segments);
    CoveredMonotone(segments, 0, |segments|);
    if total == 0.0 {
      return Ok(seq(steps, _ => route[|route| - 1]));
    }
    var result := Sweep(route, segments, total, steps);
    LastSampleIsTheEnd(route, distance);
    TargetsIncrease(segments, steps, steps);
    hide PointAt, Target, IsDistance;
    r := Ok(result);
  }

  /** The loop of sample_route: segment index and covered length are carried from step to step. */
  method Sweep(route: seq<Point>, segments: seq<real>, total: real, steps: nat) returns (result: seq<Point>)
    requires steps >= 2 && |segments| >= 1 && |route| == |segments| + 1
    requires NonNegative(segments) && total == Total(segments) && total > 0.0
    ensures |result| == steps
    ensures forall k :: 1 <= k <= steps ==> result[k - 1] == PointAt(route, segments, Target(segments, k, steps))
  {
    hide Covered, Locate, Along, PointAt, Total;
    result := [];
    var segmentIndex, covered := 0, 0.0;
    CoveredNone(segments);
    for step := 1 to steps + 1
      invariant |result| == step - 1
      invariant 0 <= segmentIndex < |segments| && covered == Covered(segments, segmentIndex)
      invariant segmentIndex > 0 ==> covered < Target(segments, step - 1, steps)
      invariant forall k :: 1 <= k < step ==> result[k - 1] == PointAt(route, segments, Target(segments, k, steps))
    {
      var target := Target(segments, step, steps);
      TargetsIncrease(segments, step, steps);
      hide Target;
      while segmentIndex < |segments| - 1 && covered + segments[segmentIndex] < target
        invariant 0 <= segmentIndex < |segments| && covered == Covered(segments, segmentIndex)
        invariant segmentIndex > 0 ==> covered < target
      {
        CoveredNext(segments, segmentIndex);
        covered, segmentIndex := covered + segments[segmentIndex], segmentIndex + 1;
      }
      SweepSample(route, segments, target, segmentIndex, covered);
      var length := segments[segmentIndex];
      var ratio := if length == 0.0 then 1.0 else (target - covered) / length;
      result := result + [Along(route[segmentIndex], route[segmentIndex + 1], ratio)];
    }
  }

  lemma CoveredNone(s: seq<real>)
    ensures Covered(s, 0) == 0.0
  {
  }

  lemma CoveredNext(s: seq<real>, n: nat)
    requires n < |s|
    ensures Covered(s, n + 1) == Covered(s, n) + s[n]
  {
  }

  /** Straight-line fallback. */
  function Interpolate(origin: Point, destination: Point, steps: nat): seq<Point>
    requires steps >= 2
  {
    seq(steps, i requires 0 <= i < steps => Along(origin, destination, (i + 1) as real / steps as real))
  }

  /** On a two-point route, sampling by travelled distance is straight-line interpolation. */
  lemma {:induction false} TwoPointRouteIsInterpolation(a: Point, b: Point, distance: (Point, Point) -> real, steps: nat, points: seq<Point>)
    requires IsDistance(distance) && steps >= 2 && IsSampling([a, b], distance, steps, points)
    ensures points == Interpolate(a, b, steps)
  {
    var s := Segments([a, b], distance);
    assert Covered(s, 1) == Covered(s, 0) + s[0];
    assert Total(s) == distance(a, b);
    forall i | 0 <= i < steps ensures points[i] == Along(a, b, (i + 1) as real / steps as real) {
      assert points[i + 1 - 1] == points[i];
      TwoPointSample(a, b, distance, s, i + 1, steps);
    }
  }

  lemma TwoPointSample(a: Point, b: Point, distance: (Point, Point) -> real, s: seq<real>, k: nat, steps: nat)
    requires IsDistance(distance) && s == Segments([a, b], distance) && steps > 0
    ensures distance(a, b) > 0.0 ==>
              PointAt([a, b], s, Target(s, k, steps)) == Along(a, b, k as real / steps as real)
    ensures distance(a, b) == 0.0 ==> b == Along(a, b, k as real / steps as real)
  {
    if distance(a, b) > 0.0 {
      OneSegment(s, k, steps);
      hide Along;
    }
  }

  lemma OneSegment(s: seq<real>, k: nat, steps: nat)
    requires |s| == 1 && s[0] > 0.0 && steps > 0
    ensures Locate(s, Target(s, k, steps), 0) == 0
    ensures Ratio(s, 0, Target(s, k, steps)) == k as real / steps as real
  {
    assert Covered(s, 1) == Covered(s, 0) + s[0];
    FractionOf(s[0], k, steps);
  }

  lemma FractionOf(d: real, k: nat, n: nat)
    requires d > 0.0 && n > 0
    ensures d * k as real / n as real / d == k as real / n as real
  {
  }

  /** Samples stay inside the coordinate box of the route, so telemetry built from them is in range. */
  lemma {:induction false} SamplesStayInRange(route: seq<Point>, distance: (Point, Point) -> real, steps: nat, points: seq<Point>,
                           low: Point, high: Point)
    requires IsDistance(distance) && |route| >= 2 && steps >= 2 && IsSampling(route, distance, steps, points)
    requires forall i :: 0 <= i < |route| ==> low.lat <= route[i].lat <= high.lat && low.lon <= route[i].lon <= high.lon
    ensures forall k :: 0 <= k < steps ==> low.lat <= points[k].lat <= high.lat && low.lon <= points[k].lon <= high.lon
  {
    var s := Segments(route, distance);
    assert NonNegative(s);
    CoveredMonotone(s, 0, |s|);
    hide IsDistance, Covered, Target, PointAt;
    forall i | 0 <= i < steps
      ensures low.lat <= points[i].lat <= high.lat && low.lon <= points[i].lon <= high.lon
    {
      if Total(s) > 0.0 {
        assert points[i + 1 - 1] == PointAt(route, s, Target(s, i + 1, steps));
        hide IsSampling;
        TargetsIncrease(s, i + 1, steps);
        PointInRange(route, s, Target(s, i + 1, steps), low, high);
      }
    }
  }

  lemma PointInRange(route: seq<Point>, s: seq<real>, target: real, low: Point, high: Point)
    requires NonNegative(s) && |s| >= 1 && |route| == |s| + 1 && 0.0 < target <= Total(s)
    requires forall i :: 0 <= i < |route| ==> low.lat <= route[i].lat <= high.lat && low.lon <= route[i].lon <= high.lon
    ensures var p := PointAt(route, s, target); low.lat <= p.lat <= high.lat && low.lon <= p.lon <= high.lon
  {
    SampleOnRoute(s, target);
    var j := Locate(s, target, 0);
    var ratio := Ratio(s, j, target);
    hide Covered, Locate, Ratio;
    Between(route[j].lat, route[j + 1].lat, ratio, low.lat, high.lat);
    Between(route[j].lon, route[j + 1].lon, ratio, low.lon, high.lon);
  }

  /** p divides the segment a-b in the given ratio. */
  predicate Divides(p: Point, a: Point, b: Point, ratio: real) {
    p.lat == a.lat + ratio * (b.lat - a.lat) && p.lon == a.lon + ratio * (b.lon - a.lon)
  }

  /** The segments before j and that part of segment j make k / steps of the whole length. */
  predicate Spaced(s: seq<real>, j: nat, ratio: real, k: nat, steps: nat)
    requires j < |s|
  {
    (Covered(s, j) + ratio * s[j]) * steps as real == Total(s) * k as real
  }

  /**
   * In coordinates: sample k of a route with length stands on some segment, at the ratio that makes
   * the length travelled to it - the segments before, and that part of its own - k / steps of the whole.
   */
  lemma {:induction false} SamplesAreEquallySpaced(route: seq<Point>, distance: (Point, Point) -> real, steps: nat, points: seq<Point>, k: nat)
    returns (j: nat, ratio: real)
    requires IsDistance(distance) && |route| >= 2 && steps >= 2 && IsSampling(route, distance, steps, points)
    requires Total(Segments(route, distance)) > 0.0 && 1 <= k <= steps
    ensures j < |route| - 1 && 0.0 < ratio <= 1.0
    ensures Divides(points[k - 1], route[j], route[j + 1], ratio)
    ensures Spaced(Segments(route, distance), j, ratio, k, steps)
  {
    var s := Segments(route, distance);
    assert NonNegative(s);
    hide IsDistance, Covered, Locate, Ratio, Total, Along, Divides, Target, Spaced;
    j, ratio := SpacedAlong(s, k, steps);
    assert points[k - 1] == PointAt(route, s, Target(s, k, steps));
    hide IsSampling;
    AlongDivides(route[j], route[j + 1], ratio);
  }

  lemma SpacedAlong(s: seq<real>, k: nat, steps: nat) returns (j: nat, ratio: real)
    requires NonNegative(s) && |s| >= 1 && Total(s) > 0.0 && 1 <= k <= steps
    ensures j < |s| && j == Locate(s, Target(s, k, steps), 0) && ratio == Ratio(s, j, Target(s, k, steps)) && 0.0 < ratio <= 1.0
    ensures Spaced(s, j, ratio, k, steps)
  {
    var target := Target(s, k, steps);
    TargetsIncrease(s, k, steps);
    SampleOnRoute(s, target);
    PartOfWhole(Total(s), k, steps);
    assert target * steps as real == Total(s) * k as real;
    j := Locate(s, target, 0);
    ratio := Ratio(s, j, target);
    hide Locate, Ratio, Target, Total, Covered;
    assert Covered(s, j) + ratio * s[j] == target;
  }

  lemma AlongDivides(a: Point, b: Point, ratio: real)
    ensures Divides(Along(a, b, ratio), a, b, ratio)
  {
    Commutes(b.lat - a.lat, ratio);
    Commutes(b.lon - a.lon, ratio);
  }

  lemma PartOfWhole(t: real, k: nat, n: nat)
    requires n > 0
    ensures t * k as real / n as real * n as real == t * k as real
  {
  }

  lemma Commutes(a: real, b: real)
    ensures a * b == b * a
  {
  }

  /** In coordinates: the straight-line fallback has `steps` points, the i-th at i / steps of the way. */
  lemma {:induction false} InterpolatedEvenly(origin: Point, destination: Point, steps: nat, i: nat)
    requires steps >= 2 && 1 <= i <= steps
    ensures |Interpolate(origin, destination, steps)| == steps
    ensures Divides(Interpolate(origin, destination, steps)[i - 1], origin, destination, i as real / steps as real)
  {
    AlongDivides(origin, destination, i as real / steps as real);
    hide Along, Divides;
  }

  lemma NonNegativeProduct(a: real, b: real)
    requires a >= 0.0 && b >= 0.0
    ensures a * b >= 0.0
  {
  }

  /** Scaling by a ratio in [0, 1] shrinks towards zero. */
  lemma ScaleShrinks(d: real, ratio: real, m: real)
    requires 0.0 <= ratio <= 1.0 && m == d * ratio
    ensures d >= 0.0 ==> 0.0 <= m <= d
    ensures d <= 0.0 ==> d <= m <= 0.0
  {
    if d >= 0.0 {
      NonNegativeProduct(d, ratio);
      NonNegativeProduct(d, 1.0 - ratio);
      assert d * (1.0 - ratio) == d - d * ratio;
    } else {
      NonNegativeProduct(-d, ratio);
      NonNegativeProduct(-d, 1.0 - ratio);
      assert (-d) * ratio == -(d * ratio);
      assert (-d) * (1.0 - ratio) == -d + d * ratio;
    }
  }

  lemma Between(a: real, b: real, ratio: real, low: real, high: real)
    requires 0.0 <= ratio <= 1.0 && low <= a <= high && low <= b <= high
    ensures low <= a + (b - a) * ratio <= high
  {
    ScaleShrinks(b - a, ratio, (b - a) * ratio);
  }
}
