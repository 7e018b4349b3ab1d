/**
 * RouteDeviationCalculator (api/.../alert/RouteDeviationCalculator.java) over the reals:
 * the distance from a position to a polyline in the local plane. `kx` and `ky` are the
 * plane's metres per degree of longitude and latitude; `hypot` is Math.hypot.
 */
module RouteDeviation {
  import opened Common

  /** A GeoJSON coordinate: an array whose first two elements are longitude and latitude, or anything else. */
  datatype JsonCoordinate = Numbers(lon: Num, lat: Num) | Malformed

  /** The geometry's `coordinates`; None when the geometry or its array is missing. */
  type Geometry = Option<seq<JsonCoordinate>>

  datatype Distance = Meters(value: real) | Infinite

  datatype Vec = Vec(x: real, y: real)

  datatype Frame = Frame(lat: real, lon: real, kx: real, ky: real)

  predicate ValidCoordinate(c: JsonCoordinate) {
    c.Numbers? && Within(c.lat, -90.0, 90.0) && Within(c.lon, -180.0, 180.0)
  }

  predicate ValidPosition(lat: Num, lon: Num) {
    Within(lat, -90.0, 90.0) && Within(lon, -180.0, 180.0)
  }

  predicate ValidGeometry(g: Geometry) {
    g.Some? && |g.value| >= 2 && forall i :: 0 <= i < |g.value| ==> ValidCoordinate(g.value[i])
  }

  /** A coordinate relative to the position, in metres. */
  function Local(f: Frame, c: JsonCoordinate): Vec
    requires ValidCoordinate(c)
  {
    Vec((c.lon.value - f.lon) * f.kx, (c.lat.value - f.lat) * f.ky)
  }

  function Minus(a: Vec, b: Vec): Vec { Vec(a.x - b.x, a.y - b.y) }

  function Dot(a: Vec, b: Vec): real { a.x * b.x + a.y * b.y }

  function Square(v: Vec): real { v.x * v.x + v.y * v.y }

  /** The point a fraction t of the way from a to b. */
  function Lerp(a: Vec, b: Vec, t: real): Vec {
    Vec(a.x + t * Minus(b, a).x, a.y + t * Minus(b, a).y)
  }

  ghost predicate IsHypot(hypot: (real, real) -> real) {
    forall x, y {:trigger hypot(x, y)} :: hypot(x, y) >= 0.0 && hypot(x, y) * hypot(x, y) == x * x + y * y
  }

  function Clamp(t: real): real {
    if t < 0.0 then 0.0 else if t > 1.0 then 1.0 else t
  }

  /** Where the projection falls, kept on the segment; a segment without length has only its start. */
  function Fraction(dot: real, length: real): real {
    if length == 0.0 then 0.0 else Clamp(-dot / length)
  }

  /** The fraction of the segment a-b nearest to the origin. */
  function Nearest(a: Vec, b: Vec): real {
    Fraction(Dot(a, Minus(b, a)), Square(Minus(b, a)))
  }

  // ---------------------------------------------------------------- arithmetic

  lemma SameSign(a: real, b: real)
    requires (a >= 0.0 && b >= 0.0) || (a <= 0.0 && b <= 0.0)
    ensures a * b >= 0.0
  {
  }

  /** c + 2 b s + l s s, the squared distance along a segment. */
  function Quadratic(c: real, b: real, l: real, s: real): real { c + 2.0 * b * s + l * s * s }

  lemma VertexInside(c: real, l: real, v: real, s: real)
    requires l > 0.0
    ensures Quadratic(c, -(v * l), l, v) <= Quadratic(c, -(v * l), l, s)
  {
    SameSign(s - v, s - v);
    SameSign(l, (s - v) * (s - v));
    assert Quadratic(c, -(v * l), l, s) - Quadratic(c, -(v * l), l, v) == l * ((s - v) * (s - v));
  }

  lemma VertexBelow(c: real, b: real, l: real, s: real)
    requires l > 0.0 && b >= 0.0 && s >= 0.0
    ensures Quadratic(c, b, l, 0.0) <= Quadratic(c, b, l, s)
  {
    SameSign(b, s);
    SameSign(l, s);
    SameSign(l * s, s);
  }

  lemma VertexAbove(c: real, b: real, l: real, s: real)
    requires l > 0.0 && b <= -l && s <= 1.0
    ensures Quadratic(c, b, l, 1.0) <= Quadratic(c, b, l, s)
  {
    SameSign(l, 1.0 - s);
    var w := 2.0 * b + l * (s + 1.0);
    assert l * (s + 1.0) == 2.0 * l - l * (1.0 - s);
    SameSign(s - 1.0, w);
    assert Quadratic(c, b, l, s) - Quadratic(c, b, l, 1.0) == (s - 1.0) * w;
  }

  lemma QuotientTimes(b: real, l: real, v: real)
    requires l > 0.0 && v == b / l
    ensures v * l == b
  {
  }

  lemma ScaleSign(v: real, l: real)
    requires l > 0.0
    ensures v < 0.0 ==> v * l <= 0.0
    ensures v > 1.0 ==> v * l >= l
  {
    if v < 0.0 { SameSign(-v, l); assert (-v) * l == -(v * l); }
    if v > 1.0 { SameSign(v - 1.0, l); assert (v - 1.0) * l == v * l - l; }
  }

  /** On [0, 1] the quadratic is least at its vertex, clamped. */
  lemma {:induction false} ClampedVertexIsLeast(c: real, b: real, l: real, s: real)
    requires l > 0.0 && 0.0 <= s <= 1.0
    ensures Quadratic(c, b, l, Clamp(-b / l)) <= Quadratic(c, b, l, s)
  {
    var v := -b / l;
    QuotientTimes(-b, l, v);
    ScaleSign(v, l);
    hide Quadratic;
    if v < 0.0 {
      VertexBelow(c, b, l, s);
    } else if v > 1.0 {
      VertexAbove(c, b, l, s);
    } else {
      assert b == -(v * l);
      VertexInside(c, l, v, s);
    }
  }

  /** The squared distance from the origin to a point of a segment, as a quadratic in the fraction. */
  lemma SquareAlong(a: Vec, b: Vec, t: real)
    ensures Square(Lerp(a, b, t)) == Quadratic(Square(a), Dot(a, Minus(b, a)), Square(Minus(b, a)), t)
  {
  }

  lemma StrictlyPositive(a: real, b: real, m: real)
    requires a > 0.0 && b > 0.0 && m == a * b
    ensures m > 0.0
  {
  }

  lemma NonZeroSquare(x: real, xx: real)
    requires xx == x * x
    ensures xx >= 0.0
    ensures x != 0.0 ==> xx > 0.0
  {
    SameSign(x, x);
    if x > 0.0 { StrictlyPositive(x, x, xx); }
    if x < 0.0 { StrictlyPositive(-x, -x, xx); }
  }

  function Sq(x: real): real { x * x }

  lemma SqSign(x: real)
    ensures Sq(x) >= 0.0 && (x != 0.0 ==> Sq(x) > 0.0)
  {
    NonZeroSquare(x, Sq(x));
  }

  lemma SquareParts(v: Vec)
    ensures Square(v) == Sq(v.x) + Sq(v.y)
  {
  }

  lemma SquareZero(v: Vec)
    ensures Square(v) >= 0.0
    ensures Square(v) == 0.0 ==> v == Vec(0.0, 0.0)
  {
    SquareParts(v);
    SqSign(v.x);
    SqSign(v.y);
    hide Square, Sq;
  }

  lemma FractionInUnit(dot: real, length: real)
    ensures 0.0 <= Fraction(dot, length) <= 1.0
  {
  }

  lemma MinusZero(a: Vec, b: Vec)
    ensures Minus(b, a) == Vec(0.0, 0.0) ==> a == b
  {
  }

  /** The clamped projection is the nearest point of the segment, degenerate segments included. */
  lemma {:induction false} NearestIsLeast(a: Vec, b: Vec, s: real)
    requires 0.0 <= s <= 1.0
    ensures 0.0 <= Nearest(a, b) <= 1.0
    ensures Square(Lerp(a, b, Nearest(a, b))) <= Square(Lerp(a, b, s))
  {
    hide Square, Lerp, Dot, Clamp, Minus, Quadratic;
    var d := Minus(b, a);
    FractionInUnit(Dot(a, d), Square(d));
    SquareZero(d);
    MinusZero(a, b);
    SquareAlong(a, b, Nearest(a, b));
    SquareAlong(a, b, s);
    if Square(d) > 0.0 {
      ClampedVertexIsLeast(Square(a), Dot(a, d), Square(d), s);
    } else {
      DegenerateSegment(a, b, s, Nearest(a, b));
    }
  }

  lemma DegenerateSegment(a: Vec, b: Vec, s: real, t: real)
    requires a == b
    ensures Lerp(a, b, s) == Lerp(a, b, t)
  {
  }

  lemma SquaresOrder(a: real, b: real)
    requires 0.0 <= a < b
    ensures a * a < b * b
  {
    StrictlyPositive(b - a, b + a, b * b - a * a);
  }

  lemma RootsOrder(a: real, b: real)
    requires a >= 0.0 && b >= 0.0 && a * a <= b * b
    ensures a <= b
  {
    if b < a { SquaresOrder(b, a); }
  }

  lemma HypotSquared(hypot: (real, real) -> real, p: Vec)
    requires IsHypot(hypot)
    ensures hypot(p.x, p.y) >= 0.0 && hypot(p.x, p.y) * hypot(p.x, p.y) == Square(p)
  {
  }

  /** The nearest point's distance is at most the distance to any point of the segment. */
  lemma NearestDistance(hypot: (real, real) -> real, a: Vec, b: Vec, s: real)
    requires IsHypot(hypot) && 0.0 <= s <= 1.0
    ensures var p, q := Lerp(a, b, Nearest(a, b)), Lerp(a, b, s); hypot(p.x, p.y) <= hypot(q.x, q.y)
  {
    hide Lerp, Nearest, Square, IsHypot;
    var p, q := Lerp(a, b, Nearest(a, b)), Lerp(a, b, s);
    NearestIsLeast(a, b, s);
    HypotSquared(hypot, p);
    HypotSquared(hypot, q);
    RootsOrder(hypot(p.x, p.y), hypot(q.x, q.y));
  }

  // ---------------------------------------------------------------- the calculator

  /** Distance in the plane from the position to the point a fraction t along segment i. */
  function PlanarDistance(hypot: (real, real) -> real, f: Frame, g: seq<JsonCoordinate>, i: nat, t: real): real
    requires i + 1 < |g| && ValidCoordinate(g[i]) && ValidCoordinate(g[i + 1])
  {
    var p := Lerp(Local(f, g[i]), Local(f, g[i + 1]), t);
    hypot(p.x, p.y)
  }

  /** No point of the first n segments is nearer than `m`, and one is exactly that near. */
  ghost predicate IsMinimum(hypot: (real, real) -> real, f: Frame, g: seq<JsonCoordinate>, n: nat, m: Distance)
    requires n < |g| && forall i :: 0 <= i <= n ==> ValidCoordinate(g[i])
  {
    && (m.Infinite? <==> n == 0)
    && (m.Meters? ==>
          && (forall i: nat, t: real :: i < n && 0.0 <= t <= 1.0 ==> m.value <= PlanarDistance(hypot, f, g, i, t))
          && exists i: nat, t: real :: i < n && 0.0 <= t <= 1.0 && m.value == PlanarDistance(hypot, f, g, i, t))
  }

  /** Math.min on distances. */
  function Min(a: Distance, b: real): Distance {
    if a.Infinite? || b < a.value then Meters(b) else a
  }

  lemma NoSegments(hypot: (real, real) -> real, f: Frame, g: seq<JsonCoordinate>)
    requires |g| > 0 && ValidCoordinate(g[0])
    ensures IsMinimum(hypot, f, g, 0, Infinite)
  {
  }

  lemma SomeSegments(hypot: (real, real) -> real, f: Frame, g: seq<JsonCoordinate>, n: nat, m: Distance)
    requires 0 < n < |g| && (forall i :: 0 <= i <= n ==> ValidCoordinate(g[i])) && IsMinimum(hypot, f, g, n, m)
    ensures m.Meters?
  {
  }

  lemma {:induction false} MinimumExtends(hypot: (real, real) -> real, f: Frame, g: seq<JsonCoordinate>, n: nat, m: Distance)
    requires IsHypot(hypot) && n + 1 < |g| && forall i :: 0 <= i <= n + 1 ==> ValidCoordinate(g[i])
    requires IsMinimum(hypot, f, g, n, m)
    ensures var a, b := Local(f, g[n]), Local(f, g[n + 1]);
            IsMinimum(hypot, f, g, n + 1, Min(m, PlanarDistance(hypot, f, g, n, Nearest(a, b))))
  {
    var a, b := Local(f, g[n]), Local(f, g[n + 1]);
    var t0 := Nearest(a, b);
    NearestIsLeast(a, b, 0.0);
    var d := PlanarDistance(hypot, f, g, n, t0);
    forall t: real | 0.0 <= t <= 1.0 ensures d <= PlanarDistance(hypot, f, g, n, t) {
      NearestDistance(hypot, a, b, t);
    }
    hide Nearest, Local, Lerp, IsHypot, Square;
  }

  /** Squared distance in the plane of a point given in degrees, from the frame's position. */
  function SquaredTo(f: Frame, lon: real, lat: real): real {
    var east, north := (lon - f.lon) * f.kx, (lat - f.lat) * f.ky;
    east * east + north * north
  }

  function Between(a: real, b: real, t: real): real { a + t * (b - a) }

  /** The point a fraction t along segment i, in degrees, is that far off. */
  function SquaredAlong(f: Frame, g: seq<JsonCoordinate>, i: nat, t: real): real
    requires i + 1 < |g| && ValidCoordinate(g[i]) && ValidCoordinate(g[i + 1])
  {
    SquaredTo(f, Between(g[i].lon.value, g[i + 1].lon.value, t), Between(g[i].lat.value, g[i + 1].lat.value, t))
  }

  /** Going part of the way commutes with moving to the frame and scaling. */
  lemma LocalBetween(a: real, b: real, t: real, origin: real, k: real)
    ensures (a - origin) * k + t * ((b - origin) * k - (a - origin) * k) == (Between(a, b, t) - origin) * k
  {
    Distribute(b, a, origin, k);
    var d := b - a;
    assert t * (d * k) == (t * d) * k;
    Spread(a - origin, t * d, k);
  }

  lemma Distribute(b: real, a: real, o: real, k: real)
    ensures (b - o) * k - (a - o) * k == (b - a) * k
  {
  }

  lemma Spread(x: real, y: real, k: real)
    ensures x * k + y * k == (x + y) * k
  {
  }

  lemma SameDistance(hypot: (real, real) -> real, f: Frame, g: seq<JsonCoordinate>, i: nat, t: real)
    requires IsHypot(hypot) && i + 1 < |g| && ValidCoordinate(g[i]) && ValidCoordinate(g[i + 1])
    ensures var d := PlanarDistance(hypot, f, g, i, t); d >= 0.0 && d * d == SquaredAlong(f, g, i, t)
  {
    LocalBetween(g[i].lon.value, g[i + 1].lon.value, t, f.lon, f.kx);
    LocalBetween(g[i].lat.value, g[i + 1].lat.value, t, f.lat, f.ky);
    HypotSquared(hypot, Lerp(Local(f, g[i]), Local(f, g[i + 1]), t));
    hide IsHypot, Between;
  }

  /**
   * In degrees: the minimum is at most the distance, east by kx and north by ky, to the point any
   * fraction of the way along any segment, and for some segment and fraction it is that distance.
   */
  lemma {:induction false} MinimumInDegrees(hypot: (real, real) -> real, f: Frame, g: seq<JsonCoordinate>, m: Distance) returns (n: nat, u: real)
    requires IsHypot(hypot) && |g| >= 2 && (forall i :: 0 <= i < |g| ==> ValidCoordinate(g[i]))
    requires IsMinimum(hypot, f, g, |g| - 1, m)
    ensures m.Meters? && m.value >= 0.0 && n < |g| - 1 && 0.0 <= u <= 1.0
    ensures m.value * m.value == SquaredTo(f, Between(g[n].lon.value, g[n + 1].lon.value, u), Between(g[n].lat.value, g[n + 1].lat.value, u))
    ensures forall i: nat, t: real :: i < |g| - 1 && 0.0 <= t <= 1.0 ==> m.value * m.value <= SquaredAlong(f, g, i, t)
  {
    hide IsHypot, Between, SquaredTo, PlanarDistance;
    SomeSegments(hypot, f, g, |g| - 1, m);
    n, u :| n < |g| - 1 && 0.0 <= u <= 1.0 && m.value == PlanarDistance(hypot, f, g, n, u);
    SameDistance(hypot, f, g, n, u);
    forall i: nat, t: real | i < |g| - 1 && 0.0 <= t <= 1.0 ensures m.value * m.value <= SquaredAlong(f, g, i, t) {
      SameDistance(hypot, f, g, i, t);
      if m.value < PlanarDistance(hypot, f, g, i, t) { SquaresOrder(m.value, PlanarDistance(hypot, f, g, i, t)); }
    }
  }

  /**
   * The distance from a position to a route. It is infinite exactly for an invalid position
   * or geometry; otherwise it is the least planar distance to any point of any segment.
   */
  method DistanceMeters(lat: Num, lon: Num, geometry: Geometry, kx: real, ky: real, hypot: (real, real) -> real)
    returns (r: Distance)
    requires IsHypot(hypot)
    ensures r.Infinite? <==> !ValidPosition(lat, lon) || !ValidGeometry(geometry)
    ensures r.Meters? ==>
              IsMinimum(hypot, Frame(lat.value, lon.value, kx, ky), geometry.value, |geometry.value| - 1, r)
  {
    if !Within(lat, -90.0, 90.0) || !Within(lon, -180.0, 180.0) || geometry.None? {
      return Infinite;
    }
    var coordinates := geometry.value;
    if |coordinates| < 2 {
      return Infinite;
    }
    hide Local, Minus, Dot, Square, Fraction, Lerp, IsHypot, IsMinimum;
    var frame := Frame(lat.value, lon.value, kx, ky);
    var minimum := Infinite;
    for i := 0 to |coordinates| - 1
      invariant forall k :: 0 <= k <= i && i > 0 ==> ValidCoordinate(coordinates[k])
      invariant i > 0 ==> IsMinimum(hypot, frame, coordinates, i, minimum)
      invariant i == 0 ==> minimum == Infinite
    {
      var a, b := coordinates[i], coordinates[i + 1];
      if !ValidCoordinate(a) || !ValidCoordinate(b) {
        return Infinite;
      }
      var p, q := Local(frame, a), Local(frame, b);
      var d := Minus(q, p);
      var t := Fraction(Dot(p, d), Square(d));
      var nearest := Lerp(p, q, t);
      var distance := hypot(nearest.x, nearest.y);
      if i == 0 { NoSegments(hypot, frame, coordinates); }
      MinimumExtends(hypot, frame, coordinates, i, minimum);
      minimum := Min(minimum, distance);
    }
    SomeSegments(hypot, frame, coordinates, |coordinates| - 1, minimum);
    r := minimum;
  }
}
