/**
 * Geometry behind route planning (utils/GoogleMapsUtil.js): the abstract great-circle distance,
 * point-to-segment distance, the point-near-route test and checkpoint placement along a path.
 */
module Geo {
  import opened Wrappers
  import opened Strings

  /** A coordinate pair `[latitude, longitude]`. */
  datatype Coord = Coord(lat: real, lng: real)

  /**
   * The haversine distance in kilometres. Its trigonometry is not modelled: every operation that
   * needs it takes it as a parameter, and `IsDistance` states what is assumed of it.
   */
  type Distance = (Coord, Coord) -> real

  /** What the haversine formula guarantees: zero on equal points, symmetric, never negative. */
  ghost predicate IsDistance(dist: Distance) {
    && (forall p :: dist(p, p) == 0.0)
    && (forall p, q :: dist(p, q) == dist(q, p))
    && (forall p, q :: dist(p, q) >= 0.0)
  }

  // ---------------------------------------------------------------------------------------------
  // distanceToSegment (planar, in degrees) and isPointNearRoute
  // ---------------------------------------------------------------------------------------------

  function SqPlanar(p: Coord, q: Coord): (r: real)
    ensures r >= 0.0
  {
    var x := p.lat - q.lat;
    var y := p.lng - q.lng;
    SquareNonNegative(x);
    SquareNonNegative(y);
    x * x + y * y
  }

  lemma SquareNonNegative(x: real)
    ensures x * x >= 0.0
  {
    if x < 0.0 {
      MulPos(-x, -x);
      assert x * x == (-x) * (-x);
    } else if x > 0.0 {
      MulPos(x, x);
    }
  }

  /** The point `a + t·(b − a)`. */
  function Lerp(a: Coord, b: Coord, t: real): Coord {
    Coord(a.lat + t * (b.lat - a.lat), a.lng + t * (b.lng - a.lng))
  }

  /** `param` of distanceToSegment: the projection parameter, or −1 for a zero-length segment. */
  function ProjectionParam(p: Coord, a: Coord, b: Coord): real {
    var c := b.lat - a.lat;
    var d := b.lng - a.lng;
    var lenSq := c * c + d * d;
    if lenSq != 0.0 then ((p.lat - a.lat) * c + (p.lng - a.lng) * d) / lenSq else -1.0
  }

  /** The point `[xx, yy]` of distanceToSegment: the projection clamped to the segment. */
  function ClosestPoint(p: Coord, a: Coord, b: Coord): Coord {
    var t := ProjectionParam(p, a, b);
    if t < 0.0 then a else if t > 1.0 then b else Lerp(a, b, t)
  }

  /**
   * The square of distanceToSegment. The source returns `Math.sqrt` of this value; every caller
   * only compares it, which `SqrtComparison` shows can be done on squares.
   */
  function SegmentDistSq(p: Coord, a: Coord, b: Coord): (r: real)
    ensures r >= 0.0
  {
    SqPlanar(p, ClosestPoint(p, a, b))
  }

  /** The clamped projection lies on the segment: it is `a + t·(b − a)` for some `t` in [0, 1]. */
  lemma ClosestPointOnSegment(p: Coord, a: Coord, b: Coord)
    ensures exists t :: 0.0 <= t <= 1.0 && ClosestPoint(p, a, b) == Lerp(a, b, t)
    ensures ProjectionParam(p, a, b) < 0.0 ==> ClosestPoint(p, a, b) == a
    ensures ProjectionParam(p, a, b) > 1.0 ==> ClosestPoint(p, a, b) == b
  {
    var t := ProjectionParam(p, a, b);
    if t < 0.0 {
      assert ClosestPoint(p, a, b) == Lerp(a, b, 0.0);
    } else if t > 1.0 {
      assert ClosestPoint(p, a, b) == Lerp(a, b, 1.0);
    } else {
      assert ClosestPoint(p, a, b) == Lerp(a, b, t);
    }
  }

  /** A zero-length segment measures the distance to its start point. */
  lemma ZeroLengthSegment(p: Coord, a: Coord)
    ensures SegmentDistSq(p, a, a) == SqPlanar(p, a)
  {
    assert ProjectionParam(p, a, a) == -1.0;
  }

  // Products of reals: small facts the solver does not find on its own.

  lemma MulPos(a: real, b: real)
    requires a > 0.0 && b > 0.0
    ensures a * b > 0.0
  {
  }

  lemma SquareMonotone(m: real, s: real)
    requires 0.0 <= m <= s
    ensures m * m <= s * s
  {
    if m < s {
      MulPos(s - m, s + m);
      assert (s - m) * (s + m) == s * s - m * m;
    }
  }

  /** `Math.sqrt(x) <= m` compares as `m >= 0 && x <= m·m`: `s` stands for the square root of `x`. */
  lemma SqrtComparison(x: real, s: real, m: real)
    requires s >= 0.0 && s * s == x
    ensures s <= m <==> (m >= 0.0 && x <= m * m)
  {
    if s <= m {
      SquareMonotone(s, m);
    } else if m >= 0.0 {
      MulPos(s - m, s + m);
      assert (s - m) * (s + m) == s * s - m * m;
    }
  }

  /** `m > s` for a square root `s >= 0` of `x` compares as `m > 0 && m·m > x`. */
  lemma StrictSqrtComparison(x: real, s: real, m: real)
    requires s >= 0.0 && s * s == x
    ensures m > s <==> (m > 0.0 && m * m > x)
  {
    if m > s {
      MulPos(m - s, m + s);
      assert (m - s) * (m + s) == m * m - s * s;
    } else if m > 0.0 {
      SquareMonotone(m, s);
    }
  }

  function MinOpt(a: Option<real>, b: real): Option<real> {
    if a.Some? && a.value <= b then a else Some(b)
  }

  /**
   * `minDistance` of isPointNearRoute (squared) after examining the segments ending at route[1..i):
   * `None` stands for the initial `Infinity`.
   */
  function MinSegmentDistSq(p: Coord, route: seq<Coord>, i: nat): Option<real>
    requires i <= |route|
  {
    if i <= 1 then None
    else MinOpt(MinSegmentDistSq(p, route, i - 1), SegmentDistSq(p, route[i - 2], route[i - 1]))
  }

  /** isPointNearRoute: false for an empty route; otherwise `minDistance <= maxDistance`. */
  predicate NearRoute(p: Coord, route: seq<Coord>, maxDistance: real) {
    && |route| > 0
    && var m := MinSegmentDistSq(p, route, |route|);
       m.Some? && maxDistance >= 0.0 && m.value <= maxDistance * maxDistance
  }

  /** The running minimum is absent until a segment is seen, and then is the least segment distance. */
  lemma {:induction false} MinSegmentDistSqSpec(p: Coord, route: seq<Coord>, i: nat)
    requires i <= |route|
    ensures MinSegmentDistSq(p, route, i).None? <==> i <= 1
    ensures MinSegmentDistSq(p, route, i).Some? ==>
              (forall j :: 1 <= j < i ==> MinSegmentDistSq(p, route, i).value <= SegmentDistSq(p, route[j - 1], route[j]))
              && (exists j :: 1 <= j < i && MinSegmentDistSq(p, route, i).value == SegmentDistSq(p, route[j - 1], route[j]))
  {
    if i > 2 {
      MinSegmentDistSqSpec(p, route, i - 1);
      var prev := MinSegmentDistSq(p, route, i - 1).value;
      var j0 :| 1 <= j0 < i - 1 && prev == SegmentDistSq(p, route[j0 - 1], route[j0]);
      var m := MinSegmentDistSq(p, route, i).value;
      if prev <= SegmentDistSq(p, route[i - 2], route[i - 1]) {
        assert m == SegmentDistSq(p, route[j0 - 1], route[j0]);
      } else {
        assert m == SegmentDistSq(p, route[i - 2], route[i - 1]);
      }
    } else if i == 2 {
      assert MinSegmentDistSq(p, route, i).value == SegmentDistSq(p, route[0], route[1]);
    }
  }

  /**
   * A point is near the route exactly when the route has a segment and some segment is within
   * `maxDistance` (inclusive); a one-point route is never near, since no segment is examined.
   */
  lemma NearRouteIff(p: Coord, route: seq<Coord>, maxDistance: real)
    ensures NearRoute(p, route, maxDistance) <==>
              (|route| >= 2 && maxDistance >= 0.0 &&
               exists j :: 1 <= j < |route| && SegmentDistSq(p, route[j - 1], route[j]) <= maxDistance * maxDistance)
  {
    MinSegmentDistSqSpec(p, route, |route|);
  }

  /** The point 0.9 degrees beside the middle of a one-degree segment projects onto that middle. */
  lemma MidpointProjection()
    ensures ProjectionParam(Coord(0.9, 0.5), Coord(0.0, 0.0), Coord(0.0, 1.0)) == 0.5
    ensures Lerp(Coord(0.0, 0.0), Coord(0.0, 1.0), 0.5) == Coord(0.0, 0.5)
  {
  }

  /** Its squared planar distance to the segment is 0.81 (square degrees). */
  lemma MidpointDistance()
    ensures SegmentDistSq(Coord(0.9, 0.5), Coord(0.0, 0.0), Coord(0.0, 1.0)) == 0.81
  {
    MidpointProjection();
    assert ClosestPoint(Coord(0.9, 0.5), Coord(0.0, 0.0), Coord(0.0, 1.0)) == Coord(0.0, 0.5);
  }

  /**
   * The tolerance is a planar distance in degrees, not kilometres: a point 0.9 degrees of latitude
   * (about 100 km) beside a one-degree segment passes the test with tolerance 1.
   */
  lemma DegreeTolerance()
    ensures NearRoute(Coord(0.9, 0.5), [Coord(0.0, 0.0), Coord(0.0, 1.0)], 1.0)
  {
    MidpointDistance();
    assert MinSegmentDistSq(Coord(0.9, 0.5), [Coord(0.0, 0.0), Coord(0.0, 1.0)], 2) == Some(0.81);
  }

  method IsPointNearRoute(p: Coord, route: seq<Coord>, maxDistance: real) returns (near: bool)
    ensures near == NearRoute(p, route, maxDistance)
  {
    if |route| == 0 {
      return false;
    }
    var minSq: Option<real> := None;
    var i := 1;
    while i < |route|
      invariant 1 <= i <= |route|
      invariant minSq == MinSegmentDistSq(p, route, i)
    {
      var d := SegmentDistSq(p, route[i - 1], route[i]);
      minSq := MinOpt(minSq, d);
      i := i + 1;
    }
    near := minSq.Some? && maxDistance >= 0.0 && minSq.value <= maxDistance * maxDistance;
  }

  // ---------------------------------------------------------------------------------------------
  // calculateCheckpoints
  // ---------------------------------------------------------------------------------------------

  /** A planned checkpoint: `{ location: { coordinates }, name }`. */
  datatype RoutePoint = RoutePoint(location: Coord, name: string)

  /** The path length from path[0] to path[i]. */
  function Cum(dist: Distance, path: seq<Coord>, i: nat): real
    requires i < |path|
  {
    if i == 0 then 0.0 else Cum(dist, path, i - 1) + dist(path[i - 1], path[i])
  }

  /** `checkpointDistance`: the total length split into `n + 1` equal parts. */
  function Spacing(dist: Distance, path: seq<Coord>, n: nat): real
    requires |path| > 0
  {
    Cum(dist, path, |path| - 1) / (n as real + 1.0)
  }

  /**
   * The cumulative distance at which the checkpoint numbered `k + 1` is placed: `nextCheckpoint`
   * after `k` increments, which is `(k + 1)·spacing` by `TargetClosedForm`.
   */
  function Target(spacing: real, k: nat): real {
    if k == 0 then spacing else Target(spacing, k - 1) + spacing
  }

  /** `1 − (current − target)/segment`, with ratio 1 on a zero-length segment. */
  function SegmentRatio(current: real, target: real, segment: real): real {
    if segment == 0.0 then 1.0 else 1.0 - (current - target) / segment
  }

  /** The first segment index `i >= j` whose end is at least `t` along the path (or the last one). */
  function FirstReach(dist: Distance, path: seq<Coord>, t: real, j: nat): (i: nat)
    requires 1 <= j < |path|
    ensures j <= i < |path|
    decreases |path| - j
  {
    if j == |path| - 1 || Cum(dist, path, j) >= t then j else FirstReach(dist, path, t, j + 1)
  }

  /** `path[i]·ratio + path[i−1]·(1 − ratio)`, component by component. */
  function Interpolate(from: Coord, to: Coord, ratio: real): Coord {
    Coord(to.lat * ratio + from.lat * (1.0 - ratio), to.lng * ratio + from.lng * (1.0 - ratio))
  }

  /** `Checkpoint ${checkpoints.length + 1}` for the checkpoint at position `k`. */
  function CheckpointName(k: nat): string {
    "Checkpoint " + NatToString(k + 1)
  }

  /** The index `i` of the segment `path[i−1]`–`path[i]` holding the checkpoint numbered `k + 1`. */
  function CheckpointSegment(dist: Distance, path: seq<Coord>, n: nat, k: nat): nat
    requires |path| >= 2
  {
    FirstReach(dist, path, Target(Spacing(dist, path, n), k), 1)
  }

  /**
   * `ratio = 1 − (current − target)/segment` for that checkpoint. A zero-length segment (reached
   * only when the whole path has length 0) is given ratio 1.
   */
  function CheckpointRatio(dist: Distance, path: seq<Coord>, n: nat, k: nat): real
    requires |path| >= 2
  {
    var i := CheckpointSegment(dist, path, n, k);
    SegmentRatio(Cum(dist, path, i), Target(Spacing(dist, path, n), k), dist(path[i - 1], path[i]))
  }

  /** The checkpoint numbered `k + 1`. */
  function Place(dist: Distance, path: seq<Coord>, n: nat, k: nat): RoutePoint
    requires |path| >= 2
  {
    var i := CheckpointSegment(dist, path, n, k);
    RoutePoint(Interpolate(path[i - 1], path[i], CheckpointRatio(dist, path, n, k)), CheckpointName(k))
  }

  /** What calculateCheckpoints returns: nothing for a path of at most 2 points, else `n` checkpoints. */
  function Checkpoints(dist: Distance, path: seq<Coord>, n: int): seq<RoutePoint> {
    if |path| <= 2 || n <= 0 then []
    else seq(n, k requires 0 <= k < n => Place(dist, path, n, k))
  }

  lemma {:induction false} CumNonNegMonotone(dist: Distance, path: seq<Coord>, m: nat, i: nat)
    requires IsDistance(dist)
    requires m <= i < |path|
    ensures 0.0 <= Cum(dist, path, m) <= Cum(dist, path, i)
    decreases i
  {
    if i > 0 {
      assert dist(path[i - 1], path[i]) >= 0.0;
      if m < i {
        CumNonNegMonotone(dist, path, m, i - 1);
      } else {
        CumNonNegMonotone(dist, path, i - 1, i - 1);
      }
    }
  }

  /** FirstReach stops at the first segment reaching `t`, or at the last segment. */
  lemma {:induction false} FirstReachSpec(dist: Distance, path: seq<Coord>, t: real, j: nat)
    requires 1 <= j < |path|
    ensures var i := FirstReach(dist, path, t, j);
              (Cum(dist, path, i) >= t || i == |path| - 1)
              && forall m :: j <= m < i ==> Cum(dist, path, m) < t
    decreases |path| - j
  {
    if !(j == |path| - 1 || Cum(dist, path, j) >= t) {
      FirstReachSpec(dist, path, t, j + 1);
    }
  }

  /** The segment found when `path[i]` reaches `t` and `path[i−1]` does not. */
  lemma FirstReachAt(dist: Distance, path: seq<Coord>, t: real, i: nat)
    requires IsDistance(dist)
    requires 1 <= i < |path|
    requires Cum(dist, path, i) >= t
    requires i == 1 || Cum(dist, path, i - 1) < t
    ensures FirstReach(dist, path, t, 1) == i
  {
    FirstReachSpec(dist, path, t, 1);
    var r := FirstReach(dist, path, t, 1);
    if r < i && Cum(dist, path, r) >= t {
      CumNonNegMonotone(dist, path, r, i - 1);
    }
  }

  /** The checkpoint numbered `k + 1` when segment `i` is the first to reach its target. */
  lemma PlaceAt(dist: Distance, path: seq<Coord>, n: nat, k: nat, i: nat)
    requires IsDistance(dist)
    requires 1 <= i < |path|
    requires Cum(dist, path, i) >= Target(Spacing(dist, path, n), k)
    requires i == 1 || Cum(dist, path, i - 1) < Target(Spacing(dist, path, n), k)
    ensures var t, seg := Target(Spacing(dist, path, n), k), dist(path[i - 1], path[i]);
            Place(dist, path, n, k) ==
              RoutePoint(Interpolate(path[i - 1], path[i], SegmentRatio(Cum(dist, path, i), t, seg)),
                         CheckpointName(k))
  {
    FirstReachAt(dist, path, Target(Spacing(dist, path, n), k), i);
  }

  lemma MulNonNeg(a: real, b: real)
    requires a >= 0.0 && b >= 0.0
    ensures a * b >= 0.0
  {
  }

  lemma DivMul(a: real, b: real)
    requires b > 0.0
    ensures (a / b) * b == a
    ensures a >= 0.0 ==> a / b >= 0.0
  {
  }

  /** The `k`-th target is `(k + 1)·spacing`. */
  lemma {:induction false} TargetClosedForm(spacing: real, k: nat)
    ensures Target(spacing, k) == (k as real + 1.0) * spacing
  {
    if k > 0 {
      TargetClosedForm(spacing, k - 1);
      assert ((k - 1) as real + 1.0) * spacing + spacing == (k as real + 1.0) * spacing;
    }
  }

  /** The `n` targets are non-negative, non-decreasing and never pass the end of the path. */
  lemma TargetBounds(total: real, n: nat, k: nat)
    requires total >= 0.0 && k < n
    ensures 0.0 <= Target(total / (n as real + 1.0), k) <= total
    ensures Target(total / (n as real + 1.0), k) <= Target(total / (n as real + 1.0), k + 1)
  {
    var s := total / (n as real + 1.0);
    DivMul(total, n as real + 1.0);
    TargetClosedForm(s, k);
    MulNonNeg(k as real + 1.0, s);
    MulNonNeg((n - k) as real, s);
    assert (n as real + 1.0) * s - (k as real + 1.0) * s == (n - k) as real * s;
  }

  /**
   * The state of calculateCheckpoints' main loop before it measures the segment ending at
   * `path[i]`: `current` is the length walked so far, `cps` the checkpoints placed so far and
   * `next` the target of the following one, which the walk has not passed while one is due.
   */
  ghost predicate Scanning(dist: Distance, path: seq<Coord>, n: nat, spacing: real,
                           i: nat, current: real, cps: seq<RoutePoint>, next: real)
    requires |path| >= 2
  {
    && IsDistance(dist)
    && 1 <= i <= |path|
    && spacing == Spacing(dist, path, n) && spacing >= 0.0
    && current == Cum(dist, path, i - 1)
    && |cps| <= n
    && next == Target(spacing, |cps|)
    && (forall k :: 0 <= k < |cps| ==> cps[k] == Place(dist, path, n, k))
    && (|cps| < n && i > 1 ==> Cum(dist, path, i - 1) < next)
  }

  /** The state inside the inner loop, once the segment ending at `path[i]` has been added. */
  ghost predicate Emitting(dist: Distance, path: seq<Coord>, n: nat, spacing: real,
                           i: nat, current: real, cps: seq<RoutePoint>, next: real)
    requires |path| >= 2
  {
    && IsDistance(dist)
    && 1 <= i < |path|
    && spacing == Spacing(dist, path, n) && spacing >= 0.0
    && current == Cum(dist, path, i)
    && |cps| <= n
    && next == Target(spacing, |cps|)
    && (forall k :: 0 <= k < |cps| ==> cps[k] == Place(dist, path, n, k))
    && (|cps| < n && i > 1 ==> Cum(dist, path, i - 1) < next)
  }

  lemma ScanStart(dist: Distance, path: seq<Coord>, n: nat)
    requires IsDistance(dist) && |path| >= 2
    ensures Scanning(dist, path, n, Spacing(dist, path, n), 1, 0.0, [], Spacing(dist, path, n))
  {
    CumNonNegMonotone(dist, path, 0, |path| - 1);
    DivMul(Cum(dist, path, |path| - 1), n as real + 1.0);
  }

  lemma ScanEnter(dist: Distance, path: seq<Coord>, n: nat, spacing: real,
                  i: nat, current: real, cps: seq<RoutePoint>, next: real)
    requires |path| >= 2 && Scanning(dist, path, n, spacing, i, current, cps, next) && i < |path|
    ensures Emitting(dist, path, n, spacing, i, current + dist(path[i - 1], path[i]), cps, next)
  {
  }

  /** Placing one checkpoint keeps the inner-loop state. */
  lemma Emit(dist: Distance, path: seq<Coord>, n: nat, spacing: real,
             i: nat, current: real, cps: seq<RoutePoint>, next: real)
    requires |path| >= 2 && Emitting(dist, path, n, spacing, i, current, cps, next)
    requires current >= next && |cps| < n
    ensures var seg := dist(path[i - 1], path[i]);
            var cp := RoutePoint(Interpolate(path[i - 1], path[i], SegmentRatio(current, next, seg)), CheckpointName(|cps|));
            Emitting(dist, path, n, spacing, i, current, cps + [cp], next + spacing)
  {
    PlaceAt(dist, path, n, |cps|, i);
  }

  lemma ScanLeave(dist: Distance, path: seq<Coord>, n: nat, spacing: real,
                  i: nat, current: real, cps: seq<RoutePoint>, next: real)
    requires |path| >= 2 && Emitting(dist, path, n, spacing, i, current, cps, next)
    requires !(current >= next && |cps| < n)
    ensures Scanning(dist, path, n, spacing, i + 1, current, cps, next)
  {
  }

  /** Once every segment has been walked, all `n` checkpoints have been placed. */
  lemma ScanDone(dist: Distance, path: seq<Coord>, n: nat, spacing: real,
                 current: real, cps: seq<RoutePoint>, next: real)
    requires |path| > 2 && n > 0 && Scanning(dist, path, n, spacing, |path|, current, cps, next)
    ensures cps == Checkpoints(dist, path, n)
  {
    if |cps| < n {
      CumNonNegMonotone(dist, path, 0, |path| - 1);
      TargetBounds(Cum(dist, path, |path| - 1), n, |cps|);
      assert false;
    }
  }

  method CalculateCheckpoints(dist: Distance, path: seq<Coord>, numCheckpoints: int) returns (cps: seq<RoutePoint>)
    requires IsDistance(dist)
    ensures cps == Checkpoints(dist, path, numCheckpoints)
  {
    if |path| <= 2 {
      return [];
    }
    var total := 0.0;
    var i := 1;
    while i < |path|
      invariant 1 <= i <= |path|
      invariant total == Cum(dist, path, i - 1)
    {
      total := total + dist(path[i - 1], path[i]);
      i := i + 1;
    }
    // With numCheckpoints <= 0 the guard `checkpoints.length < numCheckpoints` never holds.
    if numCheckpoints <= 0 {
      return [];
    }
    var n: nat := numCheckpoints;
    var spacing := total / (n as real + 1.0);
    cps := [];
    var current := 0.0;
    var next := spacing;
    i := 1;
    ScanStart(dist, path, n);
    while i < |path|
      invariant Scanning(dist, path, n, spacing, i, current, cps, next)
      decreases |path| - i
    {
      var segment := dist(path[i - 1], path[i]);
      ScanEnter(dist, path, n, spacing, i, current, cps, next);
      current := current + segment;
      while current >= next && |cps| < n
        invariant Emitting(dist, path, n, spacing, i, current, cps, next)
        decreases n - |cps|
      {
        Emit(dist, path, n, spacing, i, current, cps, next);
        var ratio := SegmentRatio(current, next, segment);
        var location := Interpolate(path[i - 1], path[i], ratio);
        cps := cps + [RoutePoint(location, CheckpointName(|cps|))];
        next := next + spacing;
      }
      ScanLeave(dist, path, n, spacing, i, current, cps, next);
      i := i + 1;
    }
    ScanDone(dist, path, n, spacing, current, cps, next);
  }

  /** `1 − (c − t)/seg` lies in [0, 1] when `c − seg <= t <= c`. */
  lemma RatioInUnit(c: real, t: real, seg: real)
    requires seg > 0.0 && c - seg <= t <= c
    ensures 0.0 <= 1.0 - (c - t) / seg <= 1.0
  {
    var q := (c - t) / seg;
    DivMul(c - t, seg);
    if q > 1.0 {
      MulPos(q - 1.0, seg);
    }
  }

  /** The target of each checkpoint lies between the two path points bracketing its segment. */
  lemma CheckpointBracket(dist: Distance, path: seq<Coord>, n: nat, k: nat)
    requires IsDistance(dist)
    requires |path| >= 2 && k < n
    ensures var i, t := CheckpointSegment(dist, path, n, k), Target(Spacing(dist, path, n), k);
            0.0 <= t <= Cum(dist, path, i) && (i == 1 || Cum(dist, path, i - 1) < t)
  {
    var total := Cum(dist, path, |path| - 1);
    CumNonNegMonotone(dist, path, 0, |path| - 1);
    TargetBounds(total, n, k);
    FirstReachSpec(dist, path, Target(Spacing(dist, path, n), k), 1);
  }

  /** Each checkpoint's interpolation ratio lies in [0, 1]. */
  lemma CheckpointRatioInUnit(dist: Distance, path: seq<Coord>, n: nat, k: nat)
    requires IsDistance(dist)
    requires |path| >= 2 && k < n
    ensures 0.0 <= CheckpointRatio(dist, path, n, k) <= 1.0
  {
    CheckpointBracket(dist, path, n, k);
    var t := Target(Spacing(dist, path, n), k);
    var i := CheckpointSegment(dist, path, n, k);
    var seg := dist(path[i - 1], path[i]);
    if seg != 0.0 {
      assert seg > 0.0;
      CumNonNegMonotone(dist, path, i - 1, i - 1);
      RatioInUnit(Cum(dist, path, i), t, seg);
    }
  }

  /**
   * A non-empty result has exactly `n` checkpoints; each interpolates the ends of its segment and
   * is named "Checkpoint k+1".
   */
  lemma CheckpointPlacement(dist: Distance, path: seq<Coord>, n: int, k: nat)
    requires k < |Checkpoints(dist, path, n)|
    ensures |Checkpoints(dist, path, n)| == n && |path| > 2
    ensures var i := CheckpointSegment(dist, path, n, k);
            Checkpoints(dist, path, n)[k] ==
              RoutePoint(Interpolate(path[i - 1], path[i], CheckpointRatio(dist, path, n, k)),
                         "Checkpoint " + NatToString(k + 1))
  {
    assert Checkpoints(dist, path, n)[k] == Place(dist, path, n, k);
  }

  /** The checkpoint numbered `k + 1` is named after its number. */
  lemma CheckpointNamed(dist: Distance, path: seq<Coord>, n: int, k: nat)
    requires k < |Checkpoints(dist, path, n)|
    ensures |Checkpoints(dist, path, n)| == n && Checkpoints(dist, path, n)[k].name == CheckpointName(k)
  {
    assert Checkpoints(dist, path, n)[k] == Place(dist, path, n, k);
  }

  /** A farther target is first reached on a later (or the same) segment. */
  lemma FirstReachMonotone(dist: Distance, path: seq<Coord>, t1: real, t2: real)
    requires |path| >= 2 && t1 <= t2
    ensures FirstReach(dist, path, t1, 1) <= FirstReach(dist, path, t2, 1)
  {
    FirstReachSpec(dist, path, t1, 1);
    FirstReachSpec(dist, path, t2, 1);
  }

  /** With a non-negative spacing, targets never decrease. */
  lemma {:induction false} TargetMonotone(spacing: real, k1: nat, k2: nat)
    requires spacing >= 0.0 && k1 <= k2
    ensures Target(spacing, k1) <= Target(spacing, k2)
    decreases k2
  {
    if k1 < k2 {
      TargetMonotone(spacing, k1, k2 - 1);
    }
  }

  /** Checkpoints come in path order: a later checkpoint never lies on an earlier segment. */
  lemma CheckpointsInPathOrder(dist: Distance, path: seq<Coord>, n: nat, k1: nat, k2: nat)
    requires IsDistance(dist)
    requires |path| >= 2 && k1 <= k2
    ensures CheckpointSegment(dist, path, n, k1) <= CheckpointSegment(dist, path, n, k2)
  {
    CumNonNegMonotone(dist, path, 0, |path| - 1);
    DivMul(Cum(dist, path, |path| - 1), n as real + 1.0);
    var s := Spacing(dist, path, n);
    TargetMonotone(s, k1, k2);
    FirstReachMonotone(dist, path, Target(s, k1), Target(s, k2));
  }
}
