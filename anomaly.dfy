/**
 * Movement heuristics and geofences of utils/EnhancedGoogleMapsUtil.js: the longest stop, the
 * route deviation and the speed outlier rules behind detectMovementAnomalies, circle and corridor
 * geofences, checkpoints with geofences, duration formatting and the traffic classification.
 */
module EnhancedMaps {
  import opened Wrappers
  import opened Strings
  import opened Geo

  /** A reported position: coordinates and a timestamp in milliseconds. */
  datatype Position = Position(coordinates: Coord, timestamp: int)

  /** A pair closer than this many kilometres counts as stopped (50 metres). */
  const StopThresholdKm: real := 0.05
  /** A stop longer than this many seconds is reported (30 minutes). */
  const StopLimitSeconds: real := 1800.0
  /** A deviation beyond this many kilometres is reported. */
  const DeviationLimitKm: real := 2.0
  /** Only speeds above this many km/h can be reported. */
  const SpeedLimitKmh: real := 100.0
  /** Milliseconds in an hour. */
  const MsPerHour: real := 3600000.0

  function Max(a: real, b: real): real {
    if a >= b then a else b
  }

  // ---------------------------------------------------------------------------------------------
  // calculateLongestStop
  // ---------------------------------------------------------------------------------------------

  /** The pair `ps[j−1]`, `ps[j]` is closer than the stop threshold. */
  predicate Stopped(dist: Distance, ps: seq<Position>, j: nat)
    requires 1 <= j < |ps|
  {
    dist(ps[j - 1].coordinates, ps[j].coordinates) < StopThresholdKm
  }

  /** The timestamp at which the run of stopped pairs containing pair `j` began. */
  function RunStart(dist: Distance, ps: seq<Position>, j: nat): int
    requires 1 <= j < |ps| && Stopped(dist, ps, j)
  {
    if j > 1 && Stopped(dist, ps, j - 1) then RunStart(dist, ps, j - 1) else ps[j - 1].timestamp
  }

  /** How long, in seconds, the vehicle has been stopped at the end of pair `j`. */
  function StopDuration(dist: Distance, ps: seq<Position>, j: nat): real
    requires 1 <= j < |ps| && Stopped(dist, ps, j)
  {
    (ps[j].timestamp - RunStart(dist, ps, j)) as real / 1000.0
  }

  /** The longest stop over the pairs ending before `ps[i]`, starting from 0. */
  function LongestStopUpTo(dist: Distance, ps: seq<Position>, i: nat): real
    requires i <= |ps|
  {
    if i <= 1 then 0.0
    else if Stopped(dist, ps, i - 1) then Max(LongestStopUpTo(dist, ps, i - 1), StopDuration(dist, ps, i - 1))
    else LongestStopUpTo(dist, ps, i - 1)
  }

  function LongestStop(dist: Distance, ps: seq<Position>): real {
    LongestStopUpTo(dist, ps, |ps|)
  }

  /**
   * The longest stop is never negative, bounds every stop run, and is either 0 or the duration of
   * some stopped pair.
   */
  lemma {:induction false} LongestStopIsMaximum(dist: Distance, ps: seq<Position>, i: nat)
    requires i <= |ps|
    ensures LongestStopUpTo(dist, ps, i) >= 0.0
    ensures forall j :: 1 <= j < i && Stopped(dist, ps, j) ==> StopDuration(dist, ps, j) <= LongestStopUpTo(dist, ps, i)
    ensures LongestStopUpTo(dist, ps, i) == 0.0 ||
            exists j :: 1 <= j < i && Stopped(dist, ps, j) && StopDuration(dist, ps, j) == LongestStopUpTo(dist, ps, i)
  {
    if i > 1 {
      LongestStopIsMaximum(dist, ps, i - 1);
    }
  }

  /** A run starts at the earlier timestamp of its first stopped pair, which precedes every pair in it. */
  lemma {:induction false} RunStartIsRunHead(dist: Distance, ps: seq<Position>, j: nat)
    requires 1 <= j < |ps| && Stopped(dist, ps, j)
    ensures exists h :: 0 <= h < j && RunStart(dist, ps, j) == ps[h].timestamp &&
              (h == 0 || !Stopped(dist, ps, h)) &&
              forall m :: h < m <= j ==> Stopped(dist, ps, m)
  {
    if j > 1 && Stopped(dist, ps, j - 1) {
      RunStartIsRunHead(dist, ps, j - 1);
      var h :| 0 <= h < j - 1 && RunStart(dist, ps, j - 1) == ps[h].timestamp &&
                (h == 0 || !Stopped(dist, ps, h)) && forall m :: h < m <= j - 1 ==> Stopped(dist, ps, m);
      assert forall m :: h < m <= j ==> Stopped(dist, ps, m);
    } else {
      assert forall m :: j - 1 < m <= j ==> Stopped(dist, ps, m);
    }
  }

  method CalculateLongestStop(dist: Distance, positions: seq<Position>) returns (longest: real)
    ensures longest == LongestStop(dist, positions)
  {
    longest := 0.0;
    var currentStopStart: Option<int> := None;
    var i := 1;
    while i < |positions|
      invariant 1 <= i <= |positions| || (|positions| == 0 && i == 1)
      invariant i <= |positions| ==> longest == LongestStopUpTo(dist, positions, i)
      invariant |positions| == 0 ==> longest == 0.0
      invariant currentStopStart ==
                  if 1 < i <= |positions| && Stopped(dist, positions, i - 1)
                  then Some(RunStart(dist, positions, i - 1)) else None
    {
      var p1 := positions[i - 1];
      var p2 := positions[i];
      var distance := dist(p1.coordinates, p2.coordinates);
      if distance < StopThresholdKm {
        if currentStopStart.None? {
          currentStopStart := Some(p1.timestamp);
        }
        var currentStopDuration := (p2.timestamp - currentStopStart.value) as real / 1000.0;
        longest := Max(longest, currentStopDuration);
      } else {
        currentStopStart := None;
      }
      i := i + 1;
    }
  }

  /** With two positions, a stop is reported exactly when they are under 50 m and over 30 minutes apart. */
  lemma TwoPositionStop(dist: Distance, p1: Position, p2: Position)
    ensures LongestStop(dist, [p1, p2]) > StopLimitSeconds <==>
              dist(p1.coordinates, p2.coordinates) < StopThresholdKm && p2.timestamp - p1.timestamp > 1800000
  {
    var ps := [p1, p2];
    assert LongestStopUpTo(dist, ps, 1) == 0.0;
    if Stopped(dist, ps, 1) {
      assert RunStart(dist, ps, 1) == p1.timestamp;
      assert StopDuration(dist, ps, 1) == (p2.timestamp - p1.timestamp) as real / 1000.0;
    }
  }

  // ---------------------------------------------------------------------------------------------
  // calculateMaxRouteDeviation
  // ---------------------------------------------------------------------------------------------

  /** A distance that may be `Infinity`. */
  datatype Extended = Fin(value: real) | PosInf {
    predicate Exceeds(limit: real) {
      PosInf? || value > limit
    }
  }

  function MinExt(a: Extended, b: real): Extended {
    if a.Fin? && a.value <= b then a else Fin(b)
  }

  function MaxExt(a: Extended, b: Extended): Extended {
    if a.PosInf? || b.PosInf? then PosInf else Fin(Max(a.value, b.value))
  }

  /** `minDistance` for one position after the first `j` route points (`Infinity` initially). */
  function MinRouteDistance(dist: Distance, p: Coord, route: seq<Coord>, j: nat): Extended
    requires j <= |route|
  {
    if j == 0 then PosInf else MinExt(MinRouteDistance(dist, p, route, j - 1), dist(p, route[j - 1]))
  }

  /** `maxDeviation` after the first `i` positions (0 initially). */
  function MaxDeviationUpTo(dist: Distance, ps: seq<Position>, route: seq<Coord>, i: nat): Extended
    requires i <= |ps|
  {
    if i == 0 then Fin(0.0)
    else MaxExt(MaxDeviationUpTo(dist, ps, route, i - 1), MinRouteDistance(dist, ps[i - 1].coordinates, route, |route|))
  }

  function MaxRouteDeviation(dist: Distance, ps: seq<Position>, route: seq<Coord>): Extended {
    MaxDeviationUpTo(dist, ps, route, |ps|)
  }

  /** The running minimum exceeds a limit exactly when every route point seen so far is beyond it. */
  lemma {:induction false} MinRouteDistanceExceeds(dist: Distance, p: Coord, route: seq<Coord>, j: nat, limit: real)
    requires j <= |route|
    ensures MinRouteDistance(dist, p, route, j).Exceeds(limit) <==> forall m :: 0 <= m < j ==> dist(p, route[m]) > limit
  {
    if j > 0 {
      MinRouteDistanceExceeds(dist, p, route, j - 1, limit);
    }
  }

  /** The running maximum exceeds a limit (>= 0) exactly when some position seen so far does. */
  lemma {:induction false} MaxDeviationUpToExceeds(dist: Distance, ps: seq<Position>, route: seq<Coord>, i: nat, limit: real)
    requires i <= |ps| && limit >= 0.0
    ensures MaxDeviationUpTo(dist, ps, route, i).Exceeds(limit) <==>
              exists m :: 0 <= m < i && MinRouteDistance(dist, ps[m].coordinates, route, |route|).Exceeds(limit)
  {
    if i > 0 {
      MaxDeviationUpToExceeds(dist, ps, route, i - 1, limit);
    }
  }

  /**
   * A route deviation is reported exactly when some position is more than 2 km from every point
   * of the expected route; with an empty route (deviation `Infinity`) any position triggers it.
   */
  lemma RouteDeviationReported(dist: Distance, ps: seq<Position>, route: seq<Coord>)
    ensures MaxRouteDeviation(dist, ps, route).Exceeds(DeviationLimitKm) <==>
              exists i :: 0 <= i < |ps| && forall j :: 0 <= j < |route| ==> dist(ps[i].coordinates, route[j]) > DeviationLimitKm
  {
    MaxDeviationUpToExceeds(dist, ps, route, |ps|, DeviationLimitKm);
    forall i | 0 <= i < |ps| {
      MinRouteDistanceExceeds(dist, ps[i].coordinates, route, |route|, DeviationLimitKm);
    }
  }

  method CalculateMaxRouteDeviation(dist: Distance, positions: seq<Position>, route: seq<Coord>) returns (maxDeviation: Extended)
    ensures maxDeviation == MaxRouteDeviation(dist, positions, route)
  {
    maxDeviation := Fin(0.0);
    var i := 0;
    while i < |positions|
      invariant 0 <= i <= |positions|
      invariant maxDeviation == MaxDeviationUpTo(dist, positions, route, i)
    {
      var minDistance := PosInf;
      var j := 0;
      while j < |route|
        invariant 0 <= j <= |route|
        invariant minDistance == MinRouteDistance(dist, positions[i].coordinates, route, j)
      {
        minDistance := MinExt(minDistance, dist(positions[i].coordinates, route[j]));
        j := j + 1;
      }
      maxDeviation := MaxExt(maxDeviation, minDistance);
      i := i + 1;
    }
  }

  // ---------------------------------------------------------------------------------------------
  // detectSpeedAnomaly
  // ---------------------------------------------------------------------------------------------

  /** The time between two timestamps in hours, as the speed rule intends (1 h = 3 600 000 ms). */
  function PairHours(t1: int, t2: int): real {
    (t2 - t1) as real / MsPerHour
  }

  /** The time as the source computes it: the millisecond difference divided by 3600. */
  function PairHoursAsWritten(t1: int, t2: int): real {
    (t2 - t1) as real / 3600.0
  }

  /**
   * The speeds of the pairs ending before `ps[i]` that have a positive time difference, in pair
   * order, in km/h.
   */
  function SpeedsUpTo(dist: Distance, ps: seq<Position>, i: nat): seq<real>
    requires i <= |ps|
  {
    if i <= 1 then []
    else
      var hours := PairHours(ps[i - 2].timestamp, ps[i - 1].timestamp);
      if hours > 0.0 then SpeedsUpTo(dist, ps, i - 1) + [dist(ps[i - 2].coordinates, ps[i - 1].coordinates) / hours]
      else SpeedsUpTo(dist, ps, i - 1)
  }

  /** The same list computed with the source's hour conversion. */
  function SpeedsAsWritten(dist: Distance, ps: seq<Position>, i: nat): seq<real>
    requires i <= |ps|
  {
    if i <= 1 then []
    else
      var hours := PairHoursAsWritten(ps[i - 2].timestamp, ps[i - 1].timestamp);
      if hours > 0.0 then SpeedsAsWritten(dist, ps, i - 1) + [dist(ps[i - 2].coordinates, ps[i - 1].coordinates) / hours]
      else SpeedsAsWritten(dist, ps, i - 1)
  }

  /** Two positions 150 km and one hour apart: the source records 0.15 km/h, the intent 150 km/h. */
  lemma SpeedUnitDiscrepancy(dist: Distance, p1: Position, p2: Position)
    requires dist(p1.coordinates, p2.coordinates) == 150.0
    requires p2.timestamp == p1.timestamp + 3600000
    ensures SpeedsAsWritten(dist, [p1, p2], 2) == [0.15]
    ensures SpeedsUpTo(dist, [p1, p2], 2) == [150.0]
  {
  }

  /** Only pairs with a positive time difference contribute, one speed each. */
  lemma {:induction false} SpeedsCount(dist: Distance, ps: seq<Position>, i: nat)
    requires i <= |ps|
    ensures |SpeedsUpTo(dist, ps, i)| <= if i == 0 then 0 else i - 1
    ensures |SpeedsUpTo(dist, ps, i)| == 0 <==> forall j :: 1 <= j < i ==> ps[j].timestamp <= ps[j - 1].timestamp
  {
    if i > 1 {
      SpeedsCount(dist, ps, i - 1);
    }
  }

  /**
   * Both conversions count the same pairs, and every intended speed is 1000 times the speed the
   * source computes for the same pair.
   */
  lemma {:induction false} SpeedsScale(dist: Distance, ps: seq<Position>, i: nat)
    requires i <= |ps|
    ensures |SpeedsUpTo(dist, ps, i)| == |SpeedsAsWritten(dist, ps, i)|
    ensures forall j :: 0 <= j < |SpeedsUpTo(dist, ps, i)| ==>
              SpeedsUpTo(dist, ps, i)[j] == 1000.0 * SpeedsAsWritten(dist, ps, i)[j]
  {
    if i > 1 {
      SpeedsScale(dist, ps, i - 1);
      var x := (ps[i - 1].timestamp - ps[i - 2].timestamp) as real;
      var d := dist(ps[i - 2].coordinates, ps[i - 1].coordinates);
      if x > 0.0 {
        assert d / (x / MsPerHour) == 1000.0 * (d / (x / 3600.0)) by {
          assert d / (x / MsPerHour) == d * MsPerHour / x;
          assert d / (x / 3600.0) == d * 3600.0 / x;
        }
      }
    }
  }

  /**
   * The rule as written fires only when some pair is, measured correctly, faster than
   * 100 000 km/h, so it never reports a road vehicle.
   */
  lemma AsWrittenRuleNeedsExtremeSpeed(dist: Distance, ps: seq<Position>)
    ensures var w := SpeedsAsWritten(dist, ps, |ps|);
            var s := SpeedsUpTo(dist, ps, |ps|);
            |w| > 0 && IsSpeedOutlier(w) ==> exists j :: 0 <= j < |s| && s[j] > 1000.0 * SpeedLimitKmh
  {
    var w := SpeedsAsWritten(dist, ps, |ps|);
    var s := SpeedsUpTo(dist, ps, |ps|);
    SpeedsScale(dist, ps, |ps|);
    if |w| > 0 && IsSpeedOutlier(w) {
      var j :| 0 <= j < |w| && w[j] == MaxOf(w);
      assert s[j] > 1000.0 * SpeedLimitKmh;
    }
  }

  /** Ten legs at `slow` km/h followed by one at `fast` km/h. */
  function OneFastLeg(slow: real, fast: real): seq<real> {
    seq(10, _ => slow) + [fast]
  }

  lemma {:induction false} RepeatSums(n: nat, a: real, m: real)
    ensures Sum(seq(n, _ => a)) == n as real * a
    ensures SumSquaredDeviation(seq(n, _ => a), m) == n as real * ((a - m) * (a - m))
  {
    if n > 0 {
      assert seq(n, _ => a)[..n - 1] == seq(n - 1, _ => a);
      RepeatSums(n - 1, a, m);
    }
  }

  /**
   * Ten legs at 50 km/h and one at 1000 km/h: the intended rule reports the 1000 km/h leg. The
   * same trip measured as the source does gives 0.05 and 1.0 km/h, which is never reported.
   */
  lemma FastLegOutlier()
    ensures IsSpeedOutlier(OneFastLeg(50.0, 1000.0)) && MaxOf(OneFastLeg(50.0, 1000.0)) == 1000.0
    ensures forall j :: 0 <= j < 11 ==> OneFastLeg(50.0, 1000.0)[j] == 1000.0 * OneFastLeg(0.05, 1.0)[j]
    ensures !IsSpeedOutlier(OneFastLeg(0.05, 1.0))
  {
    var s := OneFastLeg(50.0, 1000.0);
    assert s[..10] == seq(10, _ => 50.0);
    RepeatSums(10, 50.0, Mean(s));
    assert Sum(s) == 1500.0;
    assert Mean(s) == 1500.0 / 11.0;
    assert SumSquaredDeviation(s, Mean(s)) == 99275000.0 / 121.0;
    assert MaxOf(s) == 1000.0 by {
      assert s[10] == 1000.0;
      assert forall j :: 0 <= j < |s| ==> s[j] <= 1000.0;
    }
    var w := OneFastLeg(0.05, 1.0);
    assert MaxOf(w) <= 1.0 by {
      assert forall j :: 0 <= j < |w| ==> w[j] <= 1.0;
    }
  }

  function Sum(s: seq<real>): real {
    if |s| == 0 then 0.0 else Sum(s[..|s| - 1]) + s[|s| - 1]
  }

  function SumSquaredDeviation(s: seq<real>, mean: real): real {
    if |s| == 0 then 0.0 else SumSquaredDeviation(s[..|s| - 1], mean) + (s[|s| - 1] - mean) * (s[|s| - 1] - mean)
  }

  /** `speeds.reduce((sum, speed) => sum + speed, 0) / speeds.length`. */
  function Mean(s: seq<real>): real
    requires |s| > 0
  {
    Sum(s) / |s| as real
  }

  /** The population variance: the mean squared deviation from the mean. */
  function Variance(s: seq<real>): real
    requires |s| > 0
  {
    SumSquaredDeviation(s, Mean(s)) / |s| as real
  }

  /** `Math.max(...s)` for a non-empty list. */
  function MaxOf(s: seq<real>): (m: real)
    requires |s| > 0
    ensures (forall j :: 0 <= j < |s| ==> s[j] <= m) && exists j :: 0 <= j < |s| && s[j] == m
  {
    if |s| == 1 then s[0]
    else
      var rest := MaxOf(s[..|s| - 1]);
      assert forall j :: 0 <= j < |s| - 1 ==> s[..|s| - 1][j] == s[j];
      Max(rest, s[|s| - 1])
  }

  /** `s.indexOf(x)`: the first index holding `x`. */
  function IndexOf(s: seq<real>, x: real): (k: nat)
    requires exists j :: 0 <= j < |s| && s[j] == x
    ensures k < |s| && s[k] == x && forall j :: 0 <= j < k ==> s[j] != x
  {
    if s[0] == x then 0 else 1 + IndexOf(s[1..], x)
  }

  /** An unusual speed finding: the top speed, the mean speed and where it was recorded. */
  datatype SpeedFinding = SpeedFinding(speed: real, averageSpeed: real, location: Coord)

  /** The outlier test on the statistics, with the square root removed: see `OutlierCore`. */
  predicate OutlierStats(top: real, avg: real, variance: real) {
    top - avg > 0.0 && (top - avg) * (top - avg) > 9.0 * variance && top > SpeedLimitKmh
  }

  /** The test `max > mean + 3·stddev && max > 100` on a non-empty speed list. */
  predicate IsSpeedOutlier(speeds: seq<real>)
    requires |speeds| > 0
  {
    OutlierStats(MaxOf(speeds), Mean(speeds), Variance(speeds))
  }

  /** What detectSpeedAnomaly returns for a list of positions. */
  function SpeedAnomaly(dist: Distance, ps: seq<Position>): Option<SpeedFinding> {
    var speeds := SpeedsUpTo(dist, ps, |ps|);
    if |speeds| == 0 || !IsSpeedOutlier(speeds) then None
    else
      var top := MaxOf(speeds);
      SpeedsCount(dist, ps, |ps|);
      Some(SpeedFinding(top, Mean(speeds), ps[IndexOf(speeds, top) + 1].coordinates))
  }

  /** The outlier test on plain numbers, with and without the square root `sd` of the variance. */
  lemma OutlierCore(top: real, avg: real, variance: real, sd: real)
    requires sd >= 0.0 && sd * sd == variance
    ensures OutlierStats(top, avg, variance) <==> top > avg + 3.0 * sd && top > SpeedLimitKmh
  {
    assert (3.0 * sd) * (3.0 * sd) == 9.0 * (sd * sd);
    StrictSqrtComparison(9.0 * variance, 3.0 * sd, top - avg);
  }

  /**
   * For any standard deviation `sd` (non-negative with `sd² = variance`), the source's test
   * `max > avg + 3·sd && max > 100` is `IsSpeedOutlier`.
   */
  lemma OutlierTestWithoutSqrt(speeds: seq<real>, sd: real)
    requires |speeds| > 0
    requires sd >= 0.0 && sd * sd == Variance(speeds)
    ensures IsSpeedOutlier(speeds) <==> MaxOf(speeds) > Mean(speeds) + 3.0 * sd && MaxOf(speeds) > SpeedLimitKmh
  {
    OutlierCore(MaxOf(speeds), Mean(speeds), Variance(speeds), sd);
  }

  /** One speed is its own mean, so it is never an outlier. */
  lemma SingleSpeedNeverOutlier(v: real)
    ensures !IsSpeedOutlier([v])
  {
    assert [v][..0] == [];
    assert Sum([v]) == v;
    assert Mean([v]) == v;
  }

  /** Two positions give at most one speed, so detectSpeedAnomaly never reports on them. */
  lemma TwoPositionsNoSpeedFinding(dist: Distance, p1: Position, p2: Position)
    ensures SpeedAnomaly(dist, [p1, p2]).None?
  {
    var speeds := SpeedsUpTo(dist, [p1, p2], 2);
    SpeedsCount(dist, [p1, p2], 2);
    if |speeds| > 0 {
      SingleSpeedNeverOutlier(speeds[0]);
      assert speeds == [speeds[0]];
    }
  }

  /** The speed loop of detectSpeedAnomaly: one speed per consecutive pair with time between them. */
  method CollectSpeeds(dist: Distance, positions: seq<Position>) returns (speeds: seq<real>)
    ensures speeds == SpeedsUpTo(dist, positions, |positions|)
  {
    speeds := [];
    var i := 1;
    while i < |positions|
      invariant 1 <= i <= |positions| || (|positions| == 0 && i == 1)
      invariant speeds == SpeedsUpTo(dist, positions, if i <= |positions| then i else 0)
    {
      var p1 := positions[i - 1];
      var p2 := positions[i];
      var distance := dist(p1.coordinates, p2.coordinates);
      var timeDiff := PairHours(p1.timestamp, p2.timestamp);
      if timeDiff > 0.0 {
        speeds := speeds + [distance / timeDiff];
      }
      i := i + 1;
    }
  }

  method DetectSpeedAnomaly(dist: Distance, positions: seq<Position>) returns (finding: Option<SpeedFinding>)
    ensures finding == SpeedAnomaly(dist, positions)
  {
    var speeds := CollectSpeeds(dist, positions);
    if |speeds| == 0 {
      return None;
    }
    if IsSpeedOutlier(speeds) {
      var maxSpeed := MaxOf(speeds);
      SpeedsCount(dist, positions, |positions|);
      finding := Some(SpeedFinding(maxSpeed, Mean(speeds),
                                   positions[IndexOf(speeds, maxSpeed) + 1].coordinates));
    } else {
      finding := None;
    }
  }

  // ---------------------------------------------------------------------------------------------
  // detectMovementAnomalies
  // ---------------------------------------------------------------------------------------------

  datatype Finding =
    | UnexpectedStop(duration: real, location: Coord)
    | RouteDeviation(deviationKm: Extended, location: Coord)
    | UnusualSpeed(speed: real, averageSpeed: real, location: Coord)
  {
    /** The finding's `type` field. */
    function TypeName(): string {
      match this
      case UnexpectedStop(_, _) => "unexpected_stop"
      case RouteDeviation(_, _) => "route_deviation"
      case UnusualSpeed(_, _, _) => "unusual_speed"
    }

    /** Position of the finding's kind in the fixed reporting order stop, deviation, speed. */
    function Rank(): nat {
      match this
      case UnexpectedStop(_, _) => 0
      case RouteDeviation(_, _) => 1
      case UnusualSpeed(_, _, _) => 2
    }
  }

  datatype MovementReport = MovementReport(anomalyDetected: bool, anomalies: seq<Finding>)

  function OptionList(f: Option<Finding>): seq<Finding> {
    match f
    case Some(v) => [v]
    case None => []
  }

  /** The anomalies list: the stop, deviation and speed findings that fired, in that order. */
  function Compose(stop: Option<Finding>, deviation: Option<Finding>, speed: Option<Finding>): seq<Finding> {
    OptionList(stop) + OptionList(deviation) + OptionList(speed)
  }

  /** Composition keeps the fixed order and lists each kind exactly when its finding is present. */
  lemma ComposeShape(stop: Option<Finding>, deviation: Option<Finding>, speed: Option<Finding>)
    requires stop.Some? ==> stop.value.UnexpectedStop?
    requires deviation.Some? ==> deviation.value.RouteDeviation?
    requires speed.Some? ==> speed.value.UnusualSpeed?
    ensures var r := Compose(stop, deviation, speed);
            && |r| <= 3
            && (forall a, b :: 0 <= a < b < |r| ==> r[a].Rank() < r[b].Rank())
            && ((exists k :: 0 <= k < |r| && r[k].UnexpectedStop?) <==> stop.Some?)
            && ((exists k :: 0 <= k < |r| && r[k].RouteDeviation?) <==> deviation.Some?)
            && ((exists k :: 0 <= k < |r| && r[k].UnusualSpeed?) <==> speed.Some?)
  {
    var r := Compose(stop, deviation, speed);
    assert forall k :: 0 <= k < |r| ==> r[k] in OptionList(stop) + OptionList(deviation) + OptionList(speed);
    if stop.Some? { assert r[0] == stop.value; }
    if deviation.Some? { assert r[|OptionList(stop)|] == deviation.value; }
    if speed.Some? { assert r[|r| - 1] == speed.value; }
  }

  /**
   * What detectMovementAnomalies returns. With fewer than two positions the code returns only
   * `anomalyDetected: false`, with no `anomalies` field; the empty list stands for it here. No
   * handler reaches that case, because a location update always passes two positions.
   */
  function MovementAnomalies(dist: Distance, ps: seq<Position>, route: seq<Coord>): MovementReport {
    if |ps| < 2 then MovementReport(false, [])
    else
      var last := ps[|ps| - 1].coordinates;
      var stop := LongestStop(dist, ps);
      var deviation := MaxRouteDeviation(dist, ps, route);
      var speed := SpeedAnomaly(dist, ps);
      var findings := Compose(
        if stop > StopLimitSeconds then Some(UnexpectedStop(stop, last)) else None,
        if deviation.Exceeds(DeviationLimitKm) then Some(RouteDeviation(deviation, last)) else None,
        match speed case Some(f) => Some(UnusualSpeed(f.speed, f.averageSpeed, f.location)) case None => None);
      MovementReport(|findings| > 0, findings)
  }

  method DetectMovementAnomalies(dist: Distance, recentPositions: seq<Position>, expectedRoute: seq<Coord>)
    returns (report: MovementReport)
    ensures report == MovementAnomalies(dist, recentPositions, expectedRoute)
  {
    if |recentPositions| < 2 {
      return MovementReport(false, []);
    }
    var last := recentPositions[|recentPositions| - 1].coordinates;
    var anomalies: seq<Finding> := [];
    var stoppedDuration := CalculateLongestStop(dist, recentPositions);
    ghost var stop: Option<Finding> := None;
    if stoppedDuration > StopLimitSeconds {
      stop := Some(UnexpectedStop(stoppedDuration, last));
      anomalies := anomalies + [UnexpectedStop(stoppedDuration, last)];
    }
    assert anomalies == OptionList(stop);
    var maxDeviation := CalculateMaxRouteDeviation(dist, recentPositions, expectedRoute);
    ghost var deviation: Option<Finding> := None;
    if maxDeviation.Exceeds(DeviationLimitKm) {
      deviation := Some(RouteDeviation(maxDeviation, last));
      anomalies := anomalies + [RouteDeviation(maxDeviation, last)];
    }
    assert anomalies == OptionList(stop) + OptionList(deviation);
    var speedAnomaly := DetectSpeedAnomaly(dist, recentPositions);
    ghost var speed: Option<Finding> := None;
    if speedAnomaly.Some? {
      var f := speedAnomaly.value;
      speed := Some(UnusualSpeed(f.speed, f.averageSpeed, f.location));
      anomalies := anomalies + [UnusualSpeed(f.speed, f.averageSpeed, f.location)];
    }
    assert anomalies == Compose(stop, deviation, speed);
    report := MovementReport(|anomalies| > 0, anomalies);
  }

  /**
   * The report flags an anomaly exactly when it lists a finding; findings come in the order stop,
   * deviation, speed, each kind at most once; and each kind is listed exactly when its rule fires.
   */
  lemma MovementReportShape(dist: Distance, ps: seq<Position>, route: seq<Coord>)
    ensures var r := MovementAnomalies(dist, ps, route);
            && (r.anomalyDetected <==> |r.anomalies| > 0)
            && |r.anomalies| <= 3
            && (forall a, b :: 0 <= a < b < |r.anomalies| ==> r.anomalies[a].Rank() < r.anomalies[b].Rank())
            && (|ps| >= 2 ==>
                  && ((exists k :: 0 <= k < |r.anomalies| && r.anomalies[k].UnexpectedStop?) <==> LongestStop(dist, ps) > StopLimitSeconds)
                  && ((exists k :: 0 <= k < |r.anomalies| && r.anomalies[k].RouteDeviation?) <==> MaxRouteDeviation(dist, ps, route).Exceeds(DeviationLimitKm))
                  && ((exists k :: 0 <= k < |r.anomalies| && r.anomalies[k].UnusualSpeed?) <==> SpeedAnomaly(dist, ps).Some?))
  {
    if |ps| >= 2 {
      var last := ps[|ps| - 1].coordinates;
      var stop := LongestStop(dist, ps);
      var deviation := MaxRouteDeviation(dist, ps, route);
      var speed := SpeedAnomaly(dist, ps);
      ComposeShape(
        if stop > StopLimitSeconds then Some(UnexpectedStop(stop, last)) else None,
        if deviation.Exceeds(DeviationLimitKm) then Some(RouteDeviation(deviation, last)) else None,
        match speed case Some(f) => Some(UnusualSpeed(f.speed, f.averageSpeed, f.location)) case None => None);
    }
  }

  // ---------------------------------------------------------------------------------------------
  // Geofences
  // ---------------------------------------------------------------------------------------------

  /** A geofence: a circle, a corridor along a route, or an object of any other `type`. */
  datatype Geofence =
    | Circle(center: Coord, radius: real)
    | Corridor(route: seq<Coord>, width: real)
    | OtherShape(typeName: string)

  /** createGeofence. */
  function CreateGeofence(center: Coord, radiusKm: real): (g: Geofence)
    ensures g.Circle? && g.center == center && g.radius == radiusKm
  {
    Circle(center, radiusKm)
  }

  /** createRouteCorridorGeofence. */
  function CreateRouteCorridorGeofence(route: seq<Coord>, widthKm: real): (g: Geofence)
    ensures g.Corridor? && g.route == route && g.width == widthKm
  {
    Corridor(route, widthKm)
  }

  /** isPointInGeofence. */
  predicate IsPointInGeofence(dist: Distance, point: Coord, geofence: Geofence) {
    match geofence
    case Circle(center, radius) => dist(point, center) <= radius
    case Corridor(route, width) => NearRoute(point, route, width)
    case OtherShape(_) => false
  }

  /**
   * A circle holds exactly the points within its radius (inclusive), so its centre whenever the
   * radius is non-negative; a corridor holds the points near its route; other shapes hold nothing.
   */
  lemma GeofenceMembership(dist: Distance, point: Coord, center: Coord, route: seq<Coord>, r: real, t: string)
    requires IsDistance(dist)
    ensures IsPointInGeofence(dist, point, CreateGeofence(center, r)) <==> dist(point, center) <= r
    ensures IsPointInGeofence(dist, center, CreateGeofence(center, r)) <==> r >= 0.0
    ensures IsPointInGeofence(dist, point, CreateRouteCorridorGeofence(route, r)) <==>
              (|route| >= 2 && r >= 0.0 &&
               exists j :: 1 <= j < |route| && SegmentDistSq(point, route[j - 1], route[j]) <= r * r)
    ensures !IsPointInGeofence(dist, point, OtherShape(t))
  {
    NearRouteIff(point, route, r);
  }

  /** A checkpoint produced by createCheckpointsWithGeofences. */
  datatype FencedCheckpoint = FencedCheckpoint(location: Coord, name: string, geofence: Geofence)

  /** The default geofence radius, 0.5 km. */
  const DefaultGeofenceRadiusKm: real := 0.5

  /** createCheckpointsWithGeofences: `radius` is `None` when the argument is omitted. */
  function CheckpointsWithGeofences(dist: Distance, route: seq<Coord>, numCheckpoints: int, radius: Option<real>): seq<FencedCheckpoint> {
    var cps := Checkpoints(dist, route, numCheckpoints);
    var r := radius.GetOr(DefaultGeofenceRadiusKm);
    seq(|cps|, k requires 0 <= k < |cps| =>
      FencedCheckpoint(cps[k].location, CheckpointName(k), CreateGeofence(cps[k].location, r)))
  }

  /**
   * The same checkpoints, in the same order and under the same names, each fenced by a circle of
   * the given radius (0.5 km by default) around itself.
   */
  lemma CheckpointsWithGeofencesKeepCheckpoints(dist: Distance, route: seq<Coord>, n: int, radius: Option<real>, k: nat)
    requires k < |Checkpoints(dist, route, n)|
    ensures |CheckpointsWithGeofences(dist, route, n, radius)| == |Checkpoints(dist, route, n)|
    ensures var f := CheckpointsWithGeofences(dist, route, n, radius)[k];
            var c := Checkpoints(dist, route, n)[k];
            f.location == c.location && f.name == c.name &&
            f.geofence == Circle(c.location, if radius.Some? then radius.value else 0.5)
  {
    CheckpointNamed(dist, route, n, k);
  }

  // ---------------------------------------------------------------------------------------------
  // formatDuration and the traffic classification
  // ---------------------------------------------------------------------------------------------

  /** JavaScript's `%` on integers: the remainder takes the sign of the dividend. */
  function JsRem(a: int, b: int): int
    requires b > 0
  {
    if a >= 0 then a % b else -((-a) % b)
  }

  /** `Math.floor(x / d)` for integers. */
  function FloorDiv(x: int, d: int): int
    requires d > 0
  {
    x / d
  }

  /** formatDuration. */
  function FormatDuration(seconds: int): string {
    var hours := FloorDiv(seconds, 3600);
    var minutes := FloorDiv(JsRem(seconds, 3600), 60);
    if hours > 0 then IntToString(hours) + (" hr " + (IntToString(minutes) + " min"))
    else IntToString(minutes) + " min"
  }

  /** For a non-negative duration, the rendered hours and minutes cover it to the minute. */
  lemma FormatDurationSplit(seconds: nat)
    ensures var h, m := seconds / 3600, (seconds % 3600) / 60;
            0 <= m < 60 && 3600 * h + 60 * m <= seconds < 3600 * h + 60 * m + 60
    ensures FormatDuration(seconds) ==
              if seconds >= 3600 then NatToString(seconds / 3600) + (" hr " + (NatToString((seconds % 3600) / 60) + " min"))
              else NatToString(seconds / 60) + " min"
  {
  }

  /** In a digit string followed by a non-digit, the first non-digit sits right after the digits. */
  lemma DigitRun(a: string, r: string)
    requires AllDigits(a) && |r| > 0 && !IsDigit(r[0])
    ensures forall k :: 0 <= k < |a| ==> IsDigit((a + r)[k])
    ensures !IsDigit((a + r)[|a|])
  {
  }

  /** A digit string followed by a text starting with a non-digit splits uniquely. */
  lemma SplitAtNonDigit(a: string, b: string, r1: string, r2: string)
    requires AllDigits(a) && AllDigits(b)
    requires |r1| > 0 && |r2| > 0 && !IsDigit(r1[0]) && !IsDigit(r2[0])
    requires a + r1 == b + r2
    ensures a == b && r1 == r2
  {
    var s := a + r1;
    DigitRun(a, r1);
    DigitRun(b, r2);
    assert |a| == |b|;
    assert a == s[..|a|] == b;
    assert r1 == s[|a|..] == r2;
  }

  /** Same minute count for two non-negative durations. */
  lemma SameMinute(s1: nat, s2: nat)
    requires s1 / 60 == s2 / 60
    ensures s1 / 3600 == s2 / 3600 && (s1 % 3600) / 60 == (s2 % 3600) / 60
  {
    assert s1 / 3600 == (s1 / 60) / 60;
    assert s2 / 3600 == (s2 / 60) / 60;
    assert (s1 % 3600) / 60 == (s1 / 60) % 60;
    assert (s2 % 3600) / 60 == (s2 / 60) % 60;
  }

  /** The "m min" rendering determines `m`. */
  lemma MinutesFormInjective(m1: nat, m2: nat)
    requires NatToString(m1) + " min" == NatToString(m2) + " min"
    ensures m1 == m2
  {
    NatToStringShape(m1);
    NatToStringShape(m2);
    SplitAtNonDigit(NatToString(m1), NatToString(m2), " min", " min");
    NatToStringInjective(m1, m2);
  }

  /** The "h hr m min" rendering determines `h` and `m`. */
  lemma HoursFormInjective(h1: nat, m1: nat, h2: nat, m2: nat)
    requires NatToString(h1) + (" hr " + (NatToString(m1) + " min")) == NatToString(h2) + (" hr " + (NatToString(m2) + " min"))
    ensures h1 == h2 && m1 == m2
  {
    NatToStringShape(h1);
    NatToStringShape(h2);
    var t1, t2 := NatToString(m1) + " min", NatToString(m2) + " min";
    SplitAtNonDigit(NatToString(h1), NatToString(h2), " hr " + t1, " hr " + t2);
    NatToStringInjective(h1, h2);
    assert t1 == (" hr " + t1)[4..] == (" hr " + t2)[4..] == t2;
    MinutesFormInjective(m1, m2);
  }

  /** An "h hr m min" rendering never equals an "m min" one. */
  lemma FormsDiffer(h: nat, m: nat, m2: nat)
    ensures NatToString(h) + (" hr " + (NatToString(m) + " min")) != NatToString(m2) + " min"
  {
    NatToStringShape(h);
    NatToStringShape(m2);
    var t := " hr " + (NatToString(m) + " min");
    if NatToString(h) + t == NatToString(m2) + " min" {
      SplitAtNonDigit(NatToString(h), NatToString(m2), t, " min");
      assert false;
    }
  }

  /** Two non-negative durations render alike exactly when they agree to the minute. */
  lemma FormatDurationInjective(s1: nat, s2: nat)
    ensures FormatDuration(s1) == FormatDuration(s2) <==> s1 / 60 == s2 / 60
  {
    FormatDurationSplit(s1);
    FormatDurationSplit(s2);
    if s1 / 60 == s2 / 60 {
      SameMinute(s1, s2);
    } else if s1 >= 3600 && s2 >= 3600 {
      if FormatDuration(s1) == FormatDuration(s2) {
        HoursFormInjective(s1 / 3600, (s1 % 3600) / 60, s2 / 3600, (s2 % 3600) / 60);
      }
    } else if s1 < 3600 && s2 < 3600 {
      if FormatDuration(s1) == FormatDuration(s2) {
        MinutesFormInjective(s1 / 60, s2 / 60);
      }
    } else if s1 >= 3600 {
      FormsDiffer(s1 / 3600, (s1 % 3600) / 60, s2 / 60);
    } else {
      FormsDiffer(s2 / 3600, (s2 % 3600) / 60, s1 / 60);
    }
  }

  datatype Traffic = Unknown | Heavy | Moderate | Light {
    function Name(): string {
      match this
      case Unknown => "unknown"
      case Heavy => "heavy"
      case Moderate => "moderate"
      case Light => "light"
    }
  }

  /** The `trafficConditions` expression of getTrafficAwareRoute (durations in seconds). */
  function TrafficConditions(duration: int, durationInTraffic: Option<int>): Traffic {
    match durationInTraffic
    case None => Unknown
    case Some(t) =>
      if t as real > duration as real * 1.5 then Heavy
      else if t as real > duration as real * 1.2 then Moderate
      else Light
  }

  /** Heaviness order: light < moderate < heavy. */
  function Severity(t: Traffic): nat {
    match t
    case Unknown => 0
    case Light => 1
    case Moderate => 2
    case Heavy => 3
  }

  /** A longer in-traffic duration never classifies as lighter traffic. */
  lemma TrafficMonotone(duration: int, t1: int, t2: int)
    requires t1 <= t2
    ensures Severity(TrafficConditions(duration, Some(t1))) <= Severity(TrafficConditions(duration, Some(t2)))
    ensures TrafficConditions(duration, Some(t1)) != Unknown
  {
  }

  /** Heavy traffic means more than 1.5 times the free-flow duration, i.e. `2·t > 3·d`. */
  lemma HeavyTrafficExact(duration: int, t: int)
    ensures TrafficConditions(duration, Some(t)) == Heavy <==> 2 * t > 3 * duration
    ensures TrafficConditions(duration, Some(t)) == Moderate <==> 2 * t <= 3 * duration && 5 * t > 6 * duration
  {
  }

  /** A route step: its start and end locations. */
  datatype Step = Step(startLocation: Coord, endLocation: Coord)

  /** The result of getTrafficAwareRoute that the controllers use. */
  datatype RouteInfo = RouteInfo(distanceMeters: int, duration: int, trafficConditions: Traffic, steps: seq<Step>)

  /**
   * getTrafficAwareRoute's result from the leg's distance, free-flow duration, optional in-traffic
   * duration and steps: the duration is the in-traffic one when present.
   */
  function RouteInfoOf(distance: int, freeFlow: int, inTraffic: Option<int>, steps: seq<Step>): (r: RouteInfo)
    ensures r.duration == (if inTraffic.Some? then inTraffic.value else freeFlow)
    ensures r.trafficConditions == Unknown <==> inTraffic.None?
  {
    RouteInfo(distance, inTraffic.GetOr(freeFlow), TrafficConditions(freeFlow, inTraffic), steps)
  }

  /** The result of calculateETA. */
  datatype EtaInfo = EtaInfo(eta: int, durationSeconds: int, durationText: string, trafficConditions: Traffic)

  /** calculateETA at time `now` (ms) for the route found from the current position. */
  function EtaOf(now: int, route: RouteInfo): (e: EtaInfo)
    ensures e.eta - now == 1000 * route.duration
    ensures e.trafficConditions == route.trafficConditions
  {
    EtaInfo(now + route.duration * 1000, route.duration, FormatDuration(route.duration), route.trafficConditions)
  }
}
