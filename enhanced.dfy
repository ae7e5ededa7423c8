/**
 * The enhanced vehicle tracking controller: initialisation with traffic-aware routes and geofenced
 * checkpoints, location updates that run the movement anomaly rules, flag the delivery's packages
 * and refresh the ETA, the dashboard's progress percentage, checkpoint verification with package
 * scans, and completion with a final package check.
 */
module EnhancedTrackingController {
  import opened Wrappers
  import opened Strings
  import opened Geo
  import opened EnhancedMaps
  import opened UserModel
  import opened TrackingModel
  import DM = DeliveryModel
  import PM = PackageModel
  import opened Store
  import VT = VehicleTrackingController

  // ---------------------------------------------------------------------------------------------
  // initializeEnhancedTracking
  // ---------------------------------------------------------------------------------------------

  /**
   * The stored form of geofenced checkpoints: location and name are kept, a code and status pending
   * are added, and the geofence is dropped, as the checkpoint schema has no field for it.
   */
  function StoredCheckpoints(fenced: seq<FencedCheckpoint>, ids: nat -> string, codes: nat -> int, now: int): seq<Checkpoint> {
    VT.CodedCheckpoints(seq(|fenced|, k requires 0 <= k < |fenced| => RoutePoint(fenced[k].location, fenced[k].name)),
                        ids, codes, now)
  }

  /** The checkpoints initializeEnhancedTracking stores: fenced with the 0.5 km radius, then stored. */
  function EnhancedRouteCheckpoints(dist: Distance, route: RouteInfo, numCheckpoints: Option<int>,
                                    ids: nat -> string, codes: nat -> int, now: int): seq<Checkpoint>
    requires |route.steps| > 0
  {
    StoredCheckpoints(CheckpointsWithGeofences(dist, VT.PlannedRoute(route.steps), VT.CheckpointCount(numCheckpoints),
                                               Some(DefaultGeofenceRadiusKm)), ids, codes, now)
  }

  /** Once the geofences are dropped, the enhanced initialisation stores the basic one's checkpoints. */
  lemma SameCheckpointsAsBasic(dist: Distance, route: RouteInfo, numCheckpoints: Option<int>,
                               ids: nat -> string, codes: nat -> int, now: int)
    requires |route.steps| > 0
    ensures EnhancedRouteCheckpoints(dist, route, numCheckpoints, ids, codes, now) ==
            VT.RouteCheckpoints(dist, route, numCheckpoints, ids, codes, now)
  {
    var path := VT.PlannedRoute(route.steps);
    var n := VT.CheckpointCount(numCheckpoints);
    var plain := Checkpoints(dist, path, n);
    var fenced := CheckpointsWithGeofences(dist, path, n, Some(DefaultGeofenceRadiusKm));
    var points := seq(|fenced|, k requires 0 <= k < |fenced| => RoutePoint(fenced[k].location, fenced[k].name));
    assert |fenced| == |plain|;
    forall k | 0 <= k < |plain|
      ensures points[k] == plain[k]
    {
      CheckpointsWithGeofencesKeepCheckpoints(dist, path, n, Some(DefaultGeofenceRadiusKm), k);
    }
    assert points == plain;
  }

  /**
   * initializeEnhancedTracking (the route is getTrafficAwareRoute's answer): the same guards, and the
   * same new record, as the basic initialisation.
   */
  method InitializeEnhancedTracking(deliveries: Deliveries, trackings: Trackings, user: User, deliveryId: string,
                                    origin: Coord, destination: Coord, route: RouteInfo, numCheckpoints: Option<int>,
                                    dist: Distance, otpDraw: int, token: string, ids: nat -> string, codes: nat -> int,
                                    existing: Option<string>, newId: string, now: int)
    returns (r: Response<string>)
    requires trackings.Valid() && IsDistance(dist)
    requires 100000 <= otpDraw <= 999999 && forall k :: 1000 <= codes(k) <= 9999
    requires FindsTracking(trackings.docs, deliveryId, existing) && newId !in trackings.docs
    modifies deliveries, trackings
    ensures trackings.Valid()
    ensures user.role !in VT.TrackingRoles ==> r == Err(403)
    ensures user.role in VT.TrackingRoles && deliveryId !in old(deliveries.docs) ==> r == Err(404)
    ensures user.role in VT.TrackingRoles && deliveryId in old(deliveries.docs) && existing.Some? ==> r == Err(400)
    ensures r.Err? ==> unchanged(deliveries, trackings)
    ensures r.Ok? ==>
              && user.role in VT.TrackingRoles && deliveryId in old(deliveries.docs) && existing.None?
              && |route.steps| > 0 && r == Ok(201, newId)
              && trackings.docs == old(trackings.docs)[newId := VT.InitialTracking(
                   deliveryId, old(deliveries.docs)[deliveryId], origin, destination, route,
                   VT.RouteCheckpoints(dist, route, numCheckpoints, ids, codes, now), IntToString(otpDraw), token, now)]
              && deliveries.docs == old(deliveries.docs)[deliveryId := old(deliveries.docs)[deliveryId].(status := DM.InTransit)]
    ensures user.role in VT.TrackingRoles && deliveryId in old(deliveries.docs) && existing.None? ==>
              (r.Ok? <==> |route.steps| > 0)
  {
    if user.role !in VT.TrackingRoles {
      return Err(403);
    }
    if deliveryId !in deliveries.docs {
      return Err(404);
    }
    if existing.Some? {
      return Err(400);
    }
    if |route.steps| == 0 {
      return Err(500);
    }
    var delivery := deliveries.docs[deliveryId];
    var plannedRoute := VT.PlannedRoute(route.steps);
    var fenced := CheckpointsWithGeofences(dist, plannedRoute, VT.CheckpointCount(numCheckpoints), Some(DefaultGeofenceRadiusKm));
    var processed := StoredCheckpoints(fenced, ids, codes, now);
    SameCheckpointsAsBasic(dist, route, numCheckpoints, ids, codes, now);
    var tracking := VT.InitialTracking(deliveryId, delivery, origin, destination, route, processed,
                                       IntToString(otpDraw), token, now);
    trackings.docs := trackings.docs[newId := tracking];
    deliveries.docs := deliveries.docs[deliveryId := delivery.(status := DM.InTransit)];
    r := Ok(201, newId);
  }

  // ---------------------------------------------------------------------------------------------
  // updateEnhancedVehicleLocation
  // ---------------------------------------------------------------------------------------------

  /** The positions the anomaly rules see: the stored location, then the new one. */
  function RecentPositions(t: Tracking, coordinates: Coord, when: int): seq<Position> {
    [Position(t.currentLocation, t.lastUpdated), Position(coordinates, when)]
  }

  /** `anomalies.map(a => a.type).join(", ")`. */
  function AnomalyDetails(report: MovementReport): string {
    Join(seq(|report.anomalies|, k requires 0 <= k < |report.anomalies| => report.anomalies[k].TypeName()), ", ")
  }

  /** The record after the anomaly rules: suspicious, flagged and described when anything was found. */
  function Flagged(t: Tracking, report: MovementReport): Tracking {
    if report.anomalyDetected then
      t.(status := SuspiciousActivity, anomalyDetected := true, anomalyDetails := Some(AnomalyDetails(report)))
    else t
  }

  /**
   * The ETA refresh: the expected time becomes the new ETA, and under heavy traffic a delay of more
   * than 30 minutes against `createdAt + duration` marks the record delayed. `None` stands for an ETA
   * request that failed, which changes nothing.
   */
  function EtaApplied(t: Tracking, eta: Option<RouteInfo>, now: int): Tracking {
    match eta
    case None => t
    case Some(route) =>
      var info := EtaOf(now, route);
      var t1 := t.(expectedDeliveryTime := Some(info.eta));
      var originalEta := t.createdAt + info.durationSeconds * 1000;
      var delayMinutes := (info.eta - originalEta) as real / 60000.0;
      if info.trafficConditions == Heavy && delayMinutes > 30.0 then t1.(status := Delayed) else t1
  }

  /** The saved record after a location update with the right token. */
  function EnhancedUpdate(dist: Distance, t: Tracking, coordinates: Coord, when: int, eta: Option<RouteInfo>, now: int): Tracking {
    EtaApplied(Flagged(VT.Relocated(t, coordinates, when),
                       MovementAnomalies(dist, RecentPositions(t, coordinates, when), t.plannedRoute)),
               eta, now)
  }

  /**
   * Since both ETAs use the same duration, the computed delay is the age of the record: heavy
   * traffic marks it delayed exactly when it was created more than 30 minutes ago, however long the
   * remaining trip is.
   */
  lemma DelayIsRecordAge(t: Tracking, route: RouteInfo, now: int)
    ensures EtaApplied(t, Some(route), now).expectedDeliveryTime == Some(now + 1000 * route.duration)
    ensures EtaApplied(t, Some(route), now).status ==
              if route.trafficConditions == Heavy && now - t.createdAt > 1800000 then Delayed else t.status
    ensures EtaApplied(t, Some(route), now).(status := t.status, expectedDeliveryTime := t.expectedDeliveryTime) == t
  {
    var info := EtaOf(now, route);
    assert info.eta - (t.createdAt + info.durationSeconds * 1000) == now - t.createdAt;
  }

  /**
   * What a location update does to the record: only the location, the anomaly fields, the status and
   * the expected time can change; the anomaly flag is never cleared; the status is delayed when the
   * ETA rule fires (even over a suspicious status set by the same call), else suspicious when an
   * anomaly was found, else unchanged.
   */
  lemma EnhancedUpdateEffect(dist: Distance, t: Tracking, coordinates: Coord, when: int, eta: Option<RouteInfo>, now: int)
    ensures var u := EnhancedUpdate(dist, t, coordinates, when, eta, now);
            var report := MovementAnomalies(dist, RecentPositions(t, coordinates, when), t.plannedRoute);
            var delayed := eta.Some? && eta.value.trafficConditions == Heavy && now - t.createdAt > 1800000;
            && u.currentLocation == coordinates && u.lastUpdated == when
            && u.checkpoints == t.checkpoints && u.lastCheckpointPassed == t.lastCheckpointPassed
            && u.tamperAttempts == t.tamperAttempts && u.otpVerified == t.otpVerified
            && u.deliveryOTP == t.deliveryOTP && u.securityToken == t.securityToken
            && (u.anomalyDetected <==> t.anomalyDetected || report.anomalyDetected)
            && u.anomalyDetails == (if report.anomalyDetected then Some(AnomalyDetails(report)) else t.anomalyDetails)
            && u.status == (if delayed then Delayed else if report.anomalyDetected then SuspiciousActivity else t.status)
            && u.expectedDeliveryTime == (if eta.Some? then Some(now + 1000 * eta.value.duration) else t.expectedDeliveryTime)
  {
    var report := MovementAnomalies(dist, RecentPositions(t, coordinates, when), t.plannedRoute);
    var moved := VT.Relocated(t, coordinates, when);
    var f := Flagged(moved, report);
    FlaggedEffect(moved, report);
    if eta.Some? {
      DelayIsRecordAge(f, eta.value, now);
    }
  }

  /** The anomaly rules change only the status and the anomaly fields. */
  lemma FlaggedEffect(t: Tracking, report: MovementReport)
    ensures var f := Flagged(t, report);
            && f.(status := t.status, anomalyDetected := t.anomalyDetected, anomalyDetails := t.anomalyDetails) == t
            && (f.anomalyDetected <==> t.anomalyDetected || report.anomalyDetected)
            && f.anomalyDetails == (if report.anomalyDetected then Some(AnomalyDetails(report)) else t.anomalyDetails)
            && f.status == (if report.anomalyDetected then SuspiciousActivity else t.status)
  {
  }

  /**
   * Two positions never show a speed outlier, so an update reports only a stop (the vehicle moved
   * under 50 m in over 30 minutes) and a route deviation (over 2 km), in that order.
   */
  lemma EnhancedUpdateFindings(dist: Distance, t: Tracking, coordinates: Coord, when: int)
    ensures var ps := RecentPositions(t, coordinates, when);
            var report := MovementAnomalies(dist, ps, t.plannedRoute);
            var stop := dist(t.currentLocation, coordinates) < StopThresholdKm && when - t.lastUpdated > 1800000;
            var deviation := MaxRouteDeviation(dist, ps, t.plannedRoute).Exceeds(DeviationLimitKm);
            && (report.anomalyDetected <==> stop || deviation)
            && AnomalyDetails(report) == (if stop && deviation then "unexpected_stop, route_deviation"
                                          else if stop then "unexpected_stop"
                                          else if deviation then "route_deviation" else "")
  {
    var ps := RecentPositions(t, coordinates, when);
    TwoPositionStop(dist, ps[0], ps[1]);
    TwoPositionReport(dist, ps[0], ps[1], t.plannedRoute);
    var longest := LongestStop(dist, ps);
    var maxDev := MaxRouteDeviation(dist, ps, t.plannedRoute);
    ReportDetails(if longest > StopLimitSeconds then Some(UnexpectedStop(longest, coordinates)) else None,
                  if maxDev.Exceeds(DeviationLimitKm) then Some(RouteDeviation(maxDev, coordinates)) else None);
  }

  /**
   * The positions as the handler reads them: `previousLocation` is a view of the nested
   * `currentLocation` path, so after the new location is assigned both entries are the new position.
   */
  function RecentPositionsAsWritten(coordinates: Coord, when: int): seq<Position> {
    [Position(coordinates, when), Position(coordinates, when)]
  }

  /** With both entries the new position, no stop is ever found and only the new point is judged for deviation. */
  lemma AliasedPositionsNeverStop(dist: Distance, coordinates: Coord, when: int, route: seq<Coord>)
    requires IsDistance(dist)
    ensures var report := MovementAnomalies(dist, RecentPositionsAsWritten(coordinates, when), route);
            && (forall k :: 0 <= k < |report.anomalies| ==> !report.anomalies[k].UnexpectedStop?)
            && (report.anomalyDetected <==> forall j :: 0 <= j < |route| ==> dist(coordinates, route[j]) > DeviationLimitKm)
  {
    var p := Position(coordinates, when);
    TwoPositionStop(dist, p, p);
    TwoPositionReport(dist, p, p, route);
    RouteDeviationReported(dist, [p, p], route);
    var maxDev := MaxRouteDeviation(dist, [p, p], route);
    ComposeShape(None, if maxDev.Exceeds(DeviationLimitKm) then Some(RouteDeviation(maxDev, coordinates)) else None, None);
  }

  /**
   * A vehicle reporting its stored spot again 40 minutes later: the stored and the new position show
   * a stop, which the positions as the handler reads them never show.
   */
  lemma StationaryVehicleStop(dist: Distance, t: Tracking, when: int)
    requires IsDistance(dist) && when == t.lastUpdated + 2400000
    ensures var report := MovementAnomalies(dist, RecentPositions(t, t.currentLocation, when), t.plannedRoute);
            report.anomalyDetected && |report.anomalies| > 0 && report.anomalies[0].UnexpectedStop?
    ensures var report := MovementAnomalies(dist, RecentPositionsAsWritten(t.currentLocation, when), t.plannedRoute);
            forall k :: 0 <= k < |report.anomalies| ==> !report.anomalies[k].UnexpectedStop?
  {
    var ps := RecentPositions(t, t.currentLocation, when);
    TwoPositionStop(dist, ps[0], ps[1]);
    TwoPositionReport(dist, ps[0], ps[1], t.plannedRoute);
    AliasedPositionsNeverStop(dist, t.currentLocation, when, t.plannedRoute);
  }

  /** Over two positions the report has the stop and deviation findings only. */
  lemma TwoPositionReport(dist: Distance, p1: Position, p2: Position, route: seq<Coord>)
    ensures var ps := [p1, p2];
            var longest := LongestStop(dist, ps);
            var maxDev := MaxRouteDeviation(dist, ps, route);
            var findings := Compose(if longest > StopLimitSeconds then Some(UnexpectedStop(longest, p2.coordinates)) else None,
                                    if maxDev.Exceeds(DeviationLimitKm) then Some(RouteDeviation(maxDev, p2.coordinates)) else None,
                                    None);
            MovementAnomalies(dist, ps, route) == MovementReport(|findings| > 0, findings)
  {
    TwoPositionsNoSpeedFinding(dist, p1, p2);
  }

  /** The details text of a report with at most a stop and a deviation finding. */
  lemma ReportDetails(stop: Option<Finding>, deviation: Option<Finding>)
    requires stop.Some? ==> stop.value.UnexpectedStop?
    requires deviation.Some? ==> deviation.value.RouteDeviation?
    ensures var findings := Compose(stop, deviation, None);
            var report := MovementReport(|findings| > 0, findings);
            && (report.anomalyDetected <==> stop.Some? || deviation.Some?)
            && AnomalyDetails(report) == (if stop.Some? && deviation.Some? then "unexpected_stop, route_deviation"
                                          else if stop.Some? then "unexpected_stop"
                                          else if deviation.Some? then "route_deviation" else "")
  {
    var findings := Compose(stop, deviation, None);
    var report := MovementReport(|findings| > 0, findings);
    var names := seq(|report.anomalies|, k requires 0 <= k < |report.anomalies| => report.anomalies[k].TypeName());
    assert AnomalyDetails(report) == Join(names, ", ");
    if stop.Some? && deviation.Some? {
      assert findings == [stop.value, deviation.value];
      assert names == ["unexpected_stop", "route_deviation"];
      assert names[1..] == ["route_deviation"];
      assert Join(names[1..], ", ") == "route_deviation";
      assert Join(names, ", ") == "unexpected_stop" + ", " + "route_deviation";
      assert "unexpected_stop" + ", " + "route_deviation" == "unexpected_stop, route_deviation";
    } else if stop.Some? {
      assert names == ["unexpected_stop"];
    } else if deviation.Some? {
      assert names == ["route_deviation"];
    } else {
      assert names == [];
    }
  }

  /** The history entry each package of the delivery gets when an anomaly is found. */
  function SuspicionEntry(coordinates: Coord, details: string, now: int): PM.HistoryEntry {
    PM.HistoryEntry(now, coordinates, None, PM.Suspicious, Some("Anomaly detected: " + details))
  }

  function WithHistory(p: PM.Package, entry: PM.HistoryEntry): PM.Package {
    p.(verificationHistory := p.verificationHistory + [entry])
  }

  /** The packages after flagging: those of `delivery` gain the entry, the others are untouched. */
  function FlaggedPackages(docs: map<string, PM.Package>, delivery: string, entry: PM.HistoryEntry): (r: map<string, PM.Package>)
    ensures r.Keys == docs.Keys
    ensures forall k | k in docs :: r[k] == if docs[k].delivery == delivery then WithHistory(docs[k], entry) else docs[k]
  {
    map k | k in docs :: if docs[k].delivery == delivery then WithHistory(docs[k], entry) else docs[k]
  }

  /** `TamperProofPackaging.find({ delivery })` answered `found`: every matching key, once each. */
  ghost predicate FindsPackagesOf(docs: map<string, PM.Package>, delivery: string, found: seq<string>) {
    && (forall i, j :: 0 <= i < j < |found| ==> found[i] != found[j])
    && (forall k :: k in found <==> k in docs && docs[k].delivery == delivery)
  }

  /** The loop over the found packages: each gains the entry. */
  method FlagPackages(packages: Packages, delivery: string, entry: PM.HistoryEntry, found: seq<string>)
    requires packages.Valid() && FindsPackagesOf(packages.docs, delivery, found)
    modifies packages
    ensures packages.Valid()
    ensures packages.docs == FlaggedPackages(old(packages.docs), delivery, entry)
  {
    var i := 0;
    while i < |found|
      invariant 0 <= i <= |found|
      invariant packages.Valid() && packages.docs.Keys == old(packages.docs).Keys
      invariant forall k | k in packages.docs ::
                  packages.docs[k] == if k in found[..i] then WithHistory(old(packages.docs)[k], entry) else old(packages.docs)[k]
    {
      var key := found[i];
      assert key !in found[..i];
      PackageReplaced(packages.docs, key, WithHistory(packages.docs[key], entry));
      packages.docs := packages.docs[key := WithHistory(packages.docs[key], entry)];
      assert found[..i + 1] == found[..i] + [key];
      i := i + 1;
    }
    assert found[..|found|] == found;
    assert packages.docs == FlaggedPackages(old(packages.docs), delivery, entry);
  }

  /**
   * The record changes of a location update, in the order of the handler: the new position, the
   * anomaly rules over the last two positions, then the ETA refresh.
   */
  method UpdatedRecord(dist: Distance, t: Tracking, coordinates: Coord, when: int, eta: Option<RouteInfo>, now: int)
    returns (u: Tracking, report: MovementReport)
    ensures report == MovementAnomalies(dist, RecentPositions(t, coordinates, when), t.plannedRoute)
    ensures u == EnhancedUpdate(dist, t, coordinates, when, eta, now)
    ensures TrackingWellFormed(t) ==> TrackingWellFormed(u)
  {
    var recent := RecentPositions(t, coordinates, when);
    u := VT.Relocated(t, coordinates, when);
    report := DetectMovementAnomalies(dist, recent, u.plannedRoute);
    if report.anomalyDetected {
      u := Flagged(u, report);
    }
    u := EtaApplied(u, eta, now);
  }

  /** The reply of a location update. */
  datatype LocationReply = LocationReply(currentLocation: Coord, status: TrackingStatus, anomalyDetected: bool,
                                         anomalyDetails: Option<string>, expectedDeliveryTime: Option<int>)

  /**
   * updateEnhancedVehicleLocation. `eta` is calculateETA's route (`None` when it failed) and `found`
   * the delivery's packages. The checkpoint-proximity loop only writes log lines.
   */
  method UpdateEnhancedLocation(trackings: Trackings, packages: Packages, dist: Distance, trackingId: string,
                                coordinates: Coord, securityToken: Option<string>, timestamp: Option<int>,
                                eta: Option<RouteInfo>, found: seq<string>, now: int)
    returns (r: Response<LocationReply>)
    requires trackings.Valid() && packages.Valid()
    requires trackingId in trackings.docs ==> FindsPackagesOf(packages.docs, trackings.docs[trackingId].delivery, found)
    modifies trackings, packages
    ensures trackings.Valid() && packages.Valid()
    ensures trackingId !in old(trackings.docs) ==> r == Err(404)
    ensures trackingId in old(trackings.docs) && securityToken != Some(old(trackings.docs)[trackingId].securityToken) ==>
              r == Err(401)
    ensures r.Err? ==> unchanged(trackings, packages)
    ensures trackingId in old(trackings.docs) && securityToken == Some(old(trackings.docs)[trackingId].securityToken) ==>
              var t := old(trackings.docs)[trackingId];
              var when := VT.LocationTime(timestamp, now);
              var report := MovementAnomalies(dist, RecentPositions(t, coordinates, when), t.plannedRoute);
              var u := EnhancedUpdate(dist, t, coordinates, when, eta, now);
              && trackings.docs == old(trackings.docs)[trackingId := u]
              && packages.docs == (if report.anomalyDetected
                                   then FlaggedPackages(old(packages.docs), t.delivery, SuspicionEntry(coordinates, AnomalyDetails(report), now))
                                   else old(packages.docs))
              && r == Ok(200, LocationReply(u.currentLocation, u.status, u.anomalyDetected, u.anomalyDetails, u.expectedDeliveryTime))
  {
    if trackingId !in trackings.docs {
      return Err(404);
    }
    var tracking := trackings.docs[trackingId];
    if Some(tracking.securityToken) != securityToken {
      return Err(401);
    }
    var when := VT.LocationTime(timestamp, now);
    var report;
    tracking, report := UpdatedRecord(dist, tracking, coordinates, when, eta, now);
    if report.anomalyDetected {
      FlagPackages(packages, tracking.delivery, SuspicionEntry(coordinates, AnomalyDetails(report), now), found);
    }
    TrackingStored(trackings.docs, trackingId, tracking);
    trackings.docs := trackings.docs[trackingId := tracking];
    r := Ok(200, LocationReply(tracking.currentLocation, tracking.status, tracking.anomalyDetected,
                               tracking.anomalyDetails, tracking.expectedDeliveryTime));
  }

  /** A flagged package gains exactly one suspicious history entry and nothing else changes. */
  lemma FlaggingAppendsOneEntry(docs: map<string, PM.Package>, delivery: string, coordinates: Coord, details: string, now: int, k: string)
    requires k in docs
    ensures var r := FlaggedPackages(docs, delivery, SuspicionEntry(coordinates, details, now));
            && (docs[k].delivery == delivery ==>
                  && |r[k].verificationHistory| == |docs[k].verificationHistory| + 1
                  && r[k].verificationHistory[..|docs[k].verificationHistory|] == docs[k].verificationHistory
                  && r[k].verificationHistory[|docs[k].verificationHistory|].status == PM.Suspicious
                  && r[k].verificationHistory[|docs[k].verificationHistory|].notes == Some("Anomaly detected: " + details))
            && r[k].(verificationHistory := docs[k].verificationHistory) == docs[k]
  {
    var r := FlaggedPackages(docs, delivery, SuspicionEntry(coordinates, details, now));
    if docs[k].delivery == delivery {
      assert r[k].verificationHistory[..|docs[k].verificationHistory|] == docs[k].verificationHistory;
    }
  }

  // ---------------------------------------------------------------------------------------------
  // Progress in getTrackingDashboardData
  // ---------------------------------------------------------------------------------------------

  /**
   * The progress percentage. `None` is the `NaN` that `0 / 0` gives when the start and end coincide
   * and the vehicle has not moved; when they coincide and it has moved, `x / 0` is `Infinity`, which
   * clamps to 100.
   */
  function Progress(dist: Distance, t: Tracking): Option<real> {
    if t.status == Completed then Some(100.0)
    else if t.lastCheckpointPassed >= 0 then
      Some((t.lastCheckpointPassed + 1) as real / (|t.checkpoints| + 1) as real * 100.0)
    else
      var total := dist(t.startLocation, t.endLocation);
      var traveled := dist(t.startLocation, t.currentLocation);
      if total == 0.0 then (if traveled == 0.0 then None else Some(100.0))
      else
        var ratio := traveled / total * 100.0;
        Some(if ratio > 100.0 then 100.0 else if ratio < 0.0 then 0.0 else ratio)
  }

  lemma FractionBelowOne(a: real, b: real)
    requires 0.0 < a < b
    ensures 0.0 < a / b < 1.0
  {
    var q := a / b;
    DivMul(a, b);
    if q >= 1.0 {
      MulNonNeg(q - 1.0, b);
    }
  }

  /**
   * The percentage is 100 for a completed record; with a checkpoint passed it is
   * `(lcp + 1) / (n + 1) * 100`, strictly between 0 and 100; otherwise it is the distance ratio
   * clamped to [0, 100], undefined only when the route has zero length and the vehicle has not moved.
   */
  lemma ProgressBounds(dist: Distance, t: Tracking)
    requires IsDistance(dist) && TrackingWellFormed(t)
    ensures var p := Progress(dist, t);
            && (p.Some? ==> 0.0 <= p.value <= 100.0)
            && (t.status == Completed ==> p == Some(100.0))
            && (t.status != Completed && t.lastCheckpointPassed >= 0 ==> p.Some? && 0.0 < p.value < 100.0)
            && (p.None? <==> t.status != Completed && t.lastCheckpointPassed < 0 &&
                             dist(t.startLocation, t.endLocation) == 0.0 && dist(t.startLocation, t.currentLocation) == 0.0)
  {
    if t.status != Completed && t.lastCheckpointPassed >= 0 {
      var a := (t.lastCheckpointPassed + 1) as real;
      var b := (|t.checkpoints| + 1) as real;
      FractionBelowOne(a, b);
      MulPos(a / b, 100.0);
    }
  }

  // ---------------------------------------------------------------------------------------------
  // Package scans: verifyCheckpointWithPackages and completeDeliveryWithPackageVerification
  // ---------------------------------------------------------------------------------------------

  /** One entry of `packageScans` / `packageVerifications`. */
  datatype Scan = Scan(packageId: string, intact: bool, notes: Option<string>)

  datatype ScanStatus = ScanIntact | ScanCompromised | NotFound

  /** One entry of the reply's package results. */
  datatype ScanResult = ScanResult(packageId: string, verified: bool, status: ScanStatus)

  /** Where the scans happen: at a checkpoint (its location and name) or at the final delivery (the vehicle's location). */
  datatype Pass = AtCheckpoint(location: Coord, name: string) | AtDelivery(location: Coord)

  /** The package after one scan is applied, for a package of the delivery. */
  function Scanned(p: PM.Package, pass: Pass, scan: Scan, userId: string, now: int): PM.Package {
    var status := if scan.intact then PM.Intact else PM.Breached;
    match pass
    case AtCheckpoint(location, name) =>
      var p1 := p.(verificationHistory := p.verificationHistory +
                     [PM.HistoryEntry(now, location, Some(userId), status, Some("Verified at checkpoint " + name))]);
      if scan.intact then p1
      else p1.(sealIntact := false, currentStatus := PM.Compromised,
               tamperEvidence := p1.tamperEvidence +
                 [PM.Evidence(now, location, Some(userId), OrElse(scan.notes, "Tampering detected during checkpoint verification"), [])])
    case AtDelivery(location) =>
      var p1 := p.(currentStatus := PM.Delivered);
      var p2 := if scan.intact then p1
                else p1.(sealIntact := false, tamperEvidence := p1.tamperEvidence +
                           [PM.Evidence(now, location, Some(userId), OrElse(scan.notes, "Tampering detected during delivery verification"), [])]);
      p2.(verificationHistory := p2.verificationHistory +
            [PM.HistoryEntry(now, location, Some(userId), status, Some("Final delivery verification"))])
  }

  /** Whether a scan names a package of the delivery (the find by `packageId` and `delivery`). */
  predicate Finds(docs: map<string, PM.Package>, delivery: string, scan: Scan) {
    scan.packageId in docs && docs[scan.packageId].delivery == delivery
  }

  function ResultOf(scan: Scan, found: bool): ScanResult {
    if found then ScanResult(scan.packageId, true, if scan.intact then ScanIntact else ScanCompromised)
    else ScanResult(scan.packageId, false, NotFound)
  }

  /** The packages and the results after the scans, applied one after another in order. */
  function ScanAll(docs: map<string, PM.Package>, delivery: string, pass: Pass, scans: seq<Scan>, userId: string, now: int)
    : (map<string, PM.Package>, seq<ScanResult>)
    decreases |scans|
  {
    if |scans| == 0 then (docs, [])
    else
      var prev := ScanAll(docs, delivery, pass, scans[..|scans| - 1], userId, now);
      var scan := scans[|scans| - 1];
      var found := Finds(prev.0, delivery, scan);
      (if found then prev.0[scan.packageId := Scanned(prev.0[scan.packageId], pass, scan, userId, now)] else prev.0,
       prev.1 + [ResultOf(scan, found)])
  }

  /** The scans of `pass` from the given prefix on, applied imperatively. */
  method ApplyScans(packages: Packages, delivery: string, pass: Pass, scans: seq<Scan>, userId: string, now: int)
    returns (results: seq<ScanResult>)
    modifies packages
    ensures (packages.docs, results) == ScanAll(old(packages.docs), delivery, pass, scans, userId, now)
  {
    results := [];
    var i := 0;
    while i < |scans|
      invariant 0 <= i <= |scans|
      invariant (packages.docs, results) == ScanAll(old(packages.docs), delivery, pass, scans[..i], userId, now)
    {
      assert scans[..i + 1][..i] == scans[..i];
      var scan := scans[i];
      if scan.packageId in packages.docs && packages.docs[scan.packageId].delivery == delivery {
        var pkg := packages.docs[scan.packageId];
        pkg := Scanned(pkg, pass, scan, userId, now);
        packages.docs := packages.docs[scan.packageId := pkg];
        results := results + [ScanResult(scan.packageId, true, if scan.intact then ScanIntact else ScanCompromised)];
      } else {
        results := results + [ScanResult(scan.packageId, false, NotFound)];
      }
      i := i + 1;
    }
    assert scans[..|scans|] == scans;
  }

  /** A scan keeps a package's id, delivery and barcode, and its well-formedness. */
  lemma ScannedKeepsIdentity(p: PM.Package, pass: Pass, scan: Scan, userId: string, now: int)
    requires PackageWellFormed(p)
    ensures var q := Scanned(p, pass, scan, userId, now);
            && q.packageId == p.packageId && q.delivery == p.delivery && q.barcode == p.barcode
            && PackageWellFormed(q)
  {
  }

  /** The scans keep the key set, every package's id, delivery and barcode, and well-formedness. */
  lemma {:induction false} ScanAllKeepsIdentity(docs: map<string, PM.Package>, delivery: string, pass: Pass, scans: seq<Scan>,
                                                userId: string, now: int)
    requires PackagesWellFormed(docs)
    ensures var r := ScanAll(docs, delivery, pass, scans, userId, now).0;
            && r.Keys == docs.Keys && PackagesWellFormed(r)
            && (forall k | k in docs :: r[k].delivery == docs[k].delivery)
    decreases |scans|
  {
    if |scans| > 0 {
      var prev := ScanAll(docs, delivery, pass, scans[..|scans| - 1], userId, now);
      ScanAllKeepsIdentity(docs, delivery, pass, scans[..|scans| - 1], userId, now);
      var scan := scans[|scans| - 1];
      if Finds(prev.0, delivery, scan) {
        ScannedKeepsIdentity(prev.0[scan.packageId], pass, scan, userId, now);
        PackageReplaced(prev.0, scan.packageId, Scanned(prev.0[scan.packageId], pass, scan, userId, now));
      }
    }
  }

  /**
   * One result per scan, in scan order: verified, with the scan's verdict, exactly when the scan names
   * a package of this delivery, and `not_found` otherwise.
   */
  lemma {:induction false} ScanAllResults(docs: map<string, PM.Package>, delivery: string, pass: Pass, scans: seq<Scan>,
                                          userId: string, now: int)
    requires PackagesWellFormed(docs)
    ensures var rs := ScanAll(docs, delivery, pass, scans, userId, now).1;
            && |rs| == |scans|
            && forall k :: 0 <= k < |scans| ==>
                 && rs[k].packageId == scans[k].packageId
                 && (rs[k].verified <==> Finds(docs, delivery, scans[k]))
                 && rs[k].status == (if !Finds(docs, delivery, scans[k]) then NotFound
                                     else if scans[k].intact then ScanIntact else ScanCompromised)
    decreases |scans|
  {
    if |scans| > 0 {
      var init := scans[..|scans| - 1];
      var prev := ScanAll(docs, delivery, pass, init, userId, now);
      ScanAllResults(docs, delivery, pass, init, userId, now);
      ScanAllKeepsIdentity(docs, delivery, pass, init, userId, now);
      var scan := scans[|scans| - 1];
      assert Finds(prev.0, delivery, scan) == Finds(docs, delivery, scan);
      var rs := ScanAll(docs, delivery, pass, scans, userId, now).1;
      assert rs == prev.1 + [ResultOf(scan, Finds(docs, delivery, scan))];
      forall k | 0 <= k < |scans|
        ensures && rs[k].packageId == scans[k].packageId
                && (rs[k].verified <==> Finds(docs, delivery, scans[k]))
                && rs[k].status == (if !Finds(docs, delivery, scans[k]) then NotFound
                                    else if scans[k].intact then ScanIntact else ScanCompromised)
      {
        if k < |init| {
          assert rs[k] == prev.1[k] && init[k] == scans[k];
        } else {
          assert rs[k] == ResultOf(scan, Finds(docs, delivery, scan));
        }
      }
    }
  }

  /** One scan only appends to a package's history and evidence, and never mends a broken seal. */
  lemma ScannedAppendOnly(p: PM.Package, pass: Pass, scan: Scan, userId: string, now: int)
    ensures var q := Scanned(p, pass, scan, userId, now);
            && p.verificationHistory <= q.verificationHistory && |q.verificationHistory| == |p.verificationHistory| + 1
            && p.tamperEvidence <= q.tamperEvidence
            && (!p.sealIntact ==> !q.sealIntact)
  {
  }

  /**
   * The ledger is append-only under scans: history and evidence only grow (the old ones are kept as
   * prefixes), and a broken seal stays broken.
   */
  lemma {:induction false} ScanAllAppendOnly(docs: map<string, PM.Package>, delivery: string, pass: Pass, scans: seq<Scan>,
                                             userId: string, now: int, k: string)
    requires k in docs && PackagesWellFormed(docs)
    ensures var r := ScanAll(docs, delivery, pass, scans, userId, now).0;
            && k in r
            && docs[k].verificationHistory <= r[k].verificationHistory
            && docs[k].tamperEvidence <= r[k].tamperEvidence
            && (!docs[k].sealIntact ==> !r[k].sealIntact)
    decreases |scans|
  {
    if |scans| > 0 {
      var init := scans[..|scans| - 1];
      var prev := ScanAll(docs, delivery, pass, init, userId, now).0;
      ScanAllAppendOnly(docs, delivery, pass, init, userId, now, k);
      ScanAllKeepsIdentity(docs, delivery, pass, init, userId, now);
      var scan := scans[|scans| - 1];
      if Finds(prev, delivery, scan) && scan.packageId == k {
        ScannedAppendOnly(prev[k], pass, scan, userId, now);
      }
    }
  }

  /**
   * At a checkpoint, a scan reporting a package of the delivery not intact leaves it compromised with
   * a broken seal, whatever the later scans say.
   */
  lemma {:induction false} CheckpointBreachSticks(docs: map<string, PM.Package>, delivery: string, location: Coord, name: string,
                                                  scans: seq<Scan>, userId: string, now: int, j: nat)
    requires PackagesWellFormed(docs)
    requires j < |scans| && Finds(docs, delivery, scans[j]) && !scans[j].intact
    ensures var r := ScanAll(docs, delivery, AtCheckpoint(location, name), scans, userId, now).0;
            scans[j].packageId in r && !r[scans[j].packageId].sealIntact && r[scans[j].packageId].currentStatus == PM.Compromised
    decreases |scans|
  {
    var pass := AtCheckpoint(location, name);
    var init := scans[..|scans| - 1];
    ScanAllKeepsIdentity(docs, delivery, pass, init, userId, now);
    if j < |scans| - 1 {
      assert init[j] == scans[j];
      CheckpointBreachSticks(docs, delivery, location, name, init, userId, now, j);
    }
  }

  /** At the delivery, every scanned package of the delivery ends delivered, even one compromised before. */
  lemma {:induction false} DeliveryPassDelivers(docs: map<string, PM.Package>, delivery: string, location: Coord,
                                                scans: seq<Scan>, userId: string, now: int, j: nat)
    requires PackagesWellFormed(docs)
    requires j < |scans| && Finds(docs, delivery, scans[j])
    ensures var r := ScanAll(docs, delivery, AtDelivery(location), scans, userId, now).0;
            scans[j].packageId in r && r[scans[j].packageId].currentStatus == PM.Delivered
            && (!scans[j].intact ==> !r[scans[j].packageId].sealIntact)
    decreases |scans|
  {
    var pass := AtDelivery(location);
    var init := scans[..|scans| - 1];
    ScanAllKeepsIdentity(docs, delivery, pass, init, userId, now);
    if j < |scans| - 1 {
      assert init[j] == scans[j];
      DeliveryPassDelivers(docs, delivery, location, init, userId, now, j);
    }
  }

  /** The first checkpoint with the given id (`findIndex`). */
  function FindCheckpoint(cps: seq<Checkpoint>, id: string): (i: Option<nat>)
    ensures i.Some? ==> i.value < |cps| && cps[i.value].id == id && forall j :: 0 <= j < i.value ==> cps[j].id != id
    ensures i.None? ==> forall j :: 0 <= j < |cps| ==> cps[j].id != id
    decreases |cps|
  {
    if |cps| == 0 then None
    else if cps[0].id == id then Some(0)
    else match FindCheckpoint(cps[1..], id)
      case None => None
      case Some(i) => Some(i + 1)
  }

  /** The reply of a checkpoint verification with packages. */
  datatype PackagesReply = PackagesReply(checkpoint: Checkpoint, nextCheckpoint: Option<Checkpoint>, packageVerifications: seq<ScanResult>)

  /**
   * verifyCheckpointWithPackages: no already-verified guard and no status transition; the scans of
   * the request are applied in order at the checkpoint.
   */
  method VerifyCheckpointWithPackages(trackings: Trackings, packages: Packages, user: User, trackingId: string,
                                      checkpointId: string, verificationCode: Option<string>, scans: seq<Scan>, now: int)
    returns (r: Response<PackagesReply>)
    requires trackings.Valid() && packages.Valid()
    modifies trackings, packages
    ensures trackings.Valid() && packages.Valid()
    ensures trackingId !in old(trackings.docs) ==> r == Err(404)
    ensures trackingId in old(trackings.docs) ==>
              var t := old(trackings.docs)[trackingId];
              var i := FindCheckpoint(t.checkpoints, checkpointId);
              && (i.None? ==> r == Err(404))
              && (i.Some? && verificationCode != Some(t.checkpoints[i.value].verificationCode) ==> r == Err(401))
              && (i.Some? && verificationCode == Some(t.checkpoints[i.value].verificationCode) ==>
                    var cp := t.checkpoints[i.value];
                    var t' := PassCheckpoint(t, i.value, user.id, now);
                    var scanned := ScanAll(old(packages.docs), t.delivery, AtCheckpoint(cp.location, cp.name), scans, user.id, now);
                    && trackings.docs == old(trackings.docs)[trackingId := t']
                    && packages.docs == scanned.0
                    && r == Ok(200, PackagesReply(t'.checkpoints[i.value],
                                                  if i.value < |t.checkpoints| - 1 then Some(t'.checkpoints[i.value + 1]) else None,
                                                  scanned.1)))
    ensures r.Err? ==> unchanged(trackings, packages)
  {
    if trackingId !in trackings.docs {
      return Err(404);
    }
    var tracking := trackings.docs[trackingId];
    var index := FindCheckpoint(tracking.checkpoints, checkpointId);
    if index.None? {
      return Err(404);
    }
    var i := index.value;
    var checkpoint := tracking.checkpoints[i];
    if Some(checkpoint.verificationCode) != verificationCode {
      return Err(401);
    }
    tracking := PassCheckpoint(tracking, i, user.id, now);
    ScanAllKeepsIdentity(packages.docs, tracking.delivery, AtCheckpoint(checkpoint.location, checkpoint.name), scans, user.id, now);
    var results := ApplyScans(packages, tracking.delivery, AtCheckpoint(checkpoint.location, checkpoint.name), scans, user.id, now);
    trackings.docs := trackings.docs[trackingId := tracking];
    var next := if i < |tracking.checkpoints| - 1 then Some(tracking.checkpoints[i + 1]) else None;
    r := Ok(200, PackagesReply(tracking.checkpoints[i], next, results));
  }

  /** The reply of a completion with packages. */
  datatype CompletionReply = CompletionReply(deliveryId: string, status: TrackingStatus, completedAt: Option<int>,
                                             packageVerifications: seq<ScanResult>)

  /**
   * completeDeliveryWithPackageVerification: no already-completed guard; the delivery, when found, is
   * delivered and its arrival time set; the final scans are applied at the vehicle's location.
   */
  method CompleteWithPackages(trackings: Trackings, deliveries: Deliveries, packages: Packages, user: User,
                              trackingId: string, otp: Option<string>, scans: seq<Scan>, now: int)
    returns (r: Response<CompletionReply>)
    requires trackings.Valid() && packages.Valid()
    modifies trackings, deliveries, packages
    ensures trackings.Valid() && packages.Valid()
    ensures trackingId !in old(trackings.docs) ==> r == Err(404)
    ensures trackingId in old(trackings.docs) && otp != Some(old(trackings.docs)[trackingId].deliveryOTP) ==> r == Err(401)
    ensures r.Err? ==> unchanged(trackings, deliveries, packages)
    ensures trackingId in old(trackings.docs) && otp == Some(old(trackings.docs)[trackingId].deliveryOTP) ==>
              var t := old(trackings.docs)[trackingId];
              var scanned := ScanAll(old(packages.docs), t.delivery, AtDelivery(t.currentLocation), scans, user.id, now);
              && trackings.docs == old(trackings.docs)[trackingId := CompleteTracking(t, now)]
              && deliveries.docs == (if t.delivery in old(deliveries.docs)
                                     then old(deliveries.docs)[t.delivery := old(deliveries.docs)[t.delivery].(
                                            status := DM.Delivered, arrivalTime := Some(now))]
                                     else old(deliveries.docs))
              && packages.docs == scanned.0
              && r == Ok(200, CompletionReply(t.delivery, Completed, Some(now), scanned.1))
  {
    if trackingId !in trackings.docs {
      return Err(404);
    }
    var tracking := trackings.docs[trackingId];
    if Some(tracking.deliveryOTP) != otp {
      return Err(401);
    }
    tracking := CompleteTracking(tracking, now);
    trackings.docs := trackings.docs[trackingId := tracking];
    if tracking.delivery in deliveries.docs {
      var delivery := deliveries.docs[tracking.delivery];
      deliveries.docs := deliveries.docs[tracking.delivery := delivery.(status := DM.Delivered, arrivalTime := Some(now))];
    }
    ScanAllKeepsIdentity(packages.docs, tracking.delivery, AtDelivery(tracking.currentLocation), scans, user.id, now);
    var results := ApplyScans(packages, tracking.delivery, AtDelivery(tracking.currentLocation), scans, user.id, now);
    r := Ok(200, CompletionReply(tracking.delivery, tracking.status, tracking.actualDeliveryTime, results));
  }
}
