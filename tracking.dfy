/**
 * The basic vehicle tracking controller: initialising a delivery's tracking record, location
 * updates gated by the record's security token, checkpoint verification by code, tamper reports,
 * the active-trackings query and completion by OTP. Every handler is a guarded read-modify-write of
 * one record; a refused request changes nothing.
 */
module VehicleTrackingController {
  import opened Wrappers
  import opened Strings
  import opened Geo
  import opened EnhancedMaps
  import opened UserModel
  import opened TrackingModel
  import DM = DeliveryModel
  import opened Store

  /** The roles that may initialise tracking. */
  const TrackingRoles: seq<Role> := [Admin, DeliveryPersonnel]

  /** `numCheckpoints || 3`. */
  function CheckpointCount(numCheckpoints: Option<int>): (n: int)
    ensures numCheckpoints.Some? && numCheckpoints.value != 0 ==> n == numCheckpoints.value
    ensures numCheckpoints.None? || numCheckpoints.value == 0 ==> n == 3
  {
    if numCheckpoints.Some? && numCheckpoints.value != 0 then numCheckpoints.value else 3
  }

  /** The planned route: every step's start location, then the last step's end location. */
  function PlannedRoute(steps: seq<Step>): (route: seq<Coord>)
    requires |steps| > 0
    ensures |route| == |steps| + 1
    ensures forall i :: 0 <= i < |steps| ==> route[i] == steps[i].startLocation
    ensures route[|steps|] == steps[|steps| - 1].endLocation
  {
    seq(|steps|, i requires 0 <= i < |steps| => steps[i].startLocation) + [steps[|steps| - 1].endLocation]
  }

  /**
   * The stored checkpoints: each placed point, in order, with its id, its four-digit code and status
   * pending (`ids` and `codes` are the k-th generated id and random code).
   */
  function CodedCheckpoints(points: seq<RoutePoint>, ids: nat -> string, codes: nat -> int, now: int): (cps: seq<Checkpoint>)
    ensures |cps| == |points|
    ensures forall k :: 0 <= k < |cps| ==>
              && cps[k].status == Pending && cps[k].verifiedBy == None
              && cps[k].location == points[k].location && cps[k].name == points[k].name
              && cps[k].verificationCode == IntToString(codes(k)) && cps[k].id == ids(k)
  {
    seq(|points|, k requires 0 <= k < |points| =>
      Checkpoint(ids(k), points[k].location, points[k].name, now, Pending, IntToString(codes(k)), None))
  }

  /** The new tracking record of a delivery, created at `now` from its route and checkpoints. */
  function InitialTracking(deliveryId: string, d: DM.Delivery, origin: Coord, destination: Coord, route: RouteInfo,
                           checkpoints: seq<Checkpoint>, otp: string, token: string, now: int): (t: Tracking)
    requires |route.steps| > 0
    ensures t.status == Preparing && t.lastCheckpointPassed == NoCheckpointPassed
    ensures !t.otpVerified && !t.anomalyDetected && t.anomalyDetails == None && t.tamperAttempts == []
    ensures t.plannedRoute == PlannedRoute(route.steps) && t.checkpoints == checkpoints
    ensures t.delivery == deliveryId && t.vehicle == d.vehicle && t.driver == d.driver
    ensures t.startLocation == origin && t.currentLocation == origin && t.endLocation == destination
    ensures t.deliveryOTP == otp && t.securityToken == token
    ensures t.expectedDeliveryTime == Some(now + 1000 * route.duration) && t.actualDeliveryTime == None
    ensures TrackingWellFormed(t)
  {
    Tracking(deliveryId, d.vehicle, d.driver, origin, destination, origin, now, PlannedRoute(route.steps),
             checkpoints, Preparing, otp, false, Some(now + route.duration * 1000), None, token,
             NoCheckpointPassed, false, None, [], now)
  }

  /** The checkpoints initializeTracking stores for a route. */
  function RouteCheckpoints(dist: Distance, route: RouteInfo, numCheckpoints: Option<int>,
                            ids: nat -> string, codes: nat -> int, now: int): seq<Checkpoint>
    requires |route.steps| > 0
  {
    CodedCheckpoints(Checkpoints(dist, PlannedRoute(route.steps), CheckpointCount(numCheckpoints)), ids, codes, now)
  }

  /**
   * A freshly initialised record is preparing with every checkpoint pending, its planned route has
   * one point more than the route has steps, and it holds at most `numCheckpoints || 3` checkpoints,
   * named "Checkpoint 1", "Checkpoint 2", ... in order.
   */
  lemma InitialTrackingShape(dist: Distance, route: RouteInfo, numCheckpoints: Option<int>,
                             ids: nat -> string, codes: nat -> int, now: int)
    requires IsDistance(dist) && |route.steps| > 0
    ensures var cps := RouteCheckpoints(dist, route, numCheckpoints, ids, codes, now);
            && |PlannedRoute(route.steps)| == |route.steps| + 1
            && |cps| <= (if CheckpointCount(numCheckpoints) > 0 then CheckpointCount(numCheckpoints) else 0)
            && (forall k :: 0 <= k < |cps| ==> cps[k].status == Pending && cps[k].name == CheckpointName(k))
  {
    var path := PlannedRoute(route.steps);
    var n := CheckpointCount(numCheckpoints);
    var cps := RouteCheckpoints(dist, route, numCheckpoints, ids, codes, now);
    forall k | 0 <= k < |cps|
      ensures cps[k].name == CheckpointName(k)
    {
      CheckpointPlacement(dist, path, n, k);
    }
  }

  /**
   * The drawn secrets: `floor(100000 + random * 900000)` renders as a six-digit OTP and
   * `floor(1000 + random * 9000)` as a four-digit checkpoint code.
   */
  lemma SecretShapes(otpDraw: int, code: int)
    requires 100000 <= otpDraw <= 999999 && 1000 <= code <= 9999
    ensures |IntToString(otpDraw)| == 6 && AllDigits(IntToString(otpDraw))
    ensures |IntToString(code)| == 4 && AllDigits(IntToString(code))
  {
    NatToStringShape(otpDraw);
    NatToStringShape(code);
    assert Pow10(3) == 1000 && Pow10(4) == 10000;
    assert Pow10(5) == 100000 && Pow10(6) == 1000000;
    NatToStringLength(otpDraw, 6);
    NatToStringLength(code, 4);
  }

  /** initializeTracking (the route is getDirections' answer; `existing` is findOne's answer). */
  method InitializeTracking(deliveries: Deliveries, trackings: Trackings, user: User, deliveryId: string,
                            origin: Coord, destination: Coord, route: RouteInfo, numCheckpoints: Option<int>,
                            dist: Distance, otpDraw: int, token: string, ids: nat -> string, codes: nat -> int,
                            existing: Option<string>, newId: string, now: int)
    returns (r: Response<string>)
    requires trackings.Valid() && IsDistance(dist)
    requires 100000 <= otpDraw <= 999999 && forall k :: 1000 <= codes(k) <= 9999
    requires FindsTracking(trackings.docs, deliveryId, existing) && newId !in trackings.docs
    modifies deliveries, trackings
    ensures trackings.Valid()
    ensures user.role !in TrackingRoles ==> r == Err(403)
    ensures user.role in TrackingRoles && deliveryId !in old(deliveries.docs) ==> r == Err(404)
    ensures user.role in TrackingRoles && deliveryId in old(deliveries.docs) && existing.Some? ==> r == Err(400)
    ensures r.Err? ==> unchanged(deliveries, trackings)
    ensures r.Ok? ==>
              && user.role in TrackingRoles && deliveryId in old(deliveries.docs) && existing.None?
              && |route.steps| > 0 && r == Ok(201, newId)
              && trackings.docs == old(trackings.docs)[newId := InitialTracking(
                   deliveryId, old(deliveries.docs)[deliveryId], origin, destination, route,
                   RouteCheckpoints(dist, route, numCheckpoints, ids, codes, now), IntToString(otpDraw), token, now)]
              && deliveries.docs == old(deliveries.docs)[deliveryId := old(deliveries.docs)[deliveryId].(status := DM.InTransit)]
    ensures user.role in TrackingRoles && deliveryId in old(deliveries.docs) && existing.None? ==>
              (r.Ok? <==> |route.steps| > 0)
  {
    if user.role !in TrackingRoles {
      return Err(403);
    }
    if deliveryId !in deliveries.docs {
      return Err(404);
    }
    if existing.Some? {
      return Err(400);
    }
    // Taking the last step of an empty route throws: the handler answers 500.
    if |route.steps| == 0 {
      return Err(500);
    }
    var delivery := deliveries.docs[deliveryId];
    var plannedRoute := PlannedRoute(route.steps);
    var points := CalculateCheckpoints(dist, plannedRoute, CheckpointCount(numCheckpoints));
    var processed := CodedCheckpoints(points, ids, codes, now);
    var tracking := InitialTracking(deliveryId, delivery, origin, destination, route, processed,
                                    IntToString(otpDraw), token, now);
    trackings.docs := trackings.docs[newId := tracking];
    deliveries.docs := deliveries.docs[deliveryId := delivery.(status := DM.InTransit)];
    r := Ok(201, newId);
  }

  /** `timestamp ? new Date(timestamp) : new Date()`. */
  function LocationTime(timestamp: Option<int>, now: int): (when: int)
    ensures timestamp.Some? && timestamp.value != 0 ==> when == timestamp.value
    ensures timestamp.None? || timestamp.value == 0 ==> when == now
  {
    if timestamp.Some? && timestamp.value != 0 then timestamp.value else now
  }

  /** A location update: only the current location and its time change. */
  function Relocated(t: Tracking, coordinates: Coord, when: int): (r: Tracking)
    ensures r.currentLocation == coordinates && r.lastUpdated == when
    ensures r.(currentLocation := t.currentLocation, lastUpdated := t.lastUpdated) == t
  {
    t.(currentLocation := coordinates, lastUpdated := when)
  }

  /** The reported next checkpoint: the one after the last passed, when there is one. */
  function NextCheckpoint(t: Tracking): (next: Option<Checkpoint>)
    ensures next.Some? <==> -1 <= t.lastCheckpointPassed < |t.checkpoints| - 1
    ensures next.Some? ==> next.value == t.checkpoints[t.lastCheckpointPassed + 1]
  {
    if -1 <= t.lastCheckpointPassed < |t.checkpoints| - 1 then Some(t.checkpoints[t.lastCheckpointPassed + 1])
    else None
  }

  /**
   * updateVehicleLocation. The handler's loop over the checkpoints only writes log lines, so it is
   * not part of the model.
   */
  method UpdateVehicleLocation(trackings: Trackings, trackingId: string, coordinates: Coord,
                               securityToken: Option<string>, timestamp: Option<int>, now: int)
    returns (r: Response<Option<Checkpoint>>)
    requires trackings.Valid()
    modifies trackings
    ensures trackings.Valid()
    ensures trackingId !in old(trackings.docs) ==> r == Err(404)
    ensures trackingId in old(trackings.docs) && securityToken != Some(old(trackings.docs)[trackingId].securityToken) ==>
              r == Err(401)
    ensures r.Err? ==> unchanged(trackings)
    ensures trackingId in old(trackings.docs) && securityToken == Some(old(trackings.docs)[trackingId].securityToken) ==>
              var t := Relocated(old(trackings.docs)[trackingId], coordinates, LocationTime(timestamp, now));
              trackings.docs == old(trackings.docs)[trackingId := t] && r == Ok(200, NextCheckpoint(t))
  {
    if trackingId !in trackings.docs {
      return Err(404);
    }
    var tracking := trackings.docs[trackingId];
    if Some(tracking.securityToken) != securityToken {
      return Err(401);
    }
    tracking := Relocated(tracking, coordinates, LocationTime(timestamp, now));
    trackings.docs := trackings.docs[trackingId := tracking];
    r := Ok(200, NextCheckpoint(tracking));
  }

  /** The basic checkpoint update: the shared one, plus preparing becomes in_transit. */
  function CheckpointVerified(t: Tracking, index: nat, userId: string, now: int): (r: Tracking)
    requires index < |t.checkpoints|
    ensures r.status == (if t.status == Preparing then InTransit else t.status)
    ensures r.(status := t.status) == PassCheckpoint(t, index, userId, now)
  {
    var p := PassCheckpoint(t, index, userId, now);
    if t.status == Preparing then p.(status := InTransit) else p
  }

  /** The reply of a checkpoint verification: the checkpoint and the one after it, if any. */
  datatype CheckpointReply = CheckpointReply(checkpoint: Checkpoint, nextCheckpoint: Option<Checkpoint>)

  /** verifyCheckpoint. */
  method VerifyCheckpoint(trackings: Trackings, user: User, trackingId: string, checkpointIndex: int,
                          verificationCode: Option<string>, now: int)
    returns (r: Response<CheckpointReply>)
    requires trackings.Valid()
    modifies trackings
    ensures trackings.Valid()
    ensures trackingId !in old(trackings.docs) ==> r == Err(404)
    ensures trackingId in old(trackings.docs) ==>
              var t := old(trackings.docs)[trackingId];
              && (!(0 <= checkpointIndex < |t.checkpoints|) ==> r == Err(400))
              && (0 <= checkpointIndex < |t.checkpoints| && t.checkpoints[checkpointIndex].status == Verified ==> r == Err(400))
              && ((0 <= checkpointIndex < |t.checkpoints| && t.checkpoints[checkpointIndex].status != Verified &&
                   verificationCode != Some(t.checkpoints[checkpointIndex].verificationCode)) ==> r == Err(401))
              && ((0 <= checkpointIndex < |t.checkpoints| && t.checkpoints[checkpointIndex].status != Verified &&
                   verificationCode == Some(t.checkpoints[checkpointIndex].verificationCode)) ==>
                    var t' := CheckpointVerified(t, checkpointIndex, user.id, now);
                    && trackings.docs == old(trackings.docs)[trackingId := t']
                    && r == Ok(200, CheckpointReply(t'.checkpoints[checkpointIndex],
                                                    if checkpointIndex < |t.checkpoints| - 1
                                                    then Some(t'.checkpoints[checkpointIndex + 1]) else None)))
    ensures r.Err? ==> unchanged(trackings)
  {
    if trackingId !in trackings.docs {
      return Err(404);
    }
    var tracking := trackings.docs[trackingId];
    if checkpointIndex < 0 || checkpointIndex >= |tracking.checkpoints| {
      return Err(400);
    }
    var checkpoint := tracking.checkpoints[checkpointIndex];
    if checkpoint.status == Verified {
      return Err(400);
    }
    if Some(checkpoint.verificationCode) != verificationCode {
      return Err(401);
    }
    tracking := CheckpointVerified(tracking, checkpointIndex, user.id, now);
    trackings.docs := trackings.docs[trackingId := tracking];
    var next := if checkpointIndex < |tracking.checkpoints| - 1 then Some(tracking.checkpoints[checkpointIndex + 1]) else None;
    r := Ok(200, CheckpointReply(tracking.checkpoints[checkpointIndex], next));
  }

  /**
   * Verifying checkpoint `index` leaves the last-passed index at exactly `index`, so verifying an
   * earlier checkpoint after a later one moves it back; a verified checkpoint stays verified.
   */
  lemma VerifiedIndexOverwrites(t: Tracking, index: nat, userId: string, now: int, j: nat)
    requires index < |t.checkpoints| && j < |t.checkpoints|
    requires t.checkpoints[j].status == Verified
    ensures CheckpointVerified(t, index, userId, now).lastCheckpointPassed == index
    ensures CheckpointVerified(t, index, userId, now).checkpoints[j].status == Verified
    ensures index < t.lastCheckpointPassed ==> CheckpointVerified(t, index, userId, now).lastCheckpointPassed < t.lastCheckpointPassed
  {
  }

  /** reportTampering on a tracking record; the reply is the new attempt and the new status. */
  method ReportTampering(trackings: Trackings, trackingId: string, description: string, coordinates: Coord, now: int)
    returns (r: Response<(TamperAttempt, TrackingStatus)>)
    requires trackings.Valid()
    modifies trackings
    ensures trackings.Valid()
    ensures trackingId !in old(trackings.docs) ==> r == Err(404) && unchanged(trackings)
    ensures trackingId in old(trackings.docs) ==>
              var attempt := TamperAttempt(now, description, coordinates);
              && trackings.docs == old(trackings.docs)[trackingId := TamperReported(old(trackings.docs)[trackingId], attempt, description)]
              && r == Ok(200, (attempt, SuspiciousActivity))
  {
    if trackingId !in trackings.docs {
      return Err(404);
    }
    var attempt := TamperAttempt(now, description, coordinates);
    var tracking := TamperReported(trackings.docs[trackingId], attempt, description);
    trackings.docs := trackings.docs[trackingId := tracking];
    r := Ok(200, (attempt, tracking.status));
  }

  /** getAllActiveTrackings: records not completed, and for a driver only their own. */
  function ActiveTrackings(docs: map<string, Tracking>, user: User): (ids: set<string>)
    ensures forall k :: k in ids <==>
              k in docs && docs[k].status != Completed && (user.role == DeliveryPersonnel ==> docs[k].driver == user.id)
  {
    set k | k in docs && docs[k].status != Completed && (user.role == DeliveryPersonnel ==> docs[k].driver == user.id)
  }

  /**
   * A driver sees a subset of what any other role sees, and a record leaves every view once its
   * delivery is completed by OTP.
   */
  lemma ActiveTrackingsViews(docs: map<string, Tracking>, driver: User, other: User, k: string, now: int)
    requires driver.role == DeliveryPersonnel && other.role != DeliveryPersonnel
    requires k in docs
    ensures ActiveTrackings(docs, driver) <= ActiveTrackings(docs, other)
    ensures k !in ActiveTrackings(docs[k := CompleteTracking(docs[k], now)], driver)
    ensures k !in ActiveTrackings(docs[k := CompleteTracking(docs[k], now)], other)
  {
  }

  /** completeDeliveryWithOTP: the submitted code is `deliveryOTP || otp`. */
  method CompleteDeliveryWithOtp(trackings: Trackings, deliveries: Deliveries, trackingId: string,
                                 otp: Option<string>, deliveryOTP: Option<string>, now: int)
    returns (r: Response<string>)
    requires trackings.Valid()
    modifies trackings, deliveries
    ensures trackings.Valid()
    ensures trackingId !in old(trackings.docs) ==> r == Err(404)
    ensures trackingId in old(trackings.docs) ==>
              var t := old(trackings.docs)[trackingId];
              && (t.status == Completed ==> r == Err(400))
              && (t.status != Completed && Some(t.deliveryOTP) != OrOption(deliveryOTP, otp) ==> r == Err(401))
              && (t.status != Completed && Some(t.deliveryOTP) == OrOption(deliveryOTP, otp) ==>
                    && trackings.docs == old(trackings.docs)[trackingId := CompleteTracking(t, now)]
                    && deliveries.docs == (if t.delivery in old(deliveries.docs)
                                           then old(deliveries.docs)[t.delivery := old(deliveries.docs)[t.delivery].(status := DM.Delivered)]
                                           else old(deliveries.docs))
                    && r == Ok(200, t.delivery))
    ensures r.Err? ==> unchanged(trackings, deliveries)
  {
    if trackingId !in trackings.docs {
      return Err(404);
    }
    var tracking := trackings.docs[trackingId];
    if tracking.status == Completed {
      return Err(400);
    }
    var otpValue := OrOption(deliveryOTP, otp);
    if Some(tracking.deliveryOTP) != otpValue {
      return Err(401);
    }
    tracking := CompleteTracking(tracking, now);
    trackings.docs := trackings.docs[trackingId := tracking];
    if tracking.delivery in deliveries.docs {
      var delivery := deliveries.docs[tracking.delivery];
      deliveries.docs := deliveries.docs[tracking.delivery := delivery.(status := DM.Delivered)];
    }
    r := Ok(200, tracking.delivery);
  }
}
