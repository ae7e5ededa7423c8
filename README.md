# Ration delivery tracking and tamper-evidence core, in Dafny

This project models the per-request state logic of a ration-distribution backend, an Express
server over MongoDB. It covers:

- **Shipment tracking records.** A record is initialised from a route with coded checkpoints.
  Location updates are gated by the record's security token. Checkpoints are verified by their
  codes. Tampering can be reported. The record is completed by a one-time code. The enhanced
  variant also runs movement anomaly rules, refreshes the ETA, computes a progress percentage and
  takes package scans.
- **The delivery OTP record.** A six-digit code is valid for 30 minutes and allows a limited
  number of attempts (3 by default). It can be regenerated. Integrity issues are reported on the
  same record. The code is hidden when the record is shown.
- **The tamper-evidence package ledger.** Each package has a seal flag, a status, and
  append-only verification history and tamper evidence. Packages are created with `PKG-…` ids,
  `BAR-…` barcodes and a JSON QR content. A scanned code is classified as a barcode, a JSON
  content or a bare id. The printed QR image carries `DELIVERY:<packageId>|OTP:<content>`
  instead, which a scan looks up as a bare id that no package has.
- **The tamper check.** A scanned location passes when its planar distance to the planned route
  is at most 1, measured in degrees of latitude and longitude (about 111 km), not kilometres.
- **Movement and route heuristics.**
  - Checkpoint placement along a path.
  - The point-near-route test and point-to-segment distance.
  - The longest stop, route deviation and speed outlier rules.
  - Circle and corridor geofences.
  - Duration formatting and traffic classification.
- **Stock bookkeeping.**
  - FIFO allocation of a requested quantity across stock batches.
  - The delivery's stock debit, rebalance and credit.
  - Reconciliation reports.
- **The authentication and role gates** in front of the handlers.

Each MongoDB collection is a class in module `Store` holding a `map` from id to document.
Documents are datatype values, because the controllers load a document, change its fields and
save it back. Each HTTP handler is a method:

- it changes only the collections it names in `modifies`;
- it returns the HTTP status, with the reply value when it succeeds;
- on every error path it leaves the store unchanged, unless the handler itself saves before
  failing, as the OTP check and the FIFO loop do.

Some values are parameters rather than computed:

- Database answers (`findOne`, `find().sort()`), as ghost predicates say what a correct answer
  is: `FindsTracking`, `FindsGodownStock`, `FindsShopStock`, `FindsPackage`,
  `FindsBatchesInArrivalOrder`, `FindsPackagesOf` and `FindsStocks`.
- Random draws, generated ids and the clock, as plain parameters. One `now` is used per
  request.

The great-circle distance is a parameter `dist` about which `Geo.IsDistance` assumes only what
the haversine formula guarantees: zero on equal points, symmetry and non-negativity. The square
roots of the source are removed exactly: every caller only compares a square root, and
`Geo.SqrtComparison` and `EnhancedMaps.OutlierCore` show that the comparison of squares is the
same test. `Infinity` is a datatype case: `Extended` in the route deviation rule, `None` in the
near-route minimum. `JSON.parse` is modelled by the `Json` module, a parser for the whole JSON grammar
of RFC 8259, fractions and exponents in numbers included. The Bearer scheme follows section 2.1 of
RFC 6750.

Some behaviours of the code are easy to miss, and the model keeps them:

- Verifying a checkpoint sets `lastCheckpointPassed` to that checkpoint's index, so it can move
  backwards (`VehicleTrackingController.VerifiedIndexOverwrites`). After checkpoints 0, 1 and 2
  are verified, its value is the index of the one verified last.
- The enhanced checkpoint verification has no already-verified guard and no
  preparing-to-in_transit step.
- A compromised package is not terminal: completion marks it `delivered`, and a suspicious route
  check moves a delivered package back to `in_transit`.
- Reporting integrity issues replaces the earlier issues instead of appending to them
  (`DeliveryVerificationController.ReportReplacesIssues`).
- The delay of the heavy-traffic rule compares two times that use the same duration. It is
  therefore the age of the record, so any record older than 30 minutes turns `delayed` under
  heavy traffic (`EnhancedTrackingController.DelayIsRecordAge`). That status overrides a
  `suspicious_activity` set earlier in the same call.
- No handler ever sets the `cancelled` status.
- `VehicleTrackingController.js` calls `getRoute` and `createCheckpoints`, but the maps module
  exports `getDirections` and `calculateCheckpoints`. `calculateDistance` is called through the
  module although it is not exported. The model uses the intended functions.

The places listed under Findings are the exception: there the handlers use the corrected
definition, and the code as written is modelled beside it.

## Model

| member | source | states |
|---|---|---|
| TrackingModel.PassCheckpoint | controllers/VehicleTrackingController.js:216-222 | only the given checkpoint turns verified, with verifier and time; no other checkpoint changes; `lastCheckpointPassed` becomes exactly that index; nothing else changes |
| TrackingModel.TamperReported | controllers/VehicleTrackingController.js:258-271 | exactly one tamper attempt is appended; status becomes suspicious_activity with the anomaly flag and details, whatever the prior status; nothing else changes |
| TrackingModel.CompleteTracking | controllers/VehicleTrackingController.js:380-383 | status completed, `otpVerified` true, actual delivery time now; nothing else changes |
| PackageModel.NewPackage | models/TamperProofPackaging.js:19-88 | a new package has its seal intact, status sealed, and empty history and evidence, with the given ids and barcode |
| VerificationModel.NewVerification | models/DeliveryVerification.js:11-22 | a new OTP record has 0 attempts, a limit of 3, expiry 30 minutes after generation, status pending and no verifier |
| Store.Barcode | controllers/TamperProofPackagingController.js:21-23 | the barcode is `BAR-` followed by exactly the package id |
| Store.TrackingStored | models/VehicleTracking.js:84-95 | storing a well-formed record keeps the collection well formed |
| Store.PackageReplaced | models/TamperProofPackaging.js:19-23 | replacing a package by a well-formed one with the same id keeps the collection well formed and its keys |
| AuthMiddleware.SplitOnSpace | middleware/auth.js:11 | `split(" ")` yields at least one piece |
| AuthMiddleware.SplitOnSpaceJoin | middleware/auth.js:11 | the pieces hold no space, and joining them with single spaces gives back the text |
| AuthMiddleware.ExtractBearer | middleware/auth.js:10-12 | a token is extracted exactly when the header starts with "Bearer " |
| AuthMiddleware.BearerRoundTrip | middleware/auth.js:10-12 | a header "Bearer" + token (+ " " + more) yields exactly the token |
| AuthMiddleware.ExtractedTokenHasNoSpace | middleware/auth.js:10-12 | an extracted token never contains a space |
| AuthMiddleware.ProtectOutcome | middleware/auth.js:5-38 | `next` runs exactly for a non-empty bearer token whose payload id names an existing user, with that user; a missing token, missing id or unknown user gives 401; a rejected token gives 403 |
| AuthMiddleware.NoBearerNoToken | middleware/auth.js:10-16 | a header without the Bearer scheme is refused with 401 before the token check |
| AuthMiddleware.Authorize | middleware/auth.js:41-55 | 401 without a user; `next` exactly when the role is allowed; 403 otherwise |
| VehicleTrackingController.CheckpointCount | controllers/VehicleTrackingController.js:51-54 | `numCheckpoints \|\| 3`: the given count unless it is absent or 0 |
| VehicleTrackingController.PlannedRoute | controllers/VehicleTrackingController.js:39-48 | the planned route has one point more than the steps: every step's start, then the last step's end |
| VehicleTrackingController.CodedCheckpoints | controllers/VehicleTrackingController.js:57-67 | one stored checkpoint per placed point, in order, keeping location and name, pending, with its id and code |
| VehicleTrackingController.InitialTracking | controllers/VehicleTrackingController.js:70-93 | a new record is preparing, has no checkpoint passed, no anomaly, no tamper attempts, the planned route and checkpoints, the OTP and token, and the expected time now + duration |
| VehicleTrackingController.InitialTrackingShape | controllers/VehicleTrackingController.js:39-67 | the planned route has steps+1 points; at most `numCheckpoints \|\| 3` checkpoints, all pending and named "Checkpoint 1", "Checkpoint 2", … in order |
| VehicleTrackingController.SecretShapes | controllers/VehicleTrackingController.js:57-65 | the drawn OTP renders as six digits and a checkpoint code as four digits |
| VehicleTrackingController.InitializeTracking | controllers/VehicleTrackingController.js:10-97 | 403 for other roles, 404 for an unknown delivery, 400 when a record exists, each with no change; otherwise exactly the initial record is stored and the delivery turns in_transit |
| VehicleTrackingController.LocationTime | controllers/VehicleTrackingController.js:148 | the reported timestamp when one is given, else now |
| VehicleTrackingController.Relocated | controllers/VehicleTrackingController.js:144-149 | only the current location and its time change |
| VehicleTrackingController.NextCheckpoint | controllers/VehicleTrackingController.js:177-178 | the next checkpoint is reported exactly when `lastCheckpointPassed < length-1`, and it is the one after the last passed |
| VehicleTrackingController.UpdateVehicleLocation | controllers/VehicleTrackingController.js:128-180 | 404 for an unknown record and 401 for a wrong token, with no change; otherwise only the location changes |
| VehicleTrackingController.CheckpointVerified | controllers/VehicleTrackingController.js:216-227 | the shared checkpoint update, and preparing becomes in_transit while other statuses stay |
| VehicleTrackingController.VerifyCheckpoint | controllers/VehicleTrackingController.js:188-238 | 404 unknown record; 400 index outside `[0, length)`; 400 already verified; 401 wrong code, each with no change; otherwise the checkpoint update is stored and the reply holds the checkpoint and the next one |
| VehicleTrackingController.VerifiedIndexOverwrites | controllers/VehicleTrackingController.js:221-222 | the last-passed index becomes the verified index, so it can decrease; verified checkpoints stay verified |
| VehicleTrackingController.ReportTampering | controllers/VehicleTrackingController.js:248-283 | 404 with no change for an unknown record; otherwise exactly the tamper report is stored |
| VehicleTrackingController.ActiveTrackings | controllers/VehicleTrackingController.js:330-341 | exactly the records that are not completed, only the driver's own for a delivery person |
| VehicleTrackingController.ActiveTrackingsViews | controllers/VehicleTrackingController.js:333-338 | a driver sees a subset of what other roles see; a record completed by OTP leaves every view |
| VehicleTrackingController.CompleteDeliveryWithOtp | controllers/VehicleTrackingController.js:358-393 | 404 unknown; 400 already completed; 401 when `deliveryOTP \|\| otp` differs, each with no change; otherwise the record is completed and the delivery delivered |
| EnhancedTrackingController.SameCheckpointsAsBasic | controllers/EnhancedVehicleTrackingController.js:53-70 | the geofenced checkpoints, once stored without their geofences, are the basic initialisation's checkpoints |
| EnhancedTrackingController.InitializeEnhancedTracking | controllers/EnhancedVehicleTrackingController.js:12-100 | the same guards (403, 404, 400, no change) and the same new record as the basic initialisation |
| EnhancedTrackingController.DelayIsRecordAge | controllers/EnhancedVehicleTrackingController.js:226-239 | with the ETA of `EnhancedMaps.EtaOf` (now plus the route's duration, with its traffic), the expected time becomes now + duration; under heavy traffic the record turns delayed exactly when it is more than 30 minutes old; nothing else changes |
| EnhancedTrackingController.EnhancedUpdateEffect | controllers/EnhancedVehicleTrackingController.js:149-244 | only location, anomaly fields, status and expected time change; the anomaly flag is never cleared; checkpoints are untouched; delayed overrides suspicious |
| EnhancedTrackingController.FlaggedEffect | controllers/EnhancedVehicleTrackingController.js:171-174 | a finding makes the record suspicious, flagged and described by the finding types joined by ", "; no finding changes nothing |
| EnhancedTrackingController.EnhancedUpdateFindings | controllers/EnhancedVehicleTrackingController.js:159-174 | the rules run over exactly the stored and the new position, and only a stop and a deviation can be found, in that order |
| EnhancedTrackingController.AliasedPositionsNeverStop | controllers/EnhancedVehicleTrackingController.js:149-168 | when both positions are the new one, as the code reads them, no stop is ever found, and a finding is reported exactly when the new point is more than 2 km from every route point |
| EnhancedTrackingController.StationaryVehicleStop | controllers/EnhancedVehicleTrackingController.js:149-168 | the stored spot reported again 40 minutes later gives a stop as the first finding over the stored and new position, and never over the positions as the code reads them |
| EnhancedTrackingController.TwoPositionReport | controllers/EnhancedVehicleTrackingController.js:159-168 | over two positions the report lists at most the stop and the deviation findings, and is flagged exactly when it lists one |
| EnhancedTrackingController.ReportDetails | controllers/EnhancedVehicleTrackingController.js:174 | the details text names the stop and deviation findings present, joined by ", " |
| EnhancedTrackingController.FlaggedPackages | controllers/EnhancedVehicleTrackingController.js:180-195 | the packages of the delivery gain the entry; all others are untouched; no key is added or removed |
| EnhancedTrackingController.FlagPackages | controllers/EnhancedVehicleTrackingController.js:180-195 | the loop over the found packages leaves exactly the flagged collection |
| EnhancedTrackingController.FlaggingAppendsOneEntry | controllers/EnhancedVehicleTrackingController.js:184-192 | a flagged package gains exactly one suspicious history entry and nothing else changes |
| EnhancedTrackingController.UpdatedRecord | controllers/EnhancedVehicleTrackingController.js:149-244 | the record updates in the handler's order (position, anomaly rules over the last two positions, ETA) give the update's specification, and well-formedness is kept |
| EnhancedTrackingController.UpdateEnhancedLocation | controllers/EnhancedVehicleTrackingController.js:132-257 | 404 unknown and 401 wrong token, with no change; otherwise the record is updated and, on a finding, every package of the delivery is flagged |
| EnhancedTrackingController.FractionBelowOne | controllers/EnhancedVehicleTrackingController.js:284-302 | a ratio of `0 < a < b` lies strictly between 0 and 1 |
| EnhancedTrackingController.ProgressBounds | controllers/EnhancedVehicleTrackingController.js:284-302 | 100 when completed; `(lcp+1)/(n+1)·100`, strictly inside (0, 100), with a checkpoint passed; otherwise the distance ratio clamped to [0, 100], undefined only for a zero-length route with no movement |
| EnhancedTrackingController.ApplyScans | controllers/EnhancedVehicleTrackingController.js:396-445 | the scan loop leaves exactly the packages and results of the scans applied in order |
| EnhancedTrackingController.ScanAllResults | controllers/EnhancedVehicleTrackingController.js:396-445 | one result per scan, in scan order, verified with the scan's verdict exactly when it names a package of the delivery, `not_found` otherwise |
| EnhancedTrackingController.ScannedKeepsIdentity | controllers/EnhancedVehicleTrackingController.js:396-445 | a scan keeps a package's id, delivery, barcode and well-formedness |
| EnhancedTrackingController.ScanAllKeepsIdentity | controllers/EnhancedVehicleTrackingController.js:396-445 | the scans keep the key set and every package's id, delivery and barcode |
| EnhancedTrackingController.ScannedAppendOnly | controllers/EnhancedVehicleTrackingController.js:400-425 | one scan only appends to history and evidence and never restores a broken seal |
| EnhancedTrackingController.ScanAllAppendOnly | controllers/EnhancedVehicleTrackingController.js:400-425 | over all scans the old history and evidence stay as prefixes and a broken seal stays broken |
| EnhancedTrackingController.CheckpointBreachSticks | controllers/EnhancedVehicleTrackingController.js:412-414 | a not-intact scan at a checkpoint leaves the package compromised with a broken seal whatever later scans say |
| EnhancedTrackingController.DeliveryPassDelivers | controllers/EnhancedVehicleTrackingController.js:516-536 | at the final check every scanned package of the delivery ends delivered, even one compromised before |
| EnhancedTrackingController.FindCheckpoint | controllers/EnhancedVehicleTrackingController.js:366-369 | the first checkpoint with the id, or none when no checkpoint has it |
| EnhancedTrackingController.VerifyCheckpointWithPackages | controllers/EnhancedVehicleTrackingController.js:355-468 | 404 unknown record or checkpoint and 401 wrong code, with no change; otherwise the checkpoint update (no already-verified guard, no status step) and the scans in order |
| EnhancedTrackingController.CompleteWithPackages | controllers/EnhancedVehicleTrackingController.js:476-578 | 404 unknown and 401 wrong OTP, with no change; there is no already-completed guard; otherwise the record is completed, the delivery delivered and the final scans applied |
| EnhancedMaps.LongestStopIsMaximum | utils/EnhancedGoogleMapsUtil.js:196-223 | the longest stop is at least 0, bounds every stop run's duration, and is 0 or the duration of some stopped pair |
| EnhancedMaps.RunStartIsRunHead | utils/EnhancedGoogleMapsUtil.js:196-223 | a stop run starts at the earlier timestamp of its first stopped pair, and every pair after it is stopped |
| EnhancedMaps.CalculateLongestStop | utils/EnhancedGoogleMapsUtil.js:196-223 | the loop computes the longest-stop specification |
| EnhancedMaps.TwoPositionStop | utils/EnhancedGoogleMapsUtil.js:160-167 | over two positions a stop is reported exactly when they are under 50 m and over 30 minutes apart |
| EnhancedMaps.MinRouteDistanceExceeds | utils/EnhancedGoogleMapsUtil.js:231-246 | the running minimum exceeds a limit exactly when every route point seen is beyond it |
| EnhancedMaps.MaxDeviationUpToExceeds | utils/EnhancedGoogleMapsUtil.js:231-246 | the running maximum exceeds a limit exactly when some position seen does |
| EnhancedMaps.CalculateMaxRouteDeviation | utils/EnhancedGoogleMapsUtil.js:231-246 | the loop computes the max-of-min deviation specification, `Infinity` included |
| EnhancedMaps.RouteDeviationReported | utils/EnhancedGoogleMapsUtil.js:170-177 | a deviation is reported exactly when some position is more than 2 km from every route point; with an empty route any position triggers it |
| EnhancedMaps.SpeedUnitDiscrepancy | utils/EnhancedGoogleMapsUtil.js:261 | 150 km in one hour is recorded as 0.15 km/h as written and as 150 km/h as intended |
| EnhancedMaps.SpeedsScale | utils/EnhancedGoogleMapsUtil.js:256-265 | for every trip, both conversions keep the same pairs, and each intended speed is 1000 times the speed as written |
| EnhancedMaps.AsWrittenRuleNeedsExtremeSpeed | utils/EnhancedGoogleMapsUtil.js:256-283 | the speed rule as written fires only if some pair is, measured correctly, faster than 100 000 km/h |
| EnhancedMaps.FastLegOutlier | utils/EnhancedGoogleMapsUtil.js:270-283 | ten legs at 50 km/h and one at 1000 km/h are reported as an outlier with top speed 1000; the same legs measured as written (0.05 and 1.0) are not |
| EnhancedMaps.SpeedsCount | utils/EnhancedGoogleMapsUtil.js:256-267 | at most one speed per pair, and none exactly when no pair has a positive time difference |
| EnhancedMaps.MaxOf | utils/EnhancedGoogleMapsUtil.js:277 | `Math.max` of the speeds: an upper bound that is one of them |
| EnhancedMaps.IndexOf | utils/EnhancedGoogleMapsUtil.js:283 | `indexOf`: the first index holding the value |
| EnhancedMaps.OutlierCore | utils/EnhancedGoogleMapsUtil.js:272-278 | the square-free test equals `max > mean + 3·sd && max > 100` for the standard deviation `sd` |
| EnhancedMaps.OutlierTestWithoutSqrt | utils/EnhancedGoogleMapsUtil.js:272-278 | the outlier predicate on a speed list equals the source's test with the square root |
| EnhancedMaps.SingleSpeedNeverOutlier | utils/EnhancedGoogleMapsUtil.js:272-278 | a single speed is never an outlier |
| EnhancedMaps.TwoPositionsNoSpeedFinding | utils/EnhancedGoogleMapsUtil.js:253-288 | two positions never give a speed finding |
| EnhancedMaps.CollectSpeeds | utils/EnhancedGoogleMapsUtil.js:254-267 | the loop collects one speed per consecutive pair with positive time between them, in order |
| EnhancedMaps.DetectSpeedAnomaly | utils/EnhancedGoogleMapsUtil.js:253-288 | the method computes the speed-finding specification (no speeds, no finding) |
| EnhancedMaps.ComposeShape | utils/EnhancedGoogleMapsUtil.js:157-188 | findings come in the order stop, deviation, speed, each kind at most once and exactly when present |
| EnhancedMaps.DetectMovementAnomalies | utils/EnhancedGoogleMapsUtil.js:152-189 | the method computes the report specification |
| EnhancedMaps.MovementReportShape | utils/EnhancedGoogleMapsUtil.js:152-189 | fewer than two positions give nothing; the anomaly flag holds exactly when a finding is listed; each kind is listed exactly when its rule fires |
| EnhancedMaps.GeofenceMembership | utils/EnhancedGoogleMapsUtil.js:81-117 | the geofences made by `CreateGeofence` and `CreateRouteCorridorGeofence`: a circle holds exactly the points within its radius (inclusive); a corridor delegates to the near-route test; other types hold nothing |
| EnhancedMaps.CheckpointsWithGeofencesKeepCheckpoints | utils/EnhancedGoogleMapsUtil.js:343-351 | the same count, order, locations and names as the plain checkpoints, each fenced by a circle of the radius (0.5 by default) around itself |
| EnhancedMaps.FormatDurationSplit | utils/EnhancedGoogleMapsUtil.js:295-304 | "h hr m min" when h > 0, else "m min", with h = ⌊s/3600⌋ and m = ⌊(s mod 3600)/60⌋ |
| EnhancedMaps.FormatDurationInjective | utils/EnhancedGoogleMapsUtil.js:295-304 | two non-negative durations render alike exactly when they agree to the minute |
| EnhancedMaps.TrafficMonotone | utils/EnhancedGoogleMapsUtil.js:58-60 | a longer in-traffic duration never classifies as lighter traffic |
| EnhancedMaps.HeavyTrafficExact | utils/EnhancedGoogleMapsUtil.js:58-60 | heavy exactly when in-traffic > 1.5·duration; moderate exactly when > 1.2·duration and not heavy |
| EnhancedMaps.RouteInfoOf | utils/EnhancedGoogleMapsUtil.js:52-67 | the duration is the in-traffic one when present; traffic is unknown exactly without it |
| Geo.SegmentDistSq | utils/GoogleMapsUtil.js:183-218 | the squared segment distance is never negative |
| Geo.ClosestPointOnSegment | utils/GoogleMapsUtil.js:183-218 | the clamped projection lies on the segment; before the start it is the start, past the end it is the end |
| Geo.ZeroLengthSegment | utils/GoogleMapsUtil.js:183-218 | a zero-length segment measures the distance to its start |
| Geo.DegreeTolerance | controllers/TamperProofPackagingController.js:26-35 | the tolerance 1 passed to the route test is in degrees: a point 0.9 degrees (about 100 km) beside a one-degree segment is near the route |
| Geo.SqrtComparison | utils/GoogleMapsUtil.js:173 | `sqrt(x) <= m` exactly when `m >= 0 && x <= m²` |
| Geo.MinSegmentDistSqSpec | utils/GoogleMapsUtil.js:162-174 | the running minimum is absent until a segment is seen, then is a segment distance bounding all seen segments |
| Geo.NearRouteIff | utils/GoogleMapsUtil.js:162-174 | near exactly when the route has a segment within the distance (inclusive); empty and one-point routes are never near |
| Geo.IsPointNearRoute | utils/GoogleMapsUtil.js:162-174 | the loop computes the near-route specification |
| Geo.CalculateCheckpoints | utils/GoogleMapsUtil.js:75-121 | the loop computes the checkpoint specification: nothing for a path of at most 2 points |
| Geo.CheckpointPlacement | utils/GoogleMapsUtil.js:100-114 | a non-empty result has exactly `n` checkpoints; each interpolates its segment's ends with `ratio = 1 − (current − target)/segment` |
| Geo.CheckpointNamed | utils/GoogleMapsUtil.js:113 | the checkpoint at position k is named "Checkpoint k+1" |
| Geo.CheckpointRatioInUnit | utils/GoogleMapsUtil.js:102-110 | every interpolation ratio lies in [0, 1] |
| Geo.CheckpointBracket | utils/GoogleMapsUtil.js:93-108 | each target lies between the cumulative distances of its segment's two ends |
| Geo.TargetBounds | utils/GoogleMapsUtil.js:88-117 | the targets are non-negative, non-decreasing and never pass the path's end |
| Geo.TargetClosedForm | utils/GoogleMapsUtil.js:88-117 | the k-th target is (k+1)·total/(n+1) |
| Geo.TargetMonotone | utils/GoogleMapsUtil.js:93-116 | with non-negative spacing the targets never decrease |
| Geo.CheckpointsInPathOrder | utils/GoogleMapsUtil.js:93-116 | a later checkpoint never lies on an earlier segment |
| Geo.FirstReachSpec | utils/GoogleMapsUtil.js:95-100 | the inner walk stops at the first segment whose end reaches the target, or at the last one |
| DeliveryVerificationController.Regenerated | controllers/DeliveryVerificationController.js:39-45 | new code, generation time, expiry now + 30 min, 0 attempts, pending; the limit and everything else are kept |
| DeliveryVerificationController.GeneratedShape | controllers/DeliveryVerificationController.js:36-59 | the code is six digits; attempts 0, pending, expiry now + 30 min; the limit is kept, or 3 for a new record |
| DeliveryVerificationController.GenerateDeliveryOtp | controllers/DeliveryVerificationController.js:12-84 | 403 for other roles, 404 unknown delivery, 400 not in transit, with no change; otherwise the record is regenerated or created and the tracking record gets the same code |
| DeliveryVerificationController.OtpCheckSpec | controllers/DeliveryVerificationController.js:97-127 | a check keeps the code, window and limit; it matches exactly for the right code at `now <= expiresAt` with attempts left; only a mismatch adds an attempt, and it reports `attemptsLeft = max − attempts` |
| DeliveryVerificationController.VerifyDeliveryOtp | controllers/DeliveryVerificationController.js:87-162 | 404 with no change without a record; otherwise the checked record is saved in every outcome and only a match delivers the delivery and completes the tracking record |
| DeliveryVerificationController.WrongCodesExhaust | controllers/DeliveryVerificationController.js:105-118 | n wrong codes in the window leave min(attempts+n, limit) attempts, and the status turns failed exactly after the limit is passed |
| DeliveryVerificationController.ThreeStrikes | controllers/DeliveryVerificationController.js:105-118 | three wrong codes leave a new record pending with 3 attempts; the fourth fails it without counting; then even the right code is refused |
| DeliveryVerificationController.ExpiryBoundary | controllers/DeliveryVerificationController.js:98-102 | the right code still matches at `expiresAt` and is refused as expired one millisecond later |
| DeliveryVerificationController.RegenerationReopens | controllers/DeliveryVerificationController.js:39-45 | after regeneration the new code matches within 30 minutes whatever the old status; a verified record can verify again |
| DeliveryVerificationController.StoredIssues | controllers/DeliveryVerificationController.js:189-194 | one stored issue per reported one, in order, reported now by the user, evidence `\|\| ""` |
| DeliveryVerificationController.ReportIntegrityIssues | controllers/DeliveryVerificationController.js:165-213 | creates a pending record when none exists, then replaces its integrity with not intact and the reported issues |
| DeliveryVerificationController.ReportReplacesIssues | controllers/DeliveryVerificationController.js:187-195 | two reports keep only the second's issues; the OTP fields and status are untouched |
| DeliveryVerificationController.RedactHidesOnlyCode | controllers/DeliveryVerificationController.js:228-235 | two records look alike exactly when they differ at most in the code |
| DeliveryVerificationController.GetVerificationDetails | controllers/DeliveryVerificationController.js:216-245 | 404 without a record; otherwise the record without its code |
| TamperProofPackagingController.PackageIdOf | controllers/TamperProofPackagingController.js:10-12 | a package id starts with `PKG-` and so is never a barcode |
| TamperProofPackagingController.PackageIdInjective | controllers/TamperProofPackagingController.js:10-12 | ids made at different times or with different draws differ |
| TamperProofPackagingController.PackageIdPlain | controllers/TamperProofPackagingController.js:10-12 | a package id needs no JSON escaping |
| TamperProofPackagingController.PackageIdNotJson | controllers/TamperProofPackagingController.js:10-12 | a package id is not a JSON text |
| TamperProofPackagingController.QrContentPlain | controllers/TamperProofPackagingController.js:15-18 | with fields that need no escaping, the content as written is the escaped one |
| TamperProofPackagingController.SafeQrContentParses | controllers/TamperProofPackagingController.js:15-18 | the escaped content parses back to the object it was written from |
| TamperProofPackagingController.Classify | controllers/TamperProofPackagingController.js:279-292 | a barcode query exactly for `BAR-` codes, by that code; a code that is not JSON is its own package id |
| TamperProofPackagingController.ClassifyObject | controllers/TamperProofPackagingController.js:284-287 | a JSON object code is looked up by its string `packageId` member |
| TamperProofPackagingController.ObjectTextNotBarcode | controllers/TamperProofPackagingController.js:280 | an object text never starts with `BAR-` |
| TamperProofPackagingController.QrObjectLookup | controllers/TamperProofPackagingController.js:15-18 | the QR object's `packageId` member is the package id |
| TamperProofPackagingController.SafeQrContentClassifies | controllers/TamperProofPackagingController.js:15-18 | the escaped QR content scans as a lookup of its package id, whatever the fields hold |
| TamperProofPackagingController.ScanResolves | controllers/TamperProofPackagingController.js:279-300 | the barcode, the escaped QR content and the bare id of a stored package each find that package |
| TamperProofPackagingController.PrintedQrTextNotAnId | utils/GoogleMapsUtil.js:226-231 | the text the printed QR encodes classifies as a bare package id (the scan handler's fallback) and equals no generated `PKG-` id, so that scan finds no package |
| TamperProofPackagingController.QrContentInjection | controllers/TamperProofPackagingController.js:15-18 | a batch number that closes its string and adds a `packageId` member makes the QR content as written scan as another package |
| TamperProofPackagingController.PackageFor | controllers/TamperProofPackagingController.js:66-79 | a created package is sealed and intact, with empty history and evidence, its id, barcode, QR content and features |
| TamperProofPackagingController.CreateAllShape | controllers/TamperProofPackagingController.js:60-82 | existing packages are untouched; new keys are the created ids, none existing before; a creation failed exactly when fewer packages than stocks were made |
| TamperProofPackagingController.CreateAllDistinct | controllers/TamperProofPackagingController.js:60-82 | no id is created twice |
| TamperProofPackagingController.CreateAllMade | controllers/TamperProofPackagingController.js:60-82 | every new package is the package of one of the stocks under its label |
| TamperProofPackagingController.CreateAllComplete | controllers/TamperProofPackagingController.js:60-82 | without a failure, the j-th stock's package is stored under the j-th label's id |
| TamperProofPackagingController.CreateAllIds | controllers/TamperProofPackagingController.js:60-82 | without a failure, the created ids are the labels' ids in order, and only they are new |
| TamperProofPackagingController.CreateAllSucceeds | controllers/TamperProofPackagingController.js:60-82 | creation succeeds exactly when the labels' ids are new and pairwise different |
| TamperProofPackagingController.CreateAllWellFormed | controllers/TamperProofPackagingController.js:60-82 | the collection stays well formed |
| TamperProofPackagingController.CreateEach | controllers/TamperProofPackagingController.js:60-82 | the creation loop leaves exactly the collection of the creations in order |
| TamperProofPackagingController.CreatePackaging | controllers/TamperProofPackagingController.js:38-95 | 403 other roles; 404 unknown delivery or a missing stock, with no change; otherwise one sealed package per stock with the default features when none are given, 500 after a failed creation |
| TamperProofPackagingController.Checked | controllers/TamperProofPackagingController.js:128-142 | exactly one entry is appended; the seal and evidence are untouched; only a suspicious entry changes the status, to in_transit, and never for a compromised package |
| TamperProofPackagingController.VerifyPackageIntegrity | controllers/TamperProofPackagingController.js:98-159 | 404 without the package or its tracking record, with no change; otherwise suspicious exactly when the point is farther than planar distance 1 (degrees of latitude and longitude) from every route segment |
| TamperProofPackagingController.Tampered | controllers/TamperProofPackagingController.js:173-186 | the seal is broken, the status compromised and exactly one evidence entry appended |
| TamperProofPackagingController.ReportPackageTampering | controllers/TamperProofPackagingController.js:162-225 | 404 with no change; otherwise the package is compromised and the delivery's tracking record, if any, turns suspicious with the prefixed details and one more tamper attempt |
| TamperProofPackagingController.Logged | controllers/TamperProofPackagingController.js:303-313 | a scan appends one entry and changes nothing else |
| TamperProofPackagingController.ScanPackage | controllers/TamperProofPackagingController.js:274-334 | 404 with no change; with coordinates one intact entry is logged, without them nothing is saved; status and seal never change |
| TamperProofPackagingController.DeliveredPackage | controllers/TamperProofPackagingController.js:348-360 | the package is delivered whatever its status, with one entry appended; seal and evidence are untouched |
| TamperProofPackagingController.CompletePackageDelivery | controllers/TamperProofPackagingController.js:337-379 | 404 with no change; otherwise delivered, with an entry intact exactly when the seal is and the default note "Delivery completed" |
| TamperProofPackagingController.TamperedStaysCompromised | controllers/TamperProofPackagingController.js:140-186 | once tampered, a package stays compromised with a broken seal through route checks and scans, and completion records the breach |
| FIFOStockAllocationController.CreateFifoStockBatch | controllers/FIFOStockAllocationController.js:6-23 | a new batch has nothing allocated; a batch number on file gives 500 with no change |
| FIFOStockAllocationController.AllocateStockFifo | controllers/FIFOStockAllocationController.js:28-64 | the loop leaves the batches of the allocation run; 400 when quantity remains, with the partial allocations kept, otherwise the entries |
| FIFOStockAllocationController.AllocateConserves | controllers/FIFOStockAllocationController.js:36-46 | requested = remaining + the sum handed out; remaining never goes negative |
| FIFOStockAllocationController.AllocateStops | controllers/FIFOStockAllocationController.js:40 | once nothing remains, later batches make no difference |
| FIFOStockAllocationController.AllocateUnvisited | controllers/FIFOStockAllocationController.js:40 | batches after the stopping point are untouched |
| FIFOStockAllocationController.AllocateKeepsBounds | controllers/FIFOStockAllocationController.js:42-46 | a batch with 0 ≤ allocated ≤ total keeps that bound |
| FIFOStockAllocationController.AllocateKeepsWellFormed | controllers/FIFOStockAllocationController.js:42-46 | the collection stays well formed |
| FIFOStockAllocationController.AllocateKeepsKeys | controllers/FIFOStockAllocationController.js:39-50 | no batch is added or removed |
| FIFOStockAllocationController.AllocateUntouched | controllers/FIFOStockAllocationController.js:33-39 | a batch not in the query's answer is untouched |
| FIFOStockAllocationController.AllocateTouchesOnlyMatching | controllers/FIFOStockAllocationController.js:33-34 | a batch of another godown or item is untouched |
| FIFOStockAllocationController.AllocateCount | controllers/FIFOStockAllocationController.js:39-50 | at most one entry per batch; fewer only when nothing remains |
| FIFOStockAllocationController.AllocateVisited | controllers/FIFOStockAllocationController.js:42-49 | the j-th entry names the j-th batch, whose allocation grew by exactly that entry's amount |
| FIFOStockAllocationController.AllocateAmount | controllers/FIFOStockAllocationController.js:42-46 | each entry's amount is min(available, remaining before it) |
| FIFOStockAllocationController.AllocateLastAmount | controllers/FIFOStockAllocationController.js:42-46 | the last step's entry is min(available, remaining before it) |
| FIFOStockAllocationController.AllocateEntriesWanted | controllers/FIFOStockAllocationController.js:40-49 | each entry was made while quantity still remained |
| FIFOStockAllocationController.AllocateExhaustsEarlier | controllers/FIFOStockAllocationController.js:42-46 | every batch before the last visited one is fully allocated |
| FIFOStockAllocationController.StepKeepsEntries | controllers/FIFOStockAllocationController.js:49 | a step keeps the earlier entries |
| DeliveryController.Debit | controllers/DeliveryController.js:28-29 | only stock k changes, by exactly −quantity |
| DeliveryController.HoldingsUpdate | controllers/DeliveryController.js:28-29 | saving one stock changes an item's holdings by the difference it makes |
| DeliveryController.DebitHoldings | controllers/DeliveryController.js:28-29 | a debit takes exactly the quantity out of its item's holdings and nothing from others |
| DeliveryController.CreditHoldings | controllers/DeliveryController.js:155-166 | the shop credit adds exactly the quantity to the item's holdings, whether the stock existed or was created; other items unchanged |
| DeliveryController.CreateDelivery | controllers/DeliveryController.js:7-48 | 403 other roles; 400 invalid driver; 400 missing or short stock, each with no change; otherwise the godown stock is debited by the quantity and the delivery created in transit |
| DeliveryController.OrNumber | controllers/DeliveryController.js:111 | `x \|\| fallback` for numbers: 0 or absent falls back |
| DeliveryController.EmptyUpdateKeeps | controllers/DeliveryController.js:104-111 | falsy inputs (absent, "", 0) keep every field |
| DeliveryController.UpdateIdempotent | controllers/DeliveryController.js:104-111 | applying the same update twice is applying it once; quantity 0 keeps the quantity |
| DeliveryController.ApplyChanges | controllers/DeliveryController.js:104-111 | the field-by-field assignments give the updated delivery |
| DeliveryController.UpdateDelivery | controllers/DeliveryController.js:78-120 | 403; 404; 400 when a changed quantity is not covered by stock + old, each with no change; a changed quantity sets stock' = stock + old − new; otherwise the stock is untouched |
| DeliveryController.RebalanceConserves | controllers/DeliveryController.js:97-99 | holdings plus the delivery's quantity are the same before and after a rebalance |
| DeliveryController.Completed | controllers/DeliveryController.js:150-151 | delivered, arriving at the given time or now; nothing else changes |
| DeliveryController.CompletedIsFinal | controllers/DeliveryController.js:135-137 | a completed delivery can never be completed again |
| DeliveryController.CompleteDelivery | controllers/DeliveryController.js:125-173 | 403; 404; 400 when already delivered or the arrival time is missing or still ahead, each with no change; otherwise delivered and the shop stock credited |
| DeliveryController.CreateThenCompleteConserves | controllers/DeliveryController.js:28-166 | create then complete moves exactly the quantity from the godown to the shop: the item's holdings are unchanged, as are other items' |
| StockReconciliationController.Report | controllers/StockReconciliationController.js:15-26 | the system quantity is the stock's; a discrepancy exactly when the recorded quantity differs; the other fields unchanged |
| StockReconciliationController.ReconcileStock | controllers/StockReconciliationController.js:5-32 | 404 with no report when no stock matches; otherwise exactly the report is filed |

## Left out

- Network I/O: the routing, traffic and geocoding requests to the maps service are not modelled. Their answers (route steps, durations, ETA) are parameters, and a failed ETA request is `None`.
- Haversine trigonometry: `calculateDistance` and `deg2rad` are not modelled. The distance is a parameter with the assumptions of `Geo.IsDistance`.
- Floating-point arithmetic: reals are exact. `NaN` is modelled only as the undefined progress ratio, `Infinity` only as the initial minimum and maximum.
- Geo.CalculateCheckpoints: on a path whose points all coincide, the code divides 0 by 0 and places checkpoints at NaN coordinates. The model uses the ratio 1 there, which places them at the path's second point.
- Formatting to a fixed number of decimals: `formatDistance` and the rounding of the progress ratio are not modelled.
- QR image URLs: `generateQRCode` encodes `DELIVERY:<packageId>|OTP:<content>` into a URL of an external chart service, and the code stores only that URL in `qrCode`. The model stores the QR content itself in the package and models the printed text as `PrintedQrText`; it does not model URL encoding or `generateSecureQRCode`.
- Concurrency: the Promise.all of package creation is modelled as sequential creations. The labels are drawn before the loop.
- Persistence and logging: Mongoose persistence, `populate`, ObjectId casts, schema validation errors and the logger are not modelled. Database answers are parameters constrained by `Finds…` predicates.
- The clock: the separate `Date.now()` reads of one request are one `now` parameter.
- Randomness: codes, tokens, ids and draws are parameters. Their ranges are preconditions where the source draws them from a range.
- Strings: there is no Unicode normalisation, and lone surrogates are not modelled.
- Quantities: the schemas declare stock, allocation and delivery quantities as `Number` (models/Stock.js, models/FIFOStockAllocation.js, models/Delivery.js). The model uses `int`, so fractional quantities are not represented; taking the minimum, adding, subtracting and comparing behave the same on whole numbers.
- Read-only handlers: getTrackingDetails, getTrackingDashboardData (except its progress computation), the verification lists (getAllVerifications), getPackageDetails, getDeliveryPackages, getFIFOAllocations, getFIFOAllocationById, getDeliveries, getDeliveryById, deleteDelivery and getReconciliationReports are not modelled. They query the database with no logic beyond a role check.
- Checkpoint proximity in location updates: the loops in both location handlers only write log lines, so they are not modelled.
- DeliveryController.UpdateDelivery: the body's `status` is taken as one of the schema's values. An unknown value would fail Mongoose validation.
- Checkpoint geofences: they are dropped when stored, as the checkpoint schema has no field for them.
- `deliveredAt`: set on the delivery by the basic OTP completion, but not in the delivery schema, so it is not stored.
- The dashboard ETA: it only reads fields, so it is not modelled.
- TamperProofPackagingController.ScanResolves: the lemma is stated for the escaped QR content. The content as written equals it only when the delivery id and batch number need no JSON escaping (`QrContentPlain`). See Findings.
- EnhancedMaps.CollectSpeeds: uses the corrected hour conversion of Findings row 1 (ms / 3 600 000). The code divides by 3600. `SpeedsScale` relates the two lists.
- EnhancedMaps.DetectSpeedAnomaly: tests the corrected speeds. The test as written fires only when the condition of `AsWrittenRuleNeedsExtremeSpeed` holds.
- EnhancedMaps.DetectMovementAnomalies: its speed finding is the corrected one, as above. A location update is not affected, because two positions never give a speed finding (`TwoPositionsNoSpeedFinding`).
- EnhancedMaps.MovementReportShape: "the speed kind is listed exactly when its rule fires" refers to the corrected speed rule.
- TamperProofPackagingController.PackageFor: stores the escaped QR content (`JSON.stringify`, the correction of Findings row 2). The code stores the template as written. The two agree whenever the delivery id and batch number need no JSON escaping (`QrContentPlain`). The code keeps neither in the package: its `qrCode` is the chart URL of `PrintedQrText`, and scanning that text finds no package (`PrintedQrTextNotAnId`).
- TamperProofPackagingController.CreatePackaging: through `PackageFor`, the same holds for `CreateEach` and the `CreateAll…` lemmas. A batch number built as in `QrContentInjection` makes the content as written scan as another package; that happens only when a client submits the content itself as the code, since the printed QR carries `PrintedQrText`.
- EnhancedTrackingController.EnhancedUpdateFindings: judges the stored position and the new one, as intended. The code reads both positions as the new one (Findings row 3). The same holds for `EnhancedUpdate`, `UpdatedRecord` and `UpdateEnhancedLocation`.

## Findings

| source | as written | input that shows it | evidently intended | confidence | as-written member | corrected member |
|---|---|---|---|---|---|---|
| utils/EnhancedGoogleMapsUtil.js:261 | the time between two positions is the millisecond difference divided by 3600, so speeds come out 1000 times too small and the 100 km/h threshold is never reached by a real vehicle | two positions 150 km and 3 600 000 ms apart give 0.15 km/h | divide by 3 600 000 to get hours | not executed | EnhancedMaps.AsWrittenRuleNeedsExtremeSpeed | EnhancedMaps.FastLegOutlier |
| controllers/TamperProofPackagingController.js:15-18 | the QR content is built by pasting the fields between quotes without escaping, so a batch number can close its string and add a second `packageId` member, which `JSON.parse` keeps (the last member wins) | batch number `x","packageId":"PKG-other` makes the QR content scan as package `PKG-other`; this is reached only when a client submits the QR content itself as the code, because the printed QR carries the `DELIVERY:` and `OTP:` text of `PrintedQrText` instead | build the content with `JSON.stringify`, which escapes every field | not executed | TamperProofPackagingController.QrContentInjection | TamperProofPackagingController.SafeQrContentClassifies |
| controllers/EnhancedVehicleTrackingController.js:149-162 | `previousLocation` holds `tracking.currentLocation`, a nested path of the schema. Mongoose returns a view of that path, so once the new location is assigned at line 152, the first recent position reads the new coordinates and time too. The stop rule can then never fire, and only the new point is judged for deviation | a vehicle reports its stored spot again 40 minutes later: it is not flagged, where a stop was evidently meant to be found | copy the coordinates and `lastUpdated` before the assignment | not executed; depends on Mongoose's nested-path getters | EnhancedTrackingController.AliasedPositionsNeverStop | EnhancedTrackingController.StationaryVehicleStop |
