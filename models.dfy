/**
 * The stored documents of the ration-delivery backend, one module per Mongoose model.
 * Documents are values; the collections holding them live in module Store. Times are integer
 * milliseconds since the epoch, locations are `[lat, lng]` pairs (`Geo.Coord`), and references to
 * other documents are their ids.
 */
module UserModel {
  /** The role enum of a user account. */
  datatype Role = Admin | GodownManager | PdsShopOwner | DeliveryPersonnel | Beneficiary

  /** The part of a user account the core reads: its id and its role. */
  datatype User = User(id: string, role: Role)
}

module DeliveryModel {
  import opened Wrappers

  /** A delivery's status: pending (the default), in_transit or delivered. */
  datatype DeliveryStatus = Pending | InTransit | Delivered

  /** A delivery of `quantity` units of one ration item from a godown to a PDS shop. */
  datatype Delivery = Delivery(
    vehicle: string,
    driver: string,
    godown: string,
    pdsShop: string,
    rationItem: string,
    quantity: int,
    departureTime: Option<int>,
    arrivalTime: Option<int>,
    status: DeliveryStatus,
    assignedBy: Option<string>)
}

module StockModel {
  import opened Wrappers

  /** The stock of one ration item held by a godown or by a PDS shop. */
  datatype Stock = Stock(godown: Option<string>, pdsShop: Option<string>, rationItem: string, quantity: int)
}

module TrackingModel {
  import opened Wrappers
  import opened Geo

  /** A checkpoint's status: pending (the default), verified or missed. */
  datatype CheckpointStatus = Pending | Verified | Missed

  /** A checkpoint on the planned route, with the code that proves the vehicle passed it. */
  datatype Checkpoint = Checkpoint(
    id: string,
    location: Coord,
    name: string,
    timestamp: int,
    status: CheckpointStatus,
    verificationCode: string,
    verifiedBy: Option<string>)

  /** The six statuses of a tracking record; the default is preparing. */
  datatype TrackingStatus = Preparing | InTransit | Delayed | SuspiciousActivity | Completed | Cancelled

  /** One entry of the append-only tamper log of a tracking record. */
  datatype TamperAttempt = TamperAttempt(timestamp: int, description: string, location: Coord)

  /** The tracking record of one delivery. */
  datatype Tracking = Tracking(
    delivery: string,
    vehicle: string,
    driver: string,
    startLocation: Coord,
    endLocation: Coord,
    currentLocation: Coord,
    lastUpdated: int,
    plannedRoute: seq<Coord>,
    checkpoints: seq<Checkpoint>,
    status: TrackingStatus,
    deliveryOTP: string,
    otpVerified: bool,
    expectedDeliveryTime: Option<int>,
    actualDeliveryTime: Option<int>,
    securityToken: string,
    lastCheckpointPassed: int,
    anomalyDetected: bool,
    anomalyDetails: Option<string>,
    tamperAttempts: seq<TamperAttempt>,
    createdAt: int)

  /** The index of the last checkpoint passed before any is verified. */
  const NoCheckpointPassed: int := -1

  /**
   * The update of a verified checkpoint, shared by both tracking controllers: that checkpoint becomes
   * verified by `userId` at `now`, and the last-passed index becomes its index.
   */
  function PassCheckpoint(t: Tracking, index: nat, userId: string, now: int): (r: Tracking)
    requires index < |t.checkpoints|
    ensures |r.checkpoints| == |t.checkpoints|
    ensures r.checkpoints[index] == t.checkpoints[index].(status := Verified, verifiedBy := Some(userId), timestamp := now)
    ensures forall j :: 0 <= j < |t.checkpoints| && j != index ==> r.checkpoints[j] == t.checkpoints[j]
    ensures r.lastCheckpointPassed == index
    ensures r.(checkpoints := t.checkpoints, lastCheckpointPassed := t.lastCheckpointPassed) == t
  {
    var c := t.checkpoints[index];
    t.(checkpoints := t.checkpoints[index := c.(status := Verified, verifiedBy := Some(userId), timestamp := now)],
       lastCheckpointPassed := index)
  }

  /**
   * The update of a tamper report, shared by the tracking and packaging controllers: one attempt is
   * appended to the log and the record turns suspicious with the given details, whatever its status.
   */
  function TamperReported(t: Tracking, attempt: TamperAttempt, details: string): (r: Tracking)
    ensures r.tamperAttempts == t.tamperAttempts + [attempt]
    ensures r.status == SuspiciousActivity && r.anomalyDetected && r.anomalyDetails == Some(details)
    ensures r.(tamperAttempts := t.tamperAttempts, status := t.status, anomalyDetected := t.anomalyDetected,
               anomalyDetails := t.anomalyDetails) == t
  {
    t.(tamperAttempts := t.tamperAttempts + [attempt], status := SuspiciousActivity, anomalyDetected := true,
       anomalyDetails := Some(details))
  }

  /**
   * The update of a completed delivery, shared by the OTP completion handlers: the record becomes
   * completed with its OTP verified and its actual delivery time set.
   */
  function CompleteTracking(t: Tracking, now: int): (r: Tracking)
    ensures r.status == Completed && r.otpVerified && r.actualDeliveryTime == Some(now)
    ensures r.(status := t.status, otpVerified := t.otpVerified, actualDeliveryTime := t.actualDeliveryTime) == t
  {
    t.(status := Completed, otpVerified := true, actualDeliveryTime := Some(now))
  }
}

module PackageModel {
  import opened Wrappers
  import opened Geo

  /** A package's status: sealed (the default), in_transit, delivered or compromised. */
  datatype PackageStatus = Sealed | InTransit | Delivered | Compromised

  /** The status recorded by one integrity check: intact (the default), suspicious or compromised. */
  datatype CheckStatus = Intact | Suspicious | Breached

  /** One entry of a package's append-only verification history. */
  datatype HistoryEntry = HistoryEntry(
    timestamp: int,
    location: Coord,
    verifiedBy: Option<string>,
    status: CheckStatus,
    notes: Option<string>)

  /** One entry of a package's append-only tamper evidence. */
  datatype Evidence = Evidence(
    timestamp: int,
    location: Coord,
    reportedBy: Option<string>,
    description: string,
    images: seq<string>)

  datatype SecurityFeatures = SecurityFeatures(tamperEvidentTape: bool, securitySeals: bool, rfidTag: bool, other: seq<string>)

  /** The features a package gets when none are given: tape and seals, no RFID tag. */
  const DefaultSecurityFeatures: SecurityFeatures := SecurityFeatures(true, true, false, [])

  /** A tamper-evident package of one stock item travelling with a delivery. */
  datatype Package = Package(
    stock: string,
    delivery: string,
    batchNumber: string,
    packageId: string,
    qrContent: string,
    barcode: string,
    sealIntact: bool,
    tamperEvidence: seq<Evidence>,
    securityFeatures: SecurityFeatures,
    verificationHistory: seq<HistoryEntry>,
    currentStatus: PackageStatus)

  /** A new package: sealed, its seal intact, with an empty history and no evidence. */
  function NewPackage(stock: string, delivery: string, batchNumber: string, packageId: string,
                      qrContent: string, barcode: string, features: SecurityFeatures): (p: Package)
    ensures p.sealIntact && p.currentStatus == Sealed
    ensures p.tamperEvidence == [] && p.verificationHistory == []
    ensures p.packageId == packageId && p.barcode == barcode && p.delivery == delivery && p.stock == stock
  {
    Package(stock, delivery, batchNumber, packageId, qrContent, barcode, true, [], features, [], Sealed)
  }
}

module VerificationModel {
  import opened Wrappers
  import opened UserModel

  /** The status of a delivery's OTP check: pending (the default), verified, expired or failed. */
  datatype VerificationStatus = Pending | Verified | Expired | Failed

  /** A one-time code with its validity window and its attempt counter. */
  datatype Otp = Otp(code: string, generatedAt: int, expiresAt: int, attempts: int, maxAttempts: int)

  datatype VerifiedBy = VerifiedBy(userId: string, role: Role, timestamp: int)

  datatype Issue = Issue(description: string, reportedAt: int, reportedBy: string, evidence: string)

  datatype Integrity = Integrity(isIntact: Option<bool>, issues: seq<Issue>)

  /** The OTP verification record of one delivery (at most one per delivery). */
  datatype Verification = Verification(
    delivery: string,
    otp: Otp,
    verificationStatus: VerificationStatus,
    verifiedBy: Option<VerifiedBy>,
    deliveryIntegrity: Integrity)

  /** The number of wrong codes accepted before a record fails. */
  const DefaultMaxAttempts: int := 3

  /** How long a code stays valid: 30 minutes. */
  const OtpValidityMs: int := 30 * 60 * 1000

  /** A new record for `code`, generated at `now`: pending, no attempts, three allowed, valid 30 minutes. */
  function NewVerification(delivery: string, code: string, now: int): (v: Verification)
    ensures v.otp.attempts == 0 && v.otp.maxAttempts == DefaultMaxAttempts
    ensures v.otp.code == code && v.otp.generatedAt == now && v.otp.expiresAt == now + 1800000
    ensures v.verificationStatus == Pending && v.verifiedBy == None && v.delivery == delivery
  {
    Verification(delivery, Otp(code, now, now + OtpValidityMs, 0, DefaultMaxAttempts), Pending, None, Integrity(None, []))
  }
}

module BatchModel {
  /** One FIFO stock batch of a ration item in a godown. */
  datatype Batch = Batch(
    batchNumber: string,
    rationItem: string,
    godown: string,
    arrivalDate: int,
    allocatedQuantity: int,
    totalQuantity: int)
}

module ReconciliationModel {
  /** A reconciliation report comparing a manual count with the system's stock. */
  datatype Reconciliation = Reconciliation(
    godown: string,
    rationItem: string,
    recordedQuantity: int,
    systemQuantity: int,
    discrepancy: bool,
    verifiedBy: string)
}
