/**
 * The collections of the database, one class per Mongoose model, each holding its documents in a
 * map keyed by the document's id (or by its unique key). A handler that saves a document replaces
 * that map entry. `Valid()` of each collection is the invariant every handler keeps.
 */
module Store {
  import opened Wrappers
  import opened DeliveryModel
  import opened StockModel
  import opened TrackingModel
  import opened PackageModel
  import opened VerificationModel
  import opened BatchModel
  import opened ReconciliationModel
  import opened Strings

  class Deliveries {
    var docs: map<string, Delivery>

    constructor()
      ensures docs == map[]
    {
      docs := map[];
    }
  }

  class Stocks {
    var docs: map<string, Stock>

    constructor()
      ensures docs == map[]
    {
      docs := map[];
    }
  }

  /**
   * A tracking record is well formed when its last-passed index is -1 or a checkpoint's index, a
   * completed record has had its OTP verified, and a suspicious one has its anomaly flag set.
   */
  predicate TrackingWellFormed(t: Tracking) {
    && -1 <= t.lastCheckpointPassed < |t.checkpoints|
    && (t.status == TrackingStatus.Completed ==> t.otpVerified)
    && (t.status == SuspiciousActivity ==> t.anomalyDetected)
  }

  predicate TrackingsWellFormed(docs: map<string, Tracking>) {
    forall k | k in docs :: TrackingWellFormed(docs[k])
  }

  /** Storing a well-formed tracking record keeps the collection well formed. */
  lemma TrackingStored(docs: map<string, Tracking>, k: string, t: Tracking)
    requires TrackingsWellFormed(docs) && TrackingWellFormed(t)
    ensures TrackingsWellFormed(docs[k := t])
  {
  }

  class Trackings {
    var docs: map<string, Tracking>

    ghost predicate Valid()
      reads this
    {
      TrackingsWellFormed(docs)
    }

    constructor()
      ensures docs == map[] && Valid()
    {
      docs := map[];
    }
  }

  /** `generateBarcode`: the barcode printed on the package with id `packageId`. */
  function Barcode(packageId: string): (b: string)
    ensures StartsWith(b, "BAR-") && b[4..] == packageId
  {
    "BAR-" + packageId
  }

  /**
   * A package is well formed when a compromised package has a broken seal and a broken seal has
   * evidence on file.
   */
  predicate PackageWellFormed(p: Package) {
    && (p.currentStatus == PackageStatus.Compromised ==> !p.sealIntact)
    && (!p.sealIntact ==> |p.tamperEvidence| > 0)
  }

  /** Packages are keyed by their unique `packageId`, and each carries the barcode of its id. */
  predicate PackagesWellFormed(docs: map<string, Package>) {
    forall k | k in docs :: docs[k].packageId == k && docs[k].barcode == Barcode(k) && PackageWellFormed(docs[k])
  }

  /** Replacing a package by one with the same id and barcode that is well formed keeps the collection well formed. */
  lemma PackageReplaced(docs: map<string, Package>, k: string, q: Package)
    requires PackagesWellFormed(docs) && k in docs
    requires q.packageId == docs[k].packageId && q.barcode == docs[k].barcode && PackageWellFormed(q)
    ensures PackagesWellFormed(docs[k := q]) && docs[k := q].Keys == docs.Keys
  {
  }

  class Packages {
    var docs: map<string, Package>

    ghost predicate Valid()
      reads this
    {
      PackagesWellFormed(docs)
    }

    constructor()
      ensures docs == map[] && Valid()
    {
      docs := map[];
    }
  }

  /** An OTP record never counts more attempts than it allows. */
  predicate VerificationWellFormed(v: Verification) {
    0 <= v.otp.attempts <= v.otp.maxAttempts
  }

  /** Verification records are keyed by their delivery, which is unique among them. */
  predicate VerificationsWellFormed(docs: map<string, Verification>) {
    forall d | d in docs :: docs[d].delivery == d && VerificationWellFormed(docs[d])
  }

  class Verifications {
    var docs: map<string, Verification>

    ghost predicate Valid()
      reads this
    {
      VerificationsWellFormed(docs)
    }

    constructor()
      ensures docs == map[] && Valid()
    {
      docs := map[];
    }
  }

  /** A batch never has more allocated than it holds (nor more than nothing, for a batch of no stock). */
  predicate BatchWellFormed(b: Batch) {
    b.allocatedQuantity <= if b.totalQuantity >= 0 then b.totalQuantity else 0
  }

  /** FIFO batches are keyed by their unique `batchNumber`. */
  predicate BatchesWellFormed(docs: map<string, Batch>) {
    forall k | k in docs :: docs[k].batchNumber == k && BatchWellFormed(docs[k])
  }

  class Batches {
    var docs: map<string, Batch>

    ghost predicate Valid()
      reads this
    {
      BatchesWellFormed(docs)
    }

    constructor()
      ensures docs == map[] && Valid()
    {
      docs := map[];
    }
  }

  class Reconciliations {
    var docs: map<string, Reconciliation>

    constructor()
      ensures docs == map[]
    {
      docs := map[];
    }
  }

  // ---------------------------------------------------------------------------------------------
  // findOne queries. Which document findOne returns when several match is the database's choice,
  // so a handler receives the query's answer as a parameter constrained by these predicates.
  // ---------------------------------------------------------------------------------------------

  /** `VehicleTracking.findOne({ delivery })` answered `found`. */
  ghost predicate FindsTracking(docs: map<string, Tracking>, delivery: string, found: Option<string>) {
    match found
    case None => forall k | k in docs :: docs[k].delivery != delivery
    case Some(k) => k in docs && docs[k].delivery == delivery
  }

  /** `Stock.findOne({ godown, rationItem })` answered `found`. */
  ghost predicate FindsGodownStock(docs: map<string, Stock>, godown: string, item: string, found: Option<string>) {
    match found
    case None => forall k | k in docs :: !(docs[k].godown == Some(godown) && docs[k].rationItem == item)
    case Some(k) => k in docs && docs[k].godown == Some(godown) && docs[k].rationItem == item
  }

  /** `Stock.findOne({ pdsShop, rationItem })` answered `found`. */
  ghost predicate FindsShopStock(docs: map<string, Stock>, shop: string, item: string, found: Option<string>) {
    match found
    case None => forall k | k in docs :: !(docs[k].pdsShop == Some(shop) && docs[k].rationItem == item)
    case Some(k) => k in docs && docs[k].pdsShop == Some(shop) && docs[k].rationItem == item
  }
}
