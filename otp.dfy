/**
 * The delivery OTP controller: generating (or regenerating) a delivery's one-time code, checking a
 * submitted code against its 30-minute window and attempt limit, reporting integrity issues, and
 * the redacted view of a record.
 */
module DeliveryVerificationController {
  import opened Wrappers
  import opened Strings
  import opened UserModel
  import opened VerificationModel
  import DM = DeliveryModel
  import TM = TrackingModel
  import opened Store
  import VT = VehicleTrackingController

  /** The roles that may generate a code. */
  const OtpRoles: seq<Role> := [Admin, DeliveryPersonnel, PdsShopOwner]

  // ---------------------------------------------------------------------------------------------
  // generateDeliveryOTP
  // ---------------------------------------------------------------------------------------------

  /** A regenerated code: new code and window, attempts reset, status pending; the limit is kept. */
  function Regenerated(v: Verification, code: string, now: int): (r: Verification)
    ensures r.otp == Otp(code, now, now + OtpValidityMs, 0, v.otp.maxAttempts)
    ensures r.verificationStatus == Pending
    ensures r.(otp := v.otp, verificationStatus := v.verificationStatus) == v
  {
    v.(otp := v.otp.(code := code, generatedAt := now, expiresAt := now + OtpValidityMs, attempts := 0),
       verificationStatus := Pending)
  }

  /** The record a generation stores: the existing one regenerated, or a new one. */
  function Generated(existing: Option<Verification>, deliveryId: string, code: string, now: int): Verification {
    match existing
    case Some(v) => Regenerated(v, code, now)
    case None => NewVerification(deliveryId, code, now)
  }

  /**
   * generateDeliveryOTP: the reply carries the code and its expiry; the delivery's tracking record,
   * when there is one (`trackingFound`), gets the same code.
   */
  method GenerateDeliveryOtp(deliveries: Deliveries, verifications: Verifications, trackings: Trackings, user: User,
                             deliveryId: string, otpDraw: int, trackingFound: Option<string>, now: int)
    returns (r: Response<(string, int)>)
    requires verifications.Valid() && trackings.Valid()
    requires 100000 <= otpDraw <= 999999
    requires FindsTracking(trackings.docs, deliveryId, trackingFound)
    modifies verifications, trackings
    ensures verifications.Valid() && trackings.Valid()
    ensures user.role !in OtpRoles ==> r == Err(403)
    ensures user.role in OtpRoles && deliveryId !in deliveries.docs ==> r == Err(404)
    ensures user.role in OtpRoles && deliveryId in deliveries.docs && deliveries.docs[deliveryId].status != DM.InTransit ==>
              r == Err(400)
    ensures r.Err? ==> unchanged(verifications, trackings)
    ensures user.role in OtpRoles && deliveryId in deliveries.docs && deliveries.docs[deliveryId].status == DM.InTransit ==>
              var code := IntToString(otpDraw);
              var existing := if deliveryId in old(verifications.docs) then Some(old(verifications.docs)[deliveryId]) else None;
              && verifications.docs == old(verifications.docs)[deliveryId := Generated(existing, deliveryId, code, now)]
              && trackings.docs == (if trackingFound.Some?
                                    then old(trackings.docs)[trackingFound.value := old(trackings.docs)[trackingFound.value].(deliveryOTP := code)]
                                    else old(trackings.docs))
              && r == Ok(200, (code, now + OtpValidityMs))
  {
    if user.role !in OtpRoles {
      return Err(403);
    }
    if deliveryId !in deliveries.docs {
      return Err(404);
    }
    if deliveries.docs[deliveryId].status != DM.InTransit {
      return Err(400);
    }
    var code := IntToString(otpDraw);
    var expiresAt := now + 30 * 60 * 1000;
    var verification;
    if deliveryId in verifications.docs {
      verification := verifications.docs[deliveryId];
      verification := verification.(otp := verification.otp.(code := code, generatedAt := now, expiresAt := expiresAt, attempts := 0),
                                    verificationStatus := Pending);
    } else {
      verification := Verification(deliveryId, Otp(code, now, expiresAt, 0, 3), Pending, None, Integrity(None, []));
    }
    verifications.docs := verifications.docs[deliveryId := verification];
    if trackingFound.Some? {
      var tracking := trackings.docs[trackingFound.value];
      trackings.docs := trackings.docs[trackingFound.value := tracking.(deliveryOTP := code)];
    }
    r := Ok(200, (code, expiresAt));
  }

  /**
   * A generated record holds the code, is pending with no attempts, and accepts that code for 30
   * minutes; a new one allows three attempts and an existing one keeps its limit.
   */
  lemma GeneratedShape(existing: Option<Verification>, deliveryId: string, otpDraw: int, now: int)
    requires 100000 <= otpDraw <= 999999
    ensures var v := Generated(existing, deliveryId, IntToString(otpDraw), now);
            && |v.otp.code| == 6 && AllDigits(v.otp.code)
            && v.otp.attempts == 0 && v.verificationStatus == Pending && v.otp.expiresAt == now + 30 * 60 * 1000
            && v.otp.maxAttempts == (if existing.Some? then existing.value.otp.maxAttempts else 3)
  {
    VT.SecretShapes(otpDraw, 1000);
  }

  // ---------------------------------------------------------------------------------------------
  // verifyDeliveryOTP
  // ---------------------------------------------------------------------------------------------

  /** How a code check ends. */
  datatype OtpOutcome = OtpExpired | AttemptsExhausted | WrongOtp(attemptsLeft: int) | OtpMatched

  /** The HTTP status of each outcome. */
  function StatusOf(o: OtpOutcome): int {
    match o
    case OtpExpired => 400
    case AttemptsExhausted => 400
    case WrongOtp(_) => 401
    case OtpMatched => 200
  }

  /**
   * One code check at `now`, in the source's order: expiry (strictly after `expiresAt`), then the
   * attempt limit, then the code. Every outcome saves the returned record.
   */
  function OtpCheck(v: Verification, user: User, otp: Option<string>, now: int): (OtpOutcome, Verification) {
    if now > v.otp.expiresAt then (OtpExpired, v.(verificationStatus := Expired))
    else if v.otp.attempts >= v.otp.maxAttempts then (AttemptsExhausted, v.(verificationStatus := Failed))
    else if otp != Some(v.otp.code) then
      var w := v.(otp := v.otp.(attempts := v.otp.attempts + 1));
      (WrongOtp(w.otp.maxAttempts - w.otp.attempts), w)
    else (OtpMatched, v.(verificationStatus := Verified, verifiedBy := Some(VerifiedBy(user.id, user.role, now))))
  }

  /**
   * A check never breaks the attempt bound, touches the code, its window or the limit, and it
   * verifies exactly for the right code within the window with attempts left.
   */
  lemma OtpCheckSpec(v: Verification, user: User, otp: Option<string>, now: int)
    requires VerificationWellFormed(v)
    ensures var (o, w) := OtpCheck(v, user, otp, now);
            && VerificationWellFormed(w)
            && w.delivery == v.delivery
            && w.otp.code == v.otp.code && w.otp.expiresAt == v.otp.expiresAt && w.otp.maxAttempts == v.otp.maxAttempts
            && (o == OtpMatched <==> now <= v.otp.expiresAt && v.otp.attempts < v.otp.maxAttempts && otp == Some(v.otp.code))
            && (o == OtpMatched ==> w.verificationStatus == Verified)
            && (w.otp.attempts == if o.WrongOtp? then v.otp.attempts + 1 else v.otp.attempts)
            && (o.WrongOtp? ==> o.attemptsLeft == v.otp.maxAttempts - v.otp.attempts - 1 >= 0)
  {
  }

  /**
   * verifyDeliveryOTP. `status` is the HTTP status; `outcome` is `None` when there is no record. The
   * failures save the record too (expired, failed, one more attempt); a match also delivers the
   * delivery and completes its tracking record (`trackingFound`), when they exist.
   */
  method VerifyDeliveryOtp(verifications: Verifications, deliveries: Deliveries, trackings: Trackings, user: User,
                           deliveryId: string, otp: Option<string>, trackingFound: Option<string>, now: int)
    returns (status: int, outcome: Option<OtpOutcome>)
    requires verifications.Valid() && trackings.Valid()
    requires FindsTracking(trackings.docs, deliveryId, trackingFound)
    modifies verifications, deliveries, trackings
    ensures verifications.Valid() && trackings.Valid()
    ensures deliveryId !in old(verifications.docs) ==> status == 404 && outcome.None? && unchanged(verifications, deliveries, trackings)
    ensures deliveryId in old(verifications.docs) ==>
              var (o, w) := OtpCheck(old(verifications.docs)[deliveryId], user, otp, now);
              && outcome == Some(o) && status == StatusOf(o)
              && verifications.docs == old(verifications.docs)[deliveryId := w]
              && (o != OtpMatched ==> unchanged(deliveries, trackings))
              && (o == OtpMatched ==>
                    && deliveries.docs == (if deliveryId in old(deliveries.docs)
                                           then old(deliveries.docs)[deliveryId := old(deliveries.docs)[deliveryId].(
                                                  status := DM.Delivered, arrivalTime := Some(now))]
                                           else old(deliveries.docs))
                    && trackings.docs == (if trackingFound.Some?
                                          then old(trackings.docs)[trackingFound.value := TM.CompleteTracking(old(trackings.docs)[trackingFound.value], now)]
                                          else old(trackings.docs)))
  {
    if deliveryId !in verifications.docs {
      return 404, None;
    }
    var verification := verifications.docs[deliveryId];
    OtpCheckSpec(verification, user, otp, now);
    if now > verification.otp.expiresAt {
      verification := verification.(verificationStatus := Expired);
      verifications.docs := verifications.docs[deliveryId := verification];
      return 400, Some(OtpExpired);
    }
    if verification.otp.attempts >= verification.otp.maxAttempts {
      verification := verification.(verificationStatus := Failed);
      verifications.docs := verifications.docs[deliveryId := verification];
      return 400, Some(AttemptsExhausted);
    }
    if Some(verification.otp.code) != otp {
      verification := verification.(otp := verification.otp.(attempts := verification.otp.attempts + 1));
      verifications.docs := verifications.docs[deliveryId := verification];
      return 401, Some(WrongOtp(verification.otp.maxAttempts - verification.otp.attempts));
    }
    verification := verification.(verificationStatus := Verified, verifiedBy := Some(VerifiedBy(user.id, user.role, now)));
    verifications.docs := verifications.docs[deliveryId := verification];
    if deliveryId in deliveries.docs {
      var delivery := deliveries.docs[deliveryId];
      deliveries.docs := deliveries.docs[deliveryId := delivery.(status := DM.Delivered, arrivalTime := Some(now))];
    }
    if trackingFound.Some? {
      var tracking := trackings.docs[trackingFound.value];
      trackings.docs := trackings.docs[trackingFound.value := TM.CompleteTracking(tracking, now)];
    }
    status, outcome := 200, Some(OtpMatched);
  }

  /** One submitted code and the time it arrives. */
  datatype Try = Try(otp: Option<string>, at: int)

  /** The record after a series of checks, oldest first. */
  function RunChecks(v: Verification, user: User, tries: seq<Try>): Verification
    decreases |tries|
  {
    if |tries| == 0 then v
    else
      var w := RunChecks(v, user, tries[..|tries| - 1]);
      OtpCheck(w, user, tries[|tries| - 1].otp, tries[|tries| - 1].at).1
  }

  /**
   * Wrong codes inside the window only count attempts up to the limit: after `n` of them the record
   * has `min(attempts + n, maxAttempts)` attempts, keeps its status while the limit is not passed,
   * and is failed once a wrong code, or any code, arrives after the limit is reached.
   */
  lemma {:induction false} WrongCodesExhaust(v: Verification, user: User, tries: seq<Try>)
    requires VerificationWellFormed(v)
    requires forall i :: 0 <= i < |tries| ==> tries[i].at <= v.otp.expiresAt && tries[i].otp != Some(v.otp.code)
    ensures var w := RunChecks(v, user, tries);
            && w.otp == v.otp.(attempts := if v.otp.attempts + |tries| <= v.otp.maxAttempts then v.otp.attempts + |tries| else v.otp.maxAttempts)
            && w.verificationStatus == (if v.otp.attempts + |tries| <= v.otp.maxAttempts then v.verificationStatus else Failed)
            && w.verifiedBy == v.verifiedBy
    decreases |tries|
  {
    if |tries| > 0 {
      var init := tries[..|tries| - 1];
      assert forall i :: 0 <= i < |init| ==> init[i] == tries[i];
      WrongCodesExhaust(v, user, init);
    }
  }

  /**
   * With the default limit of three: three wrong codes leave a fresh record pending with three
   * attempts; a fourth fails it without counting; after that even the right code is refused.
   */
  lemma ThreeStrikes(deliveryId: string, code: string, generatedAt: int, user: User, w1: string, w2: string, w3: string, w4: string)
    requires w1 != code && w2 != code && w3 != code && w4 != code
    ensures var v := NewVerification(deliveryId, code, generatedAt);
            var three := RunChecks(v, user, [Try(Some(w1), generatedAt), Try(Some(w2), generatedAt), Try(Some(w3), generatedAt)]);
            var four := OtpCheck(three, user, Some(w4), generatedAt);
            && three.verificationStatus == Pending && three.otp.attempts == 3
            && four.0 == AttemptsExhausted && four.1.verificationStatus == Failed && four.1.otp.attempts == 3
            && OtpCheck(four.1, user, Some(code), generatedAt).0 == AttemptsExhausted
  {
    var v := NewVerification(deliveryId, code, generatedAt);
    var tries := [Try(Some(w1), generatedAt), Try(Some(w2), generatedAt), Try(Some(w3), generatedAt)];
    WrongCodesExhaust(v, user, tries);
  }

  /** The window is closed at its end: the right code still matches at `expiresAt` and is refused one millisecond later. */
  lemma ExpiryBoundary(v: Verification, user: User)
    requires v.otp.attempts < v.otp.maxAttempts
    ensures OtpCheck(v, user, Some(v.otp.code), v.otp.expiresAt).0 == OtpMatched
    ensures OtpCheck(v, user, Some(v.otp.code), v.otp.expiresAt + 1).0 == OtpExpired
    ensures OtpCheck(v, user, Some(v.otp.code), v.otp.expiresAt + 1).1.verificationStatus == Expired
  {
  }

  /**
   * Regeneration reopens any record, even a failed or expired one: its new code matches within 30
   * minutes as long as the limit is positive. A verified record verifies again, too.
   */
  lemma RegenerationReopens(v: Verification, user: User, code: string, now: int, later: int)
    requires v.otp.maxAttempts > 0 && now <= later <= now + OtpValidityMs
    ensures OtpCheck(Regenerated(v, code, now), user, Some(code), later).0 == OtpMatched
    ensures v.verificationStatus == Verified && v.otp.attempts < v.otp.maxAttempts && now <= v.otp.expiresAt ==>
              OtpCheck(v, user, Some(v.otp.code), now).0 == OtpMatched
  {
  }

  // ---------------------------------------------------------------------------------------------
  // reportIntegrityIssues and getVerificationDetails
  // ---------------------------------------------------------------------------------------------

  /** One reported issue as it arrives: its description and optional evidence. */
  datatype IssueInput = IssueInput(description: string, evidence: Option<string>)

  /** The stored issues: reported now by the user, evidence `|| ""`. */
  function StoredIssues(inputs: seq<IssueInput>, userId: string, now: int): (issues: seq<Issue>)
    ensures |issues| == |inputs|
    ensures forall k :: 0 <= k < |inputs| ==>
              issues[k] == Issue(inputs[k].description, now, userId, OrElse(inputs[k].evidence, ""))
  {
    seq(|inputs|, k requires 0 <= k < |inputs| => Issue(inputs[k].description, now, userId, OrElse(inputs[k].evidence, "")))
  }

  /**
   * reportIntegrityIssues: creates a pending record with a fresh code when there is none, then
   * replaces its integrity with `isIntact = false` and the reported issues.
   */
  method ReportIntegrityIssues(verifications: Verifications, user: User, deliveryId: string, issues: seq<IssueInput>,
                               otpDraw: int, now: int)
    returns (r: Response<seq<Issue>>)
    requires verifications.Valid()
    modifies verifications
    ensures verifications.Valid()
    ensures var base := if deliveryId in old(verifications.docs) then old(verifications.docs)[deliveryId]
                        else NewVerification(deliveryId, IntToString(otpDraw), now);
            var stored := StoredIssues(issues, user.id, now);
            && verifications.docs == old(verifications.docs)[deliveryId := base.(deliveryIntegrity := Integrity(Some(false), stored))]
            && r == Ok(200, stored)
  {
    var verification;
    if deliveryId in verifications.docs {
      verification := verifications.docs[deliveryId];
    } else {
      verification := NewVerification(deliveryId, IntToString(otpDraw), now);
    }
    var stored := StoredIssues(issues, user.id, now);
    verification := verification.(deliveryIntegrity := Integrity(Some(false), stored));
    verifications.docs := verifications.docs[deliveryId := verification];
    r := Ok(200, stored);
  }

  /**
   * A report replaces earlier issues rather than adding to them: two reports leave only the second
   * one's issues; an existing record's code, window and attempts are untouched.
   */
  lemma ReportReplacesIssues(v: Verification, first: seq<IssueInput>, second: seq<IssueInput>, userId: string, t1: int, t2: int)
    ensures var once := v.(deliveryIntegrity := Integrity(Some(false), StoredIssues(first, userId, t1)));
            var twice := once.(deliveryIntegrity := Integrity(Some(false), StoredIssues(second, userId, t2)));
            && twice.deliveryIntegrity.issues == StoredIssues(second, userId, t2)
            && |twice.deliveryIntegrity.issues| == |second|
            && twice.otp == v.otp && twice.verificationStatus == v.verificationStatus
            && twice.deliveryIntegrity.isIntact == Some(false)
  {
  }

  /** The OTP block of the view: everything but the code. */
  datatype OtpView = OtpView(generatedAt: int, expiresAt: int, attempts: int, maxAttempts: int)

  /** The view getVerificationDetails returns. */
  datatype VerificationView = VerificationView(delivery: string, otp: OtpView, verificationStatus: VerificationStatus,
                                               verifiedBy: Option<VerifiedBy>, deliveryIntegrity: Integrity)

  function Redact(v: Verification): VerificationView {
    VerificationView(v.delivery, OtpView(v.otp.generatedAt, v.otp.expiresAt, v.otp.attempts, v.otp.maxAttempts),
                     v.verificationStatus, v.verifiedBy, v.deliveryIntegrity)
  }

  /**
   * The view hides exactly the code: two records have the same view if and only if they agree on
   * everything except their codes.
   */
  lemma RedactHidesOnlyCode(v1: Verification, v2: Verification)
    ensures Redact(v1) == Redact(v2) <==> v1.(otp := v1.otp.(code := "")) == v2.(otp := v2.otp.(code := ""))
  {
    if Redact(v1) == Redact(v2) {
      assert v1.otp.(code := "") == v2.otp.(code := "");
    }
  }

  /** getVerificationDetails: the redacted record, or 404. */
  method GetVerificationDetails(verifications: Verifications, deliveryId: string) returns (r: Response<VerificationView>)
    ensures deliveryId !in verifications.docs ==> r == Err(404)
    ensures deliveryId in verifications.docs ==> r == Ok(200, Redact(verifications.docs[deliveryId]))
  {
    if deliveryId !in verifications.docs {
      return Err(404);
    }
    var verification := verifications.docs[deliveryId];
    r := Ok(200, VerificationView(verification.delivery,
                                  OtpView(verification.otp.generatedAt, verification.otp.expiresAt,
                                          verification.otp.attempts, verification.otp.maxAttempts),
                                  verification.verificationStatus, verification.verifiedBy, verification.deliveryIntegrity));
  }
}
