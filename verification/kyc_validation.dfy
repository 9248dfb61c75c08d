/** The rule chains the KYC routes run before the submit and verify handlers. */
module KycValidation {
  import opened Wrappers
  import opened External
  import opened KycModel
  import opened Validation

  datatype SubmitBody = SubmitBody(
    documentType: Option<string>,
    documentNumber: Option<string>,
    documentExpiry: Option<string>,
    documentFront: Option<string>,
    documentBack: Option<string>,
    selfie: Option<string>)

  /** `new Date(documentExpiry)`: None for a missing field or a value that is not a date. */
  function ExpiryInstant(b: SubmitBody, lib: Lib): Option<int> {
    match b.documentExpiry
    case None => None
    case Some(v) => lib.parseDate(v)
  }

  /**
   * The custom expiry rule throws only for a date at or before now; an
   * invalid date compares false and passes it.
   */
  predicate ExpiryNotPast(b: SubmitBody, now: int, lib: Lib) {
    ExpiryInstant(b, lib).None? || ExpiryInstant(b, lib).value > now
  }

  /** `kycValidation`, rule by rule in declaration order. */
  function SubmitChecks(b: SubmitBody, now: int, lib: Lib): seq<Check> {
    [ Check(ParseDocumentType(Str(b.documentType)).Some?, "kyc.invalidDocumentType"),
      Check(NotEmpty(b.documentNumber), "kyc.documentNumberRequired"),
      Check(lib.isIso8601(Str(b.documentExpiry)), "kyc.invalidExpiryDate"),
      Check(ExpiryNotPast(b, now, lib), "kyc.documentExpired"),
      Check(NotEmpty(b.documentFront), "kyc.documentFrontRequired"),
      Check(NotEmpty(b.documentBack), "kyc.documentBackRequired"),
      Check(NotEmpty(b.selfie), "kyc.selfieRequired") ]
  }

  /**
   * A submission the chain lets through: one of the three document types,
   * a document number, an ISO 8601 expiry that is not at or before now, and
   * the three images.
   */
  predicate SubmissionAcceptable(b: SubmitBody, now: int, lib: Lib) {
    && Str(b.documentType) in {"passport", "nationalId", "drivingLicense"}
    && NotEmpty(b.documentNumber)
    && lib.isIso8601(Str(b.documentExpiry))
    && ExpiryNotPast(b, now, lib)
    && NotEmpty(b.documentFront) && NotEmpty(b.documentBack) && NotEmpty(b.selfie)
  }

  function SubmitErrors(b: SubmitBody, now: int, lib: Lib): (errs: seq<string>)
    ensures errs == [] <==> SubmissionAcceptable(b, now, lib)
  {
    var checks := SubmitChecks(b, now, lib);
    NoFailuresIffAllPass(checks);
    assert AllPass(checks) <==> SubmissionAcceptable(b, now, lib) by {
      if !SubmissionAcceptable(b, now, lib) {
        if Str(b.documentType) !in {"passport", "nationalId", "drivingLicense"} { assert !checks[0].ok; }
        else if !NotEmpty(b.documentNumber) { assert !checks[1].ok; }
        else if !lib.isIso8601(Str(b.documentExpiry)) { assert !checks[2].ok; }
        else if !ExpiryNotPast(b, now, lib) { assert !checks[3].ok; }
        else if !NotEmpty(b.documentFront) { assert !checks[4].ok; }
        else if !NotEmpty(b.documentBack) { assert !checks[5].ok; }
        else { assert !checks[6].ok; }
      }
    }
    Failures(checks)
  }

  /** Which message the submit handler reports first, decided by the order of the rules. */
  lemma SubmitFirstError(b: SubmitBody, now: int, lib: Lib)
    ensures var errs := SubmitErrors(b, now, lib);
      && (ParseDocumentType(Str(b.documentType)).None? ==>
            errs != [] && errs[0] == "kyc.invalidDocumentType")
      && (ParseDocumentType(Str(b.documentType)).Some? && !NotEmpty(b.documentNumber) ==>
            errs != [] && errs[0] == "kyc.documentNumberRequired")
      && (ParseDocumentType(Str(b.documentType)).Some? && NotEmpty(b.documentNumber)
          && !lib.isIso8601(Str(b.documentExpiry)) ==>
            errs != [] && errs[0] == "kyc.invalidExpiryDate")
      && (ParseDocumentType(Str(b.documentType)).Some? && NotEmpty(b.documentNumber)
          && lib.isIso8601(Str(b.documentExpiry)) && !ExpiryNotPast(b, now, lib) ==>
            errs != [] && errs[0] == "kyc.documentExpired")
  {
    var checks := SubmitChecks(b, now, lib);
    if !checks[0].ok {
      FirstFailureReported(checks, 0);
    } else if !checks[1].ok {
      FirstFailureReported(checks, 1);
    } else if !checks[2].ok {
      FirstFailureReported(checks, 2);
    } else if !checks[3].ok {
      FirstFailureReported(checks, 3);
    }
  }

  /** The four rules on the document itself pass. */
  predicate DocumentDetailsPass(b: SubmitBody, now: int, lib: Lib) {
    && ParseDocumentType(Str(b.documentType)).Some? && NotEmpty(b.documentNumber)
    && lib.isIso8601(Str(b.documentExpiry)) && ExpiryNotPast(b, now, lib)
  }

  /** Once the document's details pass, the missing images are reported front, back, selfie, each with its own key. */
  lemma SubmitImageError(b: SubmitBody, now: int, lib: Lib)
    ensures var errs := SubmitErrors(b, now, lib);
      && (DocumentDetailsPass(b, now, lib) && !NotEmpty(b.documentFront) ==>
            errs != [] && errs[0] == "kyc.documentFrontRequired")
      && (DocumentDetailsPass(b, now, lib) && NotEmpty(b.documentFront) && !NotEmpty(b.documentBack) ==>
            errs != [] && errs[0] == "kyc.documentBackRequired")
      && (DocumentDetailsPass(b, now, lib) && NotEmpty(b.documentFront) && NotEmpty(b.documentBack)
          && !NotEmpty(b.selfie) ==>
            errs != [] && errs[0] == "kyc.selfieRequired")
  {
    var checks := SubmitChecks(b, now, lib);
    if DocumentDetailsPass(b, now, lib) {
      if !checks[4].ok {
        FirstFailureReported(checks, 4);
      } else if !checks[5].ok {
        FirstFailureReported(checks, 5);
      } else if !checks[6].ok {
        FirstFailureReported(checks, 6);
      }
    }
  }

  /** An expiry equal to now is already expired: otherwise valid, the submission is refused with `kyc.documentExpired`. */
  lemma ExpiryAtNowIsExpired(b: SubmitBody, now: int, lib: Lib)
    requires ExpiryInstant(b, lib) == Some(now)
    requires ParseDocumentType(Str(b.documentType)).Some? && NotEmpty(b.documentNumber)
    requires lib.isIso8601(Str(b.documentExpiry))
    ensures SubmitErrors(b, now, lib) != [] && SubmitErrors(b, now, lib)[0] == "kyc.documentExpired"
  {
    SubmitFirstError(b, now, lib);
  }

  datatype VerifyBody = VerifyBody(userId: Option<string>, action: Option<string>, rejectionReason: Option<string>)

  datatype Decision = Approve | Reject

  /** The enum `approve | reject`. */
  function ParseDecision(s: string): (r: Option<Decision>)
    ensures r.Some? <==> s == "approve" || s == "reject"
    ensures r == Some(Reject) <==> s == "reject"
  {
    if s == "approve" then Some(Approve) else if s == "reject" then Some(Reject) else None
  }

  /** `verificationValidation`: the reason rule applies only when the action is `reject`. */
  function VerifyChecks(b: VerifyBody): seq<Check> {
    [ Check(NotEmpty(b.userId), "kyc.userIdRequired"),
      Check(ParseDecision(Str(b.action)).Some?, "kyc.invalidAction") ]
    + (if Str(b.action) == "reject" then [Check(NotEmpty(b.rejectionReason), "kyc.rejectionReasonRequired")] else [])
  }

  /** A review the chain lets through: a target id, a known action, and a reason for a rejection. */
  predicate VerificationAcceptable(b: VerifyBody) {
    && NotEmpty(b.userId)
    && Str(b.action) in {"approve", "reject"}
    && (Str(b.action) == "reject" ==> NotEmpty(b.rejectionReason))
  }

  function VerifyErrors(b: VerifyBody): (errs: seq<string>)
    ensures errs == [] <==> VerificationAcceptable(b)
  {
    var checks := VerifyChecks(b);
    NoFailuresIffAllPass(checks);
    assert AllPass(checks) <==> VerificationAcceptable(b) by {
      if !VerificationAcceptable(b) {
        if !NotEmpty(b.userId) { assert !checks[0].ok; }
        else if Str(b.action) !in {"approve", "reject"} { assert !checks[1].ok; }
        else { assert !checks[2].ok; }
      }
    }
    Failures(checks)
  }

  /** An approval needs no reason; a rejection without one is refused with `kyc.rejectionReasonRequired`. */
  lemma ReasonOnlyForRejection(id: string, reason: Option<string>)
    requires id != ""
    ensures VerifyErrors(VerifyBody(Some(id), Some("approve"), reason)) == []
    ensures VerifyErrors(VerifyBody(Some(id), Some("reject"), None)) == ["kyc.rejectionReasonRequired"]
  {
    var checks := VerifyChecks(VerifyBody(Some(id), Some("reject"), None));
    assert checks[0].ok && checks[1].ok && !checks[2].ok;
    assert checks[1..][1..] == [checks[2]];
    assert [checks[2]][1..] == [];
    assert Failures([checks[2]]) == ["kyc.rejectionReasonRequired"];
    assert Failures(checks[1..]) == ["kyc.rejectionReasonRequired"];
  }
}
