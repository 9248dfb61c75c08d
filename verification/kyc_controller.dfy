/**
 * The KYC handlers: submission by the account holder, the status query, and
 * the administrator's decision. Each is specified by a function on the target
 * user's record and implemented by a method that updates the stored user.
 */
module KycController {
  import opened Wrappers
  import opened External
  import opened Http
  import opened KycModel
  import opened Validation
  import opened KycValidation
  import opened UserModel

  /** The user a handler looks up, as far as KYC is concerned: missing, or found with its record. */
  datatype Target = NoUser | Found(kyc: Option<Kyc>)

  predicate TargetConsistent(t: Target) {
    t.Found? ==> ConsistentRecord(t.kyc)
  }

  /** The response and the target as the handler leaves it. */
  datatype Outcome = Outcome(response: Response, target: Target)

  const UserNotFound := NotFound("error.userNotFound")

  /** The record a successful submission stores. */
  function SubmittedRecord(b: SubmitBody, expiry: int): Kyc {
    Kyc(Submitted, ParseDocumentType(Str(b.documentType)), b.documentNumber, Some(expiry),
        b.documentFront, b.documentBack, b.selfie, None, None)
  }

  /**
   * `submitKYC`: the first validation error, a missing user, a record still
   * under review, and an expiry the database cannot store each refuse the
   * submission and leave the record alone; otherwise the record is replaced
   * by a fresh submitted one, whatever it held before.
   */
  function Submit(t: Target, b: SubmitBody, now: int, lib: Lib): (o: Outcome)
    ensures o.response.status == 200 <==>
      && SubmissionAcceptable(b, now, lib) && t.Found?
      && !(t.kyc.Some? && t.kyc.value.status == Submitted)
      && ExpiryInstant(b, lib).Some?
    ensures o.response.status != 200 ==> o.target == t
    ensures SubmitErrors(b, now, lib) != [] ==> o.response == BadRequest(SubmitErrors(b, now, lib)[0])
    ensures SubmissionAcceptable(b, now, lib) && t.NoUser? ==> o.response == UserNotFound
    ensures SubmissionAcceptable(b, now, lib) && t.Found? && t.kyc.Some? && t.kyc.value.status == Submitted ==>
              o.response == BadRequest("kyc.alreadySubmitted")
    ensures o.response.status == 200 ==>
      && o.response.message == "kyc.submitted"
      && o.target.Found? && o.target.kyc.Some?
      && var k := o.target.kyc.value;
      && k.status == Submitted && Consistent(k)
      && DocumentTypeName(k.documentType.value) == Str(b.documentType)
      && k.documentNumber == b.documentNumber && k.documentExpiry == ExpiryInstant(b, lib)
      && k.documentFront == b.documentFront && k.documentBack == b.documentBack && k.selfie == b.selfie
      && ExpiryInstant(b, lib).value > now
  {
    var errs := SubmitErrors(b, now, lib);
    if errs != [] then Outcome(BadRequest(errs[0]), t)
    else if t.NoUser? then Outcome(UserNotFound, t)
    else if t.kyc.Some? && t.kyc.value.status == Submitted then Outcome(BadRequest("kyc.alreadySubmitted"), t)
    else match ExpiryInstant(b, lib)
      case None => Outcome(ServerError("error.server"), t)
      case Some(expiry) => Outcome(Ok("kyc.submitted"), Found(Some(SubmittedRecord(b, expiry))))
  }

  /** What the status query shows of a record. */
  datatype StatusView = StatusView(
    status: KycStatus,
    documentType: Option<DocumentType>,
    verificationDate: Option<int>,
    rejectionReason: Option<string>)

  datatype StatusReply = StatusRefused(response: Response) | StatusShown(view: StatusView)

  /**
   * `getKYCStatus`: a user without a record gets a pending one, stored; a
   * record that exists is shown as it is and left alone.
   */
  function GetStatus(t: Target): (r: (StatusReply, Target))
    ensures t.NoUser? <==> r.0 == StatusRefused(UserNotFound)
    ensures t.NoUser? || t.kyc.Some? ==> r.1 == t
    ensures t.Found? && t.kyc.None? ==> r.1 == Found(Some(PendingRecord))
    ensures t.Found? ==> r.1.Found? && r.1.kyc.Some? && var k := r.1.kyc.value;
      r.0 == StatusShown(StatusView(k.status, k.documentType, k.verificationDate, k.rejectionReason))
  {
    match t
    case NoUser => (StatusRefused(UserNotFound), t)
    case Found(kyc) =>
      var k := kyc.GetOr(PendingRecord);
      (StatusShown(StatusView(k.status, k.documentType, k.verificationDate, k.rejectionReason)), Found(Some(k)))
  }

  /** The record after a decision on it. */
  function Decide(k: Kyc, b: VerifyBody, now: int): Kyc {
    if Str(b.action) == "reject" then k.(status := Rejected, verificationDate := Some(now), rejectionReason := b.rejectionReason)
    else k.(status := Verified, verificationDate := Some(now), rejectionReason := None)
  }

  /**
   * `verifyKYC`: only a record under review can be decided. An approval
   * verifies it and clears the reason, a rejection records the reason; both
   * date the decision and keep the documents.
   */
  function Verify(t: Target, b: VerifyBody, now: int): (o: Outcome)
    ensures o.response.status == 200 <==>
      VerificationAcceptable(b) && t.Found? && t.kyc.Some? && t.kyc.value.status == Submitted
    ensures o.response.status != 200 ==> o.target == t
    ensures VerifyErrors(b) != [] ==> o.response == BadRequest(VerifyErrors(b)[0])
    ensures VerificationAcceptable(b) && t.NoUser? ==> o.response == UserNotFound
    ensures VerificationAcceptable(b) && t.Found? && t.kyc.None? ==> o.response == BadRequest("kyc.notSubmitted")
    ensures VerificationAcceptable(b) && t.Found? && t.kyc.Some? && t.kyc.value.status != Submitted ==>
              o.response == BadRequest("kyc.invalidStatus")
    ensures o.response.status == 200 ==>
      && o.response.message == "kyc." + Str(b.action) + "Success"
      && o.target.Found? && o.target.kyc.Some?
      && var old_k, k := t.kyc.value, o.target.kyc.value;
      && Consistent(k)
      && (k.status == Verified <==> Str(b.action) == "approve")
      && (k.status == Rejected <==> Str(b.action) == "reject")
      && k.verificationDate == Some(now)
      && (k.status == Rejected ==> k.rejectionReason == b.rejectionReason)
      && k.(status := Submitted, verificationDate := None, rejectionReason := None)
         == old_k.(verificationDate := None, rejectionReason := None)
  {
    var errs := VerifyErrors(b);
    if errs != [] then Outcome(BadRequest(errs[0]), t)
    else if t.NoUser? then Outcome(UserNotFound, t)
    else if t.kyc.None? then Outcome(BadRequest("kyc.notSubmitted"), t)
    else if t.kyc.value.status != Submitted then Outcome(BadRequest("kyc.invalidStatus"), t)
    else Outcome(Ok("kyc." + Str(b.action) + "Success"), Found(Some(Decide(t.kyc.value, b, now))))
  }

  // ---------------------------------------------------------------------
  // The workflow over any sequence of requests
  // ---------------------------------------------------------------------

  datatype Event =
    | SubmitEvent(submitted: SubmitBody, submittedAt: int)
    | StatusEvent
    | VerifyEvent(decision: VerifyBody, decidedAt: int)

  function Step(t: Target, e: Event, lib: Lib): Target {
    match e
    case SubmitEvent(b, now) => Submit(t, b, now, lib).target
    case StatusEvent => GetStatus(t).1
    case VerifyEvent(b, now) => Verify(t, b, now).target
  }

  function Run(t: Target, events: seq<Event>, lib: Lib): Target
    decreases |events|
  {
    if events == [] then t else Run(Step(t, events[0], lib), events[1..], lib)
  }

  /** Every handler keeps the record consistent. */
  lemma StepPreservesConsistency(t: Target, e: Event, lib: Lib)
    requires TargetConsistent(t)
    ensures TargetConsistent(Step(t, e, lib))
  {
  }

  /**
   * Whatever requests arrive, in whatever order, the record stays consistent:
   * a rejection reason exactly when rejected, a decision date exactly when
   * decided, every document while under review.
   */
  lemma {:induction false} RunPreservesConsistency(t: Target, events: seq<Event>, lib: Lib)
    requires TargetConsistent(t)
    ensures TargetConsistent(Run(t, events, lib))
    decreases |events|
  {
    if events != [] {
      StepPreservesConsistency(t, events[0], lib);
      RunPreservesConsistency(Step(t, events[0], lib), events[1..], lib);
    }
  }

  /** The handlers never touch whether a user exists. */
  lemma {:induction false} RunKeepsExistence(t: Target, events: seq<Event>, lib: Lib)
    ensures Run(t, events, lib).Found? <==> t.Found?
    decreases |events|
  {
    if events != [] {
      RunKeepsExistence(Step(t, events[0], lib), events[1..], lib);
    }
  }

  /**
   * In a consistent record, verified means decided with no reason, and
   * rejected means decided with a reason.
   */
  lemma DecisionShape(k: Kyc)
    requires Consistent(k)
    ensures k.status == Verified <==> k.verificationDate.Some? && k.rejectionReason.None?
    ensures k.status == Rejected <==> k.rejectionReason.Some?
  {
  }

  /**
   * A second submission while the first is under review is refused and
   * changes nothing: the record after both equals the record after the first.
   */
  lemma SecondSubmissionIsRefused(t: Target, b1: SubmitBody, now1: int, b2: SubmitBody, now2: int, lib: Lib)
    requires Submit(t, b1, now1, lib).response.status == 200
    ensures var o1 := Submit(t, b1, now1, lib);
      var o2 := Submit(o1.target, b2, now2, lib);
      && o2.target == o1.target
      && o2.response.status == 400
      && (SubmissionAcceptable(b2, now2, lib) ==> o2.response.message == "kyc.alreadySubmitted")
  {
  }

  /** A decided record can be submitted again, and the new submission replaces it. */
  lemma ResubmissionAfterDecision(k: Kyc, b: SubmitBody, now: int, lib: Lib)
    requires Decided(k) && SubmissionAcceptable(b, now, lib) && ExpiryInstant(b, lib).Some?
    ensures var o := Submit(Found(Some(k)), b, now, lib);
      o.response == Ok("kyc.submitted") && o.target.kyc.value.status == Submitted
      && o.target.kyc.value.verificationDate.None? && o.target.kyc.value.rejectionReason.None?
  {
  }

  /** An approved submission then shows as verified with the decision date. */
  lemma ApprovalThenStatus(k: Kyc, id: string, now: int)
    requires k.status == Submitted && id != ""
    ensures var o := Verify(Found(Some(k)), VerifyBody(Some(id), Some("approve"), None), now);
      && o.response == Ok("kyc.approveSuccess")
      && GetStatus(o.target).0 == StatusShown(StatusView(Verified, k.documentType, Some(now), None))
  {
    ReasonOnlyForRejection(id, None);
  }

  /** The first status query stores a pending record; later queries change nothing. */
  lemma StatusQueryIsIdempotent(t: Target)
    ensures GetStatus(GetStatus(t).1) == GetStatus(t)
  {
  }

  /** A decided record cannot be decided again. */
  lemma NoReviewOfDecided(k: Kyc, b: VerifyBody, now: int)
    requires Decided(k)
    ensures Verify(Found(Some(k)), b, now).target == Found(Some(k))
    ensures VerificationAcceptable(b) ==> Verify(Found(Some(k)), b, now).response == BadRequest("kyc.invalidStatus")
  {
  }

  // ---------------------------------------------------------------------
  // The handlers on the stored users
  // ---------------------------------------------------------------------

  /** The user `id` as the handlers find it in the store. */
  function TargetOf(store: UserStore, id: UserId): Target
    reads store, store.users.Values
  {
    if id in store.users then Found(store.users[id].kyc) else NoUser
  }

  method SubmitKyc(store: UserStore, id: UserId, b: SubmitBody, now: int, lib: Lib) returns (response: Response)
    requires store.Valid()
    modifies store.ById(id)`kyc
    ensures store.Valid()
    ensures Outcome(response, TargetOf(store, id)) == Submit(old(TargetOf(store, id)), b, now, lib)
  {
    ghost var t := TargetOf(store, id);
    ghost var o := Submit(t, b, now, lib);
    var errs := SubmitErrors(b, now, lib);
    if errs != [] {
      assert o == Outcome(BadRequest(errs[0]), t);
      return BadRequest(errs[0]);
    }
    if id !in store.users {
      assert o == Outcome(UserNotFound, t);
      return UserNotFound;
    }
    var user := store.users[id];
    if user.kyc.Some? && user.kyc.value.status == Submitted {
      assert o == Outcome(BadRequest("kyc.alreadySubmitted"), t);
      return BadRequest("kyc.alreadySubmitted");
    }
    var expiry := ExpiryInstant(b, lib);
    if expiry.None? {
      assert o == Outcome(ServerError("error.server"), t);
      return ServerError("error.server");
    }
    assert o == Outcome(Ok("kyc.submitted"), Found(Some(SubmittedRecord(b, expiry.value))));
    user.kyc := Some(SubmittedRecord(b, expiry.value));
    store.OneUserChanged(id);
    return Ok("kyc.submitted");
  }

  method GetKycStatus(store: UserStore, id: UserId) returns (reply: StatusReply)
    requires store.Valid()
    modifies store.ById(id)`kyc
    ensures store.Valid()
    ensures (reply, TargetOf(store, id)) == GetStatus(old(TargetOf(store, id)))
  {
    if id !in store.users {
      return StatusRefused(UserNotFound);
    }
    var user := store.users[id];
    if user.kyc.None? {
      user.kyc := Some(PendingRecord);
      store.OneUserChanged(id);
    }
    var k := user.kyc.value;
    return StatusShown(StatusView(k.status, k.documentType, k.verificationDate, k.rejectionReason));
  }

  /** The target is named by the body, not by the authenticated caller. */
  method VerifyKyc(store: UserStore, b: VerifyBody, now: int) returns (response: Response)
    requires store.Valid()
    modifies store.ById(Str(b.userId))`kyc
    ensures store.Valid()
    ensures Outcome(response, TargetOf(store, Str(b.userId))) == Verify(old(TargetOf(store, Str(b.userId))), b, now)
  {
    var errs := VerifyErrors(b);
    if errs != [] {
      return BadRequest(errs[0]);
    }
    var id := Str(b.userId);
    if id !in store.users {
      return UserNotFound;
    }
    var user := store.users[id];
    if user.kyc.None? {
      return BadRequest("kyc.notSubmitted");
    }
    if user.kyc.value.status != Submitted {
      return BadRequest("kyc.invalidStatus");
    }
    user.kyc := Some(Decide(user.kyc.value, b, now));
    store.OneUserChanged(id);
    return Ok("kyc." + Str(b.action) + "Success");
  }
}
